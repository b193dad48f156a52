/** The password-reset dialog: two guards on the form fields, then one request with
    a `loading` flag held on while it is in flight. */
module ResetPassword {
  import opened Seqs

  /** The guard chain's verdict. */
  datatype Verdict = MissingField | Mismatch | Proceed

  const FillBothFields := "Please fill in both fields"
  const PasswordsDiffer := "Passwords do not match"
  const ResetFailed := "Failed to reset password"
  const ResetDone := "Password updated successfully!"
  const ServerError := "Server error. Please try again."

  /** The guards of `handleReset`, in order: emptiness first, then equality. */
  function Validate(newPassword: string, confirmPassword: string): (v: Verdict)
    ensures v == Proceed <==> newPassword != "" && newPassword == confirmPassword
    ensures v == Mismatch ==> newPassword != confirmPassword
  {
    if newPassword == "" || confirmPassword == "" then MissingField
    else if newPassword != confirmPassword then Mismatch
    else Proceed
  }

  /** How the request ended: an exception (network failure or an unreadable body), or a
      reply with its `ok` flag and the body's `success` and `message` fields. */
  datatype Response = Threw | Reply(ok: bool, success: bool, message: Option<string>)

  /** What the handler does that the outside world sees, in order. */
  datatype Effect =
    | Alert(text: string)
    | SetLoading(on: bool)
    | SendRequest(email: string, newPassword: string)
    | CloseModal

  /** `data.message || 'Failed to reset password'`: an empty message counts as missing. */
  function FailureText(message: Option<string>): string
  {
    if message.Some? && message.value != "" then message.value else ResetFailed
  }

  /** The effects of one `handleReset`, given the answer the request would get. */
  function ResetEffects(email: string, newPassword: string, confirmPassword: string, response: Response): (e: seq<Effect>)
    ensures |e| >= 1
    ensures e[0].Alert? <==> Validate(newPassword, confirmPassword) != Proceed
    ensures Validate(newPassword, confirmPassword) != Proceed ==> |e| == 1
    ensures Validate(newPassword, confirmPassword) == Proceed ==> |e| >= 4 && e[|e| - 1] == SetLoading(false)
  {
    match Validate(newPassword, confirmPassword)
    case MissingField => [Alert(FillBothFields)]
    case Mismatch => [Alert(PasswordsDiffer)]
    case Proceed =>
      [SetLoading(true), SendRequest(email, newPassword)] +
      (match response
       case Threw => [Alert(ServerError)]
       case Reply(ok, success, message) =>
         if !ok || !success then [Alert(FailureText(message))] else [Alert(ResetDone), CloseModal]) +
      [SetLoading(false)]
  }

  predicate SendsRequest(effects: seq<Effect>)
  {
    exists i :: 0 <= i < |effects| && effects[i].SendRequest?
  }

  /** An empty field stops the handler with "Please fill in both fields" and nothing is
      sent; this is checked before equality, so it wins even when the fields differ. */
  lemma EmptyFieldStops(email: string, newPassword: string, confirmPassword: string, response: Response)
    requires newPassword == "" || confirmPassword == ""
    ensures ResetEffects(email, newPassword, confirmPassword, response) == [Alert(FillBothFields)]
    ensures !SendsRequest(ResetEffects(email, newPassword, confirmPassword, response))
  {
  }

  /** Two filled but different fields stop the handler with "Passwords do not match". */
  lemma MismatchStops(email: string, newPassword: string, confirmPassword: string, response: Response)
    requires newPassword != "" && confirmPassword != "" && newPassword != confirmPassword
    ensures ResetEffects(email, newPassword, confirmPassword, response) == [Alert(PasswordsDiffer)]
    ensures !SendsRequest(ResetEffects(email, newPassword, confirmPassword, response))
  {
  }

  /** A request is sent exactly when both fields are filled and equal; then `loading` is
      switched on before it and switched off as the very last effect, however it ended. */
  lemma RequestBracketedByLoading(email: string, newPassword: string, confirmPassword: string, response: Response)
    ensures var e := ResetEffects(email, newPassword, confirmPassword, response);
      && (SendsRequest(e) <==> newPassword != "" && newPassword == confirmPassword)
      && (SendsRequest(e) ==>
            |e| >= 4 && e[0] == SetLoading(true) && e[1] == SendRequest(email, newPassword)
            && e[|e| - 1] == SetLoading(false)
            && forall i :: 2 <= i < |e| ==> !e[i].SendRequest? && e[i] != SetLoading(true))
  {
    var e := ResetEffects(email, newPassword, confirmPassword, response);
    if newPassword != "" && newPassword == confirmPassword {
      assert e[1].SendRequest?;
    }
  }

  /** The dialog is closed exactly when the request was sent and answered with `ok` and
      a truthy `success`. */
  lemma ClosesOnlyOnSuccess(email: string, newPassword: string, confirmPassword: string, response: Response)
    ensures CloseModal in ResetEffects(email, newPassword, confirmPassword, response) <==>
      Validate(newPassword, confirmPassword) == Proceed && response.Reply? && response.ok && response.success
  {
  }

  /** The dialog's component state. */
  class ResetModal {
    const email: string
    var newPassword: string
    var confirmPassword: string
    var loading: bool
    var open: bool
    /** Everything the handler has done so far, oldest first. */
    var effects: seq<Effect>

    constructor (email: string)
      ensures this.email == email && newPassword == "" && confirmPassword == ""
      ensures !loading && open && effects == []
    {
      this.email := email;
      newPassword, confirmPassword := "", "";
      loading, open := false, true;
      effects := [];
    }

    method Alert(text: string)
      modifies this`effects
      ensures effects == old(effects) + [Effect.Alert(text)]
    {
      effects := effects + [Effect.Alert(text)];
    }

    method SetLoading(on: bool)
      modifies this`loading, this`effects
      ensures effects == old(effects) + [Effect.SetLoading(on)]
      ensures loading == on
    {
      loading := on;
      effects := effects + [Effect.SetLoading(on)];
    }

    /** `handleReset`, with `response` standing for what the request would get back. */
    method HandleReset(response: Response)
      modifies this
      ensures effects == old(effects) + ResetEffects(email, newPassword, confirmPassword, response)
      ensures newPassword == old(newPassword) && confirmPassword == old(confirmPassword)
      ensures loading == (if Validate(newPassword, confirmPassword) == Proceed then false else old(loading))
      ensures open == (old(open) && !(Validate(newPassword, confirmPassword) == Proceed
                                      && response.Reply? && response.ok && response.success))
    {
      if newPassword == "" || confirmPassword == "" {
        Alert(FillBothFields);
        return;
      }
      if newPassword != confirmPassword {
        Alert(PasswordsDiffer);
        return;
      }
      SetLoading(true);
      effects := effects + [SendRequest(email, newPassword)];
      match response {
        case Threw =>
          Alert(ServerError);
        case Reply(ok, success, message) =>
          if !ok || !success {
            Alert(FailureText(message));
          } else {
            Alert(ResetDone);
            open := false;
            effects := effects + [CloseModal];
          }
      }
      SetLoading(false);
    }
  }
}
