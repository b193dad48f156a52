# Storefront cart and list state, modelled in Dafny

This project models the client-side state rules of a React/Redux storefront:

- the **cart reducer**: line items keyed by product `_id`, and the item count `sup` recomputed after every change;
- the **cart page** built on top of it: increment, decrement, the running `total()`, and checkout with one order per line;
- the **catalogue filter**: a category test and a case-insensitive search on the description;
- the **seller panel**: products split into pending and approved, orders with an approved cancellation hidden, and the content picked by the selected tab;
- the **products slice**: the list, load status and error, as changed by the outcomes of the fetch and post requests;
- the **password-reset dialog**: the guard chain on its two fields and the `loading` flag around the request.

State that the source updates in place is modelled as classes: `CartSlice.CartStore`, `ProductSlice.ProductStore` and `ResetPassword.ResetModal`. Their methods' `ensures` give the whole new state in terms of the old one. Where an operation is more than a field assignment, its method is tied to a specification function, and the properties are proved as lemmas about that function: `CartStore.AddToCart`, the cart page's `CartView.Increment` and the catalogue's `ProductsView.HandleAddToCart` to `AddedLines`; `CartStore.RemoveFromCart` to `RemovedLines`; `CartView.Decrement` to `DecrementedLines`; and `ResetModal.HandleReset` to `ResetEffects`. `CartView.HandlePlaceOrder` states its outcome, the orders it sent and the cart it leaves directly in its `ensures`, in terms of `OrdersFor`. The remaining methods (`CartStore.ClearCart`, the `ProductStore` reducers, `ResetModal.Alert` and `ResetModal.SetLoading`) state their new field values directly. Filtering and summing (`filter`, `reduce`) are written once, generically, in module `Seqs`. Prices are exact integers (cents).

Files, one module each: `seqs.dfy` (Seqs), `entities.dfy` (Entities: the product and order records), `cart_slice.dfy` (CartSlice), `cart_view.dfy` (CartView), `products_view.dfy` (ProductsView), `user_panel.dfy` (UserPanel), `product_slice.dfy` (ProductSlice), `reset_password.dfy` (ResetPassword).

## Model

| member | source | states |
|---|---|---|
| CartSlice.SumQuantity | src/Redux/Slices/CartSlice.js:24 | `sup` is the sum of the line quantities. In a cart where every quantity is at least 1 it is at least the number of lines. |
| CartSlice.AddedLines | src/Redux/Slices/CartSlice.js:13-21 | After `addToCart(item)`, `find` locates a line for `item._id`. The number of lines is unchanged when the id was present and one more when it was absent. |
| CartSlice.RemovedLines | src/Redux/Slices/CartSlice.js:28 | After `removeFromCart(id)`, `find` locates no line for `id`, and there are never more lines than before. |
| CartSlice.FindLine | src/Redux/Slices/CartSlice.js:15 | Returns the index of the first line with the given `_id`. Every earlier line has a different id. The result is None exactly when no line has that id. |
| CartSlice.CountFold | src/Redux/Slices/CartSlice.js:24 | `sup` is the `reduce` fold: 0 for no lines, and each further line adds its quantity. |
| CartSlice.AddExisting | src/Redux/Slices/CartSlice.js:15-18 | Adding an `_id` already in the cart keeps the line count. That line's quantity rises by exactly 1 and its other fields (price included) stay. Every other line is unchanged. |
| CartSlice.AddNew | src/Redux/Slices/CartSlice.js:19-20 | Adding an absent `_id` appends exactly one line `{...item, quantity: 1}` at the end. The existing lines are untouched. |
| CartSlice.AddedSum | src/Redux/Slices/CartSlice.js:13-24 | After `addToCart`, the recomputed count is exactly one more than before. |
| CartSlice.AddPreservesValid | src/Redux/Slices/CartSlice.js:15-21 | `addToCart` preserves "at most one line per `_id`" and "every quantity at least 1". |
| CartSlice.RemovedContents | src/Redux/Slices/CartSlice.js:28 | After `removeFromCart(id)`, no line carries `id`. Every other line is still present, and no line is added. |
| CartSlice.RemovedKeepsOrder | src/Redux/Slices/CartSlice.js:28 | The remaining lines are a subsequence of the old ones, so order is kept and nothing repeats. Removal distributes over concatenation. |
| CartSlice.RemoveAbsent | src/Redux/Slices/CartSlice.js:28 | Removing an absent `_id` leaves the lines as they were. |
| CartSlice.RemovePreservesValid | src/Redux/Slices/CartSlice.js:28 | `removeFromCart` preserves unique ids and positive quantities. |
| CartSlice.RemovedSum | src/Redux/Slices/CartSlice.js:28-31 | When ids are unique, removing a line lowers the recomputed count by exactly that line's quantity. |
| CartSlice.AddThenRemove | src/Redux/Slices/CartSlice.js:13-31 | From a cart with no line for `x._id`, `addToCart(x)` then `removeFromCart(x._id)` gives back the original lines, and so the original count. |
| CartSlice.CartStore.constructor | src/Redux/Slices/CartSlice.js:4-7 | The initial state has no lines and `sup` 0, and satisfies the cart invariant. |
| CartSlice.CartStore.AddToCart | src/Redux/Slices/CartSlice.js:13-25 | The new lines are `AddedLines` of the old ones, and `sup` is their quantity sum. A valid cart stays valid, and its `sup` rises by 1. |
| CartSlice.CartStore.RemoveFromCart | src/Redux/Slices/CartSlice.js:26-32 | The new lines are the old ones filtered by `_id !== id`, and `sup` is their quantity sum. A valid cart stays valid. |
| CartSlice.CartStore.ClearCart | src/Redux/Slices/CartSlice.js:33-36 | Empties the lines and sets `sup` to 0 whatever came before, so a second call changes nothing. |
| CartView.Total | src/components/Cart.jsx:36-38 | When every price and quantity is non-negative, `total()` is non-negative. |
| CartView.DecrementedLines | src/components/Cart.jsx:22-34 | After `decrement(item)` with quantity q > 1, the first line `find` locates for the id is the last line, and it holds quantity q-1. With q at most 1, no line for the id remains. |
| CartView.OrdersFor | src/components/Cart.jsx:49-53 | A checkout builds exactly one order per cart line. |
| CartView.TotalFold | src/components/Cart.jsx:36-38 | `total()` is the `reduce` fold: 0 for an empty cart, and each further line adds `price * quantity`. |
| CartView.IncrementRaisesTotal | src/components/Cart.jsx:18-20 | Incrementing a line in a cart with unique ids raises `total()` by that line's stored price. |
| CartView.Increment | src/components/Cart.jsx:18-20 | Performs one `addToCart` of the line's product. In a valid cart, `sup` rises by exactly 1. |
| CartView.DecrementLastUnit | src/components/Cart.jsx:31-32 | Decrementing a line of quantity 1 is `removeFromCart`, and no line for that id remains. |
| CartView.DecrementMovesToEnd | src/components/Cart.jsx:23-30 | Decrementing a line of quantity q > 1 leaves exactly one line for its id, with quantity q-1. That line is last. The lines before it are the others in their old relative order. |
| CartView.DecrementLowersCount | src/components/Cart.jsx:22-34 | Decrementing a line of a valid cart lowers the count `sup` by exactly 1. |
| CartView.DecrementPreservesValid | src/components/Cart.jsx:22-34 | Decrementing keeps ids unique and quantities at least 1. |
| CartView.AddedLineMerges | src/components/Cart.jsx:28-30 | A re-add inside the decrement loop merges into the line at the end: its quantity rises by 1 and nothing is appended. |
| CartView.Decrement | src/components/Cart.jsx:22-34 | The method performs the remove, then the loop of `quantity - 1` re-adds. The resulting lines are `DecrementedLines` of the old ones, and `sup` is their quantity sum. A valid cart stays valid. |
| CartView.OrdersMatchLines | src/components/Cart.jsx:49-53 | There is one order per line. Order i has `productId == cartItems[i]._id` and `price == price * quantity` of line i. |
| CartView.OrderPricesSumToTotal | src/components/Cart.jsx:49-53 | The order prices of a checkout add up to `total()`. |
| CartView.HandlePlaceOrder | src/components/Cart.jsx:40-72 | With no token, nothing is sent and the cart is kept. Otherwise orders are sent in cart order until the first failure. The cart is cleared exactly when every line's order succeeded. On any failure, the sent orders are the prefix up to the failing one and the cart is unchanged. |
| CartView.IncrementScenario | src/components/Cart.jsx:18-38 | A cart holding p1 (price 10, once) and p2 (price 5, twice) totals 20. After incrementing p1 the total is 30 and the count is 4. |
| ProductsView.Lower | src/components/Products.jsx:37 | `toLowerCase` keeps the length and folds each ASCII capital to its lower-case letter. |
| ProductsView.Includes | src/components/Products.jsx:37 | `includes` is true exactly when the term occurs at some position. The empty term occurs everywhere. |
| ProductsView.FilteredProducts | src/components/Products.jsx:34-40 | Every listed product has a description and passes the category test. The listing is never longer than `allProducts`, and it is empty when `allProducts` is not an array. |
| ProductsView.FilteredCounts | src/components/Products.jsx:34-40 | A product passing both tests is listed exactly as often as it occurs in `allProducts`. Any other product is not listed. |
| ProductsView.FilteredExactly | src/components/Products.jsx:34-40 | A product is listed exactly when it is in `allProducts` and passes both the category and the search test. The listing is a subsequence of `allProducts` and repeats nothing. |
| ProductsView.CategoryRestricts | src/components/Products.jsx:36 | With a category other than 'All', only products of that exact category are listed. |
| ProductsView.UndescribedExcluded | src/components/Products.jsx:37 | A product with no description is never listed. |
| ProductsView.EmptySearchKeepsDescribed | src/components/Products.jsx:37-38 | With an empty search term, a product is listed exactly when it has a description and passes the category test. |
| ProductsView.HandleAddToCart | src/components/Products.jsx:25-32 | With no logged-in user, the cart is unchanged and the user is sent to login. Otherwise the item goes through `addToCart`. |
| UserPanel.Pending | src/components/UserPanel.jsx:232 | Every product in `pending` has status 'pending', and the list is never longer than the input. |
| UserPanel.Approved | src/components/UserPanel.jsx:233 | Every product in `approved` has status 'approved', and the list is never longer than the input. |
| UserPanel.VisibleOrders | src/components/UserPanel.jsx:182 | No order in `visibleOrders` has `cancelApproved` set, and the list is never longer than the input. |
| UserPanel.ProductTableFor | src/components/UserPanel.jsx:128-179 | `renderProductTable(products, isPending)` shows "No products found." exactly when the list is empty. Otherwise it shows a table of exactly those products, with Edit/Delete actions exactly when `isPending`. |
| UserPanel.OrdersTableFor | src/components/UserPanel.jsx:181-225 | `renderOrdersTable()` shows "No orders found." exactly when no order is visible. Otherwise it shows one row per visible order, in order. |
| UserPanel.RenderContent | src/components/UserPanel.jsx:227-242 | The error message is shown exactly when a query failed. Without an error, the pending and approved tabs show "No products found." exactly when their list (`pending` or `approved`) is empty, and otherwise a table of exactly that list, with Edit/Delete actions only on the pending tab. Without an error, the orders tab shows orders content: "No orders found." or a non-empty orders table. |
| UserPanel.PendingExactly | src/components/UserPanel.jsx:232 | `pending` holds exactly the products with status 'pending', in input order, each exactly as often as in the input. |
| UserPanel.ApprovedExactly | src/components/UserPanel.jsx:233 | `approved` holds exactly the products with status 'approved', in input order, each exactly as often as in the input. |
| UserPanel.PendingApprovedDisjoint | src/components/UserPanel.jsx:232-233 | No product is in both lists. A product with any other status, such as 'rejected', is in neither. |
| UserPanel.PartitionCounts | src/components/UserPanel.jsx:232-233 | Together the two lists hold each pending or approved product exactly as many times as the input does, and no other product. |
| UserPanel.VisibleOrdersExactly | src/components/UserPanel.jsx:182 | `visibleOrders` holds exactly the orders whose `cancelApproved` is false, in input order, each exactly as often as in the input. |
| UserPanel.ErrorWins | src/components/UserPanel.jsx:227-230 | If either query failed, the error is shown whatever tab is selected. |
| UserPanel.ActionsOnlyOnPending | src/components/UserPanel.jsx:235-238 | A product table with Edit/Delete actions is shown exactly on the pending tab, when there are pending products. |
| UserPanel.OrderRowsShowCancel | src/components/UserPanel.jsx:181-225 | Whatever the products, the orders tab shows "No orders found." exactly when no order is visible, and otherwise a table listing the visible orders in order. A row offers "Request Cancel" exactly when `cancellationRequested` is false. |
| ProductSlice.ProductStore.constructor | src/Redux/Slices/ProductSlice.js:27-31 | The initial state has `allProducts = []`, status 'idle' and no error. |
| ProductSlice.ProductStore.FetchPending | src/Redux/Slices/ProductSlice.js:36-38 | The status becomes 'loading'. Nothing else changes. |
| ProductSlice.ProductStore.FetchFulfilled | src/Redux/Slices/ProductSlice.js:39-42 | The status becomes 'succeeded' and the payload replaces the list. The error is not reset. |
| ProductSlice.ProductStore.FetchRejected | src/Redux/Slices/ProductSlice.js:43-46 | The status becomes 'failed' and the message is recorded. The list is unchanged. |
| ProductSlice.ProductStore.PostFulfilled | src/Redux/Slices/ProductSlice.js:49-51 | Exactly the payload is appended to the end of the list. The status and error are unchanged. |
| ProductSlice.ErrorSurvivesRetry | src/Redux/Slices/ProductSlice.js:36-46 | After a rejected fetch and then a successful retry, the list is the retry's payload, the status is 'succeeded', and the first error message is still set. |
| ProductSlice.PostAfterLoad | src/Redux/Slices/ProductSlice.js:39-51 | A product posted after a load is the last entry, after every fetched product. |
| ResetPassword.Validate | src/components/ResetPassword.jsx:9-17 | The guards let the handler proceed exactly when the new password is filled and equal to the confirmation. A mismatch verdict implies the fields differ. |
| ResetPassword.ResetEffects | src/components/ResetPassword.jsx:8-43 | The handler always has at least one effect. It starts with an alert exactly when a guard stops it, and then that alert is its only effect. Otherwise there are at least four effects, and the last switches `loading` off. |
| ResetPassword.EmptyFieldStops | src/components/ResetPassword.jsx:9-12 | If either field is empty, the only effect is the alert "Please fill in both fields". No request is sent, even when the fields also differ. |
| ResetPassword.MismatchStops | src/components/ResetPassword.jsx:14-17 | If both fields are filled but differ, the only effect is the alert "Passwords do not match". No request is sent. |
| ResetPassword.RequestBracketedByLoading | src/components/ResetPassword.jsx:19-42 | A request is sent exactly when both fields are filled and equal. `loading` is switched on just before it and switched off as the last effect, however the request ends. |
| ResetPassword.ClosesOnlyOnSuccess | src/components/ResetPassword.jsx:30-36 | The dialog closes exactly when the request was sent and the reply has `ok` and a truthy `success`. |
| ResetPassword.ResetModal.constructor | src/components/ResetPassword.jsx:3-6 | The dialog opens for the given `email` with both password fields empty, `loading` false, and nothing done yet. |
| ResetPassword.ResetModal.HandleReset | src/components/ResetPassword.jsx:8-43 | The handler records the effects `ResetEffects` prescribes and leaves the fields alone. `loading` ends false after any sent request and is untouched when a guard stops the handler. The dialog stays open unless the request succeeded. |

## Left out

- All HTTP traffic: the fetch and post thunks, the React Query hooks, and the panel's delete and cancel-request mutations. Their outcomes enter the model as inputs: the fetch payload or error message, the post payload, `succeeds(i)` for the i-th order, and the reset `Response`.
- CartView.HandlePlaceOrder: the `await` sequencing is reduced to a per-order success flag, and the text of the failure alert is not modelled.
- React rendering, routing and navigation. The "Please login first" alert and the redirect are reduced to the returned `redirectToLogin` flag.
- Floating-point prices and `toFixed(2)` formatting. Prices are exact integers.
- ProductsView.Lower: folds ASCII letters only, not Unicode `toLowerCase`.
- Fields whose type the source does not check are modelled with their intended types. `description` is a string or absent. `category` is a string or absent. The cancellation flags are booleans, with missing read as false.
- UserPanel.RenderContent: the tab is one of the three values the panel ever sets. The source's fall-through for any other value, which renders nothing, is not modelled.
- ProductSlice.ProductStore.PostFulfilled: when `allProducts` is not an array, `push` throws inside the reducer and the `postProduct` dispatch is rejected. The model keeps the state unchanged and does not model the thrown error.
- Session and token-expiry checking, the login and OTP flows, and the auth reducer: AuthSlice is not part of this model, and no expiry check appears in the modelled files.
- The model follows the code. A decrement removes the line and re-adds it, so the line moves to the end of the cart. Decrementing an item that is not in the cart, with quantity above 1, creates a line for it. `addToCart` does not normalise the price. There is no stored total price: `total()` is computed from the lines on demand.
