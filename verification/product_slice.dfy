/** The products slice of the store: the catalogue list and the load status of its
    request, updated by the outcomes of the fetch and post requests. */
module ProductSlice {
  import opened Seqs
  import opened Entities

  datatype Status = Idle | Loading | Succeeded | Failed

  class ProductStore {
    var allProducts: ProductsValue
    var status: Status
    /** The last fetch error message; `None` stands for null or undefined. */
    var error: Option<string>

    /** The initial state: no products, idle, no error. */
    constructor ()
      ensures allProducts == Products([]) && status == Idle && error == None
    {
      allProducts := Products([]);
      status := Idle;
      error := None;
    }

    /** `fetchProducts.pending`: only the status changes. */
    method FetchPending()
      modifies this
      ensures status == Loading
      ensures allProducts == old(allProducts) && error == old(error)
    {
      status := Loading;
    }

    /** `fetchProducts.fulfilled`: the payload replaces the list; an earlier error is kept. */
    method FetchFulfilled(payload: ProductsValue)
      modifies this
      ensures status == Succeeded && allProducts == payload
      ensures error == old(error)
    {
      status := Succeeded;
      allProducts := payload;
    }

    /** `fetchProducts.rejected`: the status fails and the message is recorded; the list stays. */
    method FetchRejected(message: Option<string>)
      modifies this
      ensures status == Failed && error == message
      ensures allProducts == old(allProducts)
    {
      status := Failed;
      error := message;
    }

    /** `postProduct.fulfilled`: the payload is pushed onto the end of the list. When the
        list is not an array the push throws inside the reducer and the state is kept. */
    method PostFulfilled(payload: Product)
      modifies this
      ensures old(allProducts).Products? ==> allProducts == Products(old(allProducts).items + [payload])
      ensures old(allProducts).NotAnArray? ==> allProducts == NotAnArray
      ensures status == old(status) && error == old(error)
    {
      match allProducts {
        case Products(items) => allProducts := Products(items + [payload]);
        case NotAnArray =>
      }
    }
  }

  /** A failed fetch followed by a successful retry: the list is the retry's payload,
      the status is "succeeded", and the first error message is still there. */
  method ErrorSurvivesRetry(message: string, payload: seq<Product>)
    returns (products: ProductsValue, status: Status, error: Option<string>)
    ensures products == Products(payload) && status == Succeeded && error == Some(message)
  {
    var store := new ProductStore();
    store.FetchPending();
    store.FetchRejected(Some(message));
    store.FetchPending();
    store.FetchFulfilled(Products(payload));
    products, status, error := store.allProducts, store.status, store.error;
  }

  /** A product posted after a successful load is the last entry of the list,
      after every fetched product. */
  method PostAfterLoad(fetched: seq<Product>, posted: Product)
    returns (products: ProductsValue)
    ensures products.Products? && products.items == fetched + [posted]
    ensures products.items[|products.items| - 1] == posted
  {
    var store := new ProductStore();
    store.FetchPending();
    store.FetchFulfilled(Products(fetched));
    store.PostFulfilled(posted);
    products := store.allProducts;
  }
}
