/** The records the storefront receives from its backend, normalised to one shape. */
module Entities {
  import opened Seqs

  /** A product record (`_id`, `description`, `category`, `price`, `status`).
      Optional fields are `None` when the backend leaves them out; prices are
      exact integers (cents). Display-only fields such as the image are not modelled. */
  datatype Product = Product(
    id: string,
    description: Option<string>,
    category: Option<string>,
    price: int,
    status: string)

  /** The value held in `allProducts`: whatever the products request answered
      with, which is either a JSON array of products or something else. */
  datatype ProductsValue = Products(items: seq<Product>) | NotAnArray

  /** An order record as listed in the user panel. Missing flags read as false. */
  datatype OrderRecord = OrderRecord(
    id: string,
    productDescription: Option<string>,
    price: int,
    status: string,
    cancellationRequested: bool,
    cancelApproved: bool)
}
