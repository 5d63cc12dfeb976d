/** The fetch-on-mount state shared by the products page and the featured-products
    section: the product list, the loading flag and the error text. */
module Listing {
  import opened Js
  import opened Products

  /** The error shown when the products endpoint answers without an error text. */
  const ProductsFetchError: string := "Failed to fetch products"

  /** The same for the featured-products endpoint. */
  const FeaturedFetchError: string := "Failed to fetch featured products"

  /** The error shown when the request or the JSON parse throws. */
  const NetworkError: string := "Network error. Please check your connection."

  /** How the request ended: a parsed body `{success, products, error}`, or a throw
      (the network failed or the body was not JSON). */
  datatype FetchReply =
    | Answered(success: bool, products: seq<Product>, error: Option<string>)
    | NetworkFailure

  /** The `products`, `loading` and `error` state of one listing. */
  class ProductListing {
    /** The text that stands in for a missing `data.error`. */
    const fallbackError: string
    var products: seq<Product>
    var loading: bool
    var error: string

    /** The state before the first render: no products, loading, no error. */
    constructor(fallbackError: string)
      ensures this.fallbackError == fallbackError
      ensures products == [] && loading && error == ""
    {
      this.fallbackError := fallbackError;
      products := [];
      loading := true;
      error := "";
    }

    /** The mount effect: set loading, await the reply, store the products or the error,
        and clear loading in `finally` whatever happened. */
    method Settle(reply: FetchReply)
      modifies this
      ensures !loading
      ensures reply.Answered? && reply.success ==> products == reply.products && error == old(error)
      ensures reply.Answered? && !reply.success ==>
        products == old(products) && error == StrOr(reply.error, fallbackError)
      ensures reply.NetworkFailure? ==> products == old(products) && error == NetworkError
      ensures fallbackError != "" ==>
        (SectionHidden() <==> reply.Answered? && reply.success && reply.products == [] && old(error) == "")
    {
      loading := true;
      match reply {
        case Answered(success, listed, message) =>
          if success {
            products := listed;
          } else {
            error := StrOr(message, fallbackError);
          }
        case NetworkFailure =>
          error := NetworkError;
      }
      loading := false;
    }

    /** The featured section renders nothing once loading is over with no products and no error. */
    predicate SectionHidden()
      reads this
    {
      !loading && products == [] && error == ""
    }
  }
}
