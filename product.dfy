/** The product document as the catalog pages and cards read it. */
module Products {
  import opened Js

  /** A product as listed by the catalog endpoints. `_id`, `name`, `description` and
      `category` may be missing. A missing `images` behaves like an empty array wherever
      the pages read it, so it is modelled as the empty sequence. */
  datatype Product = Product(
    id: Option<string>,
    name: Option<string>,
    description: Option<string>,
    category: Option<string>,
    images: seq<string>)
}
