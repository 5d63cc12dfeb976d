/** The image state of a product card (the catalog's `ProductCard` and the home page's
    `FeaturedProductCard` carry the same code): which of the product's images is tried,
    and whether the card has given up and shows the category placeholder. */
module CardImage {
  import opened Js
  import opened Products
  import opened Fallbacks

  /** `currentImageIndex`, `fallbackUsed`, `imageError` and `imageLoading`. */
  datatype CardState = CardState(index: nat, fallbackUsed: bool, imageError: bool, imageLoading: bool)

  /** The state of a newly mounted card, and the state the `_id` effect restores. */
  const Fresh: CardState := CardState(0, false, false, true)

  /** `handleImageError`: try the next image while one is left, else fall back for good. */
  function AfterImageError(s: CardState, imageCount: nat): CardState
  {
    if s.index < imageCount - 1 then s.(index := s.index + 1, imageLoading := true)
    else s.(imageError := true, imageLoading := false, fallbackUsed := true)
  }

  /** `handleImageLoad`. */
  function AfterImageLoad(s: CardState): CardState
  {
    s.(imageLoading := false, imageError := false)
  }

  /** `getCurrentImage`: the placeholder once fallen back; otherwise the image at the
      index, or the placeholder when that entry is missing or empty. */
  function ShownImage(s: CardState, p: Product): (url: string)
    ensures url != ""
    ensures url in p.images || url == FallbackImage(p.category)
    ensures s.fallbackUsed ==> url == FallbackImage(p.category)
    ensures !s.fallbackUsed && s.index < |p.images| && p.images[s.index] != "" ==> url == p.images[s.index]
    ensures !s.fallbackUsed && !(s.index < |p.images| && p.images[s.index] != "") ==> url == FallbackImage(p.category)
  {
    if s.fallbackUsed then FallbackImage(p.category)
    else if |p.images| > 0 then
      (if s.index < |p.images| && p.images[s.index] != "" then p.images[s.index] else FallbackImage(p.category))
    else FallbackImage(p.category)
  }

  /** The state after `k` load errors in a row on a fresh card. */
  function AfterErrors(p: Product, k: nat): CardState
  {
    if k == 0 then Fresh else AfterImageError(AfterErrors(p, k - 1), |p.images|)
  }

  /** Each error moves to the next image; once the last image has failed (or at the
      first error when there are no images) the card shows the category placeholder. */
  lemma {:induction false} ErrorRun(p: Product, k: nat)
    ensures k < |p.images| ==> AfterErrors(p, k) == CardState(k, false, false, true)
    ensures k >= 1 && k >= |p.images| ==>
      AfterErrors(p, k).fallbackUsed && AfterErrors(p, k).imageError && !AfterErrors(p, k).imageLoading
    ensures k >= 1 && k >= |p.images| ==> ShownImage(AfterErrors(p, k), p) == FallbackImage(p.category)
    ensures k < |p.images| && p.images[k] != "" ==> ShownImage(AfterErrors(p, k), p) == p.images[k]
  {
    if k > 0 {
      ErrorRun(p, k - 1);
    }
  }

  /** Falling back is final: neither another error nor a load undoes it. */
  lemma FallbackIsFinal(s: CardState, p: Product)
    requires s.fallbackUsed
    ensures AfterImageError(s, |p.images|).fallbackUsed
    ensures AfterImageLoad(s).fallbackUsed
    ensures ShownImage(AfterImageError(s, |p.images|), p) == FallbackImage(p.category)
  {
  }

  /** A tablet whose only image is dead shows the tablets placeholder after one error. */
  lemma DeadImageShowsCategoryArt()
    ensures ShownImage(AfterErrors(Product(Some("p1"), Some("Tab"), None, Some("Tablets"), ["dead-url"]), 1),
                       Product(Some("p1"), Some("Tab"), None, Some("Tablets"), ["dead-url"]))
         == TabletsImage
  {
    var p := Product(Some("p1"), Some("Tab"), None, Some("Tablets"), ["dead-url"]);
    ErrorRun(p, 1);
    FallbackImageExact(p.category);
  }

  /** One mounted card. */
  class ProductCard {
    var product: Product
    var currentImageIndex: nat
    var fallbackUsed: bool
    var imageError: bool
    var imageLoading: bool

    function State(): CardState
      reads this
    {
      CardState(currentImageIndex, fallbackUsed, imageError, imageLoading)
    }

    constructor(product: Product)
      ensures this.product == product && State() == Fresh
    {
      this.product := product;
      currentImageIndex := 0;
      fallbackUsed := false;
      imageError := false;
      imageLoading := true;
    }

    function CurrentImage(): (url: string)
      reads this
      ensures url == ShownImage(State(), product)
    {
      ShownImage(State(), product)
    }

    method HandleImageError()
      modifies this
      ensures product == old(product)
      ensures State() == AfterImageError(old(State()), |product.images|)
    {
      if currentImageIndex < |product.images| - 1 {
        currentImageIndex := currentImageIndex + 1;
        imageLoading := true;
        return;
      }
      imageError := true;
      imageLoading := false;
      fallbackUsed := true;
    }

    method HandleImageLoad()
      modifies this
      ensures product == old(product)
      ensures State() == AfterImageLoad(old(State()))
    {
      imageLoading := false;
      imageError := false;
    }

    /** A re-render with new props; the effect keyed on `_id` resets the image state
        only when the id differs. */
    method ReceiveProduct(next: Product)
      modifies this
      ensures product == next
      ensures State() == if next.id != old(product.id) then Fresh else old(State())
    {
      var idChanged := next.id != product.id;
      product := next;
      if idChanged {
        imageError := false;
        imageLoading := true;
        currentImageIndex := 0;
        fallbackUsed := false;
      }
    }
  }
}
