/** The image helpers of `lib/imageUtils.js`: the best image of a product, URL
    validation through a HEAD request, filtering a list of URLs, preloading, and the
    closure-based loader handle. */
module ImageUtils {
  import opened Js
  import opened Text
  import opened Seqs
  import opened Products
  import opened Fallbacks
  import CardImage

  /** `getBestProductImage`: the first image when there is one, else the category placeholder. */
  function BestProductImage(p: Product): (url: string)
    ensures |p.images| > 0 ==> url == p.images[0]
    ensures |p.images| == 0 ==> url == FallbackImage(p.category)
  {
    if |p.images| > 0 then p.images[0] else FallbackImage(p.category)
  }

  /** The best image is what a fresh product card shows first, whenever the first image
      is a non-empty URL or there are no images at all. */
  lemma BestImageIsFirstShown(p: Product)
    requires |p.images| == 0 || p.images[0] != ""
    ensures BestProductImage(p) == CardImage.ShownImage(CardImage.Fresh, p)
  {
  }

  /** What the HEAD request gave: a response with its status flag and content type, or a throw. */
  datatype HeadOutcome = HeadAnswered(ok: bool, contentType: Option<string>) | HeadFailed

  /** `validateImageUrl`: only a non-empty string is looked up; it is valid when the HEAD
      response is ok and announces an `image/` content type. */
  function ValidateImageUrl(url: Json, head: string -> HeadOutcome): (valid: bool)
    ensures valid ==> url.JStr? && url.s != ""
  {
    if !(url.JStr? && url.s != "") then false
    else
      match head(url.s)
      case HeadAnswered(ok, contentType) => ok && contentType.Some? && StartsWith(contentType.value, "image/")
      case HeadFailed => false
  }

  /** An empty or non-string URL is rejected without consulting the network: the answer
      is the same whatever the HEAD request would have returned. */
  lemma ValidateGuardSkipsRequest(url: Json, head1: string -> HeadOutcome, head2: string -> HeadOutcome)
    requires !url.JStr? || url.s == ""
    ensures !ValidateImageUrl(url, head1) && ValidateImageUrl(url, head1) == ValidateImageUrl(url, head2)
  {
  }

  /** `filterValidImages`: [] for a non-array; otherwise the URLs the validator accepts,
      in their original order (`Promise.all` keeps the order of its inputs). */
  function FilterValidImages(urls: Json, head: string -> HeadOutcome): (valid: seq<Json>)
    ensures !urls.JArr? ==> valid == []
    ensures forall u :: u in valid <==> urls.JArr? && u in urls.items && ValidateImageUrl(u, head)
    ensures forall u :: multiset(valid)[u] == if urls.JArr? && ValidateImageUrl(u, head) then multiset(urls.items)[u] else 0
  {
    if !urls.JArr? then []
    else
      var keep := u => ValidateImageUrl(u, head);
      var valid := Filter(urls.items, keep);
      forall u ensures multiset(valid)[u] == if ValidateImageUrl(u, head) then multiset(urls.items)[u] else 0 {
        FilterCount(urls.items, keep, u);
      }
      valid
  }

  /** The accepted URLs keep their relative order, and every one is a non-empty string. */
  lemma FilterValidImagesOrdered(urls: Json, head: string -> HeadOutcome)
    requires urls.JArr?
    ensures IsSubsequence(FilterValidImages(urls, head), urls.items)
    ensures forall u :: u in FilterValidImages(urls, head) ==> u.JStr? && u.s != ""
  {
    FilterIsSubsequence(urls.items, u => ValidateImageUrl(u, head));
  }

  /** How `preloadImage`'s promise settles. */
  datatype Preload = Resolved(src: string) | Rejected(message: string)

  /** `preloadImage`: a falsy source is rejected at once; otherwise the image's load or
      error event settles the promise. */
  function PreloadImage(src: Option<string>, loads: bool): (r: Preload)
    ensures (src.None? || src.value == "") <==> r == Rejected("No image source provided")
    ensures r.Resolved? <==> src.Some? && src.value != "" && loads
    ensures r.Resolved? ==> r.src == src.value
  {
    if src.None? || src.value == "" then Rejected("No image source provided")
    else if loads then Resolved(src.value)
    else
      assert ("Failed to load image: " + src.value)[0] != "No image source provided"[0];
      Rejected("Failed to load image: " + src.value)
  }

  /** `createImageLoader`: the returned object copies `src`, `isLoading` and `hasError`
      once; the handlers change only the closure's own variables. */
  class ImageLoaderHandle {
    const src: Option<string>
    /** The returned object's `isLoading` and `hasError`: copied once, at creation. */
    const isLoadingField: bool := true
    const hasErrorField: bool := false
    const fallbackSrc: Option<string>
    var isLoading: bool
    var hasError: bool
    var currentSrc: Option<string>

    constructor(src: Option<string>, fallbackSrc: Option<string>)
      ensures this.src == src && isLoadingField && !hasErrorField
      ensures this.fallbackSrc == fallbackSrc
      ensures isLoading && !hasError && currentSrc == src
    {
      this.src := src;
      this.fallbackSrc := fallbackSrc;
      isLoading := true;
      hasError := false;
      currentSrc := src;
    }

    /** `onLoad`. */
    method HandleLoad()
      modifies this
      ensures !isLoading && !hasError && currentSrc == old(currentSrc)
    {
      isLoading := false;
      hasError := false;
    }

    /** `onError`: the closure switches to the fallback, while the returned `src`,
        `isLoading` and `hasError` (constants of the handle) keep their creation values. */
    method HandleError()
      modifies this
      ensures !isLoading && hasError && currentSrc == fallbackSrc
    {
      isLoading := false;
      hasError := true;
      currentSrc := fallbackSrc;
    }
  }
}
