/** The image components: `ImageLoader` (one source plus an optional single fallback,
    lazily started), `OptimizedImage` (a chain of sources ending in a category
    placeholder) and `ImageGallery` (the set of loaded indices). Load and error events
    and the intersection observer are external events that call the methods below. */
module ImageLoading {
  import opened Js
  import opened Fallbacks

  /** `imageState`: "loading", "loaded" or "error". */
  datatype LoadState = Loading | Loaded | Failed

  // ------------------------------------------------------------- ImageLoader

  class ImageLoader {
    const lazy: bool
    const fallbackSrc: Option<string>
    var src: Option<string>
    var currentSrc: Option<string>
    var imageState: LoadState
    var isInView: bool
    /** Whether the loader has moved to `fallbackSrc` since `src` last changed. */
    ghost var switched: bool

    ghost predicate Valid()
      reads this
    {
      switched ==> currentSrc == fallbackSrc
    }

    /** A truthy fallback that is not already the current source. */
    predicate CanSwitch()
      reads this
    {
      fallbackSrc.Some? && fallbackSrc.value != "" && currentSrc != fallbackSrc
    }

    /** Initial state: loading the given source; in view at once unless lazy. */
    constructor(src: Option<string>, fallbackSrc: Option<string>, lazy: bool)
      ensures Valid() && !switched
      ensures this.src == src && this.fallbackSrc == fallbackSrc && this.lazy == lazy
      ensures currentSrc == src && imageState == Loading && isInView == !lazy
    {
      this.src := src;
      this.fallbackSrc := fallbackSrc;
      this.lazy := lazy;
      currentSrc := src;
      imageState := Loading;
      isInView := !lazy;
      switched := false;
    }

    /** The observer callback (installed only for lazy images): once in view, always in view. */
    method Intersect(isIntersecting: bool)
      requires lazy
      modifies this
      ensures isInView == (old(isInView) || isIntersecting)
      ensures src == old(src) && currentSrc == old(currentSrc) && imageState == old(imageState)
      ensures switched == old(switched)
    {
      if isIntersecting {
        isInView := true;
      }
    }

    /** `img.onload` (the image is only requested once in view); reports `onLoad`. */
    method ImageLoaded() returns (callsOnLoad: bool)
      requires isInView
      modifies this
      ensures imageState == Loaded && callsOnLoad
      ensures src == old(src) && currentSrc == old(currentSrc) && isInView
      ensures switched == old(switched)
    {
      imageState := Loaded;
      callsOnLoad := true;
    }

    /** `img.onerror`: move to the fallback if there is a usable one, else settle in
        "error" and report `onError`. The fallback is tried at most once per source. */
    method ImageFailed() returns (callsOnError: bool)
      requires Valid() && isInView
      modifies this
      ensures Valid() && src == old(src) && isInView
      ensures old(CanSwitch()) ==> currentSrc == fallbackSrc && imageState == Loading && !callsOnError && switched
      ensures !old(CanSwitch()) ==>
        currentSrc == old(currentSrc) && imageState == Failed && callsOnError && switched == old(switched)
      ensures old(switched) ==> imageState == Failed && callsOnError
    {
      if fallbackSrc.Some? && fallbackSrc.value != "" && currentSrc != fallbackSrc {
        currentSrc := fallbackSrc;
        imageState := Loading;
        switched := true;
        callsOnError := false;
      } else {
        imageState := Failed;
        callsOnError := true;
      }
    }

    /** A new `src` prop: the effect on [src] restarts from the new source. */
    method SetSrc(newSrc: Option<string>)
      requires Valid()
      modifies this
      ensures Valid() && src == newSrc && isInView == old(isInView)
      ensures newSrc != old(src) ==> currentSrc == newSrc && imageState == Loading && !switched
      ensures newSrc == old(src) ==> currentSrc == old(currentSrc) && imageState == old(imageState) && switched == old(switched)
    {
      if newSrc != src {
        src := newSrc;
        currentSrc := newSrc;
        imageState := Loading;
        switched := false;
      }
    }
  }

  // ---------------------------------------------------------- OptimizedImage

  /** `[src, ...fallbacks]`. */
  function AllSources(src: string, fallbacks: seq<string>): (all: seq<string>)
    ensures |all| == |fallbacks| + 1 && all[0] == src && all[1..] == fallbacks
  {
    [src] + fallbacks
  }

  /** `allSources[currentSrcIndex]`: `undefined` past the end of the list. */
  function SourceAt(sources: seq<string>, index: nat): (r: Option<string>)
    ensures r.Some? <==> index < |sources|
    ensures r.Some? ==> r.value == sources[index]
  {
    if index < |sources| then Some(sources[index]) else None
  }

  /** `currentSrcIndex` and `imageState`. */
  datatype ChainState = ChainState(index: nat, state: LoadState)

  const ChainStart: ChainState := ChainState(0, Loading)

  /** `handleImageError` as written: the category placeholder is pushed onto the list of
      the current render only, and the next render rebuilds the list from the props, so
      the index simply moves one past the end. */
  function StepAsWritten(s: ChainState, sources: seq<string>, placeholder: string): ChainState
  {
    if s.index < |sources| - 1 then ChainState(s.index + 1, Loading)
    else if SourceAt(sources, s.index) != Some(placeholder) then ChainState(s.index + 1, Loading)
    else s.(state := Failed)
  }

  /** The state after `k` errors in a row, as written. */
  function ErrorsAsWritten(sources: seq<string>, placeholder: string, k: nat): ChainState
  {
    if k == 0 then ChainStart else StepAsWritten(ErrorsAsWritten(sources, placeholder, k - 1), sources, placeholder)
  }

  /** As written, when the last listed source is not the placeholder, every error moves the
      index on: from the `|sources|`-th error on the rendered source is `undefined`, and the
      image never reaches "error". */
  lemma {:induction false} AsWrittenRunsPastEnd(sources: seq<string>, placeholder: string, k: nat)
    requires |sources| >= 1 && sources[|sources| - 1] != placeholder
    ensures ErrorsAsWritten(sources, placeholder, k) == ChainState(k, Loading)
    ensures k >= |sources| ==> SourceAt(sources, ErrorsAsWritten(sources, placeholder, k).index) == None
  {
    if k > 0 {
      AsWrittenRunsPastEnd(sources, placeholder, k - 1);
    }
  }

  /** As written, a placeholder that is not among the listed sources is never rendered. */
  lemma AsWrittenNeverShowsPlaceholder(sources: seq<string>, placeholder: string, k: nat)
    requires |sources| >= 1 && placeholder !in sources
    ensures SourceAt(sources, ErrorsAsWritten(sources, placeholder, k).index) != Some(placeholder)
  {
    AsWrittenRunsPastEnd(sources, placeholder, k);
  }

  /** A tablet card whose one image is dead: as written, after the error the image is
      handed `undefined` rather than the tablets placeholder. */
  lemma DeadTabletImageAsWritten()
    ensures SourceAt(["dead-url"], ErrorsAsWritten(["dead-url"], ShortFallbackImage(Some("Tablets")), 1).index) == None
  {
    ShortTableMissesStoreNames();
    AsWrittenRunsPastEnd(["dead-url"], ShortFallbackImage(Some("Tablets")), 1);
  }

  /** The corrected chain keeps the appended placeholder in its own state. */
  datatype FixedChain = FixedChain(sources: seq<string>, index: nat, state: LoadState)

  /** `handleImageError` with a list that persists across renders. */
  function StepFixed(c: FixedChain, placeholder: string): (r: FixedChain)
    requires c.index < |c.sources|
    ensures r.index < |r.sources|
    ensures c.sources <= r.sources
  {
    if c.index < |c.sources| - 1 then c.(index := c.index + 1, state := Loading)
    else if c.sources[c.index] != placeholder then FixedChain(c.sources + [placeholder], c.index + 1, Loading)
    else c.(state := Failed)
  }

  /** The corrected state after `k` errors in a row. */
  function ErrorsFixed(sources: seq<string>, placeholder: string, k: nat): (c: FixedChain)
    requires |sources| >= 1
    ensures c.index < |c.sources|
  {
    if k == 0 then FixedChain(sources, 0, Loading)
    else StepFixed(ErrorsFixed(sources, placeholder, k - 1), placeholder)
  }

  /** The corrected chain tries the listed sources in order, then the placeholder (unless
      the list already ends with it), then settles in "error"; a source is always rendered. */
  lemma {:induction false} FixedRun(sources: seq<string>, placeholder: string, k: nat)
    requires |sources| >= 1
    ensures k < |sources| ==> ErrorsFixed(sources, placeholder, k) == FixedChain(sources, k, Loading)
    ensures sources[|sources| - 1] != placeholder && k == |sources| ==>
      ErrorsFixed(sources, placeholder, k) == FixedChain(sources + [placeholder], k, Loading)
    ensures sources[|sources| - 1] != placeholder && k > |sources| ==>
      ErrorsFixed(sources, placeholder, k) == FixedChain(sources + [placeholder], |sources|, Failed)
    ensures sources[|sources| - 1] == placeholder && k >= |sources| ==>
      ErrorsFixed(sources, placeholder, k) == FixedChain(sources, |sources| - 1, Failed)
  {
    if k > 0 {
      FixedRun(sources, placeholder, k - 1);
      if sources[|sources| - 1] != placeholder && k > |sources| {
        assert (sources + [placeholder])[|sources|] == placeholder;
      }
    }
  }

  /** With the correction, the dead tablet image is replaced by the tablets placeholder. */
  lemma DeadTabletImageFixed()
    ensures var c := ErrorsFixed(["dead-url"], ShortFallbackImage(Some("Tablets")), 1);
      c.sources[c.index] == TabletsImage && c.state == Loading
  {
    ShortTableMissesStoreNames();
    FixedRun(["dead-url"], TabletsImage, 1);
  }

  /** `OptimizedImage` as written: the source list is recomputed from the props. */
  class OptimizedImageAsWritten {
    const src: string
    const fallbacks: seq<string>
    const category: Option<string>
    var currentSrcIndex: nat
    var imageState: LoadState

    function Chain(): ChainState
      reads this
    {
      ChainState(currentSrcIndex, imageState)
    }

    /** The `src` handed to `ImageLoader`. */
    function RenderedSource(): Option<string>
      reads this
    {
      SourceAt(AllSources(src, fallbacks), currentSrcIndex)
    }

    constructor(src: string, fallbacks: seq<string>, category: Option<string>)
      ensures this.src == src && this.fallbacks == fallbacks && this.category == category
      ensures Chain() == ChainStart
    {
      this.src := src;
      this.fallbacks := fallbacks;
      this.category := category;
      currentSrcIndex := 0;
      imageState := Loading;
    }

    method HandleImageError()
      modifies this
      ensures Chain() == StepAsWritten(old(Chain()), AllSources(src, fallbacks), ShortFallbackImage(category))
    {
      var allSources := AllSources(src, fallbacks);
      if currentSrcIndex < |allSources| - 1 {
        currentSrcIndex := currentSrcIndex + 1;
        imageState := Loading;
      } else {
        var finalFallback := ShortFallbackImage(category);
        if SourceAt(allSources, currentSrcIndex) != Some(finalFallback) {
          allSources := allSources + [finalFallback];
          currentSrcIndex := currentSrcIndex + 1;
          imageState := Loading;
        } else {
          imageState := Failed;
        }
      }
    }
  }

  /** `OptimizedImage` with the source list kept as state, so the pushed placeholder stays. */
  class OptimizedImage {
    const category: Option<string>
    var sources: seq<string>
    var currentSrcIndex: nat
    var imageState: LoadState

    ghost predicate Valid()
      reads this
    {
      currentSrcIndex < |sources|
    }

    function Chain(): FixedChain
      reads this
    {
      FixedChain(sources, currentSrcIndex, imageState)
    }

    /** The `src` handed to `ImageLoader`: always a listed source or the placeholder. */
    function RenderedSource(): string
      requires Valid()
      reads this
    {
      sources[currentSrcIndex]
    }

    constructor(src: string, fallbacks: seq<string>, category: Option<string>)
      ensures Valid() && this.category == category
      ensures Chain() == FixedChain(AllSources(src, fallbacks), 0, Loading)
    {
      this.category := category;
      sources := AllSources(src, fallbacks);
      currentSrcIndex := 0;
      imageState := Loading;
    }

    method HandleImageError()
      requires Valid()
      modifies this
      ensures Valid()
      ensures Chain() == StepFixed(old(Chain()), ShortFallbackImage(category))
    {
      if currentSrcIndex < |sources| - 1 {
        currentSrcIndex := currentSrcIndex + 1;
        imageState := Loading;
      } else {
        var finalFallback := ShortFallbackImage(category);
        if sources[currentSrcIndex] != finalFallback {
          sources := sources + [finalFallback];
          currentSrcIndex := currentSrcIndex + 1;
          imageState := Loading;
        } else {
          imageState := Failed;
        }
      }
    }

    method HandleImageLoad()
      requires Valid()
      modifies this
      ensures Valid() && sources == old(sources) && currentSrcIndex == old(currentSrcIndex)
      ensures imageState == Loaded
    {
      imageState := Loaded;
    }
  }

  // ------------------------------------------------------------ ImageGallery

  class ImageGallery {
    var loadedImages: set<int>

    constructor()
      ensures loadedImages == {}
    {
      loadedImages := {};
    }

    /** A loaded image adds its index; the set never shrinks. */
    method HandleImageLoad(index: int)
      modifies this
      ensures loadedImages == old(loadedImages) + {index}
      ensures old(loadedImages) <= loadedImages && index in loadedImages
    {
      loadedImages := loadedImages + {index};
    }
  }
}
