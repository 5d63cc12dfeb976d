/** The loading registry of `LoadingProvider` (per-key entries plus a global flag) and the
    per-source map of `useImageLoading`. Timestamps come from the clock and are given. */
module Loading {
  import opened Js

  const DefaultMessage: string := "Loading..."

  /** `{isLoading, message, progress, timestamp}`; an entry written only by
      `updateProgress` has no `isLoading` (read as false) and no timestamp. */
  datatype LoadEntry = LoadEntry(isLoading: bool, message: string, progress: int, timestamp: Option<int>)

  /** The `options` argument: `message` and `progress` may be absent. */
  datatype LoadOptions = LoadOptions(message: Option<string>, progress: Option<int>)

  const NoOptions: LoadOptions := LoadOptions(None, None)

  /** What `getLoading` returns for a key without an entry. */
  const Idle: LoadEntry := LoadEntry(false, "", 0, None)

  /** `n || fallback` for a number that may be absent: 0 is falsy. */
  function IntOr(n: Option<int>, fallback: int): int
  {
    if n.Some? && n.value != 0 then n.value else fallback
  }

  /** The entry `setLoading` writes. */
  function Entry(isLoading: bool, options: LoadOptions, now: int): (e: LoadEntry)
    ensures e.isLoading == isLoading && e.timestamp == Some(now)
    ensures e.message != "" && (options.message.Some? && options.message.value != "" ==> e.message == options.message.value)
    ensures (options.progress.None? || options.progress.value == 0) <==> e.progress == 0
  {
    LoadEntry(isLoading, StrOr(options.message, DefaultMessage), IntOr(options.progress, 0), Some(now))
  }

  /** The registry. */
  class LoadingRegistry {
    var loadingStates: map<string, LoadEntry>
    var globalLoading: bool

    constructor()
      ensures loadingStates == map[] && !globalLoading
    {
      loadingStates := map[];
      globalLoading := false;
    }

    /** `setLoading`: only the entry for `key` changes. */
    method SetLoading(key: string, isLoading: bool, options: LoadOptions, now: int)
      modifies this
      ensures loadingStates == old(loadingStates)[key := Entry(isLoading, options, now)]
      ensures globalLoading == old(globalLoading)
    {
      loadingStates := loadingStates[key := Entry(isLoading, options, now)];
    }

    /** `getLoading`: the entry, or an idle one. */
    function GetLoading(key: string): (e: LoadEntry)
      reads this
      ensures key !in loadingStates ==> e == Idle
      ensures key in loadingStates ==> e == loadingStates[key]
    {
      if key in loadingStates then loadingStates[key] else Idle
    }

    /** `isAnyLoading`: some entry is loading, or the global flag is set. */
    predicate IsAnyLoading()
      reads this
    {
      (exists k :: k in loadingStates && loadingStates[k].isLoading) || globalLoading
    }

    /** `clearLoading`: only `key` is removed. */
    method ClearLoading(key: string)
      modifies this
      ensures loadingStates == old(loadingStates) - {key}
      ensures globalLoading == old(globalLoading)
    {
      loadingStates := loadingStates - {key};
    }

    /** `clearAllLoading`: nothing is loading afterwards. */
    method ClearAllLoading()
      modifies this
      ensures loadingStates == map[] && !globalLoading
      ensures !IsAnyLoading()
    {
      loadingStates := map[];
      globalLoading := false;
    }

    /** `setGlobalLoadingState`: on, the flag and a loading "global" entry; off, the flag
        cleared and the "global" entry removed. */
    method SetGlobalLoadingState(isLoading: bool, message: Option<string>, now: int)
      modifies this
      ensures globalLoading == isLoading
      ensures isLoading ==>
        loadingStates == old(loadingStates)["global" := Entry(true, LoadOptions(Some(StrOr(message, DefaultMessage)), None), now)]
      ensures !isLoading ==> loadingStates == old(loadingStates) - {"global"}
      ensures isLoading ==> IsAnyLoading()
    {
      globalLoading := isLoading;
      if isLoading {
        SetLoading("global", true, LoadOptions(Some(StrOr(message, DefaultMessage)), None), now);
      } else {
        ClearLoading("global");
      }
    }

    /** `withLoading`: `key` is loading while the operation runs (`during`), and present
        but not loading afterwards, whether the operation returned or threw; its outcome
        is passed on unchanged. */
    method WithLoading(key: string, options: LoadOptions, outcome: Outcome, startedAt: int, endedAt: int)
      returns (result: Outcome, ghost during: map<string, LoadEntry>)
      modifies this
      ensures during == old(loadingStates)[key := Entry(true, options, startedAt)]
      ensures during[key].isLoading
      ensures loadingStates == during[key := Entry(false, NoOptions, endedAt)]
      ensures key in loadingStates && !loadingStates[key].isLoading
      ensures loadingStates[key].message == DefaultMessage && loadingStates[key].progress == 0
      ensures result == outcome && globalLoading == old(globalLoading)
    {
      SetLoading(key, true, options, startedAt);
      during := loadingStates;
      result := outcome;
      SetLoading(key, false, NoOptions, endedAt);
    }

    /** `updateProgress`: the new progress, the given message or else the previous one
        (or the default); the other fields of the entry are spread back. */
    method UpdateProgress(key: string, progress: int, message: Option<string>)
      modifies this
      ensures key in loadingStates && loadingStates[key].progress == progress
      ensures loadingStates[key].message ==
        StrOr(message, StrOr(if key in old(loadingStates) then Some(old(loadingStates)[key].message) else None, DefaultMessage))
      ensures loadingStates[key].isLoading == (key in old(loadingStates) && old(loadingStates)[key].isLoading)
      ensures loadingStates[key].timestamp == if key in old(loadingStates) then old(loadingStates)[key].timestamp else None
      ensures forall k :: k in old(loadingStates) && k != key ==> k in loadingStates && loadingStates[k] == old(loadingStates)[k]
      ensures loadingStates.Keys == old(loadingStates).Keys + {key}
      ensures globalLoading == old(globalLoading)
    {
      var previous := GetLoading(key);
      var previousMessage := if key in loadingStates then Some(previous.message) else None;
      loadingStates := loadingStates[key := previous.(progress := progress, message := StrOr(message, StrOr(previousMessage, DefaultMessage)))];
    }
  }

  /** How the wrapped operation ended: with a value, or by throwing. */
  datatype Outcome = Resolved(value: Json) | Threw(error: Json)

  /** `useImageLoading`: a loading flag per image source. */
  class ImageLoadingStates {
    var imageStates: map<string, bool>

    constructor()
      ensures imageStates == map[]
    {
      imageStates := map[];
    }

    method SetImageLoading(src: string, isLoading: bool)
      modifies this
      ensures imageStates == old(imageStates)[src := isLoading]
    {
      imageStates := imageStates[src := isLoading];
    }

    /** `imageStates[src] || false`: an unknown source is not loading. */
    predicate IsImageLoading(src: string)
      reads this
    {
      src in imageStates && imageStates[src]
    }

    /** Removes only `src`. */
    method ClearImageLoading(src: string)
      modifies this
      ensures imageStates == old(imageStates) - {src}
      ensures !IsImageLoading(src)
    {
      imageStates := imageStates - {src};
    }
  }
}
