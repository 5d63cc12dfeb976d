/** The toast queue of `useToast`: notifications appended by `addToast` (and its four
    typed shorthands) and removed by id. A toast is the plain object the hook builds. */
module Toasts {
  import opened Js
  import opened Seqs

  type Toast = map<string, Json>

  const DefaultDuration: real := 5000.0
  const DefaultPosition: string := "top-right"

  /** `{id, message, type, duration: options.duration || 5000, position: options.position
      || "top-right", ...options}`: `options` is spread last, so every field it carries
      (even a falsy duration) overrides the one written before it. */
  function MakeToast(id: real, message: string, kind: string, options: map<string, Json>): (t: Toast)
    ensures t.Keys == {"id", "message", "type", "duration", "position"} + options.Keys
    ensures t["duration"] == if "duration" in options then options["duration"] else JNum(DefaultDuration)
    ensures t["position"] == if "position" in options then options["position"] else JStr(DefaultPosition)
    ensures t["id"] == if "id" in options then options["id"] else JNum(id)
    ensures t["message"] == if "message" in options then options["message"] else JStr(message)
    ensures t["type"] == if "type" in options then options["type"] else JStr(kind)
    ensures forall k :: k in options ==> t[k] == options[k]
  {
    var duration := if Truthy(Get(options, "duration")) then options["duration"] else JNum(DefaultDuration);
    var position := if Truthy(Get(options, "position")) then options["position"] else JStr(DefaultPosition);
    map["id" := JNum(id), "message" := JStr(message), "type" := JStr(kind),
        "duration" := duration, "position" := position] + options
  }

  /** The toast does not carry the id `id`. */
  predicate HasOtherId(t: Toast, id: Json)
  {
    Get(t, "id") != Some(id)
  }

  /** `prev.filter((toast) => toast.id !== id)`. */
  function WithoutToast(toasts: seq<Toast>, id: Json): (r: seq<Toast>)
    ensures forall t :: t in r ==> Get(t, "id") != Some(id)
    ensures forall t :: t in toasts && Get(t, "id") != Some(id) ==> t in r
    ensures IsSubsequence(r, toasts)
  {
    FilterIsSubsequence(toasts, t => HasOtherId(t, id));
    Filter(toasts, t => HasOtherId(t, id))
  }

  /** Removing a toast just added, under an id no other toast has, restores the queue. */
  lemma AddThenRemove(toasts: seq<Toast>, id: real, message: string, kind: string, options: map<string, Json>)
    requires "id" !in options
    requires forall t :: t in toasts ==> Get(t, "id") != Some(JNum(id))
    ensures WithoutToast(toasts + [MakeToast(id, message, kind, options)], JNum(id)) == toasts
  {
    var keep := (t: Toast) => HasOtherId(t, JNum(id));
    FilterAppend(toasts, [MakeToast(id, message, kind, options)], keep);
    FilterKeepsAll(toasts, keep);
    assert Filter([MakeToast(id, message, kind, options)], keep) == [] + Filter([], keep);
  }

  /** The hook's list. The id is `Date.now() + Math.random()`, supplied by the caller. */
  class ToastQueue {
    var toasts: seq<Toast>

    constructor()
      ensures toasts == []
    {
      toasts := [];
    }

    /** `addToast`: exactly one toast at the end; the others are untouched. */
    method AddToast(message: string, kind: string, options: map<string, Json>, id: real)
      modifies this
      ensures toasts == old(toasts) + [MakeToast(id, message, kind, options)]
      ensures |toasts| == |old(toasts)| + 1 && toasts[..|old(toasts)|] == old(toasts)
    {
      toasts := toasts + [MakeToast(id, message, kind, options)];
    }

    /** `removeToast`: every toast with the id goes, the rest keep their order. */
    method RemoveToast(id: Json)
      modifies this
      ensures toasts == WithoutToast(old(toasts), id)
    {
      toasts := WithoutToast(toasts, id);
    }

    method ShowSuccess(message: string, options: map<string, Json>, id: real)
      modifies this
      ensures toasts == old(toasts) + [MakeToast(id, message, "success", options)]
    {
      AddToast(message, "success", options, id);
    }

    method ShowError(message: string, options: map<string, Json>, id: real)
      modifies this
      ensures toasts == old(toasts) + [MakeToast(id, message, "error", options)]
    {
      AddToast(message, "error", options, id);
    }

    method ShowWarning(message: string, options: map<string, Json>, id: real)
      modifies this
      ensures toasts == old(toasts) + [MakeToast(id, message, "warning", options)]
    {
      AddToast(message, "warning", options, id);
    }

    method ShowInfo(message: string, options: map<string, Json>, id: real)
      modifies this
      ensures toasts == old(toasts) + [MakeToast(id, message, "info", options)]
    {
      AddToast(message, "info", options, id);
    }
  }
}
