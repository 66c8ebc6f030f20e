/** The toast list: toasts are appended at the end and removed by id. */
module ToastProvider {
  import opened Wrappers

  datatype ToastKind = Success | Error | Warning | Info

  /** `ToastType`. */
  datatype Toast = Toast(id: string, kind: ToastKind, title: string, message: Option<string>, duration: Option<int>)

  /** `Omit<ToastType, 'id'>`: what a caller hands to `addToast`. */
  datatype ToastRequest = ToastRequest(kind: ToastKind, title: string, message: Option<string>, duration: Option<int>)

  const DefaultDuration := 5000

  /** `toast.duration || 5000`: an absent or zero duration is replaced. */
  function EffectiveDuration(requested: Option<int>): (d: int)
    ensures requested.None? ==> d == DefaultDuration
    ensures requested.Some? && requested.value == 0 ==> d == DefaultDuration
    ensures requested.Some? && requested.value != 0 ==> d == requested.value
    ensures d != 0
  {
    if requested.None? || requested.value == 0 then DefaultDuration else requested.value
  }

  /** The toast `addToast` builds from a request and a generated id. */
  function NewToast(request: ToastRequest, id: string): (t: Toast)
    ensures t.id == id && t.kind == request.kind && t.title == request.title && t.message == request.message
    ensures t.duration == Some(EffectiveDuration(request.duration))
  {
    Toast(id, request.kind, request.title, request.message, Some(EffectiveDuration(request.duration)))
  }

  /** `toasts.filter(t => t.id !== id)`. */
  function Without(toasts: seq<Toast>, id: string): (rest: seq<Toast>)
    ensures |rest| <= |toasts|
    ensures forall i :: 0 <= i < |rest| ==> rest[i].id != id
    decreases |toasts|
  {
    if |toasts| == 0 then []
    else if toasts[0].id == id then Without(toasts[1..], id)
    else [toasts[0]] + Without(toasts[1..], id)
  }

  /** Filtering distributes over concatenation, so the order of what is kept
      is the order it had. */
  lemma {:induction false} WithoutAppend(a: seq<Toast>, b: seq<Toast>, id: string)
    ensures Without(a + b, id) == Without(a, id) + Without(b, id)
    decreases |a|
  {
    if |a| == 0 {
      assert a + b == b;
    } else {
      assert (a + b)[1..] == a[1..] + b;
      WithoutAppend(a[1..], b, id);
    }
  }

  /** Exactly the toasts with another id remain. */
  lemma {:induction false} WithoutMembers(toasts: seq<Toast>, id: string, t: Toast)
    ensures t in Without(toasts, id) <==> t in toasts && t.id != id
    decreases |toasts|
  {
    if |toasts| > 0 {
      WithoutMembers(toasts[1..], id, t);
      assert toasts == [toasts[0]] + toasts[1..];
    }
  }

  /** Removing an id that is not there changes nothing. */
  lemma {:induction false} WithoutAbsent(toasts: seq<Toast>, id: string)
    requires forall i :: 0 <= i < |toasts| ==> toasts[i].id != id
    ensures Without(toasts, id) == toasts
    decreases |toasts|
  {
    if |toasts| > 0 {
      WithoutAbsent(toasts[1..], id);
      assert [toasts[0]] + toasts[1..] == toasts;
    }
  }

  /** Removing twice is removing once. */
  lemma WithoutIdempotent(toasts: seq<Toast>, id: string)
    ensures Without(Without(toasts, id), id) == Without(toasts, id)
  {
    WithoutAbsent(Without(toasts, id), id);
  }

  /** Removing a toast just added with a fresh id restores the list. */
  lemma AddThenRemove(toasts: seq<Toast>, t: Toast)
    requires forall i :: 0 <= i < |toasts| ==> toasts[i].id != t.id
    ensures Without(toasts + [t], t.id) == toasts
  {
    WithoutAppend(toasts, [t], t.id);
    WithoutAbsent(toasts, t.id);
    assert Without([t], t.id) == Without([], t.id);
  }

  /** The `toasts` state of the provider. */
  class ToastStack {
    var toasts: seq<Toast>

    constructor ()
      ensures toasts == []
    {
      toasts := [];
    }

    /** `addToast`: appends one toast at the end. */
    method AddToast(request: ToastRequest, id: string) returns (added: Toast)
      modifies this
      ensures added == NewToast(request, id)
      ensures toasts == old(toasts) + [added]
    {
      added := NewToast(request, id);
      toasts := toasts + [added];
    }

    /** `removeToast`: drops every toast with the id. */
    method RemoveToast(id: string)
      modifies this
      ensures toasts == Without(old(toasts), id)
    {
      toasts := Without(toasts, id);
    }
  }
}
