/**
 * The toast queue of `src/context/ToastContext.js`. The provider keeps a
 * list of toasts; `addToast` appends one and arms a five-second timer that
 * removes it by id, and `removeToast` (the close button) removes by id at
 * once. The random id and the timer are outside the model: the id is a
 * parameter, and each armed timer is kept, in arming order, until
 * `FireNextTimer` runs it. Every timer has the same delay, so they fire in
 * the order they were armed.
 */
module Toasts {
  import opened Wrappers

  datatype Toast = Toast(id: string, message: string, kind: string)

  const DefaultKind := "info"
  const AutoRemoveMs := 5000

  /** `toasts.filter((toast) => toast.id !== id)`. */
  function WithoutToast(toasts: seq<Toast>, id: string): (r: seq<Toast>)
    ensures |r| <= |toasts|
    ensures forall t :: t in r <==> t in toasts && t.id != id
  {
    if toasts == [] then []
    else (if toasts[0].id == id then [] else [toasts[0]]) + WithoutToast(toasts[1..], id)
  }

  /** The filter keeps the order of what it keeps: it works piece by piece. */
  lemma {:induction false} WithoutToastConcat(a: seq<Toast>, b: seq<Toast>, id: string)
    ensures WithoutToast(a + b, id) == WithoutToast(a, id) + WithoutToast(b, id)
    decreases |a|
  {
    if a == [] {
      assert a + b == b;
    } else {
      assert (a + b)[0] == a[0];
      assert (a + b)[1..] == a[1..] + b;
      WithoutToastConcat(a[1..], b, id);
    }
  }

  /** Removing an id no toast has leaves the list as it was. */
  lemma {:induction false} WithoutAbsentToast(toasts: seq<Toast>, id: string)
    requires forall i :: 0 <= i < |toasts| ==> toasts[i].id != id
    ensures WithoutToast(toasts, id) == toasts
    decreases |toasts|
  {
    if toasts != [] {
      WithoutAbsentToast(toasts[1..], id);
      assert toasts == [toasts[0]] + toasts[1..];
    }
  }

  /** Removing an id twice is removing it once. */
  lemma {:induction false} WithoutToastIdempotent(toasts: seq<Toast>, id: string)
    ensures WithoutToast(WithoutToast(toasts, id), id) == WithoutToast(toasts, id)
  {
    var r := WithoutToast(toasts, id);
    forall i | 0 <= i < |r|
      ensures r[i].id != id
    {
      assert r[i] in r;
    }
    WithoutAbsentToast(r, id);
  }

  /** A toast whose id is fresh, appended and then removed by its own id,
      leaves exactly the earlier toasts: the auto-removal of a toast touches
      no other toast. */
  lemma AddThenRemove(toasts: seq<Toast>, t: Toast)
    requires forall i :: 0 <= i < |toasts| ==> toasts[i].id != t.id
    ensures WithoutToast(toasts + [t], t.id) == toasts
  {
    WithoutToastConcat(toasts, [t], t.id);
    WithoutAbsentToast(toasts, t.id);
    assert WithoutToast([t], t.id) == [];
  }

  class ToastQueue {
    var toasts: seq<Toast>
    /** The ids of the armed auto-removal timers, earliest first. */
    var timers: seq<string>

    constructor ()
      ensures toasts == [] && timers == []
    {
      toasts := [];
      timers := [];
    }

    /** `addToast(message, type = 'info')`; `None` is an omitted type. */
    method AddToast(message: string, kind: Option<string>, id: string)
      modifies this
      ensures toasts == old(toasts) + [Toast(id, message, kind.GetOr(DefaultKind))]
      ensures timers == old(timers) + [id]
    {
      toasts := toasts + [Toast(id, message, kind.GetOr(DefaultKind))];
      timers := timers + [id];
    }

    /** `removeToast(id)`; the toast's timer stays armed. */
    method RemoveToast(id: string)
      modifies this
      ensures toasts == WithoutToast(old(toasts), id)
      ensures timers == old(timers)
    {
      toasts := WithoutToast(toasts, id);
    }

    /** The earliest armed timer fires and removes the toast with its id, if
        that toast is still there. */
    method FireNextTimer() returns (fired: Option<string>)
      modifies this
      ensures old(timers) == [] ==> fired.None? && toasts == old(toasts) && timers == []
      ensures old(timers) != [] ==>
                && fired == Some(old(timers)[0])
                && timers == old(timers)[1..]
                && toasts == WithoutToast(old(toasts), old(timers)[0])
    {
      if timers == [] {
        fired := None;
      } else {
        fired := Some(timers[0]);
        toasts := WithoutToast(toasts, timers[0]);
        timers := timers[1..];
      }
    }
  }

  /** A toast added with a fresh id, and whose timer is the only one armed,
      is on screen until that timer fires, and then the list is as before. */
  method ShowAndExpire(q: ToastQueue, message: string, id: string)
    requires q.timers == []
    requires forall i :: 0 <= i < |q.toasts| ==> q.toasts[i].id != id
    modifies q
    ensures q.toasts == old(q.toasts) && q.timers == []
  {
    ghost var before := q.toasts;
    q.AddToast(message, None, id);
    assert q.toasts[|q.toasts| - 1] == Toast(id, message, DefaultKind);
    var fired := q.FireNextTimer();
    AddThenRemove(before, Toast(id, message, DefaultKind));
  }
}
