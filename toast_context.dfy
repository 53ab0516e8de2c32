/** The toast provider: a queue of short messages, appended to by
    `addToast` and filtered by `removeToast`. */
module ToastContext {
  import opened Common
  import opened Seqs

  /** `'info' | 'success' | 'warning' | 'error'` */
  datatype ToastType = Info | Success | Warning | Error

  datatype Toast = Toast(id: string, message: string, toastType: ToastType)

  /** The type a call without one gets. */
  function TypeOrDefault(toastType: Option<ToastType>): (t: ToastType)
    ensures toastType.None? ==> t == Info
    ensures toastType.Some? ==> t == toastType.value
  {
    if toastType.Some? then toastType.value else Info
  }

  predicate KeepsToast(id: string, t: Toast)
  {
    t.id != id
  }

  /** `toasts.filter(t => t.id !== id)` */
  function WithoutToast(toasts: seq<Toast>, id: string): (r: seq<Toast>)
    ensures |r| <= |toasts|
    ensures forall i :: 0 <= i < |r| ==> r[i].id != id
  {
    Filter(toasts, (t: Toast) => KeepsToast(id, t))
  }

  /** Exactly the toasts with another id remain. */
  lemma WithoutToastExactly(toasts: seq<Toast>, id: string, t: Toast)
    ensures t in WithoutToast(toasts, id) <==> t in toasts && t.id != id
    ensures multiset(WithoutToast(toasts, id))[t] == if t.id != id then multiset(toasts)[t] else 0
  {
    FilterMultiplicity(toasts, (t: Toast) => KeepsToast(id, t), t);
    FilterMembership(toasts, (t: Toast) => KeepsToast(id, t), t);
  }

  /** The remaining toasts keep their order. */
  lemma WithoutToastInOrder(toasts: seq<Toast>, id: string)
    ensures IsSubsequence(WithoutToast(toasts, id), toasts)
  {
    FilterIsSubsequence(toasts, (t: Toast) => KeepsToast(id, t));
  }

  /** Removing an id no toast has leaves the list equal. */
  lemma WithoutAbsentToast(toasts: seq<Toast>, id: string)
    requires forall i :: 0 <= i < |toasts| ==> toasts[i].id != id
    ensures WithoutToast(toasts, id) == toasts
  {
    FilterKeepsAll(toasts, (t: Toast) => KeepsToast(id, t));
  }

  /** Removing twice is removing once. */
  lemma WithoutToastIdempotent(toasts: seq<Toast>, id: string)
    ensures WithoutToast(WithoutToast(toasts, id), id) == WithoutToast(toasts, id)
  {
    WithoutAbsentToast(WithoutToast(toasts, id), id);
  }

  /** What the auto-remove timer does when nothing else happened in between:
      removing a freshly added toast restores the earlier list. */
  lemma RemoveAfterAdd(toasts: seq<Toast>, t: Toast)
    requires forall i :: 0 <= i < |toasts| ==> toasts[i].id != t.id
    ensures WithoutToast(toasts + [t], t.id) == toasts
  {
    var p := (x: Toast) => KeepsToast(t.id, x);
    FilterConcat(toasts, [t], p);
    FilterKeepsAll(toasts, p);
    assert Filter([t], p) == [];
  }

  class ToastProvider {
    var toasts: seq<Toast>

    constructor ()
      ensures toasts == []
    {
      toasts := [];
    }

    /** `addToast(message, type)`. The id comes from the random generator
        and is an input here. */
    method AddToast(message: string, toastType: Option<ToastType>, id: string)
      modifies this
      ensures toasts == old(toasts) + [Toast(id, message, TypeOrDefault(toastType))]
    {
      toasts := toasts + [Toast(id, message, TypeOrDefault(toastType))];
    }

    /** `removeToast(id)` */
    method RemoveToast(id: string)
      modifies this
      ensures toasts == WithoutToast(old(toasts), id)
    {
      toasts := WithoutToast(toasts, id);
    }
  }
}
