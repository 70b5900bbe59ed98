/**
 * The toast notifications (context/ToastContext.tsx): showing one appends it under an id
 * made from the current millisecond, and removing an id (by its timer after three seconds
 * or by its close button) filters out every toast carrying that id. `Date.now()` is a parameter.
 */
module Toasts {
  import opened Wrappers
  import opened Strings

  datatype ToastKind = Success | Error | Info | Warning

  datatype Toast = Toast(id: string, kind: ToastKind, message: string)

  /** The list without the toasts carrying `id`, the others kept in order. */
  function Without(toasts: seq<Toast>, id: string): (r: seq<Toast>)
    ensures |r| <= |toasts|
    ensures forall t :: t in r <==> t in toasts && t.id != id
  {
    if toasts == [] then []
    else (if toasts[0].id == id then [] else [toasts[0]]) + Without(toasts[1..], id)
  }

  /** Filtering distributes over concatenation: the survivors keep their relative order. */
  lemma {:induction false} WithoutAppend(a: seq<Toast>, b: seq<Toast>, id: string)
    ensures Without(a + b, id) == Without(a, id) + Without(b, id)
  {
    if a == [] {
      assert a + b == b;
    } else {
      assert (a + b)[0] == a[0];
      assert (a + b)[1..] == a[1..] + b;
      WithoutAppend(a[1..], b, id);
    }
  }

  /** Removing an id no toast carries changes nothing. */
  lemma {:induction false} WithoutAbsent(toasts: seq<Toast>, id: string)
    requires forall k :: 0 <= k < |toasts| ==> toasts[k].id != id
    ensures Without(toasts, id) == toasts
  {
    if toasts != [] {
      WithoutAbsent(toasts[1..], id);
    }
  }

  /** Removing the same id twice is removing it once. */
  lemma WithoutIdempotent(toasts: seq<Toast>, id: string)
    ensures Without(Without(toasts, id), id) == Without(toasts, id)
  {
    var r := Without(toasts, id);
    assert forall k :: 0 <= k < |r| ==> r[k] in r;
    WithoutAbsent(r, id);
  }

  /** The id of a toast shown at millisecond `now`. */
  function IdAt(now: nat): string {
    NatToString(now)
  }

  /** `showToast`'s update: exactly one toast at the end, an information toast unless a kind is given. */
  function Shown(toasts: seq<Toast>, message: string, kind: Option<ToastKind>, now: nat): (r: seq<Toast>)
    ensures |r| == |toasts| + 1 && r[..|toasts|] == toasts
    ensures r[|toasts|] == Toast(IdAt(now), kind.GetOr(Info), message)
    ensures kind.None? ==> r[|toasts|].kind == Info
  {
    toasts + [Toast(IdAt(now), kind.GetOr(Info), message)]
  }

  /** A toast's timer takes away that toast and leaves the earlier ones as they were, when their ids differ. */
  lemma ShowThenExpire(toasts: seq<Toast>, message: string, kind: Option<ToastKind>, now: nat)
    requires forall k :: 0 <= k < |toasts| ==> toasts[k].id != IdAt(now)
    ensures Without(Shown(toasts, message, kind, now), IdAt(now)) == toasts
  {
    var t := Toast(IdAt(now), kind.GetOr(Info), message);
    WithoutAppend(toasts, [t], IdAt(now));
    WithoutAbsent(toasts, IdAt(now));
    assert Without([t], IdAt(now)) == [];
  }

  /**
   * Two toasts shown in the same millisecond share an id: the timer (or close button) of
   * either removes both.
   */
  lemma SameMillisecondLeaveTogether(toasts: seq<Toast>, m1: string, m2: string, now: nat)
    ensures var both := Shown(Shown(toasts, m1, None, now), m2, None, now);
            Without(both, IdAt(now)) == Without(toasts, IdAt(now))
  {
    var a := Toast(IdAt(now), Info, m1);
    var b := Toast(IdAt(now), Info, m2);
    assert Shown(Shown(toasts, m1, None, now), m2, None, now) == toasts + [a, b];
    WithoutAppend(toasts, [a, b], IdAt(now));
    assert Without([a, b], IdAt(now)) == [];
  }

  /** Toasts shown in different milliseconds have different ids. */
  lemma DistinctMillisecondsDistinctIds(m: nat, n: nat)
    requires m != n
    ensures IdAt(m) != IdAt(n)
  {
    if IdAt(m) == IdAt(n) {
      NatToStringInjective(m, n);
    }
  }

  /** The provider's state: the toasts on screen, oldest first. */
  class ToastCenter {
    var toasts: seq<Toast>

    constructor()
      ensures toasts == []
    {
      toasts := [];
    }

    /** `showToast`. */
    method Show(message: string, kind: Option<ToastKind>, now: nat)
      modifies this
      ensures toasts == Shown(old(toasts), message, kind, now)
    {
      toasts := toasts + [Toast(IdAt(now), kind.GetOr(Info), message)];
    }

    /** `removeToast`, and the timer set by `showToast` when it fires. */
    method Remove(id: string)
      modifies this
      ensures toasts == Without(old(toasts), id)
    {
      toasts := Without(toasts, id);
    }
  }

  /** `useToast`: the provider's value, or the error thrown outside a provider. */
  function UseToast<C>(context: Option<C>): (r: Result<C, string>)
    ensures context.Some? <==> r.Ok?
    ensures context.Some? ==> r.value == context.value
    ensures r.Err? ==> r.error == "useToast must be used within a ToastProvider"
  {
    match context
    case Some(c) => Ok(c)
    case None => Err("useToast must be used within a ToastProvider")
  }
}
