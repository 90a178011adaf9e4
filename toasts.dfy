/** The toast list of src/components/ToastProvider.tsx. Adding a toast
    appends it and schedules its removal five seconds later; closing a
    toast removes it at once. The random id is a parameter, and the
    removal timers, which all have the same delay, fire in the order they
    were scheduled. */
module Toasts {
  import opened Wire

  datatype ToastKind = SuccessToast | ErrorToast | WarningToast | InfoToast

  datatype Toast = Toast(id: string, kind: ToastKind, message: string)

  const AutoRemoveMs: nat := 5000

  /** `prev.filter((t) => t.id !== id)`. */
  function RemoveId(s: seq<Toast>, id: string): (r: seq<Toast>)
    ensures |r| <= |s|
    ensures forall t :: t in r <==> t in s && t.id != id
  {
    if s == [] then []
    else if s[0].id == id then RemoveId(s[1..], id)
    else [s[0]] + RemoveId(s[1..], id)
  }

  /** Removal keeps the order of the rest: it distributes over
      concatenation. */
  lemma {:induction false} RemoveIdDistributes(s: seq<Toast>, t: seq<Toast>, id: string)
    ensures RemoveId(s + t, id) == RemoveId(s, id) + RemoveId(t, id)
  {
    if s == [] {
      assert s + t == t;
    } else {
      assert (s + t)[1..] == s[1..] + t;
      RemoveIdDistributes(s[1..], t, id);
    }
  }

  /** Removing an id no toast has leaves the list as it is. */
  lemma {:induction false} RemoveAbsentId(s: seq<Toast>, id: string)
    requires forall x :: x in s ==> x.id != id
    ensures RemoveId(s, id) == s
  {
    if s != [] {
      RemoveAbsentId(s[1..], id);
      assert s == [s[0]] + s[1..];
    }
  }

  /** Removing twice is removing once, and removals of two ids commute. */
  lemma {:induction false} RemoveIdIdempotent(s: seq<Toast>, a: string, b: string)
    ensures RemoveId(RemoveId(s, a), a) == RemoveId(s, a)
    ensures RemoveId(RemoveId(s, a), b) == RemoveId(RemoveId(s, b), a)
  {
    if s != [] {
      RemoveIdIdempotent(s[1..], a, b);
    }
  }

  class ToastCenter {
    var toasts: seq<Toast>
    /** The ids whose removal timer is still pending, oldest first. */
    var pending: seq<string>

    /** Every toast on screen still has its removal timer pending. */
    ghost predicate Valid()
      reads this
    {
      forall t :: t in toasts ==> t.id in pending
    }

    constructor ()
      ensures Valid()
      ensures toasts == [] && pending == []
    {
      toasts := [];
      pending := [];
    }

    /** `addToast`. */
    method AddToast(kind: ToastKind, message: string, id: string)
      requires Valid()
      modifies this
      ensures Valid()
      ensures toasts == old(toasts) + [Toast(id, kind, message)]
      ensures pending == old(pending) + [id]
    {
      toasts := toasts + [Toast(id, kind, message)];
      pending := pending + [id];
    }

    /** `removeToast`, run when a toast is closed. */
    method RemoveToast(id: string)
      requires Valid()
      modifies this`toasts
      ensures Valid()
      ensures toasts == RemoveId(old(toasts), id)
    {
      toasts := RemoveId(toasts, id);
    }

    /** The oldest pending removal timer fires. */
    method AutoRemoveFires()
      requires Valid() && pending != []
      modifies this
      ensures Valid()
      ensures toasts == RemoveId(old(toasts), old(pending)[0])
      ensures pending == old(pending)[1..]
    {
      var id := pending[0];
      toasts := RemoveId(toasts, id);
      pending := pending[1..];
      forall t | t in toasts ensures t.id in pending {
        assert t.id in old(pending) && t.id != id;
      }
    }

    method Success(message: string, id: string)
      requires Valid()
      modifies this
      ensures Valid()
      ensures toasts == old(toasts) + [Toast(id, SuccessToast, message)]
      ensures pending == old(pending) + [id]
    {
      AddToast(SuccessToast, message, id);
    }

    method Error(message: string, id: string)
      requires Valid()
      modifies this
      ensures Valid()
      ensures toasts == old(toasts) + [Toast(id, ErrorToast, message)]
      ensures pending == old(pending) + [id]
    {
      AddToast(ErrorToast, message, id);
    }

    method Warning(message: string, id: string)
      requires Valid()
      modifies this
      ensures Valid()
      ensures toasts == old(toasts) + [Toast(id, WarningToast, message)]
      ensures pending == old(pending) + [id]
    {
      AddToast(WarningToast, message, id);
    }

    method Info(message: string, id: string)
      requires Valid()
      modifies this
      ensures Valid()
      ensures toasts == old(toasts) + [Toast(id, InfoToast, message)]
      ensures pending == old(pending) + [id]
    {
      AddToast(InfoToast, message, id);
    }
  }

  /** The error `useToast` throws outside a provider; the hook itself is
      `UseContext(context, NoToastProvider)`. */
  const NoToastProvider := "useToast must be used within a ToastProvider"

  /** Three toasts shown, the second closed by hand, then the first
      timer fires: only the third is left, and the second's timer, still
      pending, will find nothing to remove. */
  method ToastScenario() returns (shown: seq<Toast>, left: seq<string>)
    ensures shown == [Toast("c", InfoToast, "3")]
    ensures left == ["b", "c"]
  {
    var center := new ToastCenter();
    center.Success("1", "a");
    center.Error("2", "b");
    center.Info("3", "c");
    center.RemoveToast("b");
    center.AutoRemoveFires();
    shown, left := center.toasts, center.pending;
  }
}
