/**
 * The toast notifications: the provider's list of visible toasts, the helpers
 * that append one of a given kind, removal by id, and the timers that remove a
 * toast again after its duration.
 *
 * Toast ids are built from the clock and a random number in the source; here
 * the caller supplies the id, and nothing is assumed about its uniqueness.
 * Timers are kept as the list of removals still to fire; the delay itself is
 * recorded but the passage of time is not modelled: `Expire` is the moment a
 * timer fires.
 */
module Toasts {
  import opened Common

  datatype ToastType = Success | Error | Warning | Info

  type ToastId = int

  datatype Toast = Toast(id: ToastId, message: string, kind: ToastType, duration: int)

  /** A pending `setTimeout(() => removeToast(id), delay)`. */
  datatype Timer = Timer(id: ToastId, delay: int)

  const DefaultDuration: int := 5000
  const MissingProviderMessage: string := "useToast deve ser usado dentro de ToastProvider"

  function IdOf(t: Toast): ToastId {
    t.id
  }

  /** `toasts.filter(toast => toast.id !== id)` */
  function Without(ts: seq<Toast>, id: ToastId): (r: seq<Toast>)
    ensures forall i :: 0 <= i < |r| ==> r[i] in ts && r[i].id != id
    ensures forall i :: 0 <= i < |ts| && ts[i].id != id ==> ts[i] in r
  {
    RemoveByKey(ts, IdOf, id)
  }

  /** The toast `addToast` builds; an omitted type is 'info', an omitted duration 5000 ms. */
  function MakeToast(id: ToastId, message: string, kind: Option<ToastType>, duration: Option<int>): (t: Toast)
    ensures t.id == id && t.message == message
    ensures kind.None? ==> t.kind == Info
    ensures kind.Some? ==> t.kind == kind.value
    ensures duration.None? ==> t.duration == DefaultDuration
    ensures duration.Some? ==> t.duration == duration.value
  {
    Toast(id, message, kind.GetOr(Info), duration.GetOr(DefaultDuration))
  }

  /** The removal `addToast` schedules: one only when the duration is positive. */
  function TimersFor(t: Toast): (r: seq<Timer>)
    ensures |r| <= 1
    ensures r != [] <==> t.duration > 0
    ensures r != [] ==> r[0] == Timer(t.id, t.duration)
  {
    if t.duration > 0 then [Timer(t.id, t.duration)] else []
  }

  /** `useToast`: the provider's context, or the error thrown outside a provider. */
  function UseToast<C>(context: Option<C>): (r: Result<C, string>)
    ensures context.Some? ==> r == Ok(context.value)
    ensures context.None? ==> r == Err(MissingProviderMessage)
  {
    match context
    case Some(c) => Ok(c)
    case None => Err(MissingProviderMessage)
  }

  class ToastProvider {
    var toasts: seq<Toast>
    var timers: seq<Timer>

    constructor ()
      ensures toasts == [] && timers == []
    {
      toasts := [];
      timers := [];
    }

    /** `addToast(message, type, duration)`, returning the new toast's id. */
    method AddToast(message: string, kind: Option<ToastType>, duration: Option<int>, id: ToastId)
      returns (r: ToastId)
      modifies this
      ensures r == id
      ensures toasts == old(toasts) + [MakeToast(id, message, kind, duration)]
      ensures timers == old(timers) + TimersFor(MakeToast(id, message, kind, duration))
    {
      var toast := MakeToast(id, message, kind, duration);
      toasts := toasts + [toast];
      if toast.duration > 0 {
        timers := timers + [Timer(id, toast.duration)];
      }
      r := id;
    }

    /** `removeToast(id)`: every toast with that id goes, the others stay in order. */
    method RemoveToast(id: ToastId)
      modifies this`toasts
      ensures toasts == Without(old(toasts), id)
    {
      toasts := Without(toasts, id);
    }

    /** Timer `i` fires: it is discharged and removes its toast, if still there. */
    method Expire(i: nat)
      requires i < |timers|
      modifies this
      ensures timers == old(timers[..i] + timers[i + 1..])
      ensures toasts == Without(old(toasts), old(timers[i].id))
    {
      var id := timers[i].id;
      timers := timers[..i] + timers[i + 1..];
      RemoveToast(id);
    }

    method ShowSuccess(message: string, duration: Option<int>, id: ToastId) returns (r: ToastId)
      modifies this
      ensures r == id
      ensures toasts == old(toasts) + [MakeToast(id, message, Some(Success), duration)]
      ensures timers == old(timers) + TimersFor(MakeToast(id, message, Some(Success), duration))
    {
      r := AddToast(message, Some(Success), duration, id);
    }

    method ShowError(message: string, duration: Option<int>, id: ToastId) returns (r: ToastId)
      modifies this
      ensures r == id
      ensures toasts == old(toasts) + [MakeToast(id, message, Some(Error), duration)]
      ensures timers == old(timers) + TimersFor(MakeToast(id, message, Some(Error), duration))
    {
      r := AddToast(message, Some(Error), duration, id);
    }

    method ShowWarning(message: string, duration: Option<int>, id: ToastId) returns (r: ToastId)
      modifies this
      ensures r == id
      ensures toasts == old(toasts) + [MakeToast(id, message, Some(Warning), duration)]
      ensures timers == old(timers) + TimersFor(MakeToast(id, message, Some(Warning), duration))
    {
      r := AddToast(message, Some(Warning), duration, id);
    }

    method ShowInfo(message: string, duration: Option<int>, id: ToastId) returns (r: ToastId)
      modifies this
      ensures r == id
      ensures toasts == old(toasts) + [MakeToast(id, message, Some(Info), duration)]
      ensures timers == old(timers) + TimersFor(MakeToast(id, message, Some(Info), duration))
    {
      r := AddToast(message, Some(Info), duration, id);
    }
  }

  // ---------------------------------------------------------------------------
  // Properties of the list operations

  /** Removing an id no toast carries leaves the list as it was. */
  lemma RemoveAbsent(ts: seq<Toast>, id: ToastId)
    requires forall i :: 0 <= i < |ts| ==> ts[i].id != id
    ensures Without(ts, id) == ts
  {
    RemoveByKeyAbsent(ts, IdOf, id);
  }

  /** Removing twice is removing once. */
  lemma RemoveIdempotent(ts: seq<Toast>, id: ToastId)
    ensures Without(Without(ts, id), id) == Without(ts, id)
  {
    RemoveByKeyIdempotent(ts, IdOf, id);
  }

  /** Removal acts on each part of a list separately, so it keeps the survivors' order. */
  lemma RemoveKeepsOrder(a: seq<Toast>, b: seq<Toast>, id: ToastId)
    ensures Without(a + b, id) == Without(a, id) + Without(b, id)
  {
    RemoveByKeyAppend(a, b, IdOf, id);
  }

  /** Adding a toast under a fresh id and removing that id restores the list. */
  lemma AddThenRemove(ts: seq<Toast>, t: Toast)
    requires forall i :: 0 <= i < |ts| ==> ts[i].id != t.id
    ensures Without(ts + [t], t.id) == ts
  {
    RemoveByKeyAppend(ts, [t], IdOf, t.id);
    RemoveByKeyAbsent(ts, IdOf, t.id);
  }

  /** Adding a toast and removing another id commute. */
  lemma AddThenRemoveOther(ts: seq<Toast>, t: Toast, id: ToastId)
    requires t.id != id
    ensures Without(ts + [t], id) == Without(ts, id) + [t]
  {
    RemoveByKeyAppend(ts, [t], IdOf, id);
  }
}
