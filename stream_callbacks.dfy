/** The callbacks of streams/src/lib.rs: a builder that fills three optional slots
    field by field, and the built callbacks, whose end-of-stream and error callbacks
    are taken out of their slot when invoked (so each runs at most once) while the
    progress callback stays and runs on every call. A callback is represented by an
    identity; invoking it is recorded in a log. */
module StreamCallbacks {
  import opened Base

  type CallbackId = nat

  datatype Slot = EosSlot | ErrorSlot | ProgressSlot

  /** One invocation: the slot it came from, the callback, and the buffer handed to a
      progress callback. */
  datatype Invocation = Invocation(slot: Slot, callback: CallbackId, buffer: seq<byte>)

  /** MediaStreamCallbacksBuilder. */
  datatype Builder = Builder(eos: Option<CallbackId>, error: Option<CallbackId>, progress: Option<CallbackId>)

  /** MediaStreamCallbacks::new: a builder with no callback set. */
  function New(): (b: Builder)
    ensures b.eos.None? && b.error.None? && b.progress.None?
  {
    Builder(None, None, None)
  }

  function WithEos(b: Builder, f: CallbackId): (r: Builder)
    ensures r.eos == Some(f) && r.error == b.error && r.progress == b.progress
  {
    b.(eos := Some(f))
  }

  function WithError(b: Builder, f: CallbackId): (r: Builder)
    ensures r.error == Some(f) && r.eos == b.eos && r.progress == b.progress
  {
    b.(error := Some(f))
  }

  function WithProgress(b: Builder, f: CallbackId): (r: Builder)
    ensures r.progress == Some(f) && r.eos == b.eos && r.error == b.error
  {
    b.(progress := Some(f))
  }

  /** Builder calls on different slots commute, and a later call on a slot replaces
      an earlier one, so the result depends only on the last callback given per slot. */
  lemma BuilderOrderIrrelevant(b: Builder, e: CallbackId, r: CallbackId, p: CallbackId, e2: CallbackId)
    ensures WithEos(WithError(b, r), e) == WithError(WithEos(b, e), r)
    ensures WithEos(WithProgress(b, p), e) == WithProgress(WithEos(b, e), p)
    ensures WithError(WithProgress(b, p), r) == WithProgress(WithError(b, r), p)
    ensures WithEos(WithEos(b, e2), e) == WithEos(b, e)
    ensures WithProgress(WithError(WithEos(New(), e), r), p) == Builder(Some(e), Some(r), Some(p))
  {
  }

  /** The slots of built callbacks. */
  datatype Slots = Slots(eos: Option<CallbackId>, error: Option<CallbackId>, progress: Option<CallbackId>)

  datatype CallbackOp = Eos | Error | Progress(buffer: seq<byte>)

  function SlotOf(s: Slots, slot: Slot): Option<CallbackId> {
    match slot
    case EosSlot => s.eos
    case ErrorSlot => s.error
    case ProgressSlot => s.progress
  }

  function OpSlot(op: CallbackOp): Slot {
    match op
    case Eos => EosSlot
    case Error => ErrorSlot
    case Progress(_) => ProgressSlot
  }

  /** One call on built callbacks: the slots afterwards and what was invoked. */
  function Step(s: Slots, op: CallbackOp): (r: (Slots, seq<Invocation>))
    ensures op.Progress? ==> r.0 == s
    ensures !op.Progress? ==> SlotOf(r.0, OpSlot(op)).None?
    ensures forall slot :: slot != OpSlot(op) ==> SlotOf(r.0, slot) == SlotOf(s, slot)
    ensures SlotOf(s, OpSlot(op)).None? ==> r.1 == []
    ensures SlotOf(s, OpSlot(op)).Some? ==>
      r.1 == [Invocation(OpSlot(op), SlotOf(s, OpSlot(op)).value, if op.Progress? then op.buffer else [])]
  {
    match op
    case Eos => (s.(eos := None), if s.eos.Some? then [Invocation(EosSlot, s.eos.value, [])] else [])
    case Error => (s.(error := None), if s.error.Some? then [Invocation(ErrorSlot, s.error.value, [])] else [])
    case Progress(buf) => (s, if s.progress.Some? then [Invocation(ProgressSlot, s.progress.value, buf)] else [])
  }

  function Run(s: Slots, ops: seq<CallbackOp>): (Slots, seq<Invocation>)
    decreases |ops|
  {
    if ops == [] then (s, [])
    else
      var first := Step(s, ops[0]);
      var rest := Run(first.0, ops[1..]);
      (rest.0, first.1 + rest.1)
  }

  function Count(inv: seq<Invocation>, slot: Slot): nat {
    if inv == [] then 0 else (if inv[0].slot == slot then 1 else 0) + Count(inv[1..], slot)
  }

  function CountOps(ops: seq<CallbackOp>, slot: Slot): nat {
    if ops == [] then 0 else (if OpSlot(ops[0]) == slot then 1 else 0) + CountOps(ops[1..], slot)
  }

  lemma {:induction false} CountAppend(a: seq<Invocation>, b: seq<Invocation>, slot: Slot)
    ensures Count(a + b, slot) == Count(a, slot) + Count(b, slot)
  {
    if a == [] {
      assert a + b == b;
    } else {
      assert (a + b)[0] == a[0];
      assert (a + b)[1..] == a[1..] + b;
      CountAppend(a[1..], b, slot);
    }
  }

  /** Over any sequence of calls, a one-shot slot (end-of-stream or error) invokes its
      callback once if it was set and is called at all, and never otherwise; the calls
      on the other slots do not affect it. */
  lemma {:induction false} OneShotAtMostOnce(s: Slots, ops: seq<CallbackOp>, slot: Slot)
    requires slot != ProgressSlot
    ensures Count(Run(s, ops).1, slot) == if SlotOf(s, slot).Some? && CountOps(ops, slot) > 0 then 1 else 0
    decreases |ops|
  {
    if ops != [] {
      var first := Step(s, ops[0]);
      OneShotAtMostOnce(first.0, ops[1..], slot);
      CountAppend(first.1, Run(first.0, ops[1..]).1, slot);
    }
  }

  /** The progress callback, if set, runs once per progress call and is never consumed. */
  lemma {:induction false} ProgressEveryCall(s: Slots, ops: seq<CallbackOp>)
    ensures Count(Run(s, ops).1, ProgressSlot) == if s.progress.Some? then CountOps(ops, ProgressSlot) else 0
    ensures Run(s, ops).0.progress == s.progress
    decreases |ops|
  {
    if ops != [] {
      var first := Step(s, ops[0]);
      ProgressEveryCall(first.0, ops[1..]);
      CountAppend(first.1, Run(first.0, ops[1..]).1, ProgressSlot);
    }
  }

  /** MediaStreamCallbacks: the two one-shot slots behind their locks, the progress
      callback, and the log of invocations. */
  class MediaStreamCallbacks {
    var eos: Option<CallbackId>
    var error: Option<CallbackId>
    const progress: Option<CallbackId>
    var invoked: seq<Invocation>

    ghost function Current(): Slots
      reads this
    {
      Slots(eos, error, progress)
    }

    /** MediaStreamCallbacksBuilder::build: every slot is carried over unchanged. */
    constructor Build(b: Builder)
      ensures eos == b.eos && error == b.error && progress == b.progress
      ensures invoked == []
    {
      eos := b.eos;
      error := b.error;
      progress := b.progress;
      invoked := [];
    }

    /** Takes the end-of-stream callback out of its slot and invokes it, if there was one. */
    method Eos()
      modifies this`eos, this`invoked
      ensures Current() == Step(old(Current()), CallbackOp.Eos).0
      ensures invoked == old(invoked) + Step(old(Current()), CallbackOp.Eos).1
    {
      var callback := eos;
      eos := None;
      match callback {
        case None => return;
        case Some(f) => invoked := invoked + [Invocation(EosSlot, f, [])];
      }
    }

    /** Takes the error callback out of its slot and invokes it, if there was one. */
    method Error()
      modifies this`error, this`invoked
      ensures Current() == Step(old(Current()), CallbackOp.Error).0
      ensures invoked == old(invoked) + Step(old(Current()), CallbackOp.Error).1
    {
      var callback := error;
      error := None;
      match callback {
        case None => return;
        case Some(f) => invoked := invoked + [Invocation(ErrorSlot, f, [])];
      }
    }

    /** Invokes the progress callback with the buffer, if there is one; it stays. */
    method Progress(buffer: seq<byte>)
      modifies this`invoked
      ensures Current() == Step(old(Current()), CallbackOp.Progress(buffer)).0
      ensures invoked == old(invoked) + Step(old(Current()), CallbackOp.Progress(buffer)).1
    {
      match progress {
        case None => return;
        case Some(f) => invoked := invoked + [Invocation(ProgressSlot, f, buffer)];
      }
    }
  }
}
