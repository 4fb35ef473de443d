/** rdv/rendezvous.go: the one-shot rendezvous `Rdv`. An `Rdv` is a channel of
    capacity one; the goroutine launched with it (the producer) sends exactly one
    record and then closes the channel. Scheduling is made explicit: the
    producer's progress is part of the state, and which arm of a `select` wins
    is an input. */
module Rendezvous {
  import opened Values
  import Faults
  import Util

  /** `rdvData`: the record carried by the channel. */
  datatype RdvData<T> = RdvData(value: T, err: Option<Error>, chanOpen: bool)

  /** The capacity-one channel: the buffered record, if any, and whether it is closed. */
  datatype Chan<T> = Chan(buf: Option<RdvData<T>>, closed: bool)

  /** How far the producer goroutine has got: about to send its record, about
      to run its deferred `close`, or finished. */
  datatype Producer<T> = Sending(data: RdvData<T>) | Closing | Exited

  /** `Rdv`: the channel together with the goroutine that feeds it. */
  datatype Rdv<T> = Rdv(ch: Chan<T>, producer: Producer<T>)

  /** Which arm of the `select` in `ReceiveWatch` wins: the channel receive, or
      `ctx.Done()` with the reason `ctx.Err()` then gives. */
  datatype Arm = SlotReady | CtxDone(reason: CtxReason)

  /** One receive attempt: it blocks, or it ends with `outcome` and leaves the
      rendezvous in state `next`. */
  datatype Step<T> = Blocked | Stepped(outcome: Outcome<T>, next: Rdv<T>)

  /** The payload of the panic raised on a read of a drained, closed rendezvous. */
  const ClosedPanic: Any := Other(StrValue("attempt to get data from closed rendezvous channel"))

  /** A rendezvous just made by `Go` or `GoEg`: nothing sent, nothing closed. */
  predicate Fresh<T>(rv: Rdv<T>) {
    && rv.producer.Sending?
    && rv.producer.data.chanOpen
    && rv.ch.buf.None?
    && !rv.ch.closed
  }

  /** `Go(f)`: a fresh rendezvous whose producer will send the fault-safe
      result of `f`. A panic in `f` turns into an error in the record, never
      into a missing record. */
  function Go<T>(f: () -> Outcome<T>, zero: T): (rv: Rdv<T>)
    ensures Fresh(rv)
    ensures f().Returned? ==> rv.producer.data == RdvData(f().value, f().err, true)
    ensures f().Panicked? ==> rv.producer.data.value == zero
    ensures f().Panicked? && !f().payload.Nil? ==> rv.producer.data.err == Some(Util.ToError(f().payload))
    ensures f().Panicked? && f().payload.Nil? ==> rv.producer.data.err.None?
    ensures rv.producer.data == RdvData(Util.SafeFunc0E(f, zero).value, Util.SafeFunc0E(f, zero).err, true)
  {
    var r := Util.SafeFunc0E(f, zero);
    Rdv(Chan(None, false), Sending(RdvData(r.value, r.err, true)))
  }

  /** One step of the producer goroutine: the send, then the deferred close. A
      send on a full or closed channel, or a second close, cannot happen from a
      state reachable from `Go` (see `ProducerStepKeepsInv`); the model leaves
      the state unchanged there. */
  function ProducerStep<T>(rv: Rdv<T>): Rdv<T> {
    match rv.producer
    case Sending(d) =>
      if rv.ch.buf.None? && !rv.ch.closed then Rdv(Chan(Some(d), false), Closing) else rv
    case Closing => Rdv(rv.ch.(closed := true), Exited)
    case Exited => rv
  }

  /** The check `Receive` and `ReceiveWatch` make on a record taken from the channel. */
  function Deliver<T>(d: RdvData<T>, next: Rdv<T>): Step<T> {
    if d.chanOpen then Stepped(Returned(d.value, d.err), next) else Stepped(Panicked(ClosedPanic), next)
  }

  /** `Receive`: takes the buffered record if there is one; on a drained,
      closed channel it reads the zero record, whose `chanOpen` is false, and
      panics; on a drained, open channel it waits. */
  function Receive<T>(rv: Rdv<T>, zero: T): (s: Step<T>)
    ensures rv.ch.buf.Some? && rv.ch.buf.value.chanOpen ==>
              s == Stepped(Returned(rv.ch.buf.value.value, rv.ch.buf.value.err), rv.(ch := rv.ch.(buf := None)))
    ensures rv.ch.buf.None? && rv.ch.closed ==> s == Stepped(Panicked(ClosedPanic), rv)
    ensures rv.ch.buf.None? && !rv.ch.closed ==> s.Blocked?
  {
    match rv.ch.buf
    case Some(d) => Deliver(d, rv.(ch := rv.ch.(buf := None)))
    case None => if rv.ch.closed then Deliver(RdvData(zero, None, false), rv) else Blocked
  }

  /** `ReceiveWatch(ctx)` when `arm` wins the `select`: the slot arm is a
      `Receive`, closed-channel panic included; the context arm returns the zero
      value with `ctx.Err()` and leaves the channel untouched. */
  function ReceiveWatch<T>(rv: Rdv<T>, arm: Arm, zero: T): (s: Step<T>)
    ensures arm.SlotReady? ==> s == Receive(rv, zero)
    ensures arm.CtxDone? ==> s.Stepped? && s.next == rv
    ensures arm.CtxDone? ==> s.outcome == Returned(zero, Some(CtxError(arm.reason)))
  {
    match arm
    case SlotReady => Receive(rv, zero)
    case CtxDone(reason) => Stepped(Returned(zero, Some(CtxError(reason))), rv)
  }

  /** A member of an `errgroup.Group`: its rendezvous, and the error its
      goroutine returns to the group. */
  datatype Member<T> = Member(rv: Rdv<T>, report: Option<Error>)

  /** `GoEg(eg, f)`: like `Go`, and the error the goroutine reports to the
      group is exactly the error it places in the slot. */
  function GoEg<T>(f: () -> Outcome<T>, zero: T): (m: Member<T>)
    ensures Fresh(m.rv)
    ensures m.report == m.rv.producer.data.err
    ensures m.report == Util.SafeFunc0E(f, zero).err
    ensures m.rv.producer.data.value == Util.SafeFunc0E(f, zero).value
    ensures m.report.None? <==> (f().Returned? && f().err.None?) || (f().Panicked? && f().payload.Nil?)
  {
    Faults.RecoverErrorIff(UtilPkg, f(), zero);
    var r := Util.SafeFunc0E(f, zero);
    Member(Rdv(Chan(None, false), Sending(RdvData(r.value, r.err, true))), r.err)
  }

  /** `CtxApply(ctx, f)`: `f` with its context argument fixed. */
  function CtxApply<T>(ctx: Ctx, f: Ctx -> Outcome<T>): (g: () -> Outcome<T>)
    ensures g() == f(ctx)
  {
    () => f(ctx)
  }

  /** `Go(CtxApply(ctx, f))`, the launch `RunSlice` and `Run2` make for each
      task, sends the fault-safe result of calling `f` with `ctx`: the context
      reaches the task, and a panic in it becomes the record's error. */
  lemma GoCtxApplySendsSafe<T>(ctx: Ctx, f: Ctx -> Outcome<T>, zero: T)
    ensures Go(CtxApply(ctx, f), zero).producer.data ==
              RdvData(Faults.Recover(UtilPkg, f(ctx), zero).value, Faults.Recover(UtilPkg, f(ctx), zero).err, true)
  {
  }

  /** The first and only read of a fresh rendezvous when `arm` wins its
      `select`. When the slot arm wins, the producer has sent its record (one
      producer step) and the read returns it; when the context arm wins, the
      read returns the zero value and the context's error. */
  function Await<T>(rv: Rdv<T>, arm: Arm, zero: T): (r: Ret<T>)
    requires Fresh(rv)
    ensures arm.SlotReady? ==> r == Ret(rv.producer.data.value, rv.producer.data.err)
    ensures arm.CtxDone? ==> r == Ret(zero, Some(CtxError(arm.reason)))
  {
    match ReceiveWatch(if arm.SlotReady? then ProducerStep(rv) else rv, arm, zero)
    case Stepped(Returned(v, e), _) => Ret(v, e)
    case _ => assert false; Ret(zero, None)
  }

  /** `CtxApplyWatch(ctx, f)`: the returned function launches `f(ctx)` with `Go`
      and reads the result with `ReceiveWatch(ctx)`. It never panics: when the
      slot wins it returns the fault-safe result of `f(ctx)`, and when `ctx`
      fires first it returns the zero value and `ctx.Err()`. */
  function CtxApplyWatch<T>(ctx: Ctx, f: Ctx -> Outcome<T>, zero: T, arm: Arm): (g: () -> Outcome<T>)
    ensures g().Returned?
    ensures arm.SlotReady? && f(ctx).Returned? ==> g() == f(ctx)
    ensures arm.SlotReady? && f(ctx).Panicked? ==> g().value == zero
    ensures arm.SlotReady? && f(ctx).Panicked? && !f(ctx).payload.Nil? ==> g().err == Some(Util.ToError(f(ctx).payload))
    ensures arm.SlotReady? && f(ctx).Panicked? && f(ctx).payload.Nil? ==> g() == Returned(zero, None)
    ensures arm.CtxDone? ==> g() == Returned(zero, Some(CtxError(arm.reason)))
  {
    var fc := CtxApply(ctx, f);
    var r := Await(Go(fc, zero), arm, zero);
    () => Returned(r.value, r.err)
  }

  // ---------------------------------------------------------------------------
  // Exactly-once delivery over every schedule

  /** One scheduling event: the producer takes a step, or the single consumer
      reads with the given `select` arm winning (`SlotReady` is a plain
      `Receive`). */
  datatype Event = Produce | Consume(arm: Arm)

  /** What the consumer observed on a read that did not block, tagged by the
      arm that produced it. */
  datatype Observation<T> = FromSlot(o: Outcome<T>) | FromCtx(o: Outcome<T>)

  /** The observations of the consumer along schedule `sched`. A read that
      blocks observes nothing: the consumer is still waiting. */
  function Run<T>(rv: Rdv<T>, sched: seq<Event>, zero: T): seq<Observation<T>>
    decreases |sched|
  {
    if sched == [] then []
    else match sched[0]
      case Produce => Run(ProducerStep(rv), sched[1..], zero)
      case Consume(arm) =>
        match ReceiveWatch(rv, arm, zero)
        case Blocked => Run(rv, sched[1..], zero)
        case Stepped(o, next) =>
          [if arm.SlotReady? then FromSlot(o) else FromCtx(o)] + Run(next, sched[1..], zero)
  }

  /** The states reachable from `Go` whose producer sends the record `d`. */
  ghost predicate Inv<T>(rv: Rdv<T>, d: RdvData<T>) {
    && d.chanOpen
    && match rv.producer
       case Sending(d') => d' == d && rv.ch.buf.None? && !rv.ch.closed
       case Closing => !rv.ch.closed && (rv.ch.buf.None? || rv.ch.buf == Some(d))
       case Exited => rv.ch.closed && (rv.ch.buf.None? || rv.ch.buf == Some(d))
  }

  /** The record has been sent and taken. */
  predicate Consumed<T>(rv: Rdv<T>) {
    !rv.producer.Sending? && rv.ch.buf.None?
  }

  /** The producer never blocks and never closes twice: its send always finds
      the slot empty and open, and each step keeps the invariant and leaves
      undisturbed whether the record has been taken. */
  lemma ProducerStepKeepsInv<T>(rv: Rdv<T>, d: RdvData<T>)
    requires Inv(rv, d)
    ensures Inv(ProducerStep(rv), d)
    ensures Consumed(ProducerStep(rv)) == Consumed(rv)
    ensures rv.producer.Sending? ==> ProducerStep(rv).ch.buf == Some(d)
    ensures rv.producer.Closing? ==> !rv.ch.closed && ProducerStep(rv).ch.closed
  {
  }

  /** No slot observation happened before position `i`. */
  predicate NoSlotBefore<T>(obs: seq<Observation<T>>, i: int)
    requires 0 <= i <= |obs|
  {
    forall j :: 0 <= j < i ==> obs[j].FromCtx?
  }

  /** What observation `i` must be: a context observation is the zero value
      with a context error; the first slot observation of a rendezvous whose
      record is still there is that record; every other slot observation is the
      closed-channel panic. */
  ghost predicate ObservationOk<T>(obs: seq<Observation<T>>, i: int, d: RdvData<T>, zero: T, consumed: bool)
    requires 0 <= i < |obs|
  {
    match obs[i]
    case FromCtx(o) => o.Returned? && o.value == zero && o.err.Some? && o.err.value.CtxError?
    case FromSlot(o) =>
      o == if !consumed && NoSlotBefore(obs, i) then Returned(d.value, d.err) else Panicked(ClosedPanic)
  }

  /** Every observation along every schedule from a reachable state is as
      `ObservationOk` says. */
  lemma {:induction false} RunObservations<T>(rv: Rdv<T>, d: RdvData<T>, sched: seq<Event>, zero: T)
    requires Inv(rv, d)
    ensures forall i :: 0 <= i < |Run(rv, sched, zero)| ==> ObservationOk(Run(rv, sched, zero), i, d, zero, Consumed(rv))
    decreases |sched|
  {
    var obs := Run(rv, sched, zero);
    if sched == [] {
    } else {
      match sched[0]
      case Produce =>
        ProducerStepKeepsInv(rv, d);
        RunObservations(ProducerStep(rv), d, sched[1..], zero);
      case Consume(arm) =>
        match ReceiveWatch(rv, arm, zero)
        case Blocked =>
          RunObservations(rv, d, sched[1..], zero);
        case Stepped(o, next) =>
          var rest := Run(next, sched[1..], zero);
          var x := if arm.SlotReady? then FromSlot(o) else FromCtx(o);
          assert obs == [x] + rest;
          var consumedNext := Consumed(next);
          if arm.SlotReady? {
            assert Inv(next, d) && consumedNext;
          } else {
            assert next == rv;
          }
          RunObservations(next, d, sched[1..], zero);
          assert ObservationOk(obs, 0, d, zero, Consumed(rv));
          forall i | 1 <= i < |obs|
            ensures ObservationOk(obs, i, d, zero, Consumed(rv))
          {
            assert obs[i] == rest[i - 1];
            assert ObservationOk(rest, i - 1, d, zero, consumedNext);
            if arm.CtxDone? {
              assert NoSlotBefore(obs, i) == NoSlotBefore(rest, i - 1) by {
                if NoSlotBefore(rest, i - 1) {
                  forall j | 0 <= j < i ensures obs[j].FromCtx? {
                    if j > 0 { assert obs[j] == rest[j - 1]; }
                  }
                }
                if NoSlotBefore(obs, i) {
                  forall j | 0 <= j < i - 1 ensures rest[j].FromCtx? {
                    assert obs[j + 1] == rest[j];
                  }
                }
              }
            } else {
              assert !NoSlotBefore(obs, i) by { assert obs[0].FromSlot?; }
            }
          }
    }
  }

  /** Exactly-once delivery: along any schedule, the first read that wins on
      the slot of a rendezvous made by `Go(f)` returns the fault-safe result of
      `f`, every later one panics instead of returning stale data, and a read
      the context wins returns the zero value with a context error. */
  lemma GoDeliversExactlyOnce<T>(f: () -> Outcome<T>, zero: T, sched: seq<Event>)
    ensures var obs := Run(Go(f, zero), sched, zero);
            var r := Util.SafeFunc0E(f, zero);
            forall i :: 0 <= i < |obs| && obs[i].FromSlot? ==>
              obs[i].o == if NoSlotBefore(obs, i) then Returned(r.value, r.err) else Panicked(ClosedPanic)
    ensures var obs := Run(Go(f, zero), sched, zero);
            forall i :: 0 <= i < |obs| && obs[i].FromCtx? ==>
              obs[i].o.Returned? && obs[i].o.value == zero && obs[i].o.err.Some? && obs[i].o.err.value.CtxError?
  {
    var rv := Go(f, zero);
    var obs := Run(rv, sched, zero);
    var r := Util.SafeFunc0E(f, zero);
    var d := RdvData(r.value, r.err, true);
    assert Inv(rv, d);
    RunObservations(rv, d, sched, zero);
    forall i | 0 <= i < |obs|
      ensures ObservationOk(obs, i, d, zero, false)
    {
      assert !Consumed(rv);
      assert ObservationOk(obs, i, d, zero, Consumed(rv));
    }
    forall i | 0 <= i < |obs| && obs[i].FromSlot?
      ensures obs[i].o == if NoSlotBefore(obs, i) then Returned(r.value, r.err) else Panicked(ClosedPanic)
    {
      assert ObservationOk(obs, i, d, zero, false);
    }
    forall i | 0 <= i < |obs| && obs[i].FromCtx?
      ensures obs[i].o.Returned? && obs[i].o.value == zero && obs[i].o.err.Some? && obs[i].o.err.value.CtxError?
    {
      assert ObservationOk(obs, i, d, zero, false);
    }
  }

  /** A read the context wins does not consume the slot: a later `Receive`
      still gets the record. An instance of `GoDeliversExactlyOnce` on one
      fixed schedule. */
  lemma WatchTimeoutKeepsRecord<T>(f: () -> Outcome<T>, zero: T, reason: CtxReason)
    ensures var r := Util.SafeFunc0E(f, zero);
            Run(Go(f, zero), [Consume(CtxDone(reason)), Produce, Consume(SlotReady)], zero)
              == [FromCtx(Returned(zero, Some(CtxError(reason)))), FromSlot(Returned(r.value, r.err))]
  {
    var rv := Go(f, zero);
    var r := Util.SafeFunc0E(f, zero);
    var s := [Consume(CtxDone(reason)), Produce, Consume(SlotReady)];
    assert s[1..] == [Produce, Consume(SlotReady)];
    assert s[1..][1..] == [Consume(SlotReady)];
    assert s[1..][1..][1..] == [];
    var rv1 := ProducerStep(rv);
    assert Run(rv1, [Consume(SlotReady)], zero) == [FromSlot(Returned(r.value, r.err))] + Run(rv1.(ch := rv1.ch.(buf := None)), [], zero);
    assert Run(rv, [Produce, Consume(SlotReady)], zero) == Run(rv1, [Consume(SlotReady)], zero);
  }

  /** Once the producer has sent and closed, the first `Receive` returns the
      record and a second one panics. An instance of `GoDeliversExactlyOnce`
      on one fixed schedule. */
  lemma SecondReceivePanics<T>(f: () -> Outcome<T>, zero: T)
    ensures var r := Util.SafeFunc0E(f, zero);
            Run(Go(f, zero), [Produce, Produce, Consume(SlotReady), Consume(SlotReady)], zero)
              == [FromSlot(Returned(r.value, r.err)), FromSlot(Panicked(ClosedPanic))]
  {
    var s := [Produce, Produce, Consume(SlotReady), Consume(SlotReady)];
    assert s[1..] == [Produce, Consume(SlotReady), Consume(SlotReady)];
    assert s[1..][1..] == [Consume(SlotReady), Consume(SlotReady)];
    assert s[1..][1..][1..] == [Consume(SlotReady)];
    assert s[1..][1..][1..][1..] == [];
  }

  /** A read before the producer has sent blocks rather than returning anything:
      the one state `GoDeliversExactlyOnce` leaves to the scheduler. */
  lemma ReceiveBeforeSendBlocks<T>(f: () -> Outcome<T>, zero: T)
    ensures Receive(Go(f, zero), zero).Blocked?
  {
  }
}
