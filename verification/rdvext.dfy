/** rdvext/rdvext.go: fan-out over several tasks. The collect-all combinators
    (`RunSlice`, `Run2`) launch every task with `Go` and read each result with
    `ReceiveWatch` in argument order; the fail-fast combinators (`RunSliceEg`,
    `Run2Eg`) launch every task in an `errgroup.Group` and keep the values only
    when the group's `Wait` reports no error. The scheduler's choices are inputs:
    a `Race` says which reads the context wins, and `winner` says which failing
    member the group saw fail first. */
module RdvExt {
  import opened Values
  import Faults
  import Util
  import opened Rendezvous

  /** `ResultWithError`: one task's value and error. */
  datatype ResultWithError<T> = ResultWithError(value: T, error: Option<Error>)

  function FromRet<T>(r: Ret<T>): ResultWithError<T> {
    ResultWithError(r.value, r.err)
  }

  /** A Go slice, which may be nil. */
  datatype Slice<T> = NilSlice | Made(elems: seq<T>)

  /** The scheduler's choices for the context reads of one fan-out call:
      whether the context fires during the call and why, and then which reads
      (by argument position) it wins. `ctx.Err()` does not change once set, so
      every read the context wins reports the same reason. */
  datatype Race = Race(fired: Option<CtxReason>, slotWins: nat -> bool) {
    function ArmAt(i: nat): Arm {
      if fired.None? || slotWins(i) then SlotReady else CtxDone(fired.value)
    }
  }

  /** The fault-safe result of calling `f` with `ctx`: what the goroutine that
      `Go` or `GoEg` launches for it places in its slot. */
  function Safe<T>(ctx: Ctx, f: Ctx -> Outcome<T>, zero: T): Ret<T> {
    Faults.Recover(UtilPkg, f(ctx), zero)
  }

  /** The first non-nil error in argument order, as the `for ... break` loops
      of `RunSlice` and `Run2` find it. */
  function FirstError(errs: seq<Option<Error>>): (r: Option<Error>)
    ensures r.None? <==> forall i :: 0 <= i < |errs| ==> errs[i].None?
    ensures r.Some? ==> exists i :: 0 <= i < |errs| && errs[i] == r && forall j :: 0 <= j < i ==> errs[j].None?
  {
    if |errs| == 0 then None
    else if errs[0].Some? then errs[0]
    else
      var r := FirstError(errs[1..]);
      assert forall i :: 1 <= i < |errs| ==> errs[i] == errs[1..][i - 1];
      r
  }

  /** The errors of a slice of results, position by position. */
  function Errors<T>(results: seq<ResultWithError<T>>): (errs: seq<Option<Error>>)
    ensures |errs| == |results|
    ensures forall i :: 0 <= i < |results| ==> errs[i] == results[i].error
  {
    seq(|results|, i requires 0 <= i < |results| => results[i].error)
  }

  // ---------------------------------------------------------------------------
  // Collect-all

  /** `RunSlice(ctx, funcs...)`: one result per task, in argument order and not
      in completion order. A task whose slot wins its read contributes its
      fault-safe result; one whose read the context wins contributes the zero
      value and the context's error. The summary error is the error of the
      lowest-index result that has one, and nil exactly when no result has one. */
  function RunSlice<T>(ctx: Ctx, funcs: seq<Ctx -> Outcome<T>>, zero: T, race: Race)
    : (r: (seq<ResultWithError<T>>, Option<Error>))
    ensures |r.0| == |funcs|
    ensures forall i :: 0 <= i < |funcs| && race.ArmAt(i).SlotReady? ==> r.0[i] == FromRet(Safe(ctx, funcs[i], zero))
    ensures forall i :: 0 <= i < |funcs| && race.ArmAt(i).CtxDone? ==>
              r.0[i] == ResultWithError(zero, Some(CtxError(race.ArmAt(i).reason)))
    ensures r.1.None? <==> forall i :: 0 <= i < |funcs| ==> r.0[i].error.None?
    ensures r.1.Some? ==> exists i :: 0 <= i < |funcs| && r.0[i].error == r.1 && forall j :: 0 <= j < i ==> r.0[j].error.None?
  {
    var rvs := seq(|funcs|, i requires 0 <= i < |funcs| => Go(CtxApply(ctx, funcs[i]), zero));
    var results := seq(|rvs|, i requires 0 <= i < |rvs| => FromRet(Await(rvs[i], race.ArmAt(i), zero)));
    (results, FirstError(Errors(results)))
  }

  /** `Run2(ctx, f1, f2)`: the two results in argument order, and as summary
      the first one's error if it has one, else the second one's. */
  function Run2<T1, T2>(ctx: Ctx, f1: Ctx -> Outcome<T1>, f2: Ctx -> Outcome<T2>, zero1: T1, zero2: T2, race: Race)
    : (r: (Util.Tuple2<ResultWithError<T1>, ResultWithError<T2>>, Option<Error>))
    ensures race.ArmAt(0).SlotReady? ==> r.0.x1 == FromRet(Safe(ctx, f1, zero1))
    ensures race.ArmAt(0).CtxDone? ==> r.0.x1 == ResultWithError(zero1, Some(CtxError(race.ArmAt(0).reason)))
    ensures race.ArmAt(1).SlotReady? ==> r.0.x2 == FromRet(Safe(ctx, f2, zero2))
    ensures race.ArmAt(1).CtxDone? ==> r.0.x2 == ResultWithError(zero2, Some(CtxError(race.ArmAt(1).reason)))
    ensures r.1 == if r.0.x1.error.Some? then r.0.x1.error else r.0.x2.error
  {
    var rv1 := Go(CtxApply(ctx, f1), zero1);
    var rv2 := Go(CtxApply(ctx, f2), zero2);
    var results := Util.Tuple2(FromRet(Await(rv1, race.ArmAt(0), zero1)), FromRet(Await(rv2, race.ArmAt(1), zero2)));
    var errs := [results.x1.error, results.x2.error];
    assert errs[1..] == [errs[1]] && errs[1..][1..] == [];
    (results, FirstError(errs))
  }

  /** `Run2` is `RunSlice` over the two tasks, under the same scheduler choices. */
  lemma Run2IsRunSliceOfTwo<T>(ctx: Ctx, f1: Ctx -> Outcome<T>, f2: Ctx -> Outcome<T>, zero: T, race: Race)
    ensures var (t, e) := Run2(ctx, f1, f2, zero, zero, race);
            var (rs, e') := RunSlice(ctx, [f1, f2], zero, race);
            rs == [t.x1, t.x2] && e == e'
  {
    var (t, e) := Run2(ctx, f1, f2, zero, zero, race);
    var (rs, e') := RunSlice(ctx, [f1, f2], zero, race);
    assert rs == [t.x1, t.x2];
    assert Errors(rs) == [t.x1.error, t.x2.error];
  }

  // ---------------------------------------------------------------------------
  // Fail-fast

  /** The errors reported by the failing members. */
  function Failures(reports: seq<Option<Error>>): (fs: seq<Error>)
    ensures forall e :: e in fs <==> Some(e) in reports
    ensures |fs| == 0 <==> forall i :: 0 <= i < |reports| ==> reports[i].None?
  {
    if |reports| == 0 then []
    else
      var fs := (if reports[0].Some? then [reports[0].value] else []) + Failures(reports[1..]);
      assert forall i :: 1 <= i < |reports| ==> reports[i] == reports[1..][i - 1];
      assert reports == [reports[0]] + reports[1..];
      fs
  }

  /** `eg.Wait()`: nil when every member reported nil; otherwise the error of
      the member whose failure the group saw first in real time. Which member
      that is belongs to the scheduler: `winner` picks it among the failing
      members (an out-of-range `winner` picks the first). */
  function GroupWait(reports: seq<Option<Error>>, winner: nat): (r: Option<Error>)
    ensures r.None? <==> forall i :: 0 <= i < |reports| ==> reports[i].None?
    ensures r.Some? ==> r in reports
  {
    var fs := Failures(reports);
    if |fs| == 0 then None else if winner < |fs| then Some(fs[winner]) else Some(fs[0])
  }

  /** Where a failing member's error sits among the failures. */
  lemma {:induction false} FailureIndex(reports: seq<Option<Error>>, i: nat) returns (k: nat)
    requires i < |reports| && reports[i].Some?
    ensures k < |Failures(reports)| && Failures(reports)[k] == reports[i].value
  {
    var head := if reports[0].Some? then [reports[0].value] else [];
    assert Failures(reports) == head + Failures(reports[1..]);
    if i == 0 {
      k := 0;
    } else {
      assert reports[1..][i - 1] == reports[i];
      var k' := FailureIndex(reports[1..], i - 1);
      k := |head| + k';
    }
  }

  /** Every failing member's error is a possible result of `Wait`. */
  lemma AnyFailureCanWin(reports: seq<Option<Error>>, i: nat)
    requires i < |reports| && reports[i].Some?
    ensures exists w: nat :: GroupWait(reports, w) == reports[i]
  {
    var k := FailureIndex(reports, i);
    assert GroupWait(reports, k) == Some(Failures(reports)[k]);
  }

  /** Reference definition of the error a fail-fast member reports to its
      group: the context's error when the context wins the member's read, the
      fault-safe error of the task otherwise. */
  function MemberError<T>(ctx: Ctx, f: Ctx -> Outcome<T>, zero: T, arm: Arm): Option<Error> {
    if arm.CtxDone? then Some(CtxError(arm.reason)) else Safe(ctx, f, zero).err
  }

  /** A member reports no error exactly when its slot wins and its task
      returned a nil error or panicked with a nil payload. */
  lemma MemberErrorNoneIff<T>(ctx: Ctx, f: Ctx -> Outcome<T>, zero: T, arm: Arm)
    ensures MemberError(ctx, f, zero, arm).None? <==>
              arm.SlotReady? && ((f(ctx).Returned? && f(ctx).err.None?) || (f(ctx).Panicked? && f(ctx).payload.Nil?))
  {
    Faults.RecoverErrorIff(UtilPkg, f(ctx), zero);
  }

  /** The members `RunSliceEg` launches: `GoEg(eg, CtxApplyWatch(egCtx, f))` for
      each task, in argument order. */
  function Members<T>(egCtx: Ctx, funcs: seq<Ctx -> Outcome<T>>, zero: T, race: Race): (ms: seq<Member<T>>)
    ensures |ms| == |funcs|
    ensures forall i :: 0 <= i < |funcs| ==> ms[i].report == MemberError(egCtx, funcs[i], zero, race.ArmAt(i))
    ensures forall i :: 0 <= i < |funcs| ==>
              Fresh(ms[i].rv) && (ms[i].report.None? ==> ms[i].rv.producer.data.value == Safe(egCtx, funcs[i], zero).value)
  {
    seq(|funcs|, i requires 0 <= i < |funcs| => GoEg(CtxApplyWatch(egCtx, funcs[i], zero, race.ArmAt(i)), zero))
  }

  /** The errors the members report, in argument order. */
  function Reports<T>(ms: seq<Member<T>>): (rs: seq<Option<Error>>)
    ensures |rs| == |ms|
    ensures forall i :: 0 <= i < |ms| ==> rs[i] == ms[i].report
  {
    seq(|ms|, i requires 0 <= i < |ms| => ms[i].report)
  }

  /** `RunSliceEg(ctx, funcs...)`: all or nothing. When `Wait` reports an
      error, no values survive and that error, one of the members' errors, is
      returned. Otherwise every member succeeded, and their values come back
      in argument order with a nil error. */
  function RunSliceEg<T>(ctx: Ctx, funcs: seq<Ctx -> Outcome<T>>, zero: T, race: Race, winner: nat)
    : (r: (Slice<T>, Option<Error>))
    ensures r.1.Some? ==> r.0.NilSlice?
    ensures r.1.None? <==> forall i :: 0 <= i < |funcs| ==> MemberError(GroupCtx(ctx), funcs[i], zero, race.ArmAt(i)).None?
    ensures r.1.Some? ==> exists i :: 0 <= i < |funcs| && r.1 == MemberError(GroupCtx(ctx), funcs[i], zero, race.ArmAt(i))
    ensures r.1.None? ==> r.0.Made? && |r.0.elems| == |funcs|
    ensures r.1.None? ==> forall i :: 0 <= i < |funcs| ==> r.0.elems[i] == Safe(GroupCtx(ctx), funcs[i], zero).value
  {
    var ms := Members(GroupCtx(ctx), funcs, zero, race);
    var err := GroupWait(Reports(ms), winner);
    if err.Some? then (NilSlice, err)
    else (Made(seq(|ms|, i requires 0 <= i < |ms| => Await(ms[i].rv, SlotReady, zero).value)), None)
  }

  /** Which failing member's error `RunSliceEg` returns is decided in real
      time: every failing member's error is a possible result. */
  lemma RunSliceEgAnyFailureCanSurface<T>(ctx: Ctx, funcs: seq<Ctx -> Outcome<T>>, zero: T, race: Race, i: nat)
    requires i < |funcs| && MemberError(GroupCtx(ctx), funcs[i], zero, race.ArmAt(i)).Some?
    ensures exists w: nat :: RunSliceEg(ctx, funcs, zero, race, w).1 == MemberError(GroupCtx(ctx), funcs[i], zero, race.ArmAt(i))
  {
    var ms := Members(GroupCtx(ctx), funcs, zero, race);
    AnyFailureCanWin(Reports(ms), i);
    var w: nat :| GroupWait(Reports(ms), w) == Reports(ms)[i];
    assert RunSliceEg(ctx, funcs, zero, race, w).1 == MemberError(GroupCtx(ctx), funcs[i], zero, race.ArmAt(i));
  }

  /** The two policies agree when nothing fails: `RunSliceEg` succeeds exactly
      when `RunSlice`, run with the group's context and the same scheduler
      choices, reports no summary error, and then both carry the same values. */
  lemma FailFastAgreesWithCollectAll<T>(ctx: Ctx, funcs: seq<Ctx -> Outcome<T>>, zero: T, race: Race, winner: nat)
    ensures var (vs, err) := RunSliceEg(ctx, funcs, zero, race, winner);
            var (rs, summary) := RunSlice(GroupCtx(ctx), funcs, zero, race);
            && (err.None? <==> summary.None?)
            && (err.None? ==> forall i :: 0 <= i < |funcs| ==> vs.elems[i] == rs[i].value)
  {
    var (vs, err) := RunSliceEg(ctx, funcs, zero, race, winner);
    var (rs, summary) := RunSlice(GroupCtx(ctx), funcs, zero, race);
    forall i | 0 <= i < |funcs|
      ensures MemberError(GroupCtx(ctx), funcs[i], zero, race.ArmAt(i)) == rs[i].error
    {
    }
  }

  /** `Run2Eg(ctx, f1, f2)` as its doc comment promises it: the values are
      drained with a plain `Receive`, as `RunSliceEg` does. On a group error
      it returns the zero tuple and that error; otherwise the two values in
      argument order and a nil error. */
  function Run2EgIntended<T1, T2>(ctx: Ctx, f1: Ctx -> Outcome<T1>, f2: Ctx -> Outcome<T2>, zero1: T1, zero2: T2, race: Race, winner: nat)
    : (r: (Util.Tuple2<T1, T2>, Option<Error>))
    ensures r.1.Some? ==> r.0 == Util.Tuple2(zero1, zero2)
    ensures r.1.Some? ==> r.1 == MemberError(GroupCtx(ctx), f1, zero1, race.ArmAt(0)) || r.1 == MemberError(GroupCtx(ctx), f2, zero2, race.ArmAt(1))
    ensures r.1.None? <==> MemberError(GroupCtx(ctx), f1, zero1, race.ArmAt(0)).None? && MemberError(GroupCtx(ctx), f2, zero2, race.ArmAt(1)).None?
    ensures r.1.None? ==> r.0 == Util.Tuple2(Safe(GroupCtx(ctx), f1, zero1).value, Safe(GroupCtx(ctx), f2, zero2).value)
  {
    var egCtx := GroupCtx(ctx);
    var m1 := GoEg(CtxApplyWatch(egCtx, f1, zero1, race.ArmAt(0)), zero1);
    var m2 := GoEg(CtxApplyWatch(egCtx, f2, zero2, race.ArmAt(1)), zero2);
    var err := GroupWait([m1.report, m2.report], winner);
    if err.Some? then (Util.Tuple2(zero1, zero2), err)
    else (Util.Tuple2(Await(m1.rv, SlotReady, zero1).value, Await(m2.rv, SlotReady, zero2).value), None)
  }

  /** The intended `Run2Eg` is `RunSliceEg` over the two tasks, under the same
      scheduler choices: the same error, and on success the same two values. */
  lemma Run2EgIntendedIsRunSliceEgOfTwo<T>(ctx: Ctx, f1: Ctx -> Outcome<T>, f2: Ctx -> Outcome<T>, zero: T, race: Race, winner: nat)
    ensures var (t, e) := Run2EgIntended(ctx, f1, f2, zero, zero, race, winner);
            var (vs, e') := RunSliceEg(ctx, [f1, f2], zero, race, winner);
            e == e' && (e.None? ==> vs == Made([t.x1, t.x2]))
  {
    var egCtx := GroupCtx(ctx);
    var ms := Members(egCtx, [f1, f2], zero, race);
    var m1 := GoEg(CtxApplyWatch(egCtx, f1, zero, race.ArmAt(0)), zero);
    var m2 := GoEg(CtxApplyWatch(egCtx, f2, zero, race.ArmAt(1)), zero);
    assert Reports(ms) == [m1.report, m2.report];
  }

  /** `Run2Eg(ctx, f1, f2)` as written: after a successful `Wait` it drains the
      members with `ReceiveWatch(ctx)` on the caller's context, so a context
      that is done by then may win either read; `drain` is that race. The
      error is always the intended one, but a value whose drain read the
      context wins is the zero value. */
  function Run2Eg<T1, T2>(ctx: Ctx, f1: Ctx -> Outcome<T1>, f2: Ctx -> Outcome<T2>, zero1: T1, zero2: T2,
                          race: Race, winner: nat, drain: Race)
    : (r: (Util.Tuple2<T1, T2>, Option<Error>))
    ensures r.1 == Run2EgIntended(ctx, f1, f2, zero1, zero2, race, winner).1
    ensures r.1.Some? ==> r.0 == Util.Tuple2(zero1, zero2)
    ensures r.1.None? && drain.ArmAt(0).SlotReady? ==> r.0.x1 == Safe(GroupCtx(ctx), f1, zero1).value
    ensures r.1.None? && drain.ArmAt(1).SlotReady? ==> r.0.x2 == Safe(GroupCtx(ctx), f2, zero2).value
    ensures r.1.None? && drain.ArmAt(0).CtxDone? ==> r.0.x1 == zero1
    ensures r.1.None? && drain.ArmAt(1).CtxDone? ==> r.0.x2 == zero2
    ensures drain.fired.None? ==> r == Run2EgIntended(ctx, f1, f2, zero1, zero2, race, winner)
  {
    var egCtx := GroupCtx(ctx);
    var m1 := GoEg(CtxApplyWatch(egCtx, f1, zero1, race.ArmAt(0)), zero1);
    var m2 := GoEg(CtxApplyWatch(egCtx, f2, zero2, race.ArmAt(1)), zero2);
    var err := GroupWait([m1.report, m2.report], winner);
    if err.Some? then (Util.Tuple2(zero1, zero2), err)
    else (Util.Tuple2(Await(m1.rv, drain.ArmAt(0), zero1).value, Await(m2.rv, drain.ArmAt(1), zero2).value), None)
  }

  /** The discrepancy: both tasks return normally and the group succeeds, but
      the caller's context is cancelled before the drain and wins both reads;
      as written, `Run2Eg` then returns the zero tuple with a nil error, while
      the intended behaviour returns the two values. */
  lemma Run2EgLosesValues()
    ensures var f1: Ctx -> Outcome<int> := _ => Returned(1, None);
            var f2: Ctx -> Outcome<int> := _ => Returned(2, None);
            var race := Race(None, _ => true);
            var drain := Race(Some(Canceled), _ => false);
            && Run2Eg(CallerCtx(0), f1, f2, 0, 0, race, 0, drain) == (Util.Tuple2(0, 0), None)
            && Run2EgIntended(CallerCtx(0), f1, f2, 0, 0, race, 0) == (Util.Tuple2(1, 2), None)
  {
  }

  // ---------------------------------------------------------------------------
  // Launching a fan-out asynchronously

  /** `GoSlice(ctx, funcs...)`: a rendezvous whose slot delivers exactly what
      `RunSlice` returns. */
  function GoSlice<T>(ctx: Ctx, funcs: seq<Ctx -> Outcome<T>>, zero: T, race: Race)
    : (rv: Rdv<seq<ResultWithError<T>>>)
    ensures Fresh(rv)
    ensures var (rs, err) := RunSlice(ctx, funcs, zero, race);
            Await(rv, SlotReady, []) == Ret(rs, err) && |rs| == |funcs|
  {
    Go(() => var (rs, err) := RunSlice(ctx, funcs, zero, race); Returned(rs, err), [])
  }

  /** `Go2(ctx, f1, f2)`: a rendezvous whose slot delivers exactly what `Run2`
      returns. */
  function Go2<T1, T2>(ctx: Ctx, f1: Ctx -> Outcome<T1>, f2: Ctx -> Outcome<T2>, zero1: T1, zero2: T2, race: Race)
    : (rv: Rdv<Util.Tuple2<ResultWithError<T1>, ResultWithError<T2>>>)
    ensures Fresh(rv)
    ensures var zeroTuple := Util.Tuple2(ResultWithError(zero1, None), ResultWithError(zero2, None));
            var (t, err) := Run2(ctx, f1, f2, zero1, zero2, race);
            Await(rv, SlotReady, zeroTuple) == Ret(t, err)
  {
    var zeroTuple := Util.Tuple2(ResultWithError(zero1, None), ResultWithError(zero2, None));
    Go(() => var (t, err) := Run2(ctx, f1, f2, zero1, zero2, race); Returned(t, err), zeroTuple)
  }

  /** `GoSliceEg(ctx, funcs...)`: a rendezvous whose slot delivers exactly what
      `RunSliceEg` returns. */
  function GoSliceEg<T>(ctx: Ctx, funcs: seq<Ctx -> Outcome<T>>, zero: T, race: Race, winner: nat)
    : (rv: Rdv<Slice<T>>)
    ensures Fresh(rv)
    ensures var (vs, err) := RunSliceEg(ctx, funcs, zero, race, winner);
            Await(rv, SlotReady, NilSlice) == Ret(vs, err)
  {
    Go(() => var (vs, err) := RunSliceEg(ctx, funcs, zero, race, winner); Returned(vs, err), NilSlice)
  }

  /** `Go2Eg(ctx, f1, f2)` as written: a rendezvous whose slot delivers
      exactly what the written `Run2Eg` returns, lost values included. */
  function Go2Eg<T1, T2>(ctx: Ctx, f1: Ctx -> Outcome<T1>, f2: Ctx -> Outcome<T2>, zero1: T1, zero2: T2,
                         race: Race, winner: nat, drain: Race)
    : (rv: Rdv<Util.Tuple2<T1, T2>>)
    ensures Fresh(rv)
    ensures var (t, err) := Run2Eg(ctx, f1, f2, zero1, zero2, race, winner, drain);
            Await(rv, SlotReady, Util.Tuple2(zero1, zero2)) == Ret(t, err)
  {
    Go(() => var (t, err) := Run2Eg(ctx, f1, f2, zero1, zero2, race, winner, drain); Returned(t, err), Util.Tuple2(zero1, zero2))
  }

  /** `Go2Eg(ctx, f1, f2)` over the intended `Run2Eg`: a rendezvous whose
      slot delivers exactly what `Run2EgIntended` returns. */
  function Go2EgIntended<T1, T2>(ctx: Ctx, f1: Ctx -> Outcome<T1>, f2: Ctx -> Outcome<T2>, zero1: T1, zero2: T2, race: Race, winner: nat)
    : (rv: Rdv<Util.Tuple2<T1, T2>>)
    ensures Fresh(rv)
    ensures var (t, err) := Run2EgIntended(ctx, f1, f2, zero1, zero2, race, winner);
            Await(rv, SlotReady, Util.Tuple2(zero1, zero2)) == Ret(t, err)
  {
    Go(() => var (t, err) := Run2EgIntended(ctx, f1, f2, zero1, zero2, race, winner); Returned(t, err), Util.Tuple2(zero1, zero2))
  }

  /** On the input of `Run2EgLosesValues`, the written `Go2Eg` delivers the
      zero tuple with a nil error where the intended one delivers both values. */
  lemma Go2EgLosesValues()
    ensures var f1: Ctx -> Outcome<int> := _ => Returned(1, None);
            var f2: Ctx -> Outcome<int> := _ => Returned(2, None);
            var race := Race(None, _ => true);
            var drain := Race(Some(Canceled), _ => false);
            && Await(Go2Eg(CallerCtx(0), f1, f2, 0, 0, race, 0, drain), SlotReady, Util.Tuple2(0, 0)) == Ret(Util.Tuple2(0, 0), None)
            && Await(Go2EgIntended(CallerCtx(0), f1, f2, 0, 0, race, 0), SlotReady, Util.Tuple2(0, 0)) == Ret(Util.Tuple2(1, 2), None)
  {
    Run2EgLosesValues();
  }
}
