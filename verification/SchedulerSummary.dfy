/** The integer figures of the printed summary: busy cycles, blocked cycles and
    the finishing time of the whole simulation. */
module SchedulerSummary {
  import opened Collections
  import opened SchedulerModel
  import opened SchedulerPlacement
  import opened SchedulerTiming
  import opened SchedulerProgress

  function CPUOf(p: Proc): int { p.CPUTime }

  function NeedOf(p: Proc): int { p.C }

  /** The number of the first k cycles in which the processor was busy. */
  function BusyCycles(s: State, alg: Algorithm, rnd: nat -> nat, k: nat): nat
    requires InRange(s)
  {
    if k == 0 then 0
    else BusyCycles(s, alg, rnd, k - 1) + if Run(s, alg, rnd, k).selection.Some? then 1 else 0
  }

  /** The number of the first k cycles in which some process was blocked. */
  function BlockedCycles(s: State, alg: Algorithm, rnd: nat -> nat, k: nat): nat
    requires InRange(s)
  {
    if k == 0 then 0
    else BlockedCycles(s, alg, rnd, k - 1) + if Run(s, alg, rnd, k).blocked != [] then 1 else 0
  }

  ghost predicate SameClocks(p: Proc, q: Proc) {
    q.CPUTime == p.CPUTime && q.Btime == p.Btime && q.waiting == p.waiting
  }

  /** Only the countdown moves the clocks. */
  lemma SettledClocks(s: State, alg: Algorithm, rnd: nat -> nat, i: nat)
    requires InRange(s) && i < |s.procs|
    ensures SameClocks(s.procs[i], Settled(s, alg, rnd).procs[i])
  {
    hide Proceed, Release, Arrive, Dispatch, InRange;
    var p := Proceed(s, alg);
    ProceedClocks(s, alg, i);
    JoinClocks(p, i);
    JoinClocks(Release(p), i);
    DispatchClocks(Arrive(Release(p)), alg, rnd, i);
  }

  lemma ProceedClocks(s: State, alg: Algorithm, i: nat)
    requires InRange(s) && i < |s.procs|
    ensures SameClocks(s.procs[i], Proceed(s, alg).procs[i])
  {
  }

  lemma JoinClocks(s: State, i: nat)
    requires InRange(s) && i < |s.procs|
    ensures SameClocks(s.procs[i], Release(s).procs[i]) && SameClocks(s.procs[i], Arrive(s).procs[i])
  {
  }

  lemma DispatchClocks(s: State, alg: Algorithm, rnd: nat -> nat, i: nat)
    requires InRange(s) && i < |s.procs|
    ensures SameClocks(s.procs[i], Dispatch(s, alg, rnd).procs[i])
  {
  }

  /** One cycle runs the selected process for one unit, and no other. */
  lemma CycleCPU(s: State, alg: Algorithm, rnd: nat -> nat, i: nat)
    requires InRange(s) && Placed(s, s.present, s.present) && i < |s.procs|
    ensures var s' := Cycle(s, alg, rnd);
            s'.procs[i].CPUTime == s.procs[i].CPUTime + if s'.selection == Some(i) then 1 else 0
  {
    hide Cycle, Settled, InRange, Placed;
    CycleShape(s, alg, rnd);
    SettledClocks(s, alg, rnd, i);
    SettledPlaced(s, alg, rnd);
    PlacedAt(Settled(s, alg, rnd), i, s.present + 1, s.present + 1);
  }

  /** One cycle adds a unit of blocked time to each process left in the blocked
      list, a unit of waiting to each left in the ready queue, and no other. */
  lemma CycleClocks(s: State, alg: Algorithm, rnd: nat -> nat, i: nat)
    requires InRange(s) && Boundary(s, alg) && i < |s.procs|
    ensures var p, s' := s.procs[i], Cycle(s, alg, rnd);
            && s'.procs[i].Btime == p.Btime + (if i in s'.blocked then 1 else 0)
            && s'.procs[i].waiting == p.waiting + (if i in s'.ready then 1 else 0)
  {
    hide Cycle, Settled, InRange, Boundary, Midway;
    CycleShape(s, alg, rnd);
    SettledClocks(s, alg, rnd, i);
    SettledMidway(s, alg, rnd);
    MidwayAt(Settled(s, alg, rnd), alg, i);
  }

  lemma MidwayAt(d: State, alg: Algorithm, i: nat)
    requires Midway(d, alg) && i < |d.procs|
    ensures i in d.ready <==> d.procs[i].condition == Ready
    ensures i in d.blocked <==> d.procs[i].condition == Blocked
  {
    assert PlacedProc(d, i, d.present + 1);
  }

  /** The number of the first k cycles that left process i in condition c. */
  function CyclesIn(s: State, alg: Algorithm, rnd: nat -> nat, k: nat, i: nat, c: Condition): nat
    requires InRange(s) && i < |s.procs|
  {
    if k == 0 then 0
    else CyclesIn(s, alg, rnd, k - 1, i, c) + if Run(s, alg, rnd, k).procs[i].condition == c then 1 else 0
  }

  /** Each printed time of a process is the number of cycles it spent so: running,
      blocked, or waiting in the ready queue. */
  lemma {:induction false} TimesAreCycleCounts(s: State, alg: Algorithm, rnd: nat -> nat, k: nat, i: nat)
    requires InRange(s) && Fresh(s) && AllNeedTime(s.procs) && i < |s.procs|
    ensures var p := Run(s, alg, rnd, k).procs[i];
            && p.CPUTime == CyclesIn(s, alg, rnd, k, i, Running)
            && p.Btime == CyclesIn(s, alg, rnd, k, i, Blocked)
            && p.waiting == CyclesIn(s, alg, rnd, k, i, Ready)
  {
    hide Run, Cycle, InRange, Fresh, AllNeedTime, Boundary, Placed;
    if k == 0 {
      NoTimesYet(s, alg, rnd, i);
    } else {
      TimesAreCycleCounts(s, alg, rnd, k - 1, i);
      var t := Run(s, alg, rnd, k - 1);
      RunStep(s, alg, rnd, k - 1);
      RunBoundary(s, alg, rnd, k - 1);
      RunBoundary(s, alg, rnd, k);
      BoundaryPlaced(t, alg);
      CycleCPU(t, alg, rnd, i);
      CycleClocks(t, alg, rnd, i);
      BoundaryAt(Run(s, alg, rnd, k), alg, i);
    }
  }

  lemma NoTimesYet(s: State, alg: Algorithm, rnd: nat -> nat, i: nat)
    requires InRange(s) && Fresh(s) && i < |s.procs|
    ensures var p := Run(s, alg, rnd, 0).procs[i]; p.CPUTime == 0 && p.Btime == 0 && p.waiting == 0
  {
    assert FreshProc(s.procs[i], i);
  }

  lemma CycleTotalCPU(s: State, alg: Algorithm, rnd: nat -> nat)
    requires InRange(s) && Placed(s, s.present, s.present)
    ensures var s' := Cycle(s, alg, rnd);
            SumBy(s'.procs, CPUOf) == SumBy(s.procs, CPUOf) + if s'.selection.Some? then 1 else 0
  {
    var s' := Cycle(s, alg, rnd);
    var q := s.procs;
    hide Cycle, Placed;
    if s'.selection.Some? {
      var j := s'.selection.value;
      q := s.procs[j := s.procs[j].(CPUTime := s.procs[j].CPUTime + 1)];
      SumUpdate(s.procs, j, q[j], CPUOf);
    }
    forall i | 0 <= i < |s.procs| ensures s'.procs[i].CPUTime == q[i].CPUTime {
      CycleCPU(s, alg, rnd, i);
    }
    hide InRange;
    SumCompare(s'.procs, q, CPUOf, CPUOf);
    SumCompare(q, s'.procs, CPUOf, CPUOf);
  }

  lemma CycleCountsBlocked(s: State, alg: Algorithm, rnd: nat -> nat)
    requires InRange(s) && Placed(s, s.present, s.present)
    ensures var s' := Cycle(s, alg, rnd);
            s'.totalTimeNumber == s.totalTimeNumber + if s'.blocked != [] then 1 else 0
  {
    var d := Settled(s, alg, rnd);
    SettledKeepsCount(s, alg, rnd);
    SettledPlaced(s, alg, rnd);
    hide Settled;
    if i :| 0 <= i < |d.procs| && d.procs[i].condition == Blocked {
      assert PlacedProc(d, i, s.present + 1);
    }
    if d.blocked != [] {
      assert d.blocked[0] in d.blocked;
      assert PlacedProc(d, d.blocked[0], s.present + 1);
    }
  }

  lemma SettledKeepsCount(s: State, alg: Algorithm, rnd: nat -> nat)
    requires InRange(s)
    ensures Settled(s, alg, rnd).totalTimeNumber == s.totalTimeNumber
  {
    hide InRange;
  }

  /** Total processor time is the number of busy cycles, and the I/O counter is
      the number of cycles with a blocked process, on every input. */
  lemma {:induction false} CountersAreCycleCounts(s: State, alg: Algorithm, rnd: nat -> nat, k: nat)
    requires InRange(s) && Fresh(s)
    ensures SumBy(Run(s, alg, rnd, k).procs, CPUOf) == BusyCycles(s, alg, rnd, k)
    ensures Run(s, alg, rnd, k).totalTimeNumber == BlockedCycles(s, alg, rnd, k)
  {
    hide Cycle, InRange, Fresh, Placed, SumBy;
    if k == 0 {
      FreshCPU(s);
    } else {
      CountersAreCycleCounts(s, alg, rnd, k - 1);
      RunPlaced(s, alg, rnd, k - 1);
      CycleTotalCPU(Run(s, alg, rnd, k - 1), alg, rnd);
      CycleCountsBlocked(Run(s, alg, rnd, k - 1), alg, rnd);
    }
  }

  lemma FreshCPU(s: State)
    requires Fresh(s)
    ensures SumBy(s.procs, CPUOf) == 0 && s.totalTimeNumber == 0
  {
    forall i | 0 <= i < |s.procs| ensures CPUOf(s.procs[i]) == 0 { assert FreshProc(s.procs[i], i); }
    ZeroSum(s.procs);
    SumCompare(s.procs, s.procs, CPUOf, Zero);
    SumCompare(s.procs, s.procs, Zero, CPUOf);
  }

  lemma {:induction false} CountsAtMostCycles(s: State, alg: Algorithm, rnd: nat -> nat, k: nat)
    requires InRange(s)
    ensures BusyCycles(s, alg, rnd, k) <= k && BlockedCycles(s, alg, rnd, k) <= k
  {
    hide Run, InRange;
    if k > 0 { CountsAtMostCycles(s, alg, rnd, k - 1); }
  }

  /** Nothing runs and nothing is blocked once all have finished. */
  lemma DoneIsQuiet(s: State, arrived: nat, late: nat)
    requires Placed(s, arrived, late) && Done(s)
    ensures s.selection == None && s.blocked == [] && s.ready == []
  {
    FinishedIsPermutation(s, arrived, late);
    if s.selection.Some? { PlacedAt(s, s.selection.value, arrived, late); }
    if s.blocked != [] { HasMember(s.blocked); PlacedAt(s, s.blocked[0], arrived, late); }
    if s.ready != [] { HasMember(s.ready); PlacedAt(s, s.ready[0], arrived, late); }
  }

  /** When the loop stops after k + 1 cycles: the printed finishing time k is
      that of the last completion; the processor was busy for exactly sum C
      cycles; and neither utilisation exceeds one. */
  lemma Summary(s: State, alg: Algorithm, rnd: nat -> nat, k: nat)
    requires InRange(s) && Fresh(s) && AllNeedTime(s.procs)
    requires !Done(Run(s, alg, rnd, k)) && Done(Run(s, alg, rnd, k + 1))
    ensures var s' := Run(s, alg, rnd, k + 1);
            && s'.finished != [] && s'.finished[|s'.finished| - 1].finishingTime == k
            && BusyCycles(s, alg, rnd, k + 1) == SumBy(s.procs, NeedOf) <= k
            && s'.totalTimeNumber <= k
  {
    hide Run, Cycle, InRange, Placed, Fresh, AllNeedTime;
    RunStep(s, alg, rnd, k);
    CountersAreCycleCounts(s, alg, rnd, k + 1);
    CountsAtMostCycles(s, alg, rnd, k);
    RunPlaced(s, alg, rnd, k + 1);
    RunPlaced(s, alg, rnd, k);
    DoneIsQuiet(Run(s, alg, rnd, k + 1), k + 1, k + 1);
    RecordGrows(Run(s, alg, rnd, k), alg, rnd);
    AllServed(s, alg, rnd, k + 1);
  }

  lemma AllServed(s: State, alg: Algorithm, rnd: nat -> nat, k: nat)
    requires InRange(s) && Fresh(s) && AllNeedTime(s.procs) && Done(Run(s, alg, rnd, k))
    ensures SumBy(Run(s, alg, rnd, k).procs, CPUOf) == SumBy(s.procs, NeedOf)
  {
    hide Run, Fresh, AllNeedTime, InRange;
    var s' := Run(s, alg, rnd, k);
    RunBoundary(s, alg, rnd, k);
    RunKeepsInputs(s, alg, rnd, k);
    RunPlaced(s, alg, rnd, k);
    FinishedIsPermutation(s', k, k);
    forall i | 0 <= i < |s.procs| ensures CPUOf(s'.procs[i]) == NeedOf(s.procs[i]) {
      assert Clocked(s'.procs[i], s'.present, alg, 0) && SameInput(s.procs[i], s'.procs[i]);
    }
    SumCompare(s'.procs, s.procs, CPUOf, NeedOf);
    SumCompare(s.procs, s'.procs, NeedOf, CPUOf);
  }

  /** The completion record of any run lists each terminated process once, as it
      is now, by strictly increasing finishing time; at the end it is a
      permutation of the input. */
  lemma CompletionRecord(s: State, alg: Algorithm, rnd: nat -> nat, k: nat)
    requires InRange(s) && Fresh(s)
    ensures var s' := Run(s, alg, rnd, k);
            && Distinct(IDs(s'.finished))
            && (forall i, j :: 0 <= i < j < |s'.finished| ==>
                  s'.finished[i].finishingTime < s'.finished[j].finishingTime)
            && (forall q :: q in s'.finished ==> q.processID < |s'.procs| && s'.procs[q.processID] == q)
            && (Done(s') ==> forall i :: 0 <= i < |s'.procs| ==> i in IDs(s'.finished))
  {
    hide Run, InRange, Fresh, Done;
    RunPlaced(s, alg, rnd, k);
    FinishedIsPermutation(Run(s, alg, rnd, k), k, k);
  }
}
