/** Termination and the finishing-time bound.

    Each unit of processor time still owed by a process is charged 1 for the
    cycle it will take and max(1, M) for the blocked time it can earn. The total
    charge never grows, and once everyone has arrived every cycle that does not
    complete the simulation spends at least one unit of it. */
module SchedulerProgress {
  import opened Collections
  import opened SchedulerModel
  import opened SchedulerPlacement
  import opened SchedulerTiming

  /** The blocked time that one cycle of running can earn. */
  function Rate(p: Proc): int {
    Max(1, p.M)
  }

  /** Blocked time earned so far and not yet served. A burst that was just
      dispatched has earned 1 - slack. */
  function Credit(p: Proc, slack: int): int {
    match p.condition
    case Running => if p.operating then 1 - slack else p.BurstTime - p.M * p.CPUBurst
    case Blocked => Max(0, p.BurstTime)
    case _ => 0
  }

  function Work(p: Proc, slack: int): int {
    Remaining(p) * (1 + Rate(p)) + Credit(p, slack)
  }

  /** The charge of a process at a cycle boundary, and midway through a cycle. */
  function BoundaryWork(p: Proc): int { Work(p, 0) }

  function MidWork(p: Proc): int { Work(p, 1) }

  function TotalWork(s: State): int {
    SumBy(s.procs, BoundaryWork)
  }

  // ---- no phase adds work ----

  /** The running process keeps its credit, turns it into blocked time, or gives it up. */
  lemma LeaveWork(p: Proc, q: Proc, t: nat, alg: Algorithm)
    requires Clocked(p, t, alg, 0) && p.condition == Running
    requires q.C == p.C && q.CPUTime == p.CPUTime && q.M == p.M && !q.operating
    requires q.condition in {Terminated, Ready}
          || (q.condition in {Blocked, Running} && q.BurstTime == Settle(p).BurstTime && q.CPUBurst == p.CPUBurst)
    requires q.condition == Blocked ==> p.CPUBurst == 0
    ensures MidWork(q) <= BoundaryWork(p)
  {
    SettledBurst(p, t, alg);
    assert Remaining(q) * (1 + Rate(q)) == Remaining(p) * (1 + Rate(p));
    if q.condition == Blocked {
      assert p.M * p.CPUBurst == 0;
    }
  }

  lemma ProceedWork(s: State, alg: Algorithm, i: nat)
    requires InRange(s) && i < |s.procs| && PlacedProc(s, i, s.present) && Clocked(s.procs[i], s.present, alg, 0)
    ensures MidWork(Proceed(s, alg).procs[i]) <= BoundaryWork(s.procs[i])
  {
    var p := s.procs[i];
    if s.selection == Some(i) {
      ProceedShape(s, alg);
      hide MidWork, BoundaryWork, Proceed;
      LeaveWork(p, Proceed(s, alg).procs[i], s.present, alg);
    }
  }

  lemma ProceedShape(s: State, alg: Algorithm)
    requires InRange(s) && s.selection.Some? && s.procs[s.selection.value].CPUBurst >= 0
    ensures var p, q := s.procs[s.selection.value], Proceed(s, alg).procs[s.selection.value];
            && q.C == p.C && q.CPUTime == p.CPUTime && q.M == p.M && !q.operating
            && q.CPUBurst == p.CPUBurst && q.BurstTime == Settle(p).BurstTime
            && q.condition in {Terminated, Ready, Blocked, Running}
            && (q.condition == Blocked ==> p.CPUBurst == 0)
  {
  }

  lemma JoinWork(s: State, arrived: nat, late: nat, i: nat)
    requires Placed(s, arrived, late) && i < |s.procs|
    ensures MidWork(Release(s).procs[i]) == MidWork(s.procs[i])
    ensures arrived == s.present ==> MidWork(Arrive(s).procs[i]) == MidWork(s.procs[i])
  {
    assert PlacedProc(s, i, arrived);
  }

  lemma DispatchWork(s: State, alg: Algorithm, rnd: nat -> nat, arrived: nat, late: nat, i: nat)
    requires Placed(s, arrived, late) && i < |s.procs|
    ensures MidWork(Dispatch(s, alg, rnd).procs[i]) == MidWork(s.procs[i])
  {
    assert PlacedProc(s, i, arrived);
  }

  lemma SettledWorkAt(s: State, alg: Algorithm, rnd: nat -> nat, i: nat)
    requires InRange(s) && Boundary(s, alg) && i < |s.procs|
    ensures MidWork(Settled(s, alg, rnd).procs[i]) <= BoundaryWork(s.procs[i])
  {
    hide Proceed, Release, Arrive, Dispatch, Boundary, Placed, PlacedProc, Clocked, InRange, MidWork, BoundaryWork;
    var p := Proceed(s, alg);
    var r := Release(p);
    BoundaryAt(s, alg, i);
    BoundaryPlaced(s, alg);
    ProceedPlaced(s, alg);
    ReleasePlaced(p, s.present, s.present + 1);
    ArrivePlaced(r, s.present + 1);
    ProceedWork(s, alg, i);
    JoinWork(p, s.present, s.present + 1, i);
    JoinWork(r, s.present, s.present + 1, i);
    DispatchWork(Arrive(r), alg, rnd, s.present + 1, s.present + 1, i);
  }

  lemma SettledWork(s: State, alg: Algorithm, rnd: nat -> nat)
    requires InRange(s) && Boundary(s, alg)
    ensures SumBy(Settled(s, alg, rnd).procs, MidWork) <= TotalWork(s)
  {
    hide Settled, Placed, AllClocked, NoneLost, Overdue, InRange, MidWork, BoundaryWork;
    var d := Settled(s, alg, rnd);
    forall i | 0 <= i < |s.procs| ensures MidWork(d.procs[i]) <= BoundaryWork(s.procs[i]) {
      SettledWorkAt(s, alg, rnd, i);
    }
    SumCompare(d.procs, s.procs, MidWork, BoundaryWork);
  }

  ghost predicate Working(p: Proc) {
    p.condition == Running || (p.condition == Blocked && p.BurstTime > 0)
  }

  lemma TickWork(p: Proc, t: nat, alg: Algorithm)
    requires Clocked(p, t, alg, 1)
    ensures BoundaryWork(TickProc(p, alg)) <= MidWork(p)
    ensures Working(p) ==> BoundaryWork(TickProc(p, alg)) < MidWork(p)
  {
    if p.condition == Running {
      assert (Remaining(p) - 1) * (1 + Rate(p)) == Remaining(p) * (1 + Rate(p)) - (1 + Rate(p));
      assert p.M * (p.CPUBurst - 1) == p.M * p.CPUBurst - p.M;
    }
  }

  // ---- a cycle after the last arrival does some work ----

  lemma DispatchFills(a: State, alg: Algorithm, rnd: nat -> nat, arrived: nat, late: nat)
    requires Placed(a, arrived, late) && AllClocked(a, alg, 1)
    ensures Dispatch(a, alg, rnd).selection == None ==> a.ready == [] && Dispatch(a, alg, rnd) == a
  {
    if a.ready != [] && a.selection == None {
      var i := a.ready[Pick(a, alg)];
      assert PlacedProc(a, i, arrived) && Clocked(a.procs[i], a.present, alg, 1);
    }
  }

  lemma ArriveKeepsBursts(r: State, arrived: nat, late: nat)
    requires Placed(r, arrived, late) && Arrive(r).ready == []
    ensures r.ready == [] && Arrive(r).blocked == r.blocked
    ensures forall i :: 0 <= i < |r.procs| ==> Arrive(r).procs[i].BurstTime == r.procs[i].BurstTime
  {
  }

  lemma NoReleaseMeansPending(p: State)
    requires InRange(p) && Release(p).ready == []
    ensures Release(p) == p && forall i :: i in p.blocked ==> p.procs[i].BurstTime > 0
  {
  }

  /** If the processor stays idle then no blocked process has expired. */
  lemma IdleMeansPending(s: State, alg: Algorithm, rnd: nat -> nat)
    requires InRange(s) && Boundary(s, alg) && Settled(s, alg, rnd).selection == None
    ensures var d := Settled(s, alg, rnd);
            Below(d.blocked, |d.procs|) && forall i :: i in d.blocked ==> d.procs[i].BurstTime > 0
  {
    hide Boundary, InRange, Proceed, Release;
    var r := Release(Proceed(s, alg));
    FrontClocked(s, alg);
    IdleAfterFront(r, alg, rnd, s.present + 1);
    NoReleaseMeansPending(Proceed(s, alg));
  }

  lemma IdleAfterFront(r: State, alg: Algorithm, rnd: nat -> nat, late: nat)
    requires InRange(r) && Placed(r, r.present, late) && AllClocked(r, alg, 1)
    requires Dispatch(Arrive(r), alg, rnd).selection == None
    ensures var d := Dispatch(Arrive(r), alg, rnd);
            && r.ready == [] && d.blocked == r.blocked
            && forall i :: 0 <= i < |r.procs| ==> d.procs[i].BurstTime == r.procs[i].BurstTime
  {
    hide Arrive, Dispatch, Placed, AllClocked, InRange;
    ArrivePlaced(r, late);
    ArriveClocked(r, alg, late);
    DispatchFills(Arrive(r), alg, rnd, r.present + 1, late);
    ArriveKeepsBursts(r, r.present, late);
  }

  lemma SomeoneWorksMidway(d: State, alg: Algorithm)
    requires Midway(d, alg) && !Done(d)
    requires forall i :: 0 <= i < |d.procs| ==> d.procs[i].A <= d.present
    requires d.selection == None ==> forall i :: i in d.blocked ==> d.procs[i].BurstTime > 0
    ensures exists i :: 0 <= i < |d.procs| && Working(d.procs[i])
  {
    FinishedIsPermutation(d, d.present + 1, d.present + 1);
    var i :| 0 <= i < |d.procs| && d.procs[i].condition != Terminated;
    assert PlacedProc(d, i, d.present + 1);
    if d.selection.Some? {
      assert PlacedProc(d, d.selection.value, d.present + 1);
      assert Working(d.procs[d.selection.value]);
    } else {
      assert Working(d.procs[i]);
    }
  }

  lemma SomeoneWorks(s: State, alg: Algorithm, rnd: nat -> nat)
    requires InRange(s) && Boundary(s, alg)
    requires !Done(Settled(s, alg, rnd))
    requires forall i :: 0 <= i < |s.procs| ==> s.procs[i].A <= s.present
    ensures var d := Settled(s, alg, rnd); exists i :: 0 <= i < |d.procs| && Working(d.procs[i])
  {
    hide Settled, Boundary, Midway, Working;
    var d := Settled(s, alg, rnd);
    SettledMidway(s, alg, rnd);
    SettledKeepsInputs(s, alg, rnd);
    forall i | 0 <= i < |d.procs| ensures d.procs[i].A <= d.present {
      assert SameInput(s.procs[i], d.procs[i]);
    }
    if d.selection == None {
      IdleMeansPending(s, alg, rnd);
    }
    SomeoneWorksMidway(d, alg);
  }

  lemma SettledKeepsInputs(s: State, alg: Algorithm, rnd: nat -> nat)
    requires InRange(s)
    ensures SameInputs(s.procs, Settled(s, alg, rnd).procs)
  {
    hide Proceed, Release, Arrive, Dispatch, InRange;
    var p := Proceed(s, alg);
    ProceedKeepsInputs(s, alg);
    JoinKeepsInputs(p);
    JoinKeepsInputs(Release(p));
    DispatchKeepsInputs(Arrive(Release(p)), alg, rnd);
  }

  /** One cycle never adds work, and spends some once everyone has arrived. */
  lemma CycleWork(s: State, alg: Algorithm, rnd: nat -> nat)
    requires InRange(s) && Boundary(s, alg)
    ensures TotalWork(Cycle(s, alg, rnd)) <= TotalWork(s)
    ensures !Done(Cycle(s, alg, rnd)) && (forall i :: 0 <= i < |s.procs| ==> s.procs[i].A <= s.present)
            ==> TotalWork(Cycle(s, alg, rnd)) < TotalWork(s)
  {
    hide Settled, Cycle, Boundary, Placed, Overdue, NoneLost, MidWork, BoundaryWork, Clocked, Done, Working;
    var d := Settled(s, alg, rnd);
    var s' := Cycle(s, alg, rnd);
    SettledWork(s, alg, rnd);
    SettledMidway(s, alg, rnd);
    CycleShape(s, alg, rnd);
    if !Done(s') && forall i :: 0 <= i < |s.procs| ==> s.procs[i].A <= s.present {
      SomeoneWorks(s, alg, rnd);
    }
    forall i | 0 <= i < |d.procs|
      ensures BoundaryWork(s'.procs[i]) <= MidWork(d.procs[i])
      ensures Working(d.procs[i]) ==> BoundaryWork(s'.procs[i]) < MidWork(d.procs[i])
    {
      TickWork(d.procs[i], d.present, alg);
    }
    SumCompare(s'.procs, d.procs, BoundaryWork, MidWork);
  }

  // ---- whole runs ----

  /** The latest arrival time of the input. */
  function LastArrival(procs: seq<Proc>): (t: nat)
    ensures forall i :: 0 <= i < |procs| ==> procs[i].A <= t
    ensures t == 0 || exists i :: 0 <= i < |procs| && procs[i].A == t
  {
    if procs == [] then 0 else
      var t := LastArrival(procs[..|procs| - 1]);
      if t < procs[|procs| - 1].A then procs[|procs| - 1].A else t
  }

  /** The charge of a process that has not run. */
  function Allowance(p: Proc): int {
    p.C * (1 + Max(1, p.M))
  }

  function FinishBound(procs: seq<Proc>): int {
    LastArrival(procs) + SumBy(procs, Allowance)
  }

  lemma FreshWork(s: State)
    requires Fresh(s)
    ensures TotalWork(s) == SumBy(s.procs, Allowance)
  {
    forall i | 0 <= i < |s.procs| ensures BoundaryWork(s.procs[i]) == Allowance(s.procs[i]) {
      assert FreshProc(s.procs[i], i);
    }
    SumCompare(s.procs, s.procs, BoundaryWork, Allowance);
    SumCompare(s.procs, s.procs, Allowance, BoundaryWork);
  }

  lemma WorkIsNonnegative(s: State, alg: Algorithm)
    requires AllClocked(s, alg, 0)
    ensures TotalWork(s) >= 0
  {
    forall i | 0 <= i < |s.procs| ensures 0 <= BoundaryWork(s.procs[i]) {
      assert Clocked(s.procs[i], s.present, alg, 0);
      assert 0 <= Remaining(s.procs[i]) * (1 + Rate(s.procs[i]));
    }
    ZeroSum(s.procs);
    SumCompare(s.procs, s.procs, Zero, BoundaryWork);
  }

  function Zero(p: Proc): int { 0 }

  lemma {:induction false} ZeroSum(procs: seq<Proc>)
    ensures SumBy(procs, Zero) == 0
  {
    if procs != [] { ZeroSum(procs[..|procs| - 1]); }
  }

  /** The work still owed plus the cycles spent since the last arrival. */
  function Spent(s0: State, s: State): int {
    TotalWork(s) + Max(0, s.present - LastArrival(s0.procs))
  }

  /** What the first k cycles leave: every recorded completion is in time, and an
      unfinished simulation has spent a unit of work in each cycle since the last arrival. */
  ghost predicate OnTime(s0: State, s: State) {
    && (forall q :: q in s.finished ==> q.finishingTime <= FinishBound(s0.procs))
    && (!Done(s) ==> Spent(s0, s) <= SumBy(s0.procs, Allowance))
  }

  lemma CycleSpends(s0: State, s: State, alg: Algorithm, rnd: nat -> nat)
    requires InRange(s) && Boundary(s, alg) && SameInputs(s0.procs, s.procs)
    ensures !Done(Cycle(s, alg, rnd)) ==> Spent(s0, Cycle(s, alg, rnd)) <= Spent(s0, s)
    ensures s.present <= LastArrival(s0.procs) + Spent(s0, s)
  {
    WorkIsNonnegative(s, alg);
    hide Cycle, TotalWork, InRange, Boundary, LastArrival;
    CycleWork(s, alg, rnd);
    if s.present >= LastArrival(s0.procs) {
      ArrivedByNow(s0.procs, s.procs, s.present);
    }
  }

  lemma CycleOnTime(s0: State, s: State, alg: Algorithm, rnd: nat -> nat)
    requires InRange(s) && Boundary(s, alg) && OnTime(s0, s) && SameInputs(s0.procs, s.procs)
    ensures OnTime(s0, Cycle(s, alg, rnd))
  {
    hide Cycle, Spent, InRange, Boundary, Placed, LastArrival;
    CycleSpends(s0, s, alg, rnd);
    BoundaryPlaced(s, alg);
    RecordGrows(s, alg, rnd);
  }

  lemma BoundaryPlaced(s: State, alg: Algorithm)
    requires Boundary(s, alg)
    ensures Placed(s, s.present, s.present)
  {
  }

  lemma ArrivedByNow(ps: seq<Proc>, qs: seq<Proc>, t: nat)
    requires SameInputs(ps, qs) && t >= LastArrival(ps)
    ensures forall i :: 0 <= i < |qs| ==> qs[i].A <= t
  {
    forall i | 0 <= i < |qs| ensures qs[i].A <= t {
      assert SameInput(ps[i], qs[i]);
    }
  }

  /** A cycle records at most one completion, stamped with its own time, and
      none when all have finished. */
  lemma RecordGrows(s: State, alg: Algorithm, rnd: nat -> nat)
    requires InRange(s) && Placed(s, s.present, s.present)
    ensures var f := Cycle(s, alg, rnd).finished;
            || f == s.finished
            || (!Done(s) && |f| == |s.finished| + 1 && f[..|s.finished|] == s.finished
                && f[|s.finished|].finishingTime == s.present)
  {
    hide Cycle, Placed, InRange, Done;
    CycleShape(s, alg, rnd);
    SettledRecord(s, alg, rnd);
    ProceedRecord(s, alg);
  }

  lemma SettledRecord(s: State, alg: Algorithm, rnd: nat -> nat)
    requires InRange(s)
    ensures Settled(s, alg, rnd).finished == Proceed(s, alg).finished
  {
    hide Proceed, InRange;
  }

  lemma ProceedRecord(s: State, alg: Algorithm)
    requires InRange(s) && Placed(s, s.present, s.present)
    ensures var f := Proceed(s, alg).finished;
            || f == s.finished
            || (!Done(s) && |f| == |s.finished| + 1 && f[..|s.finished|] == s.finished
                && f[|s.finished|].finishingTime == s.present)
  {
    if s.selection.Some? {
      FinishedIsPermutation(s, s.present, s.present);
      assert PlacedProc(s, s.selection.value, s.present);
    }
  }

  lemma FreshOnTime(s: State)
    requires Fresh(s)
    ensures OnTime(s, s)
  {
    hide TotalWork;
    FreshWork(s);
  }

  lemma {:induction false} RunOnTime(s: State, alg: Algorithm, rnd: nat -> nat, k: nat)
    requires InRange(s) && Fresh(s) && AllNeedTime(s.procs)
    ensures OnTime(s, Run(s, alg, rnd, k))
  {
    hide Cycle, Boundary, InRange, OnTime, Fresh, AllNeedTime;
    if k == 0 {
      FreshOnTime(s);
    } else {
      RunOnTime(s, alg, rnd, k - 1);
      RunBoundary(s, alg, rnd, k - 1);
      RunKeepsInputs(s, alg, rnd, k - 1);
      CycleOnTime(s, Run(s, alg, rnd, k - 1), alg, rnd);
    }
  }

  /** The finishing-time bound: no process finishes later than
      max A + sum of C * (1 + max(1, M)), under any of the three algorithms. */
  lemma FinishingTimeBound(s: State, alg: Algorithm, rnd: nat -> nat, k: nat, i: nat)
    requires Fresh(s) && AllNeedTime(s.procs) && i < |s.procs|
    ensures var p := Run(s, alg, rnd, k).procs[i];
            p.condition == Terminated ==> 0 <= p.finishingTime <= FinishBound(s.procs)
  {
    hide Run, FinishBound;
    RunOnTime(s, alg, rnd, k);
    RunPlaced(s, alg, rnd, k);
  }

  /** The simulation loop stops, one cycle after the bound at the latest. */
  lemma Terminates(s: State, alg: Algorithm, rnd: nat -> nat, k: nat)
    requires Fresh(s) && AllNeedTime(s.procs) && k > FinishBound(s.procs)
    ensures Done(Run(s, alg, rnd, k))
  {
    hide Run;
    RunOnTime(s, alg, rnd, k);
    RunBoundary(s, alg, rnd, k);
    RunKeepsInputs(s, alg, rnd, k);
    CycleSpends(s, Run(s, alg, rnd, k), alg, rnd);
  }

  // ---- exactly which inputs terminate under FCFS and RR ----

  ghost predicate Idle(p: Proc) {
    p.C == 0 && p.condition in {Unstarted, Ready}
  }

  lemma FrontKeepsIdle(s: State, alg: Algorithm, arrived: nat, late: nat, i: nat)
    requires Placed(s, arrived, late) && i < |s.procs| && Idle(s.procs[i])
    ensures Idle(Proceed(s, alg).procs[i]) && Idle(Release(s).procs[i])
  {
    assert PlacedProc(s, i, arrived);
  }

  lemma BackKeepsIdle(s: State, alg: Algorithm, rnd: nat -> nat, i: nat)
    requires InRange(s) && i < |s.procs| && Idle(s.procs[i])
    ensures Idle(Arrive(s).procs[i])
    ensures !alg.SJF? ==> Idle(Dispatch(s, alg, rnd).procs[i])
  {
  }

  /** A process that asks for no processor time is never selected. */
  lemma NeverServed(s: State, alg: Algorithm, rnd: nat -> nat, i: nat)
    requires InRange(s) && Placed(s, s.present, s.present) && !alg.SJF?
    requires i < |s.procs| && Idle(s.procs[i])
    ensures Idle(Cycle(s, alg, rnd).procs[i])
  {
    hide Proceed, Release, Arrive, Dispatch, Placed, InRange;
    var p := Proceed(s, alg);
    ProceedPlaced(s, alg);
    FrontKeepsIdle(s, alg, s.present, s.present, i);
    FrontKeepsIdle(p, alg, s.present, s.present + 1, i);
    BackKeepsIdle(Release(p), alg, rnd, i);
    BackKeepsIdle(Arrive(Release(p)), alg, rnd, i);
    CycleShape(s, alg, rnd);
  }

  lemma {:induction false} NeverFinished(s: State, alg: Algorithm, rnd: nat -> nat, k: nat, i: nat)
    requires InRange(s) && Fresh(s) && !alg.SJF?
    requires i < |s.procs| && s.procs[i].C == 0
    ensures Idle(Run(s, alg, rnd, k).procs[i])
  {
    if k == 0 {
      assert FreshProc(s.procs[i], i);
    } else {
      hide Cycle, InRange, Placed, Fresh, Idle;
      NeverFinished(s, alg, rnd, k - 1, i);
      RunPlaced(s, alg, rnd, k - 1);
      NeverServed(Run(s, alg, rnd, k - 1), alg, rnd, i);
    }
  }

  /** Under FCFS and RR the simulation loop stops exactly when every process
      asks for at least one cycle: a process with C = 0 is taken off the ready
      queue with a burst of zero and never put anywhere again. */
  lemma TerminatesExactlyWhen(s: State, alg: Algorithm, rnd: nat -> nat)
    requires Fresh(s) && !alg.SJF?
    ensures (exists k: nat :: Done(Run(s, alg, rnd, k))) <==> AllNeedTime(s.procs)
  {
    FreshInRange(s);
    hide Run, Done, Fresh;
    if AllNeedTime(s.procs) {
      BoundIsNonnegative(s.procs);
      var k: nat := FinishBound(s.procs) + 1;
      Terminates(s, alg, rnd, k);
      assert Done(Run(s, alg, rnd, k));
    } else {
      var i :| 0 <= i < |s.procs| && s.procs[i].C < 1;
      forall k: nat ensures !Done(Run(s, alg, rnd, k)) {
        NeverFinished(s, alg, rnd, k, i);
        RunPlaced(s, alg, rnd, k);
        FinishedIsPermutation(Run(s, alg, rnd, k), k, k);
      }
    }
  }

  lemma BoundIsNonnegative(procs: seq<Proc>)
    ensures FinishBound(procs) >= 0
  {
    forall i | 0 <= i < |procs| ensures Zero(procs[i]) <= Allowance(procs[i]) {
      assert 0 <= procs[i].C * (1 + Max(1, procs[i].M));
    }
    ZeroSum(procs);
    SumCompare(procs, procs, Zero, Allowance);
  }
}
