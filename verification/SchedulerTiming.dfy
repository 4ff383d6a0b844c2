/** The clocks of each process: conservation of time, and the bounds on the burst
    and the blocked time. */
module SchedulerTiming {
  import opened Collections
  import opened SchedulerModel
  import opened SchedulerPlacement

  /** Every cycle a process has been present is a cycle it ran, was blocked, or waited. */
  ghost predicate Balanced(p: Proc, now: int) {
    now - p.A == p.CPUTime + p.Btime + p.waiting
  }

  /** The clocks of one process at time t. `slack` is 0 at a cycle boundary and
      1 between the start of a cycle and its countdown. */
  ghost predicate Clocked(p: Proc, t: nat, alg: Algorithm, slack: int) {
    && p.B >= 1 && p.C >= 1
    && match p.condition
       case Unstarted => p.CPUTime == 0 && p.Btime == 0 && p.waiting == 0 && !p.operating
       case Ready => Balanced(p, t) && p.CPUTime < p.C && !p.operating
       case Running => Balanced(p, t) && RunningOk(p, alg, slack)
       case Blocked => Balanced(p, t) && p.CPUTime < p.C && !p.operating
                       && p.BurstTime <= p.M * (p.B - 1) + slack
       case Terminated => Balanced(p, p.finishingTime) && p.CPUTime == p.C
  }

  ghost predicate RunningOk(p: Proc, alg: Algorithm, slack: int) {
    && slack <= p.CPUBurst <= p.B - 1 + slack
    && p.CPUTime + p.CPUBurst <= p.C
    && (alg.RR? ==> slack <= p.quantum <= 1 + slack)
    && (!p.operating ==> 1 + p.M * p.CPUBurst <= p.BurstTime <= 1 + p.M * (p.B - 1))
  }

  ghost predicate AllClocked(s: State, alg: Algorithm, slack: int) {
    forall i :: 0 <= i < |s.procs| ==> Clocked(s.procs[i], s.present, alg, slack)
  }

  /** No process drops out of the ready queue. */
  ghost predicate NoneLost(s: State) {
    forall i :: 0 <= i < |s.procs| && s.procs[i].condition == Ready ==> i in s.ready
  }

  /** A process at position j of the blocked list has been overdue for at most n - 1 - j cycles. */
  ghost predicate Overdue(s: State, slack: int) {
    forall j :: 0 <= j < |s.blocked| ==>
      s.blocked[j] < |s.procs| && s.procs[s.blocked[j]].BurstTime >= j + 1 + slack - |s.procs|
  }

  /** What holds between two cycles, when every process asks for processor time. */
  ghost predicate Boundary(s: State, alg: Algorithm) {
    && InRange(s)
    && Placed(s, s.present, s.present)
    && AllClocked(s, alg, 0)
    && NoneLost(s)
    && (s.selection == None ==> s.ready == [])
    && Overdue(s, 0)
  }

  // ---- one phase at a time ----

  lemma SettledBurst(p: Proc, t: nat, alg: Algorithm)
    requires Clocked(p, t, alg, 0) && p.condition == Running
    ensures var q := Settle(p); RunningOk(q, alg, 0) && !q.operating
  {
    if p.operating {
      assert p.M * p.CPUBurst <= p.M * (p.B - 1);
    }
  }

  lemma ProceedClocked(s: State, alg: Algorithm)
    requires Placed(s, s.present, s.present) && AllClocked(s, alg, 0)
    ensures AllClocked(Proceed(s, alg), alg, 1)
  {
    var s' := Proceed(s, alg);
    if s.selection.Some? {
      var i := s.selection.value;
      assert PlacedProc(s, i, s.present) && Clocked(s.procs[i], s.present, alg, 0);
      SettledBurst(s.procs[i], s.present, alg);
    }
    forall i | 0 <= i < |s.procs| ensures Clocked(s'.procs[i], s.present, alg, 1) {
      assert PlacedProc(s, i, s.present) && Clocked(s.procs[i], s.present, alg, 0);
      if s.selection != Some(i) { assert s'.procs[i] == s.procs[i]; }
    }
  }

  lemma ReleaseClocked(s: State, alg: Algorithm, arrived: nat, late: nat)
    requires Placed(s, arrived, late) && AllClocked(s, alg, 1)
    ensures AllClocked(Release(s), alg, 1)
  {
    var s' := Release(s);
    var k := FirstExpired(s.procs, s.blocked);
    if k < |s.blocked| {
      assert PlacedProc(s, s.blocked[k], arrived);
    }
    forall i | 0 <= i < |s.procs| ensures Clocked(s'.procs[i], s.present, alg, 1) {
      assert Clocked(s.procs[i], s.present, alg, 1);
    }
  }

  lemma ArriveClocked(s: State, alg: Algorithm, late: nat)
    requires Placed(s, s.present, late) && AllClocked(s, alg, 1)
    ensures AllClocked(Arrive(s), alg, 1)
  {
    forall i | 0 <= i < |s.procs| ensures Clocked(Arrive(s).procs[i], s.present, alg, 1) {
      assert PlacedProc(s, i, s.present) && Clocked(s.procs[i], s.present, alg, 1);
    }
  }

  lemma DispatchClocked(s: State, alg: Algorithm, rnd: nat -> nat, arrived: nat, late: nat)
    requires Placed(s, arrived, late) && AllClocked(s, alg, 1)
    ensures AllClocked(Dispatch(s, alg, rnd), alg, 1)
    ensures NoneLost(s) ==> NoneLost(Dispatch(s, alg, rnd))
    ensures Dispatch(s, alg, rnd).selection == None ==> Dispatch(s, alg, rnd).ready == []
  {
    var s' := Dispatch(s, alg, rnd);
    if s.ready != [] && s.selection.None? {
      var k := Pick(s, alg);
      var i := s.ready[k];
      assert PlacedProc(s, i, arrived) && Clocked(s.procs[i], s.present, alg, 1);
      RemoveAtMembers(s.ready, k);
    }
    forall i | 0 <= i < |s.procs| ensures Clocked(s'.procs[i], s.present, alg, 1) {
      assert Clocked(s.procs[i], s.present, alg, 1);
    }
  }

  lemma TickClocked(s: State, alg: Algorithm)
    requires AllClocked(s, alg, 1)
    ensures AllClocked(Tick(s, alg).(present := s.present + 1), alg, 0)
  {
    forall i | 0 <= i < |s.procs| ensures Clocked(TickProc(s.procs[i], alg), s.present + 1, alg, 0) {
      var p := s.procs[i];
      assert Clocked(p, s.present, alg, 1);
      assert p.M * (p.CPUBurst - 1) <= p.M * p.CPUBurst;
    }
  }

  lemma FrontNoneLost(s: State, alg: Algorithm)
    requires InRange(s) && Placed(s, s.present, s.present) && NoneLost(s)
    ensures NoneLost(Arrive(Release(Proceed(s, alg))))
  {
    hide Proceed, Release, Arrive, Placed, NoneLost;
    var p := Proceed(s, alg);
    ProceedPlaced(s, alg);
    ReleasePlaced(p, s.present, s.present + 1);
    ProceedNoneLost(s, alg);
    ReleaseNoneLost(p);
    ArriveNoneLost(Release(p), s.present + 1);
  }

  lemma ProceedNoneLost(s: State, alg: Algorithm)
    requires InRange(s) && NoneLost(s)
    ensures NoneLost(Proceed(s, alg))
  {
  }

  lemma ReleaseNoneLost(s: State)
    requires InRange(s) && NoneLost(s)
    ensures NoneLost(Release(s))
  {
  }

  lemma ArriveNoneLost(r: State, late: nat)
    requires Placed(r, r.present, late) && NoneLost(r)
    ensures NoneLost(Arrive(r))
  {
    ArriveIsUnguarded(r, late);
    ArrivalsBelow(r.procs, r.present, |r.procs|);
  }

  lemma BlockedSize(s: State, arrived: nat, late: nat)
    requires Placed(s, arrived, late)
    ensures |s.blocked| <= |s.procs|
    ensures s.selection.Some? ==> |s.blocked| < |s.procs| && |s.ready| < |s.procs|
  {
    DistinctSize(s.blocked, |s.procs|);
    if s.selection.Some? {
      assert PlacedProc(s, s.selection.value, arrived);
      DistinctConcat(s.blocked, [s.selection.value]);
      DistinctConcat(s.ready, [s.selection.value]);
      DistinctSize(s.blocked + [s.selection.value], |s.procs|);
      DistinctSize(s.ready + [s.selection.value], |s.procs|);
    }
  }

  /** A process that joins the blocked list has a cycle to serve; the others there are untouched. */
  lemma ProceedBlockedList(s: State, alg: Algorithm)
    requires Placed(s, s.present, s.present) && AllClocked(s, alg, 0) && s.selection.Some?
    ensures var i, s' := s.selection.value, Proceed(s, alg);
            && s'.blocked == s.blocked + (if s'.procs[i].condition == Blocked then [i] else [])
            && (s'.procs[i].condition == Blocked ==> s'.procs[i].BurstTime >= 1)
            && (forall j :: j in s.blocked ==> j < |s.procs| && s'.procs[j] == s.procs[j])
  {
    var i := s.selection.value;
    assert PlacedProc(s, i, s.present) && Clocked(s.procs[i], s.present, alg, 0);
    SettledBurst(s.procs[i], s.present, alg);
  }

  lemma ProceedOverdue(s: State, alg: Algorithm)
    requires Placed(s, s.present, s.present) && AllClocked(s, alg, 0) && Overdue(s, 0)
    ensures Overdue(Proceed(s, alg), 0)
  {
    var s' := Proceed(s, alg);
    BlockedSize(s, s.present, s.present);
    if s.selection.Some? {
      ProceedBlockedList(s, alg);
      hide Placed, AllClocked, Proceed;
      forall j | 0 <= j < |s'.blocked| ensures s'.procs[s'.blocked[j]].BurstTime >= j + 1 - |s.procs| {
        if j < |s.blocked| { assert s.blocked[j] in s.blocked; }
      }
    }
  }

  lemma ReleaseOverdue(s: State, arrived: nat, late: nat)
    requires Placed(s, arrived, late) && Overdue(s, 0)
    ensures Overdue(Release(s), 1)
  {
    var s' := Release(s);
    var k := FirstExpired(s.procs, s.blocked);
    BlockedSize(s, arrived, late);
    forall j | 0 <= j < |s'.blocked| ensures s'.procs[s'.blocked[j]].BurstTime >= j + 2 - |s.procs| {
      assert s'.blocked[j] == s.blocked[if j < k then j else j + 1];
    }
  }

  lemma RestOverdue(s: State, alg: Algorithm, rnd: nat -> nat, late: nat)
    requires Placed(s, s.present, late) && Overdue(s, 1)
    ensures Overdue(Dispatch(Arrive(s), alg, rnd), 1)
  {
    var a := Arrive(s);
    assert Overdue(a, 1);
    ArrivePlaced(s, late);
    var d := Dispatch(a, alg, rnd);
    forall j | 0 <= j < |d.blocked| ensures d.procs[d.blocked[j]].BurstTime >= j + 2 - |s.procs| {
      assert a.blocked[j] in a.blocked;
      assert PlacedProc(a, a.blocked[j], s.present + 1);
    }
  }

  lemma TickOverdue(s: State, alg: Algorithm)
    requires Overdue(s, 1)
    ensures Overdue(Tick(s, alg).(present := s.present + 1), 0)
  {
  }

  // ---- whole cycles and runs ----

  /** The state just before the countdown of a cycle that starts at a boundary. */
  ghost predicate Midway(d: State, alg: Algorithm) {
    && InRange(d)
    && Placed(d, d.present + 1, d.present + 1)
    && AllClocked(d, alg, 1)
    && NoneLost(d)
    && (d.selection == None ==> d.ready == [])
    && Overdue(d, 1)
  }

  /** The state once the running process has been dealt with, and at most one blocked one. */
  lemma FrontClocked(s: State, alg: Algorithm)
    requires Boundary(s, alg)
    ensures var r := Release(Proceed(s, alg));
            Placed(r, s.present, s.present + 1) && AllClocked(r, alg, 1) && Overdue(r, 1) && NoneLost(Arrive(r))
  {
    var p := Proceed(s, alg);
    hide Proceed, Release, Arrive, AllClocked, Overdue, NoneLost;
    ProceedPlaced(s, alg);
    ProceedClocked(s, alg);
    ProceedOverdue(s, alg);
    FrontNoneLost(s, alg);
    hide Placed;
    ReleasePlaced(p, s.present, s.present + 1);
    ReleaseClocked(p, alg, s.present, s.present + 1);
    ReleaseOverdue(p, s.present, s.present + 1);
  }

  lemma BackMidway(r: State, alg: Algorithm, rnd: nat -> nat)
    requires InRange(r) && Placed(r, r.present, r.present + 1)
    requires AllClocked(r, alg, 1) && Overdue(r, 1) && NoneLost(Arrive(r))
    ensures Midway(Dispatch(Arrive(r), alg, rnd), alg)
  {
    hide Arrive, Dispatch, Placed, AllClocked, Overdue, NoneLost, InRange;
    var late := r.present + 1;
    ArrivePlaced(r, late);
    ArriveClocked(r, alg, late);
    DispatchPlaced(Arrive(r), alg, rnd, late, late);
    DispatchClocked(Arrive(r), alg, rnd, late, late);
    RestOverdue(r, alg, rnd, late);
  }

  lemma SettledMidway(s: State, alg: Algorithm, rnd: nat -> nat)
    requires InRange(s) && Boundary(s, alg)
    ensures Midway(Settled(s, alg, rnd), alg)
  {
    hide Proceed, Release, Arrive, Dispatch, Boundary, Midway, Placed, AllClocked, Overdue, NoneLost, InRange;
    FrontClocked(s, alg);
    BackMidway(Release(Proceed(s, alg)), alg, rnd);
  }

  lemma TickBoundary(d: State, alg: Algorithm)
    requires Midway(d, alg)
    ensures Boundary(Tick(d, alg).(present := d.present + 1), alg)
  {
    hide Placed, AllClocked, Overdue, NoneLost, InRange;
    TickPlaced(d, alg, d.present + 1, d.present + 1);
    PlacedIgnoresClock(Tick(d, alg), d.present + 1, d.present + 1);
    TickClocked(d, alg);
    TickOverdue(d, alg);
    TickNoneLost(d, alg);
    TickInRange(d, alg);
  }

  lemma TickInRange(d: State, alg: Algorithm)
    requires InRange(d)
    ensures InRange(Tick(d, alg).(present := d.present + 1))
  {
  }

  lemma TickNoneLost(d: State, alg: Algorithm)
    requires NoneLost(d)
    ensures NoneLost(Tick(d, alg).(present := d.present + 1))
  {
  }

  lemma CycleBoundary(s: State, alg: Algorithm, rnd: nat -> nat)
    requires InRange(s) && Boundary(s, alg)
    ensures Boundary(Cycle(s, alg, rnd), alg)
  {
    hide Boundary, Midway, Settled, Tick, InRange;
    SettledMidway(s, alg, rnd);
    TickBoundary(Settled(s, alg, rnd), alg);
  }

  lemma FreshBoundary(s: State, alg: Algorithm)
    requires Fresh(s) && AllNeedTime(s.procs)
    ensures InRange(s) && Boundary(s, alg)
  {
    FreshPlaced(s);
    forall i | 0 <= i < |s.procs| ensures Clocked(s.procs[i], 0, alg, 0) {
      assert FreshProc(s.procs[i], i);
    }
  }

  /** Placement, conservation of time and the burst bounds at every boundary of every run. */
  lemma RunBoundary(s: State, alg: Algorithm, rnd: nat -> nat, k: nat)
    requires Fresh(s) && AllNeedTime(s.procs)
    ensures Boundary(Run(s, alg, rnd, k), alg)
  {
    FreshInRange(s);
    RunFromBoundary(s, alg, rnd, k);
  }

  lemma {:induction false} RunFromBoundary(s: State, alg: Algorithm, rnd: nat -> nat, k: nat)
    requires InRange(s) && Fresh(s) && AllNeedTime(s.procs)
    ensures Boundary(Run(s, alg, rnd, k), alg)
  {
    hide Boundary, Cycle, InRange, Fresh, AllNeedTime;
    if k == 0 {
      FreshBoundary(s, alg);
    } else {
      RunFromBoundary(s, alg, rnd, k - 1);
      CycleBoundary(Run(s, alg, rnd, k - 1), alg, rnd);
    }
  }

  // ---- what a reader of the printed figures relies on ----

  /** Every process is in exactly one place, the one its condition names: still to
      arrive, in the ready queue, on the processor, in the blocked list, or recorded. */
  lemma ExactlyOnePlace(s: State, alg: Algorithm, rnd: nat -> nat, k: nat, i: nat)
    requires InRange(s) && Fresh(s) && AllNeedTime(s.procs) && i < |s.procs|
    ensures var s' := Run(s, alg, rnd, k);
            var c := s'.procs[i].condition;
            && (c == Unstarted <==> k <= s'.procs[i].A)
            && (c == Ready <==> i in s'.ready)
            && (c == Running <==> s'.selection == Some(i))
            && (c == Blocked <==> i in s'.blocked)
            && (c == Terminated <==> s'.procs[i] in s'.finished)
            && Distinct(s'.ready) && Distinct(s'.blocked)
  {
    hide Run, Fresh, AllNeedTime, InRange, Boundary, Distinct;
    RunBoundary(s, alg, rnd, k);
    RunPlaced(s, alg, rnd, k);
    BoundaryAt(Run(s, alg, rnd, k), alg, i);
  }

  /** The boundary invariant as it bears on one process. */
  lemma BoundaryAt(s: State, alg: Algorithm, i: nat)
    requires Boundary(s, alg) && i < |s.procs|
    ensures PlacedProc(s, i, s.present) && Clocked(s.procs[i], s.present, alg, 0)
    ensures s.procs[i].condition == Ready <==> i in s.ready
    ensures i in s.ready ==> s.selection.Some?
    ensures s.selection.Some? ==> s.selection.value < |s.procs|
    ensures s.procs[i].condition == Terminated <==> s.procs[i] in s.finished
    ensures Distinct(s.ready) && Distinct(s.blocked)
  {
    if s.procs[i] in s.finished { assert PlacedProc(s, i, s.present); }
  }

  /** Conservation of time, for every process of every run. */
  lemma TimeIsConserved(s: State, alg: Algorithm, rnd: nat -> nat, k: nat, i: nat)
    requires InRange(s) && Fresh(s) && AllNeedTime(s.procs) && i < |s.procs|
    ensures var p := Run(s, alg, rnd, k).procs[i];
            && (p.condition in {Ready, Running, Blocked} ==> k - p.A == p.CPUTime + p.Btime + p.waiting)
            && (p.condition == Terminated ==> p.finishingTime - p.A == p.C + p.Btime + p.waiting)
  {
    hide Run, Fresh, AllNeedTime, InRange, Boundary;
    RunBoundary(s, alg, rnd, k);
    RunPlaced(s, alg, rnd, k);
    BoundaryAt(Run(s, alg, rnd, k), alg, i);
  }

  /** A burst never goes below zero, and a blocked process's remaining time
      stays between -(n - 1) and M * (B - 1). */
  lemma BurstsStayInRange(s: State, alg: Algorithm, rnd: nat -> nat, k: nat, i: nat)
    requires Fresh(s) && AllNeedTime(s.procs) && i < |s.procs|
    ensures var p := Run(s, alg, rnd, k).procs[i];
            && p.CPUTime <= p.C
            && (p.condition == Running ==> 0 <= p.CPUBurst < p.B && p.CPUTime + p.CPUBurst <= p.C)
            && (p.condition == Blocked ==> -(|s.procs| - 1) <= p.BurstTime <= p.M * (p.B - 1))
  {
    hide Run, Boundary;
    RunBoundary(s, alg, rnd, k);
    BoundaryBursts(Run(s, alg, rnd, k), alg, i);
  }

  lemma BoundaryBursts(s: State, alg: Algorithm, i: nat)
    requires Boundary(s, alg) && i < |s.procs|
    ensures var p := s.procs[i];
            && p.CPUTime <= p.C
            && (p.condition == Running ==> 0 <= p.CPUBurst < p.B && p.CPUTime + p.CPUBurst <= p.C)
            && (p.condition == Blocked ==> -(|s.procs| - 1) <= p.BurstTime <= p.M * (p.B - 1))
  {
    assert PlacedProc(s, i, s.present) && Clocked(s.procs[i], s.present, alg, 0);
    if s.procs[i].condition == Blocked {
      var j :| 0 <= j < |s.blocked| && s.blocked[j] == i;
    }
  }
}
