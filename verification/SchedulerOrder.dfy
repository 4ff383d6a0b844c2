/** The order in which one cycle moves processes: what the queue and the
    blocked list are after it, in terms of what they were before. */
module SchedulerOrder {
  import opened Collections
  import opened SchedulerModel
  import opened SchedulerPlacement
  import opened SchedulerTiming
  import opened SchedulerProgress
  import opened SchedulerSummary
  import opened SchedulerWaiting

  /** What a cycle moves: the process that lost the processor to the queue, the
      one that lost it to the blocked list, the one released, and the arrivals. */
  datatype Moves = Moves(preempted: seq<nat>, entered: seq<nat>, released: seq<nat>, arrived: seq<nat>)

  /** The running process loses the processor for at most one reason. */
  ghost predicate LeavesRight(s: State, alg: Algorithm, m: Moves)
    requires InRange(s)
  {
    && |m.preempted| + |m.entered| <= 1
    && (forall i :: i in m.preempted + m.entered ==> s.selection == Some(i) && s.procs[i].CPUTime < s.procs[i].C)
    && (s.selection.Some? ==>
          var p := s.procs[s.selection.value];
          && (m.entered != [] <==> p.CPUTime < p.C && p.CPUBurst <= 0)
          && (m.preempted != [] <==> p.CPUTime < p.C && p.CPUBurst > 0 && alg.RR? && p.quantum <= 0))
  }

  /** The first expired process of the list is released, if there is one. */
  ghost predicate ReleasesRight(s: State, m: Moves, blocked: seq<nat>)
    requires InRange(s)
  {
    if forall j :: 0 <= j < |s.blocked| ==> s.procs[s.blocked[j]].BurstTime > 0
    then m.released == [] && blocked == s.blocked + m.entered
    else exists k: nat :: FirstOf(s, k) && m.released == [s.blocked[k]] && blocked == RemoveAt(s.blocked, k) + m.entered
  }

  ghost predicate FirstOf(s: State, k: nat)
    requires InRange(s)
  {
    && k < |s.blocked| && s.procs[s.blocked[k]].BurstTime <= 0
    && forall j :: 0 <= j < k ==> s.procs[s.blocked[j]].BurstTime > 0
  }

  ghost predicate Increasing(q: seq<nat>) {
    forall j, k :: 0 <= j < k < |q| ==> q[j] < q[k]
  }

  /** Those arriving now, in input order. */
  ghost predicate ArrivesRight(s: State, m: Moves) {
    && (forall i :: i in m.arrived <==> 0 <= i < |s.procs| && s.procs[i].A == s.present)
    && Increasing(m.arrived)
  }

  /** Everyone who waits, in order: those who did, then the preempted, the
      released, and the arriving processes. */
  function Queue(s: State, m: Moves): seq<nat> {
    s.ready + m.preempted + m.released + m.arrived
  }

  /** The earliest under FCFS and RR; under SJF the earliest with the least time left. */
  ghost predicate PicksRight(s: State, alg: Algorithm, queue: seq<nat>, k: nat)
    requires Below(queue, |s.procs|)
  {
    && k < |queue| && (!alg.SJF? ==> k == 0)
    && (alg.SJF? ==>
          && (forall j :: 0 <= j < |queue| ==> Remaining(s.procs[queue[k]]) <= Remaining(s.procs[queue[j]]))
          && (forall j :: 0 <= j < k ==> Remaining(s.procs[queue[k]]) < Remaining(s.procs[queue[j]])))
  }

  /** The process just started has run one cycle of a burst drawn from the number. */
  ghost predicate StartsRight(before: Proc, after: Proc, alg: Algorithm, r: nat) {
    && before.B >= 1 && after.condition == Running && after.operating
    && after.CPUBurst == Min(1 + r % before.B, Remaining(before)) - 1
    && (alg.RR? ==> after.quantum == 1)
  }

  /** The state after the cycle, when it took the process at position k of the queue. */
  ghost predicate Started(s: State, alg: Algorithm, rnd: nat -> nat, queue: seq<nat>, s': State, k: nat)
    requires Below(queue, |s.procs|)
  {
    && PicksRight(s, alg, queue, k) && s'.selection == Some(queue[k])
    && s'.ready == RemoveAt(queue, k) && s'.line == s.line + 1
    && |s'.procs| == |s.procs| && StartsRight(s.procs[queue[k]], s'.procs[queue[k]], alg, rnd(s.line))
  }

  // ---- phase by phase ----

  lemma ProceedMoves(s: State, alg: Algorithm) returns (preempted: seq<nat>, entered: seq<nat>)
    requires InRange(s) && Boundary(s, alg)
    ensures LeavesRight(s, alg, Moves(preempted, entered, [], []))
    ensures var p := Proceed(s, alg);
            && p.ready == s.ready + preempted && p.blocked == s.blocked + entered && p.line == s.line
            && p.selection == (if s.selection.Some? && s.procs[s.selection.value].CPUTime < s.procs[s.selection.value].C
                               && preempted + entered == [] then s.selection else None)
  {
    preempted, entered := [], [];
    if s.selection.Some? {
      var p := s.procs[s.selection.value];
      BoundaryAt(s, alg, s.selection.value);
      if p.CPUTime < p.C && p.CPUBurst <= 0 { entered := [s.selection.value]; }
      else if p.CPUTime < p.C && alg.RR? && p.quantum <= 0 { preempted := [s.selection.value]; }
    }
  }

  /** The process that has just entered the list has not expired. */
  lemma EnteredUnexpired(s: State, alg: Algorithm, entered: seq<nat>)
    requires InRange(s) && Boundary(s, alg) && Proceed(s, alg).blocked == s.blocked + entered && |entered| <= 1
    ensures var p := Proceed(s, alg);
            && (forall j :: j in s.blocked ==> p.procs[j].BurstTime == s.procs[j].BurstTime)
            && (forall j :: 0 <= j < |entered| ==> entered[j] < |p.procs| && p.procs[entered[j]].BurstTime > 0)
  {
    var p := Proceed(s, alg);
    if s.selection.Some? {
      ProceedBlockedList(s, alg);
      if entered != [] {
        assert p.blocked[|s.blocked|] == entered[0];
        assert |p.blocked| == |s.blocked| + 1;
      }
    } else {
      assert |p.blocked| == |s.blocked|;
    }
  }

  /** So the first expired process of the longer list is that of the shorter. */
  lemma FirstExpiredBefore(s: State, p: State, entered: seq<nat>)
    requires InRange(s) && InRange(p) && |p.procs| == |s.procs| && p.blocked == s.blocked + entered
    requires forall j :: j in s.blocked ==> p.procs[j].BurstTime == s.procs[j].BurstTime
    requires forall j :: 0 <= j < |entered| ==> entered[j] < |p.procs| && p.procs[entered[j]].BurstTime > 0
    ensures var k := FirstExpired(p.procs, p.blocked);
            if k == |p.blocked| then forall j :: 0 <= j < |s.blocked| ==> s.procs[s.blocked[j]].BurstTime > 0
            else FirstOf(s, k) && p.blocked[k] == s.blocked[k]
                 && RemoveAt(p.blocked, k) == RemoveAt(s.blocked, k) + entered
  {
    var k := FirstExpired(p.procs, p.blocked);
    hide FirstExpired;
    forall j | 0 <= j < |s.blocked|
      ensures p.blocked[j] == s.blocked[j] && p.procs[p.blocked[j]].BurstTime == s.procs[s.blocked[j]].BurstTime
    {
      assert s.blocked[j] in s.blocked;
    }
    forall j | |s.blocked| <= j < |p.blocked| ensures p.blocked[j] == entered[j - |s.blocked|] { }
  }

  lemma ReleaseMoves(s: State, alg: Algorithm, m: Moves) returns (released: seq<nat>)
    requires InRange(s) && Boundary(s, alg) && Proceed(s, alg).blocked == s.blocked + m.entered && |m.entered| <= 1
    ensures var r, m' := Release(Proceed(s, alg)), m.(released := released);
            && ReleasesRight(s, m', r.blocked) && |released| <= 1
            && r.ready == Proceed(s, alg).ready + released
            && r.selection == Proceed(s, alg).selection && r.line == Proceed(s, alg).line
  {
    hide Boundary, Proceed, FirstExpired, RemoveAt;
    var p := Proceed(s, alg);
    EnteredUnexpired(s, alg, m.entered);
    FirstExpiredBefore(s, p, m.entered);
    var k := FirstExpired(p.procs, p.blocked);
    released := if k == |p.blocked| then [] else [p.blocked[k]];
    if k < |p.blocked| { assert FirstOf(s, k); }
  }

  lemma {:induction false} ArrivalsInOrder(procs: seq<Proc>, t: nat, n: nat)
    requires n <= |procs|
    ensures Increasing(Arrivals(procs, t, n))
  {
    if n > 0 {
      var a, b := Arrivals(procs, t, n), Arrivals(procs, t, n - 1);
      ArrivalsInOrder(procs, t, n - 1);
      ArrivalsBelow(procs, t, n - 1);
      hide Arrivals;
      assert forall j :: 0 <= j < |b| ==> a[j] == b[j] < n - 1;
    }
  }

  lemma ArriveMoves(r: State, late: nat) returns (arrived: seq<nat>)
    requires Placed(r, r.present, late)
    ensures var a := Arrive(r);
            && a.ready == r.ready + arrived && a.blocked == r.blocked && a.selection == r.selection && a.line == r.line
            && (forall i :: i in arrived <==> 0 <= i < |r.procs| && r.procs[i].A == r.present)
            && Increasing(arrived)
  {
    hide Arrivals;
    ArriveIsUnguarded(r, late);
    arrived := Arrivals(r.procs, r.present, |r.procs|);
    ArrivalsBelow(r.procs, r.present, |r.procs|);
    ArrivalsInOrder(r.procs, r.present, |r.procs|);
  }

  ghost predicate SameNeeds(p: Proc, q: Proc) {
    Remaining(q) == Remaining(p) && q.A == p.A && q.B == p.B
  }

  lemma NeedsKept(s: State, alg: Algorithm, i: nat)
    requires InRange(s) && i < |s.procs|
    ensures var r := Release(Proceed(s, alg)); SameNeeds(s.procs[i], Arrive(r).procs[i]) && r.procs[i].A == s.procs[i].A
  {
    hide Proceed, Release, Arrive, InRange;
    var p := Proceed(s, alg);
    ProceedClocks(s, alg, i);
    JoinClocks(p, i);
    JoinClocks(Release(p), i);
    ProceedKeepsInputs(s, alg);
    JoinKeepsInputs(p);
    JoinKeepsInputs(Release(p));
    assert SameInput(s.procs[i], p.procs[i]) && SameInput(p.procs[i], Release(p).procs[i]);
    assert SameInput(Release(p).procs[i], Arrive(Release(p)).procs[i]);
  }

  /** The dispatch of the process at position k of the queue of a. */
  ghost predicate Dispatches(a: State, alg: Algorithm, rnd: nat -> nat, d: State, k: nat)
    requires Below(a.ready, |a.procs|)
  {
    && PicksRight(a, alg, a.ready, k) && d.selection == Some(a.ready[k])
    && d.ready == RemoveAt(a.ready, k) && d.line == a.line + 1 && |d.procs| == |a.procs|
    && var p, q := a.procs[a.ready[k]], d.procs[a.ready[k]];
       && p.B >= 1 && q.condition == Running && q.operating
       && q.CPUBurst == Min(1 + rnd(a.line) % p.B, Remaining(p)) && (alg.RR? ==> q.quantum == 2)
  }

  lemma DispatchShape(a: State, alg: Algorithm, rnd: nat -> nat)
    requires InRange(a) && a.selection.None? && a.ready != []
    requires Remaining(a.procs[a.ready[Pick(a, alg)]]) >= 1
    ensures var k, d := Pick(a, alg), Dispatch(a, alg, rnd);
            && d.selection == Some(a.ready[k]) && d.ready == RemoveAt(a.ready, k) && d.line == a.line + 1
            && var p, q := a.procs[a.ready[k]], d.procs[a.ready[k]];
               && p.B >= 1 && q.condition == Running && q.operating
               && q.CPUBurst == Min(1 + rnd(a.line) % p.B, Remaining(p)) && (alg.RR? ==> q.quantum == 2)
  {
    hide Pick, RemoveAt;
  }

  lemma PickIsRight(a: State, alg: Algorithm)
    requires InRange(a) && a.ready != []
    ensures PicksRight(a, alg, a.ready, Pick(a, alg))
  {
    if alg.SJF? { ShortestIsEarliestMinimum(a.procs, a.ready); }
  }

  /** An idle processor takes one process; a busy one leaves the queue alone. */
  lemma DispatchMoves(a: State, alg: Algorithm, rnd: nat -> nat, arrived: nat, late: nat) returns (k: nat)
    requires InRange(a) && Placed(a, arrived, late) && AllClocked(a, alg, 1)
    ensures if a.selection.None? && a.ready != [] then Dispatches(a, alg, rnd, Dispatch(a, alg, rnd), k)
            else Dispatch(a, alg, rnd) == a
  {
    k := 0;
    if a.selection.None? && a.ready != [] {
      k := Pick(a, alg);
      ReadyNeedsTime(a, alg, arrived, late, k);
      hide Placed, AllClocked, Pick, Dispatch;
      DispatchShape(a, alg, rnd);
      PickIsRight(a, alg);
    }
  }

  lemma ReadyNeedsTime(a: State, alg: Algorithm, arrived: nat, late: nat, k: nat)
    requires Placed(a, arrived, late) && AllClocked(a, alg, 1) && k < |a.ready|
    ensures a.ready[k] < |a.procs| && Remaining(a.procs[a.ready[k]]) >= 1
  {
    var i := a.ready[k];
    assert i in a.ready && PlacedProc(a, i, arrived) && Clocked(a.procs[i], a.present, alg, 1);
  }

  /** What that is to the cycle that started in s. */
  lemma StartedCycle(s: State, a: State, alg: Algorithm, rnd: nat -> nat, d: State, s': State, k: nat)
    requires InRange(s) && InRange(a) && |a.procs| == |s.procs| == |s'.procs| == |d.procs| && a.line == s.line
    requires forall i :: 0 <= i < |s.procs| ==> SameNeeds(s.procs[i], a.procs[i])
    requires Dispatches(a, alg, rnd, d, k)
    requires s'.selection == d.selection && s'.ready == d.ready && s'.line == d.line
    requires forall i :: 0 <= i < |d.procs| ==> s'.procs[i] == TickProc(d.procs[i], alg)
    ensures Started(s, alg, rnd, a.ready, s', k)
  {
    hide Remaining, RemoveAt;
    assert SameNeeds(s.procs[a.ready[k]], a.procs[a.ready[k]]);
  }

  // ---- the whole cycle ----

  /** One cycle: at most one process loses the processor and at most one is
      released, the first expired one; the queue gets the preempted, then the
      released, then the arriving processes, in input order; and an idle
      processor takes the first of that queue, or under SJF the first with the
      least time left, and reads one random number. */
  lemma CycleOrder(s: State, alg: Algorithm, rnd: nat -> nat) returns (m: Moves, k: nat)
    requires InRange(s) && Boundary(s, alg)
    ensures LeavesRight(s, alg, m) && ReleasesRight(s, m, Cycle(s, alg, rnd).blocked) && ArrivesRight(s, m)
    ensures var q, s' := Queue(s, m), Cycle(s, alg, rnd);
            && Below(q, |s.procs|)
            && var keeps := s.selection.Some? && m.preempted + m.entered == []
                            && s.procs[s.selection.value].CPUTime < s.procs[s.selection.value].C;
               if keeps || q == [] then
                 s'.ready == q && s'.selection == (if keeps then s.selection else None) && s'.line == s.line
               else Started(s, alg, rnd, q, s', k)
  {
    hide Proceed, Release, Arrive, Dispatch, Cycle, Boundary, AllClocked, Overdue, NoneLost, Placed, InRange,
         LeavesRight, ReleasesRight, Dispatches, Started, SameNeeds, TickProc;
    var preempted, entered := ProceedMoves(s, alg);
    FewLeave(s, alg, preempted, entered);
    var released := ReleaseMoves(s, alg, Moves(preempted, entered, [], []));
    FrontClocked(s, alg);
    var r := Release(Proceed(s, alg));
    var a := Arrive(r);
    var arrived := ArriveMoves(r, s.present + 1);
    m := Moves(preempted, entered, released, arrived);
    SameMoves(s, alg, m, r.blocked);
    forall i | 0 <= i < |s.procs| ensures SameNeeds(s.procs[i], a.procs[i]) && r.procs[i].A == s.procs[i].A {
      NeedsKept(s, alg, i);
    }
    ArrivePlaced(r, s.present + 1);
    ArriveClocked(r, alg, s.present + 1);
    k := DispatchMoves(a, alg, rnd, s.present + 1, s.present + 1);
    assert a.ready == Queue(s, m);
    BlockedAfter(r, alg, rnd, s.present + 1, 0);
    CycleShape(s, alg, rnd);
    CycleLine(s, alg, rnd);
    ReadyBelow(a);
    if a.selection.None? && a.ready != [] {
      StartedCycle(s, a, alg, rnd, Dispatch(a, alg, rnd), Cycle(s, alg, rnd), k);
    }
  }

  lemma ReadyBelow(a: State)
    requires InRange(a)
    ensures Below(a.ready, |a.procs|)
  {
  }

  lemma FewLeave(s: State, alg: Algorithm, preempted: seq<nat>, entered: seq<nat>)
    requires InRange(s) && LeavesRight(s, alg, Moves(preempted, entered, [], []))
    ensures |entered| <= 1
  {
  }

  /** The conditions on the moves do not depend on those of the later phases. */
  lemma SameMoves(s: State, alg: Algorithm, m: Moves, blocked: seq<nat>)
    requires InRange(s) && LeavesRight(s, alg, Moves(m.preempted, m.entered, [], []))
    requires ReleasesRight(s, Moves(m.preempted, m.entered, m.released, []), blocked)
    ensures LeavesRight(s, alg, m) && ReleasesRight(s, m, blocked)
  {
  }

  lemma CycleLine(s: State, alg: Algorithm, rnd: nat -> nat)
    requires InRange(s)
    ensures Cycle(s, alg, rnd).line == Settled(s, alg, rnd).line
  {
    hide Settled, InRange;
  }
}
