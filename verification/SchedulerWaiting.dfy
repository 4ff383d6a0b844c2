/** How long a stay in the ready queue or in the blocked list can last. */
module SchedulerWaiting {
  import opened Collections
  import opened SchedulerModel
  import opened SchedulerPlacement
  import opened SchedulerTiming
  import opened SchedulerProgress

  /** The position of x in q. */
  ghost function IndexOf(q: seq<nat>, x: nat): (j: nat)
    requires x in q
    ensures j < |q| && q[j] == x
  {
    if q[0] == x then 0 else 1 + IndexOf(q[1..], x)
  }

  lemma IndexIsUnique(q: seq<nat>, j: nat)
    requires Distinct(q) && j < |q|
    ensures IndexOf(q, q[j]) == j
  {
  }

  // ---- one cycle of the running process ----

  /** The cycles the running process may still run before it leaves the processor. */
  function RunLeft(p: Proc, alg: Algorithm): int {
    if alg.RR? then Min(p.CPUBurst, p.quantum) else p.CPUBurst
  }

  lemma ProceedKeeps(s: State, alg: Algorithm, r: nat)
    requires InRange(s) && Boundary(s, alg) && s.selection == Some(r)
    ensures var p := Proceed(s, alg);
            && p.selection == (if RunLeft(s.procs[r], alg) >= 1 then Some(r) else None)
            && (p.selection == Some(r) ==> p.procs[r] == Settle(s.procs[r]))
  {
    assert PlacedProc(s, r, s.present) && Clocked(s.procs[r], s.present, alg, 0);
  }

  /** The rest of the cycle does not touch the running process, and only appends to the queue. */
  lemma RestKeeps(p: State, alg: Algorithm, rnd: nat -> nat, late: nat)
    requires Placed(p, p.present, late)
    ensures var a := Arrive(Release(p));
            && a.selection == p.selection && p.ready <= a.ready
            && (p.selection.Some? ==> Dispatch(a, alg, rnd) == a)
            && (p.selection.Some? ==> a.procs[p.selection.value] == p.procs[p.selection.value])
  {
    if p.selection.Some? {
      PlacedAt(p, p.selection.value, p.present, late);
    }
  }

  /** While it may run, the running process keeps the processor and the queue keeps its order. */
  lemma KeepsRunning(s: State, alg: Algorithm, rnd: nat -> nat, r: nat)
    requires InRange(s) && Boundary(s, alg) && s.selection == Some(r)
    requires RunLeft(s.procs[r], alg) >= 1
    ensures var s' := Cycle(s, alg, rnd);
            && s'.selection == Some(r) && s.ready <= s'.ready
            && s'.procs[r] == TickProc(Settle(s.procs[r]), alg)
            && s'.procs[r].condition == Running
            && RunLeft(s'.procs[r], alg) == RunLeft(s.procs[r], alg) - 1
  {
    var p := Proceed(s, alg);
    ProceedKeeps(s, alg, r);
    ProceedPlaced(s, alg);
    assert s.ready == p.ready;
    PlacedAt(p, r, s.present, s.present + 1);
    hide Proceed, Boundary, Placed, Cycle, InRange, Release, Arrive, Dispatch;
    RestKeeps(p, alg, rnd, s.present + 1);
    CycleShape(s, alg, rnd);
  }

  /** Once it may not, the head of the queue takes over and the others move up. */
  lemma HandsOver(s: State, alg: Algorithm, rnd: nat -> nat, r: nat)
    requires InRange(s) && Boundary(s, alg) && s.selection == Some(r) && s.ready != [] && !alg.SJF?
    requires RunLeft(s.procs[r], alg) < 1
    ensures var s' := Cycle(s, alg, rnd); s'.selection == Some(s.ready[0]) && s.ready[1..] <= s'.ready
  {
    var p := Proceed(s, alg);
    var a := Arrive(Release(p));
    ProceedKeeps(s, alg, r);
    assert s.ready <= p.ready;
    hide Proceed, Cycle;
    ReadyAfterFront(s, alg, rnd);
    CycleShape(s, alg, rnd);
    DispatchHead(a, alg, rnd);
    assert a.ready[1..][..|s.ready[1..]|] == s.ready[1..];
  }

  lemma ReadyAfterFront(s: State, alg: Algorithm, rnd: nat -> nat)
    requires InRange(s) && Boundary(s, alg)
    ensures var p := Proceed(s, alg);
            var a := Arrive(Release(p));
            && a.selection == p.selection && p.ready <= a.ready
            && (Dispatch(a, alg, rnd).selection == None ==> a.ready == [])
  {
    hide Proceed, Release, Arrive, Dispatch, Placed, AllClocked, Overdue, NoneLost, InRange;
    var p := Proceed(s, alg);
    var r := Release(p);
    ProceedPlaced(s, alg);
    FrontClocked(s, alg);
    RestKeeps(p, alg, rnd, s.present + 1);
    ArrivePlaced(r, s.present + 1);
    ArriveClocked(r, alg, s.present + 1);
    DispatchFills(Arrive(r), alg, rnd, s.present + 1, s.present + 1);
  }

  lemma DispatchHead(a: State, alg: Algorithm, rnd: nat -> nat)
    requires InRange(a) && a.selection == None && a.ready != [] && !alg.SJF?
    requires Dispatch(a, alg, rnd).selection != None
    ensures Dispatch(a, alg, rnd).selection == Some(a.ready[0]) && Dispatch(a, alg, rnd).ready == a.ready[1..]
  {
  }

  // ---- bounded waiting under FCFS and RR ----

  /** The largest burst bound of the input. */
  function MaxB(procs: seq<Proc>): (m: nat)
    ensures forall i :: 0 <= i < |procs| ==> procs[i].B <= m
  {
    if procs == [] then 0 else Max(MaxB(procs[..|procs| - 1]), procs[|procs| - 1].B)
  }

  /** The most cycles one dispatch can run. */
  function Cap(procs: seq<Proc>, alg: Algorithm): nat {
    if alg.RR? then 2 else MaxB(procs)
  }

  /** A bound on the cycles process i will still wait. */
  ghost function WaitBound(s: State, alg: Algorithm, cap: nat, i: nat): int
    requires InRange(s) && s.selection.Some? && i in s.ready
  {
    RunLeft(s.procs[s.selection.value], alg) + IndexOf(s.ready, i) * cap
  }

  lemma RunLeftBound(s: State, alg: Algorithm, cap: nat)
    requires InRange(s) && Boundary(s, alg) && s.selection.Some?
    requires cap >= Cap(s.procs, alg)
    ensures 0 <= RunLeft(s.procs[s.selection.value], alg) <= cap - 1
  {
    var r := s.selection.value;
    assert PlacedProc(s, r, s.present) && Clocked(s.procs[r], s.present, alg, 0);
  }

  lemma WaitShrinks(s: State, alg: Algorithm, rnd: nat -> nat, cap: nat, i: nat)
    requires InRange(s) && Boundary(s, alg) && Boundary(Cycle(s, alg, rnd), alg) && !alg.SJF?
    requires i < |s.procs| && s.procs[i].condition == Ready && Cycle(s, alg, rnd).procs[i].condition == Ready
    requires cap >= Cap(s.procs, alg) && Cap(s.procs, alg) == Cap(Cycle(s, alg, rnd).procs, alg)
    ensures var s' := Cycle(s, alg, rnd);
            && i in s.ready && s.selection.Some? && i in s'.ready && s'.selection.Some?
            && WaitBound(s', alg, cap, i) <= WaitBound(s, alg, cap, i) - 1
  {
    hide Cycle, Boundary, InRange, PlacedProc, Clocked, Distinct, Cap, RunLeft, TickProc, Settle;
    var s' := Cycle(s, alg, rnd);
    BoundaryAt(s, alg, i);
    BoundaryAt(s', alg, i);
    var r := s.selection.value;
    var j := IndexOf(s.ready, i);
    RunLeftBound(s, alg, cap);
    RunLeftBound(s', alg, cap);
    if RunLeft(s.procs[r], alg) >= 1 {
      KeepsRunning(s, alg, rnd, r);
      IndexIsUnique(s'.ready, j);
    } else {
      HandsOver(s, alg, rnd, r);
      assert s'.ready[j - 1] == s.ready[1..][j - 1];
      IndexIsUnique(s'.ready, j - 1);
      assert (j - 1) * cap == j * cap - cap;
    }
  }

  lemma SameCap(ps: seq<Proc>, qs: seq<Proc>, alg: Algorithm)
    requires SameInputs(ps, qs)
    ensures Cap(ps, alg) == Cap(qs, alg)
  {
    SameMaxB(ps, qs);
  }

  lemma {:induction false} SameMaxB(ps: seq<Proc>, qs: seq<Proc>)
    requires SameInputs(ps, qs)
    ensures MaxB(ps) == MaxB(qs)
  {
    if ps != [] {
      assert SameInput(ps[|ps| - 1], qs[|qs| - 1]);
      var ps', qs' := ps[..|ps| - 1], qs[..|qs| - 1];
      forall i | 0 <= i < |ps'| ensures SameInput(ps'[i], qs'[i]) {
        assert SameInput(ps[i], qs[i]);
      }
      SameMaxB(ps', qs');
    }
  }

  /** Process i is in condition c at boundary k. */
  ghost predicate Is(s: State, alg: Algorithm, rnd: nat -> nat, k: nat, i: nat, c: Condition)
    requires InRange(s) && i < |s.procs|
  {
    Run(s, alg, rnd, k).procs[i].condition == c
  }

  /** Process i is in condition c at every boundary from `from` up to, not including, `upto`. */
  ghost predicate Stays(s: State, alg: Algorithm, rnd: nat -> nat, from: nat, upto: nat, i: nat, c: Condition)
    requires InRange(s) && i < |s.procs|
  {
    forall k :: from <= k < upto ==> Is(s, alg, rnd, k, i, c)
  }

  /** The facts about boundary k that the step lemmas ask for. */
  lemma AtBoundary(s: State, alg: Algorithm, rnd: nat -> nat, k: nat)
    requires InRange(s) && Fresh(s) && AllNeedTime(s.procs)
    ensures Boundary(Run(s, alg, rnd, k), alg) && Boundary(Run(s, alg, rnd, k + 1), alg)
    ensures Run(s, alg, rnd, k + 1) == Cycle(Run(s, alg, rnd, k), alg, rnd)
    ensures Cap(Run(s, alg, rnd, k).procs, alg) == Cap(s.procs, alg)
    ensures SameInputs(s.procs, Run(s, alg, rnd, k).procs)
  {
    hide Run, Boundary, Fresh, AllNeedTime, InRange;
    RunBoundary(s, alg, rnd, k);
    RunBoundary(s, alg, rnd, k + 1);
    RunStep(s, alg, rnd, k);
    RunKeepsInputs(s, alg, rnd, k);
    SameCap(s.procs, Run(s, alg, rnd, k).procs, alg);
  }

  lemma {:induction false} WaitsShrink(s: State, alg: Algorithm, rnd: nat -> nat, from: nat, upto: nat, i: nat)
    requires InRange(s) && Fresh(s) && AllNeedTime(s.procs) && !alg.SJF? && i < |s.procs|
    requires from < upto && Stays(s, alg, rnd, from, upto, i, Ready)
    ensures var t, u, cap := Run(s, alg, rnd, from), Run(s, alg, rnd, upto - 1), Cap(s.procs, alg);
            && i in t.ready && t.selection.Some? && i in u.ready && u.selection.Some?
            && WaitBound(u, alg, cap, i) <= WaitBound(t, alg, cap, i) - (upto - 1 - from)
  {
    hide Run, Cycle, Boundary, Fresh, AllNeedTime, InRange, Cap, WaitBound;
    AtBoundary(s, alg, rnd, from);
    assert Is(s, alg, rnd, from, i, Ready) && Is(s, alg, rnd, upto - 1, i, Ready);
    BoundaryAt(Run(s, alg, rnd, from), alg, i);
    if from < upto - 1 {
      WaitsShrink(s, alg, rnd, from, upto - 1, i);
      AtBoundary(s, alg, rnd, upto - 2);
      AtBoundary(s, alg, rnd, upto - 1);
      assert Is(s, alg, rnd, upto - 2, i, Ready);
      WaitShrinks(Run(s, alg, rnd, upto - 2), alg, rnd, Cap(s.procs, alg), i);
    }
  }

  /** A process that has just waited one cycle waits at most n - 1 dispatches in all. */
  lemma WaitBoundLimit(t: State, alg: Algorithm, cap: nat, i: nat)
    requires InRange(t) && Boundary(t, alg) && t.selection.Some? && i in t.ready
    requires cap >= Cap(t.procs, alg)
    ensures 0 <= WaitBound(t, alg, cap, i) <= (|t.procs| - 1) * cap - 1
  {
    hide Boundary, Placed, InRange, Cap;
    BoundaryPlaced(t, alg);
    RunLeftBound(t, alg, cap);
    BlockedSize(t, t.present, t.present);
    PlaceCost(IndexOf(t.ready, i), |t.procs| - 1, cap);
  }

  lemma PlaceCost(j: nat, m: int, cap: nat)
    requires j + 1 <= m
    ensures 0 <= j * cap <= m * cap - cap
  {
    var x: nat := m - 1 - j;
    assert 0 <= x * cap && 0 <= j * cap;
    assert m * cap == (j + x + 1) * cap == j * cap + x * cap + cap;
  }

  /** Bounded waiting: a stay in the ready queue lasts at most 2 * (n - 1)
      cycles under RR and (n - 1) * max B cycles under FCFS. */
  lemma BoundedWaiting(s: State, alg: Algorithm, rnd: nat -> nat, from: nat, upto: nat, i: nat)
    requires InRange(s) && Fresh(s) && AllNeedTime(s.procs) && !alg.SJF? && i < |s.procs|
    requires from < upto && Stays(s, alg, rnd, from, upto, i, Ready)
    ensures upto - from <= (|s.procs| - 1) * (if alg.RR? then 2 else MaxB(s.procs))
  {
    hide Run, Boundary, Fresh, AllNeedTime, InRange, MaxB, Stays, WaitBound;
    WaitsShrink(s, alg, rnd, from, upto, i);
    AtBoundary(s, alg, rnd, from);
    AtBoundary(s, alg, rnd, upto - 1);
    WaitBoundLimit(Run(s, alg, rnd, from), alg, Cap(s.procs, alg), i);
    WaitBoundLimit(Run(s, alg, rnd, upto - 1), alg, Cap(s.procs, alg), i);
  }

  // ---- the blocked list ----

  /** Proceed and the phases after execxuteB leave the blocked processes alone. */
  lemma BlockedAround(s: State, alg: Algorithm, rnd: nat -> nat, i: nat)
    requires InRange(s) && Boundary(s, alg) && i in s.blocked
    ensures var p := Proceed(s, alg);
            && i < |s.procs| && p.procs[i] == s.procs[i] && s.blocked <= p.blocked
  {
    assert PlacedProc(s, i, s.present);
  }

  lemma BlockedAfter(r: State, alg: Algorithm, rnd: nat -> nat, late: nat, i: nat)
    requires Placed(r, r.present, late)
    ensures var d := Dispatch(Arrive(r), alg, rnd);
            && d.blocked == r.blocked
            && (i in r.blocked ==> i < |r.procs| && d.procs[i] == r.procs[i] && r.procs[i].condition == Blocked)
  {
    if i in r.blocked {
      assert PlacedProc(r, i, r.present);
      ArrivePlaced(r, late);
      assert PlacedProc(Arrive(r), i, r.present + 1);
    }
  }

  /** An unexpired process stays; an expired one leaves, or another ahead of it does. */
  lemma ReleaseInOrder(p: State, arrived: nat, late: nat, i: nat)
    requires Placed(p, arrived, late) && i in p.blocked
    ensures var r := Release(p);
            && i < |p.procs|
            && (p.procs[i].BurstTime > 0 ==> i in r.blocked)
            && (i in r.blocked ==> r.procs[i] == p.procs[i])
            && (i in r.blocked && p.procs[i].BurstTime <= 0 ==> IndexOf(r.blocked, i) < IndexOf(p.blocked, i))
  {
    var k := FirstExpired(p.procs, p.blocked);
    var j := IndexOf(p.blocked, i);
    assert p.blocked[j] == i;
    hide Placed, FirstExpired, IndexOf;
    if k < |p.blocked| {
      RemovedBefore(p.blocked, k, j);
    }
  }

  /** Taking out one element moves those behind it up by one. */
  lemma RemovedBefore(q: seq<nat>, k: nat, j: nat)
    requires Distinct(q) && k < |q| && j < |q|
    ensures q[j] in RemoveAt(q, k) <==> j != k
    ensures k < j ==> IndexOf(RemoveAt(q, k), q[j]) == j - 1
    ensures IndexOf(q, q[j]) == j
  {
    RemoveAtMembers(q, k);
    RemoveAtElements(q, k);
    IndexIsUnique(q, j);
    hide RemoveAt, IndexOf;
    if k < j { IndexIsUnique(RemoveAt(q, k), j - 1); }
  }

  lemma BlockedCycle(s: State, alg: Algorithm, rnd: nat -> nat, i: nat)
    requires InRange(s) && Boundary(s, alg) && i in s.blocked && i < |s.procs|
    ensures var x, s' := s.procs[i].BurstTime, Cycle(s, alg, rnd);
            && (x > 0 ==> s'.procs[i].condition == Blocked)
            && (s'.procs[i].condition == Blocked ==>
                  && i in s'.blocked && s'.procs[i].BurstTime == x - 1
                  && (x <= 0 ==> IndexOf(s'.blocked, i) < IndexOf(s.blocked, i)))
  {
    var p := Proceed(s, alg);
    var r := Release(p);
    ProceedPlaced(s, alg);
    BlockedAround(s, alg, rnd, i);
    hide Proceed, Release, Arrive, Dispatch, Cycle, Placed;
    PrefixIndex(s.blocked, p.blocked, i);
    ReleaseInOrder(p, s.present, s.present + 1, i);
    ReleasePlaced(p, s.present, s.present + 1);
    BlockedAfter(r, alg, rnd, s.present + 1, i);
    SettledPlaced(s, alg, rnd);
    PlacedAt(Settled(s, alg, rnd), i, s.present + 1, s.present + 1);
    CycleShape(s, alg, rnd);
  }

  lemma {:induction false} PrefixIndex(q: seq<nat>, r: seq<nat>, x: nat)
    requires q <= r && x in q
    ensures IndexOf(r, x) == IndexOf(q, x)
  {
    if q[0] != x { PrefixIndex(q[1..], r[1..], x); }
  }

  /** An unexpired process with x blocked cycles left stays blocked for x more cycles. */
  lemma {:induction false} StaysBlocked(s: State, alg: Algorithm, rnd: nat -> nat, from: nat, x: nat, i: nat)
    requires InRange(s) && Fresh(s) && AllNeedTime(s.procs) && i < |s.procs|
    requires var p := Run(s, alg, rnd, from).procs[i]; p.condition == Blocked && p.BurstTime >= x
    ensures Stays(s, alg, rnd, from, from + x + 1, i, Blocked)
    ensures Run(s, alg, rnd, from + x).procs[i].BurstTime == Run(s, alg, rnd, from).procs[i].BurstTime - x
  {
    hide Run, Cycle, Boundary, Fresh, AllNeedTime, InRange;
    if x > 0 {
      StaysBlocked(s, alg, rnd, from, x - 1, i);
      var t := Run(s, alg, rnd, from + x - 1);
      AtBoundary(s, alg, rnd, from + x - 1);
      assert Is(s, alg, rnd, from + x - 1, i, Blocked);
      BoundaryAt(t, alg, i);
      BlockedCycle(t, alg, rnd, i);
    }
  }

  /** While an expired process stays blocked, its place in the list moves up every cycle. */
  lemma {:induction false} MovesUp(s: State, alg: Algorithm, rnd: nat -> nat, from: nat, upto: nat, i: nat)
    requires InRange(s) && Fresh(s) && AllNeedTime(s.procs) && i < |s.procs|
    requires from < upto && Stays(s, alg, rnd, from, upto, i, Blocked)
    requires Run(s, alg, rnd, from).procs[i].BurstTime <= 0
    ensures var t, u := Run(s, alg, rnd, from), Run(s, alg, rnd, upto - 1);
            && i in t.blocked && i in u.blocked && u.procs[i].BurstTime <= 0
            && IndexOf(u.blocked, i) <= IndexOf(t.blocked, i) - (upto - 1 - from)
  {
    hide Run, Cycle, Boundary, Fresh, AllNeedTime, InRange;
    AtBoundary(s, alg, rnd, from);
    assert Is(s, alg, rnd, from, i, Blocked) && Is(s, alg, rnd, upto - 1, i, Blocked);
    BoundaryAt(Run(s, alg, rnd, from), alg, i);
    if from < upto - 1 {
      MovesUp(s, alg, rnd, from, upto - 1, i);
      AtBoundary(s, alg, rnd, upto - 2);
      BlockedCycle(Run(s, alg, rnd, upto - 2), alg, rnd, i);
    }
  }

  /** Release delay: a process that enters the blocked list with D blocked
      cycles assigned stays for at least D cycles, and for at most D plus the
      number of processes ahead of it in the list when it expires. */
  lemma ReleaseDelay(s: State, alg: Algorithm, rnd: nat -> nat, from: nat, d: nat, upto: nat, i: nat)
    requires InRange(s) && Fresh(s) && AllNeedTime(s.procs) && i < |s.procs| && d >= 1
    requires var p := Run(s, alg, rnd, from).procs[i]; p.condition == Blocked && p.BurstTime == d - 1
    ensures Stays(s, alg, rnd, from, from + d, i, Blocked)
    ensures i in Run(s, alg, rnd, from + d - 1).blocked
    ensures from < upto && Stays(s, alg, rnd, from, upto, i, Blocked)
            ==> upto - from <= d + IndexOf(Run(s, alg, rnd, from + d - 1).blocked, i)
  {
    hide Run, Boundary, Fresh, AllNeedTime, InRange, Clocked;
    StaysBlocked(s, alg, rnd, from, d - 1, i);
    var e := from + d - 1;
    AtBoundary(s, alg, rnd, e);
    assert Is(s, alg, rnd, e, i, Blocked);
    BoundaryAt(Run(s, alg, rnd, e), alg, i);
    if from < upto && Stays(s, alg, rnd, from, upto, i, Blocked) && e < upto {
      MovesUp(s, alg, rnd, e, upto, i);
    }
  }

  // ---- from a dispatch to the end of the blocked time it earns ----

  lemma RunsOn(s: State, alg: Algorithm, rnd: nat -> nat, i: nat)
    requires InRange(s) && Boundary(s, alg) && i < |s.procs| && s.procs[i].condition == Running
    requires RunLeft(s.procs[i], alg) >= 1
    ensures Cycle(s, alg, rnd).procs[i] == TickProc(Settle(s.procs[i]), alg)
  {
    assert PlacedProc(s, i, s.present);
    hide Boundary, Cycle;
    KeepsRunning(s, alg, rnd, i);
  }

  lemma ProceedBlocks(s: State, alg: Algorithm, i: nat)
    requires InRange(s) && Boundary(s, alg) && i < |s.procs| && s.procs[i].condition == Running
    requires s.procs[i].CPUBurst == 0 && s.procs[i].CPUTime < s.procs[i].C
    ensures var p := Proceed(s, alg);
            i in p.blocked && p.procs[i].BurstTime == Settle(s.procs[i]).BurstTime >= 1
  {
    assert PlacedProc(s, i, s.present) && Clocked(s.procs[i], s.present, alg, 0);
    SettledBurst(s.procs[i], s.present, alg);
    assert Proceed(s, alg).blocked[|s.blocked|] == i;
  }

  lemma Blocks(s: State, alg: Algorithm, rnd: nat -> nat, i: nat)
    requires InRange(s) && Boundary(s, alg) && i < |s.procs| && s.procs[i].condition == Running
    requires s.procs[i].CPUBurst == 0 && s.procs[i].CPUTime < s.procs[i].C
    ensures var q := Cycle(s, alg, rnd).procs[i];
            q.condition == Blocked && q.BurstTime == Settle(s.procs[i]).BurstTime - 1
  {
    hide Proceed, Release, Arrive, Dispatch, Cycle, Placed, Boundary, InRange, Settle;
    var p := Proceed(s, alg);
    BoundaryPlaced(s, alg);
    ProceedBlocks(s, alg, i);
    ProceedPlaced(s, alg);
    ReleaseInOrder(p, s.present, s.present + 1, i);
    ReleasePlaced(p, s.present, s.present + 1);
    BlockedAfter(Release(p), alg, rnd, s.present + 1, i);
    CycleShape(s, alg, rnd);
  }

  /** At boundary k process i runs, with `left` cycles of its burst left that
      neither RR nor its completion cuts short. */
  ghost predicate Bursting(s: State, alg: Algorithm, rnd: nat -> nat, k: nat, left: nat, i: nat)
    requires InRange(s) && i < |s.procs|
  {
    var p := Run(s, alg, rnd, k).procs[i];
    && p.condition == Running && p.CPUBurst == left && p.CPUTime + left < p.C
    && (alg.RR? ==> left <= p.quantum)
  }

  /** Its burst runs down, one cycle at a time, and its blocked time stays fixed. */
  lemma {:induction false} RunsOut(s: State, alg: Algorithm, rnd: nat -> nat, from: nat, left: nat, i: nat, j: nat)
    requires InRange(s) && Fresh(s) && AllNeedTime(s.procs) && i < |s.procs| && j <= left
    requires Bursting(s, alg, rnd, from, left, i)
    ensures Bursting(s, alg, rnd, from + j, left - j, i)
    ensures Settle(Run(s, alg, rnd, from + j).procs[i]).BurstTime == Settle(Run(s, alg, rnd, from).procs[i]).BurstTime
  {
    hide Run, Cycle, Boundary, Fresh, AllNeedTime, InRange;
    if j > 0 {
      RunsOut(s, alg, rnd, from, left, i, j - 1);
      AtBoundary(s, alg, rnd, from + j - 1);
      RunsOn(Run(s, alg, rnd, from + j - 1), alg, rnd, i);
    }
  }

  /** A process dispatched with burst b that RR does not cut short and that does
      not finish runs for b cycles and is then assigned 1 + M * (b - 1) blocked cycles. */
  lemma BurstEarnsBlockedTime(s: State, alg: Algorithm, rnd: nat -> nat, from: nat, b: nat, i: nat)
    requires InRange(s) && Fresh(s) && AllNeedTime(s.procs) && i < |s.procs| && b >= 1
    requires Bursting(s, alg, rnd, from, b - 1, i)
    ensures Stays(s, alg, rnd, from, from + b, i, Running)
    ensures var q := Run(s, alg, rnd, from + b).procs[i];
            q.condition == Blocked && q.BurstTime == Settle(Run(s, alg, rnd, from).procs[i]).BurstTime - 1
  {
    hide Run, Cycle, Boundary, Fresh, AllNeedTime, InRange;
    forall k | from <= k < from + b ensures Is(s, alg, rnd, k, i, Running) {
      RunsOut(s, alg, rnd, from, b - 1, i, k - from);
    }
    RunsOut(s, alg, rnd, from, b - 1, i, b - 1);
    AtBoundary(s, alg, rnd, from + b - 1);
    Blocks(Run(s, alg, rnd, from + b - 1), alg, rnd, i);
  }

  /** The blocked time that a burst of b cycles earns. */
  function Earned(M: nat, b: nat): (d: nat)
    requires b >= 1
    ensures d >= 1
  {
    1 + M * (b - 1)
  }

  /** The whole episode: a burst of b cycles, then at least D = 1 + M * (b - 1)
      blocked cycles, and at most D plus the number of processes then ahead. */
  lemma Episode(s: State, alg: Algorithm, rnd: nat -> nat, from: nat, b: nat, i: nat)
    returns (d: nat, ahead: nat)
    requires InRange(s) && Fresh(s) && AllNeedTime(s.procs) && i < |s.procs| && b >= 1
    requires Bursting(s, alg, rnd, from, b - 1, i) && Run(s, alg, rnd, from).procs[i].operating
    ensures d == Earned(s.procs[i].M, b)
    ensures Stays(s, alg, rnd, from, from + b, i, Running)
    ensures Stays(s, alg, rnd, from + b, from + b + d, i, Blocked)
    ensures var q := Run(s, alg, rnd, from + b + d - 1).blocked; ahead < |q| && q[ahead] == i
    ensures var start := from + b;
            forall upto: nat :: start < upto && Stays(s, alg, rnd, start, upto, i, Blocked) ==>
              upto - start <= d + ahead
  {
    hide Run, Fresh, AllNeedTime, InRange, Stays;
    RunKeepsInputs(s, alg, rnd, from);
    assert SameInput(s.procs[i], Run(s, alg, rnd, from).procs[i]);
    BurstEarnsBlockedTime(s, alg, rnd, from, b, i);
    var start := from + b;
    d := Earned(s.procs[i].M, b);
    ReleaseDelay(s, alg, rnd, start, d, start, i);
    ahead := IndexOf(Run(s, alg, rnd, start + d - 1).blocked, i);
    forall upto: nat | start < upto && Stays(s, alg, rnd, start, upto, i, Blocked)
      ensures upto - start <= d + ahead
    {
      ReleaseDelay(s, alg, rnd, start, d, upto, i);
    }
  }

  // ---- selection under SJF ----

  /** The scan finds the earliest queued process with the least remaining time. */
  lemma {:induction false} ShortestIsEarliestMinimum(procs: seq<Proc>, ready: seq<nat>)
    requires ready != [] && Below(ready, |procs|)
    ensures var k := Shortest(procs, ready);
            && (forall j :: 0 <= j < |ready| ==> Remaining(procs[ready[k]]) <= Remaining(procs[ready[j]]))
            && (forall j :: 0 <= j < k ==> Remaining(procs[ready[k]]) < Remaining(procs[ready[j]]))
    decreases |ready|
  {
    if |ready| > 1 {
      var q := ready[..|ready| - 1];
      ShortestIsEarliestMinimum(procs, q);
      forall j | 0 <= j < |q| ensures ready[j] == q[j] { }
    }
  }

  /** Under SJF an idle processor takes the process with the least remaining
      time, the earliest on a tie, and the queue keeps the others in order. */
  lemma SJFDispatch(s: State, rnd: nat -> nat, k: nat)
    requires InRange(s) && Distinct(s.ready) && s.selection == None && k < |s.ready|
    requires forall j :: 0 <= j < |s.ready| ==> Remaining(s.procs[s.ready[k]]) <= Remaining(s.procs[s.ready[j]])
    requires forall j :: 0 <= j < k ==> Remaining(s.procs[s.ready[k]]) < Remaining(s.procs[s.ready[j]])
    ensures var s' := Dispatch(s, SJF, rnd);
            && s'.selection == Some(s.ready[k])
            && s'.ready == s.ready[..k] + s.ready[k + 1..]
            && var p := s.procs[s.ready[k]];
               s'.procs[s.ready[k]].CPUBurst == Min(1 + rnd(s.line) % p.B, Remaining(p))
  {
    ShortestIsEarliestMinimum(s.procs, s.ready);
  }
}
