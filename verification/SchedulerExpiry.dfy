/** The expiry test reads an unsigned 32-bit word as signed. It sees the true
    remaining blocked time exactly for inputs whose longest blocked time is
    below 2^31 cycles. */
module SchedulerExpiry {
  import opened Collections
  import opened SchedulerModel
  import opened SchedulerPlacement
  import opened SchedulerTiming
  import opened SchedulerProgress
  import opened SchedulerWaiting

  /** A 32-bit word, and its reading as a signed number. */
  function Word(x: int): nat {
    x % 0x1_0000_0000
  }

  function Signed(w: nat): int {
    if w < 0x8000_0000 then w else w - 0x1_0000_0000
  }

  /** The loop of `execxuteB` tests process i in the cycle that starts in s: it
      comes to the first expired process of the list, and no further. */
  ghost predicate Tested(s: State, alg: Algorithm, i: nat)
    requires InRange(s)
  {
    var p := Proceed(s, alg);
    exists j :: 0 <= j < |p.blocked| && j <= FirstExpired(p.procs, p.blocked) && p.blocked[j] == i
  }

  /** If it does, it sees the true remaining time of i. */
  ghost predicate TestIsExact(s: State, alg: Algorithm, i: nat)
    requires InRange(s) && i < |s.procs|
  {
    var x := Proceed(s, alg).procs[i].BurstTime;
    Tested(s, alg, i) ==> Signed(Word(x)) == x
  }

  lemma ExactBetween(x: int)
    ensures Signed(Word(x)) == x <==> -0x8000_0000 <= x < 0x8000_0000
  {
  }

  /** The longest burst after which the process blocks: it does not finish with
      it, and RR does not cut it short. */
  function LongestBurst(p: Proc, alg: Algorithm): int {
    Min(p.B, Min(p.C - 1, if alg.RR? then 2 else p.C - 1))
  }

  /** The blocked time that burst earns. */
  function LongestBlock(p: Proc, alg: Algorithm): int {
    1 + p.M * (LongestBurst(p, alg) - 1)
  }

  // ---- no blocked time is longer ----

  /** What the blocked time, once fixed, can be: the burst it was fixed for is
      no longer than the cycles run so far and those still to run. `slack` is 0
      at a cycle boundary and 1 just before the countdown. */
  ghost predicate Earns(p: Proc, alg: Algorithm, slack: int) {
    && (p.condition == Running ==> p.CPUTime >= 1 - slack)
    && (p.condition == Running && !p.operating ==> Fixed(p, alg))
    && (p.condition == Blocked ==> p.BurstTime <= LongestBlock(p, alg) - 1 + slack)
  }

  ghost predicate Fixed(p: Proc, alg: Algorithm) {
    && p.BurstTime <= 1 + p.M * (p.CPUTime + p.CPUBurst - 1)
    && (alg.RR? ==> p.BurstTime <= 1 + p.M * (p.CPUBurst + 1 - p.quantum))
  }

  ghost predicate AllEarn(s: State, alg: Algorithm, slack: int) {
    forall i :: 0 <= i < |s.procs| ==> Earns(s.procs[i], alg, slack)
  }

  lemma Scaled(m: nat, x: int, y: int)
    requires x <= y
    ensures m * x <= m * y
  {
  }

  lemma SettleFixed(p: Proc, alg: Algorithm, t: nat)
    requires Clocked(p, t, alg, 0) && Earns(p, alg, 0) && p.condition == Running
    ensures Fixed(Settle(p), alg)
  {
    if p.operating {
      Scaled(p.M, p.CPUBurst, p.CPUTime + p.CPUBurst - 1);
      if alg.RR? { Scaled(p.M, p.CPUBurst, p.CPUBurst + 1 - p.quantum); }
    }
  }

  /** The process blocks: its burst has run out. */
  lemma BlockedEarns(p: Proc, alg: Algorithm)
    requires RunningOk(p, alg, 0) && Fixed(p, alg) && !p.operating
    requires p.CPUBurst == 0 && p.CPUTime < p.C
    ensures p.BurstTime <= LongestBlock(p, alg)
  {
    Scaled(p.M, p.CPUTime - 1, p.C - 2);
    if alg.RR? { Scaled(p.M, 1 - p.quantum, 1); }
  }

  lemma SameLongest(p: Proc, q: Proc, alg: Algorithm)
    requires SameInput(p, q)
    ensures LongestBlock(p, alg) == LongestBlock(q, alg)
  {
  }

  lemma ProceedEarns(s: State, alg: Algorithm)
    requires InRange(s) && Boundary(s, alg) && AllEarn(s, alg, 0)
    ensures AllEarn(Proceed(s, alg), alg, 1)
  {
    var s' := Proceed(s, alg);
    forall i | 0 <= i < |s.procs| ensures Earns(s'.procs[i], alg, 1) {
      assert PlacedProc(s, i, s.present) && Clocked(s.procs[i], s.present, alg, 0) && Earns(s.procs[i], alg, 0);
      if s.selection == Some(i) {
        var p := Settle(s.procs[i]);
        SettledBurst(s.procs[i], s.present, alg);
        SettleFixed(s.procs[i], alg, s.present);
        hide LongestBlock;
        SameLongest(p, s'.procs[i], alg);
        if p.CPUBurst <= 0 && p.CPUTime < p.C { BlockedEarns(p, alg); }
      } else {
        assert s'.procs[i] == s.procs[i];
      }
    }
  }

  lemma JoinEarns(s: State, alg: Algorithm)
    requires InRange(s) && AllEarn(s, alg, 1)
    ensures AllEarn(Release(s), alg, 1)
    ensures AllEarn(Arrive(s), alg, 1)
  {
    hide LongestBlock, Fixed, FirstExpired, Arrivals;
    forall i | 0 <= i < |s.procs| ensures Earns(Release(s).procs[i], alg, 1) && Earns(Arrive(s).procs[i], alg, 1) {
      assert Earns(s.procs[i], alg, 1);
    }
  }

  lemma DispatchEarns(s: State, alg: Algorithm, rnd: nat -> nat, arrived: nat, late: nat)
    requires Placed(s, arrived, late) && AllEarn(s, alg, 1)
    ensures AllEarn(Dispatch(s, alg, rnd), alg, 1)
  {
    hide LongestBlock, Fixed, Pick, Burst, RemoveAt;
    forall i | 0 <= i < |s.procs| ensures Earns(Dispatch(s, alg, rnd).procs[i], alg, 1) {
      assert Earns(s.procs[i], alg, 1) && PlacedProc(s, i, arrived);
      SameLongest(s.procs[i], Dispatch(s, alg, rnd).procs[i], alg);
    }
  }

  lemma TickEarns(s: State, alg: Algorithm)
    requires AllEarn(s, alg, 1)
    ensures AllEarn(Tick(s, alg).(present := s.present + 1), alg, 0)
  {
    forall i | 0 <= i < |s.procs| ensures Earns(TickProc(s.procs[i], alg), alg, 0) {
      var p, q := s.procs[i], TickProc(s.procs[i], alg);
      assert Earns(p, alg, 1);
      SameLongest(p, q, alg);
      assert p.condition == Running ==> q.CPUTime + q.CPUBurst == p.CPUTime + p.CPUBurst;
      assert p.condition == Running && alg.RR? ==> q.CPUBurst + 1 - q.quantum == p.CPUBurst + 1 - p.quantum;
    }
  }

  lemma CycleEarns(s: State, alg: Algorithm, rnd: nat -> nat)
    requires InRange(s) && Boundary(s, alg) && AllEarn(s, alg, 0)
    ensures AllEarn(Cycle(s, alg, rnd), alg, 0)
  {
    hide Proceed, Release, Arrive, Dispatch, Tick, InRange, Boundary, AllEarn, Placed;
    var p := Proceed(s, alg);
    BoundaryPlaced(s, alg);
    ProceedPlaced(s, alg);
    ReleasePlaced(p, s.present, s.present + 1);
    ArrivePlaced(Release(p), s.present + 1);
    ProceedEarns(s, alg);
    JoinEarns(p, alg);
    JoinEarns(Release(p), alg);
    DispatchEarns(Arrive(Release(p)), alg, rnd, s.present + 1, s.present + 1);
    TickEarns(Settled(s, alg, rnd), alg);
  }

  lemma {:induction false} RunEarns(s: State, alg: Algorithm, rnd: nat -> nat, k: nat)
    requires InRange(s) && Fresh(s) && AllNeedTime(s.procs)
    ensures AllEarn(Run(s, alg, rnd, k), alg, 0)
  {
    hide Cycle, InRange, Boundary, AllNeedTime;
    if k == 0 {
      forall i | 0 <= i < |s.procs| ensures Earns(s.procs[i], alg, 0) {
        assert FreshProc(s.procs[i], i);
      }
    } else {
      hide Fresh, AllEarn;
      RunEarns(s, alg, rnd, k - 1);
      RunBoundary(s, alg, rnd, k - 1);
      CycleEarns(Run(s, alg, rnd, k - 1), alg, rnd);
    }
  }

  /** A blocked process is overdue by less than n cycles, also when it is tested. */
  lemma TestedTime(s: State, alg: Algorithm, i: nat)
    requires InRange(s) && Boundary(s, alg) && AllEarn(s, alg, 0) && i < |s.procs|
    ensures var p := Proceed(s, alg).procs[i];
            i in Proceed(s, alg).blocked ==> -|s.procs| < p.BurstTime <= LongestBlock(s.procs[i], alg)
  {
    var x := Proceed(s, alg);
    ProceedEarns(s, alg);
    ProceedKeepsInputs(s, alg);
    ProceedPlaced(s, alg);
    ProceedOverdue(s, alg);
    hide Proceed, Boundary, LongestBlock;
    assert Earns(x.procs[i], alg, 1) && SameInput(s.procs[i], x.procs[i]) && PlacedProc(x, i, s.present);
    SameLongest(s.procs[i], x.procs[i], alg);
    if i in x.blocked {
      var j :| 0 <= j < |x.blocked| && x.blocked[j] == i;
    }
  }

  // ---- runs in which every burst is one cycle long ----

  /** At most one process is blocked, and it has expired. */
  ghost predicate UnitBlocked(s: State)
    requires InRange(s)
  {
    |s.blocked| <= 1 && forall j :: 0 <= j < |s.blocked| ==> s.procs[s.blocked[j]].BurstTime <= 0
  }

  /** The running process has just run its burst of one cycle. */
  ghost predicate UnitRunning(s: State)
    requires InRange(s)
  {
    s.selection.Some? ==> s.procs[s.selection.value].operating && s.procs[s.selection.value].CPUBurst == 0
  }

  lemma ProceedUnit(s: State, alg: Algorithm)
    requires InRange(s) && Boundary(s, alg) && UnitBlocked(s) && UnitRunning(s)
    ensures var p := Proceed(s, alg);
            && p.selection == None && |p.blocked| <= 2
            && (forall j :: 0 <= j < |p.blocked| ==> p.procs[p.blocked[j]].BurstTime <= 1)
            && (|p.blocked| == 2 ==> p.procs[p.blocked[0]].BurstTime <= 0)
  {
    if s.selection.Some? { BoundaryAt(s, alg, s.selection.value); }
    if s.blocked != [] { BoundaryAt(s, alg, s.blocked[0]); }
    hide Boundary;
  }

  /** The one that was blocked before leaves the list. */
  lemma ReleaseUnit(p: State)
    requires InRange(p) && |p.blocked| <= 2 && Distinct(p.blocked)
    requires forall j :: 0 <= j < |p.blocked| ==> p.procs[p.blocked[j]].BurstTime <= 1
    requires |p.blocked| == 2 ==> p.procs[p.blocked[0]].BurstTime <= 0
    ensures var r := Release(p);
            |r.blocked| <= 1 && forall j :: 0 <= j < |r.blocked| ==> r.procs[r.blocked[j]].BurstTime <= 1
  {
  }

  lemma CycleUnitBlocked(s: State, alg: Algorithm, rnd: nat -> nat)
    requires InRange(s) && Boundary(s, alg) && UnitBlocked(s) && UnitRunning(s)
    ensures UnitBlocked(Cycle(s, alg, rnd))
  {
    hide Proceed, Release, Arrive, Dispatch, Cycle, Placed, Boundary, InRange, UnitRunning;
    var p := Proceed(s, alg);
    var r := Release(p);
    BoundaryPlaced(s, alg);
    ProceedPlaced(s, alg);
    ReleasePlaced(p, s.present, s.present + 1);
    ProceedUnit(s, alg);
    PlacedLists(p, s.present, s.present + 1);
    ReleaseUnit(p);
    CycleShape(s, alg, rnd);
    var s' := Cycle(s, alg, rnd);
    BlockedAfter(r, alg, rnd, s.present + 1, if r.blocked == [] then 0 else r.blocked[0]);
    assert s'.blocked == r.blocked;
  }

  lemma PlacedLists(s: State, arrived: nat, late: nat)
    requires Placed(s, arrived, late)
    ensures Distinct(s.ready) && Distinct(s.blocked)
  {
  }

  /** With a draw of one cycle at the next dispatch, if there is one. */
  lemma CycleUnitRunning(s: State, alg: Algorithm, rnd: nat -> nat)
    requires InRange(s) && Boundary(s, alg) && UnitBlocked(s) && UnitRunning(s) && rnd(s.line) == 0
    ensures UnitRunning(Cycle(s, alg, rnd))
  {
    hide Proceed, Release, Arrive, Dispatch, Cycle, Boundary, InRange, UnitBlocked,
         AllClocked, Overdue, NoneLost, Placed;
    var r := Release(Proceed(s, alg));
    ProceedUnit(s, alg);
    FrontClocked(s, alg);
    ArrivePlaced(r, s.present + 1);
    ArriveClocked(r, alg, s.present + 1);
    FrontLine(s, alg);
    DispatchUnit(Arrive(r), alg, rnd, s.present + 1, s.present + 1);
    CycleShape(s, alg, rnd);
  }

  /** Only a dispatch reads a random number, and only it fills the processor. */
  lemma FrontLine(s: State, alg: Algorithm)
    requires InRange(s)
    ensures var a := Arrive(Release(Proceed(s, alg)));
            a.line == s.line && a.selection == Proceed(s, alg).selection
  {
    hide FirstExpired, Arrivals, RemoveAt;
  }

  lemma DispatchUnit(a: State, alg: Algorithm, rnd: nat -> nat, arrived: nat, late: nat)
    requires Placed(a, arrived, late) && AllClocked(a, alg, 1) && a.selection == None && rnd(a.line) == 0
    ensures var d := Dispatch(a, alg, rnd);
            d.selection.Some? ==>
              && d.selection.value < |d.procs|
              && var q := d.procs[d.selection.value]; q.condition == Running && q.operating && q.CPUBurst == 1
  {
    if a.ready != [] {
      var i := a.ready[Pick(a, alg)];
      assert i in a.ready && PlacedProc(a, i, arrived) && Clocked(a.procs[i], a.present, alg, 1);
    }
  }

  lemma {:induction false} RunUnits(s: State, alg: Algorithm, rnd: nat -> nat, k: nat)
    requires InRange(s) && Fresh(s) && AllNeedTime(s.procs) && forall n :: rnd(n) == 0
    ensures UnitBlocked(Run(s, alg, rnd, k)) && UnitRunning(Run(s, alg, rnd, k))
  {
    hide Cycle, Boundary, InRange, AllNeedTime;
    if k > 0 {
      hide Fresh, UnitBlocked, UnitRunning;
      RunUnits(s, alg, rnd, k - 1);
      RunBoundary(s, alg, rnd, k - 1);
      CycleUnitBlocked(Run(s, alg, rnd, k - 1), alg, rnd);
      CycleUnitRunning(Run(s, alg, rnd, k - 1), alg, rnd);
    }
  }

  // ---- streams that agree on the numbers read ----

  lemma CycleReads(s: State, alg: Algorithm, rnd: nat -> nat, rnd': nat -> nat)
    requires InRange(s)
    ensures s.line <= Cycle(s, alg, rnd).line
    ensures Cycle(s, alg, rnd).line == s.line || rnd(s.line) == rnd'(s.line) ==>
              Cycle(s, alg, rnd) == Cycle(s, alg, rnd')
  {
    hide Proceed, Release, Arrive, Pick, Burst, RemoveAt, InRange;
    FrontLine(s, alg);
  }

  lemma {:induction false} SameRun(s: State, alg: Algorithm, rnd: nat -> nat, rnd': nat -> nat, k: nat)
    requires InRange(s) && forall n :: 0 <= n < Run(s, alg, rnd, k).line ==> rnd(n) == rnd'(n)
    ensures Run(s, alg, rnd, k) == Run(s, alg, rnd', k)
  {
    hide Cycle, InRange;
    if k > 0 {
      CycleReads(Run(s, alg, rnd, k - 1), alg, rnd, rnd');
      SameRun(s, alg, rnd, rnd', k - 1);
    }
  }

  // ---- and the longest blocked time is reached ----

  /** Process i runs for the first time in the cycle before boundary `from`. */
  lemma {:induction false} FirstRun(s: State, alg: Algorithm, rnd: nat -> nat, k: nat, i: nat) returns (from: nat)
    requires InRange(s) && i < |s.procs| && s.procs[i].CPUTime == 0 && Run(s, alg, rnd, k).procs[i].CPUTime >= 1
    ensures from >= 1
    ensures Run(s, alg, rnd, from).procs[i].CPUTime >= 1 && Run(s, alg, rnd, from - 1).procs[i].CPUTime == 0
  {
    hide Cycle, InRange;
    if k >= 1 && Run(s, alg, rnd, k - 1).procs[i].CPUTime >= 1 {
      from := FirstRun(s, alg, rnd, k - 1, i);
    } else {
      from := k;
    }
  }

  /** The process has not run: p is its entry in the input. */
  ghost predicate NotRun(p: Proc, q: Proc) {
    q.condition != Running && q.CPUTime == 0 && SameInput(p, q)
  }

  lemma ProceedNotRun(s: State, alg: Algorithm, i: nat)
    requires InRange(s) && Boundary(s, alg) && AllEarn(s, alg, 0) && i < |s.procs| && s.procs[i].CPUTime == 0
    ensures NotRun(s.procs[i], Proceed(s, alg).procs[i]) && s.procs[i].C >= 1
  {
    assert Earns(s.procs[i], alg, 0) && PlacedProc(s, i, s.present) && Clocked(s.procs[i], s.present, alg, 0);
  }

  lemma JoinNotRun(s: State, i: nat, p: Proc)
    requires InRange(s) && i < |s.procs| && NotRun(p, s.procs[i])
    ensures NotRun(p, Release(s).procs[i]) && NotRun(p, Arrive(s).procs[i])
  {
    hide FirstExpired, Arrivals;
  }

  /** The first burst of a process. */
  function FirstDraw(p: Proc, r: nat): int
    requires p.B >= 1
  {
    Min(1 + r % p.B, p.C)
  }

  /** Only a dispatch starts a process, and whatever the number drawn. */
  lemma DispatchStarts(a: State, alg: Algorithm, rnd: nat -> nat, rnd': nat -> nat, i: nat, p: Proc)
    requires InRange(a) && i < |a.procs| && NotRun(p, a.procs[i]) && p.C >= 1
    ensures Dispatch(a, alg, rnd).procs[i].CPUTime == 0
    ensures Dispatch(a, alg, rnd).procs[i].condition == Running ==>
              && var q := Dispatch(a, alg, rnd').procs[i];
              && q.condition == Running && q.operating && q.CPUTime == 0 && (alg.RR? ==> q.quantum == 2)
              && p.B >= 1 && q.CPUBurst == FirstDraw(p, rnd'(a.line))
  {
    hide Pick, RemoveAt;
  }

  /** A process that runs for the first time has just been dispatched. */
  lemma FirstCycle(s: State, alg: Algorithm, rnd: nat -> nat, rnd': nat -> nat, i: nat)
    requires InRange(s) && Boundary(s, alg) && AllEarn(s, alg, 0) && i < |s.procs|
    requires s.procs[i].CPUTime == 0 && Cycle(s, alg, rnd).procs[i].CPUTime >= 1
    ensures var p := Cycle(s, alg, rnd').procs[i];
            && p.condition == Running && p.operating && p.CPUTime == 1 && (alg.RR? ==> p.quantum == 1)
            && s.procs[i].B >= 1 && p.CPUBurst == FirstDraw(s.procs[i], rnd'(s.line)) - 1
  {
    hide Boundary, AllEarn, Proceed, Release, Arrive, Dispatch, Cycle, InRange, FirstDraw;
    ProceedNotRun(s, alg, i);
    FrontLine(s, alg);
    var r := Release(Proceed(s, alg));
    JoinNotRun(Proceed(s, alg), i, s.procs[i]);
    JoinNotRun(r, i, s.procs[i]);
    CycleShape(s, alg, rnd);
    CycleShape(s, alg, rnd');
    DispatchStarts(Arrive(r), alg, rnd, rnd', i, s.procs[i]);
  }

  /** Every process runs at some time. */
  lemma RunsAtLast(s: State, alg: Algorithm, rnd: nat -> nat, i: nat) returns (k: nat)
    requires InRange(s) && Fresh(s) && AllNeedTime(s.procs) && i < |s.procs|
    ensures Run(s, alg, rnd, k).procs[i].CPUTime >= 1
  {
    hide Run, Boundary, Fresh, AllNeedTime, InRange, FinishBound, Done;
    BoundIsNonnegative(s.procs);
    k := FinishBound(s.procs) + 1;
    Terminates(s, alg, rnd, k);
    RunBoundary(s, alg, rnd, k);
    var t := Run(s, alg, rnd, k);
    BoundaryPlaced(t, alg);
    FinishedIsPermutation(t, t.present, t.present);
    BoundaryAt(t, alg, i);
  }

  lemma RunInput(s: State, alg: Algorithm, rnd: nat -> nat, k: nat, i: nat)
    requires InRange(s) && i < |s.procs|
    ensures SameInput(s.procs[i], Run(s, alg, rnd, k).procs[i])
  {
    hide Run, InRange;
    RunKeepsInputs(s, alg, rnd, k);
  }

  lemma NotYetRun(s: State, i: nat)
    requires Fresh(s) && i < |s.procs|
    ensures s.procs[i].CPUTime == 0 && s.procs[i].B >= 1
  {
    assert FreshProc(s.procs[i], i);
  }

  /** While a process runs on, nobody joins the blocked list, and the one that
      was there leaves it. */
  lemma RunningClears(s: State, alg: Algorithm, rnd: nat -> nat, i: nat)
    requires InRange(s) && Boundary(s, alg) && i < |s.procs| && s.procs[i].condition == Running
    requires RunLeft(s.procs[i], alg) >= 1 && UnitBlocked(s)
    ensures Cycle(s, alg, rnd).blocked == []
  {
    assert PlacedProc(s, i, s.present);
    ProceedKeeps(s, alg, i);
    assert Proceed(s, alg).blocked == s.blocked;
    if s.blocked != [] { BlockedAround(s, alg, rnd, s.blocked[0]); }
    hide Boundary, Proceed, Arrive, Dispatch, Cycle;
    CycleShape(s, alg, rnd);
  }

  lemma {:induction false} Alone(s: State, alg: Algorithm, rnd: nat -> nat, from: nat, left: nat, i: nat, j: nat)
    requires InRange(s) && Fresh(s) && AllNeedTime(s.procs) && i < |s.procs| && 1 <= j <= left
    requires Bursting(s, alg, rnd, from, left, i) && UnitBlocked(Run(s, alg, rnd, from))
    ensures Run(s, alg, rnd, from + j).blocked == []
  {
    hide Run, Cycle, Boundary, Fresh, AllNeedTime, InRange;
    if j > 1 { Alone(s, alg, rnd, from, left, i, j - 1); }
    RunsOut(s, alg, rnd, from, left, i, j - 1);
    AtBoundary(s, alg, rnd, from + j - 1);
    RunningClears(Run(s, alg, rnd, from + j - 1), alg, rnd, i);
  }

  lemma DrawLongest(p: Proc, alg: Algorithm)
    requires p.B >= 1 && p.C >= 2
    ensures 1 <= LongestBurst(p, alg) < p.C && FirstDraw(p, LongestBurst(p, alg) - 1) == LongestBurst(p, alg)
    ensures alg.RR? ==> LongestBurst(p, alg) <= 2
  {
  }

  lemma SameDraw(p: Proc, q: Proc, r: nat)
    requires p.B == q.B >= 1 && p.C == q.C
    ensures FirstDraw(p, r) == FirstDraw(q, r)
  {
  }

  lemma StartsAt(s: State, alg: Algorithm, rnd: nat -> nat, rnd': nat -> nat, k: nat, i: nat)
    requires InRange(s) && Fresh(s) && AllNeedTime(s.procs) && i < |s.procs| && s.procs[i].B >= 1
    requires Run(s, alg, rnd, k).procs[i].CPUTime == 0 && Run(s, alg, rnd, k + 1).procs[i].CPUTime >= 1
    requires Run(s, alg, rnd', k) == Run(s, alg, rnd, k)
    requires UnitBlocked(Run(s, alg, rnd, k)) && UnitRunning(Run(s, alg, rnd, k))
    ensures var p := Run(s, alg, rnd', k + 1).procs[i];
            && p.condition == Running && p.operating && p.CPUTime == 1 && (alg.RR? ==> p.quantum == 1)
            && SameInput(s.procs[i], p)
            && p.CPUBurst == FirstDraw(s.procs[i], rnd'(Run(s, alg, rnd, k).line)) - 1
    ensures UnitBlocked(Run(s, alg, rnd', k + 1))
  {
    hide Run, Cycle, Boundary, AllEarn, Fresh, AllNeedTime, InRange, FirstDraw, SameInputs, UnitBlocked, UnitRunning;
    var t := Run(s, alg, rnd, k);
    AtBoundary(s, alg, rnd, k);
    RunStep(s, alg, rnd', k);
    RunEarns(s, alg, rnd, k);
    FirstCycle(t, alg, rnd, rnd', i);
    CycleUnitBlocked(t, alg, rnd');
    RunInput(s, alg, rnd, k, i);
    RunInput(s, alg, rnd', k + 1, i);
    SameDraw(t.procs[i], s.procs[i], rnd'(t.line));
  }

  /** One cycle per burst, but the longest at the first dispatch of process i:
      in that run i is dispatched, and nobody else is blocked once it runs on. */
  lemma LongBurst(s: State, alg: Algorithm, i: nat) returns (rnd: nat -> nat, from: nat)
    requires InRange(s) && Fresh(s) && AllNeedTime(s.procs) && i < |s.procs| && s.procs[i].C >= 2
    ensures LongestBurst(s.procs[i], alg) >= 1
    ensures Bursting(s, alg, rnd, from, LongestBurst(s.procs[i], alg) - 1, i)
    ensures Run(s, alg, rnd, from).procs[i].operating && UnitBlocked(Run(s, alg, rnd, from))
  {
    hide Run, Cycle, Boundary, AllEarn, Fresh, AllNeedTime, InRange, FirstDraw, LongestBurst, UnitBlocked, UnitRunning;
    NotYetRun(s, i);
    DrawLongest(s.procs[i], alg);
    var b: nat := LongestBurst(s.procs[i], alg);
    var ones: nat -> nat := _ => 0;
    var k := RunsAtLast(s, alg, ones, i);
    from := FirstRun(s, alg, ones, k, i);
    var t := Run(s, alg, ones, from - 1);
    var line := t.line;
    rnd := n => if n == line then b - 1 else 0;
    RunUnits(s, alg, ones, from - 1);
    SameRun(s, alg, ones, rnd, from - 1);
    StartsAt(s, alg, ones, rnd, from - 1, i);
  }

  /** Every process that can block after more than one cycle is tested, in some
      run, with the longest blocked time left: it is then alone in the list. */
  lemma LongestIsReached(s: State, alg: Algorithm, i: nat) returns (rnd: nat -> nat, k: nat)
    requires InRange(s) && Fresh(s) && AllNeedTime(s.procs) && i < |s.procs| && LongestBurst(s.procs[i], alg) >= 2
    ensures var p := Proceed(Run(s, alg, rnd, k), alg);
            p.blocked == [i] && p.procs[i].BurstTime == LongestBlock(s.procs[i], alg)
    ensures Tested(Run(s, alg, rnd, k), alg, i)
  {
    hide Run, Fresh, AllNeedTime, InRange, Boundary, UnitBlocked;
    var b := LongestBurst(s.procs[i], alg) - 1;
    var from: nat;
    rnd, from := LongBurst(s, alg, i);
    k := from + b;
    RunsOut(s, alg, rnd, from, b, i, b);
    Alone(s, alg, rnd, from, b, i, b);
    RunBoundary(s, alg, rnd, k);
    RunInput(s, alg, rnd, from, i);
    ProceedBlocks(Run(s, alg, rnd, k), alg, i);
    BlocksAlone(Run(s, alg, rnd, k), alg, i);
  }

  lemma BlocksAlone(s: State, alg: Algorithm, i: nat)
    requires InRange(s) && s.blocked == [] && i in Proceed(s, alg).blocked
    ensures Proceed(s, alg).blocked == [i] && Tested(s, alg, i)
  {
    assert Proceed(s, alg).blocked[0] == i;
  }

  // ---- when the test is exact ----

  /** In every run and at every test of process i the cast sees its true
      remaining time, exactly when the longest blocked time that its input
      lets it earn is below 2^31. */
  lemma ExpiryTestIsExact(s: State, alg: Algorithm, i: nat)
    requires InRange(s) && Fresh(s) && AllNeedTime(s.procs) && i < |s.procs| <= 0x8000_0000
    ensures (forall rnd: nat -> nat, k: nat :: TestIsExact(Run(s, alg, rnd, k), alg, i))
            <==> LongestBlock(s.procs[i], alg) < 0x8000_0000
  {
    hide Run, Fresh, AllNeedTime, InRange, Proceed, LongestBurst, Signed, Word;
    if LongestBlock(s.procs[i], alg) < 0x8000_0000 {
      forall rnd: nat -> nat, k: nat ensures TestIsExact(Run(s, alg, rnd, k), alg, i) {
        TestedExactly(s, alg, rnd, k, i);
      }
    } else {
      OneCycleBlocksShortly(s.procs[i], alg);
      var rnd, k := LongestIsReached(s, alg, i);
      ExactBetween(LongestBlock(s.procs[i], alg));
      assert !TestIsExact(Run(s, alg, rnd, k), alg, i);
    }
  }

  lemma OneCycleBlocksShortly(p: Proc, alg: Algorithm)
    ensures LongestBlock(p, alg) > 1 ==> LongestBurst(p, alg) >= 2
  {
    if LongestBurst(p, alg) < 2 { Scaled(p.M, LongestBurst(p, alg) - 1, 0); }
  }

  lemma TestedExactly(s: State, alg: Algorithm, rnd: nat -> nat, k: nat, i: nat)
    requires InRange(s) && Fresh(s) && AllNeedTime(s.procs) && i < |s.procs| <= 0x8000_0000
    requires LongestBlock(s.procs[i], alg) < 0x8000_0000
    ensures TestIsExact(Run(s, alg, rnd, k), alg, i)
  {
    var t := Run(s, alg, rnd, k);
    hide Run, Fresh, AllNeedTime, InRange, Proceed, LongestBlock, Signed, Word, Boundary, AllEarn;
    RunBoundary(s, alg, rnd, k);
    RunEarns(s, alg, rnd, k);
    RunKeepsInputs(s, alg, rnd, k);
    assert SameInput(s.procs[i], t.procs[i]);
    SameLongest(s.procs[i], t.procs[i], alg);
    TestedTime(t, alg, i);
    ExactBetween(Proceed(t, alg).procs[i].BurstTime);
  }

  /** For the longest bursts that can be drawn, 1 + M * (B - 1) < 2^31 is enough. */
  lemma ShortBlocksAreExact(s: State, alg: Algorithm, rnd: nat -> nat, k: nat, i: nat)
    requires InRange(s) && Fresh(s) && AllNeedTime(s.procs) && i < |s.procs| <= 0x8000_0000
    requires 1 + s.procs[i].M * (s.procs[i].B - 1) < 0x8000_0000
    ensures TestIsExact(Run(s, alg, rnd, k), alg, i)
  {
    hide Run, Fresh, AllNeedTime, InRange, TestIsExact;
    Scaled(s.procs[i].M, LongestBurst(s.procs[i], alg) - 1, s.procs[i].B - 1);
    TestedExactly(s, alg, rnd, k, i);
  }

  /** But M * (B - 1) < 2^31 is not: with B = 2, C = 3 and M = 2^31 - 1 a process
      can be taken for expired with all of its 2^31 blocked cycles left. */
  lemma BlockedTimeCanWrap(s: State, i: nat)
    requires InRange(s) && Fresh(s) && AllNeedTime(s.procs) && i < |s.procs| <= 0x8000_0000
    requires s.procs[i].B == 2 && s.procs[i].C == 3 && s.procs[i].M == 0x7fff_ffff
    ensures exists rnd: nat -> nat, k: nat :: !TestIsExact(Run(s, FCFS, rnd, k), FCFS, i)
  {
    hide Run, Fresh, AllNeedTime, InRange, TestIsExact;
    ExpiryTestIsExact(s, FCFS, i);
  }
}
