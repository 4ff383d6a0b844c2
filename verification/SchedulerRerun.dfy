/** The second simulation agrees with the first.

    `listoutputs` runs each algorithm twice, with `Extra` in between, and `Extra`
    leaves drawn bursts and old quanta behind. Two states are alike when they
    differ only in fields that are written before they are next read. */
module SchedulerRerun {
  import opened Collections
  import opened SchedulerModel
  import opened SchedulerPlacement

  /** The process with its dead fields cleared. */
  function Live(p: Proc, alg: Algorithm): Proc {
    match p.condition
    case Running => p.(BurstTime := if p.operating then 0 else p.BurstTime,
                       quantum := if alg.RR? then p.quantum else 0)
    case Blocked => p.(CPUBurst := 0, quantum := 0, operating := false)
    case _ => p.(CPUBurst := 0, BurstTime := 0, quantum := 0, operating := false)
  }

  ghost predicate AlikeProcs(ps: seq<Proc>, qs: seq<Proc>, alg: Algorithm) {
    |ps| == |qs| && forall i :: 0 <= i < |ps| ==> AlikeProc(ps[i], qs[i], alg)
  }

  ghost predicate AlikeProc(p: Proc, q: Proc, alg: Algorithm) {
    Live(p, alg) == Live(q, alg)
  }

  ghost predicate Alike(s: State, t: State, alg: Algorithm) {
    && AlikeProcs(s.procs, t.procs, alg)
    && AlikeProcs(s.finished, t.finished, alg)
    && s.ready == t.ready && s.blocked == t.blocked && s.selection == t.selection
    && s.present == t.present && s.totalPrime == t.totalPrime
    && s.totalTimeNumber == t.totalTimeNumber && s.line == t.line
  }

  /** Everything a process is read for outside its dead fields. */
  lemma AlikeReads(p: Proc, q: Proc, alg: Algorithm)
    requires AlikeProc(p, q, alg)
    ensures SameInput(p, q) && p.condition == q.condition && p.finishingTime == q.finishingTime
    ensures p.CPUTime == q.CPUTime && p.Btime == q.Btime && p.waiting == q.waiting
    ensures p.condition == Blocked ==> p.BurstTime == q.BurstTime
    ensures p.condition == Running ==> p.CPUBurst == q.CPUBurst && p.operating == q.operating
                                       && (alg.RR? ==> p.quantum == q.quantum)
                                       && (!p.operating ==> p.BurstTime == q.BurstTime)
  {
  }

  lemma AlikeUpdate(ps: seq<Proc>, qs: seq<Proc>, i: nat, p: Proc, q: Proc, alg: Algorithm)
    requires AlikeProcs(ps, qs, alg) && i < |ps| && AlikeProc(p, q, alg)
    ensures AlikeProcs(ps[i := p], qs[i := q], alg)
  {
  }

  lemma ProceedAlike(s: State, t: State, alg: Algorithm, arrived: nat, late: nat)
    requires Placed(s, arrived, late) && InRange(t) && Alike(s, t, alg)
    ensures Alike(Proceed(s, alg), Proceed(t, alg), alg)
  {
    if s.selection.Some? {
      var i := s.selection.value;
      assert PlacedProc(s, i, arrived) && AlikeProc(s.procs[i], t.procs[i], alg);
      AlikeReads(s.procs[i], t.procs[i], alg);
      var s', t' := Proceed(s, alg), Proceed(t, alg);
      assert AlikeProc(s'.procs[i], t'.procs[i], alg);
      hide Placed, AlikeProc;
      AlikeUpdate(s.procs, t.procs, i, s'.procs[i], t'.procs[i], alg);
      AlikeAppend(s.finished, t.finished, s'.procs[i], t'.procs[i], alg);
    }
  }

  lemma AlikeAppend(ps: seq<Proc>, qs: seq<Proc>, p: Proc, q: Proc, alg: Algorithm)
    requires AlikeProcs(ps, qs, alg) && AlikeProc(p, q, alg)
    ensures AlikeProcs(ps + [p], qs + [q], alg)
  {
  }

  lemma {:induction false} FirstExpiredAlike(ps: seq<Proc>, qs: seq<Proc>, blocked: seq<nat>)
    requires |ps| == |qs| && Below(blocked, |ps|)
    requires forall i :: i in blocked ==> ps[i].BurstTime == qs[i].BurstTime
    ensures FirstExpired(ps, blocked) == FirstExpired(qs, blocked)
  {
    if blocked != [] { FirstExpiredAlike(ps, qs, blocked[1..]); }
  }

  lemma ExpiredAlike(s: State, t: State, alg: Algorithm, arrived: nat, late: nat)
    requires Placed(s, arrived, late) && InRange(t) && Alike(s, t, alg)
    ensures FirstExpired(s.procs, s.blocked) == FirstExpired(t.procs, t.blocked)
  {
    forall i | i in s.blocked ensures s.procs[i].BurstTime == t.procs[i].BurstTime {
      assert PlacedProc(s, i, arrived) && AlikeProc(s.procs[i], t.procs[i], alg);
    }
    FirstExpiredAlike(s.procs, t.procs, s.blocked);
  }

  lemma ReleaseAlike(s: State, t: State, alg: Algorithm, arrived: nat, late: nat)
    requires Placed(s, arrived, late) && InRange(t) && Alike(s, t, alg)
    ensures Alike(Release(s), Release(t), alg)
  {
    ExpiredAlike(s, t, alg, arrived, late);
    var k := FirstExpired(s.procs, s.blocked);
    if k < |s.blocked| {
      var i := s.blocked[k];
      var p, q := s.procs[i].(condition := Ready), t.procs[i].(condition := Ready);
      hide FirstExpired;
      assert PlacedProc(s, i, arrived) && AlikeProc(s.procs[i], t.procs[i], alg);
      hide Placed;
      FreedAlike(s.procs[i], t.procs[i], alg);
      hide AlikeProc;
      AlikeUpdate(s.procs, t.procs, i, p, q, alg);
    }
  }

  lemma FreedAlike(p: Proc, q: Proc, alg: Algorithm)
    requires AlikeProc(p, q, alg) && p.condition == Blocked
    ensures AlikeProc(p.(condition := Ready), q.(condition := Ready), alg)
  {
  }

  lemma {:induction false} ArrivalsAlike(ps: seq<Proc>, qs: seq<Proc>, t: nat, n: nat)
    requires |ps| == |qs| && n <= |ps| && forall i :: 0 <= i < |ps| ==> ps[i].A == qs[i].A
    ensures Arrivals(ps, t, n) == Arrivals(qs, t, n)
  {
    if n > 0 { ArrivalsAlike(ps, qs, t, n - 1); }
  }

  lemma ArriveAlike(s: State, t: State, alg: Algorithm)
    requires InRange(s) && InRange(t) && Alike(s, t, alg)
    ensures Alike(Arrive(s), Arrive(t), alg)
  {
    forall i | 0 <= i < |s.procs|
      ensures s.procs[i].A == t.procs[i].A && AlikeProc(Arrive(s).procs[i], Arrive(t).procs[i], alg)
    {
      assert AlikeProc(s.procs[i], t.procs[i], alg);
    }
    ArrivalsAlike(s.procs, t.procs, s.present, |s.procs|);
  }

  lemma {:induction false} ShortestAlike(ps: seq<Proc>, qs: seq<Proc>, ready: seq<nat>)
    requires |ps| == |qs| && ready != [] && Below(ready, |ps|)
    requires forall i :: 0 <= i < |ps| ==> Remaining(ps[i]) == Remaining(qs[i])
    ensures Shortest(ps, ready) == Shortest(qs, ready)
    decreases |ready|
  {
    if |ready| > 1 { ShortestAlike(ps, qs, ready[..|ready| - 1]); }
  }

  lemma PickAlike(s: State, t: State, alg: Algorithm)
    requires InRange(s) && InRange(t) && Alike(s, t, alg) && s.ready != []
    ensures Pick(s, alg) == Pick(t, alg)
  {
    forall i | 0 <= i < |s.procs| ensures Remaining(s.procs[i]) == Remaining(t.procs[i]) {
      assert AlikeProc(s.procs[i], t.procs[i], alg);
    }
    ShortestAlike(s.procs, t.procs, s.ready);
  }

  lemma DispatchAlike(s: State, t: State, alg: Algorithm, rnd: nat -> nat, arrived: nat, late: nat)
    requires Placed(s, arrived, late) && InRange(t) && Alike(s, t, alg)
    ensures Alike(Dispatch(s, alg, rnd), Dispatch(t, alg, rnd), alg)
  {
    if s.ready != [] && s.selection.None? {
      PickAlike(s, t, alg);
      var i := s.ready[Pick(s, alg)];
      assert PlacedProc(s, i, arrived) && AlikeProc(s.procs[i], t.procs[i], alg);
      hide Placed, AlikeProcs;
      var s', t' := Dispatch(s, alg, rnd), Dispatch(t, alg, rnd);
      assert AlikeProc(s'.procs[i], t'.procs[i], alg);
      hide AlikeProc;
      AlikeUpdate(s.procs, t.procs, i, s'.procs[i], t'.procs[i], alg);
    }
  }

  lemma TickAlike(s: State, t: State, alg: Algorithm)
    requires Alike(s, t, alg)
    ensures Alike(Tick(s, alg), Tick(t, alg), alg)
  {
    forall i | 0 <= i < |s.procs|
      ensures s.procs[i].condition == t.procs[i].condition
      ensures AlikeProc(TickProc(s.procs[i], alg), TickProc(t.procs[i], alg), alg)
    {
      assert AlikeProc(s.procs[i], t.procs[i], alg);
      AlikeReads(s.procs[i], t.procs[i], alg);
    }
  }

  lemma CycleAlike(s: State, t: State, alg: Algorithm, rnd: nat -> nat)
    requires InRange(s) && Placed(s, s.present, s.present) && InRange(t) && Alike(s, t, alg)
    ensures Alike(Cycle(s, alg, rnd), Cycle(t, alg, rnd), alg)
  {
    hide Proceed, Release, Arrive, Dispatch, Tick, Placed, InRange, Alike;
    var p := Proceed(s, alg);
    ProceedPlaced(s, alg);
    ReleasePlaced(p, s.present, s.present + 1);
    ArrivePlaced(Release(p), s.present + 1);
    ProceedAlike(s, t, alg, s.present, s.present);
    ReleaseAlike(p, Proceed(t, alg), alg, s.present, s.present + 1);
    ArriveAlike(Release(p), Release(Proceed(t, alg)), alg);
    DispatchAlike(Arrive(Release(p)), Arrive(Release(Proceed(t, alg))), alg, rnd, s.present + 1, s.present + 1);
    TickAlike(Settled(s, alg, rnd), Settled(t, alg, rnd), alg);
    LaterAlike(Tick(Settled(s, alg, rnd), alg), Tick(Settled(t, alg, rnd), alg), alg);
  }

  lemma LaterAlike(s: State, t: State, alg: Algorithm)
    requires Alike(s, t, alg)
    ensures Alike(s.(present := s.present + 1), t.(present := t.present + 1), alg)
  {
  }

  lemma {:induction false} RunAlike(s: State, t: State, alg: Algorithm, rnd: nat -> nat, k: nat)
    requires InRange(s) && Fresh(s) && InRange(t) && Alike(s, t, alg)
    ensures Alike(Run(s, alg, rnd, k), Run(t, alg, rnd, k), alg)
  {
    hide Cycle, InRange, Fresh, Alike, Placed;
    if k > 0 {
      RunAlike(s, t, alg, rnd, k - 1);
      RunPlaced(s, alg, rnd, k - 1);
      CycleAlike(Run(s, alg, rnd, k - 1), Run(t, alg, rnd, k - 1), alg, rnd);
    }
  }

  lemma FreshAlike(s: State, t: State, alg: Algorithm)
    requires Fresh(s) && Fresh(t) && SameInputs(s.procs, t.procs)
    ensures Alike(s, t, alg)
  {
    forall i | 0 <= i < |s.procs| ensures AlikeProc(s.procs[i], t.procs[i], alg) {
      assert FreshProc(s.procs[i], i) && FreshProc(t.procs[i], i) && SameInput(s.procs[i], t.procs[i]);
    }
  }

  lemma ResetIsFresh(p: Proc, r: nat)
    requires p.B >= 1
    ensures FreshProc(ResetProc(p, r), p.processID) && SameInput(p, ResetProc(p, r))
  {
  }

  /** The reset turns whatever a simulation leaves into a fresh simulation of the same input. */
  lemma ExtraIsFresh(s: State, rnd: nat -> nat, arrived: nat, late: nat)
    requires Placed(s, arrived, late)
    ensures Fresh(Extra(s, rnd)) && InRange(Extra(s, rnd)) && SameInputs(s.procs, Extra(s, rnd).procs)
  {
    forall i | 0 <= i < |s.procs| ensures FreshProc(Extra(s, rnd).procs[i], i) {
      assert PlacedProc(s, i, arrived);
      ResetIsFresh(s.procs[i], rnd(i));
    }
  }

  /** The reset draws process i a burst with random number i, and fixes a blocked
      time for it, as reading the input does. Neither is read again. */
  lemma ExtraRedraws(s: State, rnd: nat -> nat, i: nat)
    requires InRange(s) && i < |s.procs|
    ensures var p := Extra(s, rnd).procs[i];
            && 1 <= p.CPUBurst <= p.B && (p.CPUBurst - 1) % p.B == rnd(i) % p.B
            && p.BurstTime == p.M * p.CPUBurst && p.quantum == s.procs[i].quantum
  {
    SmallMod(rnd(i) % s.procs[i].B, s.procs[i].B);
  }

  lemma SmallMod(x: nat, b: nat)
    requires x < b
    ensures x % b == x
  {
  }

  /** The figures printed for a process agree, and the completion orders agree. */
  ghost predicate SameOutcome(s: State, t: State) {
    && |s.procs| == |t.procs| && s.present == t.present && s.totalTimeNumber == t.totalTimeNumber
    && (forall i :: 0 <= i < |s.procs| ==> SameFigures(s.procs[i], t.procs[i]))
    && |s.finished| == |t.finished|
    && (forall j :: 0 <= j < |s.finished| ==> SameFigures(s.finished[j], t.finished[j]))
  }

  ghost predicate SameFigures(p: Proc, q: Proc) {
    && SameInput(p, q) && p.condition == q.condition && p.finishingTime == q.finishingTime
    && p.CPUTime == q.CPUTime && p.Btime == q.Btime && p.waiting == q.waiting
  }

  lemma AlikeOutcome(s: State, t: State, alg: Algorithm)
    requires Alike(s, t, alg)
    ensures SameOutcome(s, t)
  {
    forall i | 0 <= i < |s.procs| ensures SameFigures(s.procs[i], t.procs[i]) {
      assert AlikeProc(s.procs[i], t.procs[i], alg);
      AlikeReads(s.procs[i], t.procs[i], alg);
    }
    forall j | 0 <= j < |s.finished| ensures SameFigures(s.finished[j], t.finished[j]) {
      assert AlikeProc(s.finished[j], t.finished[j], alg);
      AlikeReads(s.finished[j], t.finished[j], alg);
    }
  }

  /** Rerun agreement: after m cycles of any simulation of an input, reset and
      run again on the same random stream, every later cycle shows what the
      first simulation showed, whichever bursts the reset drew and whichever
      algorithm ran before. */
  lemma RerunAgrees(s: State, before: Algorithm, drawn: nat -> nat, m: nat, reset: nat -> nat,
                    alg: Algorithm, rnd: nat -> nat, k: nat)
    requires InRange(s) && Fresh(s)
    ensures InRange(Extra(Run(s, before, drawn, m), reset))
    ensures SameOutcome(Run(s, alg, rnd, k), Run(Extra(Run(s, before, drawn, m), reset), alg, rnd, k))
  {
    hide Run, Fresh, InRange, Placed, Extra, Alike, SameOutcome;
    var t := Extra(Run(s, before, drawn, m), reset);
    RunPlaced(s, before, drawn, m);
    RunKeepsInputs(s, before, drawn, m);
    ExtraIsFresh(Run(s, before, drawn, m), reset, m, m);
    SameInputsChain(s.procs, Run(s, before, drawn, m).procs, t.procs);
    FreshAlike(s, t, alg);
    RunAlike(s, t, alg, rnd, k);
    AlikeOutcome(Run(s, alg, rnd, k), Run(t, alg, rnd, k), alg);
  }

  lemma SameInputsChain(ps: seq<Proc>, qs: seq<Proc>, rs: seq<Proc>)
    requires SameInputs(ps, qs) && SameInputs(qs, rs)
    ensures SameInputs(ps, rs)
  {
    forall i | 0 <= i < |ps| ensures SameInput(ps[i], rs[i]) {
      assert SameInput(ps[i], qs[i]) && SameInput(qs[i], rs[i]);
    }
  }
}
