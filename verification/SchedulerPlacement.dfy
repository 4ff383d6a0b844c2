/** Where every process is: the placement invariant, kept by each phase of a cycle. */
module SchedulerPlacement {
  import opened Collections
  import opened SchedulerModel

  /** The lists hold each name once and agree with the conditions. A process is
      unstarted exactly while its arrival time is at least `arrived`, and every
      completion was recorded before `late`. */
  ghost predicate Placed(s: State, arrived: nat, late: nat) {
    && InRange(s)
    && Distinct(s.ready)
    && Distinct(s.blocked)
    && (forall i :: 0 <= i < |s.procs| ==> PlacedProc(s, i, arrived))
    && s.totalPrime == SumBy(s.procs, Started)
    && Recorded(s.procs, s.finished, late)
  }

  ghost predicate PlacedProc(s: State, i: nat, arrived: nat)
    requires i < |s.procs|
  {
    var p := s.procs[i];
    && p.processID == i
    && (p.condition == Unstarted <==> arrived <= p.A)
    && (i in s.ready ==> p.condition == Ready)
    && (i in s.blocked <==> p.condition == Blocked)
    && (s.selection == Some(i) <==> p.condition == Running)
  }

  /** The placement invariant as it bears on one process. */
  lemma PlacedAt(s: State, i: nat, arrived: nat, late: nat)
    requires Placed(s, arrived, late) && i < |s.procs|
    ensures PlacedProc(s, i, arrived)
  {
  }

  function Started(p: Proc): int {
    if p.condition == Unstarted then 0 else 1
  }

  /** The completion record lists the terminated processes, once each, as they
      are now, by strictly increasing finishing time. */
  ghost predicate Recorded(procs: seq<Proc>, finished: seq<Proc>, late: nat) {
    && (forall q :: q in finished ==>
          && q.processID < |procs| && procs[q.processID] == q && q.condition == Terminated
          && 0 <= q.finishingTime < late)
    && (forall i :: 0 <= i < |procs| && procs[i].condition == Terminated ==> procs[i] in finished)
    && (forall j, k :: 0 <= j < k < |finished| ==> finished[j].finishingTime < finished[k].finishingTime)
  }

  /** Process i moves between the ready queue, the processor and the blocked
      list while every other process stays where it is. */
  lemma MovePlaced(s: State, s': State, i: nat, arrived: nat, late: nat)
    requires Placed(s, arrived, late) && InRange(s')
    requires i < |s.procs| && |s'.procs| == |s.procs| && s'.procs == s.procs[i := s'.procs[i]]
    requires s.procs[i].condition !in {Unstarted, Terminated}
    requires s'.procs[i].condition !in {Unstarted, Terminated}
    requires s'.totalPrime == s.totalPrime && s'.finished == s.finished
    requires Distinct(s'.ready) && Distinct(s'.blocked) && PlacedProc(s', i, arrived)
    requires forall j :: j != i ==> (j in s'.ready <==> j in s.ready) && (j in s'.blocked <==> j in s.blocked)
    requires forall j :: j != i ==> (s'.selection == Some(j) <==> s.selection == Some(j))
    ensures Placed(s', arrived, late)
  {
    SumUpdate(s.procs, i, s'.procs[i], Started);
    forall j | 0 <= j < |s'.procs| ensures PlacedProc(s', j, arrived) {
      assert PlacedProc(s, j, arrived);
    }
  }

  lemma ProceedPlaced(s: State, alg: Algorithm)
    requires Placed(s, s.present, s.present)
    ensures Placed(Proceed(s, alg), s.present, s.present + 1)
  {
    var s' := Proceed(s, alg);
    if s.selection.Some? {
      var i := s.selection.value;
      assert PlacedProc(s, i, s.present);
      if s'.finished == s.finished {
        DistinctConcat(s.ready, [i]);
        DistinctConcat(s.blocked, [i]);
        MovePlaced(s, s', i, s.present, s.present + 1);
      } else {
        ProceedFinishes(s, alg);
      }
    }
  }

  lemma ProceedFinishes(s: State, alg: Algorithm)
    requires Placed(s, s.present, s.present) && s.selection.Some?
    requires Proceed(s, alg).finished != s.finished
    ensures Placed(Proceed(s, alg), s.present, s.present + 1)
  {
    var s' := Proceed(s, alg);
    var i := s.selection.value;
    ProceedRecorded(s, alg);
    SumUpdate(s.procs, i, s'.procs[i], Started);
    forall j | 0 <= j < |s'.procs| ensures PlacedProc(s', j, s.present) {
      assert PlacedProc(s, i, s.present);
      assert PlacedProc(s, j, s.present);
    }
  }

  lemma ProceedRecorded(s: State, alg: Algorithm)
    requires Placed(s, s.present, s.present) && s.selection.Some?
    requires Proceed(s, alg).finished != s.finished
    ensures Recorded(Proceed(s, alg).procs, Proceed(s, alg).finished, s.present + 1)
  {
    var s' := Proceed(s, alg);
    var i := s.selection.value;
    assert PlacedProc(s, i, s.present);
    assert s'.finished[|s.finished|] == s'.procs[i];
    forall j | 0 <= j < |s.procs| && s'.procs[j].condition == Terminated ensures s'.procs[j] in s'.finished {
      if j != i { assert s.procs[j] in s.finished; }
    }
    forall j, k | 0 <= j < k < |s'.finished|
      ensures s'.finished[j].finishingTime < s'.finished[k].finishingTime
    {
      assert s.finished[j] in s.finished;
    }
  }

  lemma ReleasePlaced(s: State, arrived: nat, late: nat)
    requires Placed(s, arrived, late)
    ensures Placed(Release(s), arrived, late)
  {
    var k := FirstExpired(s.procs, s.blocked);
    if k < |s.blocked| {
      var i := s.blocked[k];
      assert PlacedProc(s, i, arrived);
      RemoveAtMembers(s.blocked, k);
      DistinctConcat(s.ready, [i]);
      MovePlaced(s, Release(s), i, arrived, late);
    }
  }

  // ---- arrivals ----

  lemma ArriveUpToStep(s: State, n: nat)
    requires n < |s.procs|
    ensures ArriveUpTo(s, n).procs[n] == s.procs[n]
    ensures var a, b := ArriveUpTo(s, n), ArriveUpTo(s, n + 1);
            if s.procs[n].A != s.present then b == a
            else b == a.(procs := a.procs[n := s.procs[n].(condition := Ready)],
                         ready := a.ready + [n], totalPrime := a.totalPrime + 1)
  {
    var a, b := ArriveUpTo(s, n), ArriveUpTo(s, n + 1);
    if s.procs[n].A != s.present {
      assert b.procs == a.procs;
    } else {
      assert b.procs == a.procs[n := s.procs[n].(condition := Ready)];
      assert b.ready == a.ready + [n];
    }
  }

  lemma {:induction false} ArriveUpToCounts(s: State, n: nat)
    requires n <= |s.procs|
    requires forall i :: 0 <= i < |s.procs| && s.procs[i].A == s.present ==> s.procs[i].condition == Unstarted
    ensures SumBy(ArriveUpTo(s, n).procs, Started)
         == SumBy(s.procs, Started) + |Arrivals(s.procs, s.present, n)|
  {
    if n == 0 {
      assert ArriveUpTo(s, 0).procs == s.procs;
    } else {
      hide ArriveUpTo;
      var a := ArriveUpTo(s, n - 1).procs;
      ArriveUpToStep(s, n - 1);
      ArriveUpToCounts(s, n - 1);
      SumUpdate(a, n - 1, s.procs[n - 1].(condition := Ready), Started);
    }
  }

  /** Once as many processes were created as there are, none is still to come. */
  lemma {:induction false} AllStarted(procs: seq<Proc>)
    ensures SumBy(procs, Started) <= |procs|
    ensures SumBy(procs, Started) == |procs| ==> forall i :: 0 <= i < |procs| ==> procs[i].condition != Unstarted
  {
    if procs != [] {
      var r := procs[..|procs| - 1];
      AllStarted(r);
      if SumBy(procs, Started) == |procs| {
        forall i | 0 <= i < |procs| ensures procs[i].condition != Unstarted {
          if i < |r| { assert r[i] == procs[i]; }
        }
      }
    }
  }

  /** Skipping `creation` once all were created changes nothing. */
  lemma ArriveIsUnguarded(s: State, late: nat)
    requires Placed(s, s.present, late)
    ensures Arrive(s) == ArriveUpTo(s, |s.procs|)
  {
    if s.totalPrime == |s.procs| {
      AllStarted(s.procs);
      forall i | 0 <= i < |s.procs| ensures s.procs[i].A != s.present {
        assert PlacedProc(s, i, s.present);
      }
      ArrivalsBelow(s.procs, s.present, |s.procs|);
      var q := Arrivals(s.procs, s.present, |s.procs|);
      if q != [] { HasMember(q); }
      assert ArriveUpTo(s, |s.procs|).procs == s.procs;
    }
  }

  lemma ArrivePlaced(s: State, late: nat)
    requires Placed(s, s.present, late)
    ensures Placed(Arrive(s), s.present + 1, late)
  {
    ArriveIsUnguarded(s, late);
    var s' := Arrive(s);
    var q := Arrivals(s.procs, s.present, |s.procs|);
    ArrivalsBelow(s.procs, s.present, |s.procs|);
    forall i | 0 <= i < |s.procs|
      ensures PlacedProc(s', i, s.present + 1)
      ensures s.procs[i].A == s.present ==> s.procs[i].condition == Unstarted && i !in s.ready
    {
      assert PlacedProc(s, i, s.present);
    }
    ArriveUpToCounts(s, |s.procs|);
    DistinctConcat(s.ready, q);
    assert Recorded(s'.procs, s'.finished, late) by {
      forall c | c in s'.finished ensures s'.procs[c.processID] == c {
        assert PlacedProc(s, c.processID, s.present);
      }
    }
  }

  // ---- dispatch and countdown ----

  lemma DispatchPlaced(s: State, alg: Algorithm, rnd: nat -> nat, arrived: nat, late: nat)
    requires Placed(s, arrived, late)
    ensures Placed(Dispatch(s, alg, rnd), arrived, late)
  {
    if s.ready != [] && s.selection.None? {
      var k := Pick(s, alg);
      var i := s.ready[k];
      assert PlacedProc(s, i, arrived);
      RemoveAtMembers(s.ready, k);
      MovePlaced(s, Dispatch(s, alg, rnd), i, arrived, late);
    }
  }

  lemma TickPlaced(s: State, alg: Algorithm, arrived: nat, late: nat)
    requires Placed(s, arrived, late)
    ensures Placed(Tick(s, alg), arrived, late)
  {
    var s' := Tick(s, alg);
    forall j | 0 <= j < |s'.procs| ensures PlacedProc(s', j, arrived) {
      assert PlacedProc(s, j, arrived);
    }
    StartedTick(s, alg);
    assert Recorded(s'.procs, s'.finished, late);
  }

  lemma StartedTick(s: State, alg: Algorithm)
    ensures SumBy(Tick(s, alg).procs, Started) == SumBy(s.procs, Started)
  {
    var s' := Tick(s, alg);
    SumCompare(s.procs, s'.procs, Started, Started);
    SumCompare(s'.procs, s.procs, Started, Started);
  }

  // ---- whole cycles and runs ----

  lemma SettledPlaced(s: State, alg: Algorithm, rnd: nat -> nat)
    requires InRange(s) && Placed(s, s.present, s.present)
    ensures Placed(Settled(s, alg, rnd), s.present + 1, s.present + 1)
  {
    hide Placed, InRange, Proceed, Release, Arrive, Dispatch;
    var p := Proceed(s, alg);
    ProceedPlaced(s, alg);
    ReleasePlaced(p, s.present, s.present + 1);
    ArrivePlaced(Release(p), s.present + 1);
    DispatchPlaced(Arrive(Release(p)), alg, rnd, s.present + 1, s.present + 1);
  }

  lemma CyclePlaced(s: State, alg: Algorithm, rnd: nat -> nat)
    requires InRange(s) && Placed(s, s.present, s.present)
    ensures var s' := Cycle(s, alg, rnd); Placed(s', s'.present, s'.present)
  {
    hide Placed, InRange, Settled, Tick;
    SettledPlaced(s, alg, rnd);
    var d := Settled(s, alg, rnd);
    TickPlaced(d, alg, s.present + 1, s.present + 1);
    PlacedIgnoresClock(Tick(d, alg), s.present + 1, s.present + 1);
  }

  lemma PlacedIgnoresClock(s: State, arrived: nat, late: nat)
    requires Placed(s, arrived, late)
    ensures Placed(s.(present := s.present + 1), arrived, late)
  {
    var s' := s.(present := s.present + 1);
    forall j | 0 <= j < |s'.procs| ensures PlacedProc(s', j, arrived) {
      assert PlacedProc(s, j, arrived);
    }
  }

  lemma FreshPlaced(s: State)
    requires Fresh(s)
    ensures Placed(s, 0, 0)
  {
    NoneStarted(s.procs);
    forall i | 0 <= i < |s.procs| ensures PlacedProc(s, i, 0) {
      assert FreshProc(s.procs[i], i);
    }
  }

  lemma {:induction false} NoneStarted(procs: seq<Proc>)
    requires forall i :: 0 <= i < |procs| ==> procs[i].condition == Unstarted
    ensures SumBy(procs, Started) == 0
  {
    if procs != [] { NoneStarted(procs[..|procs| - 1]); }
  }

  /** The placement invariant holds at every cycle boundary of every run,
      whatever the bursts drawn and the processor times asked for. */
  lemma {:induction false} RunPlaced(s: State, alg: Algorithm, rnd: nat -> nat, k: nat)
    requires Fresh(s)
    ensures var s' := Run(s, alg, rnd, k); s'.present == k && Placed(s', k, k)
  {
    hide Placed, Cycle;
    if k == 0 {
      FreshPlaced(s);
    } else {
      RunPlaced(s, alg, rnd, k - 1);
      CyclePlaced(Run(s, alg, rnd, k - 1), alg, rnd);
    }
  }

  // ---- completion records ----

  ghost function IDs(finished: seq<Proc>): (q: seq<nat>)
    ensures |q| == |finished| && forall j :: 0 <= j < |q| ==> q[j] == finished[j].processID
  {
    seq(|finished|, j requires 0 <= j < |finished| => finished[j].processID)
  }

  /** All are finished exactly when all are terminated; then the record is a
      permutation of the input, each process as it is now. */
  lemma FinishedIsPermutation(s: State, arrived: nat, late: nat)
    requires Placed(s, arrived, late)
    ensures Distinct(IDs(s.finished)) && |s.finished| <= |s.procs|
    ensures Done(s) <==> forall i :: 0 <= i < |s.procs| ==> s.procs[i].condition == Terminated
    ensures Done(s) ==> forall i :: 0 <= i < |s.procs| ==> i in IDs(s.finished) && s.procs[i] in s.finished
  {
    var q := IDs(s.finished);
    forall j, k | 0 <= j < k < |q| ensures q[j] != q[k] {
      assert s.finished[j] in s.finished && s.finished[k] in s.finished;
    }
    forall j | 0 <= j < |q| ensures q[j] < |s.procs| { assert s.finished[j] in s.finished; }
    DistinctSize(q, |s.procs|);
    if Done(s) {
      forall i | 0 <= i < |s.procs| ensures s.procs[i].condition == Terminated && s.procs[i] in s.finished {
        assert i in q;
        var j :| 0 <= j < |q| && q[j] == i;
        assert s.finished[j] in s.finished;
      }
    }
    if forall i :: 0 <= i < |s.procs| ==> s.procs[i].condition == Terminated {
      forall i | 0 <= i < |s.procs| ensures s.procs[i].processID == i && s.procs[i] in s.finished {
        assert PlacedProc(s, i, arrived);
      }
      AllListed(s.procs, s.finished, |s.procs|);
    }
  }

  /** A record that lists the first n processes has at least n entries. */
  lemma AllListed(procs: seq<Proc>, finished: seq<Proc>, n: nat)
    requires n <= |procs|
    requires forall i :: 0 <= i < n ==> procs[i].processID == i && procs[i] in finished
    ensures n <= |finished|
  {
    if n > 0 {
      var j :| 0 <= j < |finished| && finished[j] == procs[n - 1];
      var r := RemoveAt(finished, j);
      forall i | 0 <= i < n - 1 ensures procs[i] in r {
        var k :| 0 <= k < |finished| && finished[k] == procs[i];
        assert k != j;
        assert r[if k < j then k else k - 1] == procs[i];
      }
      AllListed(procs, r, n - 1);
    }
  }
}
