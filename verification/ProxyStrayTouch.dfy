/** A touch can go astray: an interleaving in which the line that was hit is
    evicted before it is touched, and exactly when there is one. */
module ProxyStrayTouch {
  import opened Collections
  import opened ProxyLock
  import opened ProxyRace
  import opened ProxySizes
  import opened ProxyTouch

  /** The locks are free. */
  ghost predicate Free(s: State) {
    s.mutex == 1 && s.w == 1 && s.readcnt == 0 && |s.cache| == LINES
  }

  /** The threads of the list take n steps each, one thread after the other. */
  function EachAlone(s: State, ts: seq<nat>, f: Option<string>, n: nat): State {
    if ts == [] then s else Alone(EachAlone(s, ts[..|ts| - 1], f, n), ts[|ts| - 1], f, n)
  }

  function EachTurns(ts: seq<nat>, f: Option<string>, n: nat): Schedule {
    if ts == [] then [] else EachTurns(ts[..|ts| - 1], f, n) + Turns(ts[|ts| - 1], f, n)
  }

  lemma {:induction false} ExecEach(s: State, schedule: Schedule, ts: seq<nat>, f: Option<string>, n: nat)
    ensures Exec(s, schedule + EachTurns(ts, f, n)) == EachAlone(Exec(s, schedule), ts, f, n)
  {
    hide Exec, Alone, Turns;
    if ts == [] {
      assert schedule + EachTurns(ts, f, n) == schedule;
    } else {
      var before := EachTurns(ts[..|ts| - 1], f, n);
      ExecEach(s, schedule, ts[..|ts| - 1], f, n);
      ExecTurns(s, schedule + before, ts[|ts| - 1], f, n);
      assert schedule + EachTurns(ts, f, n) == schedule + before + Turns(ts[|ts| - 1], f, n);
    }
  }

  /** The threads outside the list are as they were. */
  ghost predicate OthersSame(s: State, x: State, ts: seq<nat>) {
    |x.threads| == |s.threads| && forall t: nat :: t < |s.threads| && t !in ts ==> x.threads[t] == s.threads[t]
  }

  /** The threads of the list have missed and wait to insert a page. */
  ghost predicate AllMissed(s: State, ts: seq<nat>) {
    forall k :: 0 <= k < |ts| ==> ts[k] < |s.threads| && s.threads[ts[k]].pc == WLock && s.threads[ts[k]].hit == None
  }

  ghost predicate AllAtStart(s: State, ts: seq<nat>) {
    forall k :: 0 <= k < |ts| ==> ts[k] < |s.threads| && s.threads[ts[k]].pc == RLock
  }

  /** In an empty cache they all miss. */
  lemma {:induction false} MissEach(s: State, ts: seq<nat>, page: string)
    requires Free(s) && s.usedcnt == 0 && Distinct(ts) && AllAtStart(s, ts)
    ensures var x := EachAlone(s, ts, Some(page), 10);
            Free(x) && SameData(s, x) && SameRequests(s, x) && OthersSame(s, x, ts) && AllMissed(x, ts)
  {
    if ts != [] {
      var before, t := ts[..|ts| - 1], ts[|ts| - 1];
      MissEach(s, before, page);
      var x := EachAlone(s, before, Some(page), 10);
      assert t !in before;
      hide EachAlone, Alone;
      MissAlone(x, t, page);
      var y := Alone(x, t, Some(page), 10);
      forall k | 0 <= k < |ts|
        ensures ts[k] < |y.threads| && y.threads[ts[k]].pc == WLock && y.threads[ts[k]].hit == None
      {
        if k < |before| { assert before[k] == ts[k] && before[k] != t; }
      }
    }
  }

  /** Line 0 is the least recent one. */
  ghost predicate OldestFirst(s: State) {
    && 0 < s.usedcnt <= LINES == |s.cache| && s.cache[0].timestamp < s.gtime
    && forall k :: 0 < k < s.usedcnt ==> s.cache[0].timestamp < s.cache[k].timestamp
  }

  /** They all append a line. */
  lemma {:induction false} AppendEach(s: State, ts: seq<nat>, f: Option<string>)
    requires Free(s) && OldestFirst(s) && Distinct(ts) && AllMissed(s, ts) && s.usedcnt + |ts| <= LINES
    ensures var x := EachAlone(s, ts, f, 10);
            && Free(x) && OldestFirst(x) && OthersSame(s, x, ts)
            && x.usedcnt == s.usedcnt + |ts| && x.cache[0] == s.cache[0]
  {
    if ts != [] {
      var before, t := ts[..|ts| - 1], ts[|ts| - 1];
      assert forall k :: 0 <= k < |before| ==> before[k] == ts[k];
      AppendEach(s, before, f);
      var x := EachAlone(s, before, f, 10);
      assert t !in before;
      assert x.threads[t] == s.threads[ts[|ts| - 1]];
      hide EachAlone, Alone;
      AppendAlone(x, t, f);
    }
  }

  // ---- a hit on line 0 ----

  lemma FindAlone(s: State, t: nat, f: Option<string>)
    requires t < |s.threads| && s.threads[t].pc == RScan && s.threads[t].i == 0 && s.usedcnt > 0 && |s.cache| == LINES
    requires s.mutex == 1 && s.cache[0].name == Whole(s.threads[t].uri)
    ensures Alone(s, t, f, 4) ==
            Set(s, t, s.threads[t].(pc := RLast, hit := Some(0), sent := Some(s.cache[0].payload)))
              .(mutex := 0, holder := Some(t), readcnt := s.readcnt - 1)
  {
    hide WriterStep, DecideStep;
    var th := s.threads[t].(hit := Some(0), sent := Some(s.cache[0].payload));
    var s1 := Set(s, t, s.threads[t].(pc := RSend));
    var s2 := Set(s, t, th.(pc := RLock2));
    var s3 := Set(s, t, th.(pc := RUncount)).(mutex := 0, holder := Some(t));
    assert Step(s, t, f) == s1;
    assert Step(s1, t, f) == s2;
    assert Step(s2, t, f) == s3;
    var s4 := Step(s3, t, f);
    hide Step;
    AloneStep(s, t, f, 0); AloneStep(s, t, f, 1); AloneStep(s, t, f, 2); AloneStep(s, t, f, 3);
  }

  lemma LeaveHit(s: State, t: nat, f: Option<string>)
    requires t < |s.threads| && s.threads[t].pc == RLast && s.threads[t].hit.Some? && s.readcnt == 0
    ensures Alone(s, t, f, 3) == Set(s, t, s.threads[t].(pc := WLock))
                                 .(mutex := s.mutex + 1, holder := None, w := s.w + 1, readersHold := false)
  {
    hide WriterStep;
    var th := s.threads[t];
    var s1 := Set(s, t, th.(pc := RUnlock2)).(w := s.w + 1, readersHold := false);
    var s2 := Set(s, t, th.(pc := Decide)).(w := s.w + 1, readersHold := false, mutex := s.mutex + 1, holder := None);
    assert Step(s, t, f) == s1;
    assert Step(s1, t, f) == s2;
    var s3 := Step(s2, t, f);
    hide Step;
    AloneStep(s, t, f, 0); AloneStep(s, t, f, 1); AloneStep(s, t, f, 2);
  }

  /** A lookup that meets nobody and finds its name on line 0. */
  lemma HitAlone(s: State, t: nat, f: Option<string>)
    requires FreeAt(s, t, RLock) && s.usedcnt > 0 && s.cache[0].name == Whole(s.threads[t].uri)
    ensures var s' := Alone(s, t, f, 11);
            && FreeAt(s', t, WLock) && SameData(s, s') && MovedOn(s, s', t) && s'.threads[t].hit == Some(0)
  {
    hide Alone;
    EnterAlone(s, t, f);
    var a := Alone(s, t, f, 4);
    FindAlone(a, t, f);
    var b := Alone(a, t, f, 4);
    LeaveHit(b, t, f);
    AloneSplit(a, t, f, 4, 3);
    AloneSplit(s, t, f, 4, 7);
  }

  // ---- an eviction of line 0 ----

  lemma BranchFull(s: State, t: nat, f: Option<string>)
    requires FreeAt(s, t, WLock) && s.threads[t].hit == None && s.usedcnt == LINES
    ensures Alone(s, t, f, 2) ==
            Set(s, t, s.threads[t].(pc := WScan, i := 1, slot := 0, appending := false, lruT := s.cache[0].timestamp))
              .(w := 0, owner := Some(t))
  {
    hide ReaderStep, DecideStep, StoreStep;
    var e := s.(w := 0, owner := Some(t));
    var s1 := Set(e, t, s.threads[t].(pc := WBranch));
    assert Step(s, t, f) == s1;
    var s2 := Step(s1, t, f);
    hide Step;
    AloneStep(s, t, f, 0); AloneStep(s, t, f, 1);
  }

  lemma ScanStep(s: State, t: nat, f: Option<string>, n: nat)
    requires t < |s.threads| && s.threads[t].pc == WScan && s.usedcnt == LINES && OldestFirst(s)
    requires s.threads[t].slot == 0 && s.threads[t].lruT == s.cache[0].timestamp
    requires 1 <= s.threads[t].i && s.threads[t].i + n < LINES
    ensures Step(Set(s, t, s.threads[t].(i := s.threads[t].i + n)), t, f)
         == Set(s, t, s.threads[t].(i := s.threads[t].i + n + 1))
  {
    hide ReaderStep, DecideStep, StoreStep;
  }

  /** The scan of a cache whose line 0 is the least recent one. */
  lemma {:induction false} ScanAlone(s: State, t: nat, f: Option<string>, n: nat)
    requires t < |s.threads| && s.threads[t].pc == WScan && s.usedcnt == LINES && OldestFirst(s)
    requires s.threads[t].slot == 0 && s.threads[t].lruT == s.cache[0].timestamp
    requires 1 <= s.threads[t].i && s.threads[t].i + n <= LINES
    ensures Alone(s, t, f, n) == Set(s, t, s.threads[t].(i := s.threads[t].i + n))
  {
    hide Step, OldestFirst;
    if n > 0 {
      ScanAlone(s, t, f, n - 1);
      ScanStep(s, t, f, n - 1);
      AloneStep(s, t, f, n - 1);
    } else {
      assert Set(s, t, s.threads[t]) == s;
    }
  }

  lemma EndScan(s: State, t: nat, f: Option<string>)
    requires t < |s.threads| && s.threads[t].pc == WScan && s.threads[t].i == LINES && s.threads[t].slot < |s.cache|
    ensures var th := s.threads[t];
            Alone(s, t, f, 2) == Set(s, t, th.(pc := WName1))
              .(cache := s.cache[th.slot := s.cache[th.slot].(name := Partial)])
  {
    hide ReaderStep, DecideStep;
    var s1 := Set(s, t, s.threads[t].(pc := WName0));
    assert Step(s, t, f) == s1;
    var s2 := Step(s1, t, f);
    hide Step;
    AloneStep(s, t, f, 0); AloneStep(s, t, f, 1);
  }

  lemma RestampAlone(s: State, t: nat, f: Option<string>)
    requires t < |s.threads| && s.threads[t].pc == WStamp && !s.threads[t].appending && s.threads[t].slot < |s.cache|
    ensures var n := s.threads[t].slot;
            Alone(s, t, f, 1) == Set(s, t, s.threads[t].(pc := WTick))
              .(cache := s.cache[n := s.cache[n].(timestamp := s.gtime)])
  {
    hide ReaderStep, DecideStep;
    var n := s.threads[t].slot;
    assert Step(s, t, f) == Set(s, t, s.threads[t].(pc := WTick))
                              .(cache := s.cache[n := s.cache[n].(timestamp := s.gtime)]);
    hide Step;
    AloneStep(s, t, f, 0);
    assert Alone(s, t, f, 0 + 1) == Alone(s, t, f, 1);
  }

  lemma PickVictim(s: State, t: nat, f: Option<string>)
    requires FreeAt(s, t, WLock) && s.threads[t].hit == None && s.usedcnt == LINES && OldestFirst(s)
    ensures var s' := Alone(s, t, f, 13);
            && MovedOn(s, s', t) && s'.w == 0 && s'.mutex == 1 && s'.readcnt == 0 && |s'.cache| == LINES
            && s'.threads[t].pc == WName1 && s'.threads[t].slot == 0 && !s'.threads[t].appending
  {
    hide Alone;
    BranchFull(s, t, f);
    var a := Alone(s, t, f, 2);
    ScanAlone(a, t, f, 9);
    var b := Alone(a, t, f, 9);
    EndScan(b, t, f);
    AloneSplit(a, t, f, 9, 2);
    AloneSplit(s, t, f, 2, 11);
  }

  /** An insertion into a full cache that meets nobody takes the place of line 0. */
  lemma EvictAlone(s: State, t: nat, f: Option<string>)
    requires FreeAt(s, t, WLock) && s.threads[t].hit == None && s.usedcnt == LINES && OldestFirst(s)
    ensures var s' := Alone(s, t, f, 19);
            && Free(s') && s'.cache[0].name == Whole(s.threads[t].uri) && MovedOn(s, s', t)
  {
    hide Alone, OldestFirst;
    PickVictim(s, t, f);
    var c := Alone(s, t, f, 13);
    CopyAlone(c, t, f);
    var d := Alone(c, t, f, 3);
    RestampAlone(d, t, f);
    var e := Alone(d, t, f, 1);
    TickAlone(e, t, f);
    AloneSplit(d, t, f, 1, 2);
    AloneSplit(c, t, f, 3, 3);
    AloneSplit(s, t, f, 13, 6);
  }

  /** The touch that follows a hit on line 0, up to its stamp. */
  lemma TouchAlone(s: State, t: nat, f: Option<string>)
    requires FreeAt(s, t, WLock) && s.threads[t].hit == Some(0)
    ensures var s' := Alone(s, t, f, 2);
            && MovedOn(s, s', t) && s'.cache == s.cache
            && s'.threads[t].pc == WStamp && s'.threads[t].hit == Some(0) && s'.threads[t].slot == 0
  {
    hide ReaderStep, DecideStep, StoreStep;
    var s1 := Set(s, t, s.threads[t].(pc := WBranch)).(w := 0, owner := Some(t));
    assert Step(s, t, f) == s1;
    var s2 := Step(s1, t, f);
    hide Step;
    AloneStep(s, t, f, 0); AloneStep(s, t, f, 1);
  }

  // ---- the run ----

  /** The threads below n other than three given ones. */
  function Rest(n: nat, a: nat, h: nat, e: nat): (q: seq<nat>)
    ensures Below(q, n) && Distinct(q) && a !in q && h !in q && e !in q
    ensures a != h && a != e && h != e ==>
              |q| == n - (if a < n then 1 else 0) - (if h < n then 1 else 0) - (if e < n then 1 else 0)
  {
    if n == 0 then [] else Rest(n - 1, a, h, e) + if n - 1 in {a, h, e} then [] else [n - 1]
  }

  /** Threads a, e and nine others miss; a inserts its page, h hits it; the nine
      fill the cache, e evicts the page of a, and h goes on to touch its line. */
  function Stray(a: nat, h: nat, e: nat, nine: seq<nat>): Schedule {
    var f := Some("");
    EachTurns([a, e] + nine, f, 10) + Turns(a, f, 10) + Turns(h, f, 11) + EachTurns(nine, f, 10)
    + Turns(e, f, 19) + Turns(h, f, 2)
  }

  lemma ExecStray(s: State, a: nat, h: nat, e: nat, nine: seq<nat>)
    ensures var f := Some("");
            var x1 := EachAlone(s, [a, e] + nine, f, 10);
            var x2 := Alone(Alone(x1, a, f, 10), h, f, 11);
            var x3 := Alone(EachAlone(x2, nine, f, 10), e, f, 19);
            Exec(s, Stray(a, h, e, nine)) == Alone(x3, h, f, 2)
  {
    hide Alone, EachAlone, Turns, EachTurns;
    var f := Some("");
    var s1 := EachTurns([a, e] + nine, f, 10);
    var s2 := s1 + Turns(a, f, 10);
    var s3 := s2 + Turns(h, f, 11);
    var s4 := s3 + EachTurns(nine, f, 10);
    var s5 := s4 + Turns(e, f, 19);
    assert [] + s1 == s1 && Exec(s, []) == s;
    hide Exec;
    ExecEach(s, [], [a, e] + nine, f, 10);
    ExecTurns(s, s1, a, f, 10);
    ExecTurns(s, s2, h, f, 11);
    ExecEach(s, s3, nine, f, 10);
    ExecTurns(s, s4, e, f, 19);
    ExecTurns(s, s5, h, f, 2);
  }

  /** First, thread a and those of q miss. */
  lemma AllMiss(s: State, a: nat, h: nat, q: seq<nat>)
    requires Free(s) && s.usedcnt == 0 && AllAtStart(s, [a, h] + q) && Distinct([a] + q) && h !in [a] + q
    ensures var x := EachAlone(s, [a] + q, Some(""), 10);
            && Free(x) && SameData(s, x) && SameRequests(s, x) && AllMissed(x, [a] + q)
            && h < |x.threads| && x.threads[h].pc == RLock
  {
    hide Alone, EachAlone;
    var all := [a, h] + q;
    assert all[0] == a && all[1] == h;
    forall k | 0 <= k < |q| + 1 ensures var t := ([a] + q)[k]; t < |s.threads| && s.threads[t].pc == RLock {
      assert all[if k == 0 then 0 else k + 1] == ([a] + q)[k];
    }
    MissEach(s, [a] + q, "");
  }

  /** Then a inserts its page, and h hits it. */
  lemma AppendAndHit(x: State, a: nat, h: nat, q: seq<nat>)
    requires Free(x) && x.usedcnt == 0 && AllMissed(x, [a] + q) && Distinct([a] + q) && h !in [a] + q
    requires a < |x.threads| && h < |x.threads| && x.threads[h].pc == RLock && x.threads[a].uri == x.threads[h].uri
    ensures var f := Some("");
            var y := Alone(Alone(x, a, f, 10), h, f, 11);
            && Free(y) && OldestFirst(y) && y.usedcnt == 1 && AllMissed(y, q) && SameRequests(x, y)
            && y.threads[h].pc == WLock && y.threads[h].hit == Some(0)
  {
    hide Alone;
    var f := Some("");
    assert ([a] + q)[0] == a && a != h;
    AppendAlone(x, a, f);
    var x2 := Alone(x, a, f, 10);
    HitAlone(x2, h, f);
    var y := Alone(x2, h, f, 11);
    forall k | 0 <= k < |q| ensures q[k] < |y.threads| && y.threads[q[k]].pc == WLock && y.threads[q[k]].hit == None {
      assert ([a] + q)[k + 1] == q[k] && q[k] in [a] + q;
    }
  }

  /** The second half: the line goes, and the touch comes. */
  lemma TouchesOther(x: State, h: nat, e: nat, nine: seq<nat>)
    requires Free(x) && OldestFirst(x) && x.usedcnt == 1 && AllMissed(x, [e] + nine) && |nine| == LINES - 1
    requires Distinct([e] + nine) && h !in [e] + nine && h < |x.threads| && e < |x.threads|
    requires x.threads[h].pc == WLock && x.threads[h].hit == Some(0) && x.threads[h].uri != x.threads[e].uri
    ensures var f := Some("");
            !TouchesOwn(Alone(Alone(EachAlone(x, nine, f, 10), e, f, 19), h, f, 2))
  {
    hide Alone, EachAlone;
    var f := Some("");
    var q := [e] + nine;
    assert forall k :: 0 <= k < |nine| ==> nine[k] == q[k + 1];
    assert q[0] == e;
    AppendEach(x, nine, f);
    var y := EachAlone(x, nine, f, 10);
    assert e !in nine && h !in nine && h != e;
    EvictAlone(y, e, f);
    var z := Alone(y, e, f, 19);
    TouchAlone(z, h, f);
  }

  lemma StrayTouch(s: State, a: nat, h: nat, e: nat)
    requires Init(s) && a < |s.threads| && h < |s.threads| && e < |s.threads| && a != h && |s.threads| >= LINES + 2
    requires s.threads[a].uri == s.threads[h].uri != s.threads[e].uri
    ensures exists schedule: Schedule :: !TouchesOwn(Exec(s, schedule))
  {
    hide Exec, Alone, EachAlone, Stray, TouchesOwn;
    var nine := Rest(|s.threads|, a, h, e)[..LINES - 1];
    assert forall x :: x in nine ==> x in Rest(|s.threads|, a, h, e);
    ExecStray(s, a, h, e, nine);
    var f, q := Some(""), [e] + nine;
    assert [a] + q == [a, e] + nine;
    AllMiss(s, a, h, q);
    AppendAndHit(EachAlone(s, [a] + q, f, 10), a, h, q);
    TouchesOther(Alone(Alone(EachAlone(s, [a] + q, f, 10), a, f, 10), h, f, 11), h, e, nine);
    assert !TouchesOwn(Exec(s, Stray(a, h, e, nine)));
  }

  /** A touch finds its own name on its line in every interleaving exactly when
      there are too few threads to fill the cache and evict the line meanwhile,
      or all requests are for different names, or all for the same. */
  lemma TouchesOwnExactlyWhen(s: State)
    requires Init(s)
    ensures (forall schedule: Schedule :: TouchesOwn(Exec(s, schedule)))
            <==> |s.threads| <= LINES + 1 || DistinctUris(s) || SameUris(s)
  {
    hide Exec, Init, TouchesOwn;
    if |s.threads| <= LINES + 1 {
      forall schedule: Schedule ensures TouchesOwn(Exec(s, schedule)) { FewThreadsTouch(s, schedule); }
    } else if DistinctUris(s) {
      forall schedule: Schedule ensures TouchesOwn(Exec(s, schedule)) { DistinctTouch(s, schedule); }
    } else if SameUris(s) {
      forall schedule: Schedule ensures TouchesOwn(Exec(s, schedule)) { OneNameTouched(s, schedule); }
    } else {
      var a, h :| 0 <= a < h < |s.threads| && s.threads[a].uri == s.threads[h].uri;
      var t, u :| 0 <= t < u < |s.threads| && s.threads[t].uri != s.threads[u].uri;
      StrayTouch(s, a, h, if s.threads[t].uri != s.threads[a].uri then t else u);
    }
  }

  lemma DistinctTouch(s: State, schedule: Schedule)
    requires Init(s) && DistinctUris(s)
    ensures TouchesOwn(Exec(s, schedule))
  {
    hide Exec, Init;
    ExecNoHits(s, schedule);
  }
}
