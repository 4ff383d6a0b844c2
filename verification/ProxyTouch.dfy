/** When a hit refreshes its own page. Between the lookup and the update the
    line may be evicted, and the timestamp is then set on another page. */
module ProxyTouch {
  import opened Collections
  import opened ProxyLock
  import opened ProxyRace
  import opened ProxySizes

  /** A thread about to touch the line it hit finds its own name there. */
  ghost predicate TouchesOwn(s: State) {
    forall t :: 0 <= t < |s.threads| && s.threads[t].pc.WStamp? && s.threads[t].hit.Some? ==>
      s.threads[t].slot < |s.cache| && s.cache[s.threads[t].slot].name == Whole(s.threads[t].uri)
  }

  ghost predicate SameUris(s: State) {
    forall t, u :: 0 <= t < u < |s.threads| ==> s.threads[t].uri == s.threads[u].uri
  }

  // ---- what every step keeps ----

  lemma StoreKeeps(s: State, t: nat)
    requires t < |s.threads| && s.threads[t].slot < |s.cache|
    ensures MovedOn(s, StoreStep(s, t), t) && StoreStep(s, t).threads[t].hit == s.threads[t].hit
  {
  }

  lemma WriterKeeps(s: State, t: nat)
    requires t < |s.threads| && Enabled(s, t)
    ensures MovedOn(s, WriterStep(s, t), t) && WriterStep(s, t).threads[t].hit == s.threads[t].hit
  {
    hide StoreStep;
    if s.threads[t].slot < |s.cache| { StoreKeeps(s, t); }
  }

  /** A step keeps the requests, and a hit is found only in the lookup. */
  lemma StepKeeps(s: State, t: nat, fetched: Option<string>)
    requires t < |s.threads|
    ensures var s' := Step(s, t, fetched);
            MovedOn(s, s', t) && (s'.threads[t].hit in {None, s.threads[t].hit} || s.threads[t].pc.RSend?)
  {
    hide ReaderStep, WriterStep;
    if Enabled(s, t) {
      if InReader(s.threads[t].pc) { ReaderShape(s, t); } else { WriterKeeps(s, t); }
    }
  }

  ghost predicate SameRequests(s: State, x: State) {
    |x.threads| == |s.threads| && forall t :: 0 <= t < |s.threads| ==> x.threads[t].uri == s.threads[t].uri
  }

  lemma {:induction false} ExecKeeps(s: State, schedule: Schedule)
    ensures SameRequests(s, Exec(s, schedule))
  {
    hide Step;
    if schedule != [] {
      var before, last := schedule[..|schedule| - 1], schedule[|schedule| - 1];
      ExecKeeps(s, before);
      if last.0 < |s.threads| { StepKeeps(Exec(s, before), last.0, last.1); }
      OutOfRange(Exec(s, before), last.0, last.1);
    }
  }

  lemma OutOfRange(s: State, t: nat, fetched: Option<string>)
    ensures t >= |s.threads| ==> Step(s, t, fetched) == s
  {
    hide ReaderStep, WriterStep, DecideStep;
  }

  // ---- requests for different names: there are no hits ----

  ghost predicate NoHits(s: State) {
    forall t :: 0 <= t < |s.threads| ==> s.threads[t].hit == None
  }

  /** A hit would find a name that the thread has still to copy. */
  lemma StepNoHits(s: State, t: nat, fetched: Option<string>)
    requires Data(s) && Names(s) && NoHits(s)
    ensures NoHits(Step(s, t, fetched))
  {
    if t < |s.threads| {
      assert ThreadData(s, s.threads[t]) && ThreadNames(s, s.threads[t]);
      hide Step;
      StepKeeps(s, t, fetched);
    } else {
      OutOfRange(s, t, fetched);
    }
  }

  lemma {:induction false} ExecNoHits(s: State, schedule: Schedule)
    requires Init(s) && DistinctUris(s)
    ensures NoHits(Exec(s, schedule))
  {
    hide Step, Data, Locks, Names, DistinctUris;
    if schedule != [] {
      var before, last := schedule[..|schedule| - 1], schedule[|schedule| - 1];
      hide Init, NoHits;
      ExecNoHits(s, before);
      ExecSafe(s, before);
      ExecNames(s, before);
      StepNoHits(Exec(s, before), last.0, last.1);
    }
  }

  // ---- requests for one name: every line holds it ----

  /** Every stored name was asked for. */
  ghost predicate Asked(s: State, x: State) {
    forall pair :: pair in x.stored ==> exists t :: 0 <= t < |s.threads| && s.threads[t].uri == pair.0
  }

  lemma {:induction false} ExecAsked(s: State, schedule: Schedule)
    requires Init(s)
    ensures Asked(s, Exec(s, schedule))
  {
    hide Step, Data, Locks;
    if schedule != [] {
      var before, last := schedule[..|schedule| - 1], schedule[|schedule| - 1];
      var x, y := Exec(s, before), Exec(s, schedule);
      assert y == Step(x, last.0, last.1);
      hide Init, Exec;
      ExecAsked(s, before);
      ExecSafe(s, before);
      ExecKeeps(s, before);
      forall pair | pair in y.stored ensures exists t :: 0 <= t < |s.threads| && s.threads[t].uri == pair.0 {
        if pair !in x.stored { StoredByOneCall(x, last.0, last.1, pair); }
      }
    }
  }

  lemma OneNameTouched(s: State, schedule: Schedule)
    requires Init(s) && SameUris(s)
    ensures TouchesOwn(Exec(s, schedule))
  {
    hide Exec, Locks, Data, Init;
    var x := Exec(s, schedule);
    ExecSafe(s, schedule);
    ExecKeeps(s, schedule);
    ExecAsked(s, schedule);
    forall t | 0 <= t < |x.threads| && x.threads[t].pc.WStamp? && x.threads[t].hit.Some?
      ensures x.threads[t].slot < |x.cache| && x.cache[x.threads[t].slot].name == Whole(x.threads[t].uri)
    {
      WriterFacts(x, t);
      var c := x.cache[x.threads[t].slot];
      assert (c.name.text, c.payload.text) in x.stored;
      var u :| 0 <= u < |s.threads| && s.threads[u].uri == c.name.text;
    }
  }

  // ---- at most eleven threads: no line that was hit is evicted ----

  /** The thread has a hit and has not touched its line yet. */
  predicate Pending(th: Thread) {
    th.hit.Some? && (th.pc.RLock2? || th.pc.RUncount? || th.pc.RLast? || th.pc.RUnlock2? || th.pc.Decide?
                     || th.pc.WLock? || th.pc.WBranch? || th.pc.WStamp?)
  }

  predicate Inserting(pc: PC) {
    pc.WScan? || pc.WName0? || pc.WName1? || pc.WPayload0? || pc.WPayload1?
  }

  ghost predicate PendingOwn(s: State, th: Thread) {
    && (th.pc.RScan? || th.pc.RSend? || Inserting(th.pc) ==> th.hit == None)
    && (Pending(th) ==> th.hit.value < |s.cache| && s.cache[th.hit.value].name == Whole(th.uri))
    && (Pending(th) && th.pc.WStamp? ==> th.slot == th.hit.value)
  }

  /** The thread is overwriting the name on a line in use. */
  predicate Evicting(th: Thread) {
    !th.appending && (th.pc.WName0? || th.pc.WName1?)
  }

  /** Threads that may have brought a line into use. */
  function Appender(th: Thread): int {
    if th.appending && (th.pc.WTick? || th.pc.WUnlock? || th.pc.Finished?) then 1 else 0
  }

  ghost predicate Kept(s: State) {
    && (forall t :: 0 <= t < |s.threads| ==> PendingOwn(s, s.threads[t]))
    && (forall t :: 0 <= t < |s.threads| && Evicting(s.threads[t]) ==> s.usedcnt == LINES)
    && s.usedcnt <= SumBy(s.threads, Appender)
  }

  lemma {:induction false} AppendersBelow(q: seq<Thread>, t: nat, u: nat)
    ensures SumBy(q, Appender) <= |q|
    ensures t < |q| && Appender(q[t]) == 0 ==> SumBy(q, Appender) <= |q| - 1
    ensures t < |q| && u < |q| && t != u && Appender(q[t]) == 0 && Appender(q[u]) == 0 ==> SumBy(q, Appender) <= |q| - 2
  {
    if q != [] {
      AppendersBelow(q[..|q| - 1], t, u);
      AppendersBelow(q[..|q| - 1], u, t);
    }
  }

  /** An eviction while a hit is pending takes ten other threads, to fill the cache. */
  lemma EvictionNeedsThreads(s: State, t: nat, u: nat)
    requires Kept(s) && t < |s.threads| && u < |s.threads| && Evicting(s.threads[t]) && Pending(s.threads[u])
    ensures |s.threads| >= LINES + 2
  {
    AppendersBelow(s.threads, t, u);
  }

  lemma QuietKept(s: State, s': State, t: nat)
    requires Kept(s) && Moved(s, s', t) && s'.usedcnt == s.usedcnt && |s'.cache| == |s.cache|
    requires forall i :: 0 <= i < |s.cache| ==> s'.cache[i].name == s.cache[i].name
    requires PendingOwn(s', s'.threads[t]) && (Evicting(s'.threads[t]) ==> s.usedcnt == LINES)
    requires Appender(s.threads[t]) <= Appender(s'.threads[t])
    ensures Kept(s')
  {
    SumUpdate(s.threads, t, s'.threads[t], Appender);
    forall u | 0 <= u < |s'.threads| ensures PendingOwn(s', s'.threads[u]) {
      assert PendingOwn(s, s.threads[u]);
    }
  }

  /** The hit and the place of a thread after a step of its lookup. */
  lemma LookupMoves(s: State, t: nat)
    requires t < |s.threads| && Enabled(s, t) && InReader(s.threads[t].pc) && !s.threads[t].pc.RSend?
    ensures var th, th' := s.threads[t], ReaderStep(s, t).threads[t];
            && (InReader(th'.pc) || th'.pc.Decide?) && Appender(th) == 0
            && (th'.pc.RScan? || th'.pc.RSend? ==>
                  th'.hit == None || ((th.pc.RScan? || th.pc.RSend?) && th'.hit == th.hit))
            && (Pending(th') ==> th'.hit == th.hit && (Pending(th) || th.pc.RScan?))
  {
  }

  lemma ReaderKept(s: State, t: nat)
    requires Data(s) && Kept(s) && t < |s.threads| && Enabled(s, t) && InReader(s.threads[t].pc)
    ensures Kept(ReaderStep(s, t))
  {
    assert ThreadData(s, s.threads[t]) && PendingOwn(s, s.threads[t]);
    hide Data, Kept, ReaderStep, Enabled;
    ReaderShape(s, t);
    if s.threads[t].pc.RSend? { SendShape(s, t); } else { LookupMoves(s, t); }
    QuietKept(s, ReaderStep(s, t), t);
  }

  lemma DecideKept(s: State, t: nat, fetched: Option<string>)
    requires Kept(s) && t < |s.threads| && s.threads[t].pc.Decide?
    ensures Kept(DecideStep(s, t, fetched))
  {
    assert PendingOwn(s, s.threads[t]);
    hide Kept;
    QuietKept(s, DecideStep(s, t, fetched), t);
  }

  lemma UpdateMoves(s: State, t: nat)
    requires t < |s.threads| && Enabled(s, t) && |s.cache| == LINES
    requires s.threads[t].pc in {WLock, WBranch, WScan, WTick, WUnlock}
    ensures var s', th := WriterStep(s, t), s.threads[t];
            var th' := s'.threads[t];
            && Moved(s, s', t) && s'.cache == s.cache && s'.usedcnt == s.usedcnt
            && th'.hit == th.hit && th'.uri == th.uri && Appender(th) <= Appender(th')
            && (Pending(th') ==> Pending(th) && (th'.pc.WStamp? ==> th'.slot == th.hit.value))
            && (Inserting(th'.pc) ==> Inserting(th.pc) || th.hit == None)
            && (Evicting(th') ==> th.pc.WScan? && !th.appending)
            && !th'.pc.RScan? && !th'.pc.RSend?
  {
    hide StoreStep;
  }

  lemma UpdateKept(s: State, t: nat)
    requires Locks(s) && Data(s) && Kept(s) && t < |s.threads| && Enabled(s, t)
    requires s.threads[t].pc in {WLock, WBranch, WScan, WTick, WUnlock}
    ensures Kept(WriterStep(s, t))
  {
    DataFacts(s, t);
    assert PendingOwn(s, s.threads[t]);
    if s.threads[t].pc.WScan? { WriterFacts(s, t); }
    hide Locks, Data, Kept, WriterStep, Enabled, Lines, Stamps;
    UpdateMoves(s, t);
    QuietKept(s, WriterStep(s, t), t);
  }

  /** The steps after the name that leave names and lines in use alone. */
  lemma CopyRestMoves(s: State, t: nat)
    requires t < |s.threads| && s.threads[t].slot < |s.cache| && s.threads[t].pc in {WPayload0, WPayload1, WStamp}
    ensures var th' := StoreStep(s, t).threads[t];
            && (th'.pc.WPayload1? || th'.pc.WStamp? || th'.pc.WUsed? || th'.pc.WTick?)
            && (th'.pc.WStamp? ==> s.threads[t].pc.WPayload1?)
            && th'.hit == s.threads[t].hit && (Inserting(th'.pc) ==> Inserting(s.threads[t].pc))
            && Appender(s.threads[t]) == 0
  {
  }

  lemma StoreRestKept(s: State, t: nat)
    requires Locks(s) && Data(s) && Kept(s) && t < |s.threads|
    requires s.threads[t].pc in {WPayload0, WPayload1, WStamp}
    ensures Kept(WriterStep(s, t))
  {
    DataFacts(s, t);
    assert PendingOwn(s, s.threads[t]);
    hide Locks, Data, Kept, StoreStep;
    CopyRestShape(s, t);
    CopyRestMoves(s, t);
    QuietKept(s, StoreStep(s, t), t);
  }

  /** Another thread is inside: the others are not copying. */
  lemma OthersOutside(s: State, t: nat, u: nat)
    requires Locks(s) && t < |s.threads| && u < |s.threads| && t != u && Writing(s.threads[t].pc)
    ensures !Writing(s.threads[u].pc)
  {
    assert ThreadLocks(s, t) && ThreadLocks(s, u);
  }

  /** Copying the name: to an unused line, or, with the cache full, to one that
      nobody has a hit on. */
  lemma NameKept(s: State, t: nat)
    requires Locks(s) && Data(s) && Kept(s) && t < |s.threads| && |s.threads| <= LINES + 1
    requires s.threads[t].pc in {WName0, WName1}
    ensures Kept(WriterStep(s, t))
  {
    WriterFacts(s, t);
    var s' := WriterStep(s, t);
    NameMoves(s, t);
    SumUpdate(s.threads, t, s'.threads[t], Appender);
    forall u | 0 <= u < |s.threads|
      ensures PendingOwn(s', s'.threads[u]) && (Evicting(s'.threads[u]) ==> s'.usedcnt == LINES)
    {
      assert PendingOwn(s, s.threads[u]) && ThreadData(s, s.threads[u]);
      if u != t {
        OthersOutside(s, t, u);
        if Pending(s.threads[u]) && !s.threads[t].appending { EvictionNeedsThreads(s, t, u); }
      }
    }
  }

  lemma NameMoves(s: State, t: nat)
    requires t < |s.threads| && s.threads[t].slot < |s.cache| && s.threads[t].pc in {WName0, WName1}
    ensures var s', th := WriterStep(s, t), s.threads[t];
            && Moved(s, s', t) && s'.usedcnt == s.usedcnt && |s'.cache| == |s.cache|
            && (forall i :: 0 <= i < |s.cache| && i != th.slot ==> s'.cache[i] == s.cache[i])
            && s'.threads[t] == th.(pc := if th.pc.WName0? then WName1 else WPayload0)
  {
  }

  lemma UsedKept(s: State, t: nat)
    requires Locks(s) && Data(s) && Kept(s) && t < |s.threads| && s.threads[t].pc.WUsed?
    ensures Kept(WriterStep(s, t))
  {
    WriterFacts(s, t);
    var s' := WriterStep(s, t);
    SumUpdate(s.threads, t, s'.threads[t], Appender);
    forall u | 0 <= u < |s.threads|
      ensures PendingOwn(s', s'.threads[u]) && !Evicting(s'.threads[u])
    {
      assert PendingOwn(s, s.threads[u]);
      if u != t { OthersOutside(s, t, u); }
    }
  }

  lemma StepKept(s: State, t: nat, fetched: Option<string>)
    requires Locks(s) && Data(s) && Kept(s) && |s.threads| <= LINES + 1
    ensures Kept(Step(s, t, fetched))
  {
    hide Locks, Data, Kept, ReaderStep, WriterStep, DecideStep;
    if t < |s.threads| && Enabled(s, t) {
      match s.threads[t].pc
      case Decide => DecideKept(s, t, fetched);
      case WLock | WBranch | WScan | WTick | WUnlock => UpdateKept(s, t);
      case WName0 | WName1 => NameKept(s, t);
      case WPayload0 | WPayload1 | WStamp => StoreRestKept(s, t);
      case WUsed => UsedKept(s, t);
      case _ => ReaderKept(s, t);
    }
  }

  lemma {:induction false} ExecKept(s: State, schedule: Schedule)
    requires Init(s) && |s.threads| <= LINES + 1
    ensures Kept(Exec(s, schedule))
  {
    hide Locks, Data, Step, Kept;
    if schedule == [] {
      InitKept(s);
    } else {
      var before, last := schedule[..|schedule| - 1], schedule[|schedule| - 1];
      hide Init;
      ExecKept(s, before);
      ExecSafe(s, before);
      ExecKeeps(s, before);
      StepKept(Exec(s, before), last.0, last.1);
    }
  }

  lemma InitKept(s: State)
    requires Init(s)
    ensures Kept(s)
  {
    NobodyAppended(s.threads);
  }

  lemma {:induction false} NobodyAppended(q: seq<Thread>)
    ensures SumBy(q, Appender) >= 0
  {
    if q != [] { NobodyAppended(q[..|q| - 1]); }
  }

  lemma FewThreadsTouch(s: State, schedule: Schedule)
    requires Init(s) && |s.threads| <= LINES + 1
    ensures TouchesOwn(Exec(s, schedule))
  {
    hide Exec, Init;
    ExecKept(s, schedule);
    var x := Exec(s, schedule);
    forall t | 0 <= t < |x.threads| && x.threads[t].pc.WStamp? && x.threads[t].hit.Some?
      ensures x.threads[t].slot < |x.cache| && x.cache[x.threads[t].slot].name == Whole(x.threads[t].uri)
    {
      assert PendingOwn(x, x.threads[t]);
    }
  }
}
