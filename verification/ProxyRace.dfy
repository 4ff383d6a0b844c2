/** When interleavings keep the names in the cache distinct. The lookup and the
    insertion are separate critical sections, so two requests for one page can
    both miss and both insert it; requests for different pages cannot. */
module ProxyRace {
  import opened Collections
  import opened ProxyLock
  import opened ProxySizes

  /** n steps of thread t in a row. */
  function Alone(s: State, t: nat, fetched: Option<string>, n: nat): State {
    if n == 0 then s else Step(Alone(s, t, fetched, n - 1), t, fetched)
  }

  function Turns(t: nat, fetched: Option<string>, n: nat): Schedule {
    seq(n, _ => (t, fetched))
  }

  lemma {:induction false} ExecTurns(s: State, schedule: Schedule, t: nat, fetched: Option<string>, n: nat)
    ensures Exec(s, schedule + Turns(t, fetched, n)) == Alone(Exec(s, schedule), t, fetched, n)
  {
    hide Step;
    if n == 0 {
      assert schedule + Turns(t, fetched, 0) == schedule;
    } else {
      var all := schedule + Turns(t, fetched, n);
      assert all[..|all| - 1] == schedule + Turns(t, fetched, n - 1);
      ExecTurns(s, schedule, t, fetched, n - 1);
    }
  }

  /** The locks are free and thread t is at the given point. */
  ghost predicate FreeAt(s: State, t: nat, pc: PC) {
    t < |s.threads| && s.threads[t].pc == pc && s.mutex == 1 && s.w == 1 && s.readcnt == 0 && |s.cache| == LINES
  }

  lemma EnterAlone(s: State, t: nat, f: Option<string>)
    requires FreeAt(s, t, RLock)
    ensures Alone(s, t, f, 4) == Set(s, t, s.threads[t].(pc := RScan, i := 0, hit := None))
                                 .(w := 0, readcnt := 1, readersHold := true, holder := None)
  {
    hide WriterStep, DecideStep;
    var th := s.threads[t];
    var s1 := Set(s, t, th.(pc := RCount)).(mutex := 0, holder := Some(t));
    var s2 := Set(s, t, th.(pc := RFirst)).(mutex := 0, holder := Some(t), readcnt := 1);
    var s3 := Set(s, t, th.(pc := RUnlock)).(mutex := 0, holder := Some(t), readcnt := 1, w := 0, readersHold := true);
    assert Step(s, t, f) == s1;
    assert Step(s1, t, f) == s2;
    assert Step(s2, t, f) == s3;
    var s4 := Step(s3, t, f);
    hide Step;
    AloneStep(s, t, f, 0); AloneStep(s, t, f, 1); AloneStep(s, t, f, 2); AloneStep(s, t, f, 3);
  }

  lemma AloneStep(s: State, t: nat, f: Option<string>, n: nat)
    ensures Alone(s, t, f, 0) == s && Alone(s, t, f, n + 1) == Step(Alone(s, t, f, n), t, f)
  {
    hide Step;
  }

  lemma LeaveScan(s: State, t: nat, f: Option<string>)
    requires t < |s.threads| && s.threads[t].pc == RScan && s.threads[t].i >= s.usedcnt && s.mutex == 1
    ensures Alone(s, t, f, 3) == Set(s, t, s.threads[t].(pc := RLast))
                                 .(mutex := 0, holder := Some(t), readcnt := s.readcnt - 1)
  {
    hide WriterStep, DecideStep;
    var th := s.threads[t];
    var s1 := Set(s, t, th.(pc := RLock2));
    var s2 := Set(s, t, th.(pc := RUncount)).(mutex := 0, holder := Some(t));
    assert Step(s, t, f) == s1;
    assert Step(s1, t, f) == s2;
    var s3 := Step(s2, t, f);
    hide Step;
    AloneStep(s, t, f, 0); AloneStep(s, t, f, 1); AloneStep(s, t, f, 2);
  }

  lemma LeaveLast(s: State, t: nat, page: string)
    requires t < |s.threads| && s.threads[t].pc == RLast && s.threads[t].hit == None && s.readcnt == 0
    ensures Alone(s, t, Some(page), 3) == Set(s, t, s.threads[t].(pc := WLock, buf := page))
                                          .(mutex := s.mutex + 1, holder := None, w := s.w + 1, readersHold := false)
  {
    hide WriterStep;
    var f, th := Some(page), s.threads[t];
    var s1 := Set(s, t, th.(pc := RUnlock2)).(w := s.w + 1, readersHold := false);
    var s2 := Set(s, t, th.(pc := Decide)).(w := s.w + 1, readersHold := false, mutex := s.mutex + 1, holder := None);
    assert Step(s, t, f) == s1;
    assert Step(s1, t, f) == s2;
    var s3 := Step(s2, t, f);
    hide Step;
    AloneStep(s, t, f, 0); AloneStep(s, t, f, 1); AloneStep(s, t, f, 2);
  }

  lemma BranchAlone(s: State, t: nat, f: Option<string>)
    requires t < |s.threads| && s.threads[t].pc == WLock && s.w == 1 && |s.cache| == LINES
    requires s.threads[t].hit == None && s.usedcnt < LINES
    ensures var th := s.threads[t].(slot := s.usedcnt, appending := true);
            Alone(s, t, f, 3) == Set(s, t, th.(pc := WName1))
              .(w := 0, owner := Some(t), cache := s.cache[s.usedcnt := s.cache[s.usedcnt].(name := Partial)])
  {
    hide ReaderStep, DecideStep;
    var th := s.threads[t].(slot := s.usedcnt, appending := true);
    var e := s.(w := 0, owner := Some(t));
    var s1 := Set(e, t, s.threads[t].(pc := WBranch));
    var s2 := Set(e, t, th.(pc := WName0));
    assert Step(s, t, f) == s1;
    assert Step(s1, t, f) == s2;
    var s3 := Step(s2, t, f);
    hide Step;
    AloneStep(s, t, f, 0); AloneStep(s, t, f, 1); AloneStep(s, t, f, 2);
  }

  lemma CopyAlone(s: State, t: nat, f: Option<string>)
    requires t < |s.threads| && s.threads[t].pc == WName1 && s.threads[t].slot < |s.cache|
    ensures var th := s.threads[t];
            Alone(s, t, f, 3) == Set(s, t, th.(pc := WStamp))
              .(stored := s.stored + {(th.uri, th.buf)},
                cache := s.cache[th.slot := Slot(Whole(th.uri), Whole(th.buf), s.cache[th.slot].timestamp)])
  {
    hide ReaderStep, DecideStep;
    var th := s.threads[t];
    var c := s.cache[th.slot];
    var s1 := Set(s, t, th.(pc := WPayload0)).(cache := s.cache[th.slot := c.(name := Whole(th.uri))]);
    var s2 := Set(s, t, th.(pc := WPayload1)).(cache := s.cache[th.slot := Slot(Whole(th.uri), Partial, c.timestamp)]);
    assert Step(s, t, f) == s1;
    assert Step(s1, t, f) == s2;
    var s3 := Step(s2, t, f);
    assert s3.cache == s.cache[th.slot := Slot(Whole(th.uri), Whole(th.buf), c.timestamp)];
    hide Step;
    AloneStep(s, t, f, 0); AloneStep(s, t, f, 1); AloneStep(s, t, f, 2);
  }

  lemma StampAlone(s: State, t: nat, f: Option<string>)
    requires t < |s.threads| && s.threads[t].pc == WStamp && s.threads[t].appending && s.threads[t].slot < |s.cache|
    ensures var n := s.threads[t].slot;
            Alone(s, t, f, 2) == Set(s, t, s.threads[t].(pc := WTick))
              .(cache := s.cache[n := s.cache[n].(timestamp := s.gtime)], usedcnt := s.usedcnt + 1)
  {
    hide ReaderStep, DecideStep;
    var th := s.threads[t];
    var s1 := Set(s, t, th.(pc := WUsed)).(cache := s.cache[th.slot := s.cache[th.slot].(timestamp := s.gtime)]);
    assert Step(s, t, f) == s1;
    var s2 := Step(s1, t, f);
    hide Step;
    AloneStep(s, t, f, 0); AloneStep(s, t, f, 1);
  }

  lemma TickAlone(s: State, t: nat, f: Option<string>)
    requires t < |s.threads| && s.threads[t].pc == WTick
    ensures Alone(s, t, f, 2) == Set(s, t, s.threads[t].(pc := Finished))
                                 .(gtime := s.gtime + 1, w := s.w + 1, owner := None)
  {
    hide ReaderStep, DecideStep;
    var s1 := Set(s, t, s.threads[t].(pc := WUnlock)).(gtime := s.gtime + 1);
    assert Step(s, t, f) == s1;
    var s2 := Step(s1, t, f);
    hide Step;
    AloneStep(s, t, f, 0); AloneStep(s, t, f, 1);
  }

  lemma {:induction false} AloneSplit(s: State, t: nat, f: Option<string>, a: nat, b: nat)
    ensures Alone(Alone(s, t, f, a), t, f, b) == Alone(s, t, f, a + b)
  {
    hide Step;
    if b > 0 { AloneSplit(s, t, f, a, b - 1); }
  }

  /** A lookup in an empty cache that meets nobody ends at the door of `writer`. */
  lemma MissAlone(s: State, t: nat, page: string)
    requires FreeAt(s, t, RLock) && s.usedcnt == 0
    ensures var s' := Alone(s, t, Some(page), 10);
            && FreeAt(s', t, WLock) && SameData(s, s') && Moved(s, s', t)
            && s'.threads[t].uri == s.threads[t].uri && s'.threads[t].hit == None
  {
    hide Alone;
    var f := Some(page);
    EnterAlone(s, t, f);
    var a := Alone(s, t, f, 4);
    LeaveScan(a, t, f);
    var b := Alone(a, t, f, 3);
    LeaveLast(b, t, page);
    AloneSplit(a, t, f, 3, 3);
    AloneSplit(s, t, f, 4, 6);
  }

  /** An insertion that meets nobody appends its pair. */
  lemma AppendAlone(s: State, t: nat, f: Option<string>)
    requires FreeAt(s, t, WLock) && s.threads[t].hit == None && s.usedcnt < LINES
    ensures var s' := Alone(s, t, f, 10);
            && s'.usedcnt == s.usedcnt + 1 && |s'.cache| == LINES
            && s'.cache[s.usedcnt].name == Whole(s.threads[t].uri)
            && (forall i :: 0 <= i < LINES && i != s.usedcnt ==> s'.cache[i] == s.cache[i])
            && s'.mutex == s.mutex && s'.w == 1 && s'.readcnt == s.readcnt && s'.owner == None
            && s'.cache[s.usedcnt].timestamp == s.gtime && s'.gtime == s.gtime + 1
            && Moved(s, s', t) && s'.threads[t].pc == Finished && s'.threads[t].uri == s.threads[t].uri
  {
    hide Alone;
    BranchAlone(s, t, f);
    var a := Alone(s, t, f, 3);
    CopyAlone(a, t, f);
    var b := Alone(a, t, f, 3);
    StampAlone(b, t, f);
    var c := Alone(b, t, f, 2);
    TickAlone(c, t, f);
    AloneSplit(b, t, f, 2, 2);
    AloneSplit(a, t, f, 3, 4);
    AloneSplit(s, t, f, 3, 7);
  }

  // ---- the interleaving that inserts one name twice ----

  /** Two requests for one page, by any two threads, can both miss and both
      insert it: they look up one after the other, and then insert. */
  function BothMiss(t: nat, u: nat, page: string): Schedule {
    var f := Some(page);
    Turns(t, f, 10) + Turns(u, f, 10) + Turns(t, f, 10) + Turns(u, f, 10)
  }

  /** After that interleaving the cache holds the name twice, on two finished lines. */
  lemma NamesNeedNotBeDistinct(s: State, t: nat, u: nat, page: string)
    requires Init(s) && t < |s.threads| && u < |s.threads| && t != u && s.threads[t].uri == s.threads[u].uri
    ensures var x := Exec(s, BothMiss(t, u, page));
            && x.usedcnt == 2 && |x.cache| == LINES && x.owner == None
            && x.cache[0].name == x.cache[1].name == Whole(s.threads[t].uri)
  {
    hide Alone, Turns, Step;
    var f := Some(page);
    var a := Turns(t, f, 10);
    var b := a + Turns(u, f, 10);
    var c := b + Turns(t, f, 10);
    assert a == [] + a;
    ExecTurns(s, [], t, f, 10);
    ExecTurns(s, a, u, f, 10);
    ExecTurns(s, b, t, f, 10);
    ExecTurns(s, c, u, f, 10);
    var x1 := Alone(s, t, f, 10);
    var x2 := Alone(x1, u, f, 10);
    var x3 := Alone(x2, t, f, 10);
    assert Exec(s, []) == s;
    hide Exec;
    MissAlone(s, t, page);
    MissAlone(x1, u, page);
    AppendAlone(x2, t, f);
    AppendAlone(x3, u, f);
  }

  // ---- when the names stay distinct ----

  /** No two used lines hold the same name, the line being copied to aside. */
  ghost predicate DistinctNames(s: State) {
    forall i, j :: 0 <= i < j < s.usedcnt && j < |s.cache| && !Excused(s, i) && !Excused(s, j)
      ==> s.cache[i].name != s.cache[j].name
  }

  ghost predicate DistinctUris(s: State) {
    forall t, u :: 0 <= t < u < |s.threads| ==> s.threads[t].uri != s.threads[u].uri
  }

  /** The thread has not finished copying its name to a line. */
  predicate Unnamed(pc: PC) {
    InReader(pc) || pc.Decide? || pc.WLock? || pc.WBranch? || pc.WScan? || pc.WName0? || pc.WName1?
  }

  /** The thread has copied its name to the next unused line, not yet in use. */
  predicate Appended(th: Thread) {
    th.appending && (th.pc.WPayload0? || th.pc.WPayload1? || th.pc.WStamp? || th.pc.WUsed?)
  }

  /** No used line has the name. */
  ghost predicate Absent(s: State, uri: string) {
    forall i :: 0 <= i < s.usedcnt && i < |s.cache| ==> s.cache[i].name != Whole(uri)
  }

  ghost predicate ThreadNames(s: State, th: Thread) {
    && (Unnamed(th.pc) ==> Absent(s, th.uri))
    && (Appended(th) ==> Absent(s, th.uri) && th.slot == s.usedcnt < |s.cache|
                         && s.cache[th.slot].name == Whole(th.uri))
  }

  ghost predicate WholeDistinct(s: State) {
    forall i, j :: 0 <= i < j < s.usedcnt && j < |s.cache| && s.cache[i].name.Whole?
      ==> s.cache[i].name != s.cache[j].name
  }

  ghost predicate Names(s: State) {
    WholeDistinct(s) && forall t :: 0 <= t < |s.threads| ==> ThreadNames(s, s.threads[t])
  }

  /** Thread t moved on, with its request. */
  ghost predicate MovedOn(s: State, s': State, t: nat) {
    Moved(s, s', t) && s'.threads[t].uri == s.threads[t].uri
  }

  /** A step that leaves names and lines in use alone. */
  lemma QuietNames(s: State, s': State, t: nat)
    requires Names(s) && MovedOn(s, s', t) && s'.usedcnt == s.usedcnt && |s'.cache| == |s.cache|
    requires forall i :: 0 <= i < |s.cache| ==> s'.cache[i].name == s.cache[i].name
    requires Unnamed(s'.threads[t].pc) ==> Unnamed(s.threads[t].pc)
    requires Appended(s'.threads[t]) ==> Appended(s.threads[t]) && s'.threads[t].slot == s.threads[t].slot
    ensures Names(s')
  {
    forall u | 0 <= u < |s'.threads| ensures ThreadNames(s', s'.threads[u]) {
      assert ThreadNames(s, s.threads[u]);
    }
  }

  lemma ReaderNames(s: State, t: nat)
    requires Names(s) && t < |s.threads| && Enabled(s, t) && InReader(s.threads[t].pc)
    ensures Names(ReaderStep(s, t)) && MovedOn(s, ReaderStep(s, t), t)
  {
    hide Names, ReaderStep;
    ReaderShape(s, t);
    ReaderEnds(s, t);
    QuietNames(s, ReaderStep(s, t), t);
  }

  lemma ReaderEnds(s: State, t: nat)
    requires t < |s.threads| && Enabled(s, t) && InReader(s.threads[t].pc)
    ensures Unnamed(ReaderStep(s, t).threads[t].pc) && !Appended(ReaderStep(s, t).threads[t])
  {
  }

  lemma DecideNames(s: State, t: nat, fetched: Option<string>)
    requires Names(s) && t < |s.threads| && s.threads[t].pc.Decide?
    ensures Names(DecideStep(s, t, fetched)) && MovedOn(s, DecideStep(s, t, fetched), t)
  {
    hide Names;
    QuietNames(s, DecideStep(s, t, fetched), t);
  }

  lemma UpdateNames(s: State, t: nat)
    requires Names(s) && t < |s.threads| && Enabled(s, t) && |s.cache| == LINES
    requires s.threads[t].pc in {WLock, WBranch, WScan, WTick, WUnlock}
    ensures Names(WriterStep(s, t)) && MovedOn(s, WriterStep(s, t), t)
  {
    hide Names, StoreStep;
    QuietNames(s, WriterStep(s, t), t);
  }

  /** The other threads are outside while thread t writes: it is enough that
      no name that one of them still has to copy appears on a line. */
  lemma OthersNames(s: State, s': State, t: nat)
    requires Locks(s) && Names(s) && MovedOn(s, s', t) && Writing(s.threads[t].pc)
    requires WholeDistinct(s') && ThreadNames(s', s'.threads[t])
    requires forall u :: 0 <= u < |s.threads| && u != t && Absent(s, s.threads[u].uri) ==> Absent(s', s.threads[u].uri)
    ensures Names(s')
  {
    forall u | 0 <= u < |s'.threads| ensures ThreadNames(s', s'.threads[u]) {
      assert ThreadNames(s, s.threads[u]) && ThreadLocks(s, t) && ThreadLocks(s, u);
    }
  }

  /** Copying the name: it was on no used line, and no other thread has it. */
  lemma CopyNames(s: State, t: nat)
    requires Locks(s) && Data(s) && Names(s) && DistinctUris(s) && t < |s.threads|
    requires s.threads[t].pc in {WName0, WName1}
    ensures Names(WriterStep(s, t)) && MovedOn(s, WriterStep(s, t), t)
  {
    WriterFacts(s, t);
    assert ThreadNames(s, s.threads[t]);
    hide Locks, Data;
    var s' := WriterStep(s, t);
    OthersNames(s, s', t);
  }

  /** The steps after the name leave all names as they are. */
  lemma CopyRestShape(s: State, t: nat)
    requires t < |s.threads| && s.threads[t].slot < |s.cache| && s.threads[t].pc in {WPayload0, WPayload1, WStamp}
    ensures var s' := StoreStep(s, t);
            && MovedOn(s, s', t) && s'.usedcnt == s.usedcnt && |s'.cache| == |s.cache|
            && !Unnamed(s'.threads[t].pc)
            && s'.threads[t].slot == s.threads[t].slot && s'.threads[t].appending == s.threads[t].appending
            && forall i :: 0 <= i < |s.cache| ==> s'.cache[i].name == s.cache[i].name
  {
  }

  lemma CopyRestNames(s: State, t: nat)
    requires Locks(s) && Data(s) && Names(s) && t < |s.threads|
    requires s.threads[t].pc in {WPayload0, WPayload1, WStamp}
    ensures Names(WriterStep(s, t)) && MovedOn(s, WriterStep(s, t), t)
  {
    DataFacts(s, t);
    hide Locks, Data, Names, StoreStep;
    CopyRestShape(s, t);
    QuietNames(s, StoreStep(s, t), t);
  }

  /** A new line comes into use: its name is on no other. */
  lemma UseNames(s: State, t: nat)
    requires Locks(s) && Data(s) && Names(s) && DistinctUris(s) && t < |s.threads| && s.threads[t].pc.WUsed?
    ensures Names(WriterStep(s, t)) && MovedOn(s, WriterStep(s, t), t)
  {
    WriterFacts(s, t);
    assert ThreadNames(s, s.threads[t]);
    hide Locks, Data;
    OthersNames(s, WriterStep(s, t), t);
  }

  lemma StepNames(s: State, t: nat, fetched: Option<string>)
    requires Locks(s) && Data(s) && Names(s) && DistinctUris(s)
    ensures Names(Step(s, t, fetched)) && DistinctUris(Step(s, t, fetched))
  {
    hide Locks, Data, Names, ReaderStep, WriterStep, DecideStep;
    if t < |s.threads| && Enabled(s, t) {
      DataFacts(s, t);
      match s.threads[t].pc
      case Decide => DecideNames(s, t, fetched);
      case WLock | WBranch | WScan | WTick | WUnlock => UpdateNames(s, t);
      case WName0 | WName1 => CopyNames(s, t);
      case WPayload0 | WPayload1 | WStamp => CopyRestNames(s, t);
      case WUsed => UseNames(s, t);
      case _ => ReaderNames(s, t);
    }
  }

  lemma {:induction false} ExecNames(s: State, schedule: Schedule)
    requires Init(s) && DistinctUris(s)
    ensures Names(Exec(s, schedule)) && DistinctUris(Exec(s, schedule))
  {
    hide Locks, Data, Step;
    if schedule != [] {
      var before, last := schedule[..|schedule| - 1], schedule[|schedule| - 1];
      hide Names, DistinctUris, Init;
      ExecNames(s, before);
      ExecSafe(s, before);
      StepNames(Exec(s, before), last.0, last.1);
    }
  }

  lemma NamesAreDistinct(s: State)
    requires Names(s) && Lines(s)
    ensures DistinctNames(s)
  {
  }

  /** Names stay distinct in every interleaving exactly when no two requests are
      for the same name. */
  lemma NamesDistinctExactlyWhen(s: State)
    requires Init(s)
    ensures (forall schedule: Schedule :: DistinctNames(Exec(s, schedule))) <==> DistinctUris(s)
  {
    hide Exec, Init, Names, Lines, DistinctNames;
    if DistinctUris(s) {
      forall schedule: Schedule ensures DistinctNames(Exec(s, schedule)) {
        ExecNames(s, schedule);
        ExecSafe(s, schedule);
        NamesAreDistinct(Exec(s, schedule));
      }
    } else {
      var t, u :| 0 <= t < u < |s.threads| && s.threads[t].uri == s.threads[u].uri;
      NamesNeedNotBeDistinct(s, t, u, "");
      var x := Exec(s, BothMiss(t, u, ""));
      SameNameTwice(x);
    }
  }

  lemma SameNameTwice(s: State)
    requires s.usedcnt == 2 && |s.cache| == LINES && s.owner == None && s.cache[0].name == s.cache[1].name
    ensures !DistinctNames(s)
  {
    assert !Excused(s, 0) && !Excused(s, 1);
  }
}
