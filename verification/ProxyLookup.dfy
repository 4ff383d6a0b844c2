/** The lookup under concurrency finds a stored name wherever it is, and misses
    only a name that is on no line; and what a miss stores is what it fetched. */
module ProxyLookup {
  import opened Collections
  import opened ProxyLock
  import opened ProxyRace
  import opened ProxySizes
  import opened ProxyTouch

  /** No used line before n has the name. */
  ghost predicate AbsentBefore(s: State, uri: string, n: nat) {
    forall i :: 0 <= i < n && i < s.usedcnt && i < |s.cache| ==> s.cache[i].name != Whole(uri)
  }

  /** The lookup has no result yet. */
  predicate Searching(pc: PC) {
    pc.RLock? || pc.RCount? || pc.RFirst? || pc.RUnlock? || pc.RScan? || pc.RSend?
  }

  /** What a thread between the lines and the end of its section knows; and a
      hit has been sent, then and later. */
  ghost predicate Searched(s: State, th: Thread) {
    && (th.sent.Some? <==> th.hit.Some?)
    && (Searching(th.pc) ==> th.hit == None)
    && (th.pc.RScan? ==> AbsentBefore(s, th.uri, th.i))
    && (th.pc.RLock2? || th.pc.RUncount? ==>
          if th.hit.Some? then th.hit.value < s.usedcnt && th.hit.value < |s.cache|
                               && s.cache[th.hit.value].name == Whole(th.uri)
                               && th.sent == Some(s.cache[th.hit.value].payload)
          else Absent(s, th.uri))
  }

  ghost predicate AllSearched(s: State) {
    forall t :: 0 <= t < |s.threads| ==> Searched(s, s.threads[t])
  }

  lemma ScanSearched(s: State, t: nat)
    requires Lines(s) && t < |s.threads| && s.threads[t].pc.RScan? && Searched(s, s.threads[t])
    ensures Searched(ReaderStep(s, t), ReaderStep(s, t).threads[t])
  {
  }

  lemma SendSearched(s: State, t: nat)
    requires t < |s.threads| && s.threads[t].pc.RSend? && ThreadData(s, s.threads[t])
    ensures Searched(ReaderStep(s, t), ReaderStep(s, t).threads[t])
  {
  }

  lemma LineSearched(s: State, t: nat)
    requires t < |s.threads| && Enabled(s, t) && InReader(s.threads[t].pc) && Searched(s, s.threads[t])
    requires !s.threads[t].pc.RScan? && !s.threads[t].pc.RSend?
    ensures Searched(ReaderStep(s, t), ReaderStep(s, t).threads[t])
  {
  }

  lemma ReaderSearched(s: State, t: nat)
    requires Data(s) && AllSearched(s) && t < |s.threads| && Enabled(s, t) && InReader(s.threads[t].pc)
    ensures AllSearched(ReaderStep(s, t))
  {
    assert ThreadData(s, s.threads[t]) && Searched(s, s.threads[t]) && Lines(s);
    hide Data, ReaderStep, Lines, ThreadData;
    ReaderShape(s, t);
    if s.threads[t].pc.RScan? { ScanSearched(s, t); }
    else if s.threads[t].pc.RSend? { SendSearched(s, t); }
    else { LineSearched(s, t); }
    forall u | 0 <= u < |s.threads| && u != t
      ensures Searched(ReaderStep(s, t), s.threads[u])
    {
      assert Searched(s, s.threads[u]);
    }
  }

  ghost predicate SameAnswer(s: State, s': State, t: nat) {
    Moved(s, s', t) && s'.threads[t].hit == s.threads[t].hit && s'.threads[t].sent == s.threads[t].sent
  }

  lemma StoreAnswers(s: State, t: nat)
    requires t < |s.threads| && s.threads[t].slot < |s.cache|
    ensures SameAnswer(s, StoreStep(s, t), t)
    ensures !InReader(s.threads[t].pc) ==> !InReader(StoreStep(s, t).threads[t].pc)
  {
  }

  /** Outside the lookup only the writer changes lines, and it meets no reader. */
  lemma OtherSearched(s: State, s': State, t: nat)
    requires Locks(s) && AllSearched(s) && SameAnswer(s, s', t)
    requires !InReader(s.threads[t].pc) && !InReader(s'.threads[t].pc)
    requires Writing(s.threads[t].pc) || (s'.cache == s.cache && s'.usedcnt == s.usedcnt)
    ensures AllSearched(s')
  {
    forall u | 0 <= u < |s.threads| ensures Searched(s', s'.threads[u]) {
      assert Searched(s, s.threads[u]);
      if u != t && Writing(s.threads[t].pc) && Reading(s.threads[u].pc) { ReadersExcludeWriter(s, u); }
    }
  }

  lemma WriterOutside(s: State, t: nat)
    requires t < |s.threads| && Enabled(s, t) && !InReader(s.threads[t].pc)
    ensures !InReader(WriterStep(s, t).threads[t].pc) && SameAnswer(s, WriterStep(s, t), t)
    ensures s.threads[t].pc.WLock? ==> WriterStep(s, t).cache == s.cache && WriterStep(s, t).usedcnt == s.usedcnt
  {
    hide StoreStep;
    if s.threads[t].slot < |s.cache| { StoreAnswers(s, t); }
  }

  lemma StepSearched(s: State, t: nat, fetched: Option<string>)
    requires Locks(s) && Data(s) && AllSearched(s)
    ensures AllSearched(Step(s, t, fetched))
  {
    hide Locks, Data, AllSearched, ReaderStep, WriterStep;
    if t < |s.threads| && Enabled(s, t) {
      if InReader(s.threads[t].pc) {
        ReaderSearched(s, t);
      } else if s.threads[t].pc.Decide? {
        OtherSearched(s, Step(s, t, fetched), t);
      } else {
        WriterOutside(s, t);
        OtherSearched(s, Step(s, t, fetched), t);
      }
    }
  }

  lemma {:induction false} ExecSearched(s: State, schedule: Schedule)
    requires Init(s)
    ensures AllSearched(Exec(s, schedule))
  {
    hide Locks, Data, Step;
    if schedule != [] {
      var before, last := schedule[..|schedule| - 1], schedule[|schedule| - 1];
      hide Init, AllSearched;
      ExecSearched(s, before);
      ExecSafe(s, before);
      StepSearched(Exec(s, before), last.0, last.1);
    }
  }

  /** In every interleaving, when a lookup is over and its thread still counted
      as a reader, it has found its name exactly when some used line holds it; a
      hit names such a line, and its payload has been sent. At no time has a
      thread sent anything without a hit, or a hit without sending. */
  lemma LookupFindsExactly(s: State, schedule: Schedule, t: nat)
    requires Init(s)
    ensures var x := Exec(s, schedule);
            t < |x.threads| && (x.threads[t].pc.RLock2? || x.threads[t].pc.RUncount?) ==>
              var th := x.threads[t];
              && (th.hit == None <==> Absent(x, th.uri))
              && (th.hit.Some? ==> th.hit.value < |x.cache| && x.cache[th.hit.value].name == Whole(th.uri)
                                   && th.sent == Some(x.cache[th.hit.value].payload))
    ensures var x := Exec(s, schedule);
            t < |x.threads| ==> (x.threads[t].sent.Some? <==> x.threads[t].hit.Some?)
  {
    hide Exec, Init;
    ExecSearched(s, schedule);
    var x := Exec(s, schedule);
    if t < |x.threads| { assert Searched(x, x.threads[t]); }
  }

  // ---- what is stored was fetched ----

  /** The schedule let thread t fetch the page. */
  ghost predicate Fetched(schedule: Schedule, t: nat, page: string) {
    exists k :: 0 <= k < |schedule| && schedule[k] == (t, Some(page))
  }

  /** A thread that is going to insert a page has missed, and fetched the page. */
  ghost predicate Bought(schedule: Schedule, t: nat, th: Thread) {
    && (Inserting(th.pc) ==> th.hit == None)
    && ((th.pc.WLock? || th.pc.WBranch? || Inserting(th.pc)) && th.hit == None ==> Fetched(schedule, t, th.buf))
  }

  ghost predicate AllBought(schedule: Schedule, s: State) {
    forall t :: 0 <= t < |s.threads| ==> Bought(schedule, t, s.threads[t])
  }

  lemma StoreBuys(s: State, t: nat)
    requires t < |s.threads| && s.threads[t].slot < |s.cache|
    ensures var th, th' := s.threads[t], StoreStep(s, t).threads[t];
            && th'.buf == th.buf && th'.hit == th.hit
            && (th'.pc == th.pc || (!th'.pc.WLock? && !th'.pc.WBranch? && (Inserting(th'.pc) ==> Inserting(th.pc))))
  {
  }

  lemma WriterBuys(s: State, t: nat)
    requires t < |s.threads| && Enabled(s, t) && !InReader(s.threads[t].pc) && !s.threads[t].pc.Decide?
    ensures var th, th' := s.threads[t], WriterStep(s, t).threads[t];
            && th'.buf == th.buf && th'.hit == th.hit
            && (th'.pc.WLock? ==> th.pc.WLock?) && (th'.pc.WBranch? ==> th.pc.WLock? || th.pc.WBranch?)
            && (Inserting(th'.pc) ==> Inserting(th.pc) || (th.pc.WBranch? && th.hit == None))
  {
    hide StoreStep;
    if s.threads[t].slot < |s.cache| { StoreBuys(s, t); }
  }

  /** A lookup does not lead into the update, except through its end. */
  lemma ReaderStays(s: State, t: nat)
    requires t < |s.threads| && Enabled(s, t) && InReader(s.threads[t].pc)
    ensures var pc := ReaderStep(s, t).threads[t].pc; InReader(pc) || pc.Decide?
  {
  }

  lemma StepBought(schedule: Schedule, s: State, t: nat, fetched: Option<string>)
    requires AllBought(schedule, s)
    ensures AllBought(schedule + [(t, fetched)], Step(s, t, fetched))
  {
    hide ReaderStep, WriterStep, Fetched;
    OutOfRange(s, t, fetched);
    var s', longer := Step(s, t, fetched), schedule + [(t, fetched)];
    if t < |s.threads| {
      StepKeeps(s, t, fetched);
      if Enabled(s, t) {
        if InReader(s.threads[t].pc) { ReaderStays(s, t); }
        else if !s.threads[t].pc.Decide? { WriterBuys(s, t); }
      }
    }
    forall u | 0 <= u < |s'.threads| ensures Bought(longer, u, s'.threads[u]) {
      assert Bought(schedule, u, s.threads[u]);
      if Fetched(schedule, u, s.threads[u].buf) { StillFetched(schedule, (t, fetched), u, s.threads[u].buf); }
      if u == t && fetched.Some? { FetchedNow(schedule, t, fetched.value); }
    }
  }

  lemma StillFetched(schedule: Schedule, last: (nat, Option<string>), t: nat, page: string)
    requires Fetched(schedule, t, page)
    ensures Fetched(schedule + [last], t, page)
  {
    var k :| 0 <= k < |schedule| && schedule[k] == (t, Some(page));
    assert (schedule + [last])[k] == schedule[k];
  }

  lemma FetchedNow(schedule: Schedule, t: nat, page: string)
    ensures Fetched(schedule + [(t, Some(page))], t, page)
  {
    assert (schedule + [(t, Some(page))])[|schedule|] == (t, Some(page));
  }

  /** Every stored pair was fetched in the schedule, by a request for its name. */
  ghost predicate AllFetched(s: State, schedule: Schedule, x: State) {
    forall pair :: pair in x.stored ==> Wanted(s, schedule, pair)
  }

  ghost predicate Wanted(s: State, schedule: Schedule, pair: (string, string)) {
    exists t :: 0 <= t < |s.threads| && s.threads[t].uri == pair.0 && Fetched(schedule, t, pair.1)
  }

  lemma StillWanted(s: State, schedule: Schedule, last: (nat, Option<string>), pair: (string, string))
    requires Wanted(s, schedule, pair)
    ensures Wanted(s, schedule + [last], pair)
  {
    hide Fetched;
    var t :| 0 <= t < |s.threads| && s.threads[t].uri == pair.0 && Fetched(schedule, t, pair.1);
    StillFetched(schedule, last, t, pair.1);
  }

  lemma StepFetched(s: State, schedule: Schedule, x: State, t: nat, fetched: Option<string>)
    requires Locks(x) && Data(x) && SameRequests(s, x) && AllBought(schedule, x) && AllFetched(s, schedule, x)
    ensures AllFetched(s, schedule + [(t, fetched)], Step(x, t, fetched))
  {
    hide Locks, Data, Step, Fetched, Wanted;
    var longer := schedule + [(t, fetched)];
    forall pair | pair in Step(x, t, fetched).stored ensures Wanted(s, longer, pair) {
      if pair in x.stored {
        StillWanted(s, schedule, (t, fetched), pair);
      } else {
        StoredByOneCall(x, t, fetched, pair);
        assert Bought(schedule, t, x.threads[t]);
        StillFetched(schedule, (t, fetched), t, pair.1);
        NowWanted(s, longer, t, pair);
      }
    }
  }

  lemma NowWanted(s: State, schedule: Schedule, t: nat, pair: (string, string))
    requires t < |s.threads| && s.threads[t].uri == pair.0 && Fetched(schedule, t, pair.1)
    ensures Wanted(s, schedule, pair)
  {
    hide Fetched;
  }

  lemma {:induction false} ExecFetched(s: State, schedule: Schedule)
    requires Init(s)
    ensures AllBought(schedule, Exec(s, schedule)) && AllFetched(s, schedule, Exec(s, schedule))
  {
    hide Locks, Data, Step;
    if schedule != [] {
      var before, last := schedule[..|schedule| - 1], schedule[|schedule| - 1];
      assert schedule == before + [last];
      hide Init, AllBought, AllFetched;
      ExecFetched(s, before);
      ExecSafe(s, before);
      ExecKeeps(s, before);
      StepBought(before, Exec(s, before), last.0, last.1);
      StepFetched(s, before, Exec(s, before), last.0, last.1);
    }
  }

  /** In every interleaving, what a hit sends is whole and was fetched, earlier
      in the schedule, by a request for the same name. */
  lemma SentWasFetched(s: State, schedule: Schedule, t: nat)
    requires Init(s)
    ensures var x := Exec(s, schedule);
            t < |x.threads| && x.threads[t].sent.Some? ==>
              && x.threads[t].sent.value.Whole?
              && exists u :: 0 <= u < |s.threads| && s.threads[u].uri == x.threads[t].uri
                             && Fetched(schedule, u, x.threads[t].sent.value.text)
  {
    hide Exec, Init, Fetched;
    NoTornReads(s, schedule, t);
    ExecFetched(s, schedule);
    var x := Exec(s, schedule);
    if t < |x.threads| && x.threads[t].sent.Some? {
      assert Wanted(s, schedule, (x.threads[t].uri, x.threads[t].sent.value.text));
    }
  }

  // ---- what a stamp does ----

  /** A stamp, of a touched or an inserted line, makes that line the most recent
      of those in use, and leaves names and payloads alone. */
  lemma StampIsNewest(s: State, t: nat, fetched: Option<string>)
    requires Locks(s) && Data(s) && t < |s.threads| && s.threads[t].pc.WStamp?
    ensures var s', slot := Step(s, t, fetched), s.threads[t].slot;
            && slot < |s'.cache| == |s.cache| && s'.usedcnt == s.usedcnt
            && (forall i :: 0 <= i < s.usedcnt && i != slot ==> s'.cache[i].timestamp < s'.cache[slot].timestamp)
            && (forall i :: 0 <= i < |s.cache| && i != slot ==> s'.cache[i] == s.cache[i])
            && s'.cache[slot].name == s.cache[slot].name && s'.cache[slot].payload == s.cache[slot].payload
  {
    WriterFacts(s, t);
    hide Locks, Data;
  }
}
