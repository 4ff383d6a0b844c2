/** The proxy cache under concurrency: any number of request threads, each
    running a lookup and then an update, interleaved one step at a time.

    `mutex` and `w` are the two semaphores. A string copy takes two steps, and
    the text is `Partial` in between. Three fields record history only:
    `holder` and `owner` name the thread that passed P(mutex) and the one that
    passed P(w) in `writer`, `readersHold` says that the readers as a group
    passed P(w), and `stored` collects the pairs that `writer` calls stored. */
module ProxyLock {
  import opened Collections
  import opened ProxySizes

  datatype Text = Partial | Whole(text: string)

  datatype Slot = Slot(name: Text, payload: Text, timestamp: int)

  // One constructor for each point at which a thread can be interrupted.
  datatype PC =
    | RLock | RCount | RFirst | RUnlock | RScan | RSend | RLock2 | RUncount | RLast | RUnlock2
    | Decide
    | WLock | WBranch | WScan | WName0 | WName1 | WPayload0 | WPayload1 | WStamp | WUsed | WTick | WUnlock
    | Finished

  /** A request thread. `i` is the loop counter, `hit` the result of the lookup,
      `slot` the line it updates, `lruT` the least timestamp of its scan. */
  datatype Thread = Thread(
    pc: PC, uri: string, buf: string, i: nat, hit: Option<nat>,
    slot: nat, appending: bool, lruT: int, sent: Option<Text>)

  datatype State = State(
    mutex: nat, w: nat, readcnt: int, usedcnt: nat, gtime: int,
    cache: seq<Slot>, threads: seq<Thread>,
    holder: Option<nat>, owner: Option<nat>, readersHold: bool, stored: set<(string, string)>)

  // ---- the steps ----

  /** A thread waits only at a P on a semaphore that is zero. */
  predicate Enabled(s: State, t: nat)
    requires t < |s.threads|
  {
    match s.threads[t].pc
    case RLock => s.mutex > 0
    case RFirst => s.readcnt != 1 || s.w > 0
    case RLock2 => s.mutex > 0
    case WLock => s.w > 0
    case Finished => false
    case _ => true
  }

  function Set(s: State, t: nat, th: Thread): State
    requires t < |s.threads|
  {
    s.(threads := s.threads[t := th])
  }

  /** The lookup, `reader`. */
  function ReaderStep(s: State, t: nat): State
    requires t < |s.threads| && Enabled(s, t)
  {
    var th := s.threads[t];
    match th.pc
    case RLock => Set(s, t, th.(pc := RCount)).(mutex := s.mutex - 1, holder := Some(t))
    case RCount => Set(s, t, th.(pc := RFirst)).(readcnt := s.readcnt + 1)
    case RFirst =>
      if s.readcnt == 1 then Set(s, t, th.(pc := RUnlock)).(w := s.w - 1, readersHold := true)
      else Set(s, t, th.(pc := RUnlock))
    case RUnlock => Set(s, t, th.(pc := RScan, i := 0, hit := None)).(mutex := s.mutex + 1, holder := None)
    case RScan =>
      if th.i >= s.usedcnt || th.i >= |s.cache| then Set(s, t, th.(pc := RLock2))
      else if s.cache[th.i].name == Whole(th.uri) then Set(s, t, th.(pc := RSend))
      else Set(s, t, th.(i := th.i + 1))
    case RSend =>
      if th.i < |s.cache| then
        Set(s, t, th.(pc := RLock2, hit := Some(th.i), sent := Some(s.cache[th.i].payload)))
      else s
    case RLock2 => Set(s, t, th.(pc := RUncount)).(mutex := s.mutex - 1, holder := Some(t))
    case RUncount => Set(s, t, th.(pc := RLast)).(readcnt := s.readcnt - 1)
    case RLast =>
      if s.readcnt == 0 then Set(s, t, th.(pc := RUnlock2)).(w := s.w + 1, readersHold := false)
      else Set(s, t, th.(pc := RUnlock2))
    case RUnlock2 => Set(s, t, th.(pc := Decide)).(mutex := s.mutex + 1, holder := None)
    case _ => s
  }

  /** The choice in `doit`: touch the line of a hit, insert a fetched page, or
      do nothing when the page is too large to keep (no page given). */
  function DecideStep(s: State, t: nat, fetched: Option<string>): State
    requires t < |s.threads|
  {
    var th := s.threads[t];
    if th.hit.Some? then Set(s, t, th.(pc := WLock))
    else if fetched.Some? then Set(s, t, th.(pc := WLock, buf := fetched.value))
    else Set(s, t, th.(pc := Finished))
  }

  /** The update, `writer`. */
  function WriterStep(s: State, t: nat): State
    requires t < |s.threads| && Enabled(s, t)
  {
    var th := s.threads[t];
    match th.pc
    case WLock => Set(s, t, th.(pc := WBranch)).(w := s.w - 1, owner := Some(t))
    case WBranch =>
      if th.hit.Some? then Set(s, t, th.(pc := WStamp, slot := th.hit.value, appending := false))
      else if s.usedcnt < LINES then Set(s, t, th.(pc := WName0, slot := s.usedcnt, appending := true))
      else if |s.cache| > 0 then
        Set(s, t, th.(pc := WScan, i := 1, slot := 0, appending := false, lruT := s.cache[0].timestamp))
      else s
    case WScan =>
      if th.i >= LINES || th.i >= |s.cache| then Set(s, t, th.(pc := WName0))
      else if s.cache[th.i].timestamp < th.lruT then
        Set(s, t, th.(i := th.i + 1, slot := th.i, lruT := s.cache[th.i].timestamp))
      else Set(s, t, th.(i := th.i + 1))
    case WTick => Set(s, t, th.(pc := WUnlock)).(gtime := s.gtime + 1)
    case WUnlock => Set(s, t, th.(pc := Finished)).(w := s.w + 1, owner := None)
    case _ => if th.slot < |s.cache| then StoreStep(s, t) else s
  }

  /** The writes to one line. */
  function StoreStep(s: State, t: nat): State
    requires t < |s.threads| && s.threads[t].slot < |s.cache|
  {
    var th := s.threads[t];
    var c := s.cache[th.slot];
    match th.pc
    case WName0 => Set(s, t, th.(pc := WName1)).(cache := s.cache[th.slot := c.(name := Partial)])
    case WName1 => Set(s, t, th.(pc := WPayload0)).(cache := s.cache[th.slot := c.(name := Whole(th.uri))])
    case WPayload0 => Set(s, t, th.(pc := WPayload1)).(cache := s.cache[th.slot := c.(payload := Partial)])
    case WPayload1 =>
      Set(s, t, th.(pc := WStamp)).(cache := s.cache[th.slot := c.(payload := Whole(th.buf))],
                                    stored := s.stored + {(th.uri, th.buf)})
    case WStamp =>
      Set(s, t, th.(pc := if th.appending then WUsed else WTick))
        .(cache := s.cache[th.slot := c.(timestamp := s.gtime)])
    case WUsed => Set(s, t, th.(pc := WTick)).(usedcnt := s.usedcnt + 1)
    case _ => s
  }

  predicate InReader(pc: PC) {
    pc.RLock? || pc.RCount? || pc.RFirst? || pc.RUnlock? || pc.RScan? || pc.RSend? || pc.RLock2?
    || pc.RUncount? || pc.RLast? || pc.RUnlock2?
  }

  /** Thread t takes its next step; a waiting or finished thread changes nothing. */
  function Step(s: State, t: nat, fetched: Option<string>): State {
    if t >= |s.threads| || !Enabled(s, t) then s
    else if InReader(s.threads[t].pc) then ReaderStep(s, t)
    else if s.threads[t].pc.Decide? then DecideStep(s, t, fetched)
    else WriterStep(s, t)
  }

  /** A schedule names the thread to step next, and the page it would fetch. */
  type Schedule = seq<(nat, Option<string>)>

  function Exec(s: State, schedule: Schedule): State {
    if schedule == [] then s
    else
      var last := schedule[|schedule| - 1];
      Step(Exec(s, schedule[..|schedule| - 1]), last.0, last.1)
  }

  /** The state after `initialize_cache`, with every thread about to start. */
  ghost predicate Init(s: State) {
    && s.mutex == 1 && s.w == 1 && s.readcnt == 0 && s.usedcnt == 0 && s.gtime == 0
    && |s.cache| == LINES
    && (forall t :: 0 <= t < |s.threads| ==>
          s.threads[t].pc == RLock && s.threads[t].hit == None && s.threads[t].sent == None)
    && s.holder == None && s.owner == None && !s.readersHold && s.stored == {}
  }

  // ---- who is where ----

  predicate Holding(pc: PC) {
    pc.RCount? || pc.RFirst? || pc.RUnlock? || pc.RUncount? || pc.RLast? || pc.RUnlock2?
  }

  predicate Reading(pc: PC) {
    pc.RUnlock? || pc.RScan? || pc.RSend? || pc.RLock2? || pc.RUncount?
  }

  predicate Writing(pc: PC) {
    pc.WBranch? || pc.WScan? || pc.WName0? || pc.WName1? || pc.WPayload0? || pc.WPayload1?
    || pc.WStamp? || pc.WUsed? || pc.WTick? || pc.WUnlock?
  }

  /** A thread is counted in readcnt from its increment to its decrement. */
  function Counted(th: Thread): int {
    if th.pc.RFirst? || Reading(th.pc) then 1 else 0
  }

  /** The semaphores: each is one or has exactly one holder, the readers
      sharing w. The readers hold w while any is counted, except that the first
      has still to take it and the last has still to give it back. */
  ghost predicate Locks(s: State) {
    && (forall t :: 0 <= t < |s.threads| ==> ThreadLocks(s, t))
    && s.mutex == (if s.holder == None then 1 else 0)
    && s.w == (if s.owner == None && !s.readersHold then 1 else 0)
    && !(s.owner.Some? && s.readersHold)
    && (s.holder.Some? ==> s.holder.value < |s.threads|)
    && (s.owner.Some? ==> s.owner.value < |s.threads|)
    && s.readcnt == SumBy(s.threads, Counted)
    && s.readersHold == GroupHolds(s)
  }

  ghost predicate ThreadLocks(s: State, t: nat)
    requires t < |s.threads|
  {
    (Holding(s.threads[t].pc) <==> s.holder == Some(t)) && (Writing(s.threads[t].pc) <==> s.owner == Some(t))
  }

  ghost predicate GroupHolds(s: State) {
    if s.holder.Some? && s.holder.value < |s.threads| && s.threads[s.holder.value].pc == RFirst then s.readcnt >= 2
    else if s.holder.Some? && s.holder.value < |s.threads| && s.threads[s.holder.value].pc == RLast then true
    else s.readcnt >= 1
  }

  /** A sum of zeros and ones is at least the number of ones found. */
  lemma {:induction false} CountAtLeast(q: seq<Thread>, i: nat, j: nat)
    requires i < |q| && j < |q|
    ensures Counted(q[i]) <= SumBy(q, Counted)
    ensures i != j ==> Counted(q[i]) + Counted(q[j]) <= SumBy(q, Counted)
  {
    var r, n := q[..|q| - 1], |q| - 1;
    CountNonnegative(r);
    if i < n { CountAtLeast(r, i, if j < n then j else i); }
    if j < n { CountAtLeast(r, j, if i < n then i else j); }
  }

  lemma {:induction false} CountNonnegative(q: seq<Thread>)
    ensures SumBy(q, Counted) >= 0
    ensures SumBy(q, Counted) > 0 ==> exists i :: 0 <= i < |q| && Counted(q[i]) == 1
  {
    if q != [] {
      var r := q[..|q| - 1];
      CountNonnegative(r);
      if SumBy(q, Counted) > 0 {
        if Counted(q[|q| - 1]) == 0 {
          var i :| 0 <= i < |r| && Counted(r[i]) == 1;
          assert Counted(q[i]) == 1;
        }
      }
    }
  }

  /** Only thread t moved between s and s'. */
  ghost predicate Moved(s: State, s': State, t: nat) {
    t < |s.threads| && |s'.threads| == |s.threads| && s'.threads == s.threads[t := s'.threads[t]]
  }

  /** The lock state is untouched. */
  ghost predicate SameLocks(s: State, s': State) {
    && s'.mutex == s.mutex && s'.w == s.w && s'.readcnt == s.readcnt
    && s'.holder == s.holder && s'.owner == s.owner && s'.readersHold == s.readersHold
  }

  /** What one step may change for the other threads to stay where they are. */
  lemma MoveLocks(s: State, s': State, t: nat)
    requires Locks(s) && Moved(s, s', t) && ThreadLocks(s', t)
    requires forall u :: u != t ==> (s'.holder == Some(u) <==> s.holder == Some(u))
    requires forall u :: u != t ==> (s'.owner == Some(u) <==> s.owner == Some(u))
    requires s'.mutex == (if s'.holder == None then 1 else 0)
    requires s'.w == (if s'.owner == None && !s'.readersHold then 1 else 0)
    requires !(s'.owner.Some? && s'.readersHold)
    requires s'.readcnt == s.readcnt + Counted(s'.threads[t]) - Counted(s.threads[t])
    requires s'.readersHold == GroupHolds(s')
    ensures Locks(s')
  {
    SumUpdate(s.threads, t, s'.threads[t], Counted);
    forall u | 0 <= u < |s'.threads| ensures ThreadLocks(s', u) {
      assert ThreadLocks(s, u);
    }
  }

  /** What the invariant says about the thread about to step. */
  lemma LockFacts(s: State, t: nat)
    requires Locks(s) && t < |s.threads|
    ensures ThreadLocks(s, t) && Counted(s.threads[t]) <= s.readcnt && s.readersHold == GroupHolds(s)
    ensures s.mutex == (if s.holder == None then 1 else 0)
    ensures s.w == (if s.owner == None && !s.readersHold then 1 else 0)
    ensures !(s.owner.Some? && s.readersHold)
    ensures s.holder.Some? ==> s.holder.value < |s.threads| && Holding(s.threads[s.holder.value].pc)
  {
    CountAtLeast(s.threads, t, t);
    if s.holder.Some? { assert ThreadLocks(s, s.holder.value); }
  }

  lemma MutexStepLocks(s: State, t: nat)
    requires Locks(s) && t < |s.threads| && Enabled(s, t)
    requires s.threads[t].pc in {RLock, RUnlock, RLock2, RUnlock2}
    ensures Locks(ReaderStep(s, t))
  {
    LockFacts(s, t);
    hide Locks;
    MoveLocks(s, ReaderStep(s, t), t);
  }

  lemma CountStepLocks(s: State, t: nat)
    requires Locks(s) && t < |s.threads| && Enabled(s, t)
    requires s.threads[t].pc in {RCount, RUncount}
    ensures Locks(ReaderStep(s, t))
  {
    LockFacts(s, t);
    hide Locks;
    MoveLocks(s, ReaderStep(s, t), t);
  }

  lemma GroupStepLocks(s: State, t: nat)
    requires Locks(s) && t < |s.threads| && Enabled(s, t)
    requires s.threads[t].pc in {RFirst, RLast}
    ensures Locks(ReaderStep(s, t))
  {
    LockFacts(s, t);
    hide Locks;
    MoveLocks(s, ReaderStep(s, t), t);
  }

  /** A step inside one section, or outside both, leaves the locks as they are. */
  lemma QuietStepLocks(s: State, s': State, t: nat)
    requires Locks(s) && Moved(s, s', t) && SameLocks(s, s')
    requires var p, q := s.threads[t].pc, s'.threads[t].pc;
             !Holding(p) && !Holding(q) && Writing(p) == Writing(q) && Reading(p) == Reading(q)
             && !p.RFirst? && !q.RFirst?
    ensures Locks(s')
  {
    LockFacts(s, t);
    hide Locks;
    MoveLocks(s, s', t);
  }

  lemma ScanStepLocks(s: State, t: nat)
    requires Locks(s) && t < |s.threads|
    requires s.threads[t].pc in {RScan, RSend}
    ensures Locks(ReaderStep(s, t))
  {
    hide Locks;
    QuietStepLocks(s, ReaderStep(s, t), t);
  }

  lemma StoreShape(s: State, t: nat)
    requires t < |s.threads| && s.threads[t].slot < |s.cache|
    ensures var s' := StoreStep(s, t);
            && Moved(s, s', t) && SameLocks(s, s')
            && (s.threads[t].pc in {WName0, WName1, WPayload0, WPayload1, WStamp, WUsed} ==> Writing(s'.threads[t].pc))
  {
  }

  lemma InsideStepLocks(s: State, t: nat)
    requires Locks(s) && t < |s.threads| && Enabled(s, t)
    requires Writing(s.threads[t].pc) && !s.threads[t].pc.WUnlock?
    ensures Locks(WriterStep(s, t))
  {
    hide Locks, StoreStep;
    if s.threads[t].slot < |s.cache| { StoreShape(s, t); }
    QuietStepLocks(s, WriterStep(s, t), t);
  }

  lemma OwnerStepLocks(s: State, t: nat)
    requires Locks(s) && t < |s.threads| && Enabled(s, t)
    requires s.threads[t].pc in {WLock, WUnlock}
    ensures Locks(WriterStep(s, t))
  {
    LockFacts(s, t);
    hide Locks, StoreStep;
    MoveLocks(s, WriterStep(s, t), t);
  }

  lemma DecideStepLocks(s: State, t: nat, fetched: Option<string>)
    requires Locks(s) && t < |s.threads| && s.threads[t].pc.Decide?
    ensures Locks(DecideStep(s, t, fetched))
  {
    hide Locks;
    QuietStepLocks(s, DecideStep(s, t, fetched), t);
  }

  lemma StepLocks(s: State, t: nat, fetched: Option<string>)
    requires Locks(s)
    ensures Locks(Step(s, t, fetched))
  {
    hide Locks, ReaderStep, WriterStep, DecideStep;
    if t < |s.threads| && Enabled(s, t) {
      match s.threads[t].pc
      case RLock | RUnlock | RLock2 | RUnlock2 => MutexStepLocks(s, t);
      case RCount | RUncount => CountStepLocks(s, t);
      case RFirst | RLast => GroupStepLocks(s, t);
      case RScan | RSend => ScanStepLocks(s, t);
      case Decide => DecideStepLocks(s, t, fetched);
      case WLock | WUnlock => OwnerStepLocks(s, t);
      case _ => InsideStepLocks(s, t);
    }
  }

  // ---- mutual exclusion ----

  /** While a thread reads the lines, the readers hold w and no writer is inside. */
  lemma ReadersExcludeWriter(s: State, t: nat)
    requires Locks(s) && t < |s.threads| && Reading(s.threads[t].pc)
    ensures s.readersHold && s.owner == None
    ensures forall u :: 0 <= u < |s.threads| ==> !Writing(s.threads[u].pc)
  {
    LockFacts(s, t);
    if s.holder.Some? {
      CountAtLeast(s.threads, t, s.holder.value);
    }
    forall u | 0 <= u < |s.threads| ensures !Writing(s.threads[u].pc) {
      assert ThreadLocks(s, u);
    }
  }

  /** At most one thread is inside `writer`'s critical section. */
  lemma OneWriter(s: State, t: nat, u: nat)
    requires Locks(s) && t < |s.threads| && u < |s.threads|
    requires Writing(s.threads[t].pc) && Writing(s.threads[u].pc)
    ensures t == u
  {
    assert ThreadLocks(s, t) && ThreadLocks(s, u);
  }

  // ---- the lines ----

  /** The line holds the name and the payload of one completed store. */
  ghost predicate Stored(s: State, c: Slot) {
    c.name.Whole? && c.payload.Whole? && (c.name.text, c.payload.text) in s.stored
  }

  predicate Copying(pc: PC) {
    pc.WName1? || pc.WPayload0? || pc.WPayload1?
  }

  predicate Storing(pc: PC) {
    pc.WName0? || Copying(pc) || pc.WStamp? || pc.WUsed?
  }

  ghost predicate ThreadData(s: State, th: Thread) {
    && (th.hit.Some? ==> th.hit.value < s.usedcnt)
    && (th.pc.RSend? ==> th.i < s.usedcnt && th.i < |s.cache| && s.cache[th.i].name == Whole(th.uri))
    && (th.sent.Some? ==> th.sent.value.Whole? && (th.uri, th.sent.value.text) in s.stored)
  }

  /** The writer inside knows which line it updates: the next unused one, the
      one it hit, or the one with the least timestamp. */
  ghost predicate WriterData(s: State, th: Thread) {
    && (Storing(th.pc) ==> if th.appending then th.slot == s.usedcnt < LINES && !th.hit.Some? else th.slot < s.usedcnt)
    && (th.pc.WScan? ==> s.usedcnt == LINES && !th.appending && 1 <= th.i <= LINES && th.slot < th.i
                         && Least(s, th.slot, th.i)
                         && |s.cache| == LINES && th.lruT == s.cache[th.slot].timestamp)
    && (th.pc.WName0? && !th.appending ==> s.usedcnt == LINES && Least(s, th.slot, LINES))
    && (th.pc.WPayload0? || th.pc.WPayload1? ==> th.slot < |s.cache| && s.cache[th.slot].name == Whole(th.uri))
    && (th.pc.WStamp? || th.pc.WUsed? ==> th.slot < |s.cache| && Stored(s, s.cache[th.slot]))
    && (th.pc.WUsed? ==> th.appending && th.slot < |s.cache| && s.cache[th.slot].timestamp == s.gtime)
  }

  /** No line before n is older than the given one. */
  ghost predicate Least(s: State, slot: nat, n: nat) {
    slot < |s.cache| && n <= |s.cache| && forall k :: 0 <= k < n ==> s.cache[slot].timestamp <= s.cache[k].timestamp
  }

  /** Every used line is stored whole, except the one the writer is copying to. */
  ghost predicate Lines(s: State) {
    && |s.cache| == LINES && s.usedcnt <= LINES
    && forall i :: 0 <= i < s.usedcnt ==> Excused(s, i) || Stored(s, s.cache[i])
  }

  ghost predicate Excused(s: State, i: nat) {
    s.owner.Some? && s.owner.value < |s.threads|
    && Copying(s.threads[s.owner.value].pc) && s.threads[s.owner.value].slot == i
  }

  /** Used lines have distinct timestamps below gtime, except that the line
      just stamped has gtime itself until the clock is advanced. */
  ghost predicate Stamps(s: State) {
    && |s.cache| == LINES && s.usedcnt <= LINES
    && (forall i :: 0 <= i < s.usedcnt ==>
          s.cache[i].timestamp < s.gtime || (s.cache[i].timestamp == s.gtime && JustStamped(s, i)))
    && (forall i, j :: 0 <= i < j < s.usedcnt ==> s.cache[i].timestamp != s.cache[j].timestamp)
  }

  ghost predicate JustStamped(s: State, i: nat) {
    s.owner.Some? && s.owner.value < |s.threads|
    && s.threads[s.owner.value].pc.WTick? && s.threads[s.owner.value].slot == i
  }

  ghost predicate Data(s: State) {
    && Lines(s) && Stamps(s)
    && (forall t :: 0 <= t < |s.threads| ==> ThreadData(s, s.threads[t]))
    && (s.owner.Some? && s.owner.value < |s.threads| ==> WriterData(s, s.threads[s.owner.value]))
  }

  /** The shared data is untouched. */
  ghost predicate SameData(s: State, s': State) {
    s'.cache == s.cache && s'.usedcnt == s.usedcnt && s'.gtime == s.gtime && s'.stored == s.stored
  }

  /** A thread outside `writer` steps without touching the shared data. */
  lemma OutsideData(s: State, s': State, t: nat)
    requires Locks(s) && Data(s) && Moved(s, s', t) && SameData(s, s') && s'.owner == s.owner
    requires !Writing(s.threads[t].pc) && ThreadData(s', s'.threads[t])
    ensures Data(s')
  {
    assert ThreadLocks(s, t);
    assert s'.owner.Some? ==> s'.threads[s'.owner.value] == s.threads[s.owner.value];
    forall i | 0 <= i < s.usedcnt ensures Excused(s', i) == Excused(s, i) && JustStamped(s', i) == JustStamped(s, i) { }
    forall u | 0 <= u < |s'.threads| ensures ThreadData(s', s'.threads[u]) {
      assert ThreadData(s, s.threads[u]);
    }
    assert s'.owner.Some? ==> WriterData(s', s'.threads[s'.owner.value]) by {
      assert s.owner.Some? ==> WriterData(s, s.threads[s.owner.value]);
    }
  }

  /** A lookup step moves one thread, and keeps its request and result until the send. */
  lemma ReaderShape(s: State, t: nat)
    requires t < |s.threads| && Enabled(s, t) && InReader(s.threads[t].pc)
    ensures var s' := ReaderStep(s, t);
            && Moved(s, s', t) && SameData(s, s') && s'.owner == s.owner
            && s'.threads[t].uri == s.threads[t].uri
            && (s'.threads[t].hit in {None, s.threads[t].hit} || s.threads[t].pc.RSend?)
            && (s'.threads[t].sent == s.threads[t].sent || s.threads[t].pc.RSend?)
            && (s'.threads[t].pc.RSend? && !s.threads[t].pc.RSend? ==>
                  var i := s'.threads[t].i;
                  i < s.usedcnt && i < |s.cache| && s.cache[i].name == Whole(s.threads[t].uri))
  {
  }

  lemma SendShape(s: State, t: nat)
    requires t < |s.threads| && s.threads[t].pc.RSend? && s.threads[t].i < |s.cache|
    ensures var th := s.threads[t];
            ReaderStep(s, t).threads[t] == th.(pc := RLock2, hit := Some(th.i), sent := Some(s.cache[th.i].payload))
  {
  }

  lemma ReaderStepData(s: State, t: nat)
    requires Locks(s) && Data(s) && t < |s.threads| && Enabled(s, t) && InReader(s.threads[t].pc)
    ensures Data(ReaderStep(s, t))
  {
    assert ThreadData(s, s.threads[t]);
    hide Locks, Data, ReaderStep;
    ReaderShape(s, t);
    if s.threads[t].pc.RSend? {
      SentIsWhole(s, t);
      SendShape(s, t);
    }
    OutsideData(s, ReaderStep(s, t), t);
  }

  /** What a hit sends: the payload stored together with the name it asked for. */
  lemma SentIsWhole(s: State, t: nat)
    requires Locks(s) && Data(s) && t < |s.threads| && s.threads[t].pc.RSend?
    ensures var th := s.threads[t];
            th.i < |s.cache| && s.cache[th.i].payload.Whole? && (th.uri, s.cache[th.i].payload.text) in s.stored
  {
    ReadersExcludeWriter(s, t);
    assert ThreadData(s, s.threads[t]);
    assert !Excused(s, s.threads[t].i);
  }

  /** The writer inside steps: the other threads wait or are outside, so it is
      enough that the lines, the stamps and its own bookkeeping are in order. */
  lemma InsideData(s: State, s': State, t: nat)
    requires Locks(s) && Data(s) && Moved(s, s', t) && s.owner == Some(t) && s'.owner in {Some(t), None}
    requires s.usedcnt <= s'.usedcnt && s.stored <= s'.stored
    requires ThreadData(s', s'.threads[t]) && Lines(s') && Stamps(s')
    requires s'.owner.Some? ==> WriterData(s', s'.threads[t])
    ensures Data(s')
  {
    forall u | 0 <= u < |s'.threads| ensures ThreadData(s', s'.threads[u]) {
      assert ThreadData(s, s.threads[u]);
      assert ThreadLocks(s, t);
      if u != t && s.threads[u].pc.RSend? { ReadersExcludeWriter(s, u); }
    }
  }

  /** What Data says about the writer inside. */
  lemma WriterFacts(s: State, t: nat)
    requires Locks(s) && Data(s) && t < |s.threads| && Writing(s.threads[t].pc)
    ensures s.owner == Some(t) && Lines(s) && Stamps(s)
    ensures ThreadData(s, s.threads[t]) && WriterData(s, s.threads[t])
  {
    assert ThreadLocks(s, t);
  }

  /** A step of the writer that leaves the lines alone. */
  lemma QuietData(s: State, s': State, t: nat)
    requires Locks(s) && Data(s) && Moved(s, s', t) && SameData(s, s') && s.owner == Some(t) && s'.owner == s.owner
    requires s.threads[t].pc in {WBranch, WScan} && s'.threads[t].pc in {WScan, WName0, WStamp}
    requires ThreadData(s', s'.threads[t]) && WriterData(s', s'.threads[t])
    ensures Data(s')
  {
    hide Locks;
    InsideData(s, s', t);
  }

  lemma BranchData(s: State, t: nat)
    requires Locks(s) && Data(s) && t < |s.threads| && s.threads[t].pc.WBranch?
    ensures Data(WriterStep(s, t))
  {
    WriterFacts(s, t);
    hide Locks, Data;
    QuietData(s, WriterStep(s, t), t);
  }

  lemma ScanData(s: State, t: nat)
    requires Locks(s) && Data(s) && t < |s.threads| && s.threads[t].pc.WScan?
    ensures Data(WriterStep(s, t))
  {
    WriterFacts(s, t);
    hide Locks, Data, Stamps;
    assert |s.cache| == LINES;
    hide Lines;
    QuietData(s, WriterStep(s, t), t);
  }

  lemma CopyNameData(s: State, t: nat)
    requires Locks(s) && Data(s) && t < |s.threads| && s.threads[t].slot < |s.cache|
    requires s.threads[t].pc in {WName0, WName1}
    ensures Data(StoreStep(s, t))
  {
    WriterFacts(s, t);
    hide Locks, Data;
    InsideData(s, StoreStep(s, t), t);
  }

  lemma CopyPayloadData(s: State, t: nat)
    requires Locks(s) && Data(s) && t < |s.threads| && s.threads[t].slot < |s.cache|
    requires s.threads[t].pc in {WPayload0, WPayload1}
    ensures Data(StoreStep(s, t))
  {
    WriterFacts(s, t);
    hide Locks, Data;
    InsideData(s, StoreStep(s, t), t);
  }

  lemma StampData(s: State, t: nat)
    requires Locks(s) && Data(s) && t < |s.threads| && s.threads[t].slot < |s.cache|
    requires s.threads[t].pc in {WStamp, WUsed}
    ensures Data(StoreStep(s, t))
  {
    WriterFacts(s, t);
    hide Locks, Data;
    InsideData(s, StoreStep(s, t), t);
  }

  lemma TickData(s: State, t: nat)
    requires Locks(s) && Data(s) && t < |s.threads| && s.threads[t].pc.WTick?
    ensures Data(WriterStep(s, t))
  {
    WriterFacts(s, t);
    hide Locks, Data, StoreStep;
    InsideData(s, WriterStep(s, t), t);
  }

  lemma LeaveData(s: State, t: nat)
    requires Locks(s) && Data(s) && t < |s.threads| && s.threads[t].pc.WUnlock?
    ensures Data(WriterStep(s, t))
  {
    WriterFacts(s, t);
    hide Locks, Data;
    InsideData(s, WriterStep(s, t), t);
  }

  lemma EnterData(s: State, t: nat)
    requires Locks(s) && Data(s) && t < |s.threads| && Enabled(s, t) && s.threads[t].pc.WLock?
    ensures Data(WriterStep(s, t))
  {
    var s' := WriterStep(s, t);
    assert s.owner == None;
    forall u | 0 <= u < |s'.threads| ensures ThreadData(s', s'.threads[u]) {
      assert ThreadData(s, s.threads[u]);
    }
  }

  lemma DecideData(s: State, t: nat, fetched: Option<string>)
    requires Locks(s) && Data(s) && t < |s.threads| && s.threads[t].pc.Decide?
    ensures Data(DecideStep(s, t, fetched))
  {
    assert ThreadData(s, s.threads[t]);
    hide Locks, Data;
    OutsideData(s, DecideStep(s, t, fetched), t);
  }

  lemma StoringData(s: State, t: nat)
    requires Locks(s) && Data(s) && t < |s.threads| && Storing(s.threads[t].pc)
    ensures Data(WriterStep(s, t))
  {
    WriterFacts(s, t);
    hide Locks, Data, StoreStep;
    if s.threads[t].pc in {WStamp, WUsed} { StampData(s, t); }
    else if s.threads[t].pc in {WName0, WName1} { CopyNameData(s, t); }
    else { CopyPayloadData(s, t); }
  }

  lemma StepData(s: State, t: nat, fetched: Option<string>)
    requires Locks(s) && Data(s)
    ensures Data(Step(s, t, fetched))
  {
    hide Locks, Data, ReaderStep, WriterStep, DecideStep;
    if t < |s.threads| && Enabled(s, t) {
      if InReader(s.threads[t].pc) {
        ReaderStepData(s, t);
      } else {
        match s.threads[t].pc
        case Decide => DecideData(s, t, fetched);
        case WLock => EnterData(s, t);
        case WBranch => BranchData(s, t);
        case WScan => ScanData(s, t);
        case WTick => TickData(s, t);
        case WUnlock => LeaveData(s, t);
        case _ => StoringData(s, t);
      }
    }
  }

  // ---- every interleaving ----

  lemma InitSafe(s: State)
    requires Init(s)
    ensures Locks(s) && Data(s)
  {
    NobodyCounted(s.threads);
  }

  lemma {:induction false} NobodyCounted(q: seq<Thread>)
    requires forall t :: 0 <= t < |q| ==> q[t].pc == RLock
    ensures SumBy(q, Counted) == 0
  {
    if q != [] { NobodyCounted(q[..|q| - 1]); }
  }

  /** The lock and data invariants hold after every schedule of every set of threads. */
  lemma {:induction false} ExecSafe(s: State, schedule: Schedule)
    requires Init(s)
    ensures Locks(Exec(s, schedule)) && Data(Exec(s, schedule))
  {
    hide Locks, Data, Init, Step;
    if schedule == [] {
      InitSafe(s);
    } else {
      var before, last := schedule[..|schedule| - 1], schedule[|schedule| - 1];
      ExecSafe(s, before);
      StepLocks(Exec(s, before), last.0, last.1);
      StepData(Exec(s, before), last.0, last.1);
    }
  }

  /** No torn reads, in every interleaving: a thread that reads the lines never
      overlaps a writer, every name it compares and the payload it sends are
      whole, and the payload was stored by one `writer` call together with
      the name asked for. */
  lemma NoTornReads(s: State, schedule: Schedule, t: nat)
    requires Init(s)
    ensures var x := Exec(s, schedule);
            t < |x.threads| ==>
              && (Reading(x.threads[t].pc) ==> forall u :: 0 <= u < |x.threads| ==> !Writing(x.threads[u].pc))
              && (x.threads[t].pc.RScan? ==> forall i :: 0 <= i < x.usedcnt ==> i < |x.cache| && Stored(x, x.cache[i]))
              && (x.threads[t].pc.RSend? ==> x.threads[t].i < |x.cache| && Stored(x, x.cache[x.threads[t].i])
                                             && x.cache[x.threads[t].i].name == Whole(x.threads[t].uri))
              && (x.threads[t].sent.Some? ==> x.threads[t].sent.value.Whole?
                                              && (x.threads[t].uri, x.threads[t].sent.value.text) in x.stored)
  {
    var x := Exec(s, schedule);
    hide Exec, Locks, Init;
    ExecSafe(s, schedule);
    if t < |x.threads| {
      assert ThreadData(x, x.threads[t]);
      if Reading(x.threads[t].pc) {
        ReadersExcludeWriter(x, t);
        assert forall i :: 0 <= i < x.usedcnt ==> !Excused(x, i);
      }
      if x.threads[t].pc.RSend? { SentIsWhole(x, t); }
    }
  }

  /** A pair enters `stored` only when a `writer` call that wrote its own name
      to a line finishes writing its own payload to the same line. */
  lemma StoredByOneCall(s: State, t: nat, fetched: Option<string>, pair: (string, string))
    requires Locks(s) && Data(s) && pair in Step(s, t, fetched).stored && pair !in s.stored
    ensures t < |s.threads| && s.threads[t].pc.WPayload1? && pair == (s.threads[t].uri, s.threads[t].buf)
    ensures s.threads[t].slot < |s.cache|
    ensures Step(s, t, fetched).cache[s.threads[t].slot].name == Whole(pair.0)
    ensures Step(s, t, fetched).cache[s.threads[t].slot].payload == Whole(pair.1)
  {
    if t < |s.threads| {
      if Writing(s.threads[t].pc) { WriterFacts(s, t); }
      hide Locks, Data;
    }
  }

  /** In every interleaving the evicted line is the one with the strictly least timestamp. */
  lemma VictimIsLeastRecent(s: State, schedule: Schedule, t: nat, k: nat)
    requires Init(s)
    ensures var x := Exec(s, schedule);
            t < |x.threads| && x.threads[t].pc.WName0? && !x.threads[t].appending && k < LINES && k != x.threads[t].slot
            ==> |x.cache| == LINES && x.threads[t].slot < LINES
                && x.cache[x.threads[t].slot].timestamp < x.cache[k].timestamp
  {
    var x := Exec(s, schedule);
    hide Exec, Locks, Data, Init;
    ExecSafe(s, schedule);
    if t < |x.threads| && x.threads[t].pc.WName0? { WriterFacts(x, t); }
  }

  // ---- deadlock freedom and completion ----

  ghost predicate Unfinished(s: State, t: nat) {
    t < |s.threads| && s.threads[t].pc != Finished
  }

  /** Someone can step as long as someone is unfinished, even though the first
      reader waits on w while it holds mutex. */
  lemma SomeoneCanStep(s: State, t: nat)
    requires Locks(s) && Unfinished(s, t)
    ensures exists u: nat :: u < |s.threads| && Enabled(s, u)
  {
    LockFacts(s, t);
    if s.owner.Some? {
      var o := s.owner.value;
      assert ThreadLocks(s, o) && Enabled(s, o);
    } else if s.holder.Some? {
      var h := s.holder.value;
      LockFacts(s, h);
      assert Enabled(s, h);
    } else if s.readersHold {
      CountNonnegative(s.threads);
      var c :| 0 <= c < |s.threads| && Counted(s.threads[c]) == 1;
      assert ThreadLocks(s, c) && Enabled(s, c);
    } else {
      assert Enabled(s, t);
    }
  }

  /** Deadlock freedom, in every interleaving. */
  lemma DeadlockFree(s: State, schedule: Schedule, t: nat)
    requires Init(s) && Unfinished(Exec(s, schedule), t)
    ensures exists u: nat :: u < |Exec(s, schedule).threads| && Enabled(Exec(s, schedule), u)
  {
    hide Exec, Locks, Data, Init, Enabled;
    ExecSafe(s, schedule);
    SomeoneCanStep(Exec(s, schedule), t);
  }

  /** A bound on the steps a thread still takes. */
  function StepsLeft(th: Thread): int {
    match th.pc
    case RLock => 90 case RCount => 89 case RFirst => 88 case RUnlock => 87
    case RScan => 76 + Max(0, LINES - th.i)
    case RSend => 75 case RLock2 => 74 case RUncount => 73 case RLast => 72 case RUnlock2 => 71
    case Decide => 70 case WLock => 69 case WBranch => 68
    case WScan => 50 + Max(0, LINES - th.i)
    case WName0 => 40 case WName1 => 39 case WPayload0 => 38 case WPayload1 => 37
    case WStamp => 36 case WUsed => 35 case WTick => 34 case WUnlock => 33
    case Finished => 0
  }

  lemma LoopStepsDown(s: State, t: nat)
    requires |s.cache| == LINES && s.usedcnt <= LINES && t < |s.threads| && Enabled(s, t)
    requires s.threads[t].pc.RScan? || (s.threads[t].pc.RSend? && s.threads[t].i < LINES)
    ensures Moved(s, ReaderStep(s, t), t) && StepsLeft(ReaderStep(s, t).threads[t]) < StepsLeft(s.threads[t])
  {
  }

  lemma LineStepsDown(s: State, t: nat)
    requires t < |s.threads| && Enabled(s, t) && InReader(s.threads[t].pc)
    requires !s.threads[t].pc.RScan? && !s.threads[t].pc.RSend?
    ensures Moved(s, ReaderStep(s, t), t) && StepsLeft(ReaderStep(s, t).threads[t]) < StepsLeft(s.threads[t])
  {
  }

  lemma StoreStepsDown(s: State, t: nat)
    requires t < |s.threads| && s.threads[t].slot < |s.cache| && Storing(s.threads[t].pc)
    ensures Moved(s, StoreStep(s, t), t) && StepsLeft(StoreStep(s, t).threads[t]) < StepsLeft(s.threads[t])
  {
  }

  lemma UpdateStepsDown(s: State, t: nat)
    requires |s.cache| == LINES && t < |s.threads| && Enabled(s, t)
    requires s.threads[t].pc in {WLock, WBranch, WScan, WTick, WUnlock}
    ensures Moved(s, WriterStep(s, t), t) && StepsLeft(WriterStep(s, t).threads[t]) < StepsLeft(s.threads[t])
  {
  }

  lemma DataFacts(s: State, t: nat)
    requires Locks(s) && Data(s) && t < |s.threads|
    ensures |s.cache| == LINES && s.usedcnt <= LINES
    ensures s.threads[t].pc.RSend? ==> s.threads[t].i < LINES
    ensures Storing(s.threads[t].pc) ==> s.threads[t].slot < LINES
  {
    assert ThreadData(s, s.threads[t]);
    if Storing(s.threads[t].pc) { WriterFacts(s, t); }
  }

  lemma ReaderStepsDown(s: State, t: nat)
    requires |s.cache| == LINES && s.usedcnt <= LINES && t < |s.threads| && Enabled(s, t)
    requires InReader(s.threads[t].pc) && (s.threads[t].pc.RSend? ==> s.threads[t].i < LINES)
    ensures Moved(s, ReaderStep(s, t), t) && StepsLeft(ReaderStep(s, t).threads[t]) < StepsLeft(s.threads[t])
  {
    hide ReaderStep, StepsLeft, Moved, Enabled;
    if s.threads[t].pc.RScan? || s.threads[t].pc.RSend? {
      LoopStepsDown(s, t);
    } else {
      LineStepsDown(s, t);
    }
  }

  lemma WriterStepsDown(s: State, t: nat)
    requires |s.cache| == LINES && t < |s.threads| && Enabled(s, t)
    requires !InReader(s.threads[t].pc) && !s.threads[t].pc.Decide?
    requires Storing(s.threads[t].pc) ==> s.threads[t].slot < LINES
    ensures Moved(s, WriterStep(s, t), t) && StepsLeft(WriterStep(s, t).threads[t]) < StepsLeft(s.threads[t])
  {
    hide StoreStep, StepsLeft, Moved;
    if Storing(s.threads[t].pc) {
      StoreStepsDown(s, t);
    } else {
      UpdateStepsDown(s, t);
    }
  }

  lemma ThreadStepsDown(s: State, t: nat, fetched: Option<string>)
    requires Locks(s) && Data(s) && t < |s.threads| && Enabled(s, t)
    ensures var s' := Step(s, t, fetched);
            Moved(s, s', t) && StepsLeft(s'.threads[t]) < StepsLeft(s.threads[t])
  {
    hide Locks, Data, ReaderStep, WriterStep, Enabled, InReader, Storing;
    DataFacts(s, t);
    if InReader(s.threads[t].pc) {
      ReaderStepsDown(s, t);
    } else if !s.threads[t].pc.Decide? {
      WriterStepsDown(s, t);
    }
  }

  lemma StepsDown(s: State, t: nat, fetched: Option<string>)
    requires Locks(s) && Data(s) && t < |s.threads| && Enabled(s, t)
    ensures SumBy(Step(s, t, fetched).threads, StepsLeft) < SumBy(s.threads, StepsLeft)
    ensures |Step(s, t, fetched).threads| == |s.threads|
  {
    hide Locks, Data, Step, StepsLeft, Enabled;
    ThreadStepsDown(s, t, fetched);
    var s' := Step(s, t, fetched);
    SumUpdate(s.threads, t, s'.threads[t], StepsLeft);
  }

  lemma {:induction false} StepsLeftNonnegative(q: seq<Thread>)
    ensures 0 <= SumBy(q, StepsLeft) <= 90 * |q|
  {
    if q != [] { StepsLeftNonnegative(q[..|q| - 1]); }
  }

  /** Every entry of the schedule steps a thread that is enabled then. */
  ghost predicate Busy(s: State, schedule: Schedule) {
    forall k :: 0 <= k < |schedule| ==> StepsAt(s, schedule, k)
  }

  ghost predicate StepsAt(s: State, schedule: Schedule, k: nat)
    requires k < |schedule|
  {
    var x := Exec(s, schedule[..k]);
    schedule[k].0 < |x.threads| && Enabled(x, schedule[k].0)
  }

  lemma {:induction false} BusyIsShort(s: State, schedule: Schedule)
    requires Init(s) && Busy(s, schedule)
    ensures |schedule| <= 90 * |s.threads| - SumBy(Exec(s, schedule).threads, StepsLeft)
    ensures |Exec(s, schedule).threads| == |s.threads|
  {
    hide Locks, Data, Init, Step, Enabled;
    if schedule == [] {
      StepsLeftNonnegative(s.threads);
    } else {
      var n := |schedule| - 1;
      var before := schedule[..n];
      forall k | 0 <= k < n ensures StepsAt(s, before, k) {
        assert StepsAt(s, schedule, k) && before[..k] == schedule[..k];
      }
      BusyIsShort(s, before);
      ExecSafe(s, before);
      assert StepsAt(s, schedule, n);
      StepsDown(Exec(s, before), schedule[n].0, schedule[n].1);
    }
  }

  /** Every request completes. A schedule that always steps an enabled thread,
      in any order, has at most 90 steps per thread; and while it can be
      extended by no enabled thread, every thread has finished. */
  lemma EveryRequestCompletes(s: State, schedule: Schedule)
    requires Init(s) && Busy(s, schedule)
    ensures |schedule| <= 90 * |s.threads| && |Exec(s, schedule).threads| == |s.threads|
    ensures (forall u: nat :: u < |Exec(s, schedule).threads| ==> !Enabled(Exec(s, schedule), u))
            ==> forall t :: 0 <= t < |s.threads| ==> Exec(s, schedule).threads[t].pc == Finished
  {
    hide Exec, Init, Enabled, Busy;
    BusyIsShort(s, schedule);
    StepsLeftNonnegative(Exec(s, schedule).threads);
    var x := Exec(s, schedule);
    if forall u: nat :: u < |x.threads| ==> !Enabled(x, u) {
      forall t | 0 <= t < |s.threads| ensures x.threads[t].pc == Finished {
        if x.threads[t].pc != Finished { DeadlockFree(s, schedule, t); }
      }
    }
  }
}
