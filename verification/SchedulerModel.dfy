/** One simulated cycle of the CPU scheduler, phase by phase, on values.

    A process is named by its position in the input. The linked ready
    queue and blocked list are the sequences `ready` and `blocked`; `finished`
    is the array of copies that records completions; `line` counts the numbers
    read so far from the random-number stream. */
module SchedulerModel {
  import opened Collections

  datatype Algorithm = FCFS | RR | SJF

  datatype Condition = Unstarted | Ready | Running | Blocked | Terminated

  datatype Proc = Proc(
    A: nat, B: nat, C: nat, M: nat, processID: nat,
    condition: Condition,
    finishingTime: int,
    CPUTime: nat,
    Btime: nat,
    waiting: nat,
    BurstTime: int,
    CPUBurst: int,
    quantum: int,
    operating: bool)

  datatype State = State(
    procs: seq<Proc>,
    ready: seq<nat>,
    blocked: seq<nat>,
    selection: Option<nat>,
    present: nat,
    totalPrime: nat,
    totalTimeNumber: nat,
    finished: seq<Proc>,
    line: nat)

  /** Every name in the state is the name of a process, and bursts can be drawn. */
  ghost predicate InRange(s: State) {
    && Below(s.ready, |s.procs|)
    && Below(s.blocked, |s.procs|)
    && (s.selection.Some? ==> s.selection.value < |s.procs|)
    && forall i :: 0 <= i < |s.procs| ==> s.procs[i].B >= 1
  }

  predicate Done(s: State) {
    |s.finished| == |s.procs|
  }

  // ---- proceedForward: the running process leaves, or keeps, the processor ----

  /** The blocked time of a fresh burst is fixed one tick after its dispatch. */
  function Settle(p: Proc): Proc {
    if p.operating then p.(operating := false, BurstTime := 1 + p.M * p.CPUBurst) else p
  }

  function Proceed(s: State, alg: Algorithm): (s': State)
    requires InRange(s)
    ensures InRange(s') && |s'.procs| == |s.procs| && s'.present == s.present
  {
    if s.selection.None? then s else
      var i := s.selection.value;
      var p := Settle(s.procs[i]);
      if p.C == p.CPUTime then
        var q := p.(condition := Terminated, finishingTime := s.present);
        s.(procs := s.procs[i := q], finished := s.finished + [q], selection := None)
      else if p.CPUBurst <= 0 then
        s.(procs := s.procs[i := p.(condition := Blocked)], blocked := s.blocked + [i], selection := None)
      else if alg.RR? && p.quantum <= 0 then
        s.(procs := s.procs[i := p.(condition := Ready)], ready := s.ready + [i], selection := None)
      else
        s.(procs := s.procs[i := p.(condition := Running)])
  }

  // ---- execxuteB: at most one expired process leaves the blocked list ----

  /** The position of the first expired process, or the length of the list. */
  function FirstExpired(procs: seq<Proc>, blocked: seq<nat>): (k: nat)
    requires Below(blocked, |procs|)
    ensures k <= |blocked|
    ensures forall j :: 0 <= j < k ==> procs[blocked[j]].BurstTime > 0
    ensures k < |blocked| ==> procs[blocked[k]].BurstTime <= 0
  {
    if blocked == [] then 0
    else if procs[blocked[0]].BurstTime <= 0 then 0
    else 1 + FirstExpired(procs, blocked[1..])
  }

  function Release(s: State): (s': State)
    requires InRange(s)
    ensures InRange(s') && |s'.procs| == |s.procs| && s'.present == s.present
  {
    var k := FirstExpired(s.procs, s.blocked);
    if k == |s.blocked| then s else
      var i := s.blocked[k];
      RemoveAtBelow(s.blocked, k, |s.procs|);
      s.(procs := s.procs[i := s.procs[i].(condition := Ready)],
         blocked := RemoveAt(s.blocked, k),
         ready := s.ready + [i])
  }

  // ---- creation: the processes that arrive now join the ready queue ----

  /** The names below n that arrive at time t, in increasing order. */
  function Arrivals(procs: seq<Proc>, t: nat, n: nat): seq<nat>
    requires n <= |procs|
  {
    if n == 0 then []
    else Arrivals(procs, t, n - 1) + if procs[n - 1].A == t then [n - 1] else []
  }

  /** The state once the first n entries of the input have been considered. */
  function ArriveUpTo(s: State, n: nat): State
    requires n <= |s.procs|
  {
    s.(procs := seq(|s.procs|, i requires 0 <= i < |s.procs| =>
                 if i < n && s.procs[i].A == s.present then s.procs[i].(condition := Ready) else s.procs[i]),
       ready := s.ready + Arrivals(s.procs, s.present, n),
       totalPrime := s.totalPrime + |Arrivals(s.procs, s.present, n)|)
  }

  function Arrive(s: State): (s': State)
    requires InRange(s)
    ensures InRange(s') && |s'.procs| == |s.procs| && s'.present == s.present
  {
    ArrivalsBelow(s.procs, s.present, |s.procs|);
    if s.totalPrime != |s.procs| then ArriveUpTo(s, |s.procs|) else s
  }

  // ---- executeR: an idle processor takes a process from the ready queue ----

  /** The position of the earliest queued process with the least remaining time. */
  function Shortest(procs: seq<Proc>, ready: seq<nat>): (k: nat)
    requires ready != [] && Below(ready, |procs|)
    ensures k < |ready|
    decreases |ready|
  {
    if |ready| == 1 then 0 else
      var k := Shortest(procs, ready[..|ready| - 1]);
      if Remaining(procs[ready[k]]) > Remaining(procs[ready[|ready| - 1]]) then |ready| - 1 else k
  }

  function Remaining(p: Proc): int {
    p.C - p.CPUTime
  }

  function Pick(s: State, alg: Algorithm): (k: nat)
    requires InRange(s) && s.ready != []
    ensures k < |s.ready|
  {
    if alg.SJF? then Shortest(s.procs, s.ready) else 0
  }

  /** A drawn burst is between 1 and B, cut down to the time still needed. */
  function Burst(p: Proc, r: nat): int
    requires p.B >= 1
  {
    Min(1 + r % p.B, Remaining(p))
  }

  /** The bursts that some random number draws are exactly those from 1 to B and
      to the time still needed. */
  lemma DrawnBursts(p: Proc, b: int)
    requires p.B >= 1 && Remaining(p) >= 1
    ensures (exists r: nat :: Burst(p, r) == b) <==> 1 <= b <= p.B && b <= Remaining(p)
  {
    if 1 <= b <= p.B && b <= Remaining(p) {
      assert Burst(p, b - 1) == b;
    }
  }

  function Dispatch(s: State, alg: Algorithm, rnd: nat -> nat): (s': State)
    requires InRange(s)
    ensures InRange(s') && |s'.procs| == |s.procs| && s'.present == s.present
  {
    if s.ready == [] || s.selection.Some? then s else
      var k := Pick(s, alg);
      var i := s.ready[k];
      var p := s.procs[i].(CPUBurst := Burst(s.procs[i], rnd(s.line)));
      RemoveAtBelow(s.ready, k, |s.procs|);
      var t := s.(ready := RemoveAt(s.ready, k), line := s.line + 1);
      if alg.SJF? || p.CPUBurst > 0 then
        var q := p.(condition := Running, operating := true, quantum := if alg.RR? then 2 else p.quantum);
        t.(procs := s.procs[i := q], selection := Some(i))
      else
        // The source takes the process off the queue and forgets it.
        t.(procs := s.procs[i := p])
  }

  // ---- countdown: every process spends the cycle in its condition ----

  function TickProc(p: Proc, alg: Algorithm): Proc {
    match p.condition
    case Unstarted => p
    case Ready => p.(waiting := p.waiting + 1)
    case Running => p.(CPUTime := p.CPUTime + 1, CPUBurst := p.CPUBurst - 1,
                       quantum := if alg.RR? then p.quantum - 1 else p.quantum)
    case Blocked => p.(Btime := p.Btime + 1, BurstTime := p.BurstTime - 1)
    case Terminated => p
  }

  predicate SomeBlocked(procs: seq<Proc>) {
    exists i :: 0 <= i < |procs| && procs[i].condition.Blocked?
  }

  function Tick(s: State, alg: Algorithm): (s': State)
    ensures |s'.procs| == |s.procs| && s'.present == s.present && (InRange(s) ==> InRange(s'))
  {
    s.(procs := seq(|s.procs|, i requires 0 <= i < |s.procs| => TickProc(s.procs[i], alg)),
       totalTimeNumber := s.totalTimeNumber + if SomeBlocked(s.procs) then 1 else 0)
  }

  // ---- datapoint: one cycle, and runs of cycles ----

  /** The state of a cycle just before its countdown. */
  function Settled(s: State, alg: Algorithm, rnd: nat -> nat): (d: State)
    requires InRange(s)
    ensures InRange(d) && |d.procs| == |s.procs| && d.present == s.present
  {
    Dispatch(Arrive(Release(Proceed(s, alg))), alg, rnd)
  }

  function Cycle(s: State, alg: Algorithm, rnd: nat -> nat): (s': State)
    requires InRange(s)
    ensures InRange(s') && |s'.procs| == |s.procs| && s'.present == s.present + 1
  {
    var d := Settled(s, alg, rnd);
    var t := Tick(d, alg);
    t.(present := t.present + 1)
  }

  /** k cycles from s. */
  function Run(s: State, alg: Algorithm, rnd: nat -> nat, k: nat): (s': State)
    requires InRange(s)
    ensures InRange(s') && |s'.procs| == |s.procs| && s'.present == s.present + k
  {
    if k == 0 then s else Cycle(Run(s, alg, rnd, k - 1), alg, rnd)
  }

  /** A cycle is its settled state with every process's clock advanced. */
  lemma CycleShape(s: State, alg: Algorithm, rnd: nat -> nat)
    requires InRange(s)
    ensures var d, s' := Settled(s, alg, rnd), Cycle(s, alg, rnd);
            && s'.ready == d.ready && s'.blocked == d.blocked && s'.selection == d.selection
            && s'.finished == d.finished && Done(s') == Done(d)
            && forall i :: 0 <= i < |d.procs| ==> s'.procs[i] == TickProc(d.procs[i], alg)
  {
    hide Settled, InRange;
  }

  /** The two lists describe the same input. */
  ghost predicate SameInputs(ps: seq<Proc>, qs: seq<Proc>) {
    |ps| == |qs| && forall i :: 0 <= i < |ps| ==> SameInput(ps[i], qs[i])
  }

  ghost predicate SameInput(p: Proc, q: Proc) {
    p.A == q.A && p.B == q.B && p.C == q.C && p.M == q.M && p.processID == q.processID
  }

  lemma ProceedKeepsInputs(s: State, alg: Algorithm)
    requires InRange(s)
    ensures SameInputs(s.procs, Proceed(s, alg).procs)
  {
  }

  lemma JoinKeepsInputs(s: State)
    requires InRange(s)
    ensures SameInputs(s.procs, Release(s).procs)
    ensures SameInputs(s.procs, Arrive(s).procs)
  {
  }

  lemma DispatchKeepsInputs(s: State, alg: Algorithm, rnd: nat -> nat)
    requires InRange(s)
    ensures SameInputs(s.procs, Dispatch(s, alg, rnd).procs)
    ensures SameInputs(s.procs, Tick(s, alg).procs)
  {
  }

  lemma CycleKeepsInputs(s: State, alg: Algorithm, rnd: nat -> nat)
    requires InRange(s)
    ensures SameInputs(s.procs, Cycle(s, alg, rnd).procs)
  {
    hide Proceed, Release, Arrive, Dispatch, Tick, InRange;
    var p := Proceed(s, alg);
    var r := Release(p);
    ProceedKeepsInputs(s, alg);
    JoinKeepsInputs(p);
    JoinKeepsInputs(r);
    DispatchKeepsInputs(Arrive(r), alg, rnd);
    DispatchKeepsInputs(Settled(s, alg, rnd), alg, rnd);
  }

  lemma {:induction false} RunKeepsInputs(s: State, alg: Algorithm, rnd: nat -> nat, k: nat)
    requires InRange(s)
    ensures SameInputs(s.procs, Run(s, alg, rnd, k).procs)
  {
    hide Cycle, InRange;
    if k > 0 {
      RunKeepsInputs(s, alg, rnd, k - 1);
      CycleKeepsInputs(Run(s, alg, rnd, k - 1), alg, rnd);
    }
  }

  lemma RunStep(s: State, alg: Algorithm, rnd: nat -> nat, k: nat)
    requires InRange(s)
    ensures Run(s, alg, rnd, k + 1) == Cycle(Run(s, alg, rnd, k), alg, rnd)
  {
    hide Cycle, InRange;
  }

  lemma {:induction false} RunSplit(s: State, alg: Algorithm, rnd: nat -> nat, a: nat, b: nat)
    requires InRange(s)
    ensures Run(Run(s, alg, rnd, a), alg, rnd, b) == Run(s, alg, rnd, a + b)
  {
    hide Cycle, InRange;
    if b > 0 { RunSplit(s, alg, rnd, a, b - 1); }
  }

  lemma ArrivalsBelow(procs: seq<Proc>, t: nat, n: nat)
    requires n <= |procs|
    ensures Below(Arrivals(procs, t, n), n)
    ensures Distinct(Arrivals(procs, t, n))
    ensures forall i :: i in Arrivals(procs, t, n) <==> 0 <= i < n && procs[i].A == t
  {
  }

  // ---- the input, and the reset between two simulations ----

  /** A simulation about to start. Leftover bursts and quanta are arbitrary. */
  ghost predicate Fresh(s: State) {
    && s.ready == [] && s.blocked == [] && s.selection == None && s.finished == []
    && s.present == 0 && s.totalPrime == 0 && s.totalTimeNumber == 0 && s.line == 0
    && forall i :: 0 <= i < |s.procs| ==> FreshProc(s.procs[i], i)
  }

  ghost predicate FreshProc(p: Proc, i: nat) {
    && p.B >= 1 && p.processID == i
    && p.condition == Unstarted && p.finishingTime == -1 && !p.operating
    && p.CPUTime == 0 && p.Btime == 0 && p.waiting == 0
  }

  lemma FreshInRange(s: State)
    requires Fresh(s)
    ensures InRange(s)
  {
    forall i | 0 <= i < |s.procs| ensures s.procs[i].B >= 1 {
      assert FreshProc(s.procs[i], i);
    }
  }

  /** Every process asks for some processor time. */
  ghost predicate AllNeedTime(procs: seq<Proc>) {
    forall i :: 0 <= i < |procs| ==> procs[i].C >= 1
  }

  /** The reset of one process: a burst is drawn that no later step reads. */
  function ResetProc(p: Proc, r: nat): Proc
    requires p.B >= 1
  {
    var b := 1 + r % p.B;
    p.(condition := Unstarted, finishingTime := -1, CPUTime := 0, Btime := 0, waiting := 0,
       operating := false, CPUBurst := b, BurstTime := p.M * b)
  }

  function Extra(s: State, rnd: nat -> nat): State
    requires InRange(s)
  {
    State(seq(|s.procs|, i requires 0 <= i < |s.procs| => ResetProc(s.procs[i], rnd(i))),
          [], [], None, 0, 0, 0, [], 0)
  }
}
