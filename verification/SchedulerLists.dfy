/** The scheduler as it is written: process records updated in place, threaded
    on a linked ready queue and a linked blocked list.

    The ghost field `model` is the value of the whole simulation. `Linked` ties
    it to the fields, and every method is proved to change it by the phase of
    the same purpose in SchedulerModel. */
module SchedulerLists {
  import opened Collections
  import opened SchedulerModel
  import opened SchedulerPlacement
  import opened SchedulerTiming
  import opened SchedulerProgress
  import opened SchedulerRerun

  class Process {
    const A: nat
    const B: nat
    const C: nat
    const M: nat
    const processID: nat
    var condition: Condition
    var finishingTime: int
    var CPUTime: nat
    var Btime: nat
    var waiting: nat
    var BurstTime: int
    var CPUBurst: int
    var quantum: int
    var operating: bool
    var pushBlock: Process?
    var freshPrime: Process?

    constructor (A: nat, B: nat, C: nat, M: nat, processID: nat, burst: nat)
      requires B >= 1
      ensures FreshProc(Value(), processID) && pushBlock == null && freshPrime == null
      ensures this.A == A && this.B == B && this.C == C && this.M == M && this.processID == processID
      ensures CPUBurst == burst && BurstTime == M * burst && quantum == 2
    {
      this.A, this.B, this.C, this.M, this.processID := A, B, C, M, processID;
      condition, finishingTime := Unstarted, -1;
      CPUTime, Btime, waiting := 0, 0, 0;
      CPUBurst, BurstTime := burst, M * burst;
      operating, quantum := false, 2;
      pushBlock, freshPrime := null, null;
    }

    function Value(): Proc
      reads `condition, `finishingTime, `CPUTime, `Btime, `waiting, `BurstTime, `CPUBurst, `quantum, `operating
    {
      Proc(A, B, C, M, processID, condition, finishingTime, CPUTime, Btime, waiting,
           BurstTime, CPUBurst, quantum, operating)
    }

    method Become(c: Condition)
      modifies `condition
      ensures Value() == old(Value()).(condition := c)
    {
      condition := c;
    }

    method FixBlockedTime()
      modifies `operating, `BurstTime
      ensures Value() == Settle(old(Value()))
    {
      if operating {
        operating := false;
        BurstTime := 1 + M * CPUBurst;
      }
    }

    method TakeProcessor(selectAlg: Algorithm)
      modifies `condition, `operating, `quantum
      ensures Value() == old(Value()).(condition := Running, operating := true,
                                       quantum := if selectAlg.RR? then 2 else old(Value()).quantum)
    {
      condition := Running;
      operating := true;
      if selectAlg == RR {
        quantum := 2;
      }
    }

    method Count(selectAlg: Algorithm)
      modifies `CPUTime, `Btime, `waiting, `BurstTime, `CPUBurst, `quantum
      ensures Value() == TickProc(old(Value()), selectAlg)
    {
      match condition
      case Unstarted =>
      case Blocked =>
        Btime := Btime + 1;
        BurstTime := BurstTime - 1;
      case Running =>
        CPUTime := CPUTime + 1;
        CPUBurst := CPUBurst - 1;
        if selectAlg == RR {
          quantum := quantum - 1;
        }
      case Ready =>
        waiting := waiting + 1;
      case Terminated =>
    }

    method Reset(r: nat)
      requires B >= 1
      modifies this
      ensures Value() == ResetProc(old(Value()), r) && pushBlock == null && freshPrime == null
    {
      condition := Unstarted;
      freshPrime := null;
      pushBlock := null;
      finishingTime := -1;
      CPUTime := 0;
      Btime := 0;
      waiting := 0;
      operating := false;
      CPUBurst := 1 + r % B;
      BurstTime := M * CPUBurst;
    }

    method SetBurst(b: int)
      modifies `CPUBurst
      ensures Value() == old(Value()).(CPUBurst := b) && CPUBurst == b
    {
      CPUBurst := b;
    }

    method Finish(present: nat)
      modifies `condition, `finishingTime
      ensures Value() == old(Value()).(condition := Terminated, finishingTime := present)
    {
      condition := Terminated;
      finishingTime := present;
    }
  }

  class Scheduler {
    const Prime: seq<Process>
    const terminateAlg: array<Proc>
    const rnd: nat -> nat

    var line: nat
    var present: nat
    var totalPrime: nat
    var completion: nat
    var totalTimeNumber: nat
    var selection: Process?
    var Afront: Process?
    var Aback: Process?
    var Blockfront: Process?
    var Blockback: Process?
    var placement: nat
    var BlockQ: nat

    ghost var model: State

    // ---- what ties the fields to the model ----

    /** The records are distinct and numbered by their position. */
    ghost predicate Wired() {
      && terminateAlg.Length == |Prime|
      && (forall i :: 0 <= i < |Prime| ==> Prime[i].processID == i && Prime[i].B >= 1)
    }

    ghost predicate ReadyChain(q: seq<nat>)
      reads this`Afront, this`Aback, this`placement, Prime`freshPrime
    {
      && Below(q, |Prime|) && Distinct(q)
      && placement == |q|
      && Afront == (if q == [] then null else Prime[q[0]])
      && Aback == (if q == [] then null else Prime[q[|q| - 1]])
      && (forall j, k :: 0 <= j < k < |q| && k == j + 1 ==> Prime[q[j]].freshPrime == Prime[q[k]])
      && (q != [] ==> Prime[q[|q| - 1]].freshPrime == null)
      && (forall i :: 0 <= i < |Prime| && i !in q ==> Prime[i].freshPrime == null)
    }

    ghost predicate BlockChain(q: seq<nat>)
      reads this`Blockfront, this`Blockback, this`BlockQ, Prime`pushBlock
    {
      && Below(q, |Prime|) && Distinct(q)
      && BlockQ == |q|
      && Blockfront == (if q == [] then null else Prime[q[0]])
      && Blockback == (if q == [] then null else Prime[q[|q| - 1]])
      && (forall j, k :: 0 <= j < k < |q| && k == j + 1 ==> Prime[q[j]].pushBlock == Prime[q[k]])
      && (q != [] ==> Prime[q[|q| - 1]].pushBlock == null)
      && (forall i :: 0 <= i < |Prime| && i !in q ==> Prime[i].pushBlock == null)
    }

    ghost predicate Mirrors(procs: seq<Proc>)
      reads Prime`condition, Prime`finishingTime, Prime`CPUTime, Prime`Btime, Prime`waiting
      reads Prime`BurstTime, Prime`CPUBurst, Prime`quantum, Prime`operating
    {
      |procs| == |Prime| && forall i :: 0 <= i < |Prime| ==> Prime[i].Value() == procs[i]
    }

    ghost predicate Logged(finished: seq<Proc>)
      reads this`completion, terminateAlg
    {
      completion == |finished| <= terminateAlg.Length && terminateAlg[..completion] == finished
    }

    ghost predicate Selected(sel: Option<nat>)
      reads this`selection
    {
      match sel
      case None => selection == null
      case Some(i) => i < |Prime| && selection == Prime[i]
    }

    ghost predicate Linked()
      reads this, Prime, terminateAlg
    {
      && Wired() && InRange(model) && |model.procs| == |Prime|
      && Mirrors(model.procs)
      && ReadyChain(model.ready)
      && BlockChain(model.blocked)
      && Selected(model.selection)
      && Logged(model.finished)
      && present == model.present && totalPrime == model.totalPrime
      && totalTimeNumber == model.totalTimeNumber && line == model.line
    }

    /** The invariant between two cycles. */
    ghost predicate Valid()
      reads this, Prime, terminateAlg
    {
      Linked() && Placed(model, model.present, model.present)
    }

    constructor (Prime: seq<Process>, terminateAlg: array<Proc>, rnd: nat -> nat)
      requires terminateAlg.Length == |Prime|
      requires forall i :: 0 <= i < |Prime| ==>
                 FreshProc(Prime[i].Value(), i) && Prime[i].pushBlock == null && Prime[i].freshPrime == null
      ensures Valid() && Fresh(model)
      ensures this.Prime == Prime && this.terminateAlg == terminateAlg && this.rnd == rnd
    {
      this.Prime, this.terminateAlg, this.rnd := Prime, terminateAlg, rnd;
      line, present, totalPrime, completion, totalTimeNumber := 0, 0, 0, 0, 0;
      selection, Afront, Aback, Blockfront, Blockback := null, null, null, null, null;
      placement, BlockQ := 0, 0;
      model := State(seq(|Prime|, i requires 0 <= i < |Prime| reads Prime => Prime[i].Value()),
                     [], [], None, 0, 0, 0, [], 0);
      new;
      forall i | 0 <= i < |Prime| ensures FreshProc(model.procs[i], i) {
        assert FreshProc(Prime[i].Value(), i);
      }
      FreshPlaced(model);
    }

    // ---- the ready queue ----

    method Qsetup(FreshN: Process, ghost q: seq<nat>)
      requires Wired() && ReadyChain(q)
      requires FreshN in Prime && FreshN.processID !in q
      modifies this`Afront, this`Aback, this`placement, Prime`freshPrime
      ensures ReadyChain(q + [FreshN.processID])
    {
      if placement == 0 {
        Afront := FreshN;
        Aback := FreshN;
      } else {
        FreshN.freshPrime := null;
        Aback.freshPrime := FreshN;
        Aback := Aback.freshPrime;
      }
      placement := placement + 1;
    }

    method Dsetup(ghost q: seq<nat>) returns (rot: Process?)
      requires Wired() && ReadyChain(q)
      modifies this`Afront, this`Aback, this`placement, Prime`freshPrime
      ensures q == [] ==> rot == null && ReadyChain(q)
      ensures q != [] ==> rot == Prime[q[0]] && ReadyChain(q[1..])
    {
      if placement == 0 {
        return null;
      }
      rot := Afront;
      Afront := Afront.freshPrime;
      placement := placement - 1;
      if placement == 0 {
        Aback := null;
      }
      rot.freshPrime := null;
    }

    /** The scan for the least remaining time. */
    method FindShortest() returns (quickPrime: Process)
      requires Linked() && model.ready != []
      ensures quickPrime == Prime[model.ready[Shortest(model.procs, model.ready)]]
    {
      ghost var q := model.ready;
      ghost var best: nat := 0;
      var i := 0;
      var presentPrime := Afront;
      quickPrime := Afront;
      while i < placement
        invariant 0 <= i <= |q| && presentPrime == (if i < |q| then Prime[q[i]] else null)
        invariant best < |q| && quickPrime == Prime[q[best]]
        invariant if i == 0 then best == 0 else best == Shortest(model.procs, q[..i])
      {
        assert q[..i + 1][..i] == q[..i];
        assert Prime[q[i]].Value() == model.procs[q[i]] && Prime[q[best]].Value() == model.procs[q[best]];
        if quickPrime.C - quickPrime.CPUTime > presentPrime.C - presentPrime.CPUTime {
          quickPrime := presentPrime;
          best := i;
        }
        presentPrime := presentPrime.freshPrime;
        i := i + 1;
      }
      assert q[..i] == q;
    }

    /** Takes the last of several records off the ready queue. */
    method TakeReadyLast(ghost q: seq<nat>) returns (loadedPrime: Process)
      requires Wired() && ReadyChain(q) && |q| >= 2
      modifies this`Afront, this`Aback, this`placement, Prime`freshPrime
      ensures loadedPrime == Prime[q[|q| - 1]] && ReadyChain(q[..|q| - 1])
    {
      var presentNode := Afront;
      ghost var j := 0;
      while presentNode.freshPrime.freshPrime != null
        invariant 0 <= j && j + 1 < |q| && presentNode == Prime[q[j]] && presentNode.freshPrime == Prime[q[j + 1]]
        invariant j + 2 < |q| ==> presentNode.freshPrime.freshPrime == Prime[q[j + 2]]
        decreases |q| - j
      {
        presentNode := presentNode.freshPrime;
        j := j + 1;
      }
      Aback := presentNode;
      loadedPrime := presentNode.freshPrime;
      presentNode.freshPrime := null;
      loadedPrime.freshPrime := null;
      placement := placement - 1;
    }

    /** Splices out the record after presentNode, which is not the last. */
    method TakeReadyAfter(presentNode: Process, ghost q: seq<nat>, ghost k: nat) returns (loadedPrime: Process)
      requires Wired() && ReadyChain(q) && 1 <= k < |q| - 1 && presentNode == Prime[q[k - 1]]
      modifies this`Afront, this`Aback, this`placement, Prime`freshPrime
      ensures loadedPrime == Prime[q[k]] && ReadyChain(RemoveAt(q, k))
    {
      RemoveAtMembers(q, k);
      ghost var r := RemoveAt(q, k);
      RemoveAtElements(q, k);
      RemoveAtBelow(q, k, |Prime|);
      hide RemoveAt, Distinct;
      assert Prime[q[k - 1]].freshPrime == Prime[q[k]] && Prime[q[k]].freshPrime == Prime[q[k + 1]];
      loadedPrime := presentNode.freshPrime;
      presentNode.freshPrime := presentNode.freshPrime.freshPrime;
      loadedPrime.freshPrime := null;
      placement := placement - 1;
      forall i, j | 0 <= i < j < |r| && j == i + 1 ensures Prime[r[i]].freshPrime == Prime[r[j]] {
        assert r[i] != q[k] && (i < k ==> r[i] == q[i]) && (i >= k ==> r[i] == q[i + 1]);
        assert (j < k ==> r[j] == q[j]) && (j >= k ==> r[j] == q[j + 1]);
        assert i != k - 1 ==> r[i] != q[k - 1];
      }
    }

    /** Splices a record out of the middle of the ready queue. */
    method TakeReadyMiddle(quickPrime: Process, ghost q: seq<nat>, ghost k: nat) returns (loadedPrime: Process)
      requires Wired() && ReadyChain(q) && 1 <= k < |q| - 1 && quickPrime == Prime[q[k]]
      modifies this`Afront, this`Aback, this`placement, Prime`freshPrime
      ensures loadedPrime == quickPrime && ReadyChain(RemoveAt(q, k))
    {
      var presentNode := Afront;
      ghost var j := 0;
      while presentNode.freshPrime.processID != quickPrime.processID
        invariant 0 <= j < k && presentNode == Prime[q[j]] && presentNode.freshPrime == Prime[q[j + 1]]
        decreases k - j
      {
        assert Prime[q[j + 1]].freshPrime == Prime[q[j + 2]];
        presentNode := presentNode.freshPrime;
        j := j + 1;
      }
      loadedPrime := TakeReadyAfter(presentNode, q, k);
    }

    /** Takes the record at position k off the ready queue. */
    method TakeReady(quickPrime: Process, ghost q: seq<nat>, ghost k: nat) returns (loadedPrime: Process)
      requires Wired() && ReadyChain(q) && k < |q| && quickPrime == Prime[q[k]]
      modifies this`Afront, this`Aback, this`placement, Prime`freshPrime
      ensures loadedPrime == quickPrime && ReadyChain(RemoveAt(q, k))
    {
      if Afront.processID == quickPrime.processID {
        loadedPrime := Dsetup(q);
        assert RemoveAt(q, k) == q[1..];
      } else if Aback.processID == quickPrime.processID {
        loadedPrime := TakeReadyLast(q);
        assert RemoveAt(q, k) == q[..|q| - 1];
      } else {
        loadedPrime := TakeReadyMiddle(quickPrime, q, k);
      }
    }

    // ---- the blocked list ----

    method InsertB(FreshN: Process, ghost q: seq<nat>)
      requires Wired() && BlockChain(q)
      requires FreshN in Prime && FreshN.processID !in q
      modifies this`Blockfront, this`Blockback, this`BlockQ, Prime`pushBlock
      ensures BlockChain(q + [FreshN.processID])
    {
      if Blockfront == null || Blockback == null {
        Blockfront := FreshN;
        Blockback := FreshN;
      } else {
        Blockback.pushBlock := FreshN;
        Blockback := FreshN;
      }
      BlockQ := BlockQ + 1;
    }

    method RemoveB(ghost q: seq<nat>) returns (rot: Process?)
      requires Wired() && BlockChain(q)
      modifies this`Blockfront, this`Blockback, this`BlockQ, Prime`pushBlock
      ensures q == [] ==> rot == null && BlockChain(q)
      ensures q != [] ==> rot == Prime[q[0]] && rot.pushBlock == null && BlockChain(q[1..])
    {
      if Blockfront == null {
        return null;
      }
      rot := Blockfront;
      Blockfront := Blockfront.pushBlock;
      if Blockfront == null {
        Blockback := null;
      }
      BlockQ := BlockQ - 1;
      rot.pushBlock := null;
    }

    /** Takes the last of several records off the blocked list. */
    method TakeBlockedLast(ghost q: seq<nat>) returns (extraN: Process)
      requires Wired() && BlockChain(q) && |q| >= 2
      modifies this`Blockfront, this`Blockback, this`BlockQ, Prime`pushBlock
      ensures extraN == Prime[q[|q| - 1]] && extraN.pushBlock == null && BlockChain(q[..|q| - 1])
    {
      var blockPrime := Blockfront;
      ghost var j := 0;
      while blockPrime.pushBlock.pushBlock != null
        invariant 0 <= j && j + 1 < |q| && blockPrime == Prime[q[j]] && blockPrime.pushBlock == Prime[q[j + 1]]
        invariant j + 2 < |q| ==> blockPrime.pushBlock.pushBlock == Prime[q[j + 2]]
        decreases |q| - j
      {
        blockPrime := blockPrime.pushBlock;
        j := j + 1;
      }
      Blockback := blockPrime;
      extraN := blockPrime.pushBlock;
      blockPrime.pushBlock := null;
      extraN.pushBlock := null;
      BlockQ := BlockQ - 1;
    }

    /** Splices out the record after blockPrime, which is not the last. */
    method TakeBlockedAfter(blockPrime: Process, ghost q: seq<nat>, ghost k: nat) returns (extraN: Process)
      requires Wired() && BlockChain(q) && 1 <= k < |q| - 1 && blockPrime == Prime[q[k - 1]]
      modifies this`Blockfront, this`Blockback, this`BlockQ, Prime`pushBlock
      ensures extraN == Prime[q[k]] && extraN.pushBlock == null && BlockChain(RemoveAt(q, k))
    {
      RemoveAtMembers(q, k);
      ghost var r := RemoveAt(q, k);
      RemoveAtElements(q, k);
      RemoveAtBelow(q, k, |Prime|);
      hide RemoveAt, Distinct;
      assert Prime[q[k - 1]].pushBlock == Prime[q[k]] && Prime[q[k]].pushBlock == Prime[q[k + 1]];
      extraN := blockPrime.pushBlock;
      blockPrime.pushBlock := blockPrime.pushBlock.pushBlock;
      extraN.pushBlock := null;
      BlockQ := BlockQ - 1;
      forall i, j | 0 <= i < j < |r| && j == i + 1 ensures Prime[r[i]].pushBlock == Prime[r[j]] {
        assert r[i] != q[k] && (i < k ==> r[i] == q[i]) && (i >= k ==> r[i] == q[i + 1]);
        assert (j < k ==> r[j] == q[j]) && (j >= k ==> r[j] == q[j + 1]);
        assert i != k - 1 ==> r[i] != q[k - 1];
      }
    }

    /** Splices a record out of the middle of the blocked list. */
    method TakeBlockedMiddle(presentN: Process, ghost q: seq<nat>, ghost k: nat) returns (extraN: Process)
      requires Wired() && BlockChain(q) && 1 <= k < |q| - 1 && presentN == Prime[q[k]]
      modifies this`Blockfront, this`Blockback, this`BlockQ, Prime`pushBlock
      ensures extraN == presentN && extraN.pushBlock == null && BlockChain(RemoveAt(q, k))
    {
      var blockPrime := Blockfront;
      ghost var j := 0;
      while blockPrime.pushBlock.processID != presentN.processID
        invariant 0 <= j < k && blockPrime == Prime[q[j]] && blockPrime.pushBlock == Prime[q[j + 1]]
        decreases k - j
      {
        assert Prime[q[j + 1]].pushBlock == Prime[q[j + 2]];
        blockPrime := blockPrime.pushBlock;
        j := j + 1;
      }
      extraN := TakeBlockedAfter(blockPrime, q, k);
    }

    /** Takes the record at position k off the blocked list. */
    method TakeBlocked(presentN: Process, ghost q: seq<nat>, ghost k: nat) returns (extraN: Process)
      requires Wired() && BlockChain(q) && k < |q| && presentN == Prime[q[k]]
      modifies this`Blockfront, this`Blockback, this`BlockQ, Prime`pushBlock
      ensures extraN == presentN && extraN.pushBlock == null && BlockChain(RemoveAt(q, k))
    {
      if Blockfront.processID == presentN.processID {
        extraN := RemoveB(q);
        assert RemoveAt(q, k) == q[1..];
      } else if Blockback.processID == presentN.processID {
        extraN := TakeBlockedLast(q);
        assert RemoveAt(q, k) == q[..|q| - 1];
      } else {
        extraN := TakeBlockedMiddle(presentN, q, k);
      }
    }

    // ---- the phases of a cycle ----

    /** The process with the given name becomes p. */
    ghost function With(s: State, i: nat, p: Proc): State
      requires i < |s.procs|
    {
      s.(procs := s.procs[i := p])
    }

    // The next methods make one move each and bring `model` along.

    method SetCondition(p: Process, c: Condition)
      requires Linked() && p in Prime
      modifies Prime`condition, this`model
      ensures Linked() && p.processID < |old(model).procs|
      ensures model == With(old(model), p.processID, old(model).procs[p.processID].(condition := c))
    {
      hide ReadyChain, BlockChain, Logged, Process.Value;
      ghost var i := p.processID;
      ghost var q := model.procs[i].(condition := c);
      p.Become(c);
      model := With(model, i, q);
    }

    lemma ListsInRange(s: State, i: nat, k: nat)
      requires InRange(s)
      ensures i < |s.procs| ==> InRange(s.(ready := s.ready + [i])) && InRange(s.(blocked := s.blocked + [i]))
      ensures k < |s.ready| ==> InRange(s.(ready := RemoveAt(s.ready, k)))
      ensures k < |s.blocked| ==> InRange(s.(blocked := RemoveAt(s.blocked, k)))
      ensures i < |s.procs| ==> InRange(s.(selection := Some(i)))
      ensures InRange(s.(totalPrime := s.totalPrime + 1)) && InRange(s.(line := s.line + 1))
    {
    }

    /** The record at position i holds the model's values. */
    lemma MirrorAt(i: nat)
      requires Linked() && i < |Prime|
      ensures Prime[i].Value() == model.procs[i] && Prime[i].processID == i
      ensures Prime[i].A == model.procs[i].A && Prime[i].B == model.procs[i].B >= 1
      ensures Prime[i].C == model.procs[i].C && Prime[i].CPUTime == model.procs[i].CPUTime
      ensures Prime[i].condition == model.procs[i].condition
    {
    }

    method Enqueue(FreshN: Process)
      requires Linked() && FreshN in Prime && FreshN.processID !in model.ready
      modifies this`Afront, this`Aback, this`placement, Prime`freshPrime, this`model
      ensures Linked() && model == old(model).(ready := old(model).ready + [FreshN.processID])
    {
      hide ReadyChain, BlockChain, Logged, Process.Value, Mirrors, InRange, RemoveAt;
      ListsInRange(model, FreshN.processID, 0);
      Qsetup(FreshN, model.ready);
      model := model.(ready := model.ready + [FreshN.processID]);
    }

    method Enlist(FreshN: Process)
      requires Linked() && FreshN in Prime && FreshN.processID !in model.blocked
      modifies this`Blockfront, this`Blockback, this`BlockQ, Prime`pushBlock, this`model
      ensures Linked() && model == old(model).(blocked := old(model).blocked + [FreshN.processID])
    {
      hide ReadyChain, BlockChain, Logged, Process.Value, Mirrors, InRange, RemoveAt;
      ListsInRange(model, FreshN.processID, 0);
      InsertB(FreshN, model.blocked);
      model := model.(blocked := model.blocked + [FreshN.processID]);
    }

    method Unlist(presentN: Process, ghost j: nat) returns (extraN: Process)
      requires Linked() && j < |model.blocked| && presentN == Prime[model.blocked[j]]
      modifies this`Blockfront, this`Blockback, this`BlockQ, Prime`pushBlock, this`model
      ensures Linked() && model == old(model).(blocked := RemoveAt(old(model).blocked, j))
      ensures extraN == presentN && extraN.pushBlock == null
    {
      hide ReadyChain, BlockChain, Logged, Process.Value, Mirrors, InRange, RemoveAt;
      ListsInRange(model, 0, j);
      extraN := TakeBlocked(presentN, model.blocked, j);
      model := model.(blocked := RemoveAt(model.blocked, j));
    }

    method Unqueue(quickPrime: Process, ghost k: nat) returns (loadedPrime: Process)
      requires Linked() && k < |model.ready| && quickPrime == Prime[model.ready[k]]
      modifies this`Afront, this`Aback, this`placement, Prime`freshPrime, this`model
      ensures Linked() && model == old(model).(ready := RemoveAt(old(model).ready, k))
      ensures loadedPrime == quickPrime
    {
      hide ReadyChain, BlockChain, Logged, Process.Value, Mirrors, InRange, RemoveAt;
      ListsInRange(model, 0, k);
      loadedPrime := TakeReady(quickPrime, model.ready, k);
      model := model.(ready := RemoveAt(model.ready, k));
    }

    method Deselect()
      requires Linked()
      modifies this`selection, this`model
      ensures Linked() && model == old(model).(selection := None)
    {
      hide ReadyChain, BlockChain, Logged, Process.Value, Mirrors;
      selection := null;
      model := model.(selection := None);
    }

    method SettleSelection()
      requires Linked() && selection != null
      modifies Prime`operating, Prime`BurstTime, this`model
      ensures Linked() && selection.processID < |old(model).procs|
      ensures model == With(old(model), selection.processID, Settle(old(model).procs[selection.processID]))
    {
      hide ReadyChain, BlockChain, Logged, Process.Value;
      ghost var i := selection.processID;
      ghost var p := model.procs[i];
      selection.FixBlockedTime();
      model := With(model, i, Settle(p));
    }

    method Retire()
      requires Linked() && selection != null && completion < terminateAlg.Length
      modifies this`completion, this`model, Prime`condition, Prime`finishingTime, terminateAlg
      ensures Linked() && selection.processID < |old(model).procs|
      ensures var i := selection.processID;
              var q := old(model).procs[i].(condition := Terminated, finishingTime := old(model).present);
              model == With(old(model), i, q).(finished := old(model).finished + [q])
    {
      hide ReadyChain, BlockChain, Process.Value;
      ghost var i := selection.processID;
      ghost var q := model.procs[i].(condition := Terminated, finishingTime := model.present);
      selection.Finish(present);
      terminateAlg[completion] := selection.Value();
      completion := completion + 1;
      model := With(model, i, q).(finished := model.finished + [q]);
    }

    method ProceedForward(selectAlg: Algorithm)
      requires Valid()
      modifies this, Prime, terminateAlg
      ensures Linked() && model == Proceed(old(model), selectAlg)
    {
      if selection != null {
        ghost var s := model;
        ProceedInMoves(s, selectAlg);
        hide Placed, ReadyChain, BlockChain, Mirrors, Logged, InRange, Proceed, With, Process.Value;
        SettleSelection();
        if selection.C == selection.CPUTime {
          Retire();
          Deselect();
        } else if selection.CPUBurst <= 0 {
          SetCondition(selection, Blocked);
          Enlist(selection);
          Deselect();
        } else if selectAlg == RR && selection.quantum <= 0 {
          SetCondition(selection, Ready);
          Enqueue(selection);
          Deselect();
        } else {
          SetCondition(selection, Running);
        }
      }
    }

    /** The first phase as a sequence of moves of the running process. */
    lemma ProceedInMoves(s: State, alg: Algorithm)
      requires Placed(s, s.present, s.present) && s.selection.Some?
      ensures var i := s.selection.value;
              var p := Settle(s.procs[i]);
              var t := With(s, i, p);
              && s.procs[i].processID == i && i !in s.ready && i !in s.blocked && |s.finished| < |s.procs|
              && t.procs[i] == p
              && Proceed(s, alg) ==
                   if p.C == p.CPUTime then
                     var q := p.(condition := Terminated, finishingTime := s.present);
                     With(t, i, q).(finished := t.finished + [q]).(selection := None)
                   else if p.CPUBurst <= 0 then
                     With(t, i, p.(condition := Blocked)).(blocked := s.blocked + [i]).(selection := None)
                   else if alg.RR? && p.quantum <= 0 then
                     With(t, i, p.(condition := Ready)).(ready := s.ready + [i]).(selection := None)
                   else With(t, i, p.(condition := Running))
    {
      var i := s.selection.value;
      assert PlacedProc(s, i, s.present);
      FinishedIsPermutation(s, s.present, s.present);
      var p := Settle(s.procs[i]);
      assert s.procs[i := p][i := Proceed(s, alg).procs[i]] == s.procs[i := Proceed(s, alg).procs[i]];
    }

    method ExecxuteB(ghost arrived: nat, ghost late: nat)
      requires Linked() && Placed(model, arrived, late)
      modifies this, Prime
      ensures Linked() && model == Release(old(model))
    {
      hide ReadyChain, BlockChain, Mirrors, Logged, Selected, InRange, Placed, Process.Value, Release;
      ghost var s := model;
      ghost var j := 0;
      ghost var released := false;
      BlockedFacts(0);
      if BlockQ != 0 {
        var presentN := Blockfront;
        while presentN != null
          invariant Linked()
          invariant !released ==> model == s && 0 <= j <= |s.blocked| && presentN == BlockedAt(j)
          invariant !released ==> Unexpired(s, j)
          invariant released ==> presentN == null && model == Release(s)
          decreases !released, |s.blocked| - j
        {
          BlockedFacts(j);
          if presentN.BurstTime <= 0 {
            ReleaseAt(presentN, j, arrived, late);
            released := true;
          } else {
            j := j + 1;
          }
          presentN := presentN.pushBlock;
        }
      }
      if !released {
        BlockedFacts(j);
        NothingExpired(s);
      }
    }

    /** The record at position j of the blocked list, or null at its end. */
    ghost function BlockedAt(j: nat): Process?
      reads this`model
    {
      if j < |model.blocked| && model.blocked[j] < |Prime| then Prime[model.blocked[j]] else null
    }

    ghost predicate Unexpired(s: State, j: nat) {
      j <= |s.blocked| && forall m :: 0 <= m < j ==> s.blocked[m] < |s.procs| && s.procs[s.blocked[m]].BurstTime > 0
    }

    /** What the links of the blocked list say at position j. */
    lemma BlockedFacts(j: nat)
      requires Linked()
      ensures BlockQ == |model.blocked| && Blockfront == BlockedAt(0)
      ensures j < |model.blocked| ==>
                var p := BlockedAt(j);
                && p != null && p in Prime && p.pushBlock == BlockedAt(j + 1)
                && model.blocked[j] < |model.procs| && p == Prime[model.blocked[j]]
                && p.BurstTime == model.procs[model.blocked[j]].BurstTime
    {
      if j < |model.blocked| {
        assert Prime[model.blocked[j]].Value() == model.procs[model.blocked[j]];
        if j + 1 < |model.blocked| {
          assert Prime[model.blocked[j]].pushBlock == Prime[model.blocked[j + 1]];
        }
      }
    }

    lemma NothingExpired(s: State)
      requires InRange(s) && Unexpired(s, |s.blocked|)
      ensures Release(s) == s
    {
    }

    /** The body of the release loop for the first expired record. */
    method ReleaseAt(presentN: Process, ghost j: nat, ghost arrived: nat, ghost late: nat)
      requires Linked() && Placed(model, arrived, late)
      requires j < |model.blocked| && presentN == Prime[model.blocked[j]]
      requires model.procs[model.blocked[j]].BurstTime <= 0
      requires Unexpired(model, j)
      modifies this, Prime
      ensures Linked() && model == Release(old(model)) && presentN.pushBlock == null
    {
      hide Placed, ReadyChain, BlockChain, Mirrors, Logged, Process.Value, Release, RemoveAt, InRange;
      FirstIs(model, j, arrived, late);
      assert Prime[model.blocked[j]].processID == model.blocked[j];
      SetCondition(presentN, Ready);
      var extraN := Unlist(presentN, j);
      Enqueue(extraN);
    }

    /** What the loop has found when it meets the first expired record. */
    lemma FirstIs(s: State, j: nat, arrived: nat, late: nat)
      requires Placed(s, arrived, late)
      requires j < |s.blocked| && s.procs[s.blocked[j]].BurstTime <= 0
      requires Unexpired(s, j)
      ensures var i := s.blocked[j];
              && i !in s.ready && i < |s.procs| && s.procs[i].processID == i
              && Release(s) == With(s, i, s.procs[i].(condition := Ready))
                               .(blocked := RemoveAt(s.blocked, j), ready := s.ready + [i])
    {
      assert FirstExpired(s.procs, s.blocked) == j;
      assert PlacedProc(s, s.blocked[j], arrived);
    }

    method Creation(ghost late: nat)
      requires Linked() && Placed(model, model.present, late)
      modifies this, Prime
      ensures Linked() && model == ArriveUpTo(old(model), |Prime|)
    {
      hide Placed, ReadyChain, BlockChain, Mirrors, Logged, Process.Value, InRange, ArriveUpTo;
      ghost var s := model;
      ArriveUpToZero(s);
      var i := 0;
      while i < |Prime|
        invariant 0 <= i <= |Prime| == |s.procs|
        invariant Linked() && model == ArriveUpTo(s, i)
      {
        Admit(i, s, late);
        i := i + 1;
      }
    }

    /** The body of the arrival loop. */
    method Admit(i: nat, ghost s: State, ghost late: nat)
      requires Linked() && Placed(s, s.present, late)
      requires i < |Prime| == |s.procs| && model == ArriveUpTo(s, i)
      modifies this, Prime
      ensures Linked() && model == ArriveUpTo(s, i + 1)
    {
      hide Placed, ReadyChain, BlockChain, Mirrors, Logged, Process.Value, InRange, ArriveUpTo;
      ArriveUpToStep(s, i);
      NotYetQueued(s, i, late);
      MirrorAt(i);
      if Prime[i].A == present {
        ListsInRange(model, 0, 0);
        totalPrime := totalPrime + 1;
        model := model.(totalPrime := model.totalPrime + 1);
        SetCondition(Prime[i], Ready);
        Enqueue(Prime[i]);
      }
    }

    lemma ArriveUpToZero(s: State)
      ensures ArriveUpTo(s, 0) == s
    {
      assert ArriveUpTo(s, 0).procs == s.procs;
    }

    /** A process that arrives now is not queued when the loop reaches it. */
    lemma NotYetQueued(s: State, i: nat, late: nat)
      requires Placed(s, s.present, late) && i < |s.procs|
      ensures s.procs[i].A == s.present ==> i !in ArriveUpTo(s, i).ready
      ensures ArriveUpTo(s, i).procs[i] == s.procs[i] && ArriveUpTo(s, i).present == s.present
    {
      assert PlacedProc(s, i, s.present);
      ArrivalsBelow(s.procs, s.present, i);
    }

    /** The burst drawn for a record that leaves the queue. */
    method Load(p: Process, ghost b: int)
      requires Linked() && p in Prime && b == Burst(p.Value(), rnd(line))
      modifies Prime`CPUBurst, this`line, this`model
      ensures Linked() && p.CPUBurst == b && p.processID < |old(model).procs|
      ensures model == With(old(model), p.processID, old(model).procs[p.processID].(CPUBurst := b))
                       .(line := old(model).line + 1)
    {
      hide ReadyChain, BlockChain, Logged, Burst, Process.Value;
      ghost var i := p.processID;
      ghost var q := model.procs[i].(CPUBurst := b);
      var newCPUBurst := DrawBurst(p);
      line := line + 1;
      p.SetBurst(newCPUBurst);
      model := With(model, i, q).(line := model.line + 1);
    }

    method DrawBurst(p: Process) returns (newCPUBurst: int)
      requires p.B >= 1
      ensures newCPUBurst <= p.B && newCPUBurst <= p.C - p.CPUTime
      ensures p.CPUTime < p.C ==> newCPUBurst >= 1
      ensures newCPUBurst < p.C - p.CPUTime ==> (newCPUBurst - 1) % p.B == rnd(line) % p.B
      ensures newCPUBurst == Burst(p.Value(), rnd(line))
    {
      newCPUBurst := 1 + rnd(line) % p.B;
      if newCPUBurst > p.C - p.CPUTime {
        newCPUBurst := p.C - p.CPUTime;
      }
    }

    /** A loaded record takes the processor. */
    method Launch(p: Process, selectAlg: Algorithm)
      requires Linked() && p in Prime
      modifies Prime`condition, Prime`operating, Prime`quantum, this`selection, this`model
      ensures Linked() && p.processID < |old(model).procs|
      ensures var i := p.processID;
              var q := old(model).procs[i];
              model == With(old(model), i, q.(condition := Running, operating := true,
                                             quantum := if selectAlg.RR? then 2 else q.quantum))
                       .(selection := Some(i))
    {
      hide ReadyChain, BlockChain, Logged, Process.Value;
      ghost var i := p.processID;
      ghost var q := model.procs[i];
      p.TakeProcessor(selectAlg);
      selection := p;
      model := With(model, i, q.(condition := Running, operating := true,
                                 quantum := if selectAlg.RR? then 2 else q.quantum)).(selection := Some(i));
    }

    method ExecuteR(selectAlg: Algorithm)
      requires Linked()
      modifies this, Prime
      ensures Linked() && model == Dispatch(old(model), selectAlg, rnd)
    {
      hide ReadyChain, Logged, BlockChain, Mirrors, InRange, Process.Value, Burst, RemoveAt, Pick, With, Selected;
      QueueFacts();
      if placement != 0 && selection == null {
        ghost var s := model;
        ghost var k := Pick(s, selectAlg);
        DispatchInMoves(s, selectAlg, rnd);
        MirrorAt(s.ready[k]);
        hide Dispatch;
        var p: Process;
        if selectAlg == SJF {
          PickShortest(s);
          var quickPrime := FindShortest();
          p := Unqueue(quickPrime, k);
        } else {
          PickFirst(s, selectAlg);
          p := Unqueue(Afront, k);
        }
        Load(p, Burst(s.procs[s.ready[k]], rnd(s.line)));
        if selectAlg == SJF || p.CPUBurst > 0 {
          Launch(p, selectAlg);
        }
      }
    }

    lemma PickFirst(s: State, alg: Algorithm)
      requires InRange(s) && s.ready != [] && !alg.SJF?
      ensures Pick(s, alg) == 0
    {
    }

    lemma PickShortest(s: State)
      requires InRange(s) && s.ready != []
      ensures Pick(s, SJF) == Shortest(s.procs, s.ready)
    {
    }

    /** What the head link, the counter and the running slot say. */
    lemma QueueFacts()
      requires Linked()
      ensures placement == |model.ready| && (selection == null <==> model.selection == None)
      ensures model.ready != [] ==> model.ready[0] < |Prime| && Afront == Prime[model.ready[0]]
    {
    }

    /** The dispatch as a sequence of moves of the picked process. */
    lemma DispatchInMoves(s: State, alg: Algorithm, rnd: nat -> nat)
      requires InRange(s) && s.ready != [] && s.selection == None
      ensures var k := Pick(s, alg);
              var i := s.ready[k];
              && i < |s.procs|
              && var b := Burst(s.procs[i], rnd(s.line));
                 var p := s.procs[i].(CPUBurst := b);
                 var t := With(s.(ready := RemoveAt(s.ready, k)), i, p).(line := s.line + 1);
                 && t.procs[i] == p
                 && Dispatch(s, alg, rnd) ==
                      if alg.SJF? || b > 0 then
                        With(t, i, p.(condition := Running, operating := true,
                                      quantum := if alg.RR? then 2 else p.quantum)).(selection := Some(i))
                      else t
    {
      var i := s.ready[Pick(s, alg)];
      var d := Dispatch(s, alg, rnd);
      assert s.procs[i := s.procs[i].(CPUBurst := Burst(s.procs[i], rnd(s.line)))][i := d.procs[i]]
          == s.procs[i := d.procs[i]];
    }

    /** The first loop of the countdown. */
    method CountAll(selectAlg: Algorithm)
      requires Linked()
      modifies Prime`CPUTime, Prime`Btime, Prime`waiting, Prime`BurstTime, Prime`CPUBurst, Prime`quantum
      ensures Mirrors(Tick(model, selectAlg).procs)
    {
      hide ReadyChain, BlockChain, Logged, Selected, Process.Value, TickProc;
      var i := 0;
      while i < |Prime|
        invariant 0 <= i <= |Prime|
        invariant forall j :: 0 <= j < i ==> Prime[j].Value() == TickProc(model.procs[j], selectAlg)
        invariant forall j :: i <= j < |Prime| ==> Prime[j].Value() == model.procs[j]
      {
        Prime[i].Count(selectAlg);
        i := i + 1;
      }
    }

    /** The second loop: is some process blocked? */
    method AnyBlocked(ghost procs: seq<Proc>) returns (some: bool)
      requires Mirrors(procs)
      ensures some == SomeBlocked(procs)
    {
      some := false;
      var i := 0;
      while i < |Prime|
        invariant 0 <= i <= |Prime|
        invariant forall j :: 0 <= j < i ==> procs[j].condition != Blocked
      {
        assert Prime[i].Value() == procs[i];
        if Prime[i].condition == Blocked {
          return true;
        }
        i := i + 1;
      }
    }

    method Countdown(selectAlg: Algorithm)
      requires Linked()
      modifies this`totalTimeNumber, this`model
      modifies Prime`CPUTime, Prime`Btime, Prime`waiting, Prime`BurstTime, Prime`CPUBurst, Prime`quantum
      ensures Linked() && model == Tick(old(model), selectAlg)
    {
      hide ReadyChain, BlockChain, Logged, Mirrors, Selected, InRange, SomeBlocked;
      ghost var s := model;
      TickBlocked(s, selectAlg);
      CountAll(selectAlg);
      var some := AnyBlocked(Tick(s, selectAlg).procs);
      if some {
        totalTimeNumber := totalTimeNumber + 1;
      }
      model := Tick(s, selectAlg);
    }

    /** The countdown changes no condition. */
    lemma TickBlocked(s: State, alg: Algorithm)
      ensures SomeBlocked(Tick(s, alg).procs) == SomeBlocked(s.procs)
    {
      forall i | 0 <= i < |s.procs| ensures Tick(s, alg).procs[i].condition == s.procs[i].condition { }
    }

    method Datapoint(datastream: Algorithm)
      requires Valid()
      modifies this, Prime, terminateAlg
      ensures Valid() && model == Cycle(old(model), datastream, rnd)
    {
      hide ReadyChain, BlockChain, Logged, Mirrors, Selected, InRange, Placed,
           Proceed, Release, ArriveUpTo, Dispatch, Tick;
      ghost var s := model;
      ghost var t, late := s.present, s.present + 1;
      CyclePlaced(s, datastream, rnd);
      ProceedPlaced(s, datastream);
      ReleasePlaced(Proceed(s, datastream), t, late);
      ProceedForward(datastream);
      ExecxuteB(t, late);
      if totalPrime != |Prime| {
        Creation(late);
      }
      ExecuteR(datastream);
      Countdown(datastream);
      Advance();
    }

    method Advance()
      requires Linked()
      modifies this`present, this`model
      ensures Linked() && model == old(model).(present := old(model).present + 1)
    {
      hide ReadyChain, BlockChain, Logged, Mirrors, Selected;
      present := present + 1;
      model := model.(present := model.present + 1);
    }

    // ---- whole simulations ----

    /** The simulation loop: it stops, with everything finished, at the first
        boundary where everything is. */
    method Simulate(datastream: Algorithm) returns (ghost k: nat)
      requires Valid() && Fresh(model) && AllNeedTime(model.procs)
      modifies this, Prime, terminateAlg
      ensures Valid() && InRange(old(model)) && model == Run(old(model), datastream, rnd, k)
      ensures Done(model)
      ensures forall j :: 0 <= j < k ==> !Done(Run(old(model), datastream, rnd, j))
      ensures k <= FinishBound(old(model).procs) + 1
    {
      hide Linked, InRange, Placed, Run, Fresh, AllNeedTime, FinishBound, Done;
      ghost var s := model;
      FreshInRange(s);
      BoundIsNonnegative(s.procs);
      k := 0;
      RunZero(s, datastream);
      CompletionMeansDone();
      while completion != |Prime|
        invariant Valid() && model == Run(s, datastream, rnd, k)
        invariant (completion == |Prime|) == Done(model)
        invariant forall j :: 0 <= j < k ==> !Done(Run(s, datastream, rnd, j))
        invariant k <= FinishBound(s.procs) + 1
        decreases FinishBound(s.procs) + 1 - k
      {
        if k > FinishBound(s.procs) {
          Terminates(s, datastream, rnd, k);
        }
        RunStep(s, datastream, rnd, k);
        Datapoint(datastream);
        CompletionMeansDone();
        k := k + 1;
      }
    }

    lemma RunZero(s: State, alg: Algorithm)
      requires InRange(s)
      ensures Run(s, alg, rnd, 0) == s
    {
    }

    lemma CompletionMeansDone()
      requires Linked()
      ensures completion == |Prime| <==> Done(model)
    {
    }

    /** The reset between simulations; reopening the random-number file is
        part of it here. */
    method Extra()
      requires Valid()
      modifies this, Prime
      ensures Valid() && model == SchedulerModel.Extra(old(model), rnd) && Fresh(model)
    {
      hide Placed, Fresh, BlockChain, ReadyChain, Logged, Selected, Mirrors, InRange;
      ghost var s := model;
      ExtraIsFresh(s, rnd, s.present, s.present);
      FreshPlaced(SchedulerModel.Extra(s, rnd));
      FreshCounters(SchedulerModel.Extra(s, rnd));
      ResetAll();
      ClearLists();
      model := SchedulerModel.Extra(s, rnd);
    }

    lemma FreshCounters(s: State)
      requires Fresh(s)
      ensures s.present == 0
    {
    }

    method ResetAll()
      requires Linked()
      modifies Prime
      ensures Mirrors(SchedulerModel.Extra(model, rnd).procs)
      ensures forall j :: 0 <= j < |Prime| ==> Prime[j].pushBlock == null && Prime[j].freshPrime == null
    {
      hide ReadyChain, BlockChain, Logged, Selected, Process.Value, ResetProc;
      var i := 0;
      while i < |Prime|
        invariant 0 <= i <= |Prime|
        invariant forall j :: 0 <= j < i ==> Prime[j].Value() == ResetProc(model.procs[j], rnd(j))
        invariant forall j :: 0 <= j < i ==> Prime[j].pushBlock == null && Prime[j].freshPrime == null
        invariant forall j :: i <= j < |Prime| ==> Prime[j].Value() == model.procs[j]
      {
        Prime[i].Reset(rnd(i));
        i := i + 1;
      }
    }

    method ClearLists()
      requires forall j :: 0 <= j < |Prime| ==> Prime[j].pushBlock == null && Prime[j].freshPrime == null
      modifies this
      ensures ReadyChain([]) && BlockChain([]) && Selected(None) && Logged([])
      ensures present == 0 && totalPrime == 0 && totalTimeNumber == 0 && line == 0
    {
      present := 0;
      totalPrime := 0;
      completion := 0;
      totalTimeNumber := 0;
      Afront, Aback, placement := null, null, 0;
      Blockfront, Blockback, BlockQ := null, null, 0;
      selection := null;
      line := 0;
    }

    /** Both simulations of one algorithm: each stops after the same k cycles,
        at the first boundary where everything is finished, with the same
        outcome, and the state is left ready for the next algorithm on the same
        input. */
    method Listoutputs(datastream: Algorithm) returns (ghost first: State, ghost second: State, ghost k: nat)
      requires Valid() && Fresh(model) && AllNeedTime(model.procs)
      modifies this, Prime, terminateAlg
      ensures InRange(old(model)) && first == Run(old(model), datastream, rnd, k)
      ensures Done(first) && forall j :: 0 <= j < k ==> !Done(Run(old(model), datastream, rnd, j))
      ensures k <= FinishBound(old(model).procs) + 1
      ensures InRange(first) && InRange(SchedulerModel.Extra(first, rnd))
      ensures second == Run(SchedulerModel.Extra(first, rnd), datastream, rnd, k)
      ensures Done(second) && SameOutcome(first, second)
      ensures InRange(second) && model == SchedulerModel.Extra(second, rnd)
      ensures Valid() && Fresh(model) && SameInputs(old(model).procs, model.procs)
    {
      ghost var s := model;
      FreshInRange(s);
      hide ReadyChain, BlockChain, Logged, Mirrors, Selected, InRange, Placed, Run, Fresh, SchedulerModel.Extra,
           SameOutcome, AllNeedTime, Done, FinishBound, Linked;
      k := Simulate(datastream);
      first := model;
      Extra();
      ghost var s' := model;
      RestartKeepsInputs(s, datastream, k);
      ghost var k' := Simulate(datastream);
      second := model;
      SameLength(s, s', datastream, k, k');
      Extra();
      RestartKeepsInputs(s', datastream, k');
      SameInputsChain(s.procs, s'.procs, model.procs);
    }

    lemma RestartKeepsInputs(s: State, alg: Algorithm, k: nat)
      requires InRange(s) && Fresh(s) && AllNeedTime(s.procs)
      ensures var t := SchedulerModel.Extra(Run(s, alg, rnd, k), rnd);
              InRange(t) && Fresh(t) && AllNeedTime(t.procs) && SameInputs(s.procs, t.procs)
    {
      hide Run, Fresh, InRange, Placed, SchedulerModel.Extra;
      RunPlaced(s, alg, rnd, k);
      RunKeepsInputs(s, alg, rnd, k);
      var u := Run(s, alg, rnd, k);
      ExtraIsFresh(u, rnd, k, k);
      var t := SchedulerModel.Extra(u, rnd);
      SameInputsChain(s.procs, u.procs, t.procs);
      forall i | 0 <= i < |t.procs| ensures t.procs[i].C >= 1 {
        assert SameInput(s.procs[i], t.procs[i]);
      }
    }

    /** Alike simulations stop after the same number of cycles. */
    lemma SameLength(s: State, t: State, alg: Algorithm, k: nat, k': nat)
      requires InRange(s) && Fresh(s) && InRange(t) && Fresh(t) && SameInputs(s.procs, t.procs)
      requires Done(Run(s, alg, rnd, k)) && forall j :: 0 <= j < k ==> !Done(Run(s, alg, rnd, j))
      requires Done(Run(t, alg, rnd, k')) && forall j :: 0 <= j < k' ==> !Done(Run(t, alg, rnd, j))
      ensures k == k' && SameOutcome(Run(s, alg, rnd, k), Run(t, alg, rnd, k))
    {
      hide Run, Fresh, InRange, Alike;
      FreshAlike(s, t, alg);
      var m: nat := if k < k' then k else k';
      RunAlike(s, t, alg, rnd, m);
      AlikeOutcome(Run(s, alg, rnd, m), Run(t, alg, rnd, m), alg);
    }
  }
}
