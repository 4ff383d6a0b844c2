/** The read-eval loop interleaved with SIGCHLD: after any shell step at which
    the signal is not blocked, the handler may update the job table. */
module ShellSignals {
  import opened ShellJobs

  /** Where the shell is between two steps. */
  datatype PC =
    | Prompt                                          // about to read a command
    | Forked(pid: int, bg: bool, cmdline: string)     // child started, signals blocked
    | Found(slot: nat, bg: bool)                      // bg/fg has looked its job up
    | ForegroundSet(slot: nat)                        // fg has set the state, pid not yet read
    | Waiting(pid: int)                               // waitfg entered, SIGCHLD not yet blocked
    | Checking(pid: int)                              // at the test of the wait loop, SIGCHLD blocked
    | Suspended(pid: int)                             // in sigsuspend
    | Leaving(pid: int)                               // out of the wait loop, SIGCHLD still blocked

  datatype Shell = Shell(table: Table, pc: PC)

  /** What happens next: a command is typed, the shell takes its next step, or
      the handler reaps a child. */
  datatype Event =
    | External(pid: int, bg: bool, cmdline: string)
    | BgFg(slot: nat, bg: bool)
    | Next
    | Child(pid: int, stopped: bool)

  predicate Blocked(pc: PC) {
    pc.Forked? || pc.Checking? || pc.Leaving?
  }

  /** The shell's own next step. */
  function ShellStep(s: Shell): Shell {
    match s.pc
    case Prompt => s
    case Forked(pid, bg, cmdline) =>
      Shell(Add(s.table, pid, if bg then BG else FG, cmdline), if bg then Prompt else Waiting(pid))
    case Found(slot, bg) =>
      if slot >= |s.table.jobs| then s
      else Shell(SetState(s.table, slot, if bg then BG else FG), if bg then Prompt else ForegroundSet(slot))
    case ForegroundSet(slot) =>
      if slot >= |s.table.jobs| then s else s.(pc := Waiting(s.table.jobs[slot].pid))
    case Waiting(pid) => s.(pc := Checking(pid))
    case Checking(pid) => s.(pc := if pid == FgPid(s.table.jobs) then Suspended(pid) else Leaving(pid))
    case Suspended(pid) => s.(pc := Checking(pid))
    case Leaving(pid) => s.(pc := Prompt)
  }

  /** An event that cannot happen now changes nothing. A new child's pid is
      positive and no live job's; a job looked up is a live one. */
  function Step(s: Shell, e: Event): Shell {
    match e
    case External(pid, bg, cmdline) =>
      if s.pc.Prompt? && pid >= 1 && SlotOf(s.table.jobs, pid) == |s.table.jobs| then
        s.(pc := Forked(pid, bg, cmdline))
      else s
    case BgFg(slot, bg) =>
      if s.pc.Prompt? && slot < |s.table.jobs| && s.table.jobs[slot].pid >= 1 then s.(pc := Found(slot, bg)) else s
    case Next => ShellStep(s)
    case Child(pid, stopped) => if Blocked(s.pc) then s else s.(table := Reap(s.table, pid, stopped))
  }

  function Run(s: Shell, events: seq<Event>): Shell {
    if events == [] then s else Step(Run(s, events[..|events| - 1]), events[|events| - 1])
  }

  const START := Shell(EmptyTable(), Prompt)

  // ---- the foreground invariant ----

  ghost predicate NoneFG(jobs: seq<Job>) {
    forall k :: 0 <= k < |jobs| ==> jobs[k].state != FG
  }

  ghost predicate OnlyFG(jobs: seq<Job>, slot: nat) {
    forall k :: 0 <= k < |jobs| && jobs[k].state == FG ==> k == slot
  }

  /** At most one slot is FG, and it is the one the shell waits for, if any. */
  ghost predicate Foreground(s: Shell) {
    var jobs := s.table.jobs;
    && |jobs| == MAXJOBS
    && (forall j, k :: 0 <= j < k < |jobs| && jobs[j].state == FG ==> jobs[k].state != FG)
    && match s.pc
       case Prompt => NoneFG(jobs)
       case Forked(pid, _, _) => NoneFG(jobs) && pid >= 1 && forall k :: 0 <= k < |jobs| ==> jobs[k].pid != pid
       case Found(slot, _) => NoneFG(jobs) && slot < |jobs|
       case ForegroundSet(slot) => OnlyFG(jobs, slot) && slot < |jobs|
       case Waiting(pid) => WaitsFor(jobs, pid)
       case Checking(pid) => WaitsFor(jobs, pid)
       case Suspended(pid) => WaitsFor(jobs, pid)
       case Leaving(_) => NoneFG(jobs)
  }

  ghost predicate WaitsFor(jobs: seq<Job>, pid: int) {
    forall k :: 0 <= k < |jobs| && jobs[k].state == FG ==> jobs[k].pid == pid
  }

  /** Live jobs have distinct positive pids; a slot without a pid has none. */
  ghost predicate Pids(jobs: seq<Job>) {
    DistinctPids(jobs) && forall k :: 0 <= k < |jobs| ==> jobs[k].pid >= 0
  }

  lemma ReapChanges(t: Table, pid: int, stopped: bool)
    ensures var jobs, jobs' := t.jobs, Reap(t, pid, stopped).jobs;
            && |jobs'| == |jobs|
            && forall k :: 0 <= k < |jobs| ==>
                 jobs'[k] == jobs[k]
                 || (jobs'[k].state != FG && (jobs'[k] == CLEARED || jobs'[k] == jobs[k].(state := ST)))
  {
  }

  lemma StepForeground(s: Shell, e: Event)
    requires Foreground(s)
    ensures Foreground(Step(s, e))
  {
    match e
    case Child(pid, stopped) => ReapChanges(s.table, pid, stopped);
    case _ =>
  }

  lemma StepPids(s: Shell, e: Event)
    requires Foreground(s) && Pids(s.table.jobs)
    ensures Pids(Step(s, e).table.jobs)
  {
    match e
    case Child(pid, stopped) => ReapChanges(s.table, pid, stopped);
    case _ =>
  }

  lemma {:induction false} RunForeground(events: seq<Event>)
    ensures Foreground(Run(START, events)) && Pids(Run(START, events).table.jobs)
  {
    hide Step, Foreground, Pids;
    if events == [] {
      StartForeground();
    } else {
      var before := events[..|events| - 1];
      RunForeground(before);
      StepForeground(Run(START, before), events[|events| - 1]);
      StepPids(Run(START, before), events[|events| - 1]);
    }
  }

  lemma StartForeground()
    ensures Foreground(START) && Pids(START.table.jobs)
  {
  }

  /** At most one foreground job, in every interleaving of shell steps and
      handler runs; and none when the next command is read. */
  lemma AtMostOneForeground(events: seq<Event>, j: nat, k: nat)
    ensures var s := Run(START, events);
            && |s.table.jobs| == MAXJOBS
            && (j < MAXJOBS && k < MAXJOBS && s.table.jobs[j].state == FG && s.table.jobs[k].state == FG ==> j == k)
            && (j < MAXJOBS && s.pc == Prompt ==> s.table.jobs[j].state != FG)
  {
    hide Run;
    RunForeground(events);
  }

  /** `waitfg` comes back only when its job has left the foreground: at its
      return no slot is FG, so none with the pid it was called for. */
  lemma WaitfgReturnsAfterForeground(events: seq<Event>, k: nat)
    ensures var s := Run(START, events);
            s.pc.Checking? && ShellStep(s).pc.Leaving? && k < |s.table.jobs| ==> s.table.jobs[k].state != FG
  {
    hide Run;
    RunForeground(events);
  }

  // ---- where the handler runs ----

  /** From the fork until the job is recorded, and from the test of the wait loop
      until the shell is suspended, the handler cannot run: nothing but the
      shell's own step changes anything. So no child is reaped before its job is
      recorded, and no wake-up is lost. */
  lemma {:induction false} Masked(s: Shell, events: seq<Event>)
    requires s.pc.Forked? || s.pc.Checking? || s.pc.Leaving?
    requires Next !in events
    ensures Run(s, events) == s
  {
    if events != [] {
      Masked(s, events[..|events| - 1]);
    }
  }

  /** Everywhere else it can: a child that has terminated loses its job at once,
      one that was stopped keeps it as ST, and the shell stays where it is. */
  lemma Handled(s: Shell, pid: int, stopped: bool)
    requires Pids(s.table.jobs) && pid >= 1 && !s.pc.Forked? && !s.pc.Checking? && !s.pc.Leaving?
    ensures var x := Step(s, Child(pid, stopped));
            && x.pc == s.pc && |x.table.jobs| == |s.table.jobs|
            && forall k :: 0 <= k < |s.table.jobs| ==>
                 var job := s.table.jobs[k];
                 x.table.jobs[k] == if job.pid != pid then job else if stopped then job.(state := ST) else CLEARED
  {
    hide Reap;
    if stopped { StopChanges(s.table, pid); } else { TerminationChanges(s.table, pid); }
  }

  // ---- when waitfg cannot come back ----

  /** The shell waits for pid 0. */
  ghost predicate WaitsForNobody(s: Shell) {
    s.pc == Waiting(0) || s.pc == Checking(0) || s.pc == Suspended(0)
  }

  /** Once `waitfg` has been called with pid 0, no event ever ends the wait. */
  lemma {:induction false} ZeroWaitNeverEnds(s: Shell, events: seq<Event>)
    requires Foreground(s) && WaitsForNobody(s)
    ensures Foreground(Run(s, events)) && WaitsForNobody(Run(s, events))
  {
    if events != [] {
      var before := events[..|events| - 1];
      ZeroWaitNeverEnds(s, before);
      StepForeground(Run(s, before), events[|events| - 1]);
      assert Run(s, events) == Step(Run(s, before), events[|events| - 1]);
      hide Run;
    }
  }

  // ---- when waitfg can come back ----

  /** Inside `waitfg`, before it has seen its job leave the foreground. */
  predicate InWait(pc: PC) {
    pc.Waiting? || pc.Checking? || pc.Suspended?
  }

  lemma {:induction false} RunConcat(s: Shell, a: seq<Event>, b: seq<Event>)
    ensures Run(s, a + b) == Run(Run(s, a), b)
  {
    hide Step;
    if b == [] {
      assert a + b == a;
    } else {
      assert (a + b)[..|a + b| - 1] == a + b[..|b| - 1];
      RunConcat(s, a, b[..|b| - 1]);
    }
  }

  lemma RunFirst(s: Shell, e: Event, rest: seq<Event>)
    ensures Run(s, [e] + rest) == Run(Step(s, e), rest)
  {
    hide Step;
    RunConcat(s, [e], rest);
    assert [e][..0] == [] && Run(s, []) == s;
  }

  lemma ReapLeavesNone(t: Table, pid: int, stopped: bool)
    requires Pids(t.jobs) && WaitsFor(t.jobs, pid) && pid >= 1
    ensures NoneFG(Reap(t, pid, stopped).jobs) && FgPid(Reap(t, pid, stopped).jobs) == 0
  {
    hide Reap;
    if stopped { StopChanges(t, pid); } else { TerminationChanges(t, pid); }
  }

  /** With no job in the foreground, two or three steps lead back to the prompt. */
  lemma IdleWaitEnds(s: Shell)
    requires NoneFG(s.table.jobs) && InWait(s.pc) && s.pc.pid != 0
    ensures Run(s, if s.pc.Checking? then [Next, Next] else [Next, Next, Next]).pc == Prompt
  {
    var t := s.(pc := Checking(s.pc.pid));
    RunFirst(t, Next, [Next]);
    RunFirst(Step(t, Next), Next, []);
    assert [Next] + [Next] == [Next, Next] && [Next] + [Next, Next] == [Next, Next, Next];
    if !s.pc.Checking? {
      RunFirst(s, Next, [Next, Next]);
    }
  }

  lemma OnlyTheWaitedIsFG(s: Shell)
    requires Foreground(s) && InWait(s.pc)
    ensures WaitsFor(s.table.jobs, s.pc.pid)
    ensures Pids(s.table.jobs) && s.pc.pid < 0 ==> NoneFG(s.table.jobs)
  {
  }

  /** Unless SIGCHLD is blocked, the child can be reaped at once, whether it was
      stopped or has terminated: the next test then ends the wait. */
  lemma ReapedWaitEnds(s: Shell, stopped: bool)
    requires Foreground(s) && Pids(s.table.jobs) && (s.pc.Waiting? || s.pc.Suspended?) && s.pc.pid >= 1
    ensures Run(s, [Child(s.pc.pid, stopped), Next, Next, Next]).pc == Prompt
  {
    hide Pids, Foreground, WaitsFor, NoneFG, FgPid, Reap, Run;
    OnlyTheWaitedIsFG(s);
    var e := Child(s.pc.pid, stopped);
    ReapLeavesNone(s.table, s.pc.pid, stopped);
    IdleWaitEnds(Step(s, e));
    RunFirst(s, e, [Next, Next, Next]);
    assert [e] + [Next, Next, Next] == [e, Next, Next, Next];
  }

  lemma UnblockedWaitEnds(s: Shell)
    requires Foreground(s) && Pids(s.table.jobs) && (s.pc.Waiting? || s.pc.Suspended?) && s.pc.pid != 0
    ensures exists events :: Run(s, events).pc == Prompt
  {
    hide Pids, Foreground, WaitsFor, NoneFG, Run;
    OnlyTheWaitedIsFG(s);
    if s.pc.pid < 0 { IdleWaitEnds(s); } else { ReapedWaitEnds(s, false); }
  }

  /** A wait can be brought to an end, by some events, exactly when it is not for pid 0. */
  lemma WaitCanEndExactlyWhen(s: Shell)
    requires Foreground(s) && Pids(s.table.jobs) && InWait(s.pc)
    ensures (exists events :: Run(s, events).pc == Prompt) <==> s.pc.pid != 0
  {
    hide Foreground, Pids;
    if s.pc.pid == 0 {
      forall events ensures Run(s, events).pc != Prompt {
        ZeroWaitNeverEnds(s, events);
      }
    } else if !s.pc.Checking? {
      UnblockedWaitEnds(s);
    } else {
      StepForeground(s, Next);
      StepPids(s, Next);
      var t := Step(s, Next);
      if t.pc.Leaving? {
        RunFirst(t, Next, []);
        RunFirst(s, Next, [Next]);
      } else {
        UnblockedWaitEnds(t);
        var events :| Run(t, events).pc == Prompt;
        RunFirst(s, Next, events);
      }
    }
  }

  /** The pid waited for is never negative. */
  lemma {:induction false} RunWaitPid(events: seq<Event>)
    ensures var s := Run(START, events); InWait(s.pc) ==> s.pc.pid >= 0
  {
    if events != [] {
      var before := events[..|events| - 1];
      RunWaitPid(before);
      RunForeground(before);
      var s, e := Run(START, before), events[|events| - 1];
      assert Run(START, events) == Step(s, e);
      hide Run;
    }
  }

  /** The shell can get back to its prompt after the events. */
  ghost predicate CanReturn(s: Shell, events: seq<Event>) {
    exists more :: Run(s, events + more).pc == Prompt
  }

  lemma CanReturnFromThere(s: Shell, events: seq<Event>)
    ensures CanReturn(s, events) <==> exists more :: Run(Run(s, events), more).pc == Prompt
  {
    hide Step;
    if more :| Run(Run(s, events), more).pc == Prompt {
      RunConcat(s, events, more);
    }
    if more :| Run(s, events + more).pc == Prompt {
      RunConcat(s, events, more);
    }
  }

  /** In every run: the shell can get back to its prompt from a wait exactly
      when the wait is for a real pid. */
  lemma WaitEndsExactlyWhen(events: seq<Event>)
    requires InWait(Run(START, events).pc)
    ensures CanReturn(START, events) <==> Run(START, events).pc.pid >= 1
  {
    hide Run, Foreground, Pids;
    RunForeground(events);
    RunWaitPid(events);
    WaitCanEndExactlyWhen(Run(START, events));
    CanReturnFromThere(START, events);
  }

  // ---- the shell waits for a foreground job ----

  /** The job with the pid is FG. */
  ghost predicate InForeground(jobs: seq<Job>, pid: int) {
    exists k :: 0 <= k < |jobs| && jobs[k].pid == pid && jobs[k].state == FG
  }

  /** The shell is committed to wait for the pid: it has set the job FG and will
      read its pid, or it waits. */
  ghost predicate Committed(s: Shell, pid: int) {
    && (InWait(s.pc) ==> s.pc.pid == pid)
    && (InWait(s.pc) || (s.pc.ForegroundSet? && s.pc.slot < |s.table.jobs| && s.table.jobs[s.pc.slot].pid == pid))
    && InForeground(s.table.jobs, pid)
  }

  /** No other event ends that: only the child itself can. */
  lemma StepCommitted(s: Shell, e: Event, pid: int)
    requires Foreground(s) && Pids(s.table.jobs) && Committed(s, pid) && pid >= 1
    requires forall stopped :: e != Child(pid, stopped)
    ensures Committed(Step(s, e), pid) && (InWait(s.pc) ==> InWait(Step(s, e).pc))
  {
    var k :| 0 <= k < |s.table.jobs| && s.table.jobs[k].pid == pid && s.table.jobs[k].state == FG;
    match e
    case Child(other, stopped) =>
      if !Blocked(s.pc) && other >= 1 {
        if stopped { StopChanges(s.table, other); } else { TerminationChanges(s.table, other); }
        assert Step(s, e).table.jobs[k] == s.table.jobs[k];
      }
    case Next =>
      FgPidIs(s.table.jobs, k);
      assert Step(s, e).table == s.table;
    case _ =>
  }

  lemma FgPidIs(jobs: seq<Job>, k: nat)
    requires k < |jobs| && jobs[k].state == FG
    requires forall j :: 0 <= j < |jobs| && jobs[j].state == FG ==> jobs[j].pid == jobs[k].pid
    ensures FgPid(jobs) == jobs[k].pid
  {
  }

  lemma {:induction false} RunCommitted(s: Shell, events: seq<Event>, pid: int)
    requires Foreground(s) && Pids(s.table.jobs) && Committed(s, pid) && pid >= 1
    requires forall stopped :: Child(pid, stopped) !in events
    ensures var x := Run(s, events);
            Foreground(x) && Pids(x.table.jobs) && Committed(x, pid) && (InWait(s.pc) ==> InWait(x.pc))
  {
    hide Step, Foreground, Pids, Committed, Run;
    RunNothing(s);
    if events != [] {
      var before, e := events[..|events| - 1], events[|events| - 1];
      RunLast(s, events);
      RunCommitted(s, before, pid);
      StepForeground(Run(s, before), e);
      StepPids(Run(s, before), e);
      StepCommitted(Run(s, before), e, pid);
    }
  }

  /** `eval` records its child in a free slot, FG and waited for, or BG and not. */
  lemma EvalRecords(s: Shell)
    requires Foreground(s) && Pids(s.table.jobs) && s.pc.Forked?
    requires exists k :: 0 <= k < |s.table.jobs| && s.table.jobs[k].pid == 0
    ensures var x, state := Step(s, Next), if s.pc.bg then BG else FG;
            && x.pc == (if s.pc.bg then Prompt else Waiting(s.pc.pid))
            && exists k :: 0 <= k < |s.table.jobs| == |x.table.jobs| && s.table.jobs[k].pid == 0
                 && x.table.jobs[k] == Job(s.pc.pid, s.table.nextjid, state, s.pc.cmdline)
                 && forall j :: 0 <= j < |s.table.jobs| && j != k ==> x.table.jobs[j] == s.table.jobs[j]
  {
    hide Add, Foreground, Pids;
    assert s.pc.pid >= 1 by { ForkedPid(s); }
    AddFills(s.table, s.pc.pid, if s.pc.bg then BG else FG, s.pc.cmdline);
  }

  lemma ForkedPid(s: Shell)
    requires Foreground(s) && s.pc.Forked?
    ensures s.pc.pid >= 1
  {
  }

  /** A foreground command: from `eval` on, the shell waits, and the job is FG,
      until the child itself is stopped or terminates. */
  lemma EvalWaits(s: Shell, events: seq<Event>)
    requires Foreground(s) && Pids(s.table.jobs) && s.pc.Forked? && !s.pc.bg
    requires exists k :: 0 <= k < |s.table.jobs| && s.table.jobs[k].pid == 0
    requires forall stopped :: Child(s.pc.pid, stopped) !in events
    ensures var x := Run(s, [Next] + events);
            InWait(x.pc) && x.pc.pid == s.pc.pid && InForeground(x.table.jobs, s.pc.pid)
  {
    hide Step, Foreground, Pids, Run;
    ForkedPid(s);
    EvalRecords(s);
    StepForeground(s, Next);
    StepPids(s, Next);
    RunFirst(s, Next, events);
    RunCommitted(Step(s, Next), events, s.pc.pid);
  }

  /** `bg` and `fg` change the state of the job they looked up, and nothing else. */
  lemma BgFgSets(s: Shell)
    requires Foreground(s) && s.pc.Found?
    ensures var slot, x := s.pc.slot, Step(s, Next);
            && slot < |s.table.jobs| == |x.table.jobs| && x.table.nextjid == s.table.nextjid
            && x.table.jobs[slot] == s.table.jobs[slot].(state := if s.pc.bg then BG else FG)
            && (forall k :: 0 <= k < |s.table.jobs| && k != slot ==> x.table.jobs[k] == s.table.jobs[k])
            && x.pc == if s.pc.bg then Prompt else ForegroundSet(slot)
  {
  }

  /** `fg` on a live job: the job is FG, and the shell does not return to its
      prompt, until the child is stopped or terminates. */
  lemma FgWaits(s: Shell, events: seq<Event>)
    requires Foreground(s) && Pids(s.table.jobs) && s.pc.Found? && !s.pc.bg
    requires s.pc.slot < |s.table.jobs| && s.table.jobs[s.pc.slot].pid >= 1
    requires forall stopped :: Child(s.table.jobs[s.pc.slot].pid, stopped) !in events
    ensures var x, pid := Run(s, [Next] + events), s.table.jobs[s.pc.slot].pid;
            x.pc != Prompt && InForeground(x.table.jobs, pid) && (InWait(x.pc) ==> x.pc.pid == pid)
  {
    hide Step, Foreground, Pids, Run;
    BgFgSets(s);
    StepForeground(s, Next);
    StepPids(s, Next);
    RunFirst(s, Next, events);
    RunCommitted(Step(s, Next), events, s.table.jobs[s.pc.slot].pid);
  }

  // ---- when fg waits for nobody ----

  /** No event of the list has led into a wait yet. */
  ghost predicate BeforeWait(s: Shell, events: seq<Event>) {
    forall k :: 0 <= k < |events| ==> !InWait(Run(s, events[..k]).pc)
  }

  /** What fg will read as the pid of the job it looked up. */
  function PidRead(pid: int, events: seq<Event>): int {
    if Child(pid, false) in events then 0 else pid
  }

  lemma RunLast(s: Shell, events: seq<Event>)
    requires events != []
    ensures var before, e := events[..|events| - 1], events[|events| - 1];
            Run(s, events) == Step(Run(s, before), e) && events == before + [e]
  {
    hide Step;
  }

  lemma BeforeWaitPrefix(s: Shell, events: seq<Event>)
    requires events != [] && BeforeWait(s, events)
    ensures var before := events[..|events| - 1]; BeforeWait(s, before) && !InWait(Run(s, before).pc)
  {
    hide Run;
    var before := events[..|events| - 1];
    forall k | 0 <= k < |before| ensures !InWait(Run(s, before[..k]).pc) {
      assert events[..k] == before[..k];
    }
    assert events[..|before|] == before;
  }

  lemma RunNothing(s: Shell)
    ensures Run(s, []) == s
    ensures Foreground(s) ==> |s.table.jobs| == MAXJOBS
  {
  }

  /** Until fg reads the pid, its slot holds the job, or nothing once it was reaped. */
  lemma {:induction false} FgSlot(s: Shell, slot: nat, events: seq<Event>)
    requires Foreground(s) && Pids(s.table.jobs) && s.pc == Found(slot, false)
    requires slot < |s.table.jobs| && s.table.jobs[slot].pid >= 1
    requires BeforeWait(s, events) && !InWait(Run(s, events).pc)
    ensures var x := Run(s, events);
            && Foreground(x) && Pids(x.table.jobs) && x.pc in {Found(slot, false), ForegroundSet(slot)}
            && |x.table.jobs| == MAXJOBS && slot < MAXJOBS
            && x.table.jobs[slot].pid == PidRead(s.table.jobs[slot].pid, events)
  {
    hide Run, Step, Foreground, Pids, BeforeWait;
    RunNothing(s);
    if events != [] {
      var before, e := events[..|events| - 1], events[|events| - 1];
      BeforeWaitPrefix(s, events);
      RunLast(s, events);
      FgSlot(s, slot, before);
      StepForeground(Run(s, before), e);
      StepPids(Run(s, before), e);
      StepSlot(Run(s, before), e, slot, s.table.jobs[slot].pid);
    }
  }

  /** One event while fg is about to read the pid of its job. */
  lemma StepSlot(x: Shell, e: Event, slot: nat, pid: int)
    requires Pids(x.table.jobs) && |x.table.jobs| == MAXJOBS && slot < MAXJOBS && pid >= 1
    requires x.pc in {Found(slot, false), ForegroundSet(slot)} && x.table.jobs[slot].pid in {0, pid}
    ensures var y := Step(x, e);
            && |y.table.jobs| == MAXJOBS
            && y.table.jobs[slot].pid == (if e == Child(pid, false) then 0 else x.table.jobs[slot].pid)
            && (InWait(y.pc) ==> e == Next && x.pc.ForegroundSet? && y.pc == Waiting(x.table.jobs[slot].pid))
            && (!InWait(y.pc) ==> y.pc in {Found(slot, false), ForegroundSet(slot)})
  {
  }

  /** The state in which the wait begins. */
  lemma FgEntersWait(s: Shell, slot: nat, events: seq<Event>)
    requires Foreground(s) && Pids(s.table.jobs) && s.pc == Found(slot, false)
    requires slot < |s.table.jobs| && s.table.jobs[slot].pid >= 1
    requires BeforeWait(s, events) && InWait(Run(s, events).pc)
    ensures var y := Run(s, events);
            Foreground(y) && Pids(y.table.jobs) && y.pc == Waiting(PidRead(s.table.jobs[slot].pid, events))
  {
    hide Run, Step, Foreground, Pids, BeforeWait;
    RunNothing(s);
    var before, e := events[..|events| - 1], events[|events| - 1];
    BeforeWaitPrefix(s, events);
    RunLast(s, events);
    FgSlot(s, slot, before);
    StepForeground(Run(s, before), e);
    StepPids(Run(s, before), e);
    StepSlot(Run(s, before), e, slot, s.table.jobs[slot].pid);
  }

  /** `fg` on a live job waits for pid 0 exactly when the job was reaped before
      its pid was read, and otherwise for the job; and the wait can never end
      in exactly the first case. */
  lemma FgWaitsForNobodyExactlyWhen(s: Shell, slot: nat, events: seq<Event>)
    requires Foreground(s) && Pids(s.table.jobs) && s.pc == Found(slot, false)
    requires slot < |s.table.jobs| && s.table.jobs[slot].pid >= 1
    requires BeforeWait(s, events) && InWait(Run(s, events).pc)
    ensures var pid := s.table.jobs[slot].pid;
            && Run(s, events).pc == Waiting(PidRead(pid, events))
            && (CanReturn(s, events) <==> Child(pid, false) !in events)
  {
    hide Run, BeforeWait, Foreground, Pids;
    FgEntersWait(s, slot, events);
    WaitCanEndExactlyWhen(Run(s, events));
    CanReturnFromThere(s, events);
  }

  // ---- the shortest such run ----

  /** A run from the start in which `fg` waits for pid 0: the job that fg looked up may be reaped
      before its pid is read. */
  lemma FgCanWaitForNobody(pid: int, cmdline: string)
    requires pid >= 1
    ensures WaitsForNobody(
              Run(START, [External(pid, true, cmdline), Next, BgFg(0, false), Child(pid, false), Next, Next]))
  {
    var e := [External(pid, true, cmdline), Next, BgFg(0, false), Child(pid, false), Next, Next];
    StartOneJob(pid, cmdline);
    var s2 := Step(Step(START, e[0]), e[1]);
    LoseTheJob(s2, pid);
    hide Step;
    RunPrefix(START, e, 0); RunPrefix(START, e, 1); RunPrefix(START, e, 2);
    RunPrefix(START, e, 3); RunPrefix(START, e, 4); RunPrefix(START, e, 5);
    assert e[..6] == e;
  }

  lemma StartOneJob(pid: int, cmdline: string)
    requires pid >= 1
    ensures var s := Step(Step(START, External(pid, true, cmdline)), Next);
            s.pc == Prompt && |s.table.jobs| == MAXJOBS && s.table.jobs[0].pid == pid
  {
    assert SlotOf(START.table.jobs, 0) == 0;
  }

  lemma LoseTheJob(s: Shell, pid: int)
    requires pid >= 1 && s.pc == Prompt && |s.table.jobs| == MAXJOBS && s.table.jobs[0].pid == pid
    ensures Step(Step(Step(Step(s, BgFg(0, false)), Child(pid, false)), Next), Next).pc == Waiting(0)
  {
    var s1 := Step(s, BgFg(0, false));
    var s2 := Step(s1, Child(pid, false));
    assert s2.pc == Found(0, false) && s2.table.jobs[0] == CLEARED && |s2.table.jobs| == MAXJOBS;
  }

  lemma RunPrefix(s: Shell, events: seq<Event>, n: nat)
    requires n < |events|
    ensures Run(s, events[..0]) == s && Run(s, events[..n + 1]) == Step(Run(s, events[..n]), events[n])
  {
    hide Step;
    assert events[..n + 1][..n] == events[..n];
  }
}
