/** The shell's job table, updated by the read-eval loop and, whenever SIGCHLD
    is not blocked, by the handler. */
module ShellJobs {
  const MAXJOBS: nat := 16

  datatype JobState = UNDEF | FG | BG | ST

  datatype Job = Job(pid: int, jid: int, state: JobState, cmdline: string)

  const CLEARED := Job(0, 0, UNDEF, "")

  /** The job list and the next job ID. */
  datatype Table = Table(jobs: seq<Job>, nextjid: int)

  function EmptyTable(): Table {
    Table(seq(MAXJOBS, _ => CLEARED), 1)
  }

  // ---- the table operations on values ----

  /** The first slot with the given pid, or the number of slots. */
  function SlotOf(jobs: seq<Job>, pid: int): (k: nat)
    ensures k <= |jobs|
    ensures k < |jobs| ==> jobs[k].pid == pid
    ensures forall j :: 0 <= j < k ==> jobs[j].pid != pid
  {
    if jobs == [] then 0 else if jobs[0].pid == pid then 0 else 1 + SlotOf(jobs[1..], pid)
  }

  function Add(t: Table, pid: int, state: JobState, cmdline: string): Table {
    var k := SlotOf(t.jobs, 0);
    if pid < 1 || k == |t.jobs| then t
    else Table(t.jobs[k := Job(pid, t.nextjid, state, cmdline)],
               if t.nextjid + 1 > MAXJOBS then 1 else t.nextjid + 1)
  }

  function MaxJid(jobs: seq<Job>): (m: int)
    ensures m >= 0 && forall k :: 0 <= k < |jobs| ==> jobs[k].jid <= m
    ensures m == 0 || exists k :: 0 <= k < |jobs| && jobs[k].jid == m
  {
    if jobs == [] then 0 else
      var m := MaxJid(jobs[..|jobs| - 1]);
      if jobs[|jobs| - 1].jid > m then jobs[|jobs| - 1].jid else m
  }

  function Delete(t: Table, pid: int): Table {
    var k := SlotOf(t.jobs, pid);
    if pid < 1 || k == |t.jobs| then t
    else
      var jobs := t.jobs[k := CLEARED];
      Table(jobs, MaxJid(jobs) + 1)
  }

  /** The pid of the first foreground job, or 0. */
  function FgPid(jobs: seq<Job>): (pid: int)
    ensures (exists k :: 0 <= k < |jobs| && jobs[k].state == FG && jobs[k].pid == pid)
         || (pid == 0 && forall k :: 0 <= k < |jobs| ==> jobs[k].state != FG)
  {
    if jobs == [] then 0 else if jobs[0].state == FG then jobs[0].pid else FgPid(jobs[1..])
  }

  function SetState(t: Table, k: nat, state: JobState): Table
    requires k < |t.jobs|
  {
    t.(jobs := t.jobs[k := t.jobs[k].(state := state)])
  }

  /** The handler's effect for one reaped child. */
  function Reap(t: Table, pid: int, stopped: bool): Table {
    var k := SlotOf(t.jobs, pid);
    if pid < 1 || k == |t.jobs| then t
    else if stopped then SetState(t, k, ST)
    else Delete(t, pid)
  }

  // ---- the table in place ----

  class JobTable {
    const jobs: array<Job>
    var nextjid: int

    ghost predicate Valid()
    {
      jobs.Length == MAXJOBS
    }

    ghost function Value(): Table
      reads this, jobs
    {
      Table(jobs[..], nextjid)
    }

    constructor ()
      ensures Valid() && fresh(jobs) && Value() == EmptyTable()
    {
      jobs := new Job[MAXJOBS](_ => CLEARED);
      nextjid := 1;
      new;
      assert jobs[..] == seq(MAXJOBS, _ => CLEARED);
    }

    method AddJob(pid: int, state: JobState, cmdline: string) returns (ok: bool)
      requires Valid()
      modifies this, jobs
      ensures Value() == Add(old(Value()), pid, state, cmdline)
      ensures ok <==> pid >= 1 && exists k :: 0 <= k < MAXJOBS && old(jobs[k]).pid == 0
    {
      if pid < 1 {
        return false;
      }
      var k := 0;
      while k < MAXJOBS
        invariant 0 <= k <= MAXJOBS
        invariant forall j :: 0 <= j < k ==> jobs[j].pid != 0
      {
        if jobs[k].pid == 0 {
          SlotIs(jobs[..], 0, k);
          jobs[k] := Job(pid, nextjid, state, cmdline);
          nextjid := nextjid + 1;
          if nextjid > MAXJOBS {
            nextjid := 1;
          }
          return true;
        }
        k := k + 1;
      }
      ok := false;
    }

    method GetJobPid(pid: int) returns (slot: int)
      requires Valid()
      ensures slot == if pid < 1 || SlotOf(jobs[..], pid) == MAXJOBS then -1 else SlotOf(jobs[..], pid)
    {
      if pid < 1 {
        return -1;
      }
      var k := 0;
      while k < MAXJOBS
        invariant 0 <= k <= MAXJOBS
        invariant forall j :: 0 <= j < k ==> jobs[j].pid != pid
      {
        if jobs[k].pid == pid {
          SlotIs(jobs[..], pid, k);
          return k;
        }
        k := k + 1;
      }
      slot := -1;
    }

    method MaxJobID() returns (max: int)
      requires Valid()
      ensures max == MaxJid(jobs[..])
    {
      max := 0;
      var k := 0;
      while k < MAXJOBS
        invariant 0 <= k <= MAXJOBS && max == MaxJid(jobs[..k])
      {
        assert jobs[..k + 1][..k] == jobs[..k];
        if jobs[k].jid > max {
          max := jobs[k].jid;
        }
        k := k + 1;
      }
      assert jobs[..k] == jobs[..];
    }

    method DeleteJob(pid: int) returns (ok: bool)
      requires Valid()
      modifies this, jobs
      ensures Value() == Delete(old(Value()), pid)
      ensures ok <==> pid >= 1 && SlotOf(old(jobs[..]), pid) < MAXJOBS
    {
      var slot := GetJobPid(pid);
      if slot < 0 {
        return false;
      }
      jobs[slot] := CLEARED;
      var max := MaxJobID();
      nextjid := max + 1;
      ok := true;
    }

    method ForegroundPid() returns (pid: int)
      requires Valid()
      ensures pid == FgPid(jobs[..])
    {
      var k := 0;
      assert jobs[0..] == jobs[..];
      while k < MAXJOBS
        invariant 0 <= k <= MAXJOBS && FgPid(jobs[..]) == FgPid(jobs[k..])
      {
        assert jobs[k..][1..] == jobs[k + 1..];
        if jobs[k].state == FG {
          return jobs[k].pid;
        }
        k := k + 1;
      }
      pid := 0;
    }

    /** One turn of the loop in the SIGCHLD handler. */
    method ReapOne(pid: int, stopped: bool)
      requires Valid()
      modifies this, jobs
      ensures Value() == Reap(old(Value()), pid, stopped)
    {
      var hand := GetJobPid(pid);
      if hand >= 0 {
        if stopped {
          jobs[hand] := jobs[hand].(state := ST);
        } else {
          var ok := DeleteJob(pid);
        }
      }
    }
  }

  lemma SlotIs(jobs: seq<Job>, pid: int, k: nat)
    requires k < |jobs| && jobs[k].pid == pid && forall j :: 0 <= j < k ==> jobs[j].pid != pid
    ensures SlotOf(jobs, pid) == k
  {
  }

  // ---- laws of the table ----

  /** Live jobs have distinct pids. */
  ghost predicate DistinctPids(jobs: seq<Job>) {
    forall j, k :: 0 <= j < k < |jobs| && jobs[j].pid >= 1 ==> jobs[j].pid != jobs[k].pid
  }

  /** An addition fills one free slot, with the whole job, and no other. */
  lemma AddFills(t: Table, pid: int, state: JobState, cmdline: string)
    requires pid >= 1 && exists k :: 0 <= k < |t.jobs| && t.jobs[k].pid == 0
    ensures var u := Add(t, pid, state, cmdline);
            exists k :: 0 <= k < |t.jobs| == |u.jobs| && t.jobs[k].pid == 0
              && u.jobs[k] == Job(pid, t.nextjid, state, cmdline)
              && forall j :: 0 <= j < |t.jobs| && j != k ==> u.jobs[j] == t.jobs[j]
  {
    assert Add(t, pid, state, cmdline).jobs[SlotOf(t.jobs, 0)].pid == pid;
  }

  /** A stopped child: its job is ST, and nothing else changes. */
  lemma StopChanges(t: Table, pid: int)
    requires DistinctPids(t.jobs) && pid >= 1
    ensures var u := Reap(t, pid, true);
            && u.nextjid == t.nextjid && |u.jobs| == |t.jobs|
            && forall k :: 0 <= k < |t.jobs| ==>
                 && u.jobs[k].pid == t.jobs[k].pid && u.jobs[k].jid == t.jobs[k].jid
                 && u.jobs[k].cmdline == t.jobs[k].cmdline
                 && u.jobs[k].state == if t.jobs[k].pid == pid then ST else t.jobs[k].state
  {
  }

  /** A terminated child: its job is cleared, and the other jobs are as they were. */
  lemma TerminationChanges(t: Table, pid: int)
    requires DistinctPids(t.jobs) && pid >= 1
    ensures var u := Reap(t, pid, false);
            && |u.jobs| == |t.jobs|
            && (forall k :: 0 <= k < |t.jobs| ==>
                  u.jobs[k] == if t.jobs[k].pid == pid then CLEARED else t.jobs[k])
            && (if forall k :: 0 <= k < |t.jobs| ==> t.jobs[k].pid != pid then u == t
                else u.nextjid == MaxJid(u.jobs) + 1)
  {
  }

  /** Deleting a job just added gives back the slots as they were, when the slot
      it took was a cleared one. */
  lemma DeleteUndoesAdd(t: Table, pid: int, state: JobState, cmdline: string)
    requires pid >= 1 && SlotOf(t.jobs, pid) == |t.jobs|
    requires forall k :: 0 <= k < |t.jobs| && t.jobs[k].pid == 0 ==> t.jobs[k] == CLEARED
    ensures Delete(Add(t, pid, state, cmdline), pid).jobs == t.jobs
  {
    var a := Add(t, pid, state, cmdline);
    var k := SlotOf(t.jobs, 0);
    if k < |t.jobs| {
      SlotIs(a.jobs, pid, k);
      assert a.jobs[k := CLEARED] == t.jobs;
    }
  }

  // ---- job IDs ----

  ghost predicate DistinctJids(jobs: seq<Job>) {
    forall j, k :: 0 <= j < k < |jobs| && jobs[j].pid != 0 && jobs[k].pid != 0 ==> jobs[j].jid != jobs[k].jid
  }

  /** A live job has the ID. */
  ghost predicate InUse(jobs: seq<Job>, jid: int) {
    exists k :: 0 <= k < |jobs| && jobs[k].pid != 0 && jobs[k].jid == jid
  }

  function FreeSlots(jobs: seq<Job>): nat {
    if jobs == [] then 0 else (if jobs[0].pid == 0 then 1 else 0) + FreeSlots(jobs[1..])
  }

  /** What a deletion leaves, and the start: the next ID follows the largest. */
  ghost predicate NextFollows(t: Table) {
    t.nextjid == MaxJid(t.jobs) + 1
  }

  lemma DeletionFollows(t: Table, pid: int)
    requires pid >= 1
    ensures SlotOf(t.jobs, pid) < |t.jobs| ==> NextFollows(Delete(t, pid))
    ensures NextFollows(EmptyTable())
  {
    LargestIs(EmptyTable().jobs, 0);
  }

  lemma LargestIs(jobs: seq<Job>, k: nat)
    requires k < |jobs| && jobs[k].jid >= 0 && forall j :: 0 <= j < |jobs| ==> jobs[j].jid <= jobs[k].jid
    ensures MaxJid(jobs) == jobs[k].jid
  {
  }

  lemma {:induction false} FreeSlotsBound(jobs: seq<Job>)
    ensures FreeSlots(jobs) <= |jobs|
    ensures FreeSlots(jobs) > 0 ==> SlotOf(jobs, 0) < |jobs|
  {
    if jobs != [] { FreeSlotsBound(jobs[1..]); }
  }

  lemma {:induction false} TakeSlot(jobs: seq<Job>, job: Job)
    requires SlotOf(jobs, 0) < |jobs| && job.pid != 0
    ensures FreeSlots(jobs[SlotOf(jobs, 0) := job]) == FreeSlots(jobs) - 1
  {
    var k := SlotOf(jobs, 0);
    if jobs[0].pid == 0 {
      assert jobs[k := job][1..] == jobs[1..];
    } else {
      assert jobs[k := job][1..] == jobs[1..][k - 1 := job];
      TakeSlot(jobs[1..], job);
    }
  }

  /** Adding one job. */
  lemma AddOne(t: Table, pid: int, state: JobState, cmdline: string)
    requires pid >= 1 && FreeSlots(t.jobs) > 0
    ensures var u := Add(t, pid, state, cmdline);
            && |u.jobs| == |t.jobs| && FreeSlots(u.jobs) == FreeSlots(t.jobs) - 1
            && u.nextjid == (if t.nextjid + 1 > MAXJOBS then 1 else t.nextjid + 1)
            && (forall jid :: InUse(u.jobs, jid) <==> InUse(t.jobs, jid) || jid == t.nextjid)
            && (DistinctJids(u.jobs) <==> DistinctJids(t.jobs) && !InUse(t.jobs, t.nextjid))
  {
    FreeSlotsBound(t.jobs);
    var s, job := SlotOf(t.jobs, 0), Job(pid, t.nextjid, state, cmdline);
    TakeSlot(t.jobs, job);
    hide SlotOf, FreeSlots;
    var u := Add(t, pid, state, cmdline);
    assert u.jobs == t.jobs[s := job];
    OneMoreID(t.jobs, s, job);
  }

  lemma OneMoreID(jobs: seq<Job>, s: nat, job: Job)
    requires s < |jobs| && jobs[s].pid == 0 && job.pid != 0
    ensures var u := jobs[s := job];
            && (forall jid :: InUse(u, jid) <==> InUse(jobs, jid) || jid == job.jid)
            && (DistinctJids(u) <==> DistinctJids(jobs) && !InUse(jobs, job.jid))
  {
    var u := jobs[s := job];
    assert forall k :: 0 <= k < |jobs| && k != s ==> u[k] == jobs[k];
    assert u[s].jid == job.jid && u[s].pid != 0;
  }

  datatype NewJob = NewJob(pid: int, state: JobState, cmdline: string)

  function AddAll(t: Table, news: seq<NewJob>): Table {
    if news == [] then t
    else
      var n := news[|news| - 1];
      Add(AddAll(t, news[..|news| - 1]), n.pid, n.state, n.cmdline)
  }

  /** How many additions it takes for the next ID to wrap round, with m the
      largest before them: IDs run up to MAXJOBS, or just past m. */
  function BeforeWrap(m: int): int {
    if MAXJOBS - m > 1 then MAXJOBS - m else 1
  }

  /** The IDs given out by n additions. */
  predicate Given(m: int, n: nat, jid: int) {
    (m < jid <= m + n && jid <= m + BeforeWrap(m)) || 1 <= jid <= n - BeforeWrap(m)
  }

  lemma {:induction false} AdditionsGive(t: Table, news: seq<NewJob>)
    requires NextFollows(t) && |t.jobs| == MAXJOBS && |news| <= FreeSlots(t.jobs)
    requires DistinctJids(t.jobs) && forall k :: 0 <= k < |news| ==> news[k].pid >= 1
    ensures var u, m, n := AddAll(t, news), MaxJid(t.jobs), |news|;
            && |u.jobs| == MAXJOBS && FreeSlots(u.jobs) == FreeSlots(t.jobs) - n
            && u.nextjid == (if n < BeforeWrap(m) then m + n + 1 else n - BeforeWrap(m) + 1)
            && (forall jid :: InUse(u.jobs, jid) <==> InUse(t.jobs, jid) || Given(m, n, jid))
            && (DistinctJids(u.jobs) <==> forall jid :: 1 <= jid <= n - BeforeWrap(m) ==> !InUse(t.jobs, jid))
  {
    hide FreeSlots, DistinctJids, Add;
    var m, n := MaxJid(t.jobs), |news|;
    FreeSlotsBound(t.jobs);
    if n > 0 {
      var before, last := news[..n - 1], news[n - 1];
      AdditionsGive(t, before);
      var u := AddAll(t, before);
      AddOne(u, last.pid, last.state, last.cmdline);
      assert forall jid :: InUse(t.jobs, jid) ==> jid <= m;
      hide InUse, MaxJid;
      assert !Given(m, n - 1, u.nextjid);
      assert forall jid :: Given(m, n, jid) <==> Given(m, n - 1, jid) || jid == u.nextjid;
    }
  }

  /** From the start, or from a deletion on, n additions to a table whose live
      jobs have distinct IDs keep them distinct exactly when no live job has one
      of the IDs from 1 on that are given out once they have wrapped round. */
  lemma JobIDsStayDistinctExactlyWhen(t: Table, news: seq<NewJob>)
    requires NextFollows(t) && |t.jobs| == MAXJOBS && |news| <= FreeSlots(t.jobs)
    requires DistinctJids(t.jobs) && forall k :: 0 <= k < |news| ==> news[k].pid >= 1
    ensures DistinctJids(AddAll(t, news).jobs) <==>
              forall k :: 0 <= k < MAXJOBS && t.jobs[k].pid != 0 ==>
                !(1 <= t.jobs[k].jid <= |news| - BeforeWrap(MaxJid(t.jobs)))
  {
    hide FreeSlots, DistinctJids, AddAll, MaxJid;
    AdditionsGive(t, news);
    var limit := |news| - BeforeWrap(MaxJid(t.jobs));
    if k :| 0 <= k < MAXJOBS && t.jobs[k].pid != 0 && 1 <= t.jobs[k].jid <= limit {
      assert InUse(t.jobs, t.jobs[k].jid);
    }
  }

  /** n background jobs with pids 1 to n, added to the empty table. */
  function Filled(n: nat): Table {
    if n == 0 then EmptyTable() else Add(Filled(n - 1), n, BG, "")
  }

  lemma {:induction false} FilledSlots(n: nat)
    requires n <= MAXJOBS
    ensures var t := Filled(n);
            && |t.jobs| == MAXJOBS && t.nextjid == (if n == MAXJOBS then 1 else n + 1)
            && forall k :: 0 <= k < MAXJOBS ==> t.jobs[k] == if k < n then Job(k + 1, k + 1, BG, "") else CLEARED
  {
    if n > 0 {
      FilledSlots(n - 1);
      SlotIs(Filled(n - 1).jobs, 0, n - 1);
    }
  }

  /** A deletion from a full table leads the next job ID past the limit, so the
      addition after it wraps it round to 1, which may still be in use: a run
      from the empty table to two live jobs with job ID 1. */
  lemma JobIDsCanRepeat()
    ensures var t := Add(Add(Delete(Delete(Filled(MAXJOBS), 2), 3), 17, BG, ""), 18, BG, "");
            && |t.jobs| == MAXJOBS && t.jobs[0] == Job(1, 1, BG, "") && t.jobs[2] == Job(18, 1, BG, "")
            && DistinctJids(Filled(MAXJOBS).jobs) && !DistinctJids(t.jobs)
  {
    hide SlotOf, MaxJid, Filled;
    FilledSlots(MAXJOBS);
    var a := Filled(MAXJOBS);
    SlotIs(a.jobs, 2, 1);
    var b := Delete(a, 2);
    LargestIs(b.jobs, 15);
    SlotIs(b.jobs, 3, 2);
    var c := Delete(b, 3);
    LargestIs(c.jobs, 15);
    SlotIs(c.jobs, 0, 1);
    var d := Add(c, 17, BG, "");
    SlotIs(d.jobs, 0, 2);
    assert d.nextjid == 1;
  }
}
