/** The invariant of the worker machine and the proof that every step keeps it. */
module WorkerInvariant {
  import opened WorkerModel

  // -------------------------------------------------------------------------
  // Counting tasks
  // -------------------------------------------------------------------------

  function One(b: bool): nat { if b then 1 else 0 }

  lemma {:induction false} CountUpdate(ts: seq<Task>, i: nat, t: Task, k: Class)
    requires i < |ts|
    ensures Count(ts[i := t], k) + One(In(ts[i].pc, k)) == Count(ts, k) + One(In(t.pc, k))
  {
    var n := |ts| - 1;
    if i == n {
      assert ts[i := t][..n] == ts[..n];
    } else {
      assert ts[i := t][..n] == ts[..n][i := t];
      CountUpdate(ts[..n], i, t, k);
    }
  }

  lemma CountAppend(ts: seq<Task>, t: Task, k: Class)
    ensures Count(ts + [t], k) == Count(ts, k) + One(In(t.pc, k))
  {
    assert (ts + [t])[..|ts|] == ts;
  }

  lemma SpawnCounts(ts: seq<Task>, t: Task)
    requires t.pc.Starting?
    ensures Count(ts + [t], Holder) == Count(ts, Holder) + 1
    ensures Count(ts + [t], Charged) == Count(ts, Charged) + 1
    ensures Count(ts + [t], Broken) == Count(ts, Broken)
  {
    CountAppend(ts, t, Holder);
    CountAppend(ts, t, Charged);
    CountAppend(ts, t, Broken);
  }

  lemma {:induction false} CountWitness(ts: seq<Task>, k: Class)
    ensures Count(ts, k) > 0 <==> exists i :: 0 <= i < |ts| && In(ts[i].pc, k)
  {
    if ts != [] {
      var n := |ts| - 1;
      CountWitness(ts[..n], k);
      assert ts == ts[..n] + [ts[n]];
    }
  }

  /** A task holds a permit without being charged only after its decrement, and is charged
      without holding a permit only after a panic. */
  lemma {:induction false} HoldersAgainstCharged(ts: seq<Task>)
    ensures Count(ts, Holder) + Count(ts, Lost) == Count(ts, Charged) + Count(ts, Paid)
    ensures Count(ts, Handler) <= Count(ts, Holder)
    ensures Count(ts, Lost) <= Count(ts, Charged)
  {
    if ts != [] {
      HoldersAgainstCharged(ts[..|ts| - 1]);
    }
  }

  lemma {:induction false} EveryTaskInOneClass(ts: seq<Task>)
    ensures Count(ts, Open) + Count(ts, Reported) + Count(ts, Broken) == |ts|
  {
    if ts != [] {
      EveryTaskInOneClass(ts[..|ts| - 1]);
    }
  }

  // -------------------------------------------------------------------------
  // The invariant
  // -------------------------------------------------------------------------

  /** Jobs that were fetched and have no task yet. */
  function InHand(pc: LoopPc): seq<JobId> {
    match pc
    case Admitting(batch) => batch
    case Holding(j, rest) => [j] + rest
    case Counting(j, rest) => [j] + rest
    case Tracking(j, rest) => [j] + rest
    case _ => []
  }

  /** Permits the loop itself holds. */
  function LoopPermits(pc: LoopPc): nat {
    One(pc.Holding? || pc.Counting? || pc.Tracking?)
  }

  /** Increments the loop has made for a task that does not exist yet. */
  function LoopCharge(pc: LoopPc): nat {
    One(pc.Counting? || pc.Tracking?)
  }

  /** One report per job that got as far as reporting, and none before. */
  predicate CalledOnce(t: Task) {
    && |t.outcome| == One((t.pc.Calling? || t.pc.Returned? || t.pc.Uncounted? || t.pc.Untracked? || t.pc.Done?))
    && t.calls == (if t.outcome == [] then [] else [Report(t.outcome[0])])
  }

  predicate MayBeListed(s: World, id: JobId) {
    || (s.pc.Tracking? && s.pc.job == id)
    || exists i :: 0 <= i < |s.tasks| && Trackable(s.tasks[i].pc) && s.tasks[i].job == id
  }

  predicate Counted(s: World) {
    && s.free + Count(s.tasks, Holder) + LoopPermits(s.pc) == s.concurrency
    && s.activeCount == Count(s.tasks, Charged) + LoopCharge(s.pc)
  }

  predicate Conserved(s: World) {
    s.fetched == Jobs(s.tasks) + InHand(s.pc)
  }

  predicate AllCalledOnce(s: World) {
    forall i :: 0 <= i < |s.tasks| ==> CalledOnce(s.tasks[i])
  }

  predicate NothingElseListed(s: World) {
    forall id :: id in s.activeJobs ==> MayBeListed(s, id)
  }

  predicate Shaped(s: World) {
    && (s.pc.Signalled? ==> s.shutdown)
    && (s.pc.Admitting? ==> s.pc.batch != [])
    && (s.pc.Asking? ==> s.pc.count > 0)
    && (s.pc.Asking? || s.pc.Awaiting? || InHand(s.pc) != [] ==> s.concurrency > 0)
    && (s.pc == Stopped(true) ==> s.activeCount == 0)
  }

  predicate Inv(s: World) {
    Counted(s) && Conserved(s) && AllCalledOnce(s) && NothingElseListed(s) && Shaped(s)
  }

  /** What the count leaves room for, when a fetch returns no more than it asked for. */
  predicate Budget(s: World) {
    match s.pc
    case Asking(n) => s.activeCount + n <= s.concurrency
    case Awaiting(n) => s.activeCount + n <= s.concurrency
    case Admitting(batch) => s.activeCount + |batch| <= s.concurrency
    case Holding(_, rest) => s.activeCount + 1 + |rest| <= s.concurrency
    case Counting(_, rest) => s.activeCount + |rest| <= s.concurrency
    case Tracking(_, rest) => s.activeCount + |rest| <= s.concurrency
    case _ => true
  }

  predicate WithinBudget(s: World) {
    Budget(s) && s.activeCount <= s.concurrency
  }

  /** Jobs in flight have distinct ids. */
  predicate Apart(s: World) {
    && Distinct(InHand(s.pc))
    && (forall i, j :: 0 <= i < j < |s.tasks| && Live(s.tasks[i].pc) && Live(s.tasks[j].pc) ==>
          s.tasks[i].job != s.tasks[j].job)
    && (forall i :: 0 <= i < |s.tasks| && Live(s.tasks[i].pc) ==> s.tasks[i].job !in InHand(s.pc))
  }

  /** Every job in flight is in the set the heartbeat sends. */
  predicate Listed(s: World) {
    && (s.pc.Tracking? ==> s.pc.job in s.activeJobs)
    && (forall i :: 0 <= i < |s.tasks| && Live(s.tasks[i].pc) ==> s.tasks[i].job in s.activeJobs)
  }

  predicate Safe(s: World, server: Trust) {
    && Inv(s)
    && (server.honest ==> WithinBudget(s))
    && (server.unique ==> Apart(s) && Listed(s))
  }

  // -------------------------------------------------------------------------
  // Steps that leave the jobs alone
  // -------------------------------------------------------------------------

  /** No job is in the loop's hands. */
  predicate EmptyHanded(pc: LoopPc) {
    !(pc.Admitting? || pc.Holding? || pc.Counting? || pc.Tracking?)
  }

  /** Polling, draining, the heartbeat and the signal change nothing that concerns jobs. */
  predicate SameWork(s: World, s': World) {
    && s' == s.(state := s'.state, shutdown := s'.shutdown, beat := s'.beat, pc := s'.pc, sent := s'.sent)
    && (s'.pc == s.pc || (EmptyHanded(s.pc) && EmptyHanded(s'.pc)))
  }

  lemma PollIsSameWork(s: World, a: PollAct)
    requires PollEnabled(s, a)
    ensures SameWork(s, PollNext(s, a))
  {
  }

  lemma DrainIsSameWork(s: World, a: DrainAct)
    requires DrainEnabled(s, a)
    ensures SameWork(s, DrainNext(s, a))
  {
  }

  lemma SameWorkKeepsListing(s: World, s': World)
    requires NothingElseListed(s) && SameWork(s, s')
    ensures NothingElseListed(s')
  {
    forall id | id in s'.activeJobs ensures MayBeListed(s', id) {
      assert MayBeListed(s, id);
    }
  }

  lemma SameWorkKeepsInv(s: World, s': World)
    requires Inv(s) && SameWork(s, s') && Shaped(s')
    ensures Inv(s')
  {
    SameWorkKeepsListing(s, s');
  }

  lemma SameWorkKeepsListed(s: World, s': World)
    requires Apart(s) && Listed(s) && SameWork(s, s')
    ensures Apart(s') && Listed(s')
  {
  }

  // -------------------------------------------------------------------------
  // Every step keeps the invariant
  // -------------------------------------------------------------------------

  lemma TaskStepKeepsCounted(s: World, i: nat, a: TaskAct)
    requires Counted(s) && i < |s.tasks| && TaskEnabled(s.tasks[i], a)
    ensures Counted(TaskStepNext(s, i, a))
  {
    var t' := TaskNext(s.tasks[i], a);
    CountUpdate(s.tasks, i, t', Holder);
    CountUpdate(s.tasks, i, t', Charged);
  }

  /** One more task that holds a permit and is charged, and a loop that no longer is. */
  lemma TakenOver(s: World, s': World)
    requires Counted(s) && s.pc.Tracking? && (s'.pc.Top? || s'.pc.Admitting?)
    requires s'.concurrency == s.concurrency && s'.free == s.free && s'.activeCount == s.activeCount
    requires Count(s'.tasks, Holder) == Count(s.tasks, Holder) + 1
    requires Count(s'.tasks, Charged) == Count(s.tasks, Charged) + 1
    ensures Counted(s')
  {
  }

  /** The new task takes over the permit and the charge that the loop held for it. */
  lemma SpawnKeepsCounted(s: World)
    requires Counted(s) && s.pc.Tracking?
    ensures Counted(AdmitNext(s, Spawn))
  {
    var t := Task(s.pc.job, Starting, [], []);
    SpawnCounts(s.tasks, t);
    TakenOver(s, AdmitNext(s, Spawn));
  }

  lemma AdmitKeepsCounted(s: World, a: AdmitAct)
    requires Counted(s) && AdmitEnabled(s, a)
    ensures Counted(AdmitNext(s, a))
  {
    if a.Spawn? {
      SpawnKeepsCounted(s);
    } else {
      assert AdmitNext(s, a).tasks == s.tasks;
    }
  }

  lemma TaskStepKeepsConserved(s: World, i: nat, a: TaskAct)
    requires Conserved(s) && i < |s.tasks| && TaskEnabled(s.tasks[i], a)
    ensures Conserved(TaskStepNext(s, i, a))
  {
    assert Jobs(TaskStepNext(s, i, a).tasks) == Jobs(s.tasks);
  }

  lemma SpawnKeepsConserved(s: World)
    requires Conserved(s) && s.pc.Tracking?
    ensures Conserved(AdmitNext(s, Spawn))
  {
    var rest := s.pc.rest;
    assert Jobs(s.tasks + [Task(s.pc.job, Starting, [], [])]) == Jobs(s.tasks) + [s.pc.job];
    assert Jobs(s.tasks) + ([s.pc.job] + rest) == Jobs(s.tasks) + [s.pc.job] + rest;
    assert InHand(AdmitNext(s, Spawn).pc) == rest;
  }

  lemma AdmitKeepsConserved(s: World, a: AdmitAct)
    requires Conserved(s) && Shaped(s) && AdmitEnabled(s, a)
    ensures Conserved(AdmitNext(s, a))
  {
    if a.Spawn? {
      SpawnKeepsConserved(s);
    } else if a.Acquire? {
      assert [s.pc.batch[0]] + s.pc.batch[1..] == s.pc.batch;
    } else if a.FetchOk? {
      assert Jobs(s.tasks) + [] == Jobs(s.tasks);
    }
  }

  lemma TaskStepKeepsListing(s: World, i: nat, a: TaskAct)
    requires NothingElseListed(s) && i < |s.tasks| && TaskEnabled(s.tasks[i], a)
    ensures NothingElseListed(TaskStepNext(s, i, a))
  {
    var s' := TaskStepNext(s, i, a);
    forall id | id in s'.activeJobs ensures MayBeListed(s', id) {
      assert MayBeListed(s, id);
      if !(s.pc.Tracking? && s.pc.job == id) {
        var j :| 0 <= j < |s.tasks| && Trackable(s.tasks[j].pc) && s.tasks[j].job == id;
        assert s'.tasks[j].job == id && Trackable(s'.tasks[j].pc);
      }
    }
  }

  lemma AdmitKeepsListing(s: World, a: AdmitAct)
    requires NothingElseListed(s) && AdmitEnabled(s, a)
    ensures NothingElseListed(AdmitNext(s, a))
  {
    var s' := AdmitNext(s, a);
    assert a.Spawn? ==> s'.tasks[|s.tasks|] == Task(s.pc.job, Starting, [], []);
    forall id | id in s'.activeJobs ensures MayBeListed(s', id) {
      if id in s.activeJobs {
        assert MayBeListed(s, id);
        if !(s.pc.Tracking? && s.pc.job == id) {
          var j :| 0 <= j < |s.tasks| && Trackable(s.tasks[j].pc) && s.tasks[j].job == id;
          assert s'.tasks[j] == s.tasks[j];
        }
      }
    }
  }

  lemma TaskStepKeepsCalls(s: World, i: nat, a: TaskAct)
    requires AllCalledOnce(s) && i < |s.tasks| && TaskEnabled(s.tasks[i], a)
    ensures AllCalledOnce(TaskStepNext(s, i, a))
  {
    assert CalledOnce(s.tasks[i]);
    assert CalledOnce(TaskNext(s.tasks[i], a));
  }

  lemma PollKeepsInv(s: World, a: PollAct)
    requires Inv(s) && PollEnabled(s, a)
    ensures Inv(PollNext(s, a))
  {
    PollIsSameWork(s, a);
    SameWorkKeepsInv(s, PollNext(s, a));
  }

  lemma DrainKeepsInv(s: World, a: DrainAct)
    requires Inv(s) && DrainEnabled(s, a)
    ensures Inv(DrainNext(s, a))
  {
    DrainIsSameWork(s, a);
    SameWorkKeepsInv(s, DrainNext(s, a));
  }

  lemma AdmitKeepsInv(s: World, a: AdmitAct)
    requires Inv(s) && AdmitEnabled(s, a)
    ensures Inv(AdmitNext(s, a))
  {
    AdmitKeepsCounted(s, a);
    AdmitKeepsConserved(s, a);
    AdmitKeepsListing(s, a);
  }

  lemma TaskStepKeepsInv(s: World, i: nat, a: TaskAct)
    requires Inv(s) && i < |s.tasks| && TaskEnabled(s.tasks[i], a) && !s.pc.Stopped?
    ensures Inv(TaskStepNext(s, i, a))
  {
    TaskStepKeepsCounted(s, i, a);
    TaskStepKeepsConserved(s, i, a);
    TaskStepKeepsCalls(s, i, a);
    TaskStepKeepsListing(s, i, a);
  }

  lemma StepKeepsInv(s: World, a: Action)
    requires Inv(s) && Enabled(s, a)
    ensures Inv(Next(s, a))
  {
    match a
    case PollStep(p) => PollKeepsInv(s, p);
    case AdmitStep(d) => AdmitKeepsInv(s, d);
    case DrainStep(d) => DrainKeepsInv(s, d);
    case TaskStep(i, t) => TaskStepKeepsInv(s, i, t);
    case BeatStep(b) => SameWorkKeepsInv(s, BeatNext(s, b));
    case Signal => SameWorkKeepsInv(s, s.(shutdown := true));
  }

  // -------------------------------------------------------------------------
  // What an honest server adds
  // -------------------------------------------------------------------------

  lemma CapacityIsRoom(c: Permits, activeCount: nat)
    requires activeCount <= c
    ensures Capacity(c, activeCount) == c - activeCount
  {
    assert activeCount % U64_RANGE == activeCount;
  }

  lemma PollKeepsBudget(s: World, a: PollAct)
    requires Counted(s) && WithinBudget(s) && PollEnabled(s, a)
    ensures WithinBudget(PollNext(s, a))
  {
    CapacityIsRoom(s.concurrency, s.activeCount);
  }

  /** The count read before a fetch only falls until the batch is admitted. */
  lemma AdmitKeepsBudget(s: World, a: AdmitAct)
    requires WithinBudget(s) && AdmitEnabled(s, a)
    requires a.FetchOk? ==> |a.jobs| <= s.pc.count
    ensures WithinBudget(AdmitNext(s, a))
  {
  }

  lemma StepKeepsBudget(s: World, a: Action, server: Trust)
    requires Counted(s) && WithinBudget(s)
    requires Enabled(s, a) && Keeps(s, a, server) && server.honest
    ensures WithinBudget(Next(s, a))
  {
    match a
    case PollStep(p) => PollKeepsBudget(s, p);
    case AdmitStep(d) => AdmitKeepsBudget(s, d);
    case DrainStep(d) =>
    case TaskStep(i, t) => assert TaskStepNext(s, i, t).activeCount <= s.activeCount;
    case BeatStep(b) =>
    case Signal =>
  }

  // -------------------------------------------------------------------------
  // What a server that does not repeat live ids adds
  // -------------------------------------------------------------------------

  lemma AdmitKeepsListed(s: World, a: AdmitAct, server: Trust)
    requires Shaped(s) && Apart(s) && Listed(s)
    requires AdmitEnabled(s, a) && server.unique
    requires a.FetchOk? ==> KeepsFetch(s, a.jobs, server)
    ensures Apart(AdmitNext(s, a)) && Listed(AdmitNext(s, a))
  {
    var s' := AdmitNext(s, a);
    match a
    case FetchOk(jobs) =>
    case Acquire => assert InHand(s'.pc) == InHand(s.pc);
    case Spawn =>
      assert InHand(s'.pc) == InHand(s.pc)[1..];
      assert InHand(s.pc)[0] == s.pc.job;
      assert forall i :: 0 <= i < |s.tasks| ==> s'.tasks[i] == s.tasks[i];
    case _ =>
  }

  /** Removing one id hurts no other job in flight, because their ids differ. */
  lemma TaskStepKeepsListed(s: World, i: nat, a: TaskAct)
    requires Apart(s) && Listed(s) && i < |s.tasks| && TaskEnabled(s.tasks[i], a)
    ensures Apart(TaskStepNext(s, i, a)) && Listed(TaskStepNext(s, i, a))
  {
    var s' := TaskStepNext(s, i, a);
    assert forall j :: 0 <= j < |s.tasks| ==> s'.tasks[j].job == s.tasks[j].job;
    assert forall j :: 0 <= j < |s.tasks| && Live(s'.tasks[j].pc) ==> Live(s.tasks[j].pc);
    if s.pc.Tracking? {
      assert InHand(s.pc)[0] == s.pc.job;
    }
  }

  lemma StepKeepsListed(s: World, a: Action, server: Trust)
    requires Shaped(s) && Apart(s) && Listed(s)
    requires Enabled(s, a) && Keeps(s, a, server) && server.unique
    ensures Apart(Next(s, a)) && Listed(Next(s, a))
  {
    match a
    case PollStep(p) =>
      PollIsSameWork(s, p);
      SameWorkKeepsListed(s, PollNext(s, p));
    case AdmitStep(d) => AdmitKeepsListed(s, d, server);
    case DrainStep(d) =>
      DrainIsSameWork(s, d);
      SameWorkKeepsListed(s, DrainNext(s, d));
    case TaskStep(i, t) => TaskStepKeepsListed(s, i, t);
    case BeatStep(b) => SameWorkKeepsListed(s, BeatNext(s, b));
    case Signal => SameWorkKeepsListed(s, s.(shutdown := true));
  }

  lemma StepKeepsSafe(s: World, a: Action, server: Trust)
    requires Safe(s, server) && Enabled(s, a) && Keeps(s, a, server)
    ensures Safe(Next(s, a), server)
  {
    StepKeepsInv(s, a);
    if server.honest {
      StepKeepsBudget(s, a, server);
    }
    if server.unique {
      StepKeepsListed(s, a, server);
    }
  }
}
