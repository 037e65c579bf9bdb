/** What every run of the worker guarantees. */
module WorkerTheorems {
  import opened Numbers
  import opened WorkerModel
  import opened WorkerInvariant

  // -------------------------------------------------------------------------
  // From steps to runs
  // -------------------------------------------------------------------------

  lemma {:induction false} RunKeepsSafe(s: World, acts: seq<Action>, server: Trust)
    requires Safe(s, server) && Legal(s, acts, server)
    ensures Safe(Exec(s, acts, server), server)
    ensures Exec(s, acts, server).concurrency == s.concurrency
    decreases |acts|
  {
    if acts != [] {
      StepKeepsSafe(s, acts[0], server);
      RunKeepsSafe(Next(s, acts[0]), acts[1..], server);
    }
  }

  lemma ReachableIsSafe(c: Permits, server: Trust, s: World)
    requires Reachable(c, server, s)
    ensures Safe(s, server) && s.concurrency == c
  {
    var acts :| Legal(Init(c), acts, server) && Exec(Init(c), acts, server) == s;
    RunKeepsSafe(Init(c), acts, server);
  }

  lemma {:induction false} LegalExtend(s: World, acts: seq<Action>, a: Action, server: Trust)
    requires Legal(s, acts, server)
    requires Enabled(Exec(s, acts, server), a) && Keeps(Exec(s, acts, server), a, server)
    ensures Legal(s, acts + [a], server)
    ensures Exec(s, acts + [a], server) == Next(Exec(s, acts, server), a)
    decreases |acts|
  {
    var longer := acts + [a];
    if acts == [] {
      assert longer[1..] == [];
    } else {
      assert longer[1..] == acts[1..] + [a];
      LegalExtend(Next(s, acts[0]), acts[1..], a, server);
    }
  }

  lemma ReachNext(c: Permits, server: Trust, s: World, a: Action)
    requires Reachable(c, server, s) && Enabled(s, a) && Keeps(s, a, server)
    ensures Reachable(c, server, Next(s, a))
  {
    var acts :| Legal(Init(c), acts, server) && Exec(Init(c), acts, server) == s;
    LegalExtend(Init(c), acts, a, server);
  }

  // -------------------------------------------------------------------------
  // Permits and the count
  // -------------------------------------------------------------------------

  /** Whatever batch sizes the server returns, permits are conserved, the count is exactly the
      tasks between increment and decrement plus those that panicked, and no more than
      `concurrency` handlers run. */
  lemma PermitsAndCount(c: Permits, server: Trust, s: World)
    requires Reachable(c, server, s)
    ensures s.free + Count(s.tasks, Holder) + LoopPermits(s.pc) == c
    ensures s.activeCount == Count(s.tasks, Charged) + LoopCharge(s.pc)
    ensures Count(s.tasks, Handler) <= c
    ensures Count(s.tasks, Lost) == 0 ==> s.activeCount <= Count(s.tasks, Holder) + LoopPermits(s.pc)
    ensures server.honest ==> s.activeCount <= c
  {
    ReachableIsSafe(c, server, s);
    HoldersAgainstCharged(s.tasks);
  }

  predicate AtRest(s: World) {
    && InHand(s.pc) == []
    && forall i :: 0 <= i < |s.tasks| ==> s.tasks[i].pc.Done? || s.tasks[i].pc.Panicked?
  }

  lemma {:induction false} QuietCounts(ts: seq<Task>)
    requires forall i :: 0 <= i < |ts| ==> ts[i].pc.Done? || ts[i].pc.Panicked?
    ensures Count(ts, Holder) == 0 && Count(ts, Charged) == Count(ts, Lost)
  {
    if ts != [] {
      QuietCounts(ts[..|ts| - 1]);
    }
  }

  /** At rest all permits are back; what stays counted and listed is what panicked. */
  lemma QuiescentWorker(c: Permits, server: Trust, s: World)
    requires Reachable(c, server, s) && AtRest(s)
    ensures s.free == c
    ensures s.activeCount == Count(s.tasks, Lost)
    ensures forall id :: id in s.activeJobs ==>
              exists i :: 0 <= i < |s.tasks| && s.tasks[i].pc.Panicked? && s.tasks[i].job == id
    ensures Count(s.tasks, Lost) == 0 ==> s.activeCount == 0 && s.activeJobs == {}
  {
    ReachableIsSafe(c, server, s);
    QuietCounts(s.tasks);
    CountWitness(s.tasks, Lost);
    forall id | id in s.activeJobs
      ensures exists i :: 0 <= i < |s.tasks| && s.tasks[i].pc.Panicked? && s.tasks[i].job == id
    {
      assert MayBeListed(s, id);
    }
  }

  // -------------------------------------------------------------------------
  // Jobs
  // -------------------------------------------------------------------------

  /** `calls` is the one report that outcome `o` asks for. */
  predicate SettledAs(o: Outcome, calls: seq<Settlement>) {
    && (calls == [Ack] <==> o.Completed?)
    && (calls == [Nack(false)] <==> o.NoHandler? || (o.Failed? && o.error.NonRetryable?))
    && (calls == [Nack(true)] <==> o.Failed? && !o.error.NonRetryable?)
  }

  /** Every fetched job is waiting in the loop's hands or has exactly one task, in order, and
      that task is open, reported or broken.  A reported job had exactly one call, the one its
      outcome asks for; a broken one had none. */
  lemma JobsConserved(c: Permits, server: Trust, s: World)
    requires Reachable(c, server, s)
    ensures s.fetched == Jobs(s.tasks) + InHand(s.pc)
    ensures |s.fetched| == |InHand(s.pc)| + Count(s.tasks, Open) + Count(s.tasks, Reported) + Count(s.tasks, Broken)
    ensures forall i :: 0 <= i < |s.tasks| ==>
              var t := s.tasks[i];
              && (In(t.pc, Reported) ==> |t.outcome| == 1 && |t.calls| == 1)
              && (t.calls != [] ==> |t.outcome| == 1 && SettledAs(t.outcome[0], t.calls))
              && (In(t.pc, Broken) ==> t.calls == [])
              && (t.pc.Starting? || t.pc.Handling? ==> t.calls == [])
  {
    ReachableIsSafe(c, server, s);
    EveryTaskInOneClass(s.tasks);
    assert forall i :: 0 <= i < |s.tasks| ==> CalledOnce(s.tasks[i]);
  }

  /** A heartbeat lists every job in flight, from before its task is spawned until after its
      report has returned, and nothing that is neither in flight nor panicked. */
  lemma HeartbeatListsJobsInFlight(c: Permits, server: Trust, s: World)
    requires server.unique && Reachable(c, server, s)
    requires Enabled(s, BeatStep(Beat))
    ensures Next(s, BeatStep(Beat)).beat.BeatSent?
    ensures var listed := Next(s, BeatStep(Beat)).beat.listed;
            && (forall i :: 0 <= i < |s.tasks| && Live(s.tasks[i].pc) ==> s.tasks[i].job in listed)
            && (s.pc.Tracking? ==> s.pc.job in listed)
            && (forall id :: id in listed ==> MayBeListed(s, id))
  {
    ReachableIsSafe(c, server, s);
  }

  /** Another job in flight, or about to be spawned, has the id of task `i`. */
  predicate SharesId(s: World, i: nat)
    requires i < |s.tasks|
  {
    || (s.pc.Tracking? && s.pc.job == s.tasks[i].job)
    || exists j :: 0 <= j < |s.tasks| && j != i && Live(s.tasks[j].pc) && s.tasks[j].job == s.tasks[i].job
  }

  lemma CleanupKeepsListedExactly(s: World, i: nat)
    requires Listed(s) && i < |s.tasks| && TaskEnabled(s.tasks[i], Untrack)
    ensures Listed(TaskStepNext(s, i, Untrack)) <==> !SharesId(s, i)
  {
    var s' := TaskStepNext(s, i, Untrack);
    assert forall j :: 0 <= j < |s.tasks| && j != i ==> s'.tasks[j] == s.tasks[j];
  }

  lemma AdmitListsMore(s: World, a: AdmitAct)
    requires Listed(s) && AdmitEnabled(s, a)
    ensures Listed(AdmitNext(s, a))
  {
    assert a.Spawn? ==> forall i :: 0 <= i < |s.tasks| ==> AdmitNext(s, a).tasks[i] == s.tasks[i];
  }

  lemma TaskKeepsListed(s: World, i: nat, a: TaskAct)
    requires Listed(s) && i < |s.tasks| && TaskEnabled(s.tasks[i], a) && !a.Untrack?
    ensures Listed(TaskStepNext(s, i, a))
  {
    var s' := TaskStepNext(s, i, a);
    assert forall j :: 0 <= j < |s.tasks| ==> s'.tasks[j].job == s.tasks[j].job;
    assert forall j :: 0 <= j < |s.tasks| && Live(s'.tasks[j].pc) ==> Live(s.tasks[j].pc);
  }

  /** For any server and any step: a job in flight drops out of the list if and only if the
      step is the cleanup of a job whose id another one in flight shares. */
  lemma LosesListingExactly(s: World, a: Action)
    requires Listed(s) && Enabled(s, a)
    ensures !Listed(Next(s, a)) <==> a.TaskStep? && a.task.Untrack? && SharesId(s, a.index)
  {
    match a
    case PollStep(p) => PollIsSameWork(s, p);
    case AdmitStep(d) => AdmitListsMore(s, d);
    case DrainStep(d) => DrainIsSameWork(s, d);
    case TaskStep(i, t) =>
      if t.Untrack? {
        CleanupKeepsListedExactly(s, i);
      } else {
        TaskKeepsListed(s, i, t);
      }
    case BeatStep(b) =>
    case Signal =>
  }

  // -------------------------------------------------------------------------
  // Admission
  // -------------------------------------------------------------------------

  /** For any server: a blocked admission waits for a job that is already reported and
      uncounted if and only if the count, without the panicked, is below the concurrency. */
  lemma BlockedExactly(c: Permits, server: Trust, s: World)
    requires Reachable(c, server, s) && s.pc.Admitting? && s.free == 0
    ensures (exists i :: 0 <= i < |s.tasks| && In(s.tasks[i].pc, Paid)) <==> s.activeCount < c + Count(s.tasks, Lost)
  {
    ReachableIsSafe(c, server, s);
    HoldersAgainstCharged(s.tasks);
    CountWitness(s.tasks, Paid);
  }

  /** If no fetch returns more than it was asked for, admission blocks only on a job that has
      already been reported and uncounted. */
  lemma BlockedAcquire(c: Permits, server: Trust, s: World)
    requires server.honest && Reachable(c, server, s)
    requires s.pc.Admitting? && s.free == 0
    ensures exists i :: 0 <= i < |s.tasks| && In(s.tasks[i].pc, Paid) && |s.tasks[i].calls| == 1
  {
    ReachableIsSafe(c, server, s);
    BlockedExactly(c, server, s);
    var i :| 0 <= i < |s.tasks| && In(s.tasks[i].pc, Paid);
    assert CalledOnce(s.tasks[i]);
  }

  /** How many steps a task needs until it has dropped its permit. */
  function StepsLeft(pc: TaskPc): nat {
    match pc
    case Starting => 6
    case Handling => 5
    case Calling => 4
    case Returned => 3
    case Uncounted => 2
    case Untracked => 1
    case Unwinding => 1
    case Done => 0
    case Panicked => 0
  }

  function Onward(pc: TaskPc): TaskAct
    requires In(pc, Holder)
  {
    match pc
    case Starting => Find(true)
    case Handling => Finish(Completed)
    case Calling => CallReturns
    case Returned => Uncount
    case Uncounted => Untrack
    case Untracked => Release
    case Unwinding => Unwind
  }

  lemma {:induction false} HolderCanRelease(s: World, i: nat, server: Trust) returns (acts: seq<Action>)
    requires i < |s.tasks| && In(s.tasks[i].pc, Holder) && !s.pc.Stopped?
    ensures |acts| == StepsLeft(s.tasks[i].pc)
    ensures forall k :: 0 <= k < |acts| ==> acts[k].TaskStep? && acts[k].index == i
    ensures Legal(s, acts, server)
    ensures Exec(s, acts, server).pc == s.pc && Exec(s, acts, server).free == s.free + 1
    decreases StepsLeft(s.tasks[i].pc)
  {
    var a := TaskStep(i, Onward(s.tasks[i].pc));
    var s' := Next(s, a);
    if In(s'.tasks[i].pc, Holder) {
      var rest := HolderCanRelease(s', i, server);
      acts := [a] + rest;
      assert acts[1..] == rest;
    } else {
      acts := [a];
      assert acts[1..] == [];
      assert Legal(s', [], server);
    }
  }

  /** No deadlock: a run that has not stopped can go on by itself, and a blocked admission gets
      its permit within six steps of one task. */
  lemma RunCanGoOn(c: Permits, server: Trust, s: World)
    requires Reachable(c, server, s) && !s.pc.Stopped?
    ensures exists a: Action :: !a.BeatStep? && !a.Signal? && Enabled(s, a)
    ensures s.pc.Admitting? ==>
              exists acts :: |acts| <= 6 && Legal(s, acts, server) && Enabled(Exec(s, acts, server), AdmitStep(Acquire))
  {
    ReachableIsSafe(c, server, s);
    var a := match s.pc
      case Top => PollStep(CheckFlag)
      case Signalled => PollStep(StoreTerminate)
      case PastFlag => PollStep(LoadState)
      case PastState => PollStep(LoadCount)
      case Asking(_) => PollStep(SendFetch)
      case Awaiting(_) => AdmitStep(FetchErr)
      case Admitting(_) => AdmitStep(Acquire)
      case Holding(_, _) => AdmitStep(CountJob)
      case Counting(_, _) => AdmitStep(TrackJob)
      case Tracking(_, _) => AdmitStep(Spawn)
      case Sleeping => PollStep(PollElapsed)
      case Draining => DrainStep(DrainCheck)
      case Pausing => DrainStep(DrainWait)
      case Stopped(_) => Signal;
    if s.pc.Admitting? && s.free == 0 {
      CountWitness(s.tasks, Holder);
      var i :| 0 <= i < |s.tasks| && In(s.tasks[i].pc, Holder);
      assert Enabled(s, TaskStep(i, Onward(s.tasks[i].pc)));
      var acts := HolderCanRelease(s, i, server);
      assert Enabled(Exec(s, acts, server), AdmitStep(Acquire));
    } else {
      assert Enabled(s, a);
      assert Legal(s, [], server) && Exec(s, [], server) == s;
    }
  }

  // -------------------------------------------------------------------------
  // Shutdown
  // -------------------------------------------------------------------------

  predicate ReportedAndUncounted(t: Task) {
    t.pc.Uncounted? || t.pc.Untracked? || t.pc.Done?
  }

  /** The shutdown loop ends on the count if and only if every job ever fetched has been
      reported and uncounted; in particular nothing was dropped and nothing panicked. */
  lemma DrainEndsExactlyWhenReported(c: Permits, server: Trust, s: World)
    requires Reachable(c, server, s) && s.pc.Draining?
    ensures Jobs(s.tasks) == s.fetched
    ensures Next(s, DrainStep(DrainCheck)).pc == Stopped(true) <==>
            forall i :: 0 <= i < |s.tasks| ==> ReportedAndUncounted(s.tasks[i])
  {
    ReachableIsSafe(c, server, s);
    CountWitness(s.tasks, Charged);
    assert Jobs(s.tasks) + [] == Jobs(s.tasks);
  }

  lemma CleanExit(c: Permits, server: Trust, s: World)
    requires Reachable(c, server, s) && s.pc == Stopped(true)
    ensures Jobs(s.tasks) == s.fetched
    ensures forall i :: 0 <= i < |s.tasks| ==>
              && ReportedAndUncounted(s.tasks[i])
              && |s.tasks[i].outcome| == 1
              && s.tasks[i].calls == [Report(s.tasks[i].outcome[0])]
  {
    ReachableIsSafe(c, server, s);
    CountWitness(s.tasks, Charged);
    assert Jobs(s.tasks) + [] == Jobs(s.tasks);
    forall i | 0 <= i < |s.tasks| ensures CalledOnce(s.tasks[i]) && ReportedAndUncounted(s.tasks[i]) {
      assert !In(s.tasks[i].pc, Charged);
    }
  }

  predicate Stopping(s: World) {
    s.state != Running || s.shutdown
  }

  /** The iteration has passed the checks that could still keep it from fetching. */
  predicate PastChecks(s: World) {
    s.pc.PastState? || s.pc.Asking? || (s.pc.PastFlag? && s.state == Running)
  }

  lemma StepAfterStop(s: World, a: Action)
    requires Enabled(s, a)
    ensures s.state != Running ==> Next(s, a).state != Running
    ensures Stopping(s) ==> Stopping(Next(s, a))
    ensures Stopping(s) ==> Next(s, a).sent + One(PastChecks(Next(s, a))) <= s.sent + One(PastChecks(s))
  {
    match a
    case PollStep(p) =>
    case AdmitStep(d) =>
    case DrainStep(d) =>
    case TaskStep(i, t) => assert Next(s, a).pc == s.pc && Next(s, a).state == s.state;
    case BeatStep(b) =>
    case Signal =>
  }

  /** Once the state has left Running it never returns, and after the first such store or
      after the signal at most the one fetch whose iteration was already past its checks is
      sent, on any run. */
  lemma {:induction false} AtMostOneMoreFetch(s: World, acts: seq<Action>, server: Trust)
    requires Legal(s, acts, server)
    ensures s.state != Running ==> Exec(s, acts, server).state != Running
    ensures Stopping(s) ==> Exec(s, acts, server).sent <= s.sent + One(PastChecks(s))
    decreases |acts|
  {
    if acts != [] {
      StepAfterStop(s, acts[0]);
      AtMostOneMoreFetch(Next(s, acts[0]), acts[1..], server);
    }
  }

  /** Terminate is overwritten by a quiet directive and by nothing else. */
  lemma LosesTerminateExactly(s: World, a: Action)
    requires s.state.Terminate? && Enabled(s, a)
    ensures Next(s, a).state.Terminate? <==> a != BeatStep(Answer(ToQuiet))
  {
    if a.TaskStep? {
      assert Next(s, a).state == s.state;
    }
  }

  /** The state reads Terminate from start to end of the run. */
  predicate TerminateThroughout(s: World, acts: seq<Action>, server: Trust)
    requires Legal(s, acts, server)
    decreases |acts|
  {
    s.state.Terminate? && (acts == [] || TerminateThroughout(Next(s, acts[0]), acts[1..], server))
  }

  /** A run keeps a terminate directive throughout if and only if no quiet directive arrives
      after it, and then it sends at most the fetch that was past its checks. */
  lemma {:induction false} TerminateHoldsExactly(s: World, acts: seq<Action>, server: Trust)
    requires s.state.Terminate? && Legal(s, acts, server)
    ensures TerminateThroughout(s, acts, server) <==> BeatStep(Answer(ToQuiet)) !in acts
    ensures TerminateThroughout(s, acts, server) ==>
              && Exec(s, acts, server).state.Terminate?
              && Exec(s, acts, server).sent <= s.sent + One(PastChecks(s))
    decreases |acts|
  {
    AtMostOneMoreFetch(s, acts, server);
    if acts != [] {
      LosesTerminateExactly(s, acts[0]);
      assert acts == [acts[0]] + acts[1..];
      if Next(s, acts[0]).state.Terminate? {
        TerminateHoldsExactly(Next(s, acts[0]), acts[1..], server);
      }
    }
  }

  predicate Leaving(pc: LoopPc) {
    pc.Draining? || pc.Pausing? || pc.Stopped?
  }

  /** The fetch loop is left for good: no later step fetches, admits or drops a job. */
  lemma {:induction false} DrainIsFinal(s: World, acts: seq<Action>, server: Trust)
    requires Legal(s, acts, server) && Leaving(s.pc)
    ensures Leaving(Exec(s, acts, server).pc)
    ensures Exec(s, acts, server).sent == s.sent && Exec(s, acts, server).fetched == s.fetched
    ensures Jobs(Exec(s, acts, server).tasks) == Jobs(s.tasks)
    decreases |acts|
  {
    if acts != [] {
      var s' := Next(s, acts[0]);
      assert Leaving(s'.pc) && s'.sent == s.sent && s'.fetched == s.fetched;
      assert Jobs(s'.tasks) == Jobs(s.tasks);
      DrainIsFinal(s', acts[1..], server);
    }
  }

  /** The documentation promises that the signal leads to Terminate.  The state is Terminate
      when the loop is left, except if the signal ends a wait in another state. */
  lemma LeavesInTerminateExactly(s: World, a: Action)
    requires Enabled(s, a) && !Leaving(s.pc) && Leaving(Next(s, a).pc)
    ensures Next(s, a).state.Terminate? <==> !(s.pc.Sleeping? && !s.state.Terminate?)
  {
    if a.PollStep? {
      assert Next(s, a) == PollNext(s, a.poll);
    } else {
      assert false;
    }
  }

  // -------------------------------------------------------------------------
  // Panics
  // -------------------------------------------------------------------------

  lemma {:induction false} BrokenAreCharged(ts: seq<Task>)
    ensures Count(ts, Broken) <= Count(ts, Charged)
  {
    if ts != [] {
      BrokenAreCharged(ts[..|ts| - 1]);
    }
  }

  lemma BrokenStays(s: World, a: Action)
    requires Enabled(s, a)
    ensures Count(Next(s, a).tasks, Broken) >= Count(s.tasks, Broken)
  {
    match a
    case PollStep(p) =>
    case AdmitStep(d) =>
      if d.Spawn? {
        CountAppend(s.tasks, Task(s.pc.job, Starting, [], []), Broken);
      }
    case DrainStep(d) =>
    case TaskStep(i, t) => CountUpdate(s.tasks, i, TaskNext(s.tasks[i], t), Broken);
    case BeatStep(b) =>
    case Signal =>
  }

  lemma {:induction false} CountAtMost(ts: seq<Task>, k: Class)
    ensures Count(ts, k) <= |ts|
  {
    if ts != [] {
      CountAtMost(ts[..|ts| - 1], k);
    }
  }

  /** The count does not wrap around in 64 bits. */
  predicate CountFits(s: World, server: Trust) {
    server.honest || |s.fetched| < U64_RANGE
  }

  lemma CountInRange(s: World, server: Trust)
    requires Safe(s, server) && CountFits(s, server)
    ensures 0 <= s.activeCount < U64_RANGE
  {
    CountAtMost(s.tasks, Charged);
    assert |s.fetched| == |s.tasks| + |InHand(s.pc)|;
  }

  /** Whatever arrives, a request asks for no more than there is room for. */
  predicate Roomy(s: World) {
    s.pc.Asking? ==> s.activeCount + s.pc.count <= s.concurrency
  }

  lemma StepKeepsRoom(s: World, a: Action)
    requires Roomy(s) && 0 <= s.activeCount < U64_RANGE && Enabled(s, a)
    ensures Roomy(Next(s, a)) && |s.fetched| <= |Next(s, a).fetched|
  {
    match a
    case PollStep(p) => assert s.activeCount % U64_RANGE == s.activeCount;
    case AdmitStep(d) =>
    case DrainStep(d) =>
    case TaskStep(i, t) => assert Next(s, a).activeCount <= s.activeCount;
    case BeatStep(b) =>
    case Signal =>
  }

  lemma {:induction false} FetchedGrows(s: World, acts: seq<Action>, server: Trust)
    requires Legal(s, acts, server)
    ensures |s.fetched| <= |Exec(s, acts, server).fetched|
    decreases |acts|
  {
    if acts != [] {
      assert |s.fetched| <= |Next(s, acts[0]).fetched|;
      FetchedGrows(Next(s, acts[0]), acts[1..], server);
    }
  }

  lemma {:induction false} RunKeepsRoom(s: World, acts: seq<Action>, server: Trust)
    requires Safe(s, server) && Roomy(s) && Legal(s, acts, server) && CountFits(Exec(s, acts, server), server)
    ensures Roomy(Exec(s, acts, server))
    decreases |acts|
  {
    if acts != [] {
      FetchedGrows(s, acts, server);
      CountInRange(s, server);
      StepKeepsRoom(s, acts[0]);
      StepKeepsSafe(s, acts[0], server);
      RunKeepsRoom(Next(s, acts[0]), acts[1..], server);
    }
  }

  lemma {:induction false} PanicsStarveRun(s: World, acts: seq<Action>, server: Trust)
    requires Safe(s, server) && Roomy(s) && Legal(s, acts, server) && CountFits(Exec(s, acts, server), server)
    requires Count(s.tasks, Broken) >= s.concurrency
    ensures Exec(s, acts, server).sent == s.sent
    decreases |acts|
  {
    BrokenAreCharged(s.tasks);
    if acts != [] {
      FetchedGrows(s, acts, server);
      CountInRange(s, server);
      StepKeepsRoom(s, acts[0]);
      StepKeepsSafe(s, acts[0], server);
      BrokenStays(s, acts[0]);
      PanicsStarveRun(Next(s, acts[0]), acts[1..], server);
    }
  }

  lemma ReachableIsRoomy(c: Permits, server: Trust, s: World)
    requires Reachable(c, server, s) && CountFits(s, server)
    ensures Roomy(s)
  {
    var before :| Legal(Init(c), before, server) && Exec(Init(c), before, server) == s;
    RunKeepsRoom(Init(c), before, server);
  }

  lemma {:induction false} BrokenForever(s: World, acts: seq<Action>, server: Trust)
    requires Legal(s, acts, server)
    ensures Count(Exec(s, acts, server).tasks, Broken) >= Count(s.tasks, Broken)
    decreases |acts|
  {
    if acts != [] {
      BrokenStays(s, acts[0]);
      BrokenForever(Next(s, acts[0]), acts[1..], server);
    }
  }

  /** A panicked job is never uncounted: after `concurrency` panics the worker is alive but
      sends no fetch any more, and a single panic rules out a clean exit. */
  lemma PanicsStarveTheWorker(c: Permits, server: Trust, s: World, acts: seq<Action>)
    requires Reachable(c, server, s) && Legal(s, acts, server)
    ensures Count(s.tasks, Broken) >= c && CountFits(Exec(s, acts, server), server) ==>
              Exec(s, acts, server).sent == s.sent
    ensures Count(s.tasks, Broken) > 0 ==> Exec(s, acts, server).pc != Stopped(true)
  {
    ReachableIsSafe(c, server, s);
    if Count(s.tasks, Broken) >= c && CountFits(Exec(s, acts, server), server) {
      FetchedGrows(s, acts, server);
      ReachableIsRoomy(c, server, s);
      PanicsStarveRun(s, acts, server);
    }
    RunKeepsSafe(s, acts, server);
    BrokenForever(s, acts, server);
    BrokenAreCharged(Exec(s, acts, server).tasks);
  }

  // -------------------------------------------------------------------------
  // Why the server has to be trusted
  // -------------------------------------------------------------------------

  lemma Take(c: Permits, server: Trust, s: World, a: Action) returns (s': World)
    requires Reachable(c, server, s) && Enabled(s, a) && Keeps(s, a, server)
    ensures Reachable(c, server, s') && s' == Next(s, a)
  {
    ReachNext(c, server, s, a);
    s' := Next(s, a);
  }

  /** From the start to the arrival of the first batch. */
  lemma FirstBatch(c: Permits, server: Trust, jobs: seq<JobId>) returns (s: World)
    requires 0 < c && jobs != []
    requires server.honest ==> |jobs| <= Min(c, BATCH_CAP)
    requires server.unique ==> Distinct(jobs)
    ensures Reachable(c, server, s)
    ensures s == Init(c).(pc := Admitting(jobs), fetched := jobs, sent := 1)
  {
    assert Legal(Init(c), [], server) && Exec(Init(c), [], server) == Init(c);
    s := Take(c, server, Init(c), PollStep(CheckFlag));
    s := Take(c, server, s, PollStep(LoadState));
    s := Take(c, server, s, PollStep(LoadCount));
    s := Take(c, server, s, PollStep(SendFetch));
    s := Take(c, server, s, AdmitStep(FetchOk(jobs)));
  }

  lemma AdmitFirst(c: Permits, server: Trust, s: World) returns (s': World)
    requires Reachable(c, server, s) && s.pc.Admitting? && s.pc.batch != [] && s.free > 0
    ensures Reachable(c, server, s')
    ensures s' == s.(free := s.free - 1, activeCount := s.activeCount + 1,
                     activeJobs := s.activeJobs + {s.pc.batch[0]},
                     pc := if |s.pc.batch| == 1 then Top else Admitting(s.pc.batch[1..]),
                     tasks := s.tasks + [Task(s.pc.batch[0], Starting, [], [])])
  {
    s' := Take(c, server, s, AdmitStep(Acquire));
    s' := Take(c, server, s', AdmitStep(CountJob));
    s' := Take(c, server, s', AdmitStep(TrackJob));
    s' := Take(c, server, s', AdmitStep(Spawn));
  }

  /** A server that answers a request for one job with two blocks admission while the only
      permit holder has not reported anything. */
  lemma OverfullBatchBlocks()
    ensures exists s :: Reachable(1, Trust(false, true), s)
              && s.pc.Admitting? && s.free == 0
              && forall i :: 0 <= i < |s.tasks| ==> s.tasks[i].calls == []
  {
    var server := Trust(false, true);
    var s := FirstBatch(1, server, ["a", "b"]);
    s := AdmitFirst(1, server, s);
    assert s.tasks == [Task("a", Starting, [], [])];
  }

  lemma TakeTask(c: Permits, server: Trust, s: World, i: nat, a: TaskAct) returns (s': World)
    requires Reachable(c, server, s) && !s.pc.Stopped? && i < |s.tasks| && TaskEnabled(s.tasks[i], a)
    ensures Reachable(c, server, s')
    ensures s'.tasks == s.tasks[i := TaskNext(s.tasks[i], a)] && s'.pc == s.pc && s'.beat == s.beat
    ensures s'.activeJobs == if a.Untrack? then s.activeJobs - {s.tasks[i].job} else s.activeJobs
  {
    s' := Take(c, server, s, TaskStep(i, a));
  }

  /** Task `i` handles its job, reports it and cleans up; the others do not move. */
  lemma RunToUntracked(c: Permits, server: Trust, s: World, i: nat) returns (s': World)
    requires Reachable(c, server, s) && !s.pc.Stopped? && i < |s.tasks| && s.tasks[i].pc.Starting?
    ensures Reachable(c, server, s') && s'.pc == s.pc && s'.beat == s.beat
    ensures s'.activeJobs == s.activeJobs - {s.tasks[i].job}
    ensures |s'.tasks| == |s.tasks| && forall j :: 0 <= j < |s.tasks| && j != i ==> s'.tasks[j] == s.tasks[j]
  {
    s' := TakeTask(c, server, s, i, Find(true));
    s' := TakeTask(c, server, s', i, Finish(Completed));
    s' := TakeTask(c, server, s', i, CallReturns);
    s' := TakeTask(c, server, s', i, Uncount);
    s' := TakeTask(c, server, s', i, Untrack);
  }

  /** From the start to two admitted jobs. */
  lemma AdmitTwo(c: Permits, server: Trust, j: JobId, k: JobId) returns (s: World)
    requires c > 1 && (server.unique ==> j != k)
    ensures Reachable(c, server, s) && s.pc.Top? && s.beat.BeatIdle?
    ensures s.tasks == [Task(j, Starting, [], []), Task(k, Starting, [], [])] && s.activeJobs == {j, k}
  {
    s := FirstBatch(c, server, [j, k]);
    s := AdmitFirst(c, server, s);
    assert s.pc == Admitting([k]);
    s := AdmitFirst(c, server, s);
  }

  /** A server that hands out the same id twice makes the heartbeat drop a running job. */
  lemma RepeatedIdIsUnlisted()
    ensures exists s :: Reachable(2, Trust(true, false), s)
              && |s.tasks| == 2 && s.tasks[1].pc.Handling? && s.tasks[1].job == "a"
              && Enabled(s, BeatStep(Beat)) && Next(s, BeatStep(Beat)).beat == BeatSent({})
  {
    var server := Trust(true, false);
    var s := AdmitTwo(2, server, "a", "a");
    s := TakeTask(2, server, s, 1, Find(true));
    s := RunToUntracked(2, server, s, 0);
    assert s.activeJobs == {};
  }

  /** The failing case above, all the way: a worker that is signalled during a wait stops
      while its state still reads Running. */
  lemma SignalDuringWait(c: Permits, server: Trust)
    ensures exists s :: Reachable(c, server, s) && s.pc == Stopped(true) && s.shutdown && s.state.Running?
  {
    assert Legal(Init(c), [], server) && Exec(Init(c), [], server) == Init(c);
    var s := Take(c, server, Init(c), PollStep(CheckFlag));
    s := Take(c, server, s, PollStep(LoadState));
    s := Take(c, server, s, PollStep(LoadCount));
    if c > 0 {
      s := Take(c, server, s, PollStep(SendFetch));
      s := Take(c, server, s, AdmitStep(FetchErr));
    }
    s := Take(c, server, s, Signal);
    s := Take(c, server, s, PollStep(SeeSignal));
    s := Take(c, server, s, DrainStep(DrainCheck));
  }

  /** A terminate directive is lost if a quiet directive arrives before the loop looks: the
      worker then keeps polling instead of draining. */
  lemma TerminateCanBeOverwritten(c: Permits, server: Trust)
    ensures exists s, acts ::
              && Reachable(c, server, s) && s.state == Terminate
              && Legal(s, acts, server)
              && Exec(s, acts, server).state == Quiet && Exec(s, acts, server).pc == Sleeping
  {
    assert Legal(Init(c), [], server) && Exec(Init(c), [], server) == Init(c);
    var s := Take(c, server, Init(c), BeatStep(Beat));
    s := Take(c, server, s, BeatStep(Answer(ToTerminate)));
    assert Legal(s, [], server) && Exec(s, [], server) == s;
    LegalExtend(s, [], BeatStep(Beat), server);
    var acts := [] + [BeatStep(Beat)];
    LegalExtend(s, acts, BeatStep(Answer(ToQuiet)), server);
    acts := acts + [BeatStep(Answer(ToQuiet))];
    LegalExtend(s, acts, PollStep(CheckFlag), server);
    acts := acts + [PollStep(CheckFlag)];
    LegalExtend(s, acts, PollStep(LoadState), server);
    acts := acts + [PollStep(LoadState)];
    assert Exec(s, acts, server) == Init(c).(state := Quiet, pc := Sleeping);
  }
}
