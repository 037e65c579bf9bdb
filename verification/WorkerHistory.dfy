/** What the steps of a run say of the state it ends in, read off the steps themselves. */
module WorkerHistory {
  import opened Options
  import opened WorkerModel
  import opened WorkerInvariant
  import opened WorkerTheorems

  // -------------------------------------------------------------------------
  // One job task
  // -------------------------------------------------------------------------

  /** The steps of task `i`, in order. */
  function ActsOn(acts: seq<Action>, i: nat): seq<TaskAct> {
    if acts == [] then []
    else
      var last := acts[|acts| - 1];
      ActsOn(acts[..|acts| - 1], i) + if last.TaskStep? && last.index == i then [last.task] else []
  }

  const NOT_FOUND: seq<TaskAct> := [Find(false), CallReturns, Uncount, Untrack, Release]
  const PANICKED: seq<TaskAct> := [Find(true), Panic, Unwind]

  function Handled(o: Outcome): seq<TaskAct> {
    [Find(true), Finish(o), CallReturns, Uncount, Untrack, Release]
  }

  /** The whole life of a task, as far as it has come. */
  predicate IsLife(h: seq<TaskAct>) {
    || h <= NOT_FOUND
    || h <= PANICKED
    || (|h| > 1 && h[1].Finish? && !h[1].outcome.NoHandler? && h <= Handled(h[1].outcome))
  }

  /** What must have been reported for a job whose task has lived through `h`. */
  function ReportDue(h: seq<TaskAct>): seq<Settlement> {
    if |h| > 0 && h[0] == Find(false) then [Nack(false)]
    else if |h| > 1 && h[1] == Finish(Completed) then [Ack]
    else if |h| > 1 && h[1] == Finish(Failed(NonRetryable)) then [Nack(false)]
    else if |h| > 1 && h[1] == Finish(Failed(HandlerError)) then [Nack(true)]
    else if |h| > 1 && h[1] == Finish(Failed(OtherError)) then [Nack(true)]
    else []
  }

  /** How far a life that ends with a report has come. */
  predicate After(h: seq<TaskAct>, n: nat) {
    IsLife(h) && |h| > 0 && (h[0] == Find(false) || (|h| > 1 && h[1].Finish?))
    && |h| == n + if h[0] == Find(false) then 1 else 2
  }

  predicate Fits(t: Task, h: seq<TaskAct>) {
    && t.calls == ReportDue(h)
    && match t.pc
       case Starting => h == []
       case Handling => h == [Find(true)]
       case Calling => After(h, 0)
       case Returned => After(h, 1)
       case Uncounted => After(h, 2)
       case Untracked => After(h, 3)
       case Done => After(h, 4)
       case Unwinding => h == [Find(true), Panic]
       case Panicked => h == [Find(true), Panic, Unwind]
  }

  lemma FitsNext(t: Task, h: seq<TaskAct>, a: TaskAct)
    requires Fits(t, h) && TaskEnabled(t, a)
    ensures Fits(TaskNext(t, a), h + [a])
  {
    var g := h + [a];
    assert g[..|h|] == h;
    if |h| > 1 && h[1].Finish? {
      assert h == Handled(h[1].outcome)[..|h|];
    } else if |h| > 0 && h[0] == Find(false) {
      assert h == NOT_FOUND[..|h|];
    }
  }

  ghost predicate AllFit(tasks: seq<Task>, done: seq<Action>) {
    && (forall i :: 0 <= i < |tasks| ==> Fits(tasks[i], ActsOn(done, i)))
    && (forall i :: |tasks| <= i ==> ActsOn(done, i) == [])
  }

  lemma ActsOnSnoc(done: seq<Action>, a: Action, i: nat)
    ensures ActsOn(done + [a], i) == ActsOn(done, i) + if a.TaskStep? && a.index == i then [a.task] else []
  {
    assert (done + [a])[..|done|] == done;
  }

  lemma TaskStepFits(tasks: seq<Task>, done: seq<Action>, i: nat, t: TaskAct)
    requires AllFit(tasks, done) && i < |tasks| && TaskEnabled(tasks[i], t)
    ensures AllFit(tasks[i := TaskNext(tasks[i], t)], done + [TaskStep(i, t)])
  {
    FitsNext(tasks[i], ActsOn(done, i), t);
    forall k: nat
      ensures ActsOn(done + [TaskStep(i, t)], k) == if k == i then ActsOn(done, k) + [t] else ActsOn(done, k)
    {
      ActsOnSnoc(done, TaskStep(i, t), k);
      assert ActsOn(done, k) + [] == ActsOn(done, k);
    }
  }

  lemma OtherStepFits(tasks: seq<Task>, done: seq<Action>, a: Action)
    requires AllFit(tasks, done) && !a.TaskStep?
    ensures AllFit(tasks, done + [a])
  {
    forall k: nat ensures ActsOn(done + [a], k) == ActsOn(done, k) {
      ActsOnSnoc(done, a, k);
      assert ActsOn(done, k) + [] == ActsOn(done, k);
    }
  }

  lemma OneMoreFits(tasks: seq<Task>, done: seq<Action>, job: JobId)
    requires AllFit(tasks, done)
    ensures AllFit(tasks + [Task(job, Starting, [], [])], done)
  {
  }

  lemma StepFits(s: World, done: seq<Action>, a: Action)
    requires AllFit(s.tasks, done) && Enabled(s, a)
    ensures AllFit(Next(s, a).tasks, done + [a])
  {
    if a.TaskStep? {
      TaskStepFits(s.tasks, done, a.index, a.task);
    } else {
      OtherStepFits(s.tasks, done, a);
      if a.AdmitStep? && a.admit.Spawn? {
        OneMoreFits(s.tasks, done + [a], s.pc.job);
      }
    }
  }

  lemma {:induction false} RunFits(s: World, done: seq<Action>, acts: seq<Action>, server: Trust)
    requires AllFit(s.tasks, done) && Legal(s, acts, server)
    ensures AllFit(Exec(s, acts, server).tasks, done + acts)
    decreases |acts|
  {
    if acts == [] {
      assert done + acts == done;
    } else {
      StepFits(s, done, acts[0]);
      assert done + acts == (done + [acts[0]]) + acts[1..];
      RunFits(Next(s, acts[0]), done + [acts[0]], acts[1..], server);
    }
  }

  /** On any run, the steps of a task are a prefix of one of three lives, and its calls are the
      one report that the way its handling ended asks for, or none: an acknowledgement exactly
      if the handler completed.  Its handler runs exactly between being found and ending. */
  lemma TaskHistory(c: Permits, server: Trust, acts: seq<Action>, i: nat)
    requires Legal(Init(c), acts, server)
    ensures var tasks := Exec(Init(c), acts, server).tasks;
            var h := ActsOn(acts, i);
            && (i >= |tasks| ==> h == [])
            && IsLife(h)
            && (i < |tasks| ==>
                  && tasks[i].calls == ReportDue(h)
                  && (tasks[i].calls == [Ack] <==> |h| > 1 && h[1] == Finish(Completed))
                  && (tasks[i].calls == [] <==> h == [] || h == [Find(true)] || (|h| > 1 && h[1] == Panic))
                  && (tasks[i].pc.Handling? <==> h == [Find(true)])
                  && (tasks[i].pc.Done? <==> |h| > 0 && h[|h| - 1] == Release)
                  && (tasks[i].pc.Panicked? <==> |h| > 0 && h[|h| - 1] == Unwind))
  {
    RunFits(Init(c), [], acts, server);
    assert [] + acts == acts;
    var tasks := Exec(Init(c), acts, server).tasks;
    var h := ActsOn(acts, i);
    if i < |tasks| {
      FitsIsLife(tasks[i], h);
    }
  }

  lemma FitsIsLife(t: Task, h: seq<TaskAct>)
    requires Fits(t, h)
    ensures IsLife(h)
    ensures t.calls == [Ack] <==> |h| > 1 && h[1] == Finish(Completed)
    ensures t.calls == [] <==> h == [] || h == [Find(true)] || (|h| > 1 && h[1] == Panic)
    ensures t.pc.Handling? <==> h == [Find(true)]
    ensures t.pc.Done? <==> |h| > 0 && h[|h| - 1] == Release
    ensures t.pc.Panicked? <==> |h| > 0 && h[|h| - 1] == Unwind
  {
    if |h| > 1 && h[1].Finish? {
      var o := h[1].outcome;
      assert h == Handled(o)[..|h|];
      assert o.Failed? ==> o.error.NonRetryable? || o.error.HandlerError? || o.error.OtherError?;
    } else if |h| > 0 && h[0] == Find(false) {
      assert h == NOT_FOUND[..|h|];
    }
  }

  /** After a clean exit, every job that was ever fetched was acknowledged if its handler
      completed, and otherwise reported as failed or unhandled, exactly once. */
  lemma CleanExitReports(c: Permits, server: Trust, acts: seq<Action>, i: nat)
    requires Legal(Init(c), acts, server) && Exec(Init(c), acts, server).pc == Stopped(true)
    requires i < |Exec(Init(c), acts, server).fetched|
    ensures var s := Exec(Init(c), acts, server);
            var h := ActsOn(acts, i);
            && |s.tasks| == |s.fetched| && s.tasks[i].job == s.fetched[i]
            && s.tasks[i].calls == ReportDue(h) && |s.tasks[i].calls| == 1
            && (s.tasks[i].calls == [Ack] <==> |h| > 1 && h[1] == Finish(Completed))
            && !(|h| > 1 && h[1] == Panic)
  {
    var s := Exec(Init(c), acts, server);
    assert Reachable(c, server, s);
    CleanExit(c, server, s);
    assert s.fetched[i] == Jobs(s.tasks)[i];
    TaskHistory(c, server, acts, i);
  }

  // -------------------------------------------------------------------------
  // The state and the signal
  // -------------------------------------------------------------------------

  predicate StoresQuiet(a: Action) { a == BeatStep(Answer(ToQuiet)) }
  predicate StoresTerminate(a: Action) { a == BeatStep(Answer(ToTerminate)) || a == PollStep(StoreTerminate) }

  /** The state changes by the two directives and the loop's own store, and to what they say. */
  lemma StateAfterExactly(s: World, a: Action)
    requires Enabled(s, a)
    ensures Next(s, a).state ==
            if StoresQuiet(a) then Quiet else if StoresTerminate(a) then Terminate else s.state
    ensures s.state.Running? ==> (!Next(s, a).state.Running? <==> StoresQuiet(a) || StoresTerminate(a))
    ensures Next(s, a).shutdown == (s.shutdown || a.Signal?)
    ensures a == PollStep(StoreTerminate) ==> s.pc.Signalled?
  {
    if a.TaskStep? {
      assert Next(s, a).state == s.state && Next(s, a).shutdown == s.shutdown;
    }
  }

  function LastStore(acts: seq<Action>): WorkerState {
    if acts == [] then Running
    else
      var last := acts[|acts| - 1];
      if StoresQuiet(last) then Quiet
      else if StoresTerminate(last) then Terminate
      else LastStore(acts[..|acts| - 1])
  }

  lemma {:induction false} StoresOfRun(s: World, done: seq<Action>, acts: seq<Action>, server: Trust)
    requires Legal(s, acts, server) && s.state == LastStore(done) && (s.shutdown <==> Signal in done)
    ensures Exec(s, acts, server).state == LastStore(done + acts)
    ensures Exec(s, acts, server).shutdown <==> Signal in done + acts
    decreases |acts|
  {
    if acts == [] {
      assert done + acts == done;
    } else {
      StateAfterExactly(s, acts[0]);
      assert (done + [acts[0]])[..|done|] == done;
      assert done + acts == (done + [acts[0]]) + acts[1..];
      StoresOfRun(Next(s, acts[0]), done + [acts[0]], acts[1..], server);
    }
  }

  /** On any run, the state is what the last directive or store said, and the flag is up
      exactly if the signal came. */
  lemma StateIsLastStore(c: Permits, server: Trust, acts: seq<Action>)
    requires Legal(Init(c), acts, server)
    ensures Exec(Init(c), acts, server).state == LastStore(acts)
    ensures Exec(Init(c), acts, server).shutdown <==> Signal in acts
  {
    StoresOfRun(Init(c), [], acts, server);
    assert [] + acts == acts;
  }

  // -------------------------------------------------------------------------
  // Why the loop ends, and the heartbeat
  // -------------------------------------------------------------------------

  /** The loop is in or past its shutdown loop. */
  predicate Left(pc: LoopPc) {
    pc.Draining? || pc.Pausing? || pc.Stopped?
  }

  /** What a run so far says of loop and heartbeat: the fetch loop was left only after a signal
      or a terminate directive, was given up exactly by the deadline, and the heartbeat ended
      exactly with the worker or by its own stop, which only a signal allows. */
  predicate EndsFor(s: World, done: seq<Action>) {
    && (s.shutdown <==> Signal in done)
    && (Left(s.pc) || s.pc.Signalled? || s.state.Terminate? ==>
          Signal in done || BeatStep(Answer(ToTerminate)) in done)
    && (s.pc.Signalled? ==> Signal in done)
    && (s.pc == Stopped(false) <==> DrainStep(GraceOver) in done)
    && (s.beat.BeatOver? <==> s.pc.Stopped? || BeatStep(BeatStops) in done)
    && (BeatStep(BeatStops) in done ==> Signal in done)
  }

  lemma InSnoc(done: seq<Action>, a: Action)
    ensures forall b :: b in done + [a] <==> b in done || b == a
  {
  }

  lemma PollEnds(s: World, done: seq<Action>, p: PollAct)
    requires EndsFor(s, done) && !s.pc.Stopped? && PollEnabled(s, p)
    ensures EndsFor(PollNext(s, p), done + [PollStep(p)])
  {
    InSnoc(done, PollStep(p));
  }

  lemma AdmitEnds(s: World, done: seq<Action>, d: AdmitAct)
    requires EndsFor(s, done) && !s.pc.Stopped? && AdmitEnabled(s, d)
    ensures EndsFor(AdmitNext(s, d), done + [AdmitStep(d)])
  {
    InSnoc(done, AdmitStep(d));
  }

  lemma DrainEnds(s: World, done: seq<Action>, d: DrainAct)
    requires EndsFor(s, done) && !s.pc.Stopped? && DrainEnabled(s, d)
    ensures EndsFor(DrainNext(s, d), done + [DrainStep(d)])
  {
    InSnoc(done, DrainStep(d));
  }

  lemma BeatEnds(s: World, done: seq<Action>, b: BeatAct)
    requires EndsFor(s, done) && !s.pc.Stopped? && BeatEnabled(s, b)
    ensures EndsFor(BeatNext(s, b), done + [BeatStep(b)])
  {
    InSnoc(done, BeatStep(b));
  }

  lemma StepEnds(s: World, done: seq<Action>, a: Action)
    requires EndsFor(s, done) && Enabled(s, a)
    ensures EndsFor(Next(s, a), done + [a])
  {
    match a
    case PollStep(p) => PollEnds(s, done, p);
    case AdmitStep(d) => AdmitEnds(s, done, d);
    case DrainStep(d) => DrainEnds(s, done, d);
    case BeatStep(b) => BeatEnds(s, done, b);
    case TaskStep(i, t) =>
      InSnoc(done, a);
      var s' := TaskStepNext(s, i, t);
      assert s'.pc == s.pc && s'.state == s.state && s'.shutdown == s.shutdown && s'.beat == s.beat;
    case Signal => InSnoc(done, a);
  }

  lemma {:induction false} EndsOfRun(s: World, done: seq<Action>, acts: seq<Action>, server: Trust)
    requires Legal(s, acts, server) && EndsFor(s, done)
    ensures EndsFor(Exec(s, acts, server), done + acts)
    decreases |acts|
  {
    if acts == [] {
      assert done + acts == done;
    } else {
      StepEnds(s, done, acts[0]);
      assert done + acts == (done + [acts[0]]) + acts[1..];
      EndsOfRun(Next(s, acts[0]), done + [acts[0]], acts[1..], server);
    }
  }

  /** On any run: the fetch loop is left only if the signal or a terminate directive came; the
      worker is given up exactly by its deadline; the heartbeat is over exactly if the worker
      stopped or the heartbeat itself saw the signal. */
  lemma EndsForAReason(c: Permits, server: Trust, acts: seq<Action>)
    requires Legal(Init(c), acts, server)
    ensures EndsFor(Exec(Init(c), acts, server), acts)
  {
    EndsOfRun(Init(c), [], acts, server);
    assert [] + acts == acts;
  }

  /** The heartbeat goes from idle to waiting for its answer, with the ids it has read, and
      back; only its own steps and the worker's stop change it. */
  lemma HeartbeatAfterExactly(s: World, a: Action)
    requires Enabled(s, a)
    ensures Next(s, a).beat ==
            if a == BeatStep(Beat) then BeatSent(s.activeJobs)
            else if a.BeatStep? && a.beat.Answer? then BeatIdle
            else if a == BeatStep(BeatStops) || Next(s, a).pc.Stopped? then BeatOver
            else s.beat
    ensures a == BeatStep(Beat) || a == BeatStep(BeatStops) ==> s.beat.BeatIdle?
    ensures a.BeatStep? && a.beat.Answer? ==> s.beat.BeatSent?
  {
    if a.TaskStep? {
      assert Next(s, a).beat == s.beat && Next(s, a).pc == s.pc;
    }
  }

  // -------------------------------------------------------------------------
  // The size of a request
  // -------------------------------------------------------------------------

  /** The count that the last capacity check of a run has read. */
  function CountRead(s: World, acts: seq<Action>, server: Trust, before: Option<int>): Option<int>
    requires Legal(s, acts, server)
    decreases |acts|
  {
    if acts == [] then before
    else
      CountRead(Next(s, acts[0]), acts[1..], server,
                if acts[0] == PollStep(LoadCount) then Some(s.activeCount) else before)
  }

  /** A request for `n` jobs is what a count of `read` leaves room for, at most ten. */
  predicate AsksFor(c: nat, read: int, n: nat) {
    var used := read % 0x1_0000_0000_0000_0000;
    used < c && n == if c - used < 10 then c - used else 10
  }

  predicate AsksRightly(s: World, read: Option<int>) {
    && (s.pc.Asking? ==> read.Some? && AsksFor(s.concurrency, read.value, s.pc.count))
    && (s.pc.Awaiting? ==> read.Some? && AsksFor(s.concurrency, read.value, s.pc.count))
  }

  /** The capacity check asks if there is room, and else waits. */
  lemma CapacityCheckExactly(s: World)
    requires s.pc.PastState?
    ensures var used := s.activeCount % 0x1_0000_0000_0000_0000;
            Next(s, PollStep(LoadCount)).pc ==
              if used >= s.concurrency then Sleeping
              else if s.concurrency - used < 10 then Asking(s.concurrency - used)
              else Asking(10)
  {
  }

  lemma {:induction false} RequestsOfRun(s: World, acts: seq<Action>, server: Trust, before: Option<int>)
    requires Legal(s, acts, server) && AsksRightly(s, before)
    ensures AsksRightly(Exec(s, acts, server), CountRead(s, acts, server, before))
    decreases |acts|
  {
    if acts != [] {
      var read := if acts[0] == PollStep(LoadCount) then Some(s.activeCount) else before;
      if acts[0] == PollStep(LoadCount) {
        CapacityCheckExactly(s);
      }
      assert AsksRightly(Next(s, acts[0]), read);
      RequestsOfRun(Next(s, acts[0]), acts[1..], server, read);
    }
  }

  /** On any run, a request asks for exactly min(concurrency - count, 10) jobs, of the count
      that its capacity check read. */
  lemma RequestIsRoomRead(c: Permits, server: Trust, acts: seq<Action>)
    requires Legal(Init(c), acts, server)
    ensures AsksRightly(Exec(Init(c), acts, server), CountRead(Init(c), acts, server, None))
  {
    RequestsOfRun(Init(c), acts, server, None);
  }
}
