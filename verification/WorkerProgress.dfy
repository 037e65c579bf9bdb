/** What a worker can still reach: the converses of the theorems about panics. */
module WorkerProgress {
  import opened Numbers
  import opened WorkerModel
  import opened WorkerInvariant
  import opened WorkerTheorems

  // -------------------------------------------------------------------------
  // How much is left to do
  // -------------------------------------------------------------------------

  function TaskWork(ts: seq<Task>): nat {
    if ts == [] then 0 else TaskWork(ts[..|ts| - 1]) + StepsLeft(ts[|ts| - 1].pc)
  }

  lemma {:induction false} TaskWorkUpdate(ts: seq<Task>, i: nat, t: Task)
    requires i < |ts|
    ensures TaskWork(ts[i := t]) + StepsLeft(ts[i].pc) == TaskWork(ts) + StepsLeft(t.pc)
  {
    var n := |ts| - 1;
    if i == n {
      assert ts[i := t][..n] == ts[..n];
    } else {
      assert ts[i := t][..n] == ts[..n][i := t];
      TaskWorkUpdate(ts[..n], i, t);
    }
  }

  lemma TaskWorkAppend(ts: seq<Task>, t: Task)
    ensures TaskWork(ts + [t]) == TaskWork(ts) + StepsLeft(t.pc)
  {
    assert (ts + [t])[..|ts|] == ts;
  }

  /** Enough for each job in hand to be admitted and to run. */
  function BatchWork(pc: LoopPc): nat {
    match pc
    case Admitting(batch) => 20 * |batch| + 7
    case Holding(_, rest) => 20 * |rest| + 26
    case Counting(_, rest) => 20 * |rest| + 25
    case Tracking(_, rest) => 20 * |rest| + 24
    case _ => 0
  }

  /** The way of a signalled loop to its end. */
  function ToStop(pc: LoopPc): nat {
    match pc
    case Stopped(_) => 0
    case Draining => 1
    case Pausing => 2
    case Signalled => 2
    case Top => 3
    case Sleeping => 2
    case Awaiting(_) => 3
    case Asking(_) => 4
    case PastState => 5
    case PastFlag => 6
    case _ => BatchWork(pc)
  }

  /** The way of a running loop to its next request. */
  function ToFetch(pc: LoopPc): nat {
    match pc
    case Asking(_) => 1
    case PastState => 2
    case PastFlag => 3
    case Top => 4
    case Sleeping => 5
    case Awaiting(_) => 6
    case _ => BatchWork(pc)
  }

  function StopWork(s: World): nat {
    One(!s.shutdown) + TaskWork(s.tasks) + ToStop(s.pc)
  }

  function FetchWork(s: World): nat {
    TaskWork(s.tasks) + ToFetch(s.pc)
  }

  /** Jobs have got further, and nothing else has happened. */
  predicate Advanced(s: World, s': World) {
    && StopWork(s') < StopWork(s) && FetchWork(s') < FetchWork(s)
    && Count(s'.tasks, Broken) == Count(s.tasks, Broken)
    && s'.state == s.state && s'.shutdown == s.shutdown && s'.sent == s.sent && s'.fetched == s.fetched
    && (s'.pc == s.pc || (!EmptyHanded(s.pc) && (s'.pc.Top? || !EmptyHanded(s'.pc))))
  }

  /** The step is the worker's own: no answer of the server with jobs is needed. */
  predicate OwnStep(s: World, a: Action) {
    Enabled(s, a) && !(a.AdmitStep? && a.admit.FetchOk?)
  }

  lemma OnwardIsLessWork(t: Task)
    requires In(t.pc, Holder)
    ensures TaskEnabled(t, Onward(t.pc))
    ensures var t' := TaskNext(t, Onward(t.pc));
            StepsLeft(t'.pc) + 1 == StepsLeft(t.pc) && In(t'.pc, Broken) == In(t.pc, Broken)
  {
  }

  lemma HolderAdvances(s: World, i: nat) returns (a: Action)
    requires i < |s.tasks| && In(s.tasks[i].pc, Holder) && !s.pc.Stopped?
    ensures OwnStep(s, a) && Advanced(s, Next(s, a)) && Next(s, a).pc == s.pc
  {
    var t := s.tasks[i];
    var act := Onward(t.pc);
    OnwardIsLessWork(t);
    var t' := TaskNext(t, act);
    TaskWorkUpdate(s.tasks, i, t');
    CountUpdate(s.tasks, i, t', Broken);
    a := TaskStep(i, act);
    var s' := TaskStepNext(s, i, act);
    assert s'.tasks == s.tasks[i := t'] && s'.pc == s.pc;
  }

  lemma MovedOn(s: World, s': World)
    requires s.pc.Tracking? && s'.pc == if s.pc.rest == [] then Top else Admitting(s.pc.rest)
    requires TaskWork(s'.tasks) == TaskWork(s.tasks) + 6 && Count(s'.tasks, Broken) == Count(s.tasks, Broken)
    requires s'.state == s.state && s'.shutdown == s.shutdown && s'.sent == s.sent && s'.fetched == s.fetched
    ensures Advanced(s, s')
  {
  }

  lemma SpawnAdvances(s: World)
    requires s.pc.Tracking?
    ensures Advanced(s, AdmitNext(s, Spawn))
  {
    var t := Task(s.pc.job, Starting, [], []);
    TaskWorkAppend(s.tasks, t);
    SpawnCounts(s.tasks, t);
    MovedOn(s, AdmitNext(s, Spawn));
  }

  lemma HandAdvances(s: World, a: AdmitAct)
    requires AdmitEnabled(s, a) && (a.Acquire? || a.CountJob? || a.TrackJob?)
    ensures Advanced(s, AdmitNext(s, a))
  {
  }

  /** While the loop has jobs in hand, it or a permit holder can advance. */
  lemma BatchAdvances(s: World) returns (a: Action)
    requires Inv(s) && !EmptyHanded(s.pc)
    ensures OwnStep(s, a) && Advanced(s, Next(s, a))
  {
    if s.pc.Admitting? && s.free == 0 {
      CountWitness(s.tasks, Holder);
      var i :| 0 <= i < |s.tasks| && In(s.tasks[i].pc, Holder);
      a := HolderAdvances(s, i);
    } else if s.pc.Tracking? {
      SpawnAdvances(s);
      a := AdmitStep(Spawn);
    } else {
      var d := if s.pc.Admitting? then Acquire else if s.pc.Holding? then CountJob else TrackJob;
      HandAdvances(s, d);
      a := AdmitStep(d);
    }
  }

  lemma {:induction false} ChargedNotBroken(ts: seq<Task>) returns (i: nat)
    requires Count(ts, Charged) > Count(ts, Broken)
    ensures i < |ts| && In(ts[i].pc, Charged) && In(ts[i].pc, Holder)
  {
    var n := |ts| - 1;
    if In(ts[n].pc, Charged) && !In(ts[n].pc, Broken) {
      i := n;
    } else {
      i := ChargedNotBroken(ts[..n]);
    }
  }

  /** While more is counted than has panicked, some counted task can advance. */
  lemma CountAdvances(s: World) returns (a: Action)
    requires Counted(s) && EmptyHanded(s.pc) && !s.pc.Stopped? && s.activeCount > Count(s.tasks, Broken)
    ensures OwnStep(s, a) && Advanced(s, Next(s, a)) && Next(s, a).pc == s.pc
  {
    var i := ChargedNotBroken(s.tasks);
    a := HolderAdvances(s, i);
  }

  // -------------------------------------------------------------------------
  // A clean exit
  // -------------------------------------------------------------------------

  /** What the loop does when it is signalled and has no job in hand. */
  function HeadForStop(pc: LoopPc): Action
    requires EmptyHanded(pc) && !pc.Stopped?
  {
    match pc
    case Top => PollStep(CheckFlag)
    case Signalled => PollStep(StoreTerminate)
    case PastFlag => PollStep(LoadState)
    case PastState => PollStep(LoadCount)
    case Asking(_) => PollStep(SendFetch)
    case Awaiting(_) => AdmitStep(FetchErr)
    case Sleeping => PollStep(SeeSignal)
    case Draining => DrainStep(DrainCheck)
    case Pausing => DrainStep(DrainWait)
  }

  lemma HeadedForStop(s: World)
    requires s.shutdown && EmptyHanded(s.pc) && !s.pc.Stopped? && (s.pc.Draining? ==> s.activeCount == 0)
    ensures OwnStep(s, HeadForStop(s.pc))
    ensures var s' := Next(s, HeadForStop(s.pc));
            s'.tasks == s.tasks && s'.shutdown && ToStop(s'.pc) < ToStop(s.pc) && s'.pc != Stopped(false)
  {
  }

  /** A step of a signalled worker without panics, towards the end. */
  lemma StepToStop(s: World) returns (a: Action)
    requires Inv(s) && Count(s.tasks, Broken) == 0 && !s.pc.Stopped?
    ensures OwnStep(s, a)
    ensures StopWork(Next(s, a)) < StopWork(s)
    ensures Count(Next(s, a).tasks, Broken) == 0 && Next(s, a).pc != Stopped(false)
  {
    if !s.shutdown {
      a := Signal;
    } else if !EmptyHanded(s.pc) {
      a := BatchAdvances(s);
    } else if s.pc.Draining? && s.activeCount != 0 {
      a := CountAdvances(s);
    } else {
      HeadedForStop(s);
      a := HeadForStop(s.pc);
    }
  }

  lemma CleanExitFrom(s: World, server: Trust) returns (acts: seq<Action>)
    requires Inv(s) && Count(s.tasks, Broken) == 0 && s.pc != Stopped(false)
    ensures Legal(s, acts, server) && Exec(s, acts, server).pc == Stopped(true)
    decreases StopWork(s)
  {
    if s.pc.Stopped? {
      acts := [];
    } else {
      var a := StepToStop(s);
      StepKeepsInv(s, a);
      var rest := CleanExitFrom(Next(s, a), server);
      acts := [a] + rest;
      assert acts[1..] == rest;
    }
  }

  /** Unless the deadline has already ended it, a worker can still come to a clean exit if and
      only if no handler has panicked. */
  lemma CleanExitExactly(c: Permits, server: Trust, s: World)
    requires Reachable(c, server, s) && s.pc != Stopped(false)
    ensures (exists acts :: Legal(s, acts, server) && Exec(s, acts, server).pc == Stopped(true)) <==>
            Count(s.tasks, Broken) == 0
  {
    ReachableIsSafe(c, server, s);
    if Count(s.tasks, Broken) == 0 {
      var acts := CleanExitFrom(s, server);
    }
    if acts :| Legal(s, acts, server) && Exec(s, acts, server).pc == Stopped(true) {
      PanicsStarveTheWorker(c, server, s, acts);
    }
  }

  // -------------------------------------------------------------------------
  // Another fetch
  // -------------------------------------------------------------------------

  /** The iteration is past its checks, or the loop is neither left nor told to stop. */
  predicate MayFetch(s: World) {
    PastChecks(s) || (!Stopping(s) && !Leaving(s.pc))
  }

  /** What the loop does on its way to the next request when it has no job in hand. */
  function HeadForFetch(pc: LoopPc): Action
    requires EmptyHanded(pc) && !Leaving(pc)
  {
    match pc
    case Top => PollStep(CheckFlag)
    case Signalled => PollStep(StoreTerminate)
    case PastFlag => PollStep(LoadState)
    case PastState => PollStep(LoadCount)
    case Asking(_) => PollStep(SendFetch)
    case Awaiting(_) => AdmitStep(FetchErr)
    case Sleeping => PollStep(PollElapsed)
  }

  lemma HeadedForFetch(s: World)
    requires MayFetch(s) && EmptyHanded(s.pc) && !s.pc.Asking? && (s.pc.Signalled? ==> s.shutdown)
    requires s.pc.PastState? ==> Capacity(s.concurrency, s.activeCount) > 0
    ensures !Leaving(s.pc) && OwnStep(s, HeadForFetch(s.pc))
    ensures var s' := Next(s, HeadForFetch(s.pc));
            && s'.tasks == s.tasks && s'.sent == s.sent && s'.fetched == s.fetched
            && ToFetch(s'.pc) < ToFetch(s.pc) && MayFetch(s')
  {
  }

  lemma StepToFetch(s: World) returns (a: Action)
    requires Inv(s) && MayFetch(s) && !s.pc.Asking? && Count(s.tasks, Broken) < s.concurrency
    ensures OwnStep(s, a)
    ensures FetchWork(Next(s, a)) < FetchWork(s)
    ensures MayFetch(Next(s, a)) && Count(Next(s, a).tasks, Broken) == Count(s.tasks, Broken)
    ensures Next(s, a).sent == s.sent && Next(s, a).fetched == s.fetched
  {
    if !EmptyHanded(s.pc) {
      a := BatchAdvances(s);
    } else if s.pc.PastState? && s.activeCount >= s.concurrency {
      a := CountAdvances(s);
    } else {
      if s.pc.PastState? {
        CapacityIsRoom(s.concurrency, s.activeCount);
      }
      HeadedForFetch(s);
      a := HeadForFetch(s.pc);
    }
  }

  lemma FetchFrom(s: World, server: Trust) returns (acts: seq<Action>)
    requires Inv(s) && MayFetch(s) && Count(s.tasks, Broken) < s.concurrency
    ensures Legal(s, acts, server)
    ensures Exec(s, acts, server).sent > s.sent && Exec(s, acts, server).fetched == s.fetched
    decreases FetchWork(s)
  {
    if s.pc.Asking? {
      acts := [PollStep(SendFetch)];
      assert acts[1..] == [];
      assert Legal(Next(s, acts[0]), [], server);
    } else {
      var a := StepToFetch(s);
      StepKeepsInv(s, a);
      var rest := FetchFrom(Next(s, a), server);
      acts := [a] + rest;
      assert acts[1..] == rest;
    }
  }

  /** A run on which the count does not wrap around sends another fetch. */
  predicate FetchesOn(s: World, acts: seq<Action>, server: Trust) {
    && Legal(s, acts, server)
    && CountFits(Exec(s, acts, server), server)
    && Exec(s, acts, server).sent > s.sent
  }

  /** A worker can still send a fetch if and only if fewer than `concurrency` handlers have
      panicked and it is past its checks or neither stopping nor leaving. */
  lemma FetchesAgainExactly(c: Permits, server: Trust, s: World)
    requires Reachable(c, server, s) && CountFits(s, server)
    ensures (exists acts :: FetchesOn(s, acts, server)) <==> Count(s.tasks, Broken) < c && MayFetch(s)
  {
    ReachableIsSafe(c, server, s);
    if Count(s.tasks, Broken) < c && MayFetch(s) {
      var acts := FetchFrom(s, server);
      assert FetchesOn(s, acts, server);
    }
    if acts :| FetchesOn(s, acts, server) {
      PanicsStarveTheWorker(c, server, s, acts);
      AtMostOneMoreFetch(s, acts, server);
      if Leaving(s.pc) {
        DrainIsFinal(s, acts, server);
      }
    }
  }

  // -------------------------------------------------------------------------
  // What a terminate directive does
  // -------------------------------------------------------------------------

  /** Neither signal nor heartbeat nor jobs from the server. */
  predicate Alone(acts: seq<Action>) {
    forall k :: 0 <= k < |acts| ==>
      !acts[k].Signal? && !acts[k].BeatStep? && !(acts[k].AdmitStep? && acts[k].admit.FetchOk?)
  }

  /** The way of a loop that will read Terminate out of the fetch loop. */
  function ToLeave(pc: LoopPc): nat
    requires EmptyHanded(pc)
  {
    match pc
    case PastFlag => 1
    case Signalled => 1
    case Top => 2
    case Sleeping => 3
    case Awaiting(_) => 4
    case Asking(_) => 5
    case PastState => 6
    case Draining => 0
    case Pausing => 0
    case Stopped(_) => 0
  }

  function LeaveWork(s: World): nat {
    if EmptyHanded(s.pc) then ToLeave(s.pc) else FetchWork(s) + 7
  }

  lemma HeadedOut(s: World)
    requires s.state.Terminate? && EmptyHanded(s.pc) && !Leaving(s.pc)
    ensures OwnStep(s, HeadForFetch(s.pc))
    ensures var s' := Next(s, HeadForFetch(s.pc));
            && s'.state.Terminate? && s'.tasks == s.tasks
            && EmptyHanded(s'.pc) && ToLeave(s'.pc) < ToLeave(s.pc) && !s'.pc.Stopped?
  {
  }

  /** One more step towards the shutdown loop. */
  lemma StepOut(s: World) returns (a: Action)
    requires Inv(s) && s.state.Terminate? && !Leaving(s.pc)
    ensures OwnStep(s, a) && Alone([a])
    ensures var s' := Next(s, a);
            && s'.state.Terminate? && Count(s'.tasks, Broken) == Count(s.tasks, Broken)
            && LeaveWork(s') < LeaveWork(s) && !s'.pc.Stopped? && !s'.pc.Pausing?
  {
    if EmptyHanded(s.pc) {
      HeadedOut(s);
      a := HeadForFetch(s.pc);
    } else {
      a := BatchAdvances(s);
    }
  }

  lemma AloneJoin(a: Action, rest: seq<Action>)
    requires Alone([a]) && Alone(rest)
    ensures Alone([a] + rest) && ([a] + rest)[1..] == rest
  {
    assert [a][0] == a;
  }

  /** A terminate directive takes effect: unless it is overwritten, the steps of the loop and
      the tasks alone lead into the shutdown loop. */
  lemma TerminateLeavesTheLoop(s: World, server: Trust) returns (acts: seq<Action>)
    requires Inv(s) && s.state.Terminate? && !s.pc.Stopped?
    ensures Legal(s, acts, server) && Alone(acts)
    ensures Exec(s, acts, server).pc.Draining? && Exec(s, acts, server).state.Terminate?
    ensures Inv(Exec(s, acts, server))
    ensures Count(Exec(s, acts, server).tasks, Broken) == Count(s.tasks, Broken)
    decreases LeaveWork(s)
  {
    if s.pc.Draining? {
      acts := [];
    } else if s.pc.Pausing? {
      acts := [DrainStep(DrainWait)];
      assert acts[1..] == [];
      assert Legal(Next(s, acts[0]), [], server);
    } else {
      var a := StepOut(s);
      StepKeepsInv(s, a);
      var rest := TerminateLeavesTheLoop(Next(s, a), server);
      AloneJoin(a, rest);
      acts := [a] + rest;
    }
  }

  /** From the shutdown loop, and without panics, they lead to a clean exit. */
  lemma DrainsOut(s: World, server: Trust) returns (acts: seq<Action>)
    requires Inv(s) && s.pc.Draining? && Count(s.tasks, Broken) == 0
    ensures Legal(s, acts, server) && Alone(acts) && Exec(s, acts, server).pc == Stopped(true)
    decreases TaskWork(s.tasks)
  {
    if s.activeCount == 0 {
      acts := [DrainStep(DrainCheck)];
      assert acts[1..] == [];
      assert Legal(Next(s, acts[0]), [], server);
    } else {
      var a := CountAdvances(s);
      StepKeepsInv(s, a);
      assert Alone([a]);
      var rest := DrainsOut(Next(s, a), server);
      AloneJoin(a, rest);
      acts := [a] + rest;
    }
  }

  lemma {:induction false} LegalJoin(s: World, a: seq<Action>, b: seq<Action>, server: Trust)
    requires Legal(s, a, server) && Legal(Exec(s, a, server), b, server)
    ensures Legal(s, a + b, server) && Exec(s, a + b, server) == Exec(Exec(s, a, server), b, server)
    decreases |a|
  {
    if a == [] {
      assert a + b == b;
    } else {
      assert (a + b)[0] == a[0] && (a + b)[1..] == a[1..] + b;
      LegalJoin(Next(s, a[0]), a[1..], b, server);
    }
  }

  /** From any reachable state in Terminate that is not stopped, the worker alone reaches the
      shutdown loop, and comes to a clean exit if and only if no handler has panicked. */
  lemma TerminateTakesEffect(c: Permits, server: Trust, s: World)
    requires Reachable(c, server, s) && s.state.Terminate? && !s.pc.Stopped?
    ensures exists acts :: Legal(s, acts, server) && Alone(acts) && Exec(s, acts, server).pc.Draining?
    ensures (exists acts :: Legal(s, acts, server) && Alone(acts) && Exec(s, acts, server).pc == Stopped(true)) <==>
            Count(s.tasks, Broken) == 0
  {
    ReachableIsSafe(c, server, s);
    var out := TerminateLeavesTheLoop(s, server);
    if Count(s.tasks, Broken) == 0 {
      var end := DrainsOut(Exec(s, out, server), server);
      LegalJoin(s, out, end, server);
      assert Alone(out + end);
    }
    if acts :| Legal(s, acts, server) && Alone(acts) && Exec(s, acts, server).pc == Stopped(true) {
      PanicsStarveTheWorker(c, server, s, acts);
    }
  }
}
