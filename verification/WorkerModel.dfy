/** The run loop of a worker as a state machine over its atomic steps.

    Three kinds of thread share the worker's fields: the fetch loop of `start`, one task per
    admitted job, and the heartbeat task.  A step is one access to a shared field (or one
    event that the scheduler, the server or the operating system decides), so any order of
    enabled steps is an interleaving the source can show.
 */
module WorkerModel {
  import opened Numbers

  type JobId = string

  datatype WorkerState = Running | Quiet | Terminate

  /** The two calls that report a job back to the server. */
  datatype Settlement = Ack | Nack(retryable: bool)

  datatype JobError = NonRetryable | HandlerError | OtherError

  /** How the part of `process_job` before the report ended. */
  datatype Outcome = NoHandler | Completed | Failed(error: JobError)

  function Report(o: Outcome): Settlement {
    match o
    case NoHandler => Nack(false)
    case Completed => Ack
    case Failed(e) => Nack(!e.NonRetryable?)
  }

  // -------------------------------------------------------------------------
  // Job tasks
  // -------------------------------------------------------------------------

  datatype TaskPc =
    | Starting          // spawned, handler not looked up yet
    | Handling          // the wrapped handler runs
    | Calling           // the ack or nack call is out
    | Returned          // process_job returned, count not yet decremented
    | Uncounted         // count decremented, id not yet removed
    | Untracked         // id removed, permit not yet dropped
    | Done              // permit dropped
    | Unwinding         // the handler panicked, permit not yet dropped
    | Panicked          // permit dropped by unwinding

  datatype Task = Task(job: JobId, pc: TaskPc, outcome: seq<Outcome>, calls: seq<Settlement>)

  datatype TaskAct =
    | Find(found: bool)
    | Finish(outcome: Outcome)
    | Panic
    | CallReturns
    | Uncount
    | Untrack
    | Release
    | Unwind

  predicate TaskEnabled(t: Task, a: TaskAct) {
    match a
    case Find(_) => t.pc.Starting?
    case Finish(o) => t.pc.Handling? && !o.NoHandler?
    case Panic => t.pc.Handling?
    case CallReturns => t.pc.Calling?
    case Uncount => t.pc.Returned?
    case Untrack => t.pc.Uncounted?
    case Release => t.pc.Untracked?
    case Unwind => t.pc.Unwinding?
  }

  function Reporting(t: Task, o: Outcome): Task {
    t.(pc := Calling, outcome := t.outcome + [o], calls := t.calls + [Report(o)])
  }

  function TaskNext(t: Task, a: TaskAct): Task
    requires TaskEnabled(t, a)
  {
    match a
    case Find(found) => if found then t.(pc := Handling) else Reporting(t, NoHandler)
    case Finish(o) => Reporting(t, o)
    case Panic => t.(pc := Unwinding)
    case CallReturns => t.(pc := Returned)
    case Uncount => t.(pc := Uncounted)
    case Untrack => t.(pc := Untracked)
    case Release => t.(pc := Done)
    case Unwind => t.(pc := Panicked)
  }

  /** The groups of tasks the invariants count. */
  datatype Class = Holder | Charged | Lost | Paid | Handler | Open | Reported | Broken

  predicate In(pc: TaskPc, k: Class) {
    match k
    case Holder => !pc.Done? && !pc.Panicked?
    case Charged => (pc.Starting? || pc.Handling? || pc.Calling? || pc.Returned? || pc.Unwinding? || pc.Panicked?)
    case Lost => pc.Panicked?
    case Paid => pc.Uncounted? || pc.Untracked?
    case Handler => pc.Handling?
    case Open => (pc.Starting? || pc.Handling? || pc.Calling?)
    case Reported => (pc.Returned? || pc.Uncounted? || pc.Untracked? || pc.Done?)
    case Broken => pc.Unwinding? || pc.Panicked?
  }

  /** The task will still remove its id from `active_jobs`. */
  predicate Live(pc: TaskPc) {
    (pc.Starting? || pc.Handling? || pc.Calling? || pc.Returned? || pc.Uncounted?)
  }

  /** The task may have left its id in `active_jobs`. */
  predicate Trackable(pc: TaskPc) {
    Live(pc) || pc.Unwinding? || pc.Panicked?
  }

  function Count(ts: seq<Task>, k: Class): nat {
    if ts == [] then 0
    else Count(ts[..|ts| - 1], k) + if In(ts[|ts| - 1].pc, k) then 1 else 0
  }

  function Jobs(ts: seq<Task>): seq<JobId> {
    seq(|ts|, i requires 0 <= i < |ts| => ts[i].job)
  }

  // -------------------------------------------------------------------------
  // The fetch loop
  // -------------------------------------------------------------------------

  datatype LoopPc =
    | Top                                       // about to look at the shutdown flag
    | Signalled                                 // flag was up, about to store Terminate
    | PastFlag                                  // flag was down, about to load the state
    | PastState                                 // state was Running, about to load the count
    | Asking(count: nat)                        // about to send the fetch
    | Awaiting(count: nat)                      // fetch sent, no answer yet
    | Admitting(batch: seq<JobId>)              // about to acquire a permit for batch[0]
    | Holding(job: JobId, rest: seq<JobId>)     // permit acquired, about to increment the count
    | Counting(job: JobId, rest: seq<JobId>)    // count incremented, about to insert the id
    | Tracking(job: JobId, rest: seq<JobId>)    // id inserted, about to spawn the task
    | Sleeping                                  // waiting for the poll interval or the signal
    | Draining                                  // shutdown loop, about to load the count
    | Pausing                                   // count was not 0, about to look at the deadline
    | Stopped(clean: bool)                      // left the shutdown loop: by count or by deadline

  /** The loop up to a fetch request, and its waits. */
  datatype PollAct = CheckFlag | StoreTerminate | LoadState | LoadCount | SendFetch | PollElapsed | SeeSignal

  /** The answer to a fetch and the admission of its jobs. */
  datatype AdmitAct = FetchOk(jobs: seq<JobId>) | FetchErr | Acquire | CountJob | TrackJob | Spawn

  /** The shutdown loop. */
  datatype DrainAct = DrainCheck | DrainWait | GraceOver

  // -------------------------------------------------------------------------
  // The heartbeat task
  // -------------------------------------------------------------------------

  datatype Directive = ToQuiet | ToTerminate | NoDirective   // any other answer, or an error

  datatype BeatPc = BeatIdle | BeatSent(listed: set<JobId>) | BeatOver

  datatype BeatAct = Beat | Answer(directive: Directive) | BeatStops

  // -------------------------------------------------------------------------
  // The whole worker
  // -------------------------------------------------------------------------

  datatype World = World(
    concurrency: Permits,
    state: WorkerState,
    activeCount: int,
    activeJobs: set<JobId>,
    free: nat,                 // permits in the semaphore
    shutdown: bool,            // value in the watch channel
    pc: LoopPc,
    beat: BeatPc,
    tasks: seq<Task>,          // every task spawned, in order
    fetched: seq<JobId>,       // every job a fetch has returned, in order
    sent: nat)                 // number of fetch requests sent

  datatype Action =
    | PollStep(poll: PollAct)
    | AdmitStep(admit: AdmitAct)
    | DrainStep(drain: DrainAct)
    | TaskStep(index: nat, task: TaskAct)
    | BeatStep(beat: BeatAct)
    | Signal

  /** A tokio semaphore takes at most usize::MAX >> 3 permits and panics above that. */
  type Permits = n: nat | n <= 0x1FFF_FFFF_FFFF_FFFF

  function Init(concurrency: Permits): World {
    World(concurrency, Running, 0, {}, concurrency, false, Top, BeatIdle, [], [], 0)
  }

  const U64_RANGE := 0x1_0000_0000_0000_0000

  /** `concurrency.saturating_sub(active_count as usize)`; the cast wraps a negative count. */
  function Capacity(concurrency: Permits, activeCount: int): nat {
    var active := activeCount % U64_RANGE;
    if active < concurrency then concurrency - active else 0
  }

  const BATCH_CAP := 10

  predicate PollEnabled(s: World, a: PollAct) {
    match a
    case CheckFlag => s.pc.Top?
    case StoreTerminate => s.pc.Signalled?
    case LoadState => s.pc.PastFlag?
    case LoadCount => s.pc.PastState?
    case SendFetch => s.pc.Asking?
    case PollElapsed => s.pc.Sleeping?
    case SeeSignal => s.pc.Sleeping? && s.shutdown
  }

  function PollNext(s: World, a: PollAct): World
    requires PollEnabled(s, a)
  {
    match a
    case CheckFlag => s.(pc := if s.shutdown then Signalled else PastFlag)
    case StoreTerminate => s.(state := Terminate, pc := Draining)
    case LoadState =>
      s.(pc := match s.state case Terminate => Draining case Quiet => Sleeping case Running => PastState)
    case LoadCount =>
      var capacity := Capacity(s.concurrency, s.activeCount);
      s.(pc := if capacity == 0 then Sleeping else Asking(Min(capacity, BATCH_CAP)))
    case SendFetch => s.(pc := Awaiting(s.pc.count), sent := s.sent + 1)
    case PollElapsed => s.(pc := Top)
    case SeeSignal => s.(pc := Draining)
  }

  predicate AdmitEnabled(s: World, a: AdmitAct) {
    match a
    case FetchOk(_) => s.pc.Awaiting?
    case FetchErr => s.pc.Awaiting?
    case Acquire => s.pc.Admitting? && s.pc.batch != [] && s.free > 0
    case CountJob => s.pc.Holding?
    case TrackJob => s.pc.Counting?
    case Spawn => s.pc.Tracking?
  }

  function AdmitNext(s: World, a: AdmitAct): World
    requires AdmitEnabled(s, a)
  {
    match a
    case FetchOk(jobs) =>
      s.(pc := if jobs == [] then Sleeping else Admitting(jobs), fetched := s.fetched + jobs)
    case FetchErr => s.(pc := Sleeping)
    case Acquire => s.(pc := Holding(s.pc.batch[0], s.pc.batch[1..]), free := s.free - 1)
    case CountJob => s.(pc := Counting(s.pc.job, s.pc.rest), activeCount := s.activeCount + 1)
    case TrackJob =>
      s.(pc := Tracking(s.pc.job, s.pc.rest), activeJobs := s.activeJobs + {s.pc.job})
    case Spawn =>
      s.(pc := if s.pc.rest == [] then Top else Admitting(s.pc.rest),
         tasks := s.tasks + [Task(s.pc.job, Starting, [], [])])
  }

  predicate DrainEnabled(s: World, a: DrainAct) {
    match a
    case DrainCheck => s.pc.Draining?
    case DrainWait => s.pc.Pausing?
    case GraceOver => s.pc.Pausing?
  }

  function DrainNext(s: World, a: DrainAct): World
    requires DrainEnabled(s, a)
  {
    match a
    case DrainCheck =>
      if s.activeCount == 0 then s.(pc := Stopped(true), beat := BeatOver) else s.(pc := Pausing)
    case DrainWait => s.(pc := Draining)
    case GraceOver => s.(pc := Stopped(false), beat := BeatOver)
  }

  predicate BeatEnabled(s: World, a: BeatAct) {
    match a
    case Beat => s.beat == BeatIdle
    case Answer(_) => s.beat.BeatSent?
    case BeatStops => s.beat == BeatIdle && s.shutdown
  }

  function BeatNext(s: World, a: BeatAct): World
    requires BeatEnabled(s, a)
  {
    match a
    case Beat => s.(beat := BeatSent(s.activeJobs))
    case Answer(d) =>
      s.(beat := BeatIdle,
         state := match d case ToQuiet => Quiet case ToTerminate => Terminate case NoDirective => s.state)
    case BeatStops => s.(beat := BeatOver)
  }

  /** One step of task `i`, with its effect on the shared fields. */
  function TaskStepNext(s: World, i: nat, a: TaskAct): World
    requires i < |s.tasks| && TaskEnabled(s.tasks[i], a)
  {
    var s' := s.(tasks := s.tasks[i := TaskNext(s.tasks[i], a)]);
    match a
    case Uncount => s'.(activeCount := s.activeCount - 1)
    case Untrack => s'.(activeJobs := s.activeJobs - {s.tasks[i].job})
    case Release => s'.(free := s.free + 1)
    case Unwind => s'.(free := s.free + 1)
    case _ => s'
  }

  predicate Enabled(s: World, a: Action) {
    && !s.pc.Stopped?
    && match a
       case PollStep(p) => PollEnabled(s, p)
       case AdmitStep(d) => AdmitEnabled(s, d)
       case DrainStep(d) => DrainEnabled(s, d)
       case TaskStep(i, t) => i < |s.tasks| && TaskEnabled(s.tasks[i], t)
       case BeatStep(b) => BeatEnabled(s, b)
       case Signal => true
  }

  function Next(s: World, a: Action): World
    requires Enabled(s, a)
  {
    match a
    case PollStep(p) => PollNext(s, p)
    case AdmitStep(d) => AdmitNext(s, d)
    case DrainStep(d) => DrainNext(s, d)
    case TaskStep(i, t) => TaskStepNext(s, i, t)
    case BeatStep(b) => BeatNext(s, b)
    case Signal => s.(shutdown := true)
  }

  // -------------------------------------------------------------------------
  // Runs, and what may be asked of the server along a run
  // -------------------------------------------------------------------------

  /** What the server is trusted with: to return no more jobs than asked for, and to return
      no job that this worker is still working on. */
  datatype Trust = Trust(honest: bool, unique: bool)

  predicate Distinct(js: seq<JobId>) {
    forall i, j :: 0 <= i < j < |js| ==> js[i] != js[j]
  }

  predicate KeepsFetch(s: World, jobs: seq<JobId>, server: Trust)
    requires s.pc.Awaiting?
  {
    && (server.honest ==> |jobs| <= s.pc.count)
    && (server.unique ==>
          && Distinct(jobs)
          && forall i :: 0 <= i < |s.tasks| && Live(s.tasks[i].pc) ==> s.tasks[i].job !in jobs)
  }

  predicate Keeps(s: World, a: Action, server: Trust)
    requires Enabled(s, a)
  {
    a.AdmitStep? && a.admit.FetchOk? ==> KeepsFetch(s, a.admit.jobs, server)
  }

  /** `acts` is an interleaving that can start in `s`. */
  predicate Legal(s: World, acts: seq<Action>, server: Trust)
    decreases |acts|
  {
    acts == [] ||
    (Enabled(s, acts[0]) && Keeps(s, acts[0], server) && Legal(Next(s, acts[0]), acts[1..], server))
  }

  function Exec(s: World, acts: seq<Action>, server: Trust): World
    requires Legal(s, acts, server)
    decreases |acts|
  {
    if acts == [] then s else Exec(Next(s, acts[0]), acts[1..], server)
  }

  ghost predicate Reachable(concurrency: Permits, server: Trust, s: World) {
    exists acts :: Legal(Init(concurrency), acts, server) && Exec(Init(concurrency), acts, server) == s
  }
}
