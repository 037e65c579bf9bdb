/** The worker with its fields updated in place, proved to take exactly the machine's steps. */
module WorkerLoop {
  import opened Numbers
  import opened Options
  import opened WorkerModel
  import opened WorkerInvariant
  import opened WorkerTheorems

  /** What the loop does not decide.  Between any two of its accesses to shared fields other
      threads take steps; the fields of a schedule say, for each such moment, which steps those
      are, what a fetch is answered, which arm of a wait wins when both are ready, and whether
      the grace deadline has passed.  The run is followed up to moment `until`. */
  datatype Schedule = Schedule(
    others: nat -> seq<Action>,
    answers: nat -> Option<seq<JobId>>,
    signalFirst: nat -> bool,
    late: nat -> bool,
    until: nat)

  /** Steps of the job tasks, the heartbeat and the signal handler. */
  predicate Foreign(a: Action) {
    a.TaskStep? || a.BeatStep? || a.Signal?
  }

  /** The first of the steps that are left. */
  lemma NextStep(s: World, acts: seq<Action>, k: nat, server: Trust)
    requires k < |acts| && Legal(s, acts[k..], server)
    ensures Enabled(s, acts[k]) && Keeps(s, acts[k], server)
    ensures Legal(Next(s, acts[k]), acts[k + 1..], server)
    ensures Exec(Next(s, acts[k]), acts[k + 1..], server) == Exec(s, acts[k..], server)
    ensures acts[..k + 1] == acts[..k] + [acts[k]]
  {
    assert acts[k..][0] == acts[k] && acts[k..][1..] == acts[k + 1..];
  }

  class Worker {
    const concurrency: Permits
    var state: WorkerState
    var activeCount: int
    var activeJobs: set<JobId>
    // locals of `start` that its loop, the heartbeat task and the job tasks share
    var permits: nat
    var shutdown: bool
    var pc: LoopPc
    var beat: BeatPc
    var tasks: seq<Task>
    // history
    var fetched: seq<JobId>
    var sent: nat
    var time: nat
    ghost var trace: seq<Action>

    function View(): World
      reads this
    {
      World(concurrency, state, activeCount, activeJobs, permits, shutdown, pc, beat, tasks, fetched, sent)
    }

    constructor (concurrency: Permits)
      ensures View() == Init(concurrency) && trace == [] && time == 0
      ensures Inv(View())
    {
      this.concurrency := concurrency;
      state, activeCount, activeJobs := Running, 0, {};
      permits, shutdown := concurrency, false;
      pc, beat, tasks := Top, BeatIdle, [];
      fetched, sent, time, trace := [], 0, 0, [];
    }

    /** One iteration of the fetch loop before any job arrives: the two checks, the capacity
        and the request. */
    method Poll(a: PollAct)
      requires PollEnabled(View(), a)
      modifies this`state, this`pc, this`sent
      ensures View() == PollNext(old(View()), a)
      ensures old(Inv(View())) ==> Inv(View())
    {
      ghost var before := View();
      if old(Inv(View())) { PollKeepsInv(before, a); }
      match a
      case CheckFlag =>
        if shutdown {
          pc := Signalled;
        } else {
          pc := PastFlag;
        }
      case StoreTerminate =>
        state := Terminate;
        pc := Draining;
      case LoadState =>
        if state == Terminate {
          pc := Draining;
        } else if state == Quiet {
          pc := Sleeping;
        } else {
          pc := PastState;
        }
      case LoadCount =>
        var capacity := Capacity(concurrency, activeCount);
        if capacity == 0 {
          pc := Sleeping;
        } else {
          pc := Asking(Min(capacity, BATCH_CAP));
        }
      case SendFetch =>
        pc := Awaiting(pc.count);
        sent := sent + 1;
      case PollElapsed =>
        pc := Top;
      case SeeSignal =>
        pc := Draining;
    }

    /** The answer to a fetch and the admission of its jobs, one access at a time. */
    method Admit(a: AdmitAct)
      requires AdmitEnabled(View(), a)
      modifies this`pc, this`fetched, this`permits, this`activeCount, this`activeJobs, this`tasks
      ensures View() == AdmitNext(old(View()), a)
      ensures old(Inv(View())) ==> Inv(View())
    {
      ghost var before := View();
      if old(Inv(View())) { AdmitKeepsInv(before, a); }
      match a
      case FetchOk(jobs) =>
        fetched := fetched + jobs;
        if jobs == [] {
          pc := Sleeping;
        } else {
          pc := Admitting(jobs);
        }
      case FetchErr =>
        pc := Sleeping;
      case Acquire =>
        permits := permits - 1;
        pc := Holding(pc.batch[0], pc.batch[1..]);
      case CountJob =>
        activeCount := activeCount + 1;
        pc := Counting(pc.job, pc.rest);
      case TrackJob =>
        activeJobs := activeJobs + {pc.job};
        pc := Tracking(pc.job, pc.rest);
      case Spawn =>
        tasks := tasks + [Task(pc.job, Starting, [], [])];
        pc := if pc.rest == [] then Top else Admitting(pc.rest);
    }

    /** The shutdown loop. */
    method Drain(a: DrainAct)
      requires DrainEnabled(View(), a)
      modifies this`pc, this`beat
      ensures View() == DrainNext(old(View()), a)
      ensures old(Inv(View())) ==> Inv(View())
    {
      ghost var before := View();
      if old(Inv(View())) { DrainKeepsInv(before, a); }
      match a
      case DrainCheck =>
        if activeCount == 0 {
          pc := Stopped(true);
          beat := BeatOver;
        } else {
          pc := Pausing;
        }
      case DrainWait =>
        pc := Draining;
      case GraceOver =>
        pc := Stopped(false);
        beat := BeatOver;
    }

    /** One step of job task `i`. */
    method RunTask(i: nat, a: TaskAct)
      requires i < |tasks| && TaskEnabled(tasks[i], a) && !pc.Stopped?
      modifies this`tasks, this`activeCount, this`activeJobs, this`permits
      ensures View() == TaskStepNext(old(View()), i, a)
      ensures old(Inv(View())) ==> Inv(View())
    {
      ghost var before := View();
      if old(Inv(View())) { TaskStepKeepsInv(before, i, a); }
      match a {
        case Uncount => activeCount := activeCount - 1;
        case Untrack => activeJobs := activeJobs - {tasks[i].job};
        case Release => permits := permits + 1;
        case Unwind => permits := permits + 1;
        case _ =>
      }
      tasks := tasks[i := TaskNext(tasks[i], a)];
    }

    /** One step of the heartbeat task. */
    method Heartbeat(a: BeatAct)
      requires BeatEnabled(View(), a) && !pc.Stopped?
      modifies this`beat, this`state
      ensures View() == BeatNext(old(View()), a)
      ensures old(Inv(View())) ==> Inv(View())
    {
      ghost var before := View();
      if old(Inv(View())) { SameWorkKeepsInv(before, BeatNext(before, a)); }
      match a
      case Beat => beat := BeatSent(activeJobs);
      case Answer(directive) =>
        match directive {
          case ToQuiet => state := Quiet;
          case ToTerminate => state := Terminate;
          case NoDirective =>
        }
        beat := BeatIdle;
      case BeatStops => beat := BeatOver;
    }

    /** The fields are where the machine is after the trace, which is one of its runs. */
    ghost predicate Follows(server: Trust)
      reads this
    {
      && Legal(Init(concurrency), trace, server)
      && Exec(Init(concurrency), trace, server) == View()
    }

    /** One step of any thread. */
    method Step(a: Action, ghost server: Trust)
      requires Follows(server) && Enabled(View(), a) && Keeps(View(), a, server)
      modifies this
      ensures Follows(server) && View() == Next(old(View()), a)
      ensures trace == old(trace) + [a] && time == old(time)
    {
      LegalExtend(Init(concurrency), trace, a, server);
      trace := trace + [a];
      match a
      case PollStep(p) => Poll(p);
      case AdmitStep(d) => Admit(d);
      case DrainStep(d) => Drain(d);
      case TaskStep(i, t) => RunTask(i, t);
      case BeatStep(b) => Heartbeat(b);
      case Signal => shutdown := true;
    }

    /** Any interleaving, carried out on the fields. */
    method Replay(acts: seq<Action>, ghost server: Trust)
      requires View() == Init(concurrency) && trace == [] && Legal(View(), acts, server)
      modifies this
      ensures View() == Exec(Init(concurrency), acts, server) && trace == acts
      ensures Safe(View(), server)
      ensures Reachable(concurrency, server, View())
    {
      ghost var start := View();
      RunKeepsSafe(start, acts, server);
      assert Legal(start, [], server);
      for k := 0 to |acts|
        invariant Follows(server) && trace == acts[..k]
        invariant Legal(View(), acts[k..], server)
        invariant Exec(View(), acts[k..], server) == Exec(start, acts, server)
      {
        NextStep(View(), acts, k, server);
        Step(acts[k], server);
      }
      assert acts[|acts|..] == [] && acts[..|acts|] == acts;
    }

    // -----------------------------------------------------------------------
    // The control flow of `start`.  It branches on the fields that the source
    // reads, never on `pc`: that every access is then an enabled step of the
    // machine is what the calls of `Step` prove.
    // -----------------------------------------------------------------------

    /** Other threads run between two accesses of the loop. */
    method Yield(env: Schedule, ghost server: Trust)
      requires Follows(server) && !pc.Stopped?
      modifies this
      ensures Follows(server) && time == old(time) + 1
      ensures pc == old(pc) && sent == old(sent) && fetched == old(fetched)
    {
      var others := env.others(time);
      for k := 0 to |others|
        invariant Follows(server) && time == old(time)
        invariant pc == old(pc) && sent == old(sent) && fetched == old(fetched)
      {
        if Foreign(others[k]) && Enabled(View(), others[k]) {
          Step(others[k], server);
        }
      }
      time := time + 1;
    }

    /** The poll interval, cut short by the signal. */
    method Wait(env: Schedule, ghost server: Trust) returns (signalled: bool)
      requires Follows(server) && pc.Sleeping?
      modifies this
      ensures Follows(server) && time > old(time)
      ensures pc == if signalled then Draining else Top
    {
      Yield(env, server);
      signalled := shutdown && env.signalFirst(time);
      if signalled {
        Step(PollStep(SeeSignal), server);
      } else {
        Step(PollStep(PollElapsed), server);
      }
    }

    /** Admit one job of a batch, unless the run is no longer followed. */
    method AdmitJob(env: Schedule, job: JobId, ghost rest: seq<JobId>, ghost server: Trust) returns (admitted: bool)
      requires Follows(server) && pc == Admitting([job] + rest)
      modifies this
      ensures Follows(server) && time > old(time)
      ensures if admitted then pc == (if rest == [] then Top else Admitting(rest))
              else time >= env.until && pc == old(pc) && permits == 0
    {
      Yield(env, server);
      while permits == 0
        invariant Follows(server) && time > old(time) && pc == old(pc)
        decreases env.until - time
      {
        if time >= env.until {
          return false;
        }
        Yield(env, server);
      }
      Step(AdmitStep(Acquire), server);
      assert pc == Holding(job, rest);
      Yield(env, server);
      Step(AdmitStep(CountJob), server);
      Yield(env, server);
      Step(AdmitStep(TrackJob), server);
      Yield(env, server);
      Step(AdmitStep(Spawn), server);
      return true;
    }

    method AdmitBatch(env: Schedule, jobs: seq<JobId>, ghost server: Trust) returns (admitted: bool)
      requires Follows(server) && jobs != [] && pc == Admitting(jobs)
      modifies this
      ensures Follows(server) && time > old(time)
      ensures if admitted then pc.Top? else time >= env.until && pc.Admitting? && permits == 0
    {
      for k := 0 to |jobs|
        invariant Follows(server) && time >= old(time) && (k > 0 ==> time > old(time))
        invariant pc == if k == |jobs| then Top else Admitting(jobs[k..])
      {
        assert jobs[k..] == [jobs[k]] + jobs[k + 1..];
        admitted := AdmitJob(env, jobs[k], jobs[k + 1..], server);
        if !admitted {
          return;
        }
      }
      admitted := true;
    }

    /** Ask for jobs and take what the answer brings. */
    method Fetch(env: Schedule, server: Trust) returns (jobs: seq<JobId>)
      requires Follows(server) && pc.Asking?
      modifies this
      ensures Follows(server) && time > old(time)
      ensures sent == old(sent) + 1 && fetched == old(fetched) + jobs
      ensures pc == if jobs == [] then Sleeping else Admitting(jobs)
    {
      Step(PollStep(SendFetch), server);
      Yield(env, server);
      var answer := env.answers(time);
      // what breaks a promise of the server is not one of its answers; the request then fails
      if answer.Some? && KeepsFetch(View(), answer.value, server) {
        jobs := answer.value;
        Step(AdmitStep(FetchOk(jobs)), server);
      } else {
        jobs := [];
        Step(AdmitStep(FetchErr), server);
      }
    }

    /** The fetch loop.  It is left, or the run is no longer followed. */
    method FetchLoop(env: Schedule, server: Trust) returns (left: bool)
      requires Follows(server) && pc.Top?
      modifies this
      ensures Follows(server)
      ensures if left then pc.Draining? else time >= env.until && !pc.Stopped?
    {
      while time < env.until
        invariant Follows(server) && pc.Top?
        decreases env.until - time
      {
        Yield(env, server);
        var down := shutdown;
        Step(PollStep(CheckFlag), server);
        if down {
          Yield(env, server);
          Step(PollStep(StoreTerminate), server);
          return true;
        }
        Yield(env, server);
        var current := state;
        Step(PollStep(LoadState), server);
        if current == Terminate {
          return true;
        }
        if current == Quiet {
          var signalled := Wait(env, server);
          if signalled {
            return true;
          }
          continue;
        }
        Yield(env, server);
        var capacity := Capacity(concurrency, activeCount);
        Step(PollStep(LoadCount), server);
        if capacity == 0 {
          var signalled := Wait(env, server);
          if signalled {
            return true;
          }
          continue;
        }
        assert pc == Asking(Min(capacity, BATCH_CAP));
        Yield(env, server);
        var jobs := Fetch(env, server);
        if jobs == [] {
          var signalled := Wait(env, server);
          if signalled {
            return true;
          }
          continue;
        }
        var admitted := AdmitBatch(env, jobs, server);
        if !admitted {
          return false;
        }
      }
      left := false;
    }

    /** The shutdown loop. */
    method DrainLoop(env: Schedule, ghost server: Trust) returns (ended: bool)
      requires Follows(server) && pc.Draining?
      modifies this
      ensures Follows(server)
      ensures if ended then pc.Stopped? else time >= env.until && pc.Draining?
    {
      while time < env.until
        invariant Follows(server) && pc.Draining?
        decreases env.until - time
      {
        Yield(env, server);
        var active := activeCount;
        Step(DrainStep(DrainCheck), server);
        if active == 0 {
          return true;
        }
        Yield(env, server);
        if env.late(time) {
          Step(DrainStep(GraceOver), server);
          return true;
        }
        Step(DrainStep(DrainWait), server);
      }
      ended := false;
    }

    /** The whole of `start`, under any interference: it takes a run of the machine, from the
        start to a stop or as far as it is followed, so all theorems about runs apply to it.
        A clean stop means that every fetched job was reported. */
    method Start(env: Schedule, server: Trust) returns (ended: bool)
      requires View() == Init(concurrency) && trace == []
      modifies this
      ensures Follows(server)
      ensures Reachable(concurrency, server, View()) && Safe(View(), server)
      ensures if ended then pc.Stopped? else time >= env.until && !pc.Stopped?
      ensures pc == Stopped(true) ==>
                Jobs(tasks) == fetched && forall i :: 0 <= i < |tasks| ==> ReportedAndUncounted(tasks[i])
    {
      assert Legal(Init(concurrency), [], server);
      ended := FetchLoop(env, server);
      if ended {
        ended := DrainLoop(env, server);
      }
      RunKeepsSafe(Init(concurrency), trace, server);
      if pc == Stopped(true) {
        CleanExit(concurrency, server, View());
      }
    }
  }
}
