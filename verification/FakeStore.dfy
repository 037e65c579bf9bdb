/** The in-memory job store of the testing module. */
module FakeStore {
  import opened Options
  import opened Decimal

  datatype FakeJob = FakeJob(
    id: string, jobType: string, queue: string, args: seq<string>, meta: map<string, string>,
    state: string, attempt: nat, createdAt: string)

  /** `true` when the handler returns `Ok`. */
  type Handler = FakeJob -> bool

  function FakeId(n: nat): string { "fake-" + Pad(n, 6) }

  datatype Store = Store(
    enqueued: seq<FakeJob>, performed: seq<FakeJob>, handlers: map<string, Handler>, nextId: nat)

  datatype Op =
    | Enqueue(jobType: string, args: seq<string>, queue: Option<string>, meta: Option<map<string, string>>, now: string)
    | Register(handledType: string, handler: Handler)
    | Drain
    | Clear

  function NewJob(n: nat, op: Op): FakeJob
    requires op.Enqueue?
  {
    FakeJob(FakeId(n), op.jobType, if op.queue.Some? then op.queue.value else "default", op.args,
            if op.meta.Some? then op.meta.value else map[], "available", 0, op.now)
  }

  /** A job after its handler ran on it. */
  function Finish(job: FakeJob, handlers: map<string, Handler>): FakeJob {
    var active := job.(state := "active", attempt := job.attempt + 1);
    if job.jobType in handlers && !handlers[job.jobType](active) then active.(state := "discarded")
    else active.(state := "completed")
  }

  function FinishAll(jobs: seq<FakeJob>, handlers: map<string, Handler>): (r: seq<FakeJob>)
    ensures |r| == |jobs|
  {
    seq(|jobs|, i requires 0 <= i < |jobs| => Finish(jobs[i], handlers))
  }

  /** The jobs not performed yet. */
  function Pending(s: Store): seq<FakeJob>
    requires |s.performed| <= |s.enqueued|
  {
    s.enqueued[|s.performed|..]
  }

  function Apply(s: Store, op: Op): Store
    requires |s.performed| <= |s.enqueued|
  {
    match op
    case Enqueue(_, _, _, _, _) => s.(enqueued := s.enqueued + [NewJob(s.nextId + 1, op)], nextId := s.nextId + 1)
    case Register(t, h) => s.(handlers := s.handlers[t := h])
    case Drain =>
      var done := s.performed + FinishAll(Pending(s), s.handlers);
      s.(enqueued := done, performed := done)
    case Clear => s.(enqueued := [], performed := [])
  }

  // -------------------------------------------------------------------------
  // The invariant
  // -------------------------------------------------------------------------

  predicate Finished(j: FakeJob) {
    (j.state == "completed" || j.state == "discarded") && j.attempt == 1
  }

  predicate Waiting(j: FakeJob) {
    j.state == "available" && j.attempt == 0
  }

  /** The performed jobs are a prefix of the enqueued ones, exactly the finished ones. */
  predicate Ordered(s: Store) {
    && |s.performed| <= |s.enqueued|
    && s.performed == s.enqueued[..|s.performed|]
    && (forall i :: 0 <= i < |s.performed| ==> Finished(s.performed[i]))
    && (forall i :: |s.performed| <= i < |s.enqueued| ==> Waiting(s.enqueued[i]))
  }

  /** The jobs present carry the last ids given out, in order. */
  predicate Numbered(s: Store) {
    && |s.enqueued| <= s.nextId
    && forall i :: 0 <= i < |s.enqueued| ==> s.enqueued[i].id == FakeId(s.nextId - |s.enqueued| + i + 1)
  }

  predicate Inv(s: Store) {
    Ordered(s) && Numbered(s)
  }

  class FakeStore {
    var enqueued: seq<FakeJob>
    var performed: seq<FakeJob>
    var handlers: map<string, Handler>
    var nextId: nat

    ghost function View(): Store
      reads this
    {
      Store(enqueued, performed, handlers, nextId)
    }

    constructor ()
      ensures View() == Store([], [], map[], 0) && Inv(View())
    {
      enqueued, performed, handlers, nextId := [], [], map[], 0;
    }

    method RecordEnqueue(jobType: string, args: seq<string>, queue: Option<string>,
                         meta: Option<map<string, string>>, now: string) returns (job: FakeJob)
      requires Inv(View())
      modifies this
      ensures View() == Apply(old(View()), Enqueue(jobType, args, queue, meta, now)) && Inv(View())
      ensures enqueued == old(enqueued) + [job] && performed == old(performed) && handlers == old(handlers)
      ensures nextId == old(nextId) + 1 && job.id == "fake-" + Pad(nextId, 6)
      ensures job.jobType == jobType && job.args == args && job.createdAt == now
      ensures job.queue == (if queue.Some? then queue.value else "default")
      ensures job.meta == (if meta.Some? then meta.value else map[])
      ensures job.state == "available" && job.attempt == 0
    {
      InvStep(View(), Enqueue(jobType, args, queue, meta, now));
      nextId := nextId + 1;
      job := FakeJob(FakeId(nextId), jobType, if queue.Some? then queue.value else "default", args,
                     if meta.Some? then meta.value else map[], "available", 0, now);
      enqueued := enqueued + [job];
    }

    method RegisterHandler(jobType: string, handler: Handler)
      requires Inv(View())
      modifies this
      ensures View() == Apply(old(View()), Register(jobType, handler)) && Inv(View())
      ensures jobType in handlers && handlers[jobType] == handler
      ensures forall t :: t != jobType ==> (t in handlers <==> t in old(handlers))
      ensures forall t :: t != jobType && t in handlers ==> handlers[t] == old(handlers)[t]
      ensures enqueued == old(enqueued) && performed == old(performed) && nextId == old(nextId)
    {
      handlers := handlers[jobType := handler];
    }

    method ClearAll()
      requires Inv(View())
      modifies this
      ensures View() == Apply(old(View()), Clear) && Inv(View())
      ensures enqueued == [] && performed == [] && handlers == old(handlers) && nextId == old(nextId)
    {
      enqueued := [];
      performed := [];
    }

    /** The body of the drain loop for one available job. */
    method RunJob(i: nat)
      requires i < |enqueued| && enqueued[i].state == "available"
      modifies this`enqueued, this`performed
      ensures enqueued == old(enqueued)[i := Finish(old(enqueued)[i], handlers)]
      ensures performed == old(performed) + [enqueued[i]]
    {
      var original := enqueued[i];
      enqueued := enqueued[i := enqueued[i].(state := "active")];
      enqueued := enqueued[i := enqueued[i].(attempt := enqueued[i].attempt + 1)];
      var clone := enqueued[i];
      if clone.jobType in handlers {
        if handlers[clone.jobType](clone) {
          enqueued := enqueued[i := enqueued[i].(state := "completed")];
        } else {
          enqueued := enqueued[i := enqueued[i].(state := "discarded")];
        }
      } else {
        enqueued := enqueued[i := enqueued[i].(state := "completed")];
      }
      assert enqueued[i] == Finish(original, handlers);
      performed := performed + [enqueued[i]];
    }

    /** The drain loop, on a store whose available jobs are those from `k` on. */
    method DrainFrom(ghost k: nat) returns (processed: nat)
      requires k <= |enqueued| && performed == enqueued[..k]
      requires forall i :: 0 <= i < |enqueued| ==> (enqueued[i].state == "available" <==> i >= k)
      modifies this`enqueued, this`performed
      ensures enqueued == performed == old(performed) + FinishAll(old(enqueued)[k..], handlers)
      ensures processed == |enqueued| - k
    {
      ghost var before := enqueued;
      ghost var all := performed + FinishAll(enqueued[k..], handlers);
      processed := 0;
      for i := 0 to |enqueued|
        invariant |enqueued| == |all| == |before|
        invariant forall j :: 0 <= j < i ==> enqueued[j] == all[j]
        invariant forall j :: i <= j < |all| ==> enqueued[j] == before[j]
        invariant performed == all[..if i < k then k else i]
        invariant processed == if i < k then 0 else i - k
      {
        if enqueued[i].state != "available" {
          continue;
        }
        assert all[i] == Finish(before[i], handlers);
        RunJob(i);
        processed := processed + 1;
      }
      assert enqueued == all;
    }

    method DrainAll() returns (processed: nat)
      requires Inv(View())
      modifies this`enqueued, this`performed
      ensures View() == Apply(old(View()), Drain) && Inv(View())
      ensures processed == |old(Pending(View()))| && Pending(View()) == []
      ensures |enqueued| == |old(enqueued)| && performed == enqueued && processed == |old(enqueued)| - |old(performed)|
      ensures forall i :: 0 <= i < |old(performed)| ==> enqueued[i] == old(performed)[i]
      ensures forall i :: |old(performed)| <= i < |enqueued| ==> RanThrough(old(enqueued)[i], handlers, enqueued[i])
      ensures handlers == old(handlers) && nextId == old(nextId)
    {
      InvStep(View(), Drain);
      AvailableAreLast(View());
      DrainOutcomes(View());
      processed := DrainFrom(|performed|);
    }
  }

  /** `after` is `job` once its handler has seen it, active and with one more attempt: it is
      completed if there is no handler or the handler returned Ok, and otherwise discarded. */
  predicate RanThrough(job: FakeJob, handlers: map<string, Handler>, after: FakeJob) {
    var shown := FakeJob(job.id, job.jobType, job.queue, job.args, job.meta, "active", job.attempt + 1, job.createdAt);
    && after.id == job.id && after.jobType == job.jobType && after.queue == job.queue && after.args == job.args
    && after.meta == job.meta && after.createdAt == job.createdAt && after.attempt == job.attempt + 1
    && (after.state == "completed" <==> job.jobType !in handlers || handlers[job.jobType](shown))
    && (after.state == "discarded" <==> job.jobType in handlers && !handlers[job.jobType](shown))
  }

  lemma FinishRunsThrough(job: FakeJob, handlers: map<string, Handler>)
    ensures RanThrough(job, handlers, Finish(job, handlers))
  {
    var shown := FakeJob(job.id, job.jobType, job.queue, job.args, job.meta, "active", job.attempt + 1, job.createdAt);
    assert shown == job.(state := "active", attempt := job.attempt + 1);
    assert "completed"[0] != "discarded"[0];
  }

  /** A drain leaves the performed jobs alone and runs every other one through its handler. */
  lemma DrainOutcomes(s: Store)
    requires Ordered(s)
    ensures var t := Apply(s, Drain);
            && |t.enqueued| == |s.enqueued| && t.performed == t.enqueued
            && t.handlers == s.handlers && t.nextId == s.nextId
            && (forall i :: 0 <= i < |s.performed| ==> t.enqueued[i] == s.performed[i])
            && forall i :: |s.performed| <= i < |s.enqueued| ==> RanThrough(s.enqueued[i], s.handlers, t.enqueued[i])
  {
    var t := Apply(s, Drain);
    forall i | |s.performed| <= i < |s.enqueued| ensures RanThrough(s.enqueued[i], s.handlers, t.enqueued[i]) {
      assert t.enqueued[i] == Finish(s.enqueued[i], s.handlers);
      FinishRunsThrough(s.enqueued[i], s.handlers);
    }
  }

  /** Exactly the jobs after the performed ones are available. */
  lemma AvailableAreLast(s: Store)
    requires Ordered(s)
    ensures forall i :: 0 <= i < |s.enqueued| ==> (s.enqueued[i].state == "available" <==> i >= |s.performed|)
  {
    forall i | 0 <= i < |s.enqueued| ensures s.enqueued[i].state == "available" <==> i >= |s.performed| {
      if i < |s.performed| {
        assert Finished(s.performed[i]);
        assert "available"[0] == 'a' && "completed"[0] == 'c' && "discarded"[0] == 'd';
      } else {
        assert Waiting(s.enqueued[i]);
      }
    }
  }

  // -------------------------------------------------------------------------
  // Any sequence of operations
  // -------------------------------------------------------------------------

  lemma DrainKeepsOrdered(s: Store)
    requires Ordered(s)
    ensures Ordered(Apply(s, Drain))
  {
    var s' := Apply(s, Drain);
    forall i | 0 <= i < |s'.performed| ensures Finished(s'.performed[i]) {
      if i >= |s.performed| {
        assert Waiting(s.enqueued[i]);
        assert s'.performed[i] == Finish(s.enqueued[i], s.handlers);
      } else {
        assert s'.performed[i] == s.performed[i];
      }
    }
  }

  lemma EnqueueKeepsOrdered(s: Store, op: Op)
    requires Ordered(s) && op.Enqueue?
    ensures Ordered(Apply(s, op))
  {
    var s' := Apply(s, op);
    assert Waiting(s'.enqueued[|s.enqueued|]);
    assert forall i :: 0 <= i < |s.enqueued| ==> s'.enqueued[i] == s.enqueued[i];
  }

  lemma DrainKeepsNumbered(s: Store)
    requires Inv(s)
    ensures Numbered(Apply(s, Drain))
  {
    var s' := Apply(s, Drain);
    assert |s'.enqueued| == |s.enqueued|;
    forall i | 0 <= i < |s.enqueued| ensures s'.enqueued[i].id == s.enqueued[i].id {
      if i >= |s.performed| {
        assert s'.enqueued[i] == Finish(s.enqueued[i], s.handlers);
      } else {
        assert s'.enqueued[i] == s.performed[i] == s.enqueued[i];
      }
    }
  }

  lemma EnqueueKeepsNumbered(s: Store, op: Op)
    requires Inv(s) && op.Enqueue?
    ensures Numbered(Apply(s, op))
  {
  }

  lemma InvStep(s: Store, op: Op)
    requires Inv(s)
    ensures Inv(Apply(s, op))
  {
    match op
    case Enqueue(_, _, _, _, _) =>
      EnqueueKeepsOrdered(s, op);
      EnqueueKeepsNumbered(s, op);
    case Drain =>
      DrainKeepsOrdered(s);
      DrainKeepsNumbered(s);
    case Register(_, _) =>
    case Clear =>
  }

  /** The store after a sequence of operations, and the ids that were handed out on the way. */
  function Run(ops: seq<Op>): (r: (Store, seq<string>))
    ensures |r.0.performed| <= |r.0.enqueued|
  {
    if ops == [] then (Store([], [], map[], 0), [])
    else
      var (s, ids) := Run(ops[..|ops| - 1]);
      var s' := Apply(s, ops[|ops| - 1]);
      (s', ids + NewIds(s, ops[|ops| - 1]))
  }

  /** The id an operation hands out. */
  function NewIds(s: Store, op: Op): seq<string> {
    if op.Enqueue? then [NewJob(s.nextId + 1, op).id] else []
  }

  lemma {:induction false} RunKeepsInv(ops: seq<Op>)
    ensures Inv(Run(ops).0)
    ensures Run(ops).0.nextId == |Run(ops).1|
    ensures forall i :: 0 <= i < |Run(ops).1| ==> Run(ops).1[i] == FakeId(i + 1)
  {
    if ops != [] {
      RunKeepsInv(ops[..|ops| - 1]);
      InvStep(Run(ops[..|ops| - 1]).0, ops[|ops| - 1]);
    }
  }

  lemma FakeIdInjective(m: nat, n: nat)
    ensures FakeId(m) == FakeId(n) <==> m == n
  {
    PadInjective(m, n, 6);
    assert FakeId(m)[|"fake-"|..] == Pad(m, 6) && FakeId(n)[|"fake-"|..] == Pad(n, 6);
  }

  /** After any sequence of operations the performed jobs are the finished prefix of the enqueued
      ones and the rest is untouched; no id is ever handed out twice, not even across a clear. */
  lemma StoreIsConsistent(ops: seq<Op>)
    ensures var (s, ids) := Run(ops);
            && |s.performed| <= |s.enqueued|
            && s.performed == s.enqueued[..|s.performed|]
            && (forall i :: 0 <= i < |s.performed| ==> Finished(s.performed[i]))
            && (forall i :: |s.performed| <= i < |s.enqueued| ==> Waiting(s.enqueued[i]))
            && (forall i, j :: 0 <= i < j < |ids| ==> ids[i] != ids[j])
  {
    RunKeepsInv(ops);
    var ids := Run(ops).1;
    forall i, j | 0 <= i < j < |ids| ensures ids[i] != ids[j] {
      FakeIdInjective(i + 1, j + 1);
    }
  }

  /** A second drain finds nothing to do. */
  lemma DrainTwice(s: Store)
    requires Inv(s)
    ensures Pending(Apply(s, Drain)) == []
    ensures Apply(Apply(s, Drain), Drain) == Apply(s, Drain)
  {
    InvStep(s, Drain);
    var once := Apply(s, Drain);
    assert once.performed + [] == once.performed;
  }
}
