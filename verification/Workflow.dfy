/** Workflow definitions and the step graph sent to the server. */
module Workflow {
  import opened Options
  import opened Decimal
  import opened Backoff

  // -------------------------------------------------------------------------
  // Enqueue options
  // -------------------------------------------------------------------------

  /** A point in time. */
  type Time = int

  datatype Json = JArray(items: seq<Json>) | JObject(text: string) | JOther(text: string)

  datatype EnqueueOption =
    | Queue(queue: string)
    | Priority(priority: int)
    | Timeout(timeout: Duration)
    | Delay(delay: Duration)
    | ScheduledAt(at: Time)
    | ExpiresAt(expiry: Time)
    | RetryWith(policy: string)
    | UniqueBy(rule: string)
    | Tags(tags: seq<string>)
    | Meta(meta: Json)
    | VisibilityTimeout(visibility: Duration)

  datatype OptionsWire = OptionsWire(
    queue: Option<string>,
    priority: Option<int>,
    timeoutMs: Option<nat>,
    delayUntil: Option<Time>,
    expiresAt: Option<Time>,
    retry: Option<string>,
    unique: Option<string>,
    tags: Option<seq<string>>,
    visibilityTimeoutMs: Option<nat>)

  /** The last option that sets a value. */
  function Last<T>(opts: seq<EnqueueOption>, f: EnqueueOption -> Option<T>): Option<T> {
    if opts == [] then None
    else
      var n := |opts| - 1;
      if f(opts[n]).Some? then f(opts[n]) else Last(opts[..n], f)
  }

  /** The first option that sets a value. */
  function First<T>(opts: seq<EnqueueOption>, f: EnqueueOption -> Option<T>): Option<T> {
    if opts == [] then None
    else if f(opts[0]).Some? then f(opts[0])
    else First(opts[1..], f)
  }

  function QueueOf(o: EnqueueOption): Option<string> { if o.Queue? then Some(o.queue) else None }
  function PriorityOf(o: EnqueueOption): Option<int> { if o.Priority? then Some(o.priority) else None }
  function TimeoutOf(o: EnqueueOption): Option<nat> { if o.Timeout? then Some(Millis(o.timeout)) else None }
  function ExpiryOf(o: EnqueueOption): Option<Time> { if o.ExpiresAt? then Some(o.expiry) else None }
  function RetryOf(o: EnqueueOption): Option<string> { if o.RetryWith? then Some(o.policy) else None }
  function UniqueOf(o: EnqueueOption): Option<string> { if o.UniqueBy? then Some(o.rule) else None }
  function TagsOf(o: EnqueueOption): Option<seq<string>> { if o.Tags? then Some(o.tags) else None }
  function MetaOf(o: EnqueueOption): Option<Json> { if o.Meta? then Some(o.meta) else None }
  function VisibilityOf(o: EnqueueOption): Option<nat> {
    if o.VisibilityTimeout? then Some(Millis(o.visibility)) else None
  }

  /** `later(d)` is the system clock plus `d`. */
  function DelayOf(later: Duration -> Time): EnqueueOption -> Option<Time> {
    (o: EnqueueOption) => if o.Delay? then Some(later(o.delay)) else if o.ScheduledAt? then Some(o.at) else None
  }

  function Resolved(opts: seq<EnqueueOption>, later: Duration -> Time): OptionsWire {
    OptionsWire(
      Last(opts, QueueOf), Last(opts, PriorityOf), Last(opts, TimeoutOf), Last(opts, DelayOf(later)),
      Last(opts, ExpiryOf), Last(opts, RetryOf), Last(opts, UniqueOf), Last(opts, TagsOf), Last(opts, VisibilityOf))
  }

  function Resolve(opts: seq<EnqueueOption>, later: Duration -> Time): Option<OptionsWire> {
    if opts == [] then None else Some(Resolved(opts, later))
  }

  function Set(wire: OptionsWire, o: EnqueueOption, later: Duration -> Time): OptionsWire {
    match o
    case Queue(q) => wire.(queue := Some(q))
    case Priority(p) => wire.(priority := Some(p))
    case Timeout(d) => wire.(timeoutMs := Some(Millis(d)))
    case Delay(d) => wire.(delayUntil := Some(later(d)))
    case ScheduledAt(t) => wire.(delayUntil := Some(t))
    case ExpiresAt(t) => wire.(expiresAt := Some(t))
    case RetryWith(r) => wire.(retry := Some(r))
    case UniqueBy(u) => wire.(unique := Some(u))
    case Tags(t) => wire.(tags := Some(t))
    case VisibilityTimeout(d) => wire.(visibilityTimeoutMs := Some(Millis(d)))
    case Meta(_) => wire
  }

  lemma LastSnoc<T>(opts: seq<EnqueueOption>, o: EnqueueOption, f: EnqueueOption -> Option<T>)
    ensures Last(opts + [o], f) == if f(o).Some? then f(o) else Last(opts, f)
  {
    assert (opts + [o])[..|opts|] == opts;
  }

  function Or<T>(first: Option<T>, second: Option<T>): Option<T> {
    if first.Some? then first else second
  }

  /** Every field that the option sets, and the other fields as they were. */
  function Updated(wire: OptionsWire, o: EnqueueOption, later: Duration -> Time): OptionsWire {
    OptionsWire(
      Or(QueueOf(o), wire.queue), Or(PriorityOf(o), wire.priority), Or(TimeoutOf(o), wire.timeoutMs),
      Or(DelayOf(later)(o), wire.delayUntil), Or(ExpiryOf(o), wire.expiresAt), Or(RetryOf(o), wire.retry),
      Or(UniqueOf(o), wire.unique), Or(TagsOf(o), wire.tags), Or(VisibilityOf(o), wire.visibilityTimeoutMs))
  }

  lemma SetUpdates(wire: OptionsWire, o: EnqueueOption, later: Duration -> Time)
    ensures Set(wire, o, later) == Updated(wire, o, later)
  {
  }

  lemma ResolvedUpdates(opts: seq<EnqueueOption>, o: EnqueueOption, later: Duration -> Time)
    ensures Resolved(opts + [o], later) == Updated(Resolved(opts, later), o, later)
  {
    LastSnoc(opts, o, QueueOf);
    LastSnoc(opts, o, PriorityOf);
    LastSnoc(opts, o, TimeoutOf);
    LastSnoc(opts, o, DelayOf(later));
    LastSnoc(opts, o, ExpiryOf);
    LastSnoc(opts, o, RetryOf);
    LastSnoc(opts, o, UniqueOf);
    LastSnoc(opts, o, TagsOf);
    LastSnoc(opts, o, VisibilityOf);
  }

  lemma SetIsLast(opts: seq<EnqueueOption>, o: EnqueueOption, later: Duration -> Time)
    ensures Set(Resolved(opts, later), o, later) == Resolved(opts + [o], later)
  {
    SetUpdates(Resolved(opts, later), o, later);
    ResolvedUpdates(opts, o, later);
  }

  /** The last option for which `f` gives a value, by its position. */
  lemma {:induction false} LastIs<T>(opts: seq<EnqueueOption>, f: EnqueueOption -> Option<T>, k: nat)
    requires k < |opts| && f(opts[k]).Some? && forall j :: k < j < |opts| ==> f(opts[j]).None?
    ensures Last(opts, f) == f(opts[k])
    decreases |opts|
  {
    if k < |opts| - 1 {
      LastIs(opts[..|opts| - 1], f, k);
    }
  }

  lemma {:induction false} LastIsNone<T>(opts: seq<EnqueueOption>, f: EnqueueOption -> Option<T>)
    requires forall j :: 0 <= j < |opts| ==> f(opts[j]).None?
    ensures Last(opts, f) == None
    decreases |opts|
  {
    if opts != [] {
      LastIsNone(opts[..|opts| - 1], f);
    }
  }

  datatype Kind = OfQueue | OfPriority | OfTimeout | OfDelay | OfExpiry | OfRetry | OfUnique | OfTags | OfVisibility

  /** The option is of that kind; a delay and a scheduled time are of the same kind. */
  predicate IsOf(o: EnqueueOption, kind: Kind) {
    match kind
    case OfQueue => o.Queue?
    case OfPriority => o.Priority?
    case OfTimeout => o.Timeout?
    case OfDelay => o.Delay? || o.ScheduledAt?
    case OfExpiry => o.ExpiresAt?
    case OfRetry => o.RetryWith?
    case OfUnique => o.UniqueBy?
    case OfTags => o.Tags?
    case OfVisibility => o.VisibilityTimeout?
  }

  /** The field of that kind holds what the option says: durations in whole milliseconds of 64
      bits, a delay as the time it ends. */
  predicate Holds(w: OptionsWire, o: EnqueueOption, kind: Kind, later: Duration -> Time)
    requires IsOf(o, kind)
  {
    match kind
    case OfQueue => w.queue == Some(o.queue)
    case OfPriority => w.priority == Some(o.priority)
    case OfTimeout => w.timeoutMs == Some(o.timeout / 1_000_000 % 0x1_0000_0000_0000_0000)
    case OfDelay => w.delayUntil == if o.Delay? then Some(later(o.delay)) else Some(o.at)
    case OfExpiry => w.expiresAt == Some(o.expiry)
    case OfRetry => w.retry == Some(o.policy)
    case OfUnique => w.unique == Some(o.rule)
    case OfTags => w.tags == Some(o.tags)
    case OfVisibility => w.visibilityTimeoutMs == Some(o.visibility / 1_000_000 % 0x1_0000_0000_0000_0000)
  }

  predicate Unset(w: OptionsWire, kind: Kind) {
    match kind
    case OfQueue => w.queue == None
    case OfPriority => w.priority == None
    case OfTimeout => w.timeoutMs == None
    case OfDelay => w.delayUntil == None
    case OfExpiry => w.expiresAt == None
    case OfRetry => w.retry == None
    case OfUnique => w.unique == None
    case OfTags => w.tags == None
    case OfVisibility => w.visibilityTimeoutMs == None
  }

  /** For any options: the field of a kind holds what the last option of that kind says, wherever
      it stands, and is unset exactly if there is none. */
  lemma LastOptionLands(opts: seq<EnqueueOption>, later: Duration -> Time, kind: Kind, k: nat)
    requires k < |opts| && IsOf(opts[k], kind) && forall j :: k < j < |opts| ==> !IsOf(opts[j], kind)
    ensures Resolve(opts, later).Some?
    ensures Holds(Resolve(opts, later).value, opts[k], kind, later) && !Unset(Resolve(opts, later).value, kind)
  {
    match kind
    case OfQueue => LastIs(opts, QueueOf, k);
    case OfPriority => LastIs(opts, PriorityOf, k);
    case OfTimeout => LastIs(opts, TimeoutOf, k);
    case OfDelay => LastIs(opts, DelayOf(later), k);
    case OfExpiry => LastIs(opts, ExpiryOf, k);
    case OfRetry => LastIs(opts, RetryOf, k);
    case OfUnique => LastIs(opts, UniqueOf, k);
    case OfTags => LastIs(opts, TagsOf, k);
    case OfVisibility => LastIs(opts, VisibilityOf, k);
  }

  lemma NoOptionNoField(opts: seq<EnqueueOption>, later: Duration -> Time, kind: Kind)
    requires forall j :: 0 <= j < |opts| ==> !IsOf(opts[j], kind)
    ensures Resolve(opts, later).Some? <==> opts != []
    ensures opts != [] ==> Unset(Resolve(opts, later).value, kind)
  {
    match kind
    case OfQueue => LastIsNone(opts, QueueOf);
    case OfPriority => LastIsNone(opts, PriorityOf);
    case OfTimeout => LastIsNone(opts, TimeoutOf);
    case OfDelay => LastIsNone(opts, DelayOf(later));
    case OfExpiry => LastIsNone(opts, ExpiryOf);
    case OfRetry => LastIsNone(opts, RetryOf);
    case OfUnique => LastIsNone(opts, UniqueOf);
    case OfTags => LastIsNone(opts, TagsOf);
    case OfVisibility => LastIsNone(opts, VisibilityOf);
  }

  /** Every field of the wire options is the last option that sets it. */
  method ResolveOptions(opts: seq<EnqueueOption>, later: Duration -> Time) returns (wire: Option<OptionsWire>)
    ensures wire == Resolve(opts, later)
  {
    if opts == [] {
      return None;
    }
    var w := OptionsWire(None, None, None, None, None, None, None, None, None);
    for k := 0 to |opts|
      invariant w == Resolved(opts[..k], later)
    {
      SetIsLast(opts[..k], opts[k], later);
      assert opts[..k + 1] == opts[..k] + [opts[k]];
      w := Set(w, opts[k], later);
    }
    assert opts[..|opts|] == opts;
    wire := Some(w);
  }

  /** The metadata sent is the first `Meta` option. */
  method ExtractMeta(opts: seq<EnqueueOption>) returns (meta: Option<Json>)
    ensures meta == First(opts, MetaOf)
    ensures meta.None? <==> forall j :: 0 <= j < |opts| ==> !opts[j].Meta?
    ensures meta.Some? ==>
              exists k :: 0 <= k < |opts| && opts[k] == Meta(meta.value) && forall j :: 0 <= j < k ==> !opts[j].Meta?
  {
    for k := 0 to |opts|
      invariant First(opts, MetaOf) == First(opts[k..], MetaOf)
      invariant forall j :: 0 <= j < k ==> !opts[j].Meta?
    {
      if opts[k].Meta? {
        return Some(opts[k].meta);
      }
      assert opts[k..][1..] == opts[k + 1..];
    }
    meta := None;
  }

  // -------------------------------------------------------------------------
  // Definitions and wire steps
  // -------------------------------------------------------------------------

  datatype Step = Step(jobType: string, args: Json, options: seq<EnqueueOption>)

  datatype Callbacks = Callbacks(onComplete: Option<Step>, onSuccess: Option<Step>, onFailure: Option<Step>)

  datatype WorkflowType = Chain | Group | Batch

  datatype Definition = Definition(
    workflowType: WorkflowType, name: Option<string>, steps: seq<Step>,
    callbacks: Option<Callbacks>, options: seq<EnqueueOption>)

  function ChainOf(steps: seq<Step>): Definition { Definition(Chain, None, steps, None, []) }
  function GroupOf(jobs: seq<Step>): Definition { Definition(Group, None, jobs, None, []) }
  function BatchOf(callbacks: Callbacks, jobs: seq<Step>): Definition {
    Definition(Batch, None, jobs, Some(callbacks), [])
  }

  datatype WireStep = WireStep(
    id: string, jobType: string, args: Json, dependsOn: seq<string>, options: Option<OptionsWire>)

  datatype Request = Request(name: Option<string>, steps: seq<WireStep>, options: Option<OptionsWire>)

  function NormalizeArgs(args: Json): (r: Json)
    ensures r.JArray? && (args.JArray? ==> r == args) && (!args.JArray? ==> r.items == [args])
  {
    if args.JArray? then args else JArray([args])
  }

  function StepId(i: nat): string { "step-" + Digits(i) }
  function JobId(i: nat): string { "job-" + Digits(i) }

  function ToStep(id: string, step: Step, dependsOn: seq<string>, later: Duration -> Time): WireStep {
    WireStep(id, step.jobType, NormalizeArgs(step.args), dependsOn, Resolve(step.options, later))
  }

  function Previous(i: nat): seq<string> {
    if i > 0 then [StepId(i - 1)] else []
  }

  function ChainSteps(steps: seq<Step>, later: Duration -> Time): seq<WireStep> {
    seq(|steps|, i requires 0 <= i < |steps| => ToStep(StepId(i), steps[i], Previous(i), later))
  }

  function JobSteps(jobs: seq<Step>, later: Duration -> Time): seq<WireStep> {
    seq(|jobs|, i requires 0 <= i < |jobs| => ToStep(JobId(i), jobs[i], [], later))
  }

  function JobIds(n: nat): seq<string> {
    seq(n, i requires 0 <= i < n => JobId(i))
  }

  function OnOutcome(id: string, step: Option<Step>, n: nat, later: Duration -> Time): seq<WireStep> {
    if step.Some? then [ToStep(id, step.value, JobIds(n), later)] else []
  }

  function CallbackSteps(c: Option<Callbacks>, n: nat, later: Duration -> Time): seq<WireStep> {
    if c.None? then []
    else
      OnOutcome("on-complete", c.value.onComplete, n, later)
      + OnOutcome("on-success", c.value.onSuccess, n, later)
      + OnOutcome("on-failure", c.value.onFailure, n, later)
  }

  function WireSteps(d: Definition, later: Duration -> Time): seq<WireStep> {
    match d.workflowType
    case Chain => ChainSteps(d.steps, later)
    case Group => JobSteps(d.steps, later)
    case Batch => JobSteps(d.steps, later) + CallbackSteps(d.callbacks, |d.steps|, later)
  }

  method ToWireStep(id: string, step: Step, dependsOn: seq<string>, later: Duration -> Time) returns (w: WireStep)
    ensures w == ToStep(id, step, dependsOn, later)
  {
    var options := ResolveOptions(step.options, later);
    w := WireStep(id, step.jobType, NormalizeArgs(step.args), dependsOn, options);
  }

  method ChainStepToWire(steps: seq<Step>, i: nat, later: Duration -> Time) returns (w: WireStep)
    requires i < |steps|
    ensures w == ChainSteps(steps, later)[i]
  {
    var dependsOn := if i > 0 then [StepId(i - 1)] else [];
    w := ToWireStep(StepId(i), steps[i], dependsOn, later);
  }

  method ChainToWire(steps: seq<Step>, later: Duration -> Time) returns (wire: seq<WireStep>)
    ensures wire == ChainSteps(steps, later)
  {
    ghost var all := ChainSteps(steps, later);
    wire := [];
    for i := 0 to |steps|
      invariant wire == all[..i]
    {
      var w := ChainStepToWire(steps, i, later);
      assert all[..i + 1] == all[..i] + [all[i]];
      wire := wire + [w];
    }
    assert all[..|steps|] == all;
  }

  method JobsToWire(jobs: seq<Step>, later: Duration -> Time) returns (wire: seq<WireStep>)
    ensures wire == JobSteps(jobs, later)
  {
    ghost var all := JobSteps(jobs, later);
    wire := [];
    for i := 0 to |jobs|
      invariant wire == all[..i]
    {
      var w := ToWireStep(JobId(i), jobs[i], [], later);
      assert w == all[i];
      assert all[..i + 1] == all[..i] + [all[i]];
      wire := wire + [w];
    }
    assert all[..|jobs|] == all;
  }

  method CallbacksToWire(c: Callbacks, n: nat, later: Duration -> Time) returns (wire: seq<WireStep>)
    ensures wire == CallbackSteps(Some(c), n, later)
  {
    wire := [];
    var jobIds := JobIds(n);
    if c.onComplete.Some? {
      var w := ToWireStep("on-complete", c.onComplete.value, jobIds, later);
      wire := wire + [w];
    }
    if c.onSuccess.Some? {
      var w := ToWireStep("on-success", c.onSuccess.value, jobIds, later);
      wire := wire + [w];
    }
    if c.onFailure.Some? {
      var w := ToWireStep("on-failure", c.onFailure.value, jobIds, later);
      wire := wire + [w];
    }
  }

  method ToWire(d: Definition, later: Duration -> Time) returns (r: Request)
    ensures r == Request(d.name, WireSteps(d, later), Resolve(d.options, later))
  {
    var wire := [];
    match d.workflowType {
      case Chain =>
        wire := ChainToWire(d.steps, later);
      case Group =>
        wire := JobsToWire(d.steps, later);
      case Batch =>
        wire := JobsToWire(d.steps, later);
        if d.callbacks.Some? {
          var callbacks := CallbacksToWire(d.callbacks.value, |d.steps|, later);
          wire := wire + callbacks;
        }
    }
    var options := ResolveOptions(d.options, later);
    r := Request(d.name, wire, options);
  }

  // -------------------------------------------------------------------------
  // What is sent, in plain terms
  // -------------------------------------------------------------------------

  /** The wire step carries the step: its type, its arguments as an array, its own options. */
  predicate Carries(w: WireStep, step: Step, later: Duration -> Time) {
    && w.jobType == step.jobType
    && w.args == (if step.args.JArray? then step.args else JArray([step.args]))
    && w.options == Resolve(step.options, later)
  }

  lemma ChainSends(steps: seq<Step>, later: Duration -> Time)
    ensures var w := WireSteps(ChainOf(steps), later);
            && |w| == |steps|
            && forall i :: 0 <= i < |w| ==>
                 && Carries(w[i], steps[i], later)
                 && w[i].id == "step-" + Digits(i)
                 && w[i].dependsOn == if i == 0 then [] else ["step-" + Digits(i - 1)]
  {
  }

  lemma GroupSends(jobs: seq<Step>, later: Duration -> Time)
    ensures var w := WireSteps(GroupOf(jobs), later);
            && |w| == |jobs|
            && forall i :: 0 <= i < |w| ==>
                 Carries(w[i], jobs[i], later) && w[i].id == "job-" + Digits(i) && w[i].dependsOn == []
  {
  }

  /** The callback for an outcome is sent under the id of that outcome, if there is one. */
  predicate SendsCallback(w: seq<WireStep>, from: nat, id: string, callback: Option<Step>, n: nat,
                          later: Duration -> Time)
    requires from <= |w|
  {
    && (forall k :: from <= k < |w| && w[k].id == id ==>
          && callback.Some? && Carries(w[k], callback.value, later)
          && |w[k].dependsOn| == n && forall j :: 0 <= j < n ==> w[k].dependsOn[j] == "job-" + Digits(j))
    && (callback.Some? ==> exists k :: from <= k < |w| && w[k].id == id)
  }

  lemma OutcomeIds()
    ensures "on-complete" != "on-success" && "on-complete" != "on-failure" && "on-success" != "on-failure"
  {
    assert "on-complete"[3] == 'c' && "on-success"[3] == 's' && "on-failure"[3] == 'f';
  }

  /** One outcome's part of the callbacks. */
  lemma OutcomeSends(id: string, callback: Option<Step>, n: nat, later: Duration -> Time)
    ensures SendsCallback(OnOutcome(id, callback, n, later), 0, id, callback, n, later)
    ensures |OnOutcome(id, callback, n, later)| <= 1
    ensures forall k :: 0 <= k < |OnOutcome(id, callback, n, later)| ==> OnOutcome(id, callback, n, later)[k].id == id
  {
    if callback.Some? {
      assert OnOutcome(id, callback, n, later)[0].id == id;
    }
  }

  predicate NoneOf(w: seq<WireStep>, id: string) {
    forall k :: 0 <= k < |w| ==> w[k].id != id
  }

  /** Steps under other ids around a callback do not matter. */
  lemma AmongOthers(before: seq<WireStep>, w: seq<WireStep>, after: seq<WireStep>, id: string,
                    callback: Option<Step>, n: nat, later: Duration -> Time)
    requires SendsCallback(w, 0, id, callback, n, later) && NoneOf(before, id) && NoneOf(after, id)
    ensures SendsCallback(before + w + after, 0, id, callback, n, later)
  {
    var all := before + w + after;
    assert forall k :: 0 <= k < |before| ==> all[k] == before[k];
    assert forall k :: |before| + |w| <= k < |all| ==> all[k] == after[k - |before| - |w|];
    forall k | 0 <= k < |all| && all[k].id == id ensures exists j :: 0 <= j < |w| && all[k] == w[j] {
      assert all[k] == w[k - |before|];
    }
    if callback.Some? {
      var j :| 0 <= j < |w| && w[j].id == id;
      assert all[|before| + j] == w[j];
    }
  }

  lemma CallbacksSent(c: Callbacks, n: nat, later: Duration -> Time)
    ensures var w := CallbackSteps(Some(c), n, later);
            && SendsCallback(w, 0, "on-complete", c.onComplete, n, later)
            && SendsCallback(w, 0, "on-success", c.onSuccess, n, later)
            && SendsCallback(w, 0, "on-failure", c.onFailure, n, later)
            && |w| <= 3
  {
    OutcomeIds();
    var x := OnOutcome("on-complete", c.onComplete, n, later);
    var y := OnOutcome("on-success", c.onSuccess, n, later);
    var z := OnOutcome("on-failure", c.onFailure, n, later);
    OutcomeSends("on-complete", c.onComplete, n, later);
    OutcomeSends("on-success", c.onSuccess, n, later);
    OutcomeSends("on-failure", c.onFailure, n, later);
    ThreeParts(x, y, z, "on-complete", "on-success", "on-failure", c, n, later);
  }

  lemma ThreeParts(x: seq<WireStep>, y: seq<WireStep>, z: seq<WireStep>, a: string, b: string, d: string,
                   c: Callbacks, n: nat, later: Duration -> Time)
    requires a != b && a != d && b != d
    requires SendsCallback(x, 0, a, c.onComplete, n, later) && forall k :: 0 <= k < |x| ==> x[k].id == a
    requires SendsCallback(y, 0, b, c.onSuccess, n, later) && forall k :: 0 <= k < |y| ==> y[k].id == b
    requires SendsCallback(z, 0, d, c.onFailure, n, later) && forall k :: 0 <= k < |z| ==> z[k].id == d
    ensures SendsCallback(x + y + z, 0, a, c.onComplete, n, later)
    ensures SendsCallback(x + y + z, 0, b, c.onSuccess, n, later)
    ensures SendsCallback(x + y + z, 0, d, c.onFailure, n, later)
  {
    AmongOthers([], x, y + z, a, c.onComplete, n, later);
    assert [] + x + (y + z) == x + y + z;
    AmongOthers(x, y, z, b, c.onSuccess, n, later);
    AmongOthers(x + y, z, [], d, c.onFailure, n, later);
    assert x + y + z + [] == x + y + z;
  }

  lemma BatchJobsSent(c: Callbacks, jobs: seq<Step>, later: Duration -> Time)
    ensures var w := WireSteps(BatchOf(c, jobs), later);
            && |w| >= |jobs|
            && forall i :: 0 <= i < |jobs| ==>
                 Carries(w[i], jobs[i], later) && w[i].id == "job-" + Digits(i) && w[i].dependsOn == []
  {
    GroupSends(jobs, later);
    assert forall i :: 0 <= i < |jobs| ==>
        WireSteps(BatchOf(c, jobs), later)[i] == WireSteps(GroupOf(jobs), later)[i];
  }

  /** A batch sends its jobs and then its callbacks, each under the id of its own outcome. */
  lemma BatchSends(c: Callbacks, jobs: seq<Step>, later: Duration -> Time)
    ensures var w, n := WireSteps(BatchOf(c, jobs), later), |jobs|;
            && n <= |w| <= n + 3
            && (forall i :: 0 <= i < n ==>
                  Carries(w[i], jobs[i], later) && w[i].id == "job-" + Digits(i) && w[i].dependsOn == [])
            && SendsCallback(w, n, "on-complete", c.onComplete, n, later)
            && SendsCallback(w, n, "on-success", c.onSuccess, n, later)
            && SendsCallback(w, n, "on-failure", c.onFailure, n, later)
  {
    BatchJobsSent(c, jobs, later);
    CallbacksSent(c, |jobs|, later);
    var callbacks := CallbackSteps(Some(c), |jobs|, later);
    ShiftedCallback(JobSteps(jobs, later), callbacks, "on-complete", c.onComplete, |jobs|, later);
    ShiftedCallback(JobSteps(jobs, later), callbacks, "on-success", c.onSuccess, |jobs|, later);
    ShiftedCallback(JobSteps(jobs, later), callbacks, "on-failure", c.onFailure, |jobs|, later);
  }

  lemma ShiftedCallback(jobs: seq<WireStep>, callbacks: seq<WireStep>, id: string, callback: Option<Step>, n: nat,
                        later: Duration -> Time)
    requires SendsCallback(callbacks, 0, id, callback, n, later)
    ensures SendsCallback(jobs + callbacks, |jobs|, id, callback, n, later)
  {
    var w := jobs + callbacks;
    assert forall k :: |jobs| <= k < |w| ==> w[k] == callbacks[k - |jobs|];
    if callback.Some? {
      var k :| 0 <= k < |callbacks| && callbacks[k].id == id;
      assert w[|jobs| + k].id == id;
    }
  }

  // -------------------------------------------------------------------------
  // The step graph
  // -------------------------------------------------------------------------

  predicate DistinctIds(steps: seq<WireStep>) {
    forall i, j :: 0 <= i < j < |steps| ==> steps[i].id != steps[j].id
  }

  /** Every dependency of a step is the id of an earlier step. */
  predicate PointsBack(steps: seq<WireStep>) {
    forall k, dep :: 0 <= k < |steps| && dep in steps[k].dependsOn ==>
      exists j :: 0 <= j < k && steps[j].id == dep
  }

  lemma PrefixedIds(prefix: string, i: nat, j: nat)
    ensures prefix + Digits(i) == prefix + Digits(j) <==> i == j
  {
    DigitsInjective(i, j);
    assert (prefix + Digits(i))[|prefix|..] == Digits(i);
    assert (prefix + Digits(j))[|prefix|..] == Digits(j);
  }

  lemma ChainGraph(steps: seq<Step>, later: Duration -> Time)
    ensures DistinctIds(ChainSteps(steps, later)) && PointsBack(ChainSteps(steps, later))
  {
    var w := ChainSteps(steps, later);
    forall i, j | 0 <= i < j < |w| ensures w[i].id != w[j].id {
      PrefixedIds("step-", i, j);
    }
    forall k, dep | 0 <= k < |w| && dep in w[k].dependsOn ensures exists j :: 0 <= j < k && w[j].id == dep {
      assert w[k - 1].id == dep;
    }
  }

  lemma JobGraph(jobs: seq<Step>, later: Duration -> Time)
    ensures DistinctIds(JobSteps(jobs, later))
  {
    var w := JobSteps(jobs, later);
    forall i, j | 0 <= i < j < |w| ensures w[i].id != w[j].id {
      PrefixedIds("job-", i, j);
    }
  }

  /** A callback of a batch: it waits for all jobs and its id is none of theirs. */
  predicate IsCallback(w: WireStep, n: nat) {
    w.dependsOn == JobIds(n) && (w.id == "on-complete" || w.id == "on-success" || w.id == "on-failure")
  }

  lemma CallbacksAreCallbacks(c: Option<Callbacks>, n: nat, later: Duration -> Time)
    ensures forall k :: 0 <= k < |CallbackSteps(c, n, later)| ==> IsCallback(CallbackSteps(c, n, later)[k], n)
    ensures DistinctIds(CallbackSteps(c, n, later))
  {
    assert "on-complete" != "on-success" && "on-complete" != "on-failure" && "on-success" != "on-failure" by {
      assert "on-complete"[3] == 'c' && "on-success"[3] == 's' && "on-failure"[3] == 'f';
    }
  }

  lemma BatchIds(d: Definition, later: Duration -> Time)
    requires d.workflowType == Batch
    ensures DistinctIds(WireSteps(d, later))
  {
    var n := |d.steps|;
    var callbacks := CallbackSteps(d.callbacks, n, later);
    var w := WireSteps(d, later);
    JobGraph(d.steps, later);
    CallbacksAreCallbacks(d.callbacks, n, later);
    forall i, j | 0 <= i < j < |w| ensures w[i].id != w[j].id {
      if i < n && n <= j {
        assert IsCallback(callbacks[j - n], n);
        assert w[i].id[0] == 'j' && w[j].id[0] == 'o';
      } else if n <= i {
        assert w[i] == callbacks[i - n] && w[j] == callbacks[j - n];
      }
    }
  }

  lemma BatchPointsBack(d: Definition, later: Duration -> Time)
    requires d.workflowType == Batch
    ensures PointsBack(WireSteps(d, later))
  {
    var n := |d.steps|;
    var callbacks := CallbackSteps(d.callbacks, n, later);
    var w := WireSteps(d, later);
    CallbacksAreCallbacks(d.callbacks, n, later);
    forall k, dep | 0 <= k < |w| && dep in w[k].dependsOn ensures exists j :: 0 <= j < k && w[j].id == dep {
      if k >= n {
        assert IsCallback(callbacks[k - n], n);
        var j :| 0 <= j < n && JobIds(n)[j] == dep;
        assert w[j].id == dep;
      }
    }
  }

  /** For any workflow and any number of steps, ids are pairwise distinct and dependencies only
      point to earlier steps. */
  lemma StepGraph(d: Definition, later: Duration -> Time)
    ensures DistinctIds(WireSteps(d, later)) && PointsBack(WireSteps(d, later))
  {
    match d.workflowType
    case Chain => ChainGraph(d.steps, later);
    case Group => JobGraph(d.steps, later);
    case Batch =>
      BatchIds(d, later);
      BatchPointsBack(d, later);
  }

  /** Step `k` waits for step `j`. */
  predicate Waits(steps: seq<WireStep>, k: nat, j: nat) {
    k < |steps| && j < |steps| && steps[j].id in steps[k].dependsOn
  }

  /** Each step of the path waits for the next one. */
  predicate WaitingPath(steps: seq<WireStep>, path: seq<nat>) {
    forall p :: 0 <= p < |path| - 1 ==> Waits(steps, path[p], path[p + 1])
  }

  lemma {:induction false} PathDescends(steps: seq<WireStep>, path: seq<nat>)
    requires DistinctIds(steps) && PointsBack(steps)
    requires |path| > 1 && WaitingPath(steps, path)
    ensures path[|path| - 1] < path[0]
  {
    assert Waits(steps, path[0], path[1]);
    assert steps[path[1]].id in steps[path[0]].dependsOn;
    if |path| > 2 {
      var tail := path[1..];
      forall p | 0 <= p < |tail| - 1 ensures Waits(steps, tail[p], tail[p + 1]) {
        assert Waits(steps, path[p + 1], path[p + 2]);
      }
      PathDescends(steps, tail);
    }
  }

  /** The graph is acyclic. */
  lemma NoCycle(d: Definition, later: Duration -> Time, path: seq<nat>)
    requires |path| > 1 && WaitingPath(WireSteps(d, later), path)
    ensures path[0] != path[|path| - 1]
  {
    StepGraph(d, later);
    PathDescends(WireSteps(d, later), path);
  }

  // -------------------------------------------------------------------------
  // Orders in which a server may run the steps
  // -------------------------------------------------------------------------

  /** A (possibly partial) execution: distinct steps, each after everything it waits for. */
  predicate Execution(steps: seq<WireStep>, order: seq<nat>) {
    && (forall p :: 0 <= p < |order| ==> order[p] < |steps|)
    && (forall p, q :: 0 <= p < q < |order| ==> order[p] != order[q])
    && (forall p, dep :: 0 <= p < |order| && dep in steps[order[p]].dependsOn ==>
          exists q :: 0 <= q < p && steps[order[q]].id == dep)
  }

  /** A list of different steps out of `n`. */
  predicate Selection(n: nat, order: seq<nat>) {
    && (forall p :: 0 <= p < |order| ==> order[p] < n)
    && (forall p, q :: 0 <= p < q < |order| ==> order[p] != order[q])
  }

  /** Each step waits for the one before it. */
  predicate Linked(steps: seq<WireStep>) {
    DistinctIds(steps) && forall i :: 0 < i < |steps| ==> steps[i - 1].id in steps[i].dependsOn
  }

  lemma {:induction false} LinkedRunInOrder(steps: seq<WireStep>, order: seq<nat>, p: nat)
    requires Linked(steps) && Execution(steps, order) && p < |order|
    ensures order[p] == p
    decreases p
  {
    var k := order[p];
    if k < p {
      LinkedRunInOrder(steps, order, k);
      assert false;
    }
    if k > 0 {
      var before := steps[k - 1].id;
      assert before in steps[order[p]].dependsOn;
      var q :| 0 <= q < p && steps[order[q]].id == before;
      LinkedRunInOrder(steps, order, q);
    }
  }

  lemma ChainRunsInListOrder(steps: seq<Step>, later: Duration -> Time, order: seq<nat>, p: nat)
    requires Execution(WireSteps(ChainOf(steps), later), order) && p < |order|
    ensures order[p] == p
  {
    ChainGraph(steps, later);
    LinkedRunInOrder(ChainSteps(steps, later), order, p);
  }

  lemma ListOrderIsExecution(steps: seq<Step>, later: Duration -> Time, order: seq<nat>)
    requires |order| <= |steps| && forall p :: 0 <= p < |order| ==> order[p] == p
    ensures Execution(WireSteps(ChainOf(steps), later), order)
  {
    var w := WireSteps(ChainOf(steps), later);
    forall p, dep | 0 <= p < |order| && dep in w[order[p]].dependsOn
      ensures exists q :: 0 <= q < p && w[order[q]].id == dep
    {
      assert w[order[p - 1]].id == dep;
    }
  }

  /** A chain can be executed in list order, and in no other, up to any step. */
  lemma ChainRunsExactly(steps: seq<Step>, later: Duration -> Time, order: seq<nat>)
    ensures Execution(WireSteps(ChainOf(steps), later), order) <==>
            |order| <= |steps| && forall p :: 0 <= p < |order| ==> order[p] == p
  {
    if Execution(WireSteps(ChainOf(steps), later), order) {
      forall p | 0 <= p < |order| ensures order[p] == p {
        ChainRunsInListOrder(steps, later, order, p);
      }
      assert |order| > 0 ==> order[|order| - 1] < |steps|;
    } else if |order| <= |steps| && forall p :: 0 <= p < |order| ==> order[p] == p {
      ListOrderIsExecution(steps, later, order);
    }
  }

  /** A callback at position `p` has every job before it. */
  predicate JobsBefore(n: nat, order: seq<nat>, p: nat)
    requires p <= |order|
  {
    forall j :: 0 <= j < n ==> j in order[..p]
  }

  lemma CallbackAfterAllJobs(callbacks: Callbacks, jobs: seq<Step>, later: Duration -> Time, order: seq<nat>, p: nat)
    requires Execution(WireSteps(BatchOf(callbacks, jobs), later), order)
    requires p < |order| && order[p] >= |jobs|
    ensures JobsBefore(|jobs|, order, p)
  {
    var n := |jobs|;
    var d := BatchOf(callbacks, jobs);
    var w := WireSteps(d, later);
    CallbacksAreCallbacks(d.callbacks, n, later);
    assert IsCallback(CallbackSteps(d.callbacks, n, later)[order[p] - n], n);
    StepGraph(d, later);
    forall j | 0 <= j < n ensures j in order[..p] {
      assert JobIds(n)[j] == JobId(j) && JobId(j) in w[order[p]].dependsOn;
      var q :| 0 <= q < p && w[order[q]].id == JobId(j);
      assert w[j].id == JobId(j);
      assert order[q] == j && order[..p][q] == j;
    }
  }

  lemma JobsFirstIsExecution(callbacks: Callbacks, jobs: seq<Step>, later: Duration -> Time, order: seq<nat>)
    requires Selection(|WireSteps(BatchOf(callbacks, jobs), later)|, order)
    requires forall p :: 0 <= p < |order| && order[p] >= |jobs| ==> JobsBefore(|jobs|, order, p)
    ensures Execution(WireSteps(BatchOf(callbacks, jobs), later), order)
  {
    var n := |jobs|;
    var d := BatchOf(callbacks, jobs);
    var w := WireSteps(d, later);
    CallbacksAreCallbacks(d.callbacks, n, later);
    forall p, dep | 0 <= p < |order| && dep in w[order[p]].dependsOn
      ensures exists q :: 0 <= q < p && w[order[q]].id == dep
    {
      assert IsCallback(CallbackSteps(d.callbacks, n, later)[order[p] - n], n);
      var j :| 0 <= j < n && JobIds(n)[j] == dep;
      assert j in order[..p];
      var q :| 0 <= q < p && order[..p][q] == j;
      assert w[order[q]].id == dep;
    }
  }

  /** The executions of a batch are exactly the orders in which every callback comes after all
      jobs. */
  lemma BatchRunsExactly(callbacks: Callbacks, jobs: seq<Step>, later: Duration -> Time, order: seq<nat>)
    ensures Execution(WireSteps(BatchOf(callbacks, jobs), later), order) <==>
            && Selection(|WireSteps(BatchOf(callbacks, jobs), later)|, order)
            && forall p :: 0 <= p < |order| && order[p] >= |jobs| ==> JobsBefore(|jobs|, order, p)
  {
    if Execution(WireSteps(BatchOf(callbacks, jobs), later), order) {
      forall p | 0 <= p < |order| && order[p] >= |jobs| ensures JobsBefore(|jobs|, order, p) {
        CallbackAfterAllJobs(callbacks, jobs, later, order, p);
      }
    } else if Selection(|WireSteps(BatchOf(callbacks, jobs), later)|, order)
              && forall p :: 0 <= p < |order| && order[p] >= |jobs| ==> JobsBefore(|jobs|, order, p) {
      JobsFirstIsExecution(callbacks, jobs, later, order);
    }
  }

  /** A group has no dependencies: every order of its jobs is an execution. */
  lemma GroupRunsInAnyOrder(jobs: seq<Step>, later: Duration -> Time, order: seq<nat>)
    ensures Execution(WireSteps(GroupOf(jobs), later), order) <==> Selection(|jobs|, order)
  {
  }
}
