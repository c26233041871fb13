/**
 The reconcile protocol as a state machine. Every call that a reconcile makes to the cluster is one
 event; between two events of one custom resource, other resources and the environment may act.
 */
module Protocol {
  import opened Types
  import opened Decision
  import opened Conditions
  import PodNames

  /** A custom resource. `created`, the steps of the pods created for it, is bookkeeping the operator does
      not have. */
  datatype Instance = Instance(uid: string, kind: Kind, spec: Spec, conditions: StatusMap,
                               finalizer: bool, created: seq<int>)

  /** What a reconcile has settled on once the config check has passed. */
  datatype Task = Task(spec: Spec, step: int, hash: ConfigHash, parallel: bool, podName: string)

  /** The two places that call ReleaseLock. */
  datatype Site = AtEnd | AfterFailedCreate

  /** Where the reconcile of a custom resource stands. */
  datatype Stage =
    | Idle
    | Fetched(spec: Spec)
    | Decided(spec: Spec, decision: Decision, seen: ConfigHash)
    | Deleting(doomed: seq<string>)
    | Acquiring(task: Task)
    | Ensuring(task: Task)
    | Locked(task: Task)
    | Prepared(task: Task)
    | Creating(task: Task)
    | Created
    | Releasing(site: Site)
    | Holding(site: Site)
    | Polling(site: Site, polls: nat)
    | Panicked

  datatype State = State(lock: Lock, pods: map<string, Pod>, crs: map<string, Instance>, at: map<string, Stage>)

  /** What one reconcile reads and writes: the shared lock and pods, its own record and stage. */
  datatype View = View(lock: Lock, pods: map<string, Pod>, me: Instance, stage: Stage)

  const MAX_RETRIES: nat := 10

  datatype DeleteOutcome = Graceful | Immediate | DeleteFails
  datatype PrepareOutcome =
    InputsInvalid | StorageFails | ConfigMapsFail | NetworkMissing | NetworkFails | BuildFails | Built
  datatype VerifyOutcome = NetworkReady | NetworkWaiting | VerifyFails | PodGone

  /** What users, the kubelet and the garbage collector do. */
  datatype EnvEvent =
    | AddInstance(name: string, uid: string, kind: Kind, spec: Spec)
    | EditSpec(name: string, spec: Spec)
    | ChangePhase(pod: string, phase: Phase)
    | DeletePod(pod: string)
    | RemovePod(pod: string)

  /** The calls a reconcile makes; `ok` is whether the cluster answers without an error. */
  datatype Call =
    | Fetch
    | Decide(listing: seq<string>, ok: bool)
    | CheckConfig(listing: seq<string>, ok: bool)
    | DeleteDoomed(deletion: DeleteOutcome)
    | ReadLock(ok: bool)
    | EnsureLock(ok: bool)
    | Prepare(preparation: PrepareOutcome)
    | LookupPod(ok: bool)
    | CreatePod(ok: bool)
    | Verify(verification: VerifyOutcome)
    | ReleaseRead(ok: bool)
    | ReleaseDelete(ok: bool)
    | ReleasePoll(ok: bool)
    | Restart

  datatype Event = External(env: EnvEvent) | Reconcile(cr: string, call: Call)

  // ---- what the reconcile computes between two calls -------------------------------------------

  function StepNames(kind: Kind, spec: Spec): seq<string> {
    if kind.SupportsWorkflow() then seq(|spec.workflow|, k requires 0 <= k < |spec.workflow| => spec.workflow[k].name)
    else []
  }

  function TaskFor(cr: string, kind: Kind, spec: Spec, step: int): Task {
    Task(spec, step, HashOf(spec), EffectiveParallel(kind, spec, step),
         PodNames.GetPodName(cr, StepNames(kind, spec), step))
  }

  /** The annotation of the first listed live pod that has one. */
  function CurrentHash(list: seq<Pod>): ConfigHash {
    if list == [] then NoHash
    else if list[0].Live() && list[0].hash != NoHash then list[0].hash
    else CurrentHash(list[1..])
  }

  function SeenHash(list: seq<Pod>): ConfigHash {
    var last := LastPod(list);
    if last.Ok? && last.value.Some? then last.value.value.hash else NoHash
  }

  /** Merge, the choice of `parallel` and the switch over the action. */
  function AfterCheck(cr: string, kind: Kind, spec: Spec, decision: Decision): Stage {
    var task := TaskFor(cr, kind, spec, decision.step);
    match decision.action
    case EndTesting => Releasing(AtEnd)
    case CreateFirstPod | CreateNextPod => if task.parallel then Locked(task) else Acquiring(task)
    case _ => Idle
  }

  /** The AnsibleTest volume code indexes a non-empty workflow without a guard. */
  predicate IndexPanics(kind: Kind, spec: Spec, step: int) {
    kind.AnsibleTest? && OutOfRange(|spec.workflow|, step)
  }

  function ConfiguredConditions(kind: Kind, c: StatusMap): StatusMap {
    var valid := c[InputReady := True];
    if kind.NeedsConfigMaps() then valid[ServiceConfigReady := True] else valid
  }

  function PreparedConditions(kind: Kind, c: StatusMap): StatusMap {
    var configured := ConfiguredConditions(kind, c);
    if kind.NeedsNetworkAttachments() then configured[NetworkAttachmentsReady := True] else configured
  }

  /** The conditions left by each way BuildPod may not be reached. */
  function FailedConditions(kind: Kind, c: StatusMap, outcome: PrepareOutcome): StatusMap {
    var valid := c[InputReady := True];
    var configured := ConfiguredConditions(kind, c);
    match outcome
    case InputsInvalid => c[InputReady := False]
    case StorageFails => valid
    case ConfigMapsFail => if kind.NeedsConfigMaps() then valid[ServiceConfigReady := False] else valid
    case NetworkMissing =>
      if kind.NeedsNetworkAttachments() then configured[NetworkAttachmentsReady := False] else configured
    case NetworkFails => configured
    case BuildFails | Built => PreparedConditions(kind, c)
  }

  function VerifiedConditions(kind: Kind, c: StatusMap, outcome: VerifyOutcome): StatusMap {
    if !kind.NeedsNetworkAttachments() then MarkReadyIfAllTrue(c)
    else
      match outcome
      case NetworkReady => MarkReadyIfAllTrue(c[NetworkAttachmentsReady := True])
      case NetworkWaiting => c[NetworkAttachmentsReady := False]
      case VerifyFails => c
      case PodGone => MarkReadyIfAllTrue(c)
  }

  function ReleasedConditions(site: Site, c: StatusMap, released: bool): StatusMap {
    if !released then c
    else if site == AtEnd then MarkReadyIfAllTrue(c[DeploymentReady := True])
    else c[DeploymentReady := False]
  }

  // ---- transitions -----------------------------------------------------------------------------

  /** Ends the reconcile with these conditions. */
  function Leave(v: View, c: StatusMap): View {
    v.(me := v.me.(conditions := OnExit(c)), stage := Idle)
  }

  function Quit(v: View): View { Leave(v, v.me.conditions) }

  function EndRelease(v: View, site: Site, released: bool): View {
    Leave(v, ReleasedConditions(site, v.me.conditions, released))
  }

  /** A listing names every pod whose label selects the custom resource, once each, in any order. */
  predicate IsListing(pods: map<string, Pod>, cr: string, listing: seq<string>) {
    && (forall k | 0 <= k < |listing| :: listing[k] in pods && pods[listing[k]].instance == cr)
    && (forall j, k | 0 <= j < k < |listing| :: listing[j] != listing[k])
    && (forall n | n in pods && pods[n].instance == cr :: n in listing)
  }

  function PodsOf(pods: map<string, Pod>, listing: seq<string>): (list: seq<Pod>)
    requires forall n | n in listing :: n in pods
    ensures |list| == |listing|
    ensures forall k | 0 <= k < |listing| :: list[k] == pods[listing[k]]
  {
    seq(|listing|, k requires 0 <= k < |listing| => assert listing[k] in listing; pods[listing[k]])
  }

  function LiveNames(pods: map<string, Pod>, listing: seq<string>): (names: seq<string>)
    requires forall n | n in listing :: n in pods
    ensures forall n :: n in names <==> n in listing && pods[n].Live()
  {
    if listing == [] then []
    else (if pods[listing[0]].Live() then [listing[0]] else []) + LiveNames(pods, listing[1..])
  }

  function WithoutPod(pods: map<string, Pod>, name: string): map<string, Pod> {
    map n | n in pods && n != name :: pods[n]
  }

  function DeleteFrom(pods: map<string, Pod>, name: string, immediate: bool): map<string, Pod> {
    if name !in pods then pods
    else if immediate then WithoutPod(pods, name)
    else pods[name := pods[name].(terminating := true)]
  }

  predicate EnvEnabled(s: State, e: EnvEvent) {
    match e
    case AddInstance(cr, uid, kind, spec) => cr !in s.crs && uid != "" && forall i | i in s.crs :: s.crs[i].uid != uid
    case EditSpec(cr, spec) => cr in s.crs
    case ChangePhase(pod, phase) => pod in s.pods && !s.pods[pod].Finished()
    case DeletePod(pod) => pod in s.pods
    case RemovePod(pod) => pod in s.pods
  }

  predicate CallEnabled(v: View, cr: string, call: Call) {
    match call
    case Fetch => v.stage.Idle?
    case Decide(listing, _) => v.stage.Fetched? && IsListing(v.pods, cr, listing)
    case CheckConfig(listing, _) => v.stage.Decided? && IsListing(v.pods, cr, listing)
    case DeleteDoomed(_) => v.stage.Deleting? && v.stage.doomed != []
    case ReadLock(_) => v.stage.Acquiring?
    case EnsureLock(_) => v.stage.Ensuring?
    case Prepare(_) => v.stage.Locked?
    case LookupPod(_) => v.stage.Prepared?
    case CreatePod(_) => v.stage.Creating?
    case Verify(_) => v.stage.Created?
    case ReleaseRead(_) => v.stage.Releasing?
    case ReleaseDelete(_) => v.stage.Holding?
    case ReleasePoll(_) => v.stage.Polling?
    case Restart => v.stage.Panicked?
  }

  function ApplyExternal(s: State, e: EnvEvent): State
    requires EnvEnabled(s, e)
  {
    match e
    case AddInstance(cr, uid, kind, spec) =>
      s.(crs := s.crs[cr := Instance(uid, kind, spec, map[], false, [])], at := s.at[cr := Idle])
    case EditSpec(cr, spec) => s.(crs := s.crs[cr := s.crs[cr].(spec := spec)])
    case ChangePhase(pod, phase) => s.(pods := s.pods[pod := s.pods[pod].(phase := phase)])
    case DeletePod(pod) => s.(pods := DeleteFrom(s.pods, pod, false))
    case RemovePod(pod) => s.(pods := WithoutPod(s.pods, pod))
  }

  function FetchCall(v: View): View {
    if v.me.conditions == map[] then Leave(v, Initial(v.me.kind))
    else if v.me.kind.NeedsFinalizer() && !v.me.finalizer then Quit(v.(me := v.me.(finalizer := true)))
    else v.(stage := Fetched(v.me.spec))
  }

  function DecideCall(v: View, listing: seq<string>, ok: bool): View
    requires v.stage.Fetched? && forall n | n in listing :: n in v.pods
  {
    var spec := v.stage.spec;
    var list := PodsOf(v.pods, listing);
    var decision := NextAction(list, WorkflowLength(v.me.kind, spec));
    if !ok || decision.action == Failure then Quit(v)
    else v.(stage := Decided(spec, decision, SeenHash(list)))
  }

  function CheckConfigCall(v: View, cr: string, listing: seq<string>, ok: bool): View
    requires v.stage.Decided? && forall n | n in listing :: n in v.pods
  {
    var Decided(spec, decision, _) := v.stage;
    if !ok then Quit(v)
    else if CurrentHash(PodsOf(v.pods, listing)) in {NoHash, HashOf(spec)}
    then
      var next := AfterCheck(cr, v.me.kind, spec, decision);
      if next.Idle? then Quit(v) else v.(stage := next)
    else v.(stage := Deleting(LiveNames(v.pods, listing)))
  }

  function DeleteDoomedCall(v: View, outcome: DeleteOutcome): View
    requires v.stage.Deleting? && v.stage.doomed != []
  {
    var doomed := v.stage.doomed;
    if outcome == DeleteFails then Quit(v)
    else
      var w := v.(pods := DeleteFrom(v.pods, doomed[0], outcome == Immediate));
      if |doomed| == 1 then Quit(w) else w.(stage := Deleting(doomed[1..]))
  }

  function ReadLockCall(v: View, ok: bool): View
    requires v.stage.Acquiring?
  {
    if ok && v.lock.NoLock? then v.(stage := Ensuring(v.stage.task))
    else if ok && v.lock.HeldBy(v.me.uid) then v.(stage := Locked(v.stage.task))
    else Quit(v)
  }

  /** EnsureConfigMaps creates the lock only if it is absent and fails otherwise. */
  function EnsureLockCall(v: View, ok: bool): View
    requires v.stage.Ensuring?
  {
    if ok && v.lock.NoLock? then v.(lock := LockObject(Some(v.me.uid)), stage := Locked(v.stage.task))
    else Quit(v)
  }

  /** Everything between the lock and CreatePod: inputs, volume claim, config maps, networks, BuildPod. */
  function PrepareCall(v: View, outcome: PrepareOutcome): View
    requires v.stage.Locked?
  {
    var task, kind, c := v.stage.task, v.me.kind, v.me.conditions;
    if outcome != Built then Leave(v, FailedConditions(kind, c, outcome))
    else if IndexPanics(kind, task.spec, task.step) then v.(stage := Panicked)
    else v.(me := v.me.(conditions := PreparedConditions(kind, c)), stage := Prepared(task))
  }

  function LookupPodCall(v: View, ok: bool): View
    requires v.stage.Prepared?
  {
    if !ok then v.(stage := Releasing(AfterFailedCreate))
    else if v.stage.task.podName in v.pods then v.(stage := Created)
    else v.(stage := Creating(v.stage.task))
  }

  function NewPod(cr: string, task: Task): Pod {
    Pod(cr, Some(task.step), Pending, false, task.hash, task.parallel)
  }

  /** The cluster refuses to create a pod under a name that is taken. */
  function CreatePodCall(v: View, cr: string, ok: bool): View
    requires v.stage.Creating?
  {
    var task := v.stage.task;
    if !ok || task.podName in v.pods then v.(stage := Releasing(AfterFailedCreate))
    else v.(pods := v.pods[task.podName := NewPod(cr, task)],
            me := v.me.(created := v.me.created + [task.step]), stage := Created)
  }

  function VerifyCall(v: View, outcome: VerifyOutcome): View {
    Leave(v, VerifiedConditions(v.me.kind, v.me.conditions, outcome))
  }

  function ReleaseReadCall(v: View, ok: bool): View
    requires v.stage.Releasing?
  {
    if ok && v.lock.NoLock? then EndRelease(v, v.stage.site, true)
    else if ok && v.lock.HeldBy(v.me.uid) then v.(stage := Holding(v.stage.site))
    else EndRelease(v, v.stage.site, false)
  }

  /** Deletes whatever lock object is there; a failed delete is polled for all the same. */
  function ReleaseDeleteCall(v: View, ok: bool): View
    requires v.stage.Holding?
  {
    if ok && v.lock.NoLock? then EndRelease(v, v.stage.site, false)
    else v.(lock := if ok then NoLock else v.lock, stage := Polling(v.stage.site, 0))
  }

  function ReleasePollCall(v: View, ok: bool): View
    requires v.stage.Polling?
  {
    var Polling(site, polls) := v.stage;
    if ok && v.lock.NoLock? then EndRelease(v, site, true)
    else if polls + 1 >= MAX_RETRIES then EndRelease(v, site, false)
    else v.(stage := Polling(site, polls + 1))
  }

  function ApplyCall(v: View, cr: string, call: Call): View
    requires CallEnabled(v, cr, call)
  {
    match call
    case Fetch => FetchCall(v)
    case Decide(listing, ok) => DecideCall(v, listing, ok)
    case CheckConfig(listing, ok) => CheckConfigCall(v, cr, listing, ok)
    case DeleteDoomed(outcome) => DeleteDoomedCall(v, outcome)
    case ReadLock(ok) => ReadLockCall(v, ok)
    case EnsureLock(ok) => EnsureLockCall(v, ok)
    case Prepare(outcome) => PrepareCall(v, outcome)
    case LookupPod(ok) => LookupPodCall(v, ok)
    case CreatePod(ok) => CreatePodCall(v, cr, ok)
    case Verify(outcome) => VerifyCall(v, outcome)
    case ReleaseRead(ok) => ReleaseReadCall(v, ok)
    case ReleaseDelete(ok) => ReleaseDeleteCall(v, ok)
    case ReleasePoll(ok) => ReleasePollCall(v, ok)
    case Restart => v.(stage := Idle)
  }

  predicate Knows(s: State, cr: string) { cr in s.crs && cr in s.at }

  function Look(s: State, cr: string): View
    requires Knows(s, cr)
  {
    View(s.lock, s.pods, s.crs[cr], s.at[cr])
  }

  function Put(s: State, cr: string, v: View): State {
    State(v.lock, v.pods, s.crs[cr := v.me], s.at[cr := v.stage])
  }

  predicate Enabled(s: State, e: Event) {
    match e
    case External(env) => EnvEnabled(s, env)
    case Reconcile(cr, call) => Knows(s, cr) && CallEnabled(Look(s, cr), cr, call)
  }

  function Apply(s: State, e: Event): State
    requires Enabled(s, e)
  {
    match e
    case External(env) => ApplyExternal(s, env)
    case Reconcile(cr, call) => Put(s, cr, ApplyCall(Look(s, cr), cr, call))
  }

  // ---- runs ------------------------------------------------------------------------------------

  /** `run` can happen from `s`, event by event. */
  predicate Possible(s: State, run: seq<Event>)
    decreases |run|
  {
    run == [] || (Enabled(s, run[0]) && Possible(Apply(s, run[0]), run[1..]))
  }

  function After(s: State, run: seq<Event>): State
    requires Possible(s, run)
    decreases |run|
  {
    if run == [] then s else After(Apply(s, run[0]), run[1..])
  }

  /** The state before the event at a position, or at the end. */
  function StateAt(s: State, run: seq<Event>, k: nat): State
    requires Possible(s, run) && k <= |run|
    decreases k
  {
    if k == 0 then s else StateAt(Apply(s, run[0]), run[1..], k - 1)
  }

  lemma {:induction false} StateAtStep(s: State, run: seq<Event>, k: nat)
    requires Possible(s, run) && k < |run|
    ensures Enabled(StateAt(s, run, k), run[k])
    ensures StateAt(s, run, k + 1) == Apply(StateAt(s, run, k), run[k])
    decreases k
  {
    var t := Apply(s, run[0]);
    if k == 0 {
      assert StateAt(s, run, 1) == StateAt(t, run[1..], 0);
    } else {
      StateAtStep(t, run[1..], k - 1);
      assert run[1..][k - 1] == run[k];
    }
  }

  /** An empty namespace; a lock object left by someone else may be lying around. */
  predicate Start(s: State) {
    s.pods == map[] && s.crs == map[] && s.at == map[]
  }

  lemma ConsAppend(run: seq<Event>, more: seq<Event>)
    requires run != []
    ensures run + more == [run[0]] + (run[1..] + more)
  {
  }

  lemma PrependEvent(s: State, e: Event, t: State, rest: seq<Event>)
    requires Enabled(s, e) && t == Apply(s, e) && Possible(t, rest)
    ensures Possible(s, [e] + rest) && After(s, [e] + rest) == After(t, rest)
  {
    assert ([e] + rest)[1..] == rest;
  }

  lemma {:induction false} AppendRun(s: State, run: seq<Event>, more: seq<Event>)
    requires Possible(s, run) && Possible(After(s, run), more)
    ensures Possible(s, run + more) && After(s, run + more) == After(After(s, run), more)
    decreases |run|
  {
    if run == [] {
      assert run + more == more;
    } else {
      var t := Apply(s, run[0]);
      AppendRun(t, run[1..], more);
      PrependEvent(s, run[0], t, run[1..] + more);
      ConsAppend(run, more);
    }
  }

  lemma {:induction false} SplitRun(s: State, run: seq<Event>, more: seq<Event>)
    requires Possible(s, run + more)
    ensures Possible(s, run) && Possible(After(s, run), more)
    ensures After(s, run + more) == After(After(s, run), more)
    decreases |run|
  {
    if run == [] {
      assert run + more == more;
    } else {
      assert (run + more)[1..] == run[1..] + more;
      SplitRun(Apply(s, run[0]), run[1..], more);
    }
  }

  /** The event at a position of a run leads from the state before it to the state after it. */
  lemma EventAt(start: State, run: seq<Event>, k: nat)
    requires Possible(start, run) && k < |run|
    ensures Possible(start, run[..k]) && Enabled(After(start, run[..k]), run[k])
    ensures Possible(start, run[..k + 1])
    ensures After(start, run[..k + 1]) == Apply(After(start, run[..k]), run[k])
  {
    assert run[..k] + run[k..] == run;
    SplitRun(start, run[..k], run[k..]);
    var s := After(start, run[..k]);
    PrependEvent(s, run[k], Apply(s, run[k]), []);
    assert [run[k]] + [] == [run[k]];
    AppendRun(start, run[..k], [run[k]]);
    assert run[..k + 1] == run[..k] + [run[k]];
  }

  /** The run so far and the state it has led to. */
  ghost predicate Leads(start: State, run: seq<Event>, s: State) {
    Possible(start, run) && After(start, run) == s
  }

  lemma Extend(start: State, run: seq<Event>, s: State, e: Event) returns (longer: seq<Event>, t: State)
    requires Leads(start, run, s) && Enabled(s, e)
    ensures longer == run + [e] && t == Apply(s, e) && Leads(start, longer, t)
  {
    longer, t := run + [e], Apply(s, e);
    PrependEvent(s, e, t, []);
    assert [e] + [] == [e];
    AppendRun(start, run, [e]);
  }
}
