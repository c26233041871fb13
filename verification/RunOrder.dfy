/**
 One run of one spec: as long as nobody edits the spec or deletes the pods of a custom resource, its
 pods are created in step order, each once and only after the one before has finished; the run gets
 shorter with every creation and completion; and its conditions tell the truth about it.
 */
module RunOrder {
  import opened Types
  import opened Decision
  import opened Conditions
  import opened Protocol
  import opened ProtocolSafety

  /** How many pods the run of the custom resource creates. */
  function Total(v: View): nat { PodCount(v.me.kind, v.me.spec) }

  predicate InOrder(created: seq<int>) {
    forall k | 0 <= k < |created| :: created[k] == k
  }

  ghost predicate HasStep(pods: map<string, Pod>, cr: string, step: int) {
    exists n :: LivePod(pods, cr, n) && pods[n].Step() == step
  }

  /** Every pod of the run has been created and has finished. */
  ghost predicate Done(v: View, cr: string) {
    |v.me.created| == Total(v) && AllFinished(v.pods, cr)
  }

  predicate DeploymentDone(v: View) { Is(v.me.conditions, DeploymentReady, True) }

  /** What is being created is the next step of the run. */
  predicate NextStep(v: View, spec: Spec, step: int) {
    spec == v.me.spec && step == |v.me.created| && step < Total(v)
  }

  ghost predicate StageOrder(v: View, cr: string) {
    match v.stage
    case Fetched(spec) => spec == v.me.spec
    case Decided(spec, decision, _) =>
      && spec == v.me.spec
      && (decision.action.Creates() ==> NextStep(v, spec, decision.step))
      && (decision.action == EndTesting ==> Done(v, cr))
    case Deleting(_) => false
    case Acquiring(task) => NextStep(v, task.spec, task.step)
    case Ensuring(task) => NextStep(v, task.spec, task.step)
    case Locked(task) => NextStep(v, task.spec, task.step)
    case Prepared(task) => NextStep(v, task.spec, task.step)
    case Creating(task) => NextStep(v, task.spec, task.step)
    case Created => !DeploymentDone(v)
    case Releasing(site) => if site == AtEnd then Done(v, cr) else !DeploymentDone(v)
    case Holding(site) => if site == AtEnd then Done(v, cr) else !DeploymentDone(v)
    case Polling(site, _) => if site == AtEnd then Done(v, cr) else !DeploymentDone(v)
    case Panicked => false
    case Idle => true
  }

  ghost predicate PodsOrder(v: View, cr: string) {
    && InOrder(v.me.created) && |v.me.created| <= Total(v)
    && (forall n | LivePod(v.pods, cr, n) ::
          v.pods[n].Step() < |v.me.created| && v.pods[n].hash == HashOf(v.me.spec))
    && (forall k | 0 <= k < |v.me.created| :: HasStep(v.pods, cr, k))
  }

  ghost predicate ConditionsTruthful(v: View, cr: string) {
    && (DeploymentDone(v) ==> Done(v, cr))
    && ReadyIsHonest(v.me.conditions)
    && (DeploymentReady in v.me.conditions || (v.stage.Idle? && v.me.conditions == map[]))
    && (Is(v.me.conditions, Ready, True) ==> DeploymentDone(v))
  }

  ghost predicate OrderInv(v: View, cr: string) {
    ViewInv(v, cr) && PodsOrder(v, cr) && StageOrder(v, cr) && ConditionsTruthful(v, cr)
  }

  /** A custom resource that has just been added. */
  ghost predicate Fresh(v: View, cr: string) {
    && v.stage == Idle && v.me.created == [] && v.me.conditions == map[]
    && (forall n :: !LivePod(v.pods, cr, n))
  }

  lemma AddedIsFresh(s: State, e: EnvEvent)
    requires Inv(s) && EnvEnabled(s, e) && e.AddInstance?
    ensures Fresh(Look(ApplyExternal(s, e), e.name), e.name)
  {
  }

  /** Nobody but the reconcile itself edits the spec or takes away a live pod. */
  ghost predicate Quiet(s: State, e: Event, cr: string)
    requires Enabled(s, e)
  {
    || (e.Reconcile? && e.cr == cr)
    || (!(e.External? && e.env.EditSpec? && e.env.name == cr)
        && forall n | LivePod(s.pods, cr, n) :: LivePod(Apply(s, e).pods, cr, n))
  }

  ghost predicate QuietRun(s: State, run: seq<Event>, cr: string)
    requires Possible(s, run)
    decreases |run|
  {
    run == [] || (Quiet(s, run[0], cr) && QuietRun(Apply(s, run[0]), run[1..], cr))
  }

  // ---- steps of others -------------------------------------------------------------------------

  /** The custom resource's own part is as before; its pods are the same but may have progressed. */
  ghost predicate Steady(v: View, w: View, cr: string) {
    && w.me == v.me && w.stage == v.stage
    && PodsShrink(v.pods, w.pods, cr)
    && (forall n | LivePod(v.pods, cr, n) :: LivePod(w.pods, cr, n))
  }

  lemma OthersAreSteady(s: State, e: Event, cr: string)
    requires Inv(s) && Enabled(s, e) && Knows(s, cr) && Quiet(s, e, cr)
    requires !(e.Reconcile? && e.cr == cr)
    ensures Knows(Apply(s, e), cr) && Steady(Look(s, cr), Look(Apply(s, e), cr), cr)
  {
    if e.External? { EnvLeavesAllAlone(s, e.env, cr); } else { CallLeavesOthersAlone(s, e.cr, e.call, cr); }
  }

  lemma SteadyKeepsSteps(v: View, w: View, cr: string, k: int)
    requires Steady(v, w, cr) && HasStep(v.pods, cr, k)
    ensures HasStep(w.pods, cr, k)
  {
    var n :| LivePod(v.pods, cr, n) && v.pods[n].Step() == k;
    assert LivePod(w.pods, cr, n) && w.pods[n].Step() == k;
  }

  lemma SteadyKeepsOrder(v: View, w: View, cr: string)
    requires Steady(v, w, cr) && OrderInv(v, cr) && ViewInv(w, cr)
    ensures OrderInv(w, cr)
  {
    ShrinkKeepsPodClaims(v.pods, w.pods, cr);
    forall k | 0 <= k < |w.me.created| ensures HasStep(w.pods, cr, k) {
      SteadyKeepsSteps(v, w, cr, k);
    }
  }

  // ---- the reconcile's own steps ---------------------------------------------------------------

  /** With all steps so far present, the listing's last pod is the pod of the last created step. */
  lemma LastPodIsLastCreated(v: View, cr: string, listing: seq<string>)
    requires ViewInv(v, cr) && PodsOrder(v, cr) && IsListing(v.pods, cr, listing)
    ensures var last := LastPod(PodsOf(v.pods, listing));
            && last.Ok?
            && (v.me.created == [] <==> last.value.None?)
            && (last.value.Some? ==>
                  && last.value.value.Step() == |v.me.created| - 1
                  && (last.value.value.Finished() ==> AllFinished(v.pods, cr))
                  && exists n :: LivePod(v.pods, cr, n) && v.pods[n] == last.value.value)
  {
    var list := PodsOf(v.pods, listing);
    LastPodIsHighest(list);
    var last := LastPod(list);
    forall n | LivePod(v.pods, cr, n) ensures v.pods[n] in list { ListingHasLive(v.pods, cr, listing, n); }
    ListedAreReadable(v.pods, cr, listing);
    if v.me.created != [] {
      assert HasStep(v.pods, cr, |v.me.created| - 1);
    }
    if last.value.Some? {
      var m := ListedIsOwn(v.pods, cr, listing, last.value.value);
      assert LivePod(v.pods, cr, m);
    }
  }

  lemma DecideKeepsOrder(v: View, cr: string, listing: seq<string>, ok: bool)
    requires OrderInv(v, cr) && CallEnabled(v, cr, Decide(listing, ok))
    ensures var w := DecideCall(v, listing, ok);
            PodsOrder(w, cr) && StageOrder(w, cr) && (w.stage.Decided? ==> w.me == v.me)
  {
    LastPodIsLastCreated(v, cr, listing);
    var w := DecideCall(v, listing, ok);
    assert w.pods == v.pods && w.me.created == v.me.created && w.me.spec == v.me.spec && w.me.kind == v.me.kind;
  }

  lemma CheckKeepsOrder(v: View, cr: string, listing: seq<string>, ok: bool)
    requires OrderInv(v, cr) && CallEnabled(v, cr, CheckConfig(listing, ok))
    ensures StageOrder(CheckConfigCall(v, cr, listing, ok), cr)
  {
    var list := PodsOf(v.pods, listing);
    if CurrentHash(list) !in {NoHash, HashOf(v.me.spec)} {
      HashComesFromLive(list);
      var p :| p in list && p.Live() && p.hash == CurrentHash(list);
      var m := ListedIsOwn(v.pods, cr, listing, p);
      assert LivePod(v.pods, cr, m);
    }
  }

  lemma CreateKeepsOrder(v: View, cr: string, ok: bool)
    requires OrderInv(v, cr) && v.stage.Creating?
    ensures var w := CreatePodCall(v, cr, ok); PodsOrder(w, cr) && StageOrder(w, cr) && ConditionsTruthful(w, cr)
  {
    var w := CreatePodCall(v, cr, ok);
    var task := v.stage.task;
    assert !DeploymentDone(v);
    if w.pods != v.pods {
      forall k | 0 <= k < |w.me.created| ensures HasStep(w.pods, cr, k) {
        if k < |v.me.created| {
          assert HasStep(v.pods, cr, k);
          var n :| LivePod(v.pods, cr, n) && v.pods[n].Step() == k;
          assert LivePod(w.pods, cr, n) && w.pods[n].Step() == k;
        } else {
          assert LivePod(w.pods, cr, task.podName) && w.pods[task.podName].Step() == k;
        }
      }
    }
  }

  /** Leaving keeps the conditions truthful when the new ones are. */
  lemma LeaveKeepsTruth(v: View, cr: string, c: StatusMap)
    requires ConditionsTruthful(v.(me := v.me.(conditions := c)), cr)
    ensures ConditionsTruthful(Leave(v, c), cr)
  {
    ExitKeepsReadyHonest(c);
    var w := v.(me := v.me.(conditions := c));
    if Is(OnExit(c), Ready, True) {
      assert c != map[];
      assert DeploymentReady in c && OnExit(c)[DeploymentReady] == True;
    }
    assert Total(Leave(v, c)) == Total(w);
  }

  lemma OwnCallKeepsOrder(v: View, cr: string, call: Call)
    requires OrderInv(v, cr) && CallEnabled(v, cr, call)
    ensures PodsOrder(ApplyCall(v, cr, call), cr) && StageOrder(ApplyCall(v, cr, call), cr)
    ensures ConditionsTruthful(ApplyCall(v, cr, call), cr)
  {
    match call
    case Fetch => FetchKeepsOrder(v, cr);
    case Decide(listing, ok) => ListCallKeepsOrder(v, cr, call);
    case CheckConfig(listing, ok) => ListCallKeepsOrder(v, cr, call);
    case CreatePod(ok) => CreateKeepsOrder(v, cr, ok);
    case _ => OtherCallKeepsOrder(v, cr, call);
  }

  lemma ListCallKeepsOrder(v: View, cr: string, call: Call)
    requires OrderInv(v, cr) && CallEnabled(v, cr, call) && (call.Decide? || call.CheckConfig?)
    ensures PodsOrder(ApplyCall(v, cr, call), cr) && StageOrder(ApplyCall(v, cr, call), cr)
    ensures ConditionsTruthful(ApplyCall(v, cr, call), cr)
  {
    LeaveKeepsTruth(v, cr, v.me.conditions);
    if call.Decide? {
      DecideKeepsOrder(v, cr, call.listing, call.ok);
    } else {
      CheckKeepsOrder(v, cr, call.listing, call.ok);
    }
  }

  lemma FetchKeepsOrder(v: View, cr: string)
    requires OrderInv(v, cr) && v.stage.Idle?
    ensures PodsOrder(FetchCall(v), cr) && StageOrder(FetchCall(v), cr) && ConditionsTruthful(FetchCall(v), cr)
  {
    if v.me.conditions == map[] {
      LeaveKeepsTruth(v, cr, Initial(v.me.kind));
    } else {
      LeaveKeepsTruth(v.(me := v.me.(finalizer := true)), cr, v.me.conditions);
    }
  }

  /** Calls that neither list nor create pods. */
  lemma OtherCallKeepsOrder(v: View, cr: string, call: Call)
    requires OrderInv(v, cr) && CallEnabled(v, cr, call)
    requires !(call.Fetch? || call.Decide? || call.CheckConfig? || call.CreatePod?)
    ensures PodsOrder(ApplyCall(v, cr, call), cr) && StageOrder(ApplyCall(v, cr, call), cr)
    ensures ConditionsTruthful(ApplyCall(v, cr, call), cr)
  {
    OtherCallKeepsRecord(v, cr, call);
    OtherCallKeepsStage(v, cr, call);
    OtherCallKeepsTruth(v, cr, call);
  }

  lemma OtherCallKeepsRecord(v: View, cr: string, call: Call)
    requires OrderInv(v, cr) && CallEnabled(v, cr, call)
    requires !(call.Fetch? || call.Decide? || call.CheckConfig? || call.CreatePod?)
    ensures var w := ApplyCall(v, cr, call);
            w.pods == v.pods && w.me.created == v.me.created && w.me.spec == v.me.spec && w.me.kind == v.me.kind
  {
  }

  lemma OtherCallKeepsStage(v: View, cr: string, call: Call)
    requires OrderInv(v, cr) && CallEnabled(v, cr, call)
    requires !(call.Fetch? || call.Decide? || call.CheckConfig? || call.CreatePod?)
    ensures StageOrder(ApplyCall(v, cr, call), cr)
  {
    OtherCallKeepsRecord(v, cr, call);
  }

  lemma OtherCallKeepsTruth(v: View, cr: string, call: Call)
    requires OrderInv(v, cr) && CallEnabled(v, cr, call)
    requires !(call.Fetch? || call.Decide? || call.CheckConfig? || call.CreatePod?)
    ensures ConditionsTruthful(ApplyCall(v, cr, call), cr)
  {
    match call
    case ReadLock(_) => LeaveKeepsTruth(v, cr, v.me.conditions);
    case EnsureLock(_) => LeaveKeepsTruth(v, cr, v.me.conditions);
    case Prepare(outcome) => PrepareKeepsTruth(v, cr, outcome);
    case LookupPod(_) =>
    case Verify(outcome) => VerifyKeepsTruth(v, cr, outcome);
    case ReleaseRead(ok) => ReleaseKeepsTruth(v, cr, v.stage.site);
    case ReleaseDelete(ok) => ReleaseKeepsTruth(v, cr, v.stage.site);
    case ReleasePoll(ok) => ReleaseKeepsTruth(v, cr, v.stage.site);
  }

  lemma PrepareKeepsTruth(v: View, cr: string, outcome: PrepareOutcome)
    requires OrderInv(v, cr) && v.stage.Locked?
    ensures ConditionsTruthful(PrepareCall(v, outcome), cr)
  {
    assert !DeploymentDone(v);
    LeaveKeepsTruth(v, cr, FailedConditions(v.me.kind, v.me.conditions, outcome));
  }

  lemma VerifyKeepsTruth(v: View, cr: string, outcome: VerifyOutcome)
    requires OrderInv(v, cr) && v.stage.Created?
    ensures ConditionsTruthful(VerifyCall(v, outcome), cr)
  {
    LeaveKeepsTruth(v, cr, VerifiedConditions(v.me.kind, v.me.conditions, outcome));
  }

  lemma ReleaseKeepsTruth(v: View, cr: string, site: Site)
    requires OrderInv(v, cr)
    requires if site == AtEnd then Done(v, cr) else !DeploymentDone(v)
    ensures ConditionsTruthful(EndRelease(v, site, true), cr)
    ensures ConditionsTruthful(EndRelease(v, site, false), cr)
  {
    var c := v.me.conditions;
    LeaveKeepsTruth(v, cr, c);
    LeaveKeepsTruth(v, cr, ReleasedConditions(site, c, true));
  }

  lemma StepKeepsOrder(s: State, e: Event, cr: string)
    requires Inv(s) && Enabled(s, e) && Knows(s, cr) && Quiet(s, e, cr)
    requires OrderInv(Look(s, cr), cr)
    ensures Knows(Apply(s, e), cr) && OrderInv(Look(Apply(s, e), cr), cr)
  {
    var t := Apply(s, e);
    StepKeepsInv(s, e);
    if e.Reconcile? && e.cr == cr {
      OwnCallKeepsOrder(Look(s, cr), cr, e.call);
      assert Look(t, cr) == ApplyCall(Look(s, cr), cr, e.call);
    } else {
      OthersAreSteady(s, e, cr);
      SteadyKeepsOrder(Look(s, cr), Look(t, cr), cr);
    }
  }

  lemma {:induction false} RunKeepsOrder(s: State, run: seq<Event>, cr: string)
    requires Inv(s) && Knows(s, cr) && OrderInv(Look(s, cr), cr)
    requires Possible(s, run) && QuietRun(s, run, cr)
    ensures Knows(After(s, run), cr) && Inv(After(s, run)) && OrderInv(Look(After(s, run), cr), cr)
    decreases |run|
  {
    if run != [] {
      StepKeepsInv(s, run[0]);
      StepKeepsOrder(s, run[0], cr);
      RunKeepsOrder(Apply(s, run[0]), run[1..], cr);
    }
  }

  // ---- the claims about a quiet run ------------------------------------------------------------

  lemma EarlierStepsFinished(v: View, cr: string)
    requires OrderInv(v, cr)
    ensures forall n | LivePod(v.pods, cr, n) && v.pods[n].Step() < |v.me.created| - 1 :: v.pods[n].Finished()
    ensures v.stage.Creating? ==> AllFinished(v.pods, cr)
  {
    if v.me.created != [] {
      assert HasStep(v.pods, cr, |v.me.created| - 1);
    }
  }

  /** Where the pods of `cr` stand while its run is under way. */
  ghost predicate RunsInOrder(v: View, cr: string) {
    && InOrder(v.me.created) && |v.me.created| <= Total(v)
    && (forall n | LivePod(v.pods, cr, n) && v.pods[n].Step() < |v.me.created| - 1 :: v.pods[n].Finished())
    && (v.stage.Creating? ==> v.stage.task.step == |v.me.created| < Total(v) && AllFinished(v.pods, cr))
    && !v.stage.Deleting? && !v.stage.Panicked?
  }

  lemma OrderInvRunsInOrder(v: View, cr: string)
    requires OrderInv(v, cr)
    ensures RunsInOrder(v, cr)
  {
    EarlierStepsFinished(v, cr);
  }

  /** A custom resource is added to a reachable namespace, and then a run follows that leaves its spec
      and pods to itself. */
  ghost predicate UndisturbedRun(start: State, before: seq<Event>, e: EnvEvent, run: seq<Event>) {
    && Start(start) && Possible(start, before)
    && e.AddInstance? && EnvEnabled(After(start, before), e)
    && Possible(ApplyExternal(After(start, before), e), run)
    && QuietRun(ApplyExternal(After(start, before), e), run, e.name)
  }

  function AtItsEnd(start: State, before: seq<Event>, e: EnvEvent, run: seq<Event>): State
    requires Possible(start, before) && EnvEnabled(After(start, before), e)
    requires Possible(ApplyExternal(After(start, before), e), run)
  {
    After(ApplyExternal(After(start, before), e), run)
  }

  lemma UndisturbedKeepsOrder(start: State, before: seq<Event>, e: EnvEvent, run: seq<Event>)
    requires UndisturbedRun(start, before, e, run)
    ensures var t := AtItsEnd(start, before, e, run);
            Knows(t, e.name) && Inv(t) && OrderInv(Look(t, e.name), e.name)
  {
    var s := After(start, before);
    ReachableInv(start, before);
    AddedIsFresh(s, e);
    StepKeepsInv(s, External(e));
    RunKeepsOrder(ApplyExternal(s, e), run, e.name);
  }

  /** Exact run order: from the moment it is added to any namespace that has come about, a custom
      resource whose spec and pods nobody else touches has created the pods of steps 0, 1, ... of its
      workflow, each once; at most the last of them is unfinished, and the step it would create now is
      the next one, its predecessors done. */
  lemma CreatedInOrder(start: State, before: seq<Event>, e: EnvEvent, run: seq<Event>)
    requires UndisturbedRun(start, before, e, run)
    ensures Knows(AtItsEnd(start, before, e, run), e.name)
    ensures RunsInOrder(Look(AtItsEnd(start, before, e, run), e.name), e.name)
  {
    UndisturbedKeepsOrder(start, before, e, run);
    OrderInvRunsInOrder(Look(AtItsEnd(start, before, e, run), e.name), e.name);
  }

  /** At `e`, the final release reads the lock and finds it free, every pod of the run being done. */
  ghost predicate FindsLockFree(s: State, e: Event, cr: string) {
    && (e == Reconcile(cr, ReleaseRead(true)) || e == Reconcile(cr, ReleasePoll(true)))
    && Enabled(s, e) && s.at[cr].site == AtEnd && s.lock == NoLock && Done(Look(s, cr), cr)
  }

  ghost predicate HasFoundLockFree(s: State, run: seq<Event>, cr: string)
    requires Possible(s, run)
    decreases |run|
  {
    run != [] && (FindsLockFree(s, run[0], cr) || HasFoundLockFree(Apply(s, run[0]), run[1..], cr))
  }

  /** Nothing but a final release that finds the lock free reports the deployment as ready. */
  lemma ReportsOnFreeLock(v: View, cr: string, call: Call)
    requires CallEnabled(v, cr, call) && !DeploymentDone(v) && DeploymentDone(ApplyCall(v, cr, call))
    ensures call == ReleaseRead(true) || call == ReleasePoll(true)
    ensures v.stage.site == AtEnd && v.lock == NoLock
  {
    match call
    case Prepare(_) | Verify(_) => PodCallStaysUnready(v, cr, call);
    case ReleaseRead(_) | ReleaseDelete(_) | ReleasePoll(_) =>
    case _ => OtherCallStaysUnready(v, cr, call);
  }

  lemma PodCallStaysUnready(v: View, cr: string, call: Call)
    requires CallEnabled(v, cr, call) && !DeploymentDone(v) && (call.Prepare? || call.Verify?)
    ensures !DeploymentDone(ApplyCall(v, cr, call))
  {
  }

  lemma OtherCallStaysUnready(v: View, cr: string, call: Call)
    requires CallEnabled(v, cr, call) && !DeploymentDone(v) && !call.Prepare? && !call.Verify?
    requires !(call.ReleaseRead? || call.ReleaseDelete? || call.ReleasePoll?)
    ensures !DeploymentDone(ApplyCall(v, cr, call))
  {
  }

  lemma StepReportsOnFreeLock(s: State, e: Event, cr: string)
    requires Inv(s) && Enabled(s, e) && Knows(s, cr) && Quiet(s, e, cr) && OrderInv(Look(s, cr), cr)
    requires Knows(Apply(s, e), cr) && !DeploymentDone(Look(s, cr)) && DeploymentDone(Look(Apply(s, e), cr))
    ensures FindsLockFree(s, e, cr)
  {
    if e.Reconcile? && e.cr == cr {
      assert Look(Apply(s, e), cr) == ApplyCall(Look(s, cr), cr, e.call);
      ReportsOnFreeLock(Look(s, cr), cr, e.call);
    } else {
      OthersAreSteady(s, e, cr);
    }
  }

  lemma {:induction false} RunReportsOnFreeLock(s: State, run: seq<Event>, cr: string)
    requires Inv(s) && Knows(s, cr) && OrderInv(Look(s, cr), cr) && Possible(s, run) && QuietRun(s, run, cr)
    requires Knows(After(s, run), cr) && !DeploymentDone(Look(s, cr)) && DeploymentDone(Look(After(s, run), cr))
    ensures HasFoundLockFree(s, run, cr)
    decreases |run|
  {
    var t := Apply(s, run[0]);
    StepKeepsInv(s, run[0]);
    StepKeepsOrder(s, run[0], cr);
    if DeploymentDone(Look(t, cr)) {
      StepReportsOnFreeLock(s, run[0], cr);
    } else {
      RunReportsOnFreeLock(t, run[1..], cr);
    }
  }

  /** Completion: DeploymentReady says True only when every pod of the run has been created and has
      finished, and has done so since a final release read the lock and found it free with all of them
      finished; Ready only together with everything. */
  lemma ReadyTellsTheTruth(start: State, before: seq<Event>, e: EnvEvent, run: seq<Event>)
    requires UndisturbedRun(start, before, e, run)
    ensures Knows(AtItsEnd(start, before, e, run), e.name)
    ensures var v := Look(AtItsEnd(start, before, e, run), e.name);
            && (DeploymentDone(v) ==>
                  Done(v, e.name) && HasFoundLockFree(ApplyExternal(After(start, before), e), run, e.name))
            && (Is(v.me.conditions, Ready, True) ==> AllSubConditionsTrue(v.me.conditions) && Done(v, e.name))
  {
    var s := ApplyExternal(After(start, before), e);
    UndisturbedKeepsOrder(start, before, e, run);
    ReachableInv(start, before);
    AddedIsFresh(After(start, before), e);
    StepKeepsInv(After(start, before), External(e));
    if DeploymentDone(Look(After(s, run), e.name)) {
      RunReportsOnFreeLock(s, run, e.name);
    }
  }

  // ---- the run gets shorter --------------------------------------------------------------------

  ghost function FinishedSteps(v: View, cr: string): set<int> {
    set n | n in v.pods && LivePod(v.pods, cr, n) && v.pods[n].Finished() :: v.pods[n].Step()
  }

  /** Pods still to be created plus pods still to finish. */
  ghost function Remaining(v: View, cr: string): int {
    (Total(v) - |v.me.created|) + (Total(v) - |FinishedSteps(v, cr)|)
  }

  lemma SubsetSize(a: set<int>, b: set<int>)
    requires a <= b
    ensures |a| <= |b|
    ensures a != b ==> |a| < |b|
  {
    assert b == a + (b - a);
    if a != b {
      assert b - a != {};
    }
  }

  ghost function UpTo(n: nat): (r: set<int>)
    ensures forall k :: k in r <==> 0 <= k < n
    ensures |r| == n
  {
    if n == 0 then {} else UpTo(n - 1) + {n - 1}
  }

  /** The measure never drops below zero, and is zero exactly when the run is done. */
  lemma RemainingCounts(v: View, cr: string)
    requires OrderInv(v, cr)
    ensures Remaining(v, cr) >= 0
    ensures Remaining(v, cr) == 0 <==> Done(v, cr)
  {
    var all := UpTo(|v.me.created|);
    var done := FinishedSteps(v, cr);
    assert done <= all;
    SubsetSize(done, all);
    if Remaining(v, cr) == 0 {
      forall n | LivePod(v.pods, cr, n) ensures v.pods[n].Finished() {
        assert v.pods[n].Step() in all;
        var m :| LivePod(v.pods, cr, m) && v.pods[m].Finished() && v.pods[m].Step() == v.pods[n].Step();
      }
    }
    if AllFinished(v.pods, cr) {
      forall k | k in all ensures k in done {
        assert HasStep(v.pods, cr, k);
      }
      assert done == all;
    }
  }

  /** `e` lets a live pod of the custom resource reach its end. */
  ghost predicate Completes(s: State, e: Event, cr: string)
    requires Enabled(s, e)
  {
    exists n :: LivePod(s.pods, cr, n) && !s.pods[n].Finished()
             && n in Apply(s, e).pods && Apply(s, e).pods[n].Finished()
  }

  lemma FinishedGrows(v: View, w: View, cr: string)
    requires OrderInv(v, cr) && PodsOrder(w, cr)
    requires forall n | LivePod(v.pods, cr, n) ::
               LivePod(w.pods, cr, n) && w.pods[n].stepLabel == v.pods[n].stepLabel
               && (v.pods[n].Finished() ==> w.pods[n].Finished())
    ensures FinishedSteps(v, cr) <= FinishedSteps(w, cr)
    ensures |FinishedSteps(v, cr)| <= |FinishedSteps(w, cr)|
    ensures forall n | LivePod(v.pods, cr, n) && !v.pods[n].Finished() && w.pods[n].Finished() ::
              |FinishedSteps(v, cr)| < |FinishedSteps(w, cr)|
  {
    var a, b := FinishedSteps(v, cr), FinishedSteps(w, cr);
    forall k | k in a ensures k in b {
      var n :| LivePod(v.pods, cr, n) && v.pods[n].Finished() && v.pods[n].Step() == k;
      assert LivePod(w.pods, cr, n) && w.pods[n].Finished() && w.pods[n].Step() == k;
    }
    SubsetSize(a, b);
    forall n | LivePod(v.pods, cr, n) && !v.pods[n].Finished() && w.pods[n].Finished() ensures |a| < |b| {
      assert v.pods[n].Step() !in a;
      assert w.pods[n].Step() in b;
    }
  }

  /** The own calls of a quiet run never touch existing pods. */
  lemma OwnCallKeepsPods(v: View, cr: string, call: Call)
    requires OrderInv(v, cr) && CallEnabled(v, cr, call)
    ensures var w := ApplyCall(v, cr, call);
            && (forall n | LivePod(v.pods, cr, n) :: LivePod(w.pods, cr, n) && w.pods[n] == v.pods[n])
            && w.me.spec == v.me.spec && w.me.kind == v.me.kind
            && (w.me.created == v.me.created || |w.me.created| == |v.me.created| + 1)
  {
    CallPods(v, cr, call);
  }

  /** Every event of a quiet run leaves the measure alone or lowers it; a creation lowers it and so
      does the completion of a pod. */
  lemma RemainingFalls(s: State, e: Event, cr: string)
    requires Inv(s) && Enabled(s, e) && Knows(s, cr) && Quiet(s, e, cr)
    requires OrderInv(Look(s, cr), cr)
    ensures Knows(Apply(s, e), cr)
    ensures var v, w := Look(s, cr), Look(Apply(s, e), cr);
            && Remaining(w, cr) <= Remaining(v, cr)
            && (w.me.created != v.me.created || Completes(s, e, cr) ==> Remaining(w, cr) < Remaining(v, cr))
  {
    var t := Apply(s, e);
    StepKeepsOrder(s, e, cr);
    var v, w := Look(s, cr), Look(t, cr);
    if e.Reconcile? && e.cr == cr {
      OwnCallKeepsPods(v, cr, e.call);
      assert w == ApplyCall(v, cr, e.call);
    } else {
      OthersAreSteady(s, e, cr);
    }
    FinishedGrows(v, w, cr);
  }

  /** Every decision of an undisturbed run is the one its progress calls for: while a pod is unfinished it
      waits, once all are finished it creates the next one, and once there is no next one it ends. */
  lemma DecisionFollowsRun(v: View, cr: string, listing: seq<string>)
    requires OrderInv(v, cr) && IsListing(v.pods, cr, listing)
    ensures var d := NextAction(PodsOf(v.pods, listing), WorkflowLength(v.me.kind, v.me.spec));
            if !AllFinished(v.pods, cr) then d.action in {Wait, CheckPending} && d.step == |v.me.created| - 1
            else if |v.me.created| < Total(v) then d.action.Creates() && d.step == |v.me.created|
            else d == Decision(EndTesting, Total(v) - 1)
  {
    LastPodIsLastCreated(v, cr, listing);
    var last := LastPod(PodsOf(v.pods, listing));
    if last.value.Some? {
      var n :| LivePod(v.pods, cr, n) && v.pods[n] == last.value.value;
      assert AllFinished(v.pods, cr) ==> v.pods[n].Finished();
    } else {
      NoPodsYet(v, cr);
    }
  }

  lemma NoPodsYet(v: View, cr: string)
    requires OrderInv(v, cr) && v.me.created == []
    ensures AllFinished(v.pods, cr)
  {
    assert forall n :: !LivePod(v.pods, cr, n);
  }

  /** A finished run stays finished, and every later decision ends the testing. */
  lemma DoneDecidesEnd(v: View, cr: string, listing: seq<string>)
    requires OrderInv(v, cr) && Remaining(v, cr) == 0 && IsListing(v.pods, cr, listing)
    ensures NextAction(PodsOf(v.pods, listing), WorkflowLength(v.me.kind, v.me.spec))
            == Decision(EndTesting, Total(v) - 1)
  {
    RemainingCounts(v, cr);
    DecisionFollowsRun(v, cr, listing);
  }

  lemma {:induction false} DoneStaysDone(s: State, run: seq<Event>, cr: string)
    requires Inv(s) && Knows(s, cr) && OrderInv(Look(s, cr), cr) && Remaining(Look(s, cr), cr) == 0
    requires Possible(s, run) && QuietRun(s, run, cr)
    ensures Knows(After(s, run), cr) && OrderInv(Look(After(s, run), cr), cr)
    ensures Remaining(Look(After(s, run), cr), cr) == 0
    decreases |run|
  {
    if run != [] {
      var t := Apply(s, run[0]);
      StepKeepsInv(s, run[0]);
      StepKeepsOrder(s, run[0], cr);
      RemainingFalls(s, run[0], cr);
      RemainingCounts(Look(t, cr), cr);
      DoneStaysDone(t, run[1..], cr);
    }
  }
}
