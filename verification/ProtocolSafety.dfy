/**
 What every reachable state of the protocol keeps: mutual exclusion of non-parallel test pods, the
 lock's meaning, one configuration and one runner per custom resource.
 */
module ProtocolSafety {
  import opened Types
  import opened Decision
  import opened Protocol
  import PodNames

  /** `n` names a live pod of the custom resource. */
  predicate LivePod(pods: map<string, Pod>, cr: string, n: string) {
    n in pods && pods[n].instance == cr && pods[n].Live()
  }

  ghost predicate AllFinished(pods: map<string, Pod>, cr: string) {
    forall n | LivePod(pods, cr, n) :: pods[n].Finished()
  }

  /** Every live pod of the custom resource is finished and of a lower step. */
  ghost predicate AllFinishedBelow(pods: map<string, Pod>, cr: string, step: int) {
    forall n | LivePod(pods, cr, n) :: pods[n].Finished() && pods[n].Step() < step
  }

  ghost predicate AllCarry(pods: map<string, Pod>, cr: string, hash: ConfigHash) {
    forall n | LivePod(pods, cr, n) :: pods[n].hash == hash
  }

  predicate HoldsLock(v: View) { v.lock.HeldBy(v.me.uid) }

  /** Live pods have readable steps and a hash, one hash among them, and only the one of highest
      step may be unfinished. */
  ghost predicate OneRunner(pods: map<string, Pod>, cr: string) {
    && (forall n | LivePod(pods, cr, n) ::
          pods[n].stepLabel.Some? && pods[n].Step() >= 0 && pods[n].hash != NoHash)
    && (forall n, m | LivePod(pods, cr, n) && LivePod(pods, cr, m) && n != m ::
          && pods[n].hash == pods[m].hash
          && pods[n].Step() != pods[m].Step()
          && (pods[n].Step() < pods[m].Step() ==> pods[n].Finished()))
  }

  /** A live unfinished pod that is not parallel. */
  predicate Exclusive(pods: map<string, Pod>, cr: string, n: string) {
    LivePod(pods, cr, n) && !pods[n].Finished() && !pods[n].parallel
  }

  /** An exclusive pod runs under the lock of its custom resource. */
  ghost predicate RunsUnderLock(v: View, cr: string) {
    forall n | Exclusive(v.pods, cr, n) :: HoldsLock(v)
  }

  ghost predicate DecisionInv(pods: map<string, Pod>, cr: string, decision: Decision, seen: ConfigHash) {
    && AllCarry(pods, cr, seen)
    && (decision.action.Creates() ==> decision.step >= 0 && AllFinishedBelow(pods, cr, decision.step))
    && (decision.action == EndTesting ==> AllFinished(pods, cr))
  }

  ghost predicate TaskInv(pods: map<string, Pod>, cr: string, task: Task) {
    && task.hash == HashOf(task.spec) && task.step >= 0
    && AllCarry(pods, cr, task.hash)
    && AllFinishedBelow(pods, cr, task.step)
  }

  ghost predicate StageInv(v: View, cr: string) {
    match v.stage
    case Decided(spec, decision, seen) => DecisionInv(v.pods, cr, decision, seen)
    case Acquiring(task) => TaskInv(v.pods, cr, task)
    case Ensuring(task) => TaskInv(v.pods, cr, task)
    case Locked(task) => TaskInv(v.pods, cr, task) && (!task.parallel ==> HoldsLock(v))
    case Prepared(task) => TaskInv(v.pods, cr, task) && (!task.parallel ==> HoldsLock(v))
    case Creating(task) => TaskInv(v.pods, cr, task) && (!task.parallel ==> HoldsLock(v))
    case Releasing(_) => AllFinished(v.pods, cr)
    case Holding(_) => AllFinished(v.pods, cr) && HoldsLock(v)
    case _ => true
  }

  ghost predicate ViewInv(v: View, cr: string) {
    OneRunner(v.pods, cr) && RunsUnderLock(v, cr) && StageInv(v, cr)
  }

  ghost predicate WellFormed(s: State) {
    && s.at.Keys == s.crs.Keys
    && (forall n | n in s.pods :: s.pods[n].instance in s.crs)
    && (forall i | i in s.crs :: s.crs[i].uid != "")
    && (forall i, j | i in s.crs && j in s.crs && s.crs[i].uid == s.crs[j].uid :: i == j)
  }

  ghost predicate Inv(s: State) {
    WellFormed(s) && forall cr | Knows(s, cr) :: ViewInv(Look(s, cr), cr)
  }

  // ---- interference ----------------------------------------------------------------------------

  /** The live pods of `cr` are among the old ones and no less finished. */
  ghost predicate PodsShrink(before: map<string, Pod>, after: map<string, Pod>, cr: string) {
    forall n | LivePod(after, cr, n) ::
      && LivePod(before, cr, n)
      && after[n].stepLabel == before[n].stepLabel && after[n].hash == before[n].hash
      && after[n].parallel == before[n].parallel
      && (before[n].Finished() ==> after[n].Finished())
  }

  /** Nothing that `cr` relies on got worse. */
  ghost predicate Undisturbed(v: View, w: View, cr: string) {
    && w.stage == v.stage && w.me.uid == v.me.uid
    && PodsShrink(v.pods, w.pods, cr)
    && (HoldsLock(v) ==> HoldsLock(w))
  }

  lemma ShrinkKeepsPodClaims(before: map<string, Pod>, after: map<string, Pod>, cr: string)
    requires PodsShrink(before, after, cr)
    ensures OneRunner(before, cr) ==> OneRunner(after, cr)
    ensures forall h | AllCarry(before, cr, h) :: AllCarry(after, cr, h)
    ensures forall k | AllFinishedBelow(before, cr, k) :: AllFinishedBelow(after, cr, k)
    ensures AllFinished(before, cr) ==> AllFinished(after, cr)
  {
  }

  lemma UndisturbedKeepsInv(v: View, w: View, cr: string)
    requires Undisturbed(v, w, cr) && ViewInv(v, cr)
    ensures ViewInv(w, cr)
  {
    ShrinkKeepsPodClaims(v.pods, w.pods, cr);
    forall n | Exclusive(w.pods, cr, n) ensures HoldsLock(w) {
      assert Exclusive(v.pods, cr, n);
    }
  }

  lemma DeletionShrinks(pods: map<string, Pod>, name: string, immediate: bool, cr: string)
    ensures PodsShrink(pods, DeleteFrom(pods, name, immediate), cr)
  {
  }

  lemma CallPods(v: View, cr: string, call: Call)
    requires CallEnabled(v, cr, call)
    ensures var w := ApplyCall(v, cr, call);
            || w.pods == v.pods
            || (call.DeleteDoomed? && w.pods == DeleteFrom(v.pods, v.stage.doomed[0], call.deletion == Immediate))
            || (call.CreatePod? && v.stage.task.podName !in v.pods
                && w.pods == v.pods[v.stage.task.podName := NewPod(cr, v.stage.task)])
  {
  }

  lemma CallLock(v: View, cr: string, call: Call)
    requires CallEnabled(v, cr, call)
    ensures var w := ApplyCall(v, cr, call);
            || w.lock == v.lock
            || (call.EnsureLock? && v.lock.NoLock? && w.lock == LockObject(Some(v.me.uid)))
            || (call.ReleaseDelete? && w.lock == NoLock)
    ensures ApplyCall(v, cr, call).me.uid == v.me.uid
  {
  }

  lemma CallShrinks(v: View, cr: string, call: Call, other: string)
    requires CallEnabled(v, cr, call) && other != cr
    ensures PodsShrink(v.pods, ApplyCall(v, cr, call).pods, other)
  {
    var w := ApplyCall(v, cr, call);
    CallPods(v, cr, call);
    if call.DeleteDoomed? && w.pods != v.pods {
      DeletionShrinks(v.pods, v.stage.doomed[0], call.deletion == Immediate, other);
    }
  }

  /** A call of one custom resource never disturbs another. */
  lemma CallLeavesOthersAlone(s: State, cr: string, call: Call, other: string)
    requires Inv(s) && Enabled(s, Reconcile(cr, call)) && Knows(s, other) && other != cr
    ensures Undisturbed(Look(s, other), Look(Apply(s, Reconcile(cr, call)), other), other)
  {
    CallShrinks(Look(s, cr), cr, call, other);
    CallLock(Look(s, cr), cr, call);
    assert ViewInv(Look(s, cr), cr);
  }

  lemma CallSparesRecord(s: State, cr: string, call: Call, me: string)
    requires Inv(s) && Enabled(s, Reconcile(cr, call)) && Knows(s, me) && cr != me
    ensures var t := Apply(s, Reconcile(cr, call));
            && Knows(t, me) && t.at[me] == s.at[me] && t.crs[me] == s.crs[me]
            && (HoldsLock(Look(t, me)) <==> HoldsLock(Look(s, me)))
  {
    CallLeavesOthersAlone(s, cr, call, me);
    CallLock(Look(s, cr), cr, call);
  }

  lemma EnvLeavesAllAlone(s: State, e: EnvEvent, cr: string)
    requires Inv(s) && EnvEnabled(s, e) && Knows(s, cr)
    ensures Undisturbed(Look(s, cr), Look(ApplyExternal(s, e), cr), cr)
  {
    match e
    case DeletePod(pod) => DeletionShrinks(s.pods, pod, false, cr);
    case RemovePod(pod) => DeletionShrinks(s.pods, pod, true, cr);
    case ChangePhase(pod, phase) => assert PodsShrink(s.pods, ApplyExternal(s, e).pods, cr);
    case _ =>
  }

  // ---- the reconcile's own calls ---------------------------------------------------------------

  lemma ListingHasLive(pods: map<string, Pod>, cr: string, listing: seq<string>, n: string)
    requires IsListing(pods, cr, listing) && LivePod(pods, cr, n)
    ensures pods[n] in PodsOf(pods, listing)
  {
    var k :| 0 <= k < |listing| && listing[k] == n;
    assert PodsOf(pods, listing)[k] == pods[n];
  }

  lemma ListedIsOwn(pods: map<string, Pod>, cr: string, listing: seq<string>, pod: Pod) returns (n: string)
    requires IsListing(pods, cr, listing) && pod in PodsOf(pods, listing)
    ensures n in pods && pods[n] == pod && pod.instance == cr
  {
    var k :| 0 <= k < |listing| && PodsOf(pods, listing)[k] == pod;
    n := listing[k];
  }

  /** Every listed live pod has a readable label, so GetLastPod meets no error. */
  lemma ListedAreReadable(pods: map<string, Pod>, cr: string, listing: seq<string>)
    requires IsListing(pods, cr, listing) && OneRunner(pods, cr)
    ensures LastPod(PodsOf(pods, listing)).Ok?
  {
    var list := PodsOf(pods, listing);
    LastPodIsHighest(list);
    forall pod | pod in list && pod.Live() ensures pod.stepLabel.Some? {
      var m := ListedIsOwn(pods, cr, listing, pod);
      assert LivePod(pods, cr, m);
    }
  }

  lemma HighestKnowsAll(pods: map<string, Pod>, cr: string, m: string)
    requires OneRunner(pods, cr) && LivePod(pods, cr, m)
    requires forall n | LivePod(pods, cr, n) :: pods[n].Step() <= pods[m].Step()
    ensures AllCarry(pods, cr, pods[m].hash)
    ensures pods[m].Finished() ==> AllFinishedBelow(pods, cr, pods[m].Step() + 1)
  {
    forall n | LivePod(pods, cr, n) && n != m
      ensures pods[n].hash == pods[m].hash && pods[n].Finished() && pods[n].Step() < pods[m].Step() {}
  }

  /** NextAction turns the pod invariant into the decision's claim about the live pods. */
  lemma DecideEstablishes(pods: map<string, Pod>, cr: string, listing: seq<string>, workflowLength: nat)
    requires IsListing(pods, cr, listing) && OneRunner(pods, cr)
    ensures var list := PodsOf(pods, listing);
            DecisionInv(pods, cr, NextAction(list, workflowLength), SeenHash(list))
  {
    var list := PodsOf(pods, listing);
    LastPodIsHighest(list);
    var last := LastPod(list);
    forall n | LivePod(pods, cr, n) ensures pods[n] in list { ListingHasLive(pods, cr, listing, n); }
    ListedAreReadable(pods, cr, listing);
    if last.value.Some? {
      var m := ListedIsOwn(pods, cr, listing, last.value.value);
      HighestKnowsAll(pods, cr, m);
    }
  }

  lemma {:induction false} CurrentHashIsSome(list: seq<Pod>, pod: Pod)
    requires pod in list && pod.Live() && pod.hash != NoHash
    ensures exists p :: p in list && p.Live() && p.hash != NoHash && CurrentHash(list) == p.hash
  {
    if !(list[0].Live() && list[0].hash != NoHash) {
      assert list == [list[0]] + list[1..];
      CurrentHashIsSome(list[1..], pod);
    }
  }

  lemma {:induction false} HashComesFromLive(list: seq<Pod>)
    requires CurrentHash(list) != NoHash
    ensures exists p :: p in list && p.Live() && p.hash == CurrentHash(list)
  {
    if !(list[0].Live() && list[0].hash != NoHash) {
      HashComesFromLive(list[1..]);
    }
  }

  /** Where every live pod carries the hash in hand, the config check finds no other. */
  lemma CheckPasses(v: View, cr: string, listing: seq<string>)
    requires AllCarry(v.pods, cr, HashOf(v.me.spec)) && IsListing(v.pods, cr, listing)
    ensures CurrentHash(PodsOf(v.pods, listing)) in {NoHash, HashOf(v.me.spec)}
  {
    var list := PodsOf(v.pods, listing);
    if CurrentHash(list) != NoHash {
      HashComesFromLive(list);
      var p :| p in list && p.Live() && p.hash == CurrentHash(list);
      var m := ListedIsOwn(v.pods, cr, listing, p);
      assert LivePod(v.pods, cr, m);
    }
  }

  /** Passing the config check means every live pod carries the hash of the spec in hand. */
  lemma CheckEstablishes(pods: map<string, Pod>, cr: string, listing: seq<string>, spec: Spec)
    requires IsListing(pods, cr, listing) && OneRunner(pods, cr)
    requires CurrentHash(PodsOf(pods, listing)) in {NoHash, HashOf(spec)}
    ensures AllCarry(pods, cr, HashOf(spec))
  {
    var list := PodsOf(pods, listing);
    forall n | LivePod(pods, cr, n) ensures pods[n].hash == HashOf(spec) {
      ListingHasLive(pods, cr, listing, n);
      CurrentHashIsSome(list, pods[n]);
      var p :| p in list && p.Live() && p.hash != NoHash && CurrentHash(list) == p.hash;
      var m := ListedIsOwn(pods, cr, listing, p);
      assert LivePod(pods, cr, m);
    }
  }

  /** Whether a kind runs the pod of a step in parallel: an AnsibleTest never does, a step of a Tempest may
      say so itself, and otherwise the spec says. */
  predicate RunsInParallel(kind: Kind, spec: Spec, step: int) {
    match kind
    case AnsibleTest => false
    case Tempest =>
      if 0 <= step < |spec.workflow| && spec.workflow[step].parallel != None then spec.workflow[step].parallel.value
      else spec.parallel
    case Tobiko | HorizonTest => spec.parallel
  }

  /** A passing config check takes a decision to create on to the pod of the decided step, past the lock
      exactly when that pod runs in parallel; it starts the release of a run that is over; and it ends the
      reconcile of one that waits. */
  lemma CheckGoesOn(v: View, cr: string, listing: seq<string>)
    requires CallEnabled(v, cr, CheckConfig(listing, true))
    requires CurrentHash(PodsOf(v.pods, listing)) in {NoHash, HashOf(v.stage.spec)}
    ensures var w, decision := CheckConfigCall(v, cr, listing, true), v.stage.decision;
            match decision.action
            case CreateFirstPod | CreateNextPod =>
              && w == v.(stage := w.stage)
              && (if RunsInParallel(v.me.kind, v.stage.spec, decision.step) then w.stage.Locked?
                  else w.stage.Acquiring?)
              && w.stage.task.spec == v.stage.spec && w.stage.task.hash == HashOf(v.stage.spec)
              && w.stage.task.step == decision.step
              && w.stage.task.podName
                 == PodNames.GetPodName(cr, StepNames(v.me.kind, v.stage.spec), decision.step)
              && w.stage.task.parallel == RunsInParallel(v.me.kind, v.stage.spec, decision.step)
            case EndTesting => w == v.(stage := Releasing(AtEnd))
            case _ => w.stage == Idle
  {
  }

  predicate EachOnce(names: seq<string>) {
    forall j, k | 0 <= j < k < |names| :: names[j] != names[k]
  }

  lemma {:induction false} LiveNamesOnce(pods: map<string, Pod>, listing: seq<string>)
    requires (forall n | n in listing :: n in pods) && EachOnce(listing)
    ensures EachOnce(LiveNames(pods, listing))
  {
    if listing != [] {
      var rest := LiveNames(pods, listing[1..]);
      assert EachOnce(listing[1..]);
      LiveNamesOnce(pods, listing[1..]);
      assert listing[0] !in listing[1..];
      assert forall k | 0 <= k < |rest| :: rest[k] in rest;
      assert EachOnce([listing[0]] + rest);
      assert LiveNames(pods, listing) == if pods[listing[0]].Live() then [listing[0]] + rest else [] + rest;
      assert [] + rest == rest;
    }
  }

  /** A foreign hash dooms exactly the live pods, each once. */
  lemma CheckDooms(v: View, cr: string, listing: seq<string>)
    requires v.stage.Decided? && IsListing(v.pods, cr, listing)
    requires CurrentHash(PodsOf(v.pods, listing)) !in {NoHash, HashOf(v.stage.spec)}
    ensures var w := CheckConfigCall(v, cr, listing, true);
            && w == v.(stage := w.stage) && w.stage.Deleting?
            && (forall n :: n in w.stage.doomed <==> LivePod(v.pods, cr, n))
            && EachOnce(w.stage.doomed)
  {
    LiveNamesOnce(v.pods, listing);
    forall n | n in listing ensures n in v.pods && v.pods[n].instance == cr {
      var k :| 0 <= k < |listing| && listing[k] == n;
    }
    forall n ensures n in LiveNames(v.pods, listing) <==> LivePod(v.pods, cr, n) {}
  }

  lemma CreateKeepsInv(v: View, cr: string, ok: bool)
    requires ViewInv(v, cr) && v.stage.Creating?
    ensures ViewInv(CreatePodCall(v, cr, ok), cr)
  {
    var w := CreatePodCall(v, cr, ok);
    if w.pods != v.pods {
      AddedPodRuns(v.pods, cr, v.stage.task);
      assert HoldsLock(w) <==> HoldsLock(v);
    }
  }

  /** Above finished pods of its own hash a new pod is the one runner. */
  lemma AddedPodRuns(pods: map<string, Pod>, cr: string, task: Task)
    requires OneRunner(pods, cr) && TaskInv(pods, cr, task) && task.podName !in pods
    ensures var after := pods[task.podName := NewPod(cr, task)];
            && OneRunner(after, cr)
            && forall n | Exclusive(after, cr, n) :: !task.parallel
  {
    var after := pods[task.podName := NewPod(cr, task)];
    assert forall n | LivePod(after, cr, n) && n != task.podName :: LivePod(pods, cr, n) && after[n] == pods[n];
  }

  lemma CheckKeepsInv(v: View, cr: string, listing: seq<string>, ok: bool)
    requires ViewInv(v, cr) && CallEnabled(v, cr, CheckConfig(listing, ok))
    ensures ViewInv(CheckConfigCall(v, cr, listing, ok), cr)
  {
    var w := CheckConfigCall(v, cr, listing, ok);
    assert w.pods == v.pods && w.lock == v.lock && w.me.uid == v.me.uid;
    if ok && CurrentHash(PodsOf(v.pods, listing)) in {NoHash, HashOf(v.stage.spec)} {
      CheckEstablishes(v.pods, cr, listing, v.stage.spec);
      NextStageInv(w, cr, v.me.kind, v.stage.spec, v.stage.decision, v.stage.seen);
    }
  }

  lemma NextStageInv(w: View, cr: string, kind: Kind, spec: Spec, decision: Decision, seen: ConfigHash)
    requires AllCarry(w.pods, cr, HashOf(spec)) && DecisionInv(w.pods, cr, decision, seen)
    requires w.stage == AfterCheck(cr, kind, spec, decision)
    ensures StageInv(w, cr)
  {
  }

  lemma DeleteKeepsInv(v: View, cr: string, outcome: DeleteOutcome)
    requires ViewInv(v, cr) && v.stage.Deleting? && v.stage.doomed != []
    ensures ViewInv(DeleteDoomedCall(v, outcome), cr)
  {
    var w := DeleteDoomedCall(v, outcome);
    DeletionShrinks(v.pods, v.stage.doomed[0], outcome == Immediate, cr);
    ShrinkKeepsPodClaims(v.pods, w.pods, cr);
    forall n | Exclusive(w.pods, cr, n) ensures HoldsLock(w) {
      assert Exclusive(v.pods, cr, n);
    }
  }

  lemma AcquireCallKeepsInv(v: View, cr: string, call: Call)
    requires ViewInv(v, cr) && CallEnabled(v, cr, call) && (call.ReadLock? || call.EnsureLock?)
    ensures ViewInv(ApplyCall(v, cr, call), cr)
  {
    assert ApplyCall(v, cr, call).pods == v.pods;
  }

  lemma ReleaseCallKeepsInv(v: View, cr: string, call: Call)
    requires ViewInv(v, cr) && CallEnabled(v, cr, call)
    requires call.ReleaseRead? || call.ReleaseDelete? || call.ReleasePoll?
    ensures ViewInv(ApplyCall(v, cr, call), cr)
  {
    assert ApplyCall(v, cr, call).pods == v.pods;
  }

  lemma OwnCallKeepsInv(v: View, cr: string, call: Call)
    requires ViewInv(v, cr) && CallEnabled(v, cr, call)
    ensures ViewInv(ApplyCall(v, cr, call), cr)
  {
    match call
    case Decide(listing, ok) =>
      DecideEstablishes(v.pods, cr, listing, WorkflowLength(v.me.kind, v.stage.spec));
    case CheckConfig(listing, ok) => CheckKeepsInv(v, cr, listing, ok);
    case DeleteDoomed(outcome) => DeleteKeepsInv(v, cr, outcome);
    case CreatePod(ok) => CreateKeepsInv(v, cr, ok);
    case Prepare(outcome) => assert PrepareCall(v, outcome).pods == v.pods;
    case Fetch | LookupPod(_) | Verify(_) | Restart => assert ApplyCall(v, cr, call).pods == v.pods;
    case ReadLock(_) | EnsureLock(_) => AcquireCallKeepsInv(v, cr, call);
    case _ => ReleaseCallKeepsInv(v, cr, call);
  }

  lemma PutKeepsWellFormed(s: State, cr: string, w: View)
    requires WellFormed(s) && Knows(s, cr) && w.me.uid == s.crs[cr].uid
    requires forall n | n in w.pods ::
               w.pods[n].instance == cr || (n in s.pods && w.pods[n].instance == s.pods[n].instance)
    ensures WellFormed(Put(s, cr, w))
  {
    assert forall i | i in s.crs :: Put(s, cr, w).crs[i].uid == s.crs[i].uid;
  }

  lemma CallKeepsWellFormed(s: State, cr: string, call: Call)
    requires WellFormed(s) && Enabled(s, Reconcile(cr, call))
    ensures WellFormed(Apply(s, Reconcile(cr, call)))
  {
    CallPods(Look(s, cr), cr, call);
    CallLock(Look(s, cr), cr, call);
    PutKeepsWellFormed(s, cr, ApplyCall(Look(s, cr), cr, call));
  }

  lemma EnvKeepsWellFormed(s: State, e: EnvEvent)
    requires WellFormed(s) && EnvEnabled(s, e)
    ensures WellFormed(ApplyExternal(s, e))
  {
    match e
    case AddInstance(_, _, _, _) | EditSpec(_, _) => assert ApplyExternal(s, e).pods == s.pods;
    case _ => EnvKeepsInstances(s, e);
  }

  lemma EnvKeepsInstances(s: State, e: EnvEvent)
    requires EnvEnabled(s, e) && (e.ChangePhase? || e.DeletePod? || e.RemovePod?)
    ensures var t := ApplyExternal(s, e);
            && t == s.(pods := t.pods)
            && forall n | n in t.pods :: n in s.pods && t.pods[n].instance == s.pods[n].instance
  {
  }

  lemma StepKeepsInv(s: State, e: Event)
    requires Inv(s) && Enabled(s, e)
    ensures Inv(Apply(s, e))
  {
    var t := Apply(s, e);
    if e.External? { EnvKeepsWellFormed(s, e.env); } else { CallKeepsWellFormed(s, e.cr, e.call); }
    forall cr | Knows(t, cr) ensures ViewInv(Look(t, cr), cr) {
      match e
      case External(env) =>
        if Knows(s, cr) {
          EnvLeavesAllAlone(s, env, cr);
          UndisturbedKeepsInv(Look(s, cr), Look(t, cr), cr);
        }
      case Reconcile(actor, call) =>
        if cr == actor {
          OwnCallKeepsInv(Look(s, cr), cr, call);
          assert Look(t, cr) == ApplyCall(Look(s, cr), cr, call);
        } else {
          CallLeavesOthersAlone(s, actor, call, cr);
          UndisturbedKeepsInv(Look(s, cr), Look(t, cr), cr);
        }
    }
  }

  lemma {:induction false} RunKeepsInv(s: State, run: seq<Event>)
    requires Inv(s) && Possible(s, run)
    ensures Inv(After(s, run))
    decreases |run|
  {
    if run != [] {
      StepKeepsInv(s, run[0]);
      RunKeepsInv(Apply(s, run[0]), run[1..]);
    }
  }

  // ---- the claims about whole runs -------------------------------------------------------------

  lemma ReachableInv(start: State, run: seq<Event>)
    requires Start(start) && Possible(start, run)
    ensures Inv(After(start, run))
  {
    RunKeepsInv(start, run);
  }

  /** Mutual exclusion: whatever the interleaving, the namespace never has two live unfinished pods
      that were created with an effective `parallel` of false. */
  lemma MutualExclusion(start: State, run: seq<Event>, a: string, n: string, b: string, m: string)
    requires Start(start) && Possible(start, run)
    requires Exclusive(After(start, run).pods, a, n) && Exclusive(After(start, run).pods, b, m)
    ensures a == b && n == m
  {
    var s := After(start, run);
    ReachableInv(start, run);
    assert HoldsLock(Look(s, a)) && HoldsLock(Look(s, b));
  }

  lemma OnlyOwnerLetsGo(s: State, e: Event, a: string)
    requires Inv(s) && Enabled(s, e) && Knows(s, a) && HoldsLock(Look(s, a)) && Apply(s, e).lock != s.lock
    ensures e == Reconcile(a, ReleaseDelete(true)) && Apply(s, e).lock == NoLock && AllFinished(s.pods, a)
  {
    assert e.Reconcile?;
    CallLock(Look(s, e.cr), e.cr, e.call);
    assert ViewInv(Look(s, e.cr), e.cr);
  }

  /** The lock: a live unfinished pod that is not parallel has its custom resource on the lock, and a
      lock on the name of `a` only ever goes away in a release of `a` itself, at a moment when every
      live pod of `a` is finished. */
  lemma LockIsKept(start: State, run: seq<Event>, e: Event, a: string)
    requires Start(start) && Possible(start, run) && Enabled(After(start, run), e)
    requires Knows(After(start, run), a)
    ensures var s, t := After(start, run), Apply(After(start, run), e);
            && (forall n | Exclusive(s.pods, a, n) :: HoldsLock(Look(s, a)))
            && (HoldsLock(Look(s, a)) && t.lock != s.lock ==>
                  e == Reconcile(a, ReleaseDelete(true)) && t.lock == NoLock && AllFinished(s.pods, a))
  {
    var s := After(start, run);
    ReachableInv(start, run);
    assert ViewInv(Look(s, a), a);
    if HoldsLock(Look(s, a)) && Apply(s, e).lock != s.lock {
      OnlyOwnerLetsGo(s, e, a);
    }
  }

  lemma LivePodsShareTheHash(start: State, run: seq<Event>, cr: string, n: string, m: string)
    requires Start(start) && Possible(start, run) && Knows(After(start, run), cr)
    requires LivePod(After(start, run).pods, cr, n) && LivePod(After(start, run).pods, cr, m)
    ensures After(start, run).pods[n].hash == After(start, run).pods[m].hash
  {
    ReachableInv(start, run);
    assert ViewInv(Look(After(start, run), cr), cr);
  }

  /** Configuration isolation: all live pods of a custom resource carry one hash. */
  lemma OneConfiguration(start: State, run: seq<Event>, cr: string)
    requires Start(start) && Possible(start, run) && Knows(After(start, run), cr)
    ensures var pods := After(start, run).pods;
            forall n, m | LivePod(pods, cr, n) && LivePod(pods, cr, m) :: pods[n].hash == pods[m].hash
  {
    var pods := After(start, run).pods;
    forall n, m | LivePod(pods, cr, n) && LivePod(pods, cr, m)
      ensures pods[n].hash == pods[m].hash
    {
      LivePodsShareTheHash(start, run, cr, n, m);
    }
  }

  lemma CreatedPodMatches(v: View, cr: string, ok: bool, n: string)
    requires ViewInv(v, cr) && v.stage.Creating? && LivePod(CreatePodCall(v, cr, ok).pods, cr, n)
    ensures CreatePodCall(v, cr, ok).pods[n].hash == HashOf(v.stage.task.spec)
  {
  }

  /** And a pod is only created when every live pod carries the hash of the spec it was built from. */
  lemma CreatesForOneConfiguration(start: State, run: seq<Event>, cr: string, ok: bool, n: string)
    requires Start(start) && Possible(start, run) && Knows(After(start, run), cr) && After(start, run).at[cr].Creating?
    requires LivePod(Apply(After(start, run), Reconcile(cr, CreatePod(ok))).pods, cr, n)
    ensures var s := After(start, run);
            Apply(s, Reconcile(cr, CreatePod(ok))).pods[n].hash == HashOf(s.at[cr].task.spec)
  {
    var s := After(start, run);
    ReachableInv(start, run);
    assert ViewInv(Look(s, cr), cr);
    assert Apply(s, Reconcile(cr, CreatePod(ok))).pods == CreatePodCall(Look(s, cr), cr, ok).pods;
    CreatedPodMatches(Look(s, cr), cr, ok, n);
  }

  /** One runner: an unfinished live pod is the live pod of highest step, and the only unfinished one. */
  lemma RunnerIsHighest(start: State, run: seq<Event>, cr: string, n: string, m: string)
    requires Start(start) && Possible(start, run)
    requires var pods := After(start, run).pods;
             LivePod(pods, cr, n) && !pods[n].Finished() && LivePod(pods, cr, m) && m != n
    ensures var pods := After(start, run).pods;
            pods[m].Finished() && pods[m].Step() < pods[n].Step()
  {
    ReachableInv(start, run);
    assert ViewInv(Look(After(start, run), cr), cr);
  }
}
