/**
 Pods are deleted and looked up by name. What a call of one custom resource can do to the pods of
 another, exactly, and why it does nothing when the names of the two are separate.
 */
module NameCollisions {
  import opened Types
  import Decimal
  import opened Decision
  import opened PodNames
  import opened Protocol
  import opened ProtocolSafety
  import opened SampleRuns

  /** Some pod of `other` is gone or different. */
  ghost predicate TouchesPodOf(before: map<string, Pod>, after: map<string, Pod>, other: string) {
    exists n :: n in before && before[n].instance == other && (n !in after || after[n] != before[n])
  }

  /** The call deletes under a name that, at this moment, is the name of a pod of `other`. */
  predicate DeletesPodOf(v: View, call: Call, other: string)
    requires call.DeleteDoomed? ==> v.stage.Deleting? && v.stage.doomed != []
  {
    && call.DeleteDoomed? && call.deletion != DeleteFails
    && var name := v.stage.doomed[0];
       && name in v.pods && v.pods[name].instance == other
       && (call.deletion == Immediate || v.pods[name].Live())
  }

  lemma DeletionTouches(pods: map<string, Pod>, name: string, immediate: bool, other: string)
    ensures TouchesPodOf(pods, DeleteFrom(pods, name, immediate), other)
            <==> name in pods && pods[name].instance == other && (immediate || pods[name].Live())
  {
    var after := DeleteFrom(pods, name, immediate);
    if name in pods && pods[name].instance == other && (immediate || pods[name].Live()) {
      assert name !in after || after[name] != pods[name];
    }
  }

  lemma NoDeletionNoTouch(v: View, cr: string, call: Call, other: string)
    requires CallEnabled(v, cr, call) && !call.DeleteDoomed?
    ensures !TouchesPodOf(v.pods, ApplyCall(v, cr, call).pods, other)
  {
    CallPods(v, cr, call);
  }

  lemma TouchesExactly(v: View, cr: string, call: Call, other: string)
    requires CallEnabled(v, cr, call)
    ensures TouchesPodOf(v.pods, ApplyCall(v, cr, call).pods, other) <==> DeletesPodOf(v, call, other)
  {
    if call.DeleteDoomed? {
      DeletionTouches(v.pods, v.stage.doomed[0], call.deletion == Immediate, other);
    } else {
      NoDeletionNoTouch(v, cr, call, other);
    }
  }

  /** A call of one custom resource touches a pod of another if and only if it deletes under a name that
      is then a name of the other's pods. The other's record, stage and lock it never touches. */
  lemma CallTouchesExactly(s: State, cr: string, call: Call, other: string)
    requires Inv(s) && Enabled(s, Reconcile(cr, call)) && Knows(s, other) && other != cr
    ensures var t := Apply(s, Reconcile(cr, call));
            && Knows(t, other) && t.at[other] == s.at[other] && t.crs[other] == s.crs[other]
            && (HoldsLock(Look(t, other)) <==> HoldsLock(Look(s, other)))
            && (TouchesPodOf(s.pods, t.pods, other) <==> DeletesPodOf(Look(s, cr), call, other))
  {
    CallSparesRecord(s, cr, call, other);
    TouchesExactly(Look(s, cr), cr, call, other);
  }

  // ---- whose names a reconcile works with ------------------------------------------------------

  ghost predicate StageNames(cr: string, stage: Stage) {
    match stage
    case Deleting(doomed) => forall d | d in doomed :: Prints(cr, d)
    case Acquiring(task) => Prints(cr, task.podName)
    case Ensuring(task) => Prints(cr, task.podName)
    case Locked(task) => Prints(cr, task.podName)
    case Prepared(task) => Prints(cr, task.podName)
    case Creating(task) => Prints(cr, task.podName)
    case _ => true
  }

  ghost predicate PodsNamed(pods: map<string, Pod>) {
    forall n | n in pods :: Prints(pods[n].instance, n)
  }

  /** Every pod has a name of its custom resource, and so has whatever is to be created or deleted. */
  ghost predicate NamesInv(s: State) {
    PodsNamed(s.pods) && forall cr | Knows(s, cr) :: StageNames(cr, s.at[cr])
  }

  lemma AfterCheckNames(cr: string, kind: Kind, spec: Spec, decision: Decision)
    requires decision.action.Creates() ==> decision.step >= 0
    ensures StageNames(cr, AfterCheck(cr, kind, spec, decision))
  {
    if decision.action.Creates() {
      PodNameIsOwn(cr, StepNames(kind, spec), decision.step);
    }
  }

  lemma DoomedNames(pods: map<string, Pod>, cr: string, listing: seq<string>)
    requires PodsNamed(pods) && IsListing(pods, cr, listing)
    ensures StageNames(cr, Deleting(LiveNames(pods, listing)))
  {
    forall n | n in listing ensures Prints(cr, n) {
      var k :| 0 <= k < |listing| && listing[k] == n;
    }
  }

  lemma CheckKeepsStageNames(v: View, cr: string, listing: seq<string>, ok: bool)
    requires ViewInv(v, cr) && PodsNamed(v.pods) && CallEnabled(v, cr, CheckConfig(listing, ok))
    ensures StageNames(cr, CheckConfigCall(v, cr, listing, ok).stage)
  {
    AfterCheckNames(cr, v.me.kind, v.stage.spec, v.stage.decision);
    DoomedNames(v.pods, cr, listing);
  }

  lemma CallKeepsStageNames(v: View, cr: string, call: Call)
    requires ViewInv(v, cr) && PodsNamed(v.pods) && StageNames(cr, v.stage) && CallEnabled(v, cr, call)
    ensures StageNames(cr, ApplyCall(v, cr, call).stage)
  {
    if call.CheckConfig? {
      CheckKeepsStageNames(v, cr, call.listing, call.ok);
    }
  }

  lemma CallKeepsPodNames(v: View, cr: string, call: Call)
    requires PodsNamed(v.pods) && StageNames(cr, v.stage) && CallEnabled(v, cr, call)
    ensures PodsNamed(ApplyCall(v, cr, call).pods)
  {
    CallPods(v, cr, call);
  }

  lemma CallKeepsNames(s: State, cr: string, call: Call)
    requires Inv(s) && NamesInv(s) && Enabled(s, Reconcile(cr, call))
    ensures NamesInv(Apply(s, Reconcile(cr, call)))
  {
    var v := Look(s, cr);
    assert ViewInv(v, cr);
    CallKeepsStageNames(v, cr, call);
    CallKeepsPodNames(v, cr, call);
  }

  lemma EnvKeepsNames(s: State, e: EnvEvent)
    requires NamesInv(s) && EnvEnabled(s, e)
    ensures NamesInv(ApplyExternal(s, e))
  {
    if e.ChangePhase? || e.DeletePod? || e.RemovePod? {
      EnvKeepsInstances(s, e);
    }
  }

  lemma StepKeepsNames(s: State, e: Event)
    requires Inv(s) && NamesInv(s) && Enabled(s, e)
    ensures NamesInv(Apply(s, e))
  {
    if e.Reconcile? {
      CallKeepsNames(s, e.cr, e.call);
    } else {
      EnvKeepsNames(s, e.env);
    }
  }

  lemma {:induction false} RunKeepsNames(s: State, run: seq<Event>)
    requires Inv(s) && NamesInv(s) && Possible(s, run)
    ensures NamesInv(After(s, run))
    decreases |run|
  {
    if run != [] {
      StepKeepsInv(s, run[0]);
      StepKeepsNames(s, run[0]);
      RunKeepsNames(Apply(s, run[0]), run[1..]);
    }
  }

  // ---- separate names --------------------------------------------------------------------------

  /** In any run, a custom resource never touches a pod of another whose name is separate from its own. */
  lemma SeparateNamesKeepApart(start: State, run: seq<Event>, cr: string, call: Call, other: string)
    requires Start(start) && Possible(start, run) && Enabled(After(start, run), Reconcile(cr, call))
    requires Knows(After(start, run), other) && Separate(cr, other)
    ensures !TouchesPodOf(After(start, run).pods, Apply(After(start, run), Reconcile(cr, call)).pods, other)
  {
    var s := After(start, run);
    ReachableInv(start, run);
    RunKeepsNames(start, run);
    SharedNames(cr, other);
    CallTouchesExactly(s, cr, call, other);
  }

  /** And a pod that it finds under the name of the pod it is about to create is its own. */
  lemma SeparateNamesFindOwnPod(start: State, run: seq<Event>, cr: string)
    requires Start(start) && Possible(start, run) && Knows(After(start, run), cr)
    requires After(start, run).at[cr].Prepared?
    requires forall other | other in After(start, run).crs && other != cr :: Separate(cr, other)
    ensures var s := After(start, run);
            s.at[cr].task.podName in s.pods ==> s.pods[s.at[cr].task.podName].instance == cr
  {
    var s := After(start, run);
    ReachableInv(start, run);
    RunKeepsNames(start, run);
    var name := s.at[cr].task.podName;
    if name in s.pods {
      SharedNames(cr, s.pods[name].instance);
    }
  }

  // ---- what happens otherwise ------------------------------------------------------------------

  const FIRST := "a"
  const SECOND := "a-s00-x"
  const STEPPED := Spec(true, [StepSpec("x", None)], "")
  const PLAIN := Spec(true, [], "")

  /** The task of its first pod, as a Tobiko in parallel. */
  function FirstTask(cr: string, spec: Spec): Task { TaskFor(cr, Tobiko, spec, 0) }

  /** Both custom resources name their pod of step 0 alike. */
  lemma OneNameForBoth()
    ensures FirstTask(FIRST, STEPPED).podName == SECOND && FirstTask(SECOND, PLAIN).podName == SECOND
  {
    assert StepNames(Tobiko, STEPPED) == ["x"] && StepNames(Tobiko, PLAIN) == [];
    NamesCollide();
    assert "a" + STEP_INFIX + "00-x" == SECOND;
    assert Decimal.FormatNat(0) == "0";
  }

  lemma NothingListed(pods: map<string, Pod>)
    ensures NextAction(PodsOf(pods, []), 0) == Decision(CreateFirstPod, 0)
    ensures NextAction(PodsOf(pods, []), 1) == Decision(CreateFirstPod, 0)
    ensures CurrentHash(PodsOf(pods, [])) == NoHash
  {
    assert PodsOf(pods, []) == [];
  }

  /** A custom resource without pods is added and goes on to build the first one. */
  lemma ComesToBuild(start: State, run: seq<Event>, s: State, cr: string, uid: string, spec: Spec)
    returns (longer: seq<Event>, t: State)
    requires Leads(start, run, s) && EnvEnabled(s, AddInstance(cr, uid, Tobiko, spec))
    requires IsListing(s.pods, cr, []) && spec in {STEPPED, PLAIN}
    ensures Leads(start, longer, t) && Knows(t, cr) && t.crs[cr].uid == uid && UnderWay(t.crs[cr])
    ensures t.crs[cr].kind == Tobiko && t.crs[cr].spec == spec && t.crs[cr].created == []
    ensures t == State(s.lock, s.pods, s.crs[cr := t.crs[cr]], s.at[cr := Locked(FirstTask(cr, spec))])
  {
    NothingListed(s.pods);
    longer, t := Arrives(start, run, s, cr, uid, Tobiko, spec);
    longer, t := Decides(start, longer, t, cr, Tobiko, spec, []);
    longer, t := Locks(start, longer, t, cr, [], FirstTask(cr, spec));
  }

  /** It also builds and creates it. */
  lemma ComesWithPod(start: State, run: seq<Event>, s: State, cr: string, uid: string, spec: Spec)
    returns (longer: seq<Event>, t: State)
    requires Leads(start, run, s) && EnvEnabled(s, AddInstance(cr, uid, Tobiko, spec))
    requires IsListing(s.pods, cr, []) && spec in {STEPPED, PLAIN} && FirstTask(cr, spec).podName !in s.pods
    ensures Leads(start, longer, t) && Resting(t, cr, Tobiko, spec) && t.crs[cr].uid == uid
    ensures t == State(s.lock, t.pods, s.crs[cr := t.crs[cr]], s.at[cr := Idle])
    ensures t.pods == s.pods[FirstTask(cr, spec).podName := NewPod(cr, FirstTask(cr, spec))]
  {
    var m;
    longer, m := ComesToBuild(start, run, s, cr, uid, spec);
    longer, t := Spawns(start, longer, m, cr, FirstTask(cr, spec));
    UpdatedTwice(s.crs, cr, m.crs[cr], t.crs[cr]);
    UpdatedTwice(s.at, cr, m.at[cr], Idle);
  }

  lemma UpdatedTwice<V>(m: map<string, V>, k: string, first: V, last: V)
    ensures m[k := first][k := last] == m[k := last]
  {
  }

  function EmptyNamespace(): State { State(NoLock, map[], map[], map[]) }

  /** A lone pending pod, listed. */
  lemma LonePodListed(pods: map<string, Pod>, cr: string, name: string, pod: Pod)
    requires pods == map[name := pod] && pod.instance == cr && pod.Live() && pod.phase == Pending
    requires pod.stepLabel.Some? && pod.Step() >= 0 && pod.hash != NoHash
    ensures IsListing(pods, cr, [name]) && LiveNames(pods, [name]) == [name]
    ensures var list := PodsOf(pods, [name]);
            NextAction(list, 0) == Decision(CheckPending, pod.Step()) && CurrentHash(list) == pod.hash
  {
    var list := PodsOf(pods, [name]);
    assert list == [pod];
    assert list[..0] == [] && LastPod([]) == Ok(None);
    assert LastPod(list) == Ok(Some(list[0]));
    assert [name][1..] == [];
  }

  /** A custom resource whose lone pod is of another spec dooms it. */
  lemma DoomsPod(start: State, run: seq<Event>, s: State, cr: string, task: Task)
    returns (longer: seq<Event>, t: State)
    requires Leads(start, run, s) && Resting(s, cr, Tobiko, PLAIN) && s.pods == map[task.podName := NewPod(cr, task)]
    requires task.step >= 0 && task.hash !in {NoHash, HashOf(PLAIN)}
    ensures Leads(start, longer, t) && t == s.(at := s.at[cr := Deleting([task.podName])])
  {
    LonePodListed(s.pods, cr, task.podName, NewPod(cr, task));
    longer, t := Decides(start, run, s, cr, Tobiko, PLAIN, [task.podName]);
    longer, t := Does(start, longer, t, cr, CheckConfig([task.podName], true));
  }

  /** "a" creates its pod, its spec is edited, and its next reconcile dooms the pod. */
  lemma FirstDoomsItsPod() returns (run: seq<Event>, t: State)
    ensures Leads(EmptyNamespace(), run, t) && Knows(t, FIRST) && t.crs.Keys == {FIRST}
    ensures t.at[FIRST] == Deleting([SECOND]) && t.crs[FIRST].uid == "1"
    ensures t.pods == map[SECOND := NewPod(FIRST, FirstTask(FIRST, STEPPED))]
  {
    OneNameForBoth();
    var start := EmptyNamespace();
    run, t := ComesWithPod(start, [], start, FIRST, "1", STEPPED);
    run, t := Extend(start, run, t, External(EditSpec(FIRST, PLAIN)));
    run, t := DoomsPod(start, run, t, FIRST, FirstTask(FIRST, STEPPED));
  }

  /** The pod of "a" goes away, and "a-s00-x" is added and creates its own. */
  lemma SecondTakesTheName(start: State, run: seq<Event>, s: State) returns (longer: seq<Event>, t: State)
    requires Leads(start, run, s) && Knows(s, FIRST) && s.crs.Keys == {FIRST} && s.crs[FIRST].uid == "1"
    requires s.pods.Keys == {SECOND}
    ensures Leads(start, longer, t) && Knows(t, FIRST) && Knows(t, SECOND) && t.at[FIRST] == s.at[FIRST]
    ensures LivePod(t.pods, SECOND, SECOND)
  {
    OneNameForBoth();
    longer, t := Extend(start, run, s, External(RemovePod(SECOND)));
    assert t.pods == map[];
    longer, t := ComesWithPod(start, longer, t, SECOND, "2", PLAIN);
  }

  /** A run from an empty namespace: "a" is about to delete its pod; that pod goes away on its own and
      "a-s00-x" creates one of the same name; the delete then takes the pod of "a-s00-x". */
  lemma CollisionTakesForeignPod() returns (start: State, run: seq<Event>)
    ensures Start(start) && Possible(start, run) && Knows(After(start, run), SECOND)
    ensures Enabled(After(start, run), Reconcile(FIRST, DeleteDoomed(Immediate)))
    ensures LivePod(After(start, run).pods, SECOND, SECOND)
    ensures SECOND !in Apply(After(start, run), Reconcile(FIRST, DeleteDoomed(Immediate))).pods
  {
    var t: State;
    start := EmptyNamespace();
    run, t := FirstDoomsItsPod();
    run, t := SecondTakesTheName(start, run, t);
    assert Look(t, FIRST).stage == Deleting([SECOND]);
  }

  /** "a-s00-x" has its pod, and "a" has built the definition of its own. */
  lemma FirstComesSecond() returns (run: seq<Event>, t: State)
    ensures Leads(EmptyNamespace(), run, t) && Knows(t, FIRST) && t.at[FIRST] == Prepared(FirstTask(FIRST, STEPPED))
    ensures t.crs[FIRST].created == [] && t.pods == map[SECOND := NewPod(SECOND, FirstTask(SECOND, PLAIN))]
  {
    OneNameForBoth();
    var start := EmptyNamespace();
    run, t := ComesWithPod(start, [], start, SECOND, "2", PLAIN);
    run, t := ComesToBuild(start, run, t, FIRST, "1", STEPPED);
    run, t := Prepares(start, run, t, FIRST, FirstTask(FIRST, STEPPED));
  }

  /** Another run from an empty namespace: "a" is about to create its first pod, finds that of "a-s00-x"
      under the name and goes on as if it had created it, without a pod of its own. */
  lemma CollisionAdoptsForeignPod() returns (start: State, run: seq<Event>)
    ensures Start(start) && Possible(start, run) && Knows(After(start, run), FIRST)
    ensures Enabled(After(start, run), Reconcile(FIRST, LookupPod(true)))
    ensures var t := Apply(After(start, run), Reconcile(FIRST, LookupPod(true)));
            && Knows(t, FIRST) && t.at[FIRST] == Created && t.crs[FIRST].created == []
            && (forall n :: !LivePod(t.pods, FIRST, n)) && LivePod(t.pods, SECOND, SECOND)
  {
    var t: State;
    OneNameForBoth();
    start := EmptyNamespace();
    run, t := FirstComesSecond();
    assert Look(t, FIRST).stage == Prepared(FirstTask(FIRST, STEPPED));
  }

  // ---- exactly which names ---------------------------------------------------------------------

  ghost predicate TouchesIn(start: State, run: seq<Event>, cr: string, call: Call, other: string) {
    && Start(start) && Possible(start, run) && Knows(After(start, run), other)
    && Enabled(After(start, run), Reconcile(cr, call))
    && TouchesPodOf(After(start, run).pods, Apply(After(start, run), Reconcile(cr, call)).pods, other)
  }

  /** In some run from an empty namespace a call of `cr` touches a pod of `other`. */
  ghost predicate CanTouch(cr: string, other: string) {
    exists start, run, call :: TouchesIn(start, run, cr, call, other)
  }

  /** A Tobiko in parallel whose first `i` + 1 steps are called `step`. */
  function StepsOf(i: nat, step: string): Spec { Spec(true, seq(i + 1, _ => StepSpec(step, None)), "") }

  function StepTask(cr: string, i: nat, step: string): Task { TaskFor(cr, Tobiko, StepsOf(i, step), i) }

  lemma StepTaskName(cr: string, i: nat, step: string)
    requires step != ""
    ensures StepTask(cr, i, step).podName == StepPodName(cr, i, step)
  {
    var names := StepNames(Tobiko, StepsOf(i, step));
    assert |names| == i + 1 && names[i] == step;
  }

  /** From no pods at all a custom resource works its way up to its pod of step `k`. */
  lemma ReachesStep(start: State, run: seq<Event>, s: State, c: Course, k: nat)
    returns (longer: seq<Event>, t: State)
    requires Leads(start, run, s) && HasDone(s, c, 0) && k < c.Total()
    ensures Leads(start, longer, t) && Differs(s, t, c.cr, Idle) && Resting(t, c.cr, c.kind, c.spec)
    ensures c.NameOf(k) in t.pods && t.pods[c.NameOf(k)] == NewPod(c.cr, c.TaskOf(k))
  {
    var m;
    longer, m := DoesSteps(start, run, s, c, k);
    longer, t := CreatesStep(start, longer, m, c, k);
    DiffersFurther(s, m, t, c.cr, Idle, Idle);
  }

  /** A custom resource is added to a namespace without pods and works its way up to its pod of step `i`. */
  lemma ComesToStep(start: State, run: seq<Event>, s: State, cr: string, uid: string, i: nat, step: string)
    returns (longer: seq<Event>, t: State)
    requires Leads(start, run, s) && s.pods == map[] && EnvEnabled(s, AddInstance(cr, uid, Tobiko, StepsOf(i, step)))
    ensures Leads(start, longer, t) && Resting(t, cr, Tobiko, StepsOf(i, step)) && t.crs[cr].uid == uid
    ensures t.crs == s.crs[cr := t.crs[cr]] && t.at == s.at[cr := Idle]
    ensures var task := StepTask(cr, i, step); task.podName in t.pods && t.pods[task.podName] == NewPod(cr, task)
  {
    var c := Course(cr, Tobiko, StepsOf(i, step), {});
    var m;
    longer, m := Arrives(start, run, s, cr, uid, Tobiko, StepsOf(i, step));
    longer, t := ReachesStep(start, longer, m, c, i);
  }

  /** It is left with that pod, its spec is edited, it dooms the pod, and the pod goes away on its own. */
  lemma DoomsLostPod(cr: string, i: nat, step: string) returns (run: seq<Event>, t: State)
    ensures Leads(EmptyNamespace(), run, t) && t.crs.Keys == {cr} && t.crs[cr].uid == "1" && t.at.Keys == {cr}
    ensures t.at[cr] == Deleting([StepTask(cr, i, step).podName]) && t.pods == map[]
  {
    var start, task := EmptyNamespace(), StepTask(cr, i, step);
    run, t := ComesToStep(start, [], start, cr, "1", i, step);
    run, t := PodsGoAway(start, run, t, {task.podName});
    run, t := Extend(start, run, t, External(EditSpec(cr, PLAIN)));
    assert t.pods == map[task.podName := NewPod(cr, task)];
    run, t := DoomsPod(start, run, t, cr, task);
    run, t := PodsGoAway(start, run, t, {});
    assert t.pods == map[];
  }

  lemma SharedNameTouches(cr: string, i: nat, step: string, other: string, j: nat, otherStep: string)
    requires cr != other && StepTask(cr, i, step).podName == StepTask(other, j, otherStep).podName
    ensures CanTouch(cr, other)
  {
    var start := EmptyNamespace();
    var run, t := DoomsLostPod(cr, i, step);
    run, t := ComesToStep(start, run, t, other, "2", j, otherStep);
    TouchesExactly(Look(t, cr), cr, DeleteDoomed(Immediate), other);
    assert TouchesIn(start, run, cr, DeleteDoomed(Immediate), other);
  }

  lemma ContinuedTouches(a: string, b: string)
    requires a != b && Continues(a, b)
    ensures CanTouch(a, b) && CanTouch(b, a)
  {
    var i, step := ContinuedIsShared(a, b);
    StepTaskName(a, i, step);
    StepTaskName(b, 0, "x");
    SharedNameTouches(a, i, step, b, 0, "x");
    SharedNameTouches(b, 0, "x", a, i, step);
  }

  /** One custom resource can touch a pod of another, in some run, exactly when their names are not
      separate. */
  lemma NamesCollideExactly(cr: string, other: string)
    requires cr != other
    ensures CanTouch(cr, other) <==> !Separate(cr, other)
  {
    if start, run, call :| TouchesIn(start, run, cr, call, other) {
      if Separate(cr, other) {
        SeparateNamesKeepApart(start, run, cr, call, other);
      }
    }
    if Continues(cr, other) {
      ContinuedTouches(cr, other);
    } else if Continues(other, cr) {
      ContinuedTouches(other, cr);
    }
  }
}
