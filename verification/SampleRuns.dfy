/**
 Pieces from which runs are put together that show how a state can come about: what a reconcile does
 when every call it makes is answered.
 */
module SampleRuns {
  import opened Types
  import opened Conditions
  import opened Decision
  import opened Protocol
  import opened ProtocolSafety
  import opened RunOrder
  import opened StatusTable
  import PodNames

  lemma Does(start: State, run: seq<Event>, s: State, cr: string, call: Call) returns (longer: seq<Event>, t: State)
    requires Leads(start, run, s) && Enabled(s, Reconcile(cr, call))
    ensures longer == run + [Reconcile(cr, call)] && Leads(start, longer, t) && Knows(t, cr)
    ensures t == Put(s, cr, ApplyCall(Look(s, cr), cr, call)) && Look(t, cr) == ApplyCall(Look(s, cr), cr, call)
  {
    longer, t := Extend(start, run, s, Reconcile(cr, call));
  }

  /** Its status has been set up, and its testing has not been reported as done. */
  predicate UnderWay(me: Instance) {
    && me.conditions.Keys == StatusKeys(me.kind) && !Is(me.conditions, DeploymentReady, True)
    && (me.kind.NeedsFinalizer() ==> me.finalizer)
  }

  /** Everything before the end of the deployment has been reported. */
  predicate SetUp(c: StatusMap) {
    forall k | k in c && k != Ready && k != DeploymentReady :: c[k] == True
  }

  /** The custom resource between two reconciles, its status and finalizer set up. */
  predicate AtRest(s: State, cr: string, kind: Kind, spec: Spec) {
    && Knows(s, cr) && s.at[cr] == Idle && s.crs[cr].kind == kind && s.crs[cr].spec == spec
    && s.crs[cr].conditions != map[] && (kind.NeedsFinalizer() ==> s.crs[cr].finalizer)
  }

  /** ... and its testing under way. */
  predicate Resting(s: State, cr: string, kind: Kind, spec: Spec) {
    AtRest(s, cr, kind, spec) && UnderWay(s.crs[cr])
  }

  /** `t` differs from `s` in the record and the stage of `cr`, and in what is given here. */
  predicate Differs(s: State, t: State, cr: string, stage: Stage) {
    && Knows(s, cr) && Knows(t, cr) && t.at == s.at[cr := stage] && t.crs == s.crs[cr := t.crs[cr]]
    && t.crs[cr].uid == s.crs[cr].uid && t.crs[cr].kind == s.crs[cr].kind && t.crs[cr].spec == s.crs[cr].spec
  }

  lemma DiffersFurther(s: State, m: State, t: State, cr: string, first: Stage, last: Stage)
    requires Differs(s, m, cr, first) && Differs(m, t, cr, last)
    ensures Differs(s, t, cr, last)
  {
  }

  lemma NothingDiffers(s: State, cr: string)
    requires Knows(s, cr)
    ensures Differs(s, s, cr, s.at[cr])
  {
  }

  lemma InitialIsUnderWay(kind: Kind, c: StatusMap)
    requires c == OnExit(Initial(kind))
    ensures c.Keys == StatusKeys(kind) && Ready in c && c != map[] && !Is(c, DeploymentReady, True)
  {
    InitialShows(kind);
    assert Ready in StatusKeys(kind);
  }

  /** Its first reconciles set up the status and, for a Tempest, the finalizer. */
  lemma SetsUp(start: State, run: seq<Event>, s: State, cr: string, kind: Kind, spec: Spec)
    returns (longer: seq<Event>, t: State)
    requires Leads(start, run, s) && Knows(s, cr) && s.at[cr] == Idle
    requires s.crs[cr] == Instance(s.crs[cr].uid, kind, spec, map[], false, [])
    ensures Leads(start, longer, t) && Differs(s, t, cr, Idle) && Resting(t, cr, kind, spec)
    ensures t.lock == s.lock && t.pods == s.pods && t.crs[cr].created == []
  {
    longer, t := Does(start, run, s, cr, Fetch);
    InitialIsUnderWay(kind, t.crs[cr].conditions);
    if kind.NeedsFinalizer() {
      longer, t := Does(start, longer, t, cr, Fetch);
    }
  }

  /** A custom resource is added and its status set up. */
  lemma Arrives(start: State, run: seq<Event>, s: State, cr: string, uid: string, kind: Kind, spec: Spec)
    returns (longer: seq<Event>, t: State)
    requires Leads(start, run, s) && EnvEnabled(s, AddInstance(cr, uid, kind, spec))
    ensures Leads(start, longer, t) && Resting(t, cr, kind, spec) && t.crs[cr].uid == uid && t.crs[cr].created == []
    ensures t == State(s.lock, s.pods, s.crs[cr := t.crs[cr]], s.at[cr := Idle])
  {
    longer, t := Extend(start, run, s, External(AddInstance(cr, uid, kind, spec)));
    longer, t := SetsUp(start, longer, t, cr, kind, spec);
  }

  /** It reads its spec and decides. */
  lemma Decides(start: State, run: seq<Event>, s: State, cr: string, kind: Kind, spec: Spec, listing: seq<string>)
    returns (longer: seq<Event>, t: State)
    requires Leads(start, run, s) && AtRest(s, cr, kind, spec) && IsListing(s.pods, cr, listing)
    requires NextAction(PodsOf(s.pods, listing), WorkflowLength(kind, spec)).action != Failure
    ensures Leads(start, longer, t)
    ensures var list := PodsOf(s.pods, listing);
            t == s.(at := s.at[cr := Decided(spec, NextAction(list, WorkflowLength(kind, spec)), SeenHash(list))])
  {
    longer, t := Does(start, run, s, cr, Fetch);
    assert t == s.(at := s.at[cr := Fetched(spec)]);
    longer, t := Does(start, longer, t, cr, Decide(listing, true));
  }

  /** It may go on to build: its pod is parallel, or the lock is free or its own. */
  predicate MayLock(s: State, cr: string, task: Task)
    requires Knows(s, cr)
  {
    task.parallel || s.lock == NoLock || HoldsLock(Look(s, cr))
  }

  lemma ChecksConfig(start: State, run: seq<Event>, s: State, cr: string, listing: seq<string>, task: Task)
    returns (longer: seq<Event>, t: State)
    requires Leads(start, run, s) && Knows(s, cr) && s.at[cr].Decided? && s.at[cr].decision.action.Creates()
    requires IsListing(s.pods, cr, listing) && CurrentHash(PodsOf(s.pods, listing)) in {NoHash, HashOf(s.at[cr].spec)}
    requires task == TaskFor(cr, s.crs[cr].kind, s.at[cr].spec, s.at[cr].decision.step)
    ensures Leads(start, longer, t) && Knows(t, cr)
    ensures t == s.(at := s.at[cr := if task.parallel then Locked(task) else Acquiring(task)])
  {
    longer, t := Does(start, run, s, cr, CheckConfig(listing, true));
  }

  lemma TakesLock(start: State, run: seq<Event>, s: State, cr: string, task: Task)
    returns (longer: seq<Event>, t: State)
    requires Leads(start, run, s) && Knows(s, cr) && s.at[cr] == Acquiring(task)
    requires s.lock == NoLock || HoldsLock(Look(s, cr))
    ensures Leads(start, longer, t)
    ensures t == s.(lock := LockObject(Some(s.crs[cr].uid)), at := s.at[cr := Locked(task)])
  {
    longer, t := Does(start, run, s, cr, ReadLock(true));
    if t.at[cr].Ensuring? {
      longer, t := Does(start, longer, t, cr, EnsureLock(true));
    }
  }

  /** What it has decided passes the config check, and it takes the lock unless its pod is parallel. */
  lemma Locks(start: State, run: seq<Event>, s: State, cr: string, listing: seq<string>, task: Task)
    returns (longer: seq<Event>, t: State)
    requires Leads(start, run, s) && Knows(s, cr) && s.at[cr].Decided? && s.at[cr].decision.action.Creates()
    requires IsListing(s.pods, cr, listing) && CurrentHash(PodsOf(s.pods, listing)) in {NoHash, HashOf(s.at[cr].spec)}
    requires task == TaskFor(cr, s.crs[cr].kind, s.at[cr].spec, s.at[cr].decision.step) && MayLock(s, cr, task)
    ensures Leads(start, longer, t)
    ensures t == s.(at := s.at[cr := Locked(task)],
                    lock := if task.parallel then s.lock else LockObject(Some(s.crs[cr].uid)))
  {
    longer, t := ChecksConfig(start, run, s, cr, listing, task);
    if !task.parallel {
      longer, t := TakesLock(start, longer, t, cr, task);
    }
  }

  lemma Prepares(start: State, run: seq<Event>, s: State, cr: string, task: Task)
    returns (longer: seq<Event>, t: State)
    requires Leads(start, run, s) && Knows(s, cr) && s.at[cr] == Locked(task) && UnderWay(s.crs[cr])
    requires !IndexPanics(s.crs[cr].kind, task.spec, task.step)
    ensures Leads(start, longer, t) && Differs(s, t, cr, Prepared(task)) && UnderWay(t.crs[cr])
    ensures t.lock == s.lock && t.pods == s.pods && t.crs[cr].created == s.crs[cr].created
    ensures SetUp(t.crs[cr].conditions)
  {
    PreparedIsUnderWay(s.crs[cr].kind, s.crs[cr].conditions);
    longer, t := Does(start, run, s, cr, Prepare(Built));
  }

  lemma PreparedIsUnderWay(kind: Kind, c: StatusMap)
    requires c.Keys == StatusKeys(kind) && !Is(c, DeploymentReady, True)
    ensures var d := PreparedConditions(kind, c);
            d.Keys == StatusKeys(kind) && !Is(d, DeploymentReady, True) && SetUp(d)
  {
    BuiltShows(kind, c);
  }

  lemma VerifiedIsUnderWay(kind: Kind, c: StatusMap)
    requires c.Keys == StatusKeys(kind) && !Is(c, DeploymentReady, True)
    ensures var d := OnExit(VerifiedConditions(kind, c, NetworkReady));
            d.Keys == StatusKeys(kind) && !Is(d, DeploymentReady, True) && (SetUp(c) ==> SetUp(d))
  {
  }

  lemma Creates(start: State, run: seq<Event>, s: State, cr: string, task: Task)
    returns (longer: seq<Event>, t: State)
    requires Leads(start, run, s) && Knows(s, cr) && s.at[cr] == Prepared(task) && UnderWay(s.crs[cr])
    requires task.podName !in s.pods
    ensures Leads(start, longer, t) && Differs(s, t, cr, Created) && UnderWay(t.crs[cr])
    ensures t.lock == s.lock && t.pods == s.pods[task.podName := NewPod(cr, task)]
    ensures t.crs[cr] == s.crs[cr].(created := s.crs[cr].created + [task.step])
  {
    longer, t := Does(start, run, s, cr, LookupPod(true));
    assert t == s.(at := s.at[cr := Creating(task)]);
    longer, t := Does(start, longer, t, cr, CreatePod(true));
  }

  lemma Verifies(start: State, run: seq<Event>, s: State, cr: string) returns (longer: seq<Event>, t: State)
    requires Leads(start, run, s) && Knows(s, cr) && s.at[cr] == Created && UnderWay(s.crs[cr])
    ensures Leads(start, longer, t) && Differs(s, t, cr, Idle) && UnderWay(t.crs[cr])
    ensures t.lock == s.lock && t.pods == s.pods && t.crs[cr].created == s.crs[cr].created
    ensures SetUp(s.crs[cr].conditions) ==> SetUp(t.crs[cr].conditions)
  {
    VerifiedIsUnderWay(s.crs[cr].kind, s.crs[cr].conditions);
    longer, t := Does(start, run, s, cr, Verify(NetworkReady));
  }

  /** It builds its pod and creates it under its free name. */
  lemma Spawns(start: State, run: seq<Event>, s: State, cr: string, task: Task)
    returns (longer: seq<Event>, t: State)
    requires Leads(start, run, s) && Knows(s, cr) && s.at[cr] == Locked(task) && UnderWay(s.crs[cr])
    requires !IndexPanics(s.crs[cr].kind, task.spec, task.step) && task.podName !in s.pods
    ensures Leads(start, longer, t) && Differs(s, t, cr, Idle) && UnderWay(t.crs[cr])
    ensures t.lock == s.lock && t.pods == s.pods[task.podName := NewPod(cr, task)]
    ensures t.crs[cr].created == s.crs[cr].created + [task.step] && SetUp(t.crs[cr].conditions)
  {
    longer, t := Prepares(start, run, s, cr, task);
    longer, t := CreatesAndVerifies(start, longer, t, cr, task);
  }

  lemma CreatesAndVerifies(start: State, run: seq<Event>, s: State, cr: string, task: Task)
    returns (longer: seq<Event>, t: State)
    requires Leads(start, run, s) && Knows(s, cr) && s.at[cr] == Prepared(task) && UnderWay(s.crs[cr])
    requires task.podName !in s.pods
    ensures Leads(start, longer, t) && Differs(s, t, cr, Idle) && UnderWay(t.crs[cr])
    ensures t.lock == s.lock && t.pods == s.pods[task.podName := NewPod(cr, task)]
    ensures t.crs[cr].created == s.crs[cr].created + [task.step]
    ensures SetUp(s.crs[cr].conditions) ==> SetUp(t.crs[cr].conditions)
  {
    longer, t := Creates(start, run, s, cr, task);
    longer, t := Verifies(start, longer, t, cr);
  }

  // ---- giving the lock back --------------------------------------------------------------------

  /** A release that is answered: it deletes the lock that is its own, waits for it to be gone, and ends
      with the report that belongs to where it was asked for. A lock that is free needs one reading. */
  lemma ReleasesLock(start: State, run: seq<Event>, s: State, cr: string, site: Site)
    returns (longer: seq<Event>, t: State)
    requires Leads(start, run, s) && Knows(s, cr) && s.at[cr] == Releasing(site)
    requires s.lock == NoLock || HoldsLock(Look(s, cr))
    ensures Leads(start, longer, t) && Differs(s, t, cr, Idle) && t.lock == NoLock && t.pods == s.pods
    ensures t.crs[cr] == s.crs[cr].(conditions := t.crs[cr].conditions)
    ensures ReleasedShown(site, true, s.crs[cr].conditions, t.crs[cr].conditions)
    ensures longer == if s.lock == NoLock then run + [Reconcile(cr, ReleaseRead(true))]
                      else run + [Reconcile(cr, ReleaseRead(true)), Reconcile(cr, ReleaseDelete(true)),
                                  Reconcile(cr, ReleasePoll(true))]
  {
    ReleasedShows(site, true, s.crs[cr].conditions);
    longer, t := Does(start, run, s, cr, ReleaseRead(true));
    if s.lock != NoLock {
      longer, t := DeletesLock(start, longer, t, cr, site);
    }
  }

  lemma DeletesLock(start: State, run: seq<Event>, s: State, cr: string, site: Site)
    returns (longer: seq<Event>, t: State)
    requires Leads(start, run, s) && Knows(s, cr) && s.at[cr] == Holding(site) && HoldsLock(Look(s, cr))
    ensures Leads(start, longer, t) && Differs(s, t, cr, Idle) && t.lock == NoLock && t.pods == s.pods
    ensures t.crs[cr] == s.crs[cr].(conditions := OnExit(ReleasedConditions(site, s.crs[cr].conditions, true)))
    ensures longer == run + [Reconcile(cr, ReleaseDelete(true)), Reconcile(cr, ReleasePoll(true))]
  {
    longer, t := Does(start, run, s, cr, ReleaseDelete(true));
    assert t == s.(lock := NoLock, at := s.at[cr := Polling(site, 0)]);
    longer, t := Does(start, longer, t, cr, ReleasePoll(true));
  }

  /** The ways in which a pod that is ready to be created is not: the look for it or its creation fails, or
      its name has been taken meanwhile. */
  predicate FailsToCreate(s: State, stage: Stage, call: Call) {
    || (stage.Prepared? && call == LookupPod(false))
    || (stage.Creating? && (call == CreatePod(false) || (call == CreatePod(true) && stage.task.podName in s.pods)))
  }

  /** After a creation that failed the lock is given back, and the deployment reported as failed. */
  lemma FailedCreationReleases(start: State, run: seq<Event>, s: State, cr: string, call: Call)
    returns (longer: seq<Event>, t: State)
    requires Leads(start, run, s) && Knows(s, cr) && FailsToCreate(s, s.at[cr], call)
    requires s.lock == NoLock || HoldsLock(Look(s, cr))
    ensures Reconcile(cr, call) in longer && Leads(start, longer, t) && Differs(s, t, cr, Idle)
    ensures t.lock == NoLock && t.pods == s.pods && t.crs[cr].created == s.crs[cr].created
    ensures Is(t.crs[cr].conditions, DeploymentReady, False)
  {
    longer, t := Does(start, run, s, cr, call);
    assert longer[|run|] == Reconcile(cr, call);
    ghost var failed := longer;
    longer, t := ReleasesLock(start, longer, t, cr, AfterFailedCreate);
    assert longer[|run|] == failed[|run|];
    assert Shows(t.crs[cr].conditions, DeploymentReady) == Some(False);
  }

  // ---- the pods of a run, one by one -----------------------------------------------------------

  /** The testing of one custom resource, whose pods of the steps in `failed` fail and whose others succeed. */
  datatype Course = Course(cr: string, kind: Kind, spec: Spec, failed: set<nat>) {
    function Total(): nat { PodCount(kind, spec) }

    function TaskOf(step: nat): Task { TaskFor(cr, kind, spec, step) }

    function NameOf(step: nat): string { TaskOf(step).podName }

    /** The pod of a step at its end. */
    function DonePod(step: nat): Pod {
      NewPod(cr, TaskOf(step)).(phase := if step in failed then Failed else Succeeded)
    }

    /** The pods of the first `k` steps. */
    function DonePods(k: nat): map<string, Pod> {
      if k == 0 then map[] else DonePods(k - 1)[NameOf(k - 1) := DonePod(k - 1)]
    }

    function Names(k: nat): (names: seq<string>)
      ensures |names| == k && forall j | 0 <= j < k :: names[j] == NameOf(j)
    {
      seq(k, j requires 0 <= j < k => NameOf(j))
    }
  }

  lemma NamesDiffer(c: Course, i: nat, j: nat)
    requires i < c.Total() && j < c.Total() && i != j
    ensures c.NameOf(i) != c.NameOf(j)
  {
    if c.NameOf(i) == c.NameOf(j) {
      PodNames.PodNamesAreInjective(c.cr, StepNames(c.kind, c.spec), i, j);
    }
  }

  lemma {:induction false} DonePodsHave(c: Course, k: nat, j: nat)
    requires j < k <= c.Total()
    ensures c.NameOf(j) in c.DonePods(k) && c.DonePods(k)[c.NameOf(j)] == c.DonePod(j)
    decreases k
  {
    if j < k - 1 {
      DonePodsHave(c, k - 1, j);
      NamesDiffer(c, j, k - 1);
    }
  }

  lemma {:induction false} DonePodsOnly(c: Course, k: nat)
    ensures forall n | n in c.DonePods(k) :: n in c.Names(k)
  {
    if k > 0 {
      DonePodsOnly(c, k - 1);
      OneMoreDone(c.DonePods(k - 1), c.Names(k - 1), c.DonePods(k), c.Names(k));
    }
  }

  lemma NextNameIsFree(c: Course, k: nat)
    requires k < c.Total()
    ensures c.NameOf(k) !in c.DonePods(k)
  {
    DonePodsOnly(c, k);
    forall j: nat | j < k ensures c.NameOf(j) != c.NameOf(k) {
      NamesDiffer(c, j, k);
    }
  }

  lemma OneMoreDone(before: map<string, Pod>, earlier: seq<string>, now: map<string, Pod>, names: seq<string>)
    requires |names| == |earlier| + 1 && forall j | 0 <= j < |earlier| :: names[j] == earlier[j]
    requires forall n | n in before :: n in earlier
    requires forall n | n in now :: n in before || n == names[|earlier|]
    ensures forall n | n in now :: n in names
  {
    forall n | n in earlier ensures n in names {
      var j :| 0 <= j < |earlier| && earlier[j] == n;
      assert names[j] == n;
    }
    assert names[|earlier|] in names;
  }

  /** The done pods, listed in step order. */
  lemma DonePodsListed(c: Course, k: nat)
    requires k <= c.Total()
    ensures IsListing(c.DonePods(k), c.cr, c.Names(k))
    ensures forall j | 0 <= j < k :: PodsOf(c.DonePods(k), c.Names(k))[j] == c.DonePod(j)
  {
    DonePodsOnly(c, k);
    forall j: nat | j < k ensures c.NameOf(j) in c.DonePods(k) && c.DonePods(k)[c.NameOf(j)] == c.DonePod(j) {
      DonePodsHave(c, k, j);
    }
    forall i: nat, j: nat | i < j < k ensures c.NameOf(i) != c.NameOf(j) {
      NamesDiffer(c, i, j);
    }
  }

  /** What is decided on them, for a workflow of any length. */
  lemma DecidedOnDonePods(c: Course, list: seq<Pod>, workflowLength: nat)
    requires list != [] && forall j | 0 <= j < |list| :: list[j] == c.DonePod(j)
    ensures NextAction(list, workflowLength)
            == if |list| == StepCount(workflowLength) then Decision(EndTesting, |list| - 1)
               else Decision(CreateNextPod, |list|)
    ensures SeenHash(list) == HashOf(c.spec) && CurrentHash(list) == HashOf(c.spec)
  {
    RisingDecide(list, c.DonePod(|list| - 1), workflowLength);
    assert list[0].hash == HashOf(c.spec);
  }

  lemma RisingDecide(list: seq<Pod>, last: Pod, workflowLength: nat)
    requires list != [] && forall j | 0 <= j < |list| :: list[j].Live() && list[j].stepLabel == Some(j)
    requires last == list[|list| - 1] && last.Finished()
    ensures NextAction(list, workflowLength)
            == if |list| == StepCount(workflowLength) then Decision(EndTesting, |list| - 1)
               else Decision(CreateNextPod, |list|)
    ensures SeenHash(list) == last.hash
  {
    LastOfRising(list);
    AfterDone(last, |list| - 1, workflowLength);
  }

  lemma AfterDone(pod: Pod, step: nat, workflowLength: nat)
    requires pod.Finished() && pod.stepLabel == Some(step)
    ensures DecideFrom(Ok(Some(pod)), workflowLength)
            == if step + 1 == StepCount(workflowLength) then Decision(EndTesting, step)
               else Decision(CreateNextPod, step + 1)
  {
  }

  lemma {:induction false} LastOfRising(list: seq<Pod>)
    requires list != [] && forall j | 0 <= j < |list| :: list[j].Live() && list[j].stepLabel == Some(j)
    ensures LastPod(list) == Ok(Some(list[|list| - 1]))
  {
    assert LastHighest(list, |list| - 1);
    LastPodIsLastHighest(list, |list| - 1);
  }

  predicate FreeOrOwn(s: State, cr: string)
    requires Knows(s, cr)
  {
    s.lock == NoLock || HoldsLock(Look(s, cr))
  }

  /** Its pods are parallel, or the lock is free or its own. */
  predicate LockAtHand(s: State, c: Course)
    requires Knows(s, c.cr)
  {
    (c.kind.Tobiko? && c.spec.parallel) || FreeOrOwn(s, c.cr)
  }

  predicate Counting(created: seq<int>, k: nat) { |created| == k && forall j | 0 <= j < k :: created[j] == j }

  /** The first `k` steps of the custom resource are done, and there are no other pods. */
  ghost predicate HasDone(s: State, c: Course, k: nat) {
    && Resting(s, c.cr, c.kind, c.spec) && LockAtHand(s, c) && s.pods == c.DonePods(k)
    && Counting(s.crs[c.cr].created, k) && (k > 0 ==> SetUp(s.crs[c.cr].conditions))
  }

  /** The done pods, listed, call for the pod of the next step, or for the end. */
  lemma DonePodsCallForNext(c: Course, k: nat)
    requires k <= c.Total()
    ensures IsListing(c.DonePods(k), c.cr, c.Names(k))
    ensures var list := PodsOf(c.DonePods(k), c.Names(k));
            && NextAction(list, WorkflowLength(c.kind, c.spec))
               == (if k == 0 then Decision(CreateFirstPod, 0)
                   else if k < c.Total() then Decision(CreateNextPod, k) else Decision(EndTesting, k - 1))
            && CurrentHash(list) in {NoHash, HashOf(c.spec)}
  {
    DonePodsListed(c, k);
    ListCallsForNext(c, PodsOf(c.DonePods(k), c.Names(k)));
  }

  lemma ListCallsForNext(c: Course, list: seq<Pod>)
    requires |list| <= c.Total() && forall j | 0 <= j < |list| :: list[j] == c.DonePod(j)
    ensures NextAction(list, WorkflowLength(c.kind, c.spec))
            == if list == [] then Decision(CreateFirstPod, 0)
               else if |list| < c.Total() then Decision(CreateNextPod, |list|) else Decision(EndTesting, |list| - 1)
    ensures CurrentHash(list) in {NoHash, HashOf(c.spec)}
  {
    if list == [] {
      assert LastPod(list) == Ok(None);
    } else {
      DecidedOnDonePods(c, list, WorkflowLength(c.kind, c.spec));
    }
  }

  lemma DecidesAndLocks(start: State, run: seq<Event>, s: State, cr: string, kind: Kind, spec: Spec,
                        listing: seq<string>, task: Task)
    returns (longer: seq<Event>, t: State)
    requires Leads(start, run, s) && Resting(s, cr, kind, spec) && IsListing(s.pods, cr, listing)
    requires NextAction(PodsOf(s.pods, listing), WorkflowLength(kind, spec)).action.Creates()
    requires CurrentHash(PodsOf(s.pods, listing)) in {NoHash, HashOf(spec)} && MayLock(s, cr, task)
    requires task == TaskFor(cr, kind, spec, NextAction(PodsOf(s.pods, listing), WorkflowLength(kind, spec)).step)
    ensures Leads(start, longer, t) && Knows(t, cr)
    ensures t == s.(at := s.at[cr := Locked(task)],
                    lock := if task.parallel then s.lock else LockObject(Some(s.crs[cr].uid)))
  {
    longer, t := Decides(start, run, s, cr, kind, spec, listing);
    longer, t := Locks(start, longer, t, cr, listing, task);
  }

  lemma DecidesAndSpawns(start: State, run: seq<Event>, s: State, cr: string, kind: Kind, spec: Spec,
                         listing: seq<string>, task: Task)
    returns (longer: seq<Event>, t: State)
    requires Leads(start, run, s) && Resting(s, cr, kind, spec) && IsListing(s.pods, cr, listing)
    requires NextAction(PodsOf(s.pods, listing), WorkflowLength(kind, spec)).action.Creates()
    requires CurrentHash(PodsOf(s.pods, listing)) in {NoHash, HashOf(spec)} && MayLock(s, cr, task)
    requires task == TaskFor(cr, kind, spec, NextAction(PodsOf(s.pods, listing), WorkflowLength(kind, spec)).step)
    requires !IndexPanics(kind, task.spec, task.step) && task.podName !in s.pods
    ensures Leads(start, longer, t) && Differs(s, t, cr, Idle) && UnderWay(t.crs[cr])
    ensures t.lock == (if task.parallel then s.lock else LockObject(Some(s.crs[cr].uid)))
    ensures t.pods == s.pods[task.podName := NewPod(cr, task)]
    ensures t.crs[cr].created == s.crs[cr].created + [task.step] && SetUp(t.crs[cr].conditions)
  {
    longer, t := DecidesAndLocks(start, run, s, cr, kind, spec, listing, task);
    longer, t := Spawns(start, longer, t, cr, task);
  }

  /** It creates the pod of the next step. */
  lemma CreatesStep(start: State, run: seq<Event>, s: State, c: Course, k: nat)
    returns (longer: seq<Event>, t: State)
    requires k < c.Total() && Leads(start, run, s) && HasDone(s, c, k)
    ensures Leads(start, longer, t) && Differs(s, t, c.cr, Idle) && Resting(t, c.cr, c.kind, c.spec) && LockAtHand(t, c)
    ensures t.pods == s.pods[c.NameOf(k) := NewPod(c.cr, c.TaskOf(k))]
    ensures t.crs[c.cr].created == s.crs[c.cr].created + [k] && SetUp(t.crs[c.cr].conditions)
    ensures FreeOrOwn(s, c.cr) ==> FreeOrOwn(t, c.cr)
  {
    NextNameIsFree(c, k);
    DonePodsCallForNext(c, k);
    longer, t := DecidesAndSpawns(start, run, s, c.cr, c.kind, c.spec, c.Names(k), c.TaskOf(k));
  }

  lemma PodEnds(start: State, run: seq<Event>, s: State, c: Course, k: nat)
    returns (longer: seq<Event>, t: State)
    requires Leads(start, run, s) && Knows(s, c.cr)
    requires s.pods == c.DonePods(k)[c.NameOf(k) := NewPod(c.cr, c.TaskOf(k))]
    ensures Leads(start, longer, t) && t == s.(pods := c.DonePods(k + 1))
  {
    longer, t := Extend(start, run, s, External(ChangePhase(c.NameOf(k), c.DonePod(k).phase)));
    assert t.pods == c.DonePods(k + 1);
  }

  /** From no pods at all it does the first `k` steps. */
  lemma {:induction false} DoesSteps(start: State, run: seq<Event>, s: State, c: Course, k: nat)
    returns (longer: seq<Event>, t: State)
    requires k <= c.Total() && Leads(start, run, s) && HasDone(s, c, 0)
    ensures Leads(start, longer, t) && Differs(s, t, c.cr, Idle) && HasDone(t, c, k)
    ensures FreeOrOwn(s, c.cr) ==> FreeOrOwn(t, c.cr)
  {
    if k == 0 {
      longer, t := run, s;
      NothingDiffers(s, c.cr);
    } else {
      var m;
      longer, m := DoesSteps(start, run, s, c, k - 1);
      longer, t := DoesStep(start, longer, m, c, k - 1);
      DiffersFurther(s, m, t, c.cr, Idle, Idle);
    }
  }

  lemma DoesStep(start: State, run: seq<Event>, s: State, c: Course, k: nat) returns (longer: seq<Event>, t: State)
    requires k < c.Total() && Leads(start, run, s) && HasDone(s, c, k)
    ensures Leads(start, longer, t) && Differs(s, t, c.cr, Idle) && HasDone(t, c, k + 1)
    ensures FreeOrOwn(s, c.cr) ==> FreeOrOwn(t, c.cr)
  {
    longer, t := CreatesStep(start, run, s, c, k);
    longer, t := PodEnds(start, longer, t, c, k);
  }

  // ---- a whole run -----------------------------------------------------------------------------

  /** With all its pods done it goes to release the lock. */
  lemma GoesToRelease(start: State, run: seq<Event>, s: State, c: Course) returns (longer: seq<Event>, t: State)
    requires Leads(start, run, s) && HasDone(s, c, c.Total())
    ensures Leads(start, longer, t) && t == s.(at := s.at[c.cr := Releasing(AtEnd)])
  {
    DonePodsCallForNext(c, c.Total());
    longer, t := DecidesToEnd(start, run, s, c.cr, c.kind, c.spec, c.Names(c.Total()));
  }

  lemma DecidesToEnd(start: State, run: seq<Event>, s: State, cr: string, kind: Kind, spec: Spec, listing: seq<string>)
    returns (longer: seq<Event>, t: State)
    requires Leads(start, run, s) && AtRest(s, cr, kind, spec) && IsListing(s.pods, cr, listing)
    requires NextAction(PodsOf(s.pods, listing), WorkflowLength(kind, spec)).action == EndTesting
    requires CurrentHash(PodsOf(s.pods, listing)) in {NoHash, HashOf(spec)}
    ensures Leads(start, longer, t) && t == s.(at := s.at[cr := Releasing(AtEnd)])
  {
    longer, t := Decides(start, run, s, cr, kind, spec, listing);
    longer, t := ChecksAtEnd(start, longer, t, cr, listing);
  }

  lemma ChecksAtEnd(start: State, run: seq<Event>, s: State, cr: string, listing: seq<string>)
    returns (longer: seq<Event>, t: State)
    requires Leads(start, run, s) && Knows(s, cr) && s.at[cr].Decided? && s.at[cr].decision.action == EndTesting
    requires IsListing(s.pods, cr, listing) && CurrentHash(PodsOf(s.pods, listing)) in {NoHash, HashOf(s.at[cr].spec)}
    ensures Leads(start, longer, t) && t == s.(at := s.at[cr := Releasing(AtEnd)])
  {
    longer, t := Does(start, run, s, cr, CheckConfig(listing, true));
  }

  lemma EndsRun(start: State, run: seq<Event>, s: State, c: Course) returns (longer: seq<Event>, t: State)
    requires Leads(start, run, s) && HasDone(s, c, c.Total()) && FreeOrOwn(s, c.cr)
    ensures Leads(start, longer, t) && Differs(s, t, c.cr, Idle) && t.lock == NoLock && t.pods == s.pods
    ensures t.crs[c.cr].created == s.crs[c.cr].created
    ensures Is(t.crs[c.cr].conditions, DeploymentReady, True) && Is(t.crs[c.cr].conditions, Ready, True)
  {
    longer, t := GoesToRelease(start, run, s, c);
    longer, t := ReleasesLock(start, longer, t, c.cr, AtEnd);
    ReportsReady(s.crs[c.cr].conditions, t.crs[c.cr].conditions);
  }

  lemma ReportsReady(was: StatusMap, now: StatusMap)
    requires SetUp(was) && ReleasedShown(AtEnd, true, was, now)
    ensures Is(now, DeploymentReady, True) && Is(now, Ready, True)
  {
    assert Shows(now, DeploymentReady) == Some(True);
    forall k | k in now && k != Ready ensures now[k] == True {
      assert k != DeploymentReady ==> Shows(now, k) == Shows(was, k);
    }
  }

  /** Any undisturbed run whose pods are all done ends: from wherever it rests, its next reconcile gives the
      lock back, if it is its own or free, and reports the deployment as ready. */
  lemma DoneRunEnds(start: State, run: seq<Event>, s: State, cr: string, listing: seq<string>)
    returns (longer: seq<Event>, t: State)
    requires Leads(start, run, s) && Knows(s, cr) && AtRest(s, cr, s.crs[cr].kind, s.crs[cr].spec) && FreeOrOwn(s, cr)
    requires OrderInv(Look(s, cr), cr) && Remaining(Look(s, cr), cr) == 0 && IsListing(s.pods, cr, listing)
    ensures Leads(start, longer, t) && Differs(s, t, cr, Idle) && t.lock == NoLock && t.pods == s.pods
    ensures Is(t.crs[cr].conditions, DeploymentReady, True)
  {
    DoneDecidesEnd(Look(s, cr), cr, listing);
    CheckPasses(Look(s, cr), cr, listing);
    longer, t := DecidesToEnd(start, run, s, cr, s.crs[cr].kind, s.crs[cr].spec, listing);
    longer, t := ReleasesLock(start, longer, t, cr, AtEnd);
    assert Shows(t.crs[cr].conditions, DeploymentReady) == Some(True);
  }

  /** One pod for each step of a workflow, and one without a workflow; a HorizonTest has none. */
  function PodsToRun(c: Course): nat {
    if c.kind == HorizonTest || c.spec.workflow == [] then 1 else |c.spec.workflow|
  }

  /** What a completed run leaves: a pod at its end for each step, created in order, a free lock, and a
      status that reports the deployment and all the rest as ready. */
  ghost predicate Completed(s: State, c: Course) {
    && Knows(s, c.cr) && s.at[c.cr] == Idle && s.lock == NoLock
    && Counting(s.crs[c.cr].created, PodsToRun(c))
    && (forall j: nat | j < PodsToRun(c) :: c.NameOf(j) in s.pods && s.pods[c.NameOf(j)] == c.DonePod(j))
    && Is(s.crs[c.cr].conditions, DeploymentReady, True) && Is(s.crs[c.cr].conditions, Ready, True)
  }

  /** Every kind, spec and way for its pods to end has a run from an empty namespace that completes: a
      failed pod does not keep the next one from being created, nor the end from being reached. */
  lemma RunCompletes(c: Course) returns (start: State, run: seq<Event>)
    ensures Start(start) && Possible(start, run) && Completed(After(start, run), c)
  {
    var t: State;
    start := State(NoLock, map[], map[], map[]);
    run, t := Arrives(start, [], start, c.cr, "uid", c.kind, c.spec);
    run, t := DoesSteps(start, run, t, c, c.Total());
    run, t := EndsRun(start, run, t, c);
    forall j: nat | j < c.Total() ensures c.NameOf(j) in t.pods && t.pods[c.NameOf(j)] == c.DonePod(j) {
      DonePodsHave(c, c.Total(), j);
    }
  }

  function Only(pods: map<string, Pod>, keep: set<string>): map<string, Pod> {
    map n | n in pods && n in keep :: pods[n]
  }

  lemma FewerPods(pods: map<string, Pod>, name: string)
    requires name in pods
    ensures |WithoutPod(pods, name)| < |pods|
  {
    assert WithoutPod(pods, name).Keys == pods.Keys - {name};
  }

  /** All pods but those to keep go away. */
  lemma {:induction false} PodsGoAway(start: State, run: seq<Event>, s: State, keep: set<string>)
    returns (longer: seq<Event>, t: State)
    requires Leads(start, run, s)
    ensures Leads(start, longer, t) && t == s.(pods := Only(s.pods, keep))
    decreases |s.pods|
  {
    longer, t := run, s;
    if name :| name in s.pods && name !in keep {
      longer, t := Extend(start, run, s, External(RemovePod(name)));
      FewerPods(s.pods, name);
      assert Only(t.pods, keep) == Only(s.pods, keep);
      longer, t := PodsGoAway(start, longer, t, keep);
    } else {
      assert Only(s.pods, keep) == s.pods;
    }
  }
}
