/**
 The interleaving in which a CreateNextPod decision outlives the pods it was taken from. It leads an
 AnsibleTest into the unguarded index of its volume code, and the other kinds with a workflow into a
 run without an end.
 */
module StaleRuns {
  import opened Types
  import opened Decision
  import opened Protocol
  import opened ProtocolSafety
  import opened RunOrder
  import opened BeyondTheEnd
  import opened SampleRuns

  const CR := "cr"
  const LONG := Spec(false, [StepSpec("one", None), StepSpec("two", None)], "")
  const SHORT := Spec(false, [StepSpec("one", None)], "")

  /** The longer workflow with all its pods succeeding. */
  function Longer(kind: Kind): Course { Course(CR, kind, LONG, {}) }

  /** Both steps of the longer workflow have been run. */
  lemma BothStepsRun(kind: Kind) returns (start: State, run: seq<Event>, t: State)
    requires kind.SupportsWorkflow()
    ensures Start(start) && Leads(start, run, t) && HasDone(t, Longer(kind), 2)
  {
    start := State(NoLock, map[], map[], map[]);
    run, t := Arrives(start, [], start, CR, "uid", kind, LONG);
    run, t := DoesSteps(start, run, t, Longer(kind), 2);
  }

  /** A listing of the two finished pods: the next action is a pod for step 2, even for a workflow of
      one step. */
  lemma TwoPodsListed(kind: Kind)
    requires kind.SupportsWorkflow()
    ensures var pods, names := Longer(kind).DonePods(2), Longer(kind).Names(2);
            && IsListing(pods, CR, names) && SeenHash(PodsOf(pods, names)) == HashOf(LONG)
            && NextAction(PodsOf(pods, names), 1) == Decision(CreateNextPod, 2)
  {
    DonePodsListed(Longer(kind), 2);
    TwoPodsDecide(kind, PodsOf(Longer(kind).DonePods(2), Longer(kind).Names(2)));
  }

  lemma TwoPodsDecide(kind: Kind, list: seq<Pod>)
    requires |list| == 2 && forall j | 0 <= j < 2 :: list[j] == Longer(kind).DonePod(j)
    ensures SeenHash(list) == HashOf(LONG) && NextAction(list, 1) == Decision(CreateNextPod, 2)
  {
    DecidedOnDonePods(Longer(kind), list, 1);
  }

  /** The workflow is shortened to one step and NextAction reads the two old pods. */
  lemma DecidesOnOldPods(kind: Kind) returns (start: State, run: seq<Event>, t: State)
    requires kind.SupportsWorkflow()
    ensures Start(start) && Leads(start, run, t) && Knows(t, CR) && t.crs[CR].kind == kind && t.crs[CR].spec == SHORT
    ensures t.at[CR] == Decided(SHORT, Decision(CreateNextPod, 2), HashOf(LONG)) && UnderWay(t.crs[CR])
    ensures LockAtHand(t, Longer(kind)) && t.pods == Longer(kind).DonePods(2)
  {
    TwoPodsListed(kind);
    start, run, t := BothStepsRun(kind);
    run, t := Extend(start, run, t, External(EditSpec(CR, SHORT)));
    run, t := Decides(start, run, t, CR, kind, SHORT, Longer(kind).Names(2));
  }

  /** Both pods are deleted before the config check looks: the reconcile goes on with index 2 of a
      one-step workflow. */
  lemma GoesOnWithoutPods(kind: Kind) returns (start: State, run: seq<Event>, t: State)
    requires kind.SupportsWorkflow()
    ensures Start(start) && Leads(start, run, t) && Knows(t, CR) && t.crs[CR].kind == kind && t.crs[CR].spec == SHORT
    ensures t.at[CR] == Locked(TaskFor(CR, kind, SHORT, 2)) && UnderWay(t.crs[CR]) && t.pods == map[]
  {
    start, run, t := DecidesOnOldPods(kind);
    run, t := PodsGoAway(start, run, t, {});
    run, t := Locks(start, run, t, CR, [], TaskFor(CR, kind, SHORT, 2));
  }

  /** An AnsibleTest then panics. */
  lemma StaleDecisionPanics() returns (start: State, run: seq<Event>)
    ensures Start(start) && Possible(start, run) && CR in After(start, run).at
    ensures After(start, run).at[CR] == Panicked
  {
    var t: State;
    start, run, t := GoesOnWithoutPods(AnsibleTest);
    run, t := Does(start, run, t, CR, Prepare(Built));
  }

  /** A Tempest or a Tobiko creates a pod beyond its workflow, and stands where its testing never ends. */
  lemma StaleDecisionRunsOn(kind: Kind) returns (start: State, run: seq<Event>)
    requires kind.SupportsWorkflow() && !kind.AnsibleTest?
    ensures Start(start) && Possible(start, run) && Knows(After(start, run), CR)
    ensures var v := Look(After(start, run), CR);
            && v.stage.Idle? && v.me.kind == kind && HasPodBeyond(v, CR)
            && AllCarry(v.pods, CR, HashOf(v.me.spec)) && !DeploymentDone(v)
  {
    var t: State;
    var task := TaskFor(CR, kind, SHORT, 2);
    start, run, t := GoesOnWithoutPods(kind);
    run, t := Spawns(start, run, t, CR, task);
    assert LivePod(t.pods, CR, task.podName) && t.pods[task.podName].Step() == 2;
    assert Total(Look(t, CR)) == 1;
  }
}
