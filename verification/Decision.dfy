/** GetLastPod and NextAction: what a reconcile decides from the pods it lists. */
module Decision {
  import opened Types

  datatype Action = Wait | CheckPending | CreateFirstPod | CreateNextPod | EndTesting | Failure {
    predicate Creates() { CreateFirstPod? || CreateNextPod? }
  }

  datatype Decision = Decision(action: Action, step: int)

  predicate IsLastPodIndex(podIndex: int, workflowLength: nat) {
    if workflowLength == 0 then podIndex == workflowLength else podIndex == workflowLength - 1
  }

  /** One turn of the GetLastPod loop; Err stands for the early return on a bad label. */
  function ConsiderPod(best: Result<Option<Pod>>, pod: Pod): Result<Option<Pod>> {
    if best.Err? || !pod.Live() then best
    else if pod.stepLabel.None? then Err
    else if pod.Step() >= (if best.value.Some? then best.value.value.Step() else 0) then Ok(Some(pod))
    else best
  }

  function LastPod(list: seq<Pod>): Result<Option<Pod>> {
    if list == [] then Ok(None) else ConsiderPod(LastPod(list[..|list| - 1]), list[|list| - 1])
  }

  function DecideFrom(last: Result<Option<Pod>>, workflowLength: nat): Decision {
    match last
    case Err => Decision(Failure, 0)
    case Ok(None) => Decision(CreateFirstPod, 0)
    case Ok(Some(pod)) =>
      match pod.phase
      case Pending => Decision(CheckPending, pod.Step())
      case Running => Decision(Wait, pod.Step())
      case Failed | Succeeded =>
        if !IsLastPodIndex(pod.Step(), workflowLength) then Decision(CreateNextPod, pod.Step() + 1)
        else Decision(EndTesting, pod.Step())
      case Unknown => Decision(Wait, pod.Step())
  }

  function NextAction(list: seq<Pod>, workflowLength: nat): Decision {
    DecideFrom(LastPod(list), workflowLength)
  }

  predicate Candidate(pod: Pod) { pod.Live() && pod.stepLabel.Some? && pod.Step() >= 0 }

  /** The answer GetLastPod promises: a live pod of highest step, none if there is no live pod
      with a non-negative step, and an error exactly when some live pod's label does not parse. */
  ghost predicate IsLastPod(list: seq<Pod>, r: Result<Option<Pod>>) {
    match r
    case Err => exists pod :: pod in list && pod.Live() && pod.stepLabel.None?
    case Ok(None) => forall pod | pod in list && pod.Live() :: pod.stepLabel.Some? && pod.Step() < 0
    case Ok(Some(last)) =>
      && last in list && Candidate(last)
      && forall pod | pod in list && pod.Live() :: pod.stepLabel.Some? && pod.Step() <= last.Step()
  }

  lemma {:induction false} LastPodIsHighest(list: seq<Pod>)
    ensures IsLastPod(list, LastPod(list))
  {
    if list != [] {
      var init, pod := list[..|list| - 1], list[|list| - 1];
      assert list == init + [pod];
      LastPodIsHighest(init);
    }
  }

  /** Position `k` holds a live pod of highest step, the last one listed if there are several. */
  predicate LastHighest(list: seq<Pod>, k: nat) {
    && k < |list| && Candidate(list[k])
    && (forall j | 0 <= j < |list| && list[j].Live() :: list[j].stepLabel.Some? && list[j].Step() <= list[k].Step())
    && (forall j | k < j < |list| && list[j].Live() :: list[j].Step() < list[k].Step())
  }

  lemma {:induction false} LastPodIsLastHighest(list: seq<Pod>, k: nat)
    requires LastHighest(list, k)
    ensures LastPod(list) == Ok(Some(list[k]))
  {
    var init, pod := list[..|list| - 1], list[|list| - 1];
    LastPodIsHighest(init);
    if k < |init| {
      assert LastHighest(init, k);
      LastPodIsLastHighest(init, k);
    } else {
      assert forall q | q in init && q.Live() :: q.stepLabel.Some? && q.Step() <= pod.Step();
    }
  }

  /** What a run of `workflowLength` steps does next when its last pod is this one. */
  predicate FollowsPod(pod: Pod, workflowLength: nat, d: Decision) {
    match pod.phase
    case Pending => d == Decision(CheckPending, pod.Step())
    case Running | Unknown => d == Decision(Wait, pod.Step())
    case Succeeded | Failed =>
      d == if pod.Step() == StepCount(workflowLength) - 1 then Decision(EndTesting, pod.Step())
           else Decision(CreateNextPod, pod.Step() + 1)
  }

  /** The decision that a listing calls for. */
  ghost predicate IsDecision(list: seq<Pod>, workflowLength: nat, d: Decision) {
    if exists pod :: pod in list && pod.Live() && pod.stepLabel.None? then d == Decision(Failure, 0)
    else if forall pod | pod in list && pod.Live() :: pod.Step() < 0 then d == Decision(CreateFirstPod, 0)
    else exists k: nat :: LastHighest(list, k) && FollowsPod(list[k], workflowLength, d)
  }

  /** Some position is the last of the highest steps, unless a label is unreadable or no step counts. */
  lemma {:induction false} SomeLastHighest(list: seq<Pod>) returns (k: nat)
    requires forall pod | pod in list && pod.Live() :: pod.stepLabel.Some?
    requires exists pod :: pod in list && pod.Live() && pod.Step() >= 0
    ensures LastHighest(list, k)
  {
    var init, pod := list[..|list| - 1], list[|list| - 1];
    assert list == init + [pod];
    if exists q :: q in init && q.Live() && q.Step() >= 0 {
      assert forall q | q in init :: q in list;
      k := SomeLastHighest(init);
      if pod.Live() && pod.Step() >= init[k].Step() {
        k := |init|;
      }
    } else {
      assert forall j | 0 <= j < |init| :: init[j] in init;
      k := |init|;
    }
  }

  /** NextAction takes the decision that the listing calls for, and there is one for every listing. */
  lemma NextActionIsRight(list: seq<Pod>, workflowLength: nat)
    ensures IsDecision(list, workflowLength, NextAction(list, workflowLength))
  {
    LastPodIsHighest(list);
    if pod :| pod in list && pod.Live() && pod.stepLabel.None? {
      assert LastPod(list).Err?;
    } else if pod :| pod in list && pod.Live() && pod.Step() >= 0 {
      var k := SomeLastHighest(list);
      LastPodIsLastHighest(list, k);
      assert FollowsPod(list[k], workflowLength, NextAction(list, workflowLength));
    }
  }

  predicate DistinctLiveSteps(list: seq<Pod>) {
    forall i, j | 0 <= i < j < |list| && list[i].Live() && list[j].Live() :: list[i].stepLabel != list[j].stepLabel
  }

  /** With distinct live steps the decision depends neither on the order of the listing nor on the
      terminating pods in it. */
  lemma DecisionIgnoresOrder(list: seq<Pod>, other: seq<Pod>, workflowLength: nat)
    requires DistinctLiveSteps(list)
    requires forall pod: Pod | pod.Live() :: pod in list <==> pod in other
    ensures NextAction(list, workflowLength) == NextAction(other, workflowLength)
  {
    LastPodIsHighest(list);
    LastPodIsHighest(other);
    var a, b := LastPod(list), LastPod(other);
    if a.Err? {
      var bad :| bad in list && bad.Live() && bad.stepLabel.None?;
      assert bad in other;
    } else if a.value.Some? {
      assert a.value.value in other;
      assert b.value.value.stepLabel == a.value.value.stepLabel;
    }
  }

  ghost predicate LiveStepsBelow(list: seq<Pod>, bound: int) {
    forall pod | pod in list && pod.Live() :: pod.Step() < bound
  }

  /** A CreateNextPod index belongs to the run exactly when every listed live pod does: the
      last-index test is an equality, so a higher step is never recognised as the last one. */
  lemma NextIndexInRange(list: seq<Pod>, workflowLength: nat)
    requires NextAction(list, workflowLength).action == CreateNextPod
    ensures 1 <= NextAction(list, workflowLength).step
    ensures NextAction(list, workflowLength).step < StepCount(workflowLength)
            <==> LiveStepsBelow(list, StepCount(workflowLength))
  {
    LastPodIsHighest(list);
  }

  /** A live pod beyond the workflow's end keeps the testing from ever ending. */
  lemma BeyondTheEndNeverEnds(list: seq<Pod>, workflowLength: nat)
    requires !LiveStepsBelow(list, StepCount(workflowLength))
    ensures NextAction(list, workflowLength).action != EndTesting
    ensures NextAction(list, workflowLength).action == CreateNextPod
            ==> NextAction(list, workflowLength).step > StepCount(workflowLength)
  {
    LastPodIsHighest(list);
  }
}
