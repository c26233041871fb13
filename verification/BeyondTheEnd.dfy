/**
 What becomes of a custom resource that has a live pod beyond the end of its workflow. The last-index
 test of NextAction is an equality, so no later pod is ever recognised as the last one.
 */
module BeyondTheEnd {
  import opened Types
  import opened Decision
  import opened Protocol
  import opened ProtocolSafety
  import opened RunOrder

  ghost predicate HasPodBeyond(v: View, cr: string) {
    exists n :: LivePod(v.pods, cr, n) && v.pods[n].Step() >= Total(v)
  }

  ghost predicate StageBeyond(v: View) {
    match v.stage
    case Fetched(spec) => spec == v.me.spec
    case Decided(spec, decision, _) =>
      spec == v.me.spec && decision.action != EndTesting && decision.action != CreateFirstPod
    case Deleting(_) => false
    case Acquiring(task) => task.spec == v.me.spec
    case Ensuring(task) => task.spec == v.me.spec
    case Locked(task) => task.spec == v.me.spec
    case Prepared(task) => task.spec == v.me.spec
    case Creating(task) => task.spec == v.me.spec
    case Releasing(site) => site == AfterFailedCreate
    case Holding(site) => site == AfterFailedCreate
    case Polling(site, _) => site == AfterFailedCreate
    case _ => true
  }

  /** It has a pod beyond the end, no pod of another spec, and is not about to end the testing. */
  ghost predicate Endless(v: View, cr: string) {
    && ViewInv(v, cr) && HasPodBeyond(v, cr) && AllCarry(v.pods, cr, HashOf(v.me.spec))
    && StageBeyond(v) && !DeploymentDone(v)
  }

  lemma SteadyStaysEndless(v: View, w: View, cr: string)
    requires Steady(v, w, cr) && Endless(v, cr) && ViewInv(w, cr)
    ensures Endless(w, cr)
  {
    var n :| LivePod(v.pods, cr, n) && v.pods[n].Step() >= Total(v);
    assert LivePod(w.pods, cr, n) && w.pods[n].Step() >= Total(w);
  }

  lemma ListedBeyond(v: View, cr: string, listing: seq<string>)
    requires HasPodBeyond(v, cr) && IsListing(v.pods, cr, listing)
    ensures NextAction(PodsOf(v.pods, listing), WorkflowLength(v.me.kind, v.me.spec)).action
            !in {EndTesting, CreateFirstPod}
  {
    var n :| LivePod(v.pods, cr, n) && v.pods[n].Step() >= Total(v);
    ListingHasLive(v.pods, cr, listing, n);
    LastPodIsHighest(PodsOf(v.pods, listing));
    BeyondTheEndNeverEnds(PodsOf(v.pods, listing), WorkflowLength(v.me.kind, v.me.spec));
  }

  /** No call but a creation touches the pods, and none makes the deployment ready. */
  lemma OwnCallKeepsPodsBeyond(v: View, cr: string, call: Call)
    requires Endless(v, cr) && CallEnabled(v, cr, call)
    ensures var w := ApplyCall(v, cr, call);
            && w.me.spec == v.me.spec && w.me.kind == v.me.kind
            && (forall n | LivePod(v.pods, cr, n) :: LivePod(w.pods, cr, n) && w.pods[n] == v.pods[n])
            && (forall n | LivePod(w.pods, cr, n) :: w.pods[n].hash == HashOf(v.me.spec))
  {
    CallPods(v, cr, call);
  }

  lemma OwnCallStaysUnready(v: View, cr: string, call: Call)
    requires Endless(v, cr) && CallEnabled(v, cr, call)
    ensures !DeploymentDone(ApplyCall(v, cr, call))
  {
    if DeploymentDone(ApplyCall(v, cr, call)) {
      ReportsOnFreeLock(v, cr, call);
    }
  }

  lemma OwnCallStaysBeyond(v: View, cr: string, call: Call)
    requires Endless(v, cr) && CallEnabled(v, cr, call)
    ensures StageBeyond(ApplyCall(v, cr, call))
  {
    if call.Decide? {
      ListedBeyond(v, cr, call.listing);
    } else if call.CheckConfig? {
      CheckStaysBeyond(v, cr, call.listing, call.ok);
    }
  }

  lemma CheckStaysBeyond(v: View, cr: string, listing: seq<string>, ok: bool)
    requires Endless(v, cr) && CallEnabled(v, cr, CheckConfig(listing, ok))
    ensures StageBeyond(CheckConfigCall(v, cr, listing, ok))
  {
    CheckPasses(v, cr, listing);
  }

  lemma OwnCallStaysEndless(v: View, cr: string, call: Call)
    requires Endless(v, cr) && CallEnabled(v, cr, call)
    ensures Endless(ApplyCall(v, cr, call), cr)
  {
    var w := ApplyCall(v, cr, call);
    OwnCallKeepsInv(v, cr, call);
    OwnCallKeepsPodsBeyond(v, cr, call);
    OwnCallStaysUnready(v, cr, call);
    OwnCallStaysBeyond(v, cr, call);
    var n :| LivePod(v.pods, cr, n) && v.pods[n].Step() >= Total(v);
    assert LivePod(w.pods, cr, n) && w.pods[n].Step() >= Total(w);
  }

  lemma StepStaysEndless(s: State, e: Event, cr: string)
    requires Inv(s) && Enabled(s, e) && Knows(s, cr) && Quiet(s, e, cr) && Endless(Look(s, cr), cr)
    ensures Knows(Apply(s, e), cr) && Endless(Look(Apply(s, e), cr), cr)
  {
    var t := Apply(s, e);
    if e.Reconcile? && e.cr == cr {
      OwnCallStaysEndless(Look(s, cr), cr, e.call);
      assert Look(t, cr) == ApplyCall(Look(s, cr), cr, e.call);
    } else {
      StepKeepsInv(s, e);
      OthersAreSteady(s, e, cr);
      SteadyStaysEndless(Look(s, cr), Look(t, cr), cr);
    }
  }

  lemma {:induction false} RunStaysEndless(s: State, run: seq<Event>, cr: string)
    requires Inv(s) && Knows(s, cr) && Endless(Look(s, cr), cr) && Possible(s, run) && QuietRun(s, run, cr)
    ensures Knows(After(s, run), cr) && Endless(Look(After(s, run), cr), cr)
    decreases |run|
  {
    if run != [] {
      StepKeepsInv(s, run[0]);
      StepStaysEndless(s, run[0], cr);
      RunStaysEndless(Apply(s, run[0]), run[1..], cr);
    }
  }

  lemma EndlessNeverEnds(v: View, cr: string, listing: seq<string>)
    requires Endless(v, cr) && IsListing(v.pods, cr, listing)
    ensures v.stage.Releasing? || v.stage.Holding? || v.stage.Polling? ==> v.stage.site == AfterFailedCreate
    ensures NextAction(PodsOf(v.pods, listing), WorkflowLength(v.me.kind, v.me.spec)).action != EndTesting
  {
    ListedBeyond(v, cr, listing);
  }

  /** The testing never ends: once an idle custom resource of a reachable namespace has a live pod
      beyond its workflow, all its pods carrying its hash, no run without outside help to its spec and
      pods brings it to a final release or to DeploymentReady, and no listing decides EndTesting. */
  lemma TestingNeverEnds(start: State, before: seq<Event>, run: seq<Event>, cr: string, listing: seq<string>)
    requires Start(start) && Possible(start, before) && Knows(After(start, before), cr)
    requires var v := Look(After(start, before), cr);
             v.stage.Idle? && HasPodBeyond(v, cr) && AllCarry(v.pods, cr, HashOf(v.me.spec)) && !DeploymentDone(v)
    requires Possible(After(start, before), run) && QuietRun(After(start, before), run, cr)
    requires IsListing(After(After(start, before), run).pods, cr, listing)
    ensures Knows(After(After(start, before), run), cr)
    ensures var v := Look(After(After(start, before), run), cr);
            && !DeploymentDone(v)
            && (v.stage.Releasing? || v.stage.Holding? || v.stage.Polling? ==> v.stage.site == AfterFailedCreate)
            && NextAction(PodsOf(v.pods, listing), WorkflowLength(v.me.kind, v.me.spec)).action != EndTesting
  {
    var s := After(start, before);
    ReachableInv(start, before);
    RunStaysEndless(s, run, cr);
    EndlessNeverEnds(Look(After(s, run), cr), cr, listing);
  }
}
