/**
 The step index that reaches pod building. It stays below the number of pods of the run in every run
 in which no CreateNextPod decision outlives the pods it was taken from.
 */
module IndexSafety {
  import opened Types
  import opened Decision
  import opened Protocol
  import opened ProtocolSafety

  /** The config check lets a CreateNextPod decision through although the pod it was taken from did
      not carry the hash of the spec in hand. */
  predicate Stale(s: State, e: Event) {
    && e.Reconcile? && e.call.CheckConfig? && e.call.ok && Enabled(s, e)
    && var v := Look(s, e.cr);
       && v.stage.decision.action == CreateNextPod
       && v.stage.seen != HashOf(v.stage.spec)
       && CurrentHash(PodsOf(v.pods, e.call.listing)) in {NoHash, HashOf(v.stage.spec)}
  }

  /** ... and that pod's step, one below the decided one, lies beyond the workflow of that spec. */
  predicate Overrun(s: State, e: Event) {
    Stale(s, e) && var v := Look(s, e.cr); v.stage.decision.step - 1 >= PodCount(v.me.kind, v.stage.spec)
  }

  predicate NeverOverruns(s: State, run: seq<Event>)
    requires Possible(s, run)
    decreases |run|
  {
    run == [] || (!Overrun(s, run[0]) && NeverOverruns(Apply(s, run[0]), run[1..]))
  }

  predicate InRange(kind: Kind, spec: Spec, step: int) { 0 <= step < PodCount(kind, spec) }

  /** A pod's step belongs to the run of the spec that its hash stands for. */
  ghost predicate PodsFit(v: View, cr: string) {
    forall n | LivePod(v.pods, cr, n) && v.pods[n].hash.HashOf? ::
      InRange(v.me.kind, v.pods[n].hash.spec, v.pods[n].Step())
  }

  predicate StageFits(v: View) {
    match v.stage
    case Decided(spec, decision, seen) =>
      && (decision.action == CreateFirstPod ==> decision.step == 0)
      && (decision.action == CreateNextPod ==> decision.step >= 1 && decision.step != PodCount(v.me.kind, spec))
      && (decision.action == CreateNextPod && seen == HashOf(spec) ==> InRange(v.me.kind, spec, decision.step))
    case Acquiring(task) => InRange(v.me.kind, task.spec, task.step)
    case Ensuring(task) => InRange(v.me.kind, task.spec, task.step)
    case Locked(task) => InRange(v.me.kind, task.spec, task.step)
    case Prepared(task) => InRange(v.me.kind, task.spec, task.step)
    case Creating(task) => InRange(v.me.kind, task.spec, task.step)
    case Panicked => false
    case _ => true
  }

  ghost predicate Fits(s: State) {
    forall cr | Knows(s, cr) :: PodsFit(Look(s, cr), cr) && StageFits(Look(s, cr))
  }

  lemma DecideFits(v: View, cr: string, listing: seq<string>, ok: bool)
    requires ViewInv(v, cr) && PodsFit(v, cr) && CallEnabled(v, cr, Decide(listing, ok))
    ensures StageFits(DecideCall(v, listing, ok))
  {
    var list := PodsOf(v.pods, listing);
    LastPodIsHighest(list);
    var last := LastPod(list);
    if last.Ok? && last.value.Some? {
      var m := ListedIsOwn(v.pods, cr, listing, last.value.value);
      assert LivePod(v.pods, cr, m);
    }
  }

  lemma OwnCallFits(v: View, cr: string, call: Call)
    requires ViewInv(v, cr) && PodsFit(v, cr) && StageFits(v) && CallEnabled(v, cr, call)
    requires call.CheckConfig? && call.ok && v.stage.decision.action == CreateNextPod
             && CurrentHash(PodsOf(v.pods, call.listing)) in {NoHash, HashOf(v.stage.spec)}
             && v.stage.seen != HashOf(v.stage.spec)
             ==> v.stage.decision.step - 1 < PodCount(v.me.kind, v.stage.spec)
    ensures PodsFit(ApplyCall(v, cr, call), cr) && StageFits(ApplyCall(v, cr, call))
  {
    OwnCallPodsFit(v, cr, call);
    if call.Decide? {
      DecideFits(v, cr, call.listing, call.ok);
    }
  }

  lemma OwnCallPodsFit(v: View, cr: string, call: Call)
    requires ViewInv(v, cr) && PodsFit(v, cr) && StageFits(v) && CallEnabled(v, cr, call)
    ensures PodsFit(ApplyCall(v, cr, call), cr)
  {
    var w := ApplyCall(v, cr, call);
    CallPods(v, cr, call);
    assert w.me.kind == v.me.kind;
    if call.DeleteDoomed? {
      DeletionShrinks(v.pods, v.stage.doomed[0], call.deletion == Immediate, cr);
    } else if call.CreatePod? {
      assert forall n | LivePod(w.pods, cr, n) ::
               n == v.stage.task.podName || (LivePod(v.pods, cr, n) && w.pods[n] == v.pods[n]);
    }
  }

  lemma OthersKeepFit(s: State, e: Event, cr: string)
    requires Inv(s) && Enabled(s, e) && Knows(s, cr) && !(e.Reconcile? && e.cr == cr)
    requires PodsFit(Look(s, cr), cr) && StageFits(Look(s, cr))
    ensures Knows(Apply(s, e), cr) && PodsFit(Look(Apply(s, e), cr), cr) && StageFits(Look(Apply(s, e), cr))
  {
    if e.External? { EnvLeavesAllAlone(s, e.env, cr); } else { CallLeavesOthersAlone(s, e.cr, e.call, cr); }
  }

  lemma StepFits(s: State, e: Event)
    requires Inv(s) && Fits(s) && Enabled(s, e) && !Overrun(s, e)
    ensures Fits(Apply(s, e))
  {
    var t := Apply(s, e);
    forall cr | Knows(t, cr) ensures PodsFit(Look(t, cr), cr) && StageFits(Look(t, cr)) {
      if e.Reconcile? && e.cr == cr {
        OwnCallFits(Look(s, cr), cr, e.call);
        assert Look(t, cr) == ApplyCall(Look(s, cr), cr, e.call);
      } else if Knows(s, cr) {
        OthersKeepFit(s, e, cr);
      }
    }
  }

  lemma {:induction false} RunFits(s: State, run: seq<Event>)
    requires Inv(s) && Fits(s) && Possible(s, run) && NeverOverruns(s, run)
    ensures Inv(After(s, run)) && Fits(After(s, run))
    decreases |run|
  {
    if run != [] {
      StepKeepsInv(s, run[0]);
      StepFits(s, run[0]);
      RunFits(Apply(s, run[0]), run[1..]);
    }
  }

  /** Every index on its way to pod building is inside its run, and no volume code has panicked. */
  ghost predicate IndicesSafe(s: State) {
    forall cr | Knows(s, cr) :: IndexSafe(Look(s, cr))
  }

  predicate IndexSafe(v: View) {
    && !v.stage.Panicked?
    && (v.stage.Acquiring? || v.stage.Ensuring? || v.stage.Locked? || v.stage.Prepared? || v.stage.Creating? ==>
          InRange(v.me.kind, v.stage.task.spec, v.stage.task.step))
  }

  ghost predicate SafeThroughout(s: State, run: seq<Event>)
    requires Possible(s, run)
    decreases |run|
  {
    IndicesSafe(s) && (run == [] || SafeThroughout(Apply(s, run[0]), run[1..]))
  }

  lemma FitIndicesAreSafe(s: State)
    requires Fits(s)
    ensures IndicesSafe(s)
  {
    forall cr | Knows(s, cr) ensures StageFits(Look(s, cr)) {}
  }

  lemma OverrunIsUnsafe(s: State, e: Event)
    requires Inv(s) && Overrun(s, e)
    ensures !IndicesSafe(Apply(s, e))
  {
    OverrunGoesOn(Look(s, e.cr), e.cr, e.call.listing);
    assert Look(Apply(s, e), e.cr) == ApplyCall(Look(s, e.cr), e.cr, e.call);
  }

  lemma OverrunGoesOn(v: View, cr: string, listing: seq<string>)
    requires CallEnabled(v, cr, CheckConfig(listing, true)) && v.stage.decision.action == CreateNextPod
    requires CurrentHash(PodsOf(v.pods, listing)) in {NoHash, HashOf(v.stage.spec)}
    requires v.stage.decision.step > PodCount(v.me.kind, v.stage.spec)
    ensures !IndexSafe(CheckConfigCall(v, cr, listing, true))
  {
  }

  lemma {:induction false} SafeExactlyFrom(s: State, run: seq<Event>)
    requires Inv(s) && Fits(s) && Possible(s, run)
    ensures SafeThroughout(s, run) <==> NeverOverruns(s, run)
    decreases |run|
  {
    FitIndicesAreSafe(s);
    if run != [] {
      var t := Apply(s, run[0]);
      StepKeepsInv(s, run[0]);
      if Overrun(s, run[0]) {
        OverrunIsUnsafe(s, run[0]);
      } else {
        StepFits(s, run[0]);
        SafeExactlyFrom(t, run[1..]);
      }
    }
  }

  /** Index safety, exactly: a run keeps every step index that reaches pod building inside the
      workflow if and only if no config check in it lets a CreateNextPod decision through that was
      taken from a pod of another spec beyond the end of the present one's workflow. */
  lemma IndexSafeExactly(start: State, run: seq<Event>)
    requires Start(start) && Possible(start, run)
    ensures SafeThroughout(start, run) <==> NeverOverruns(start, run)
  {
    SafeExactlyFrom(start, run);
  }

  /** What that means at the volume code: without an overrun its unguarded index never panics. */
  lemma VolumeIndexIsSafe(start: State, run: seq<Event>, cr: string)
    requires Start(start) && Possible(start, run) && NeverOverruns(start, run) && Knows(After(start, run), cr)
    ensures var v := Look(After(start, run), cr);
            && !v.stage.Panicked?
            && (v.stage.Locked? ==> !IndexPanics(v.me.kind, v.stage.task.spec, v.stage.task.step))
  {
    RunFits(start, run);
    assert StageFits(Look(After(start, run), cr));
  }

  // ---- the same in terms of events -------------------------------------------------------------

  /** A CreateNextPod decision is taken from a live, finished pod that stands one step below the decided
      one and carries the hash the decision remembers; so before an overrun such a pod stood beyond the
      workflow. */
  lemma DecidedFromLivePod(v: View, cr: string, listing: seq<string>)
    requires ViewInv(v, cr) && CallEnabled(v, cr, Decide(listing, true))
    requires NextAction(PodsOf(v.pods, listing), WorkflowLength(v.me.kind, v.stage.spec)).action == CreateNextPod
    ensures var w := DecideCall(v, listing, true);
            && w.stage.Decided? && w.stage.decision.action == CreateNextPod
            && exists n :: LivePod(v.pods, cr, n) && v.pods[n].Finished()
                        && v.pods[n].Step() == w.stage.decision.step - 1 && v.pods[n].hash == w.stage.seen
  {
    var list := PodsOf(v.pods, listing);
    LastPodIsHighest(list);
    var last := LastPod(list);
    var m := ListedIsOwn(v.pods, cr, listing, last.value.value);
    assert LivePod(v.pods, cr, m);
  }

  lemma StaleHasNoLivePod(s: State, e: Event, n: string)
    requires Inv(s) && Stale(s, e)
    ensures !LivePod(s.pods, e.cr, n)
  {
    var v := Look(s, e.cr);
    assert ViewInv(v, e.cr);
    if LivePod(v.pods, e.cr, n) {
      CheckEstablishes(v.pods, e.cr, e.call.listing, v.stage.spec);
    }
  }

  /** A stale decision needs interference: NextAction saw a live pod, the config check sees none. */
  lemma StaleMeansPodsVanished(start: State, run: seq<Event>, e: Event, n: string)
    requires Start(start) && Possible(start, run) && Stale(After(start, run), e)
    ensures !LivePod(After(start, run).pods, e.cr, n)
  {
    ReachableInv(start, run);
    StaleHasNoLivePod(After(start, run), e, n);
  }

  ghost predicate HasLivePod(pods: map<string, Pod>, cr: string) {
    exists n :: LivePod(pods, cr, n)
  }

  // ---- exactly which events --------------------------------------------------------------------

  /** All live pods have finished, and one of another spec stands beyond the workflow in hand. */
  ghost predicate DoneBeyond(v: View, cr: string)
    requires v.stage.Fetched?
  {
    && AllFinished(v.pods, cr)
    && exists n :: LivePod(v.pods, cr, n) && v.pods[n].Step() >= PodCount(v.me.kind, v.stage.spec)
                && v.pods[n].hash != HashOf(v.stage.spec)
  }

  /** It has decided on a pod after one of another spec beyond the workflow in hand. */
  predicate Overlong(kind: Kind, stage: Stage) {
    && stage.Decided? && stage.decision.action == CreateNextPod && stage.seen != HashOf(stage.spec)
    && stage.decision.step - 1 >= PodCount(kind, stage.spec)
  }

  lemma DecidesOverlong(v: View, cr: string, listing: seq<string>)
    requires ViewInv(v, cr) && CallEnabled(v, cr, Decide(listing, true))
    ensures Overlong(v.me.kind, DecideCall(v, listing, true).stage) <==> DoneBeyond(v, cr)
  {
    var list, workflowLength := PodsOf(v.pods, listing), WorkflowLength(v.me.kind, v.stage.spec);
    if Overlong(v.me.kind, DecideCall(v, listing, true).stage) {
      DecidedFromLivePod(v, cr, listing);
      DecideEstablishes(v.pods, cr, listing, workflowLength);
    }
    if DoneBeyond(v, cr) {
      var n :| LivePod(v.pods, cr, n) && v.pods[n].Step() >= PodCount(v.me.kind, v.stage.spec)
               && v.pods[n].hash != HashOf(v.stage.spec);
      HighestDecides(v, cr, listing, n);
    }
  }

  lemma HighestDecides(v: View, cr: string, listing: seq<string>, n: string)
    requires ViewInv(v, cr) && CallEnabled(v, cr, Decide(listing, true)) && AllFinished(v.pods, cr)
    requires LivePod(v.pods, cr, n) && v.pods[n].Step() >= PodCount(v.me.kind, v.stage.spec)
    requires v.pods[n].hash != HashOf(v.stage.spec)
    ensures Overlong(v.me.kind, DecideCall(v, listing, true).stage)
  {
    var list := PodsOf(v.pods, listing);
    LastPodIsHighest(list);
    ListingHasLive(v.pods, cr, listing, n);
    ListedAreReadable(v.pods, cr, listing);
    var m := ListedIsOwn(v.pods, cr, listing, LastPod(list).value.value);
    assert LivePod(v.pods, cr, m) && v.pods[m].hash == v.pods[n].hash;
  }

  /** An overrun is a passing config check of such a decision when no live pod is left. */
  lemma OverrunExactly(s: State, e: Event)
    requires Inv(s) && Enabled(s, e)
    ensures Overrun(s, e) <==>
              && e.Reconcile? && e.call.CheckConfig? && e.call.ok
              && Overlong(s.crs[e.cr].kind, s.at[e.cr]) && !HasLivePod(s.pods, e.cr)
  {
    if Overrun(s, e) {
      if n :| LivePod(s.pods, e.cr, n) {
        StaleHasNoLivePod(s, e, n);
      }
    } else if e.Reconcile? && e.call.CheckConfig? && !HasLivePod(s.pods, e.cr) {
      var list := PodsOf(s.pods, e.call.listing);
      if CurrentHash(list) != NoHash {
        HashComesFromLive(list);
        var p :| p in list && p.Live() && p.hash == CurrentHash(list);
        var m := ListedIsOwn(s.pods, e.cr, e.call.listing, p);
        assert LivePod(s.pods, e.cr, m);
      }
    }
  }

  predicate OwnEvent(e: Event, cr: string) { e.Reconcile? && e.cr == cr }

  /** At `d` the custom resource decides while all its live pods have finished and one of another spec stands
      beyond the workflow in hand; its next event, at `k`, is the config check, with no live pod left. */
  ghost predicate PodsVanish(start: State, run: seq<Event>, cr: string, d: nat, k: nat)
    requires Possible(start, run)
  {
    && d < k < |run| && (forall j | d < j < k :: !OwnEvent(run[j], cr))
    && OwnEvent(run[d], cr) && run[d].call.Decide? && run[d].call.ok
    && OwnEvent(run[k], cr) && run[k].call.CheckConfig? && run[k].call.ok
    && var s, t := StateAt(start, run, d), StateAt(start, run, k);
       && Knows(s, cr) && s.at[cr].Fetched? && DoneBeyond(Look(s, cr), cr) && !HasLivePod(t.pods, cr)
  }

  lemma OnlyDecideDecides(v: View, cr: string, call: Call)
    requires CallEnabled(v, cr, call) && ApplyCall(v, cr, call).stage.Decided?
    ensures call.Decide? && call.ok
  {
  }

  lemma OthersKeepStage(s: State, e: Event, cr: string)
    requires Enabled(s, e) && !OwnEvent(e, cr) && Knows(s, cr)
    ensures var t := Apply(s, e); Knows(t, cr) && t.at[cr] == s.at[cr] && t.crs[cr].kind == s.crs[cr].kind
  {
  }

  /** A standing decision was there before the event, or the event has taken it. */
  lemma DecisionComesFrom(s: State, e: Event, cr: string)
    requires Inv(s) && Enabled(s, e) && Knows(Apply(s, e), cr) && Apply(s, e).at[cr].Decided?
    ensures if OwnEvent(e, cr) then e.call.Decide? && e.call.ok else Knows(s, cr) && s.at[cr].Decided?
  {
    if OwnEvent(e, cr) {
      OnlyDecideDecides(Look(s, cr), cr, e.call);
    }
  }

  lemma {:induction false} StateAtInv(start: State, run: seq<Event>, k: nat)
    requires Inv(start) && Possible(start, run) && k <= |run|
    ensures Inv(StateAt(start, run, k))
    decreases k
  {
    if k > 0 {
      StepKeepsInv(start, run[0]);
      StateAtInv(Apply(start, run[0]), run[1..], k - 1);
    }
  }

  lemma DecidedAtLast(start: State, run: seq<Event>, cr: string, k: nat)
    requires Start(start) && Possible(start, run) && k < |run|
    requires var t := StateAt(start, run, k + 1); Knows(t, cr) && t.at[cr].Decided?
    ensures if OwnEvent(run[k], cr) then run[k].call.Decide? && run[k].call.ok
            else
              var s, t := StateAt(start, run, k), StateAt(start, run, k + 1);
              Knows(s, cr) && s.at[cr] == t.at[cr] && s.crs[cr].kind == t.crs[cr].kind
  {
    StateAtInv(start, run, k);
    StateAtStep(start, run, k);
    DecisionComesFrom(StateAt(start, run, k), run[k], cr);
    if !OwnEvent(run[k], cr) {
      OthersKeepStage(StateAt(start, run, k), run[k], cr);
    }
  }

  /** A decision stands from the event that took it until the next own event. */
  lemma {:induction false} DecidedAt(start: State, run: seq<Event>, cr: string, k: nat) returns (d: nat)
    requires Start(start) && Possible(start, run) && k <= |run|
    requires var t := StateAt(start, run, k); Knows(t, cr) && t.at[cr].Decided?
    ensures d < k && OwnEvent(run[d], cr) && run[d].call.Decide? && run[d].call.ok
    ensures forall j | d < j < k :: !OwnEvent(run[j], cr)
    ensures var s, t := StateAt(start, run, d + 1), StateAt(start, run, k);
            Knows(s, cr) && s.at[cr] == t.at[cr] && s.crs[cr].kind == t.crs[cr].kind
    decreases k
  {
    if k > 0 {
      DecidedAtLast(start, run, cr, k - 1);
      if OwnEvent(run[k - 1], cr) {
        d := k - 1;
      } else {
        d := DecidedAt(start, run, cr, k - 1);
      }
    }
  }

  lemma {:induction false} DecisionStands(start: State, run: seq<Event>, cr: string, d: nat, k: nat)
    requires Possible(start, run) && d <= k <= |run| && Knows(StateAt(start, run, d), cr)
    requires forall j | d <= j < k :: !OwnEvent(run[j], cr)
    ensures var s, t := StateAt(start, run, d), StateAt(start, run, k);
            Knows(t, cr) && s.at[cr] == t.at[cr] && s.crs[cr].kind == t.crs[cr].kind
    decreases k
  {
    if d < k {
      DecisionStands(start, run, cr, d, k - 1);
      StateAtStep(start, run, k - 1);
      OthersKeepStage(StateAt(start, run, k - 1), run[k - 1], cr);
    }
  }

  /** The decision taken at an event is overlong exactly when the pods reached beyond the workflow. */
  lemma DecisionTakenAt(start: State, run: seq<Event>, cr: string, d: nat)
    requires Start(start) && Possible(start, run) && d < |run|
    requires OwnEvent(run[d], cr) && run[d].call.Decide? && run[d].call.ok
    ensures var s, t := StateAt(start, run, d), StateAt(start, run, d + 1);
            && Knows(s, cr) && s.at[cr].Fetched? && Knows(t, cr)
            && (Overlong(t.crs[cr].kind, t.at[cr]) <==> DoneBeyond(Look(s, cr), cr))
  {
    StateAtInv(start, run, d);
    StateAtStep(start, run, d);
    DecidesOverlong(Look(StateAt(start, run, d), cr), cr, run[d].call.listing);
  }

  lemma OverrunAt(start: State, run: seq<Event>, k: nat)
    requires Start(start) && Possible(start, run) && k < |run|
    ensures var t, e := StateAt(start, run, k), run[k];
            && Enabled(t, e)
            && (Overrun(t, e) <==>
                  && e.Reconcile? && e.call.CheckConfig? && e.call.ok
                  && Overlong(t.crs[e.cr].kind, t.at[e.cr]) && !HasLivePod(t.pods, e.cr))
  {
    StateAtInv(start, run, k);
    StateAtStep(start, run, k);
    OverrunExactly(StateAt(start, run, k), run[k]);
  }

  lemma OverrunMeansVanished(start: State, run: seq<Event>, k: nat) returns (d: nat)
    requires Start(start) && Possible(start, run) && k < |run| && Overrun(StateAt(start, run, k), run[k])
    ensures PodsVanish(start, run, run[k].cr, d, k)
  {
    OverrunAt(start, run, k);
    d := DecidedAt(start, run, run[k].cr, k);
    DecisionTakenAt(start, run, run[k].cr, d);
  }

  lemma VanishedMeansOverrun(start: State, run: seq<Event>, cr: string, d: nat, k: nat)
    requires Start(start) && Possible(start, run) && PodsVanish(start, run, cr, d, k)
    ensures Overrun(StateAt(start, run, k), run[k])
  {
    DecisionTakenAt(start, run, cr, d);
    DecisionStands(start, run, cr, d + 1, k);
    OverrunAt(start, run, k);
  }

  lemma {:induction false} NeverOverrunsAt(s: State, run: seq<Event>)
    requires Possible(s, run)
    ensures NeverOverruns(s, run) <==> forall k | 0 <= k < |run| :: !Overrun(StateAt(s, run, k), run[k])
    decreases |run|
  {
    if run != [] {
      var t := Apply(s, run[0]);
      NeverOverrunsAt(t, run[1..]);
      forall k | 0 < k < |run| ensures StateAt(s, run, k) == StateAt(t, run[1..], k - 1) && run[k] == run[1..][k - 1] {}
      assert StateAt(s, run, 0) == s;
      if NeverOverruns(s, run) {
        forall k | 0 <= k < |run| ensures !Overrun(StateAt(s, run, k), run[k]) {}
      } else if !Overrun(s, run[0]) {
        var k :| 0 <= k < |run| - 1 && Overrun(StateAt(t, run[1..], k), run[1..][k]);
        assert Overrun(StateAt(s, run, k + 1), run[k + 1]);
      }
    }
  }

  /** Index safety in terms of events: a run keeps every index in range if and only if never does a custom
      resource decide while its finished pods of another spec reach beyond the workflow in hand, and then
      make its config check, as its next event, with all of these pods gone. */
  lemma IndexSafeUnlessPodsVanish(start: State, run: seq<Event>)
    requires Start(start) && Possible(start, run)
    ensures SafeThroughout(start, run) <==> forall cr, d: nat, k: nat :: !PodsVanish(start, run, cr, d, k)
  {
    IndexSafeExactly(start, run);
    NeverOverrunsAt(start, run);
    if k :| 0 <= k < |run| && Overrun(StateAt(start, run, k), run[k]) {
      var d := OverrunMeansVanished(start, run, k);
    }
    if cr, d: nat, k: nat :| PodsVanish(start, run, cr, d, k) {
      VanishedMeansOverrun(start, run, cr, d, k);
    }
  }

  /** `e` takes the last live pod of a custom resource that stands between its two listings. */
  ghost predicate TakesLastPod(s: State, e: Event) {
    && Enabled(s, e)
    && exists cr :: Knows(s, cr) && s.at[cr].Decided? && !OwnEvent(e, cr)
                 && HasLivePod(s.pods, cr) && !HasLivePod(Apply(s, e).pods, cr)
  }

  ghost predicate NeverTakesLastPod(start: State, run: seq<Event>)
    requires Possible(start, run)
  {
    forall k | 0 <= k < |run| :: !TakesLastPod(StateAt(start, run, k), run[k])
  }

  ghost predicate StandsOnLivePod(s: State, cr: string) {
    Knows(s, cr) && s.at[cr].Decided? && HasLivePod(s.pods, cr)
  }

  lemma LivePodStaysOnce(start: State, run: seq<Event>, cr: string, k: nat)
    requires Possible(start, run) && k < |run| && NeverTakesLastPod(start, run) && !OwnEvent(run[k], cr)
    requires StandsOnLivePod(StateAt(start, run, k), cr)
    ensures StandsOnLivePod(StateAt(start, run, k + 1), cr)
  {
    StateAtStep(start, run, k);
    OthersKeepStage(StateAt(start, run, k), run[k], cr);
    assert !TakesLastPod(StateAt(start, run, k), run[k]);
  }

  lemma {:induction false} LivePodStays(start: State, run: seq<Event>, cr: string, d: nat, k: nat)
    requires Possible(start, run) && d <= k <= |run| && NeverTakesLastPod(start, run)
    requires StandsOnLivePod(StateAt(start, run, d), cr)
    requires forall j | d <= j < k :: !OwnEvent(run[j], cr)
    ensures StandsOnLivePod(StateAt(start, run, k), cr)
    decreases k
  {
    if d < k {
      LivePodStays(start, run, cr, d, k - 1);
      LivePodStaysOnce(start, run, cr, k - 1);
    }
  }

  lemma DecidesOnLivePod(start: State, run: seq<Event>, cr: string, d: nat)
    requires Start(start) && Possible(start, run) && d < |run|
    requires OwnEvent(run[d], cr) && run[d].call.Decide? && run[d].call.ok
    requires var s := StateAt(start, run, d); Knows(s, cr) && s.at[cr].Fetched? && DoneBeyond(Look(s, cr), cr)
    ensures StandsOnLivePod(StateAt(start, run, d + 1), cr)
  {
    DecisionTakenAt(start, run, cr, d);
    StateAtStep(start, run, d);
    var n :| LivePod(StateAt(start, run, d).pods, cr, n);
    assert LivePod(StateAt(start, run, d + 1).pods, cr, n);
  }

  lemma PodsStay(start: State, run: seq<Event>, cr: string, d: nat, k: nat)
    requires Start(start) && Possible(start, run) && NeverTakesLastPod(start, run)
    ensures !PodsVanish(start, run, cr, d, k)
  {
    if PodsVanish(start, run, cr, d, k) {
      DecidesOnLivePod(start, run, cr, d);
      LivePodStays(start, run, cr, d + 1, k);
    }
  }

  /** So a run in which nobody takes the last live pod of a custom resource between its two listings keeps
      every step index in range. */
  lemma SafeWhilePodsStay(start: State, run: seq<Event>)
    requires Start(start) && Possible(start, run) && NeverTakesLastPod(start, run)
    ensures NeverOverruns(start, run) && SafeThroughout(start, run)
  {
    forall cr, d: nat, k: nat ensures !PodsVanish(start, run, cr, d, k) {
      PodsStay(start, run, cr, d, k);
    }
    IndexSafeUnlessPodsVanish(start, run);
    IndexSafeExactly(start, run);
  }
}
