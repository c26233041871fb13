/**
 What the status of a custom resource says after each part of a reconcile, condition by condition. The
 kinds and the conditions are spelled out here, apart from the code that sets them.
 */
module StatusTable {
  import opened Types
  import opened Conditions
  import opened Protocol

  predicate HasNetworks(kind: Kind) { kind == Tempest || kind == Tobiko }

  /** Every condition but Ready is as it was, unless it is one of `but`. */
  predicate OthersKept(was: StatusMap, now: StatusMap, but: set<Cond>) {
    forall k | k != Ready && k !in but :: Shows(now, k) == Shows(was, k)
  }

  predicate AllTrue(c: StatusMap) { forall k | k in c && k != Ready :: c[k] == True }

  /** At the end of a reconcile an undecided Ready is replaced by a summary: False if any other condition
      is False, True if all are True. A decided one stays. */
  ghost predicate ReadySettled(was: Option<Status>, now: StatusMap) {
    if was == Some(Undecided) then
      && Ready in now
      && (now[Ready] == False <==> exists k :: k in now && k != Ready && now[k] == False)
      && (now[Ready] == True <==> AllTrue(now))
    else Shows(now, Ready) == was
  }

  /** The conditions that a kind has. */
  function StatusKeys(kind: Kind): set<Cond> {
    {Ready, InputReady, DeploymentReady} + (if kind == AnsibleTest then {} else {ServiceConfigReady})
    + (if HasNetworks(kind) then {NetworkAttachmentsReady} else {})
  }

  /** A custom resource read for the first time. */
  predicate InitialShown(kind: Kind, now: StatusMap) {
    now.Keys == StatusKeys(kind) && forall k | k in now :: now[k] == Undecided
  }

  /** The pod could not be built. */
  ghost predicate FailureShown(kind: Kind, outcome: PrepareOutcome, was: StatusMap, now: StatusMap) {
    && Shows(now, InputReady) == Some(if outcome == InputsInvalid then False else True)
    && Shows(now, ServiceConfigReady)
       == (if kind == AnsibleTest || outcome == InputsInvalid || outcome == StorageFails
           then Shows(was, ServiceConfigReady) else Some(if outcome == ConfigMapsFail then False else True))
    && Shows(now, NetworkAttachmentsReady)
       == (if HasNetworks(kind) && outcome == NetworkMissing then Some(False)
           else if HasNetworks(kind) && outcome == BuildFails then Some(True)
           else Shows(was, NetworkAttachmentsReady))
    && Shows(now, DeploymentReady) == Shows(was, DeploymentReady)
    && ReadySettled(Shows(was, Ready), now)
  }

  /** The pod has been built. */
  predicate BuiltShown(kind: Kind, was: StatusMap, now: StatusMap) {
    && Shows(now, InputReady) == Some(True)
    && Shows(now, ServiceConfigReady) == (if kind == AnsibleTest then Shows(was, ServiceConfigReady) else Some(True))
    && Shows(now, NetworkAttachmentsReady)
       == (if HasNetworks(kind) then Some(True) else Shows(was, NetworkAttachmentsReady))
    && Shows(now, DeploymentReady) == Shows(was, DeploymentReady) && Shows(now, Ready) == Shows(was, Ready)
  }

  /** The network status of the created pod has been looked at. */
  ghost predicate VerifiedShown(kind: Kind, outcome: VerifyOutcome, was: StatusMap, now: StatusMap) {
    && OthersKept(was, now, {NetworkAttachmentsReady})
    && Shows(now, NetworkAttachmentsReady)
       == (if HasNetworks(kind) && outcome == NetworkReady then Some(True)
           else if HasNetworks(kind) && outcome == NetworkWaiting then Some(False)
           else Shows(was, NetworkAttachmentsReady))
    && (if (!HasNetworks(kind) || outcome == NetworkReady || outcome == PodGone) && AllTrue(now)
        then Shows(now, Ready) == Some(True) else ReadySettled(Shows(was, Ready), now))
  }

  /** A release has ended. */
  ghost predicate ReleasedShown(site: Site, released: bool, was: StatusMap, now: StatusMap) {
    && OthersKept(was, now, {DeploymentReady})
    && Shows(now, DeploymentReady)
       == (if !released then Shows(was, DeploymentReady) else if site == AtEnd then Some(True) else Some(False))
    && (if released && site == AtEnd && AllTrue(now) then Shows(now, Ready) == Some(True)
        else ReadySettled(Shows(was, Ready), now))
  }

  lemma ExitSettles(c: StatusMap)
    ensures OthersKept(c, OnExit(c), {}) && ReadySettled(Shows(c, Ready), OnExit(c))
  {
    var now := OnExit(c);
    assert forall k | k != Ready :: k in now <==> k in c;
    if Is(c, Ready, Undecided) {
      forall k | k in now && k != Ready ensures now[k] == c[k] {}
      if Mirror(c) == True {
        forall k | k in now && k != Ready ensures now[k] == True {
          assert c[k] != False && c[k] != Undecided;
        }
      }
    }
  }

  lemma InitialShows(kind: Kind)
    ensures InitialShown(kind, OnExit(Initial(kind)))
  {
    assert Initial(kind)[InputReady] == Undecided;
    assert forall k | k in Initial(kind) :: Initial(kind)[k] == Undecided;
  }

  lemma FailureShows(kind: Kind, outcome: PrepareOutcome, c: StatusMap)
    requires outcome != Built
    ensures FailureShown(kind, outcome, c, OnExit(FailedConditions(kind, c, outcome)))
  {
    var failed := FailedConditions(kind, c, outcome);
    ExitSettles(failed);
    assert Shows(failed, Ready) == Shows(c, Ready);
  }

  lemma BuiltShows(kind: Kind, c: StatusMap)
    ensures BuiltShown(kind, c, PreparedConditions(kind, c))
  {
  }

  /** Marking Ready when all others are True shows through the exit. */
  lemma MarkShows(c: StatusMap)
    ensures OthersKept(c, OnExit(MarkReadyIfAllTrue(c)), {})
    ensures AllTrue(OnExit(MarkReadyIfAllTrue(c))) <==> AllTrue(c)
    ensures if AllTrue(c) then Shows(OnExit(MarkReadyIfAllTrue(c)), Ready) == Some(True)
            else ReadySettled(Shows(c, Ready), OnExit(MarkReadyIfAllTrue(c)))
  {
    ExitSettles(MarkReadyIfAllTrue(c));
    var now := OnExit(MarkReadyIfAllTrue(c));
    forall k | k != Ready ensures Shows(now, k) == Shows(c, k) {
      assert Shows(MarkReadyIfAllTrue(c), k) == Shows(c, k);
    }
    if AllTrue(now) {
      forall k | k in c && k != Ready ensures c[k] == True {
        assert Shows(now, k) == Shows(c, k);
      }
    }
  }

  lemma VerifiedShows(kind: Kind, outcome: VerifyOutcome, c: StatusMap)
    ensures VerifiedShown(kind, outcome, c, OnExit(VerifiedConditions(kind, c, outcome)))
  {
    MarkShows(c);
    MarkShows(c[NetworkAttachmentsReady := True]);
    ExitSettles(c);
    ExitSettles(c[NetworkAttachmentsReady := False]);
    assert Shows(c[NetworkAttachmentsReady := True], Ready) == Shows(c, Ready);
    assert Shows(c[NetworkAttachmentsReady := False], Ready) == Shows(c, Ready);
  }

  lemma ReleasedShows(site: Site, released: bool, c: StatusMap)
    ensures ReleasedShown(site, released, c, OnExit(ReleasedConditions(site, c, released)))
  {
    ExitSettles(c);
    ExitSettles(c[DeploymentReady := False]);
    MarkShows(c[DeploymentReady := True]);
    assert Shows(c[DeploymentReady := True], Ready) == Shows(c, Ready);
    assert Shows(c[DeploymentReady := False], Ready) == Shows(c, Ready);
  }

  // ---- call by call ----------------------------------------------------------------------------

  /** The record is as before but for these conditions. */
  predicate OnlyStatus(v: View, w: View) { w.me == v.me.(conditions := w.me.conditions) }

  /** A reconcile that ends without anything to report. */
  ghost predicate LeftQuietly(v: View, w: View) {
    OthersKept(v.me.conditions, w.me.conditions, {}) && ReadySettled(Shows(v.me.conditions, Ready), w.me.conditions)
  }

  ghost predicate FetchShown(v: View, w: View) {
    if v.me.conditions == map[] then w.stage == Idle && OnlyStatus(v, w) && InitialShown(v.me.kind, w.me.conditions)
    else if v.me.kind == Tempest && !v.me.finalizer then
      w.stage == Idle && w.me == v.me.(finalizer := true, conditions := w.me.conditions) && LeftQuietly(v, w)
    else w.stage == Fetched(v.me.spec) && w.me == v.me
  }

  ghost predicate PrepareShown(v: View, outcome: PrepareOutcome, w: View)
    requires v.stage.Locked?
  {
    var task := v.stage.task;
    && OnlyStatus(v, w)
    && if outcome != Built then
         w.stage == Idle && FailureShown(v.me.kind, outcome, v.me.conditions, w.me.conditions)
       else if v.me.kind == AnsibleTest && task.spec.workflow != [] && !(0 <= task.step < |task.spec.workflow|) then
         w.stage == Panicked && w.me == v.me
       else w.stage == Prepared(task) && BuiltShown(v.me.kind, v.me.conditions, w.me.conditions)
  }

  /** The lock is read as absent. */
  predicate ReadsFree(v: View, call: Call) {
    (call == ReleaseRead(true) || call == ReleasePoll(true)) && v.lock == NoLock
  }

  ghost predicate ReleaseShown(v: View, call: Call, w: View)
    requires v.stage.Releasing? || v.stage.Holding? || v.stage.Polling?
  {
    && OnlyStatus(v, w) && (ReadsFree(v, call) ==> w.stage == Idle)
    && if w.stage == Idle then ReleasedShown(v.stage.site, ReadsFree(v, call), v.me.conditions, w.me.conditions)
       else w.me == v.me
  }

  lemma FetchShows(v: View, cr: string)
    requires CallEnabled(v, cr, Fetch)
    ensures FetchShown(v, ApplyCall(v, cr, Fetch))
  {
    InitialShows(v.me.kind);
    ExitSettles(v.me.conditions);
  }

  lemma PrepareShows(v: View, cr: string, outcome: PrepareOutcome)
    requires CallEnabled(v, cr, Prepare(outcome))
    ensures PrepareShown(v, outcome, ApplyCall(v, cr, Prepare(outcome)))
  {
    if outcome != Built {
      FailureShows(v.me.kind, outcome, v.me.conditions);
    } else {
      BuiltShows(v.me.kind, v.me.conditions);
    }
  }

  lemma VerifyShows(v: View, cr: string, outcome: VerifyOutcome)
    requires CallEnabled(v, cr, Verify(outcome))
    ensures var w := ApplyCall(v, cr, Verify(outcome));
            w.stage == Idle && OnlyStatus(v, w) && VerifiedShown(v.me.kind, outcome, v.me.conditions, w.me.conditions)
  {
    VerifiedShows(v.me.kind, outcome, v.me.conditions);
  }

  lemma ReleaseShows(v: View, cr: string, call: Call)
    requires CallEnabled(v, cr, call) && (call.ReleaseRead? || call.ReleaseDelete? || call.ReleasePoll?)
    ensures ReleaseShown(v, call, ApplyCall(v, cr, call))
  {
    ReleasedShows(v.stage.site, ReadsFree(v, call), v.me.conditions);
  }

  /** The other calls touch the status only where they end the reconcile. */
  lemma OtherCallsShow(v: View, cr: string, call: Call)
    requires CallEnabled(v, cr, call)
    requires !(call.Fetch? || call.Prepare? || call.Verify?)
    requires !(call.ReleaseRead? || call.ReleaseDelete? || call.ReleasePoll?)
    ensures var w := ApplyCall(v, cr, call);
            if w.stage == Idle && !call.Restart? then LeftQuietly(v, w) else w.me.conditions == v.me.conditions
  {
    ExitSettles(v.me.conditions);
  }
}
