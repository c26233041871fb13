/**
 CommonReconcile and its helpers as they act on the namespace: straight-line code, loops and updates
 in place, with everybody else free to act before each call. The class keeps the history of all
 events; its validity says that the namespace is exactly where the protocol leads after that history.
 */
module Reconciler {
  import opened Types
  import opened Decision
  import opened Conditions
  import opened History
  import opened Protocol
  import opened ProtocolSafety
  import opened StatusTable
  import PodNames

  lemma {:induction false} ErrorSticks(list: seq<Pod>, k: nat)
    requires k <= |list| && LastPod(list[..k]).Err?
    ensures LastPod(list).Err?
    decreases |list| - k
  {
    if k < |list| {
      assert list[..k + 1][..k] == list[..k];
      ErrorSticks(list, k + 1);
    } else {
      assert list[..k] == list;
    }
  }

  method GetLastPod(list: seq<Pod>) returns (r: Result<Option<Pod>>)
    ensures r == LastPod(list)
    ensures IsLastPod(list, r)
    ensures forall k: nat | LastHighest(list, k) :: r == Ok(Some(list[k]))
  {
    forall k: nat | LastHighest(list, k) ensures LastPod(list) == Ok(Some(list[k])) {
      LastPodIsLastHighest(list, k);
    }
    var maxPod: Option<Pod> := None;
    var maxPodWorkflowStep := 0;
    for k := 0 to |list|
      invariant LastPod(list[..k]) == Ok(maxPod)
      invariant maxPodWorkflowStep == if maxPod.Some? then maxPod.value.Step() else 0
    {
      assert list[..k + 1][..k] == list[..k];
      var pod := list[k];
      if pod.terminating {
        continue;
      }
      if pod.stepLabel.None? {
        ErrorSticks(list, k + 1);
        LastPodIsHighest(list);
        return Err;
      }
      var workflowStep := pod.stepLabel.value;
      if workflowStep >= maxPodWorkflowStep {
        maxPodWorkflowStep := workflowStep;
        maxPod := Some(pod);
      }
    }
    assert list[..|list|] == list;
    LastPodIsHighest(list);
    r := Ok(maxPod);
  }

  /** The decision of NextAction, with the hash of the pod it was taken from. */
  method ChooseAction(list: seq<Pod>, workflowLength: nat) returns (decision: Decision, seen: ConfigHash)
    ensures decision == NextAction(list, workflowLength) && seen == SeenHash(list)
    ensures IsDecision(list, workflowLength, decision) && decision.step >= 0
  {
    NextActionIsRight(list, workflowLength);
    var last := GetLastPod(list);
    if last.Err? {
      return Decision(Failure, 0), NoHash;
    }
    if last.value.None? {
      return Decision(CreateFirstPod, 0), NoHash;
    }
    var lastPod := last.value.value;
    var workflowStepIdx := lastPod.stepLabel.value;
    seen := lastPod.hash;
    match lastPod.phase {
      case Pending => decision := Decision(CheckPending, workflowStepIdx);
      case Running => decision := Decision(Wait, workflowStepIdx);
      case Failed | Succeeded =>
        if !IsLastPodIndex(workflowStepIdx, workflowLength) {
          workflowStepIdx := workflowStepIdx + 1;
          decision := Decision(CreateNextPod, workflowStepIdx);
        } else {
          decision := Decision(EndTesting, workflowStepIdx);
        }
      case Unknown => decision := Decision(Wait, workflowStepIdx);
    }
  }

  /** Merges the step and reads `parallel`. */
  method ChooseParallel(kind: Kind, spec: Spec, step: nat) returns (parallel: bool)
    ensures parallel == EffectiveParallel(kind, spec, step)
  {
    var merged := spec;
    if kind.SupportsWorkflow() && step < |spec.workflow| {
      merged := MergeStep(kind, spec, step);
    }
    parallel := false;
    if kind.HasParallel() {
      parallel := merged.parallel;
    }
  }

  lemma {:induction false} HashBeyondPrefix(list: seq<Pod>, k: nat)
    requires k <= |list|
    requires forall j | 0 <= j < k :: !(list[j].Live() && list[j].hash != NoHash)
    ensures CurrentHash(list) == CurrentHash(list[k..])
  {
    if k == 0 {
      assert list[0..] == list;
    } else {
      HashBeyondPrefix(list[1..], k - 1);
      assert list[1..][k - 1..] == list[k..];
    }
  }

  /** Position `k` holds the first live pod that has a hash. */
  predicate FirstWithHash(list: seq<Pod>, k: nat) {
    && k < |list| && list[k].Live() && list[k].hash != NoHash
    && forall j | 0 <= j < k :: !(list[j].Live() && list[j].hash != NoHash)
  }

  method FindHash(list: seq<Pod>) returns (currentHash: ConfigHash)
    ensures currentHash == CurrentHash(list)
    ensures forall k: nat | FirstWithHash(list, k) :: currentHash == list[k].hash
    ensures (forall k: nat :: !FirstWithHash(list, k)) ==> currentHash == NoHash
  {
    forall k: nat | FirstWithHash(list, k) ensures CurrentHash(list) == list[k].hash {
      HashBeyondPrefix(list, k);
    }
    for k := 0 to |list|
      invariant forall j | 0 <= j < k :: !(list[j].Live() && list[j].hash != NoHash)
    {
      if list[k].terminating {
        continue;
      }
      if list[k].hash != NoHash {
        assert FirstWithHash(list, k);
        HashBeyondPrefix(list, k);
        return list[k].hash;
      }
    }
    HashBeyondPrefix(list, |list|);
    currentHash := NoHash;
  }

  lemma LiveNamesFrom(pods: map<string, Pod>, listing: seq<string>, k: nat)
    requires (forall n | n in listing :: n in pods) && k < |listing|
    ensures LiveNames(pods, listing[k..])
            == (if pods[listing[k]].Live() then [listing[k]] else []) + LiveNames(pods, listing[k + 1..])
  {
    assert listing[k..][0] == listing[k] && listing[k..][1..] == listing[k + 1..];
  }

  ghost predicate NoneLive(pods: map<string, Pod>, me: string, names: seq<string>) {
    forall n | n in names :: !LivePod(pods, me, n)
  }

  lemma NoneLiveGrows(before: map<string, Pod>, after: map<string, Pod>, me: string, listing: seq<string>, k: nat)
    requires k < |listing| && NoNewPods(before, after, me)
    requires NoneLive(before, me, listing[..k]) && !LivePod(after, me, listing[k])
    ensures NoneLive(after, me, listing[..k + 1])
  {
    assert listing[..k + 1] == listing[..k] + [listing[k]];
  }

  /** How a config check ends. */
  datatype CheckResult = Passed | ListFailed | DeleteFailed | Recreating

  /** What the reading of the lock before a creation shows. */
  datatype LockReading = Free | Mine | Withheld

  /** What the look for the pod to be created finds. */
  datatype LookupResult = Present | Absent | Unanswered

  /** The stage after some deletes, with those in `rest` still to do. */
  function AfterDeletes(rest: seq<string>): Stage {
    if rest == [] then Idle else Deleting(rest)
  }

  class Cluster {
    var lock: Lock
    var pods: map<string, Pod>
    var crs: map<string, Instance>
    var at: map<string, Stage>
    ghost const start: State
    ghost var history: seq<Event>

    ghost function Now(): State
      reads this
    {
      State(lock, pods, crs, at)
    }

    ghost predicate Valid()
      reads this
    {
      Start(start) && Leads(start, history, Now())
    }

    ghost predicate Serving(me: string)
      reads this
    {
      Valid() && Knows(Now(), me)
    }

    constructor ()
      ensures Valid() && history == [] && pods == map[] && crs == map[]
    {
      lock, pods, crs, at := NoLock, map[], map[], map[];
      start, history := State(NoLock, map[], map[], map[]), [];
    }

    /** Every state the class can be in satisfies the protocol's invariant. */
    lemma ValidMeansInv()
      requires Valid()
      ensures Inv(Now())
    {
      ReachableInv(start, history);
    }

    /** So the namespace never has two live unfinished pods that are not parallel. */
    lemma NeverTwoExclusive(a: string, n: string, b: string, m: string)
      requires Valid() && Exclusive(pods, a, n) && Exclusive(pods, b, m)
      ensures n == m
    {
      MutualExclusion(start, history, a, n, b, m);
    }

    ghost method Record(e: Event, before: State)
      requires Start(start) && Leads(start, history, before) && Enabled(before, e) && Apply(before, e) == Now()
      modifies this`history
      ensures Valid() && history == old(history) + [e]
    {
      var longer, t := Extend(start, history, before, e);
      history := longer;
    }

    /** Anything else may happen here: other reconciles, users, the kubelet. */
    method Interfere(me: string)
      requires Serving(me)
      modifies this
      ensures Serving(me) && OnlyOthers(me, old(history), history)
      ensures at[me] == old(at[me]) && crs[me] == old(crs[me]).(spec := crs[me].spec)
      ensures lock.HeldBy(crs[me].uid) <==> old(lock.HeldBy(crs[me].uid))
      ensures NoNewPods(old(pods), pods, me)
    {
      var rounds: nat := *;
      while rounds > 0
        invariant Serving(me) && OnlyOthers(me, old(history), history)
        invariant at[me] == old(at[me]) && crs[me] == old(crs[me]).(spec := crs[me].spec)
        invariant lock.HeldBy(crs[me].uid) <==> old(lock.HeldBy(crs[me].uid))
        invariant NoNewPods(old(pods), pods, me)
      {
        var e: Event := *;
        Happen(me, e);
        rounds := rounds - 1;
      }
    }

    method Happen(me: string, e: Event)
      requires Serving(me)
      modifies this
      ensures Serving(me) && OnlyOthers(me, old(history), history)
      ensures at[me] == old(at[me]) && crs[me] == old(crs[me]).(spec := crs[me].spec)
      ensures lock.HeldBy(crs[me].uid) <==> old(lock.HeldBy(crs[me].uid))
      ensures NoNewPods(old(pods), pods, me)
    {
      var before := State(lock, pods, crs, at);
      if Enabled(before, e) && !(e.Reconcile? && e.cr == me) {
        ValidMeansInv();
        LockStaysMine(before, e, me);
        Take(e);
      }
    }

    method Take(e: Event)
      requires Valid() && Enabled(Now(), e)
      modifies this
      ensures Valid() && Now() == Apply(old(Now()), e) && history == old(history) + [e]
    {
      var before := State(lock, pods, crs, at);
      var after := Apply(before, e);
      lock, pods, crs, at := after.lock, after.pods, after.crs, after.at;
      Record(e, before);
    }

    // ---- the end of a reconcile ----------------------------------------------------------------

    /** Leaves with the given conditions; `call` is the answer that made the reconcile leave. */
    method Return(me: string, conditions: StatusMap, ghost call: Call)
      requires Serving(me) && CallEnabled(Look(Now(), me), me, call)
      requires ApplyCall(Look(Now(), me), me, call) == Leave(Look(Now(), me), conditions)
      modifies this
      ensures Serving(me) && history == old(history) + [Reconcile(me, call)]
      ensures at[me] == Idle && crs[me] == old(crs[me]).(conditions := OnExit(conditions))
      ensures pods == old(pods) && lock == old(lock)
    {
      ghost var before := Now();
      crs := crs[me := crs[me].(conditions := OnExit(conditions))];
      at := at[me := Idle];
      Record(Reconcile(me, call), before);
    }

    /** Goes on to the next stage; `call` is the call that got it there. */
    method Proceed(me: string, stage: Stage, ghost call: Call)
      requires Serving(me) && CallEnabled(Look(Now(), me), me, call)
      requires ApplyCall(Look(Now(), me), me, call) == Look(Now(), me).(stage := stage)
      modifies this
      ensures Serving(me) && history == old(history) + [Reconcile(me, call)] && at == old(at)[me := stage]
      ensures lock == old(lock) && pods == old(pods) && crs == old(crs)
    {
      ghost var before := Now();
      at := at[me := stage];
      Record(Reconcile(me, call), before);
    }

    // ---- listing -------------------------------------------------------------------------------

    /** The cluster lists the pods of an instance in an order of its own. */
    method ListPods(me: string) returns (listing: seq<string>)
      ensures IsListing(pods, me, listing)
    {
      listing := [];
      var rest := set n | n in pods && pods[n].instance == me;
      while rest != {}
        invariant forall n | n in rest :: n in pods && pods[n].instance == me && n !in listing
        invariant forall k | 0 <= k < |listing| :: listing[k] in pods && pods[listing[k]].instance == me
        invariant forall j, k | 0 <= j < k < |listing| :: listing[j] != listing[k]
        invariant forall n | n in pods && pods[n].instance == me :: n in listing || n in rest
        decreases |rest|
      {
        var n :| n in rest;
        listing := listing + [n];
        rest := rest - {n};
      }
    }

    // ---- the lock ------------------------------------------------------------------------------

    /** True when the pod may be created; then, unless it is parallel, the lock is the instance's own. */
    method AcquireLock(me: string, parallel: bool) returns (acquired: bool)
      requires Serving(me)
      requires if parallel then at[me].Locked? else at[me].Acquiring?
      modifies this
      ensures Serving(me) && Onward(me, old(history), history) && crs[me].created == old(crs[me].created)
      ensures acquired ==> at[me] == Locked(old(at[me].task)) && (!parallel ==> lock.HeldBy(crs[me].uid))
      ensures !acquired ==> at[me] == Idle && !parallel && Denied(me, old(history))
      ensures !parallel ==> SetsAbout(me, ForLock, old(history), history)
    {
      if parallel {
        return true;
      }
      var reading := ReadLockObject(me);
      ghost var read := history;
      match reading {
        case Free =>
          acquired := EnsureLockObject(me);
          SetAboutWithin(me, ForLock, old(history), old(history), read, history);
        case Mine => acquired := true;
        case Withheld => acquired := false;
      }
    }

    /** Reads the lock for a pod that is not parallel. */
    method ReadLockObject(me: string) returns (r: LockReading)
      requires Serving(me) && at[me].Acquiring?
      modifies this
      ensures Serving(me) && Onward(me, old(history), history) && crs[me].created == old(crs[me].created)
      ensures at[me] == match r
                        case Free => Ensuring(old(at[me].task))
                        case Mine => Locked(old(at[me].task))
                        case Withheld => Idle
      ensures r == Mine ==> lock.HeldBy(crs[me].uid)
      ensures r == Withheld ==> Denied(me, old(history))
      ensures SetsAbout(me, ForLock, old(history), history)
    {
      Interfere(me);
      var readOk: bool := *;
      if readOk && lock.NoLock? {
        Proceed(me, Ensuring(at[me].task), ReadLock(true));
        r := Free;
      } else if readOk && lock.owner == Some(crs[me].uid) {
        Proceed(me, Locked(at[me].task), ReadLock(true));
        r := Mine;
      } else {
        Return(me, crs[me].conditions, ReadLock(readOk));
        r := Withheld;
      }
      LatestSetsAbout(me, old(history), ReadLock(readOk), ForLock);
    }

    /** The lock has not been had: its reading failed or showed another owner, or its creation failed or came
        too late. */
    ghost predicate Denied(me: string, before: seq<Event>)
      requires me in crs
      reads this
    {
      || Latest(me, before, ReadLock(false)) || Latest(me, before, EnsureLock(false))
      || (Latest(me, before, ReadLock(true)) && lock != NoLock && lock.owner != Some(crs[me].uid))
      || (Latest(me, before, EnsureLock(true)) && lock != NoLock)
    }

    /** Creates the lock in the instance's name if it is still absent. */
    method EnsureLockObject(me: string) returns (acquired: bool)
      requires Serving(me) && at[me].Ensuring?
      modifies this
      ensures Serving(me) && Onward(me, old(history), history) && crs[me].created == old(crs[me].created)
      ensures acquired ==> at[me] == Locked(old(at[me].task)) && lock.HeldBy(crs[me].uid)
      ensures !acquired ==> at[me] == Idle && (Latest(me, old(history), EnsureLock(false))
                            || (Latest(me, old(history), EnsureLock(true)) && lock != NoLock))
    {
      Interfere(me);
      var createOk: bool := *;
      if createOk && lock.NoLock? {
        ghost var before := Now();
        lock := LockObject(Some(crs[me].uid));
        at := at[me := Locked(at[me].task)];
        Record(Reconcile(me, EnsureLock(true)), before);
        return true;
      }
      Return(me, crs[me].conditions, EnsureLock(createOk));
      return false;
    }

    /** What accounts for the result of a release that began when the history was `before`. It succeeds when a
        first reading, or a poll after a try to delete, finds the lock absent. It fails when the reading
        fails or finds the lock without this owner, when the lock is gone at the delete, or when ten polls
        after the delete have not found it absent. */
    ghost predicate Accounted(me: string, before: seq<Event>, released: bool, answer: Call)
      requires me in crs
      reads this
    {
      if released then
        && lock == NoLock
        && (answer == ReleaseRead(true) || (answer == ReleasePoll(true) && HasAsked(me, before, history)))
      else
        || answer == ReleaseRead(false)
        || (answer == ReleaseRead(true) && lock != NoLock && lock.owner != Some(crs[me].uid))
        || (answer == ReleaseDelete(true) && lock == NoLock)
        || (HasAsked(me, before, history) && TenthPollMissed(me, before, answer))
    }

    /** Nine polls have been made, none has found the lock absent, and `answer` is one more that does not. */
    ghost predicate TenthPollMissed(me: string, before: seq<Event>, answer: Call)
      reads this
    {
      && answer.ReleasePoll? && (answer.ok ==> lock != NoLock)
      && PollsIn(me, history, |before|) == 9 && PollsMissed(start, me, before, history)
    }

    /** Gives the lock back. The caller still has to leave with `answer`, the call that decided the
        result. After a successful delete the instance is without the lock whatever is returned; no lock is
        ever touched but its own, and the lock is polled ten times at most. */
    method ReleaseLock(me: string) returns (released: bool, ghost answer: Call)
      requires Serving(me) && at[me].Releasing?
      modifies this
      ensures Serving(me) && crs[me] == old(crs[me]).(spec := crs[me].spec)
      ensures OnlyReleases(me, old(history), history) && SparesForeignLocks(start, me, old(history), history)
      ensures Accounted(me, old(history), released, answer)
      ensures answer.ReleaseRead? || SetsAbout(me, ForRelease, old(history), history)
      ensures HasDeleted(me, old(history), history) ==> !lock.HeldBy(crs[me].uid)
      ensures PollsIn(me, history, |old(history)|) + (if answer.ReleasePoll? then 1 else 0) <= 10
      ensures Answers(me, old(at[me].site), released, answer)
    {
      ghost var before := history;
      released, answer := TryRelease(me);
      ReleasesSpareForeignLocks(start, me, before, history);
    }

    method TryRelease(me: string) returns (released: bool, ghost answer: Call)
      requires Serving(me) && at[me].Releasing?
      modifies this
      ensures Serving(me) && crs[me] == old(crs[me]).(spec := crs[me].spec)
      ensures OnlyReleases(me, old(history), history)
      ensures Accounted(me, old(history), released, answer)
      ensures answer.ReleaseRead? || SetsAbout(me, ForRelease, old(history), history)
      ensures HasDeleted(me, old(history), history) ==> !lock.HeldBy(crs[me].uid)
      ensures PollsIn(me, history, |old(history)|) < 10
      ensures Answers(me, old(at[me].site), released, answer)
    {
      var site := at[me].site;
      ghost var before := history;
      Interfere(me);
      OthersOnly(me, before, history);
      var readOk: bool := *;
      answer := ReleaseRead(readOk);
      if readOk && lock.NoLock? {
        return true, answer;
      } else if !readOk || lock.owner == None {
        return false, answer;
      }
      if lock.owner != Some(crs[me].uid) {
        return false, answer;
      }
      ghost var read := history;
      Proceed(me, Holding(site), answer);
      released, answer := DeleteAndWait(me, site);
      ReadThenRelease(start, me, before, read, history);
    }

    /** The delete of an owned lock and the wait for it to be gone. */
    method DeleteAndWait(me: string, site: Site) returns (released: bool, ghost answer: Call)
      requires Serving(me) && at[me] == Holding(site)
      modifies this
      ensures Serving(me) && crs[me] == old(crs[me]).(spec := crs[me].spec)
      ensures OnlyReleases(me, old(history), history)
      ensures released ==> lock == NoLock && answer == ReleasePoll(true)
      ensures !released ==> (answer == ReleaseDelete(true) && lock == NoLock)
                            || TenthPollMissed(me, old(history), answer)
      ensures answer.ReleasePoll? ==> HasTriedDelete(me, old(history), history)
      ensures PollsMissed(start, me, old(history), history)
      ensures HasDeleted(me, old(history), history) ==> !lock.HeldBy(crs[me].uid)
      ensures PollsIn(me, history, |old(history)|) < 10
      ensures Answers(me, site, released, answer)
    {
      ghost var before := history;
      var absent;
      ghost var ok, asked;
      absent, ok, asked := TryDelete(me, site);
      if absent {
        OthersOnly(me, before, history);
        NothingMissed(start, me, before, history);
        return false, ReleaseDelete(true);
      }
      released, answer := AwaitDeletion(me, site);
      DeleteThenPolls(start, me, before, asked, ok, history);
    }

    /** The delete; unless it finds no lock, the wait follows, even when it has failed. */
    method TryDelete(me: string, site: Site) returns (absent: bool, ghost ok: bool, ghost asked: seq<Event>)
      requires Serving(me) && at[me] == Holding(site)
      modifies this
      ensures Serving(me) && crs[me] == old(crs[me]).(spec := crs[me].spec)
      ensures OnlyOthers(me, old(history), asked)
      ensures absent ==> history == asked && lock == NoLock && Answers(me, site, false, ReleaseDelete(true))
      ensures !absent ==> history == asked + [Reconcile(me, ReleaseDelete(ok))] && at[me] == Polling(site, 0)
      ensures !absent && ok ==> lock == NoLock
    {
      Interfere(me);
      asked := history;
      var deleteOk: bool := *;
      ok := deleteOk;
      absent := deleteOk && lock.NoLock?;
      if !absent {
        DeleteLock(me, deleteOk);
      }
    }

    /** `answer` is a possible call that ends the release at `site` with this result. */
    ghost predicate Answers(me: string, site: Site, released: bool, answer: Call)
      requires Knows(Now(), me)
      reads this
    {
      var v := Look(Now(), me);
      && CallEnabled(v, me, answer) && !answer.Fetch?
      && ApplyCall(v, me, answer) == EndRelease(v, site, released)
    }

    method DeleteLock(me: string, ok: bool)
      requires Serving(me) && at[me].Holding? && !(ok && lock.NoLock?)
      modifies this
      ensures Serving(me) && history == old(history) + [Reconcile(me, ReleaseDelete(ok))] && crs == old(crs)
      ensures at == old(at)[me := Polling(old(at[me].site), 0)]
      ensures lock == if ok then NoLock else old(lock)
    {
      ghost var before := Now();
      if ok {
        lock := NoLock;
      }
      at := at[me := Polling(at[me].site, 0)];
      Record(Reconcile(me, ReleaseDelete(ok)), before);
    }

    /** Reads the lock until it is gone, ten times at most. */
    method AwaitDeletion(me: string, site: Site) returns (gone: bool, ghost answer: Call)
      requires Serving(me) && at[me] == Polling(site, 0)
      modifies this
      ensures Serving(me) && crs[me] == old(crs[me]).(spec := crs[me].spec)
      ensures OnlyReleases(me, old(history), history) && !HasDeleted(me, old(history), history)
      ensures if gone then lock == NoLock && answer == ReleasePoll(true) else TenthPollMissed(me, old(history), answer)
      ensures lock.HeldBy(crs[me].uid) <==> old(lock.HeldBy(crs[me].uid))
      ensures PollsIn(me, history, |old(history)|) < 10 && PollsMissed(start, me, old(history), history)
      ensures Answers(me, site, gone, answer)
    {
      NoPollsYet(me, history, |history|);
      ghost var before := history;
      answer := ReleasePoll(false);
      for i := 0 to MAX_RETRIES
        invariant Serving(me) && crs[me] == old(crs[me]).(spec := crs[me].spec)
        invariant OnlyReleases(me, before, history) && !HasDeleted(me, before, history)
        invariant i < MAX_RETRIES ==> PollsIn(me, history, |before|) == i && at[me] == Polling(site, i)
        invariant lock.HeldBy(crs[me].uid) <==> old(lock.HeldBy(crs[me].uid))
        invariant PollsMissed(start, me, before, history)
        invariant i == MAX_RETRIES ==> TenthPollMissed(me, before, answer) && Answers(me, site, false, answer)
      {
        ghost var mid := history;
        gone, answer := PollOnce(me, site, i);
        ReleasesJoin(me, before, mid, history);
        MissesJoin(start, me, before, mid, history);
        if gone {
          return;
        }
      }
      gone := false;
    }

    /** One poll; unless it finds the lock gone or is the last one, the release goes on. */
    method PollOnce(me: string, site: Site, i: nat) returns (gone: bool, ghost answer: Call)
      requires Serving(me) && at[me] == Polling(site, i) && i < MAX_RETRIES
      modifies this
      ensures Serving(me) && crs[me] == old(crs[me]).(spec := crs[me].spec)
      ensures OnlyReleases(me, old(history), history) && !HasDeleted(me, old(history), history)
      ensures lock.HeldBy(crs[me].uid) <==> old(lock.HeldBy(crs[me].uid))
      ensures answer.ReleasePoll? && (gone <==> answer.ok && lock == NoLock)
      ensures PollsMissed(start, me, old(history), history)
      ensures if gone || i + 1 == MAX_RETRIES then
                PollsIn(me, history, |old(history)|) == 0 && Answers(me, site, gone, answer)
              else
                PollsIn(me, history, |old(history)|) == 1 && at[me] == Polling(site, i + 1)
    {
      ghost var before := history;
      Interfere(me);
      OthersOnly(me, before, history);
      NothingMissed(start, me, before, history);
      var pollOk: bool := *;
      answer := ReleasePoll(pollOk);
      gone := pollOk && lock.NoLock?;
      if !gone && i + 1 < MAX_RETRIES {
        OneReleaseCall(me, before, history, answer);
        OnePollMissed(start, me, before, history, Now(), pollOk);
        Proceed(me, Polling(site, i + 1), answer);
      }
    }

    // ---- pods ----------------------------------------------------------------------------------

    /** Deletes the listed live pods one by one; a failing delete leaves the rest for a later reconcile. */
    method DeletePods(me: string, listing: seq<string>, list: map<string, Pod>) returns (failed: bool)
      requires Serving(me) && (forall n | n in listing :: n in list) && NoNewPods(list, pods, me)
      requires at[me] == Deleting(LiveNames(list, listing)) && LiveNames(list, listing) != []
      modifies this
      ensures Serving(me) && Onward(me, old(history), history) && at[me] == Idle
      ensures crs[me].created == old(crs[me].created) && NoNewPods(old(pods), pods, me)
      ensures !failed ==> NoneLive(pods, me, listing)
      ensures failed ==> Latest(me, old(history), DeleteDoomed(DeleteFails))
    {
      assert listing[0..] == listing && listing[..0] == [];
      failed := false;
      for k := 0 to |listing|
        invariant Serving(me) && Onward(me, old(history), history) && crs[me].created == old(crs[me].created)
        invariant NoNewPods(old(pods), pods, me)
        invariant at[me] == if failed then Idle else AfterDeletes(LiveNames(list, listing[k..]))
        invariant !failed ==> NoneLive(pods, me, listing[..k])
        invariant failed ==> Latest(me, old(history), DeleteDoomed(DeleteFails))
      {
        if failed {
          break;
        }
        ghost var before := pods;
        failed := DeleteListed(me, listing, list, k);
        if !failed { NoneLiveGrows(before, pods, me, listing, k); }
      }
      assert listing[|listing|..] == [] && listing[..|listing|] == listing;
    }

    /** One turn of that loop. */
    method DeleteListed(me: string, listing: seq<string>, list: map<string, Pod>, k: nat) returns (failed: bool)
      requires Serving(me) && (forall n | n in listing :: n in list) && k < |listing| && NoNewPods(list, pods, me)
      requires at[me] == AfterDeletes(LiveNames(list, listing[k..]))
      modifies this
      ensures Serving(me) && Onward(me, old(history), history) && crs[me].created == old(crs[me].created)
      ensures at[me] == if failed then Idle else AfterDeletes(LiveNames(list, listing[k + 1..]))
      ensures NoNewPods(old(pods), pods, me) && (!failed ==> !LivePod(pods, me, listing[k]))
      ensures failed ==> Latest(me, old(history), DeleteDoomed(DeleteFails))
    {
      LiveNamesFrom(list, listing, k);
      failed := false;
      if !list[listing[k]].terminating {
        failed := DeleteNext(me, listing[k]);
      }
    }

    /** One delete call, with the others at work before it. */
    method DeleteNext(me: string, name: string) returns (failed: bool)
      requires Serving(me) && at[me].Deleting? && at[me].doomed != [] && name == at[me].doomed[0]
      modifies this
      ensures Serving(me) && Onward(me, old(history), history) && crs[me].created == old(crs[me].created)
      ensures at[me] == if failed then Idle else AfterDeletes(old(at[me].doomed)[1..])
      ensures NoNewPods(old(pods), pods, me) && (!failed ==> !LivePod(pods, me, name))
      ensures failed ==> Latest(me, old(history), DeleteDoomed(DeleteFails))
    {
      Interfere(me);
      var outcome: DeleteOutcome := *;
      failed := outcome == DeleteFails;
      if failed {
        Return(me, crs[me].conditions, DeleteDoomed(outcome));
      } else {
        DeleteOne(me, name, outcome);
      }
    }

    /** The cluster takes the pod, or marks it as terminating. */
    method TakePod(name: string, outcome: DeleteOutcome)
      modifies this`pods
      ensures pods == DeleteFrom(old(pods), name, outcome == Immediate)
    {
      if name in pods {
        if outcome == Immediate {
          pods := map n | n in pods && n != name :: pods[n];
        } else {
          pods := pods[name := pods[name].(terminating := true)];
        }
      }
    }

    method DeleteOne(me: string, name: string, outcome: DeleteOutcome)
      requires Serving(me) && at[me].Deleting? && at[me].doomed != [] && name == at[me].doomed[0]
      requires outcome != DeleteFails
      modifies this
      ensures Serving(me) && history == old(history) + [Reconcile(me, DeleteDoomed(outcome))]
      ensures crs[me].created == old(crs[me].created) && pods == DeleteFrom(old(pods), name, outcome == Immediate)
      ensures at[me] == AfterDeletes(old(at[me].doomed)[1..])
    {
      ghost var before := Now();
      TakePod(name, outcome);
      if |at[me].doomed| == 1 {
        crs := crs[me := crs[me].(conditions := OnExit(crs[me].conditions))];
        at := at[me := Idle];
      } else {
        at := at[me := Deleting(at[me].doomed[1..])];
      }
      Record(Reconcile(me, DeleteDoomed(outcome)), before);
    }

    /** Deletes all live pods where it finds a foreign hash; when it passes, nothing has happened since
        the listing and every live pod carries `newHash`. */
    method CheckConfigChange(me: string, newHash: ConfigHash) returns (r: CheckResult, ghost listing: seq<string>)
      requires Serving(me) && at[me].Decided? && newHash == HashOf(at[me].spec)
      modifies this
      ensures Serving(me) && Onward(me, old(history), history) && crs[me].created == old(crs[me].created)
      ensures r != Passed ==> at[me] == Idle
      ensures r == ListFailed ==> Latest(me, old(history), CheckConfig(listing, false))
      ensures r == DeleteFailed ==> Latest(me, old(history), DeleteDoomed(DeleteFails))
      ensures r == Recreating ==> forall n :: !LivePod(pods, me, n)
      ensures r == Passed ==> at[me] == old(at[me]) && crs[me] == old(crs[me]).(spec := crs[me].spec)
      ensures r == Passed ==> IsListing(pods, me, listing) && CurrentHash(PodsOf(pods, listing)) in {NoHash, newHash}
      ensures r == Passed ==> AllCarry(pods, me, newHash)
    {
      Interfere(me);
      var names := ListPods(me);
      listing := names;
      var listOk: bool := *;
      if !listOk {
        Return(me, crs[me].conditions, CheckConfig(names, false));
        return ListFailed, listing;
      }
      var list := PodsOf(pods, names);
      var currentHash := FindHash(list);
      if currentHash == NoHash || currentHash == newHash {
        ValidMeansInv();
        assert ViewInv(Look(Now(), me), me);
        CheckEstablishes(pods, me, names, at[me].spec);
        return Passed, listing;
      }
      r := RecreatePods(me, names);
    }

    method RecreatePods(me: string, names: seq<string>) returns (r: CheckResult)
      requires Serving(me) && at[me].Decided? && IsListing(pods, me, names)
      requires CurrentHash(PodsOf(pods, names)) !in {NoHash, HashOf(at[me].spec)}
      modifies this
      ensures Serving(me) && Onward(me, old(history), history) && crs[me].created == old(crs[me].created)
      ensures at[me] == Idle && r in {DeleteFailed, Recreating}
      ensures r == Recreating ==> forall n :: !LivePod(pods, me, n)
      ensures r == DeleteFailed ==> Latest(me, old(history), DeleteDoomed(DeleteFails))
    {
      var snapshot := pods;
      HashHasName(names, snapshot);
      Proceed(me, Deleting(LiveNames(snapshot, names)), CheckConfig(names, true));
      var failed := DeletePods(me, names, snapshot);
      r := if failed then DeleteFailed else Recreating;
    }

    /** Since the history was `before`, exactly the pod of `task` has been created for `me`. */
    ghost predicate Made(me: string, task: Task, created: seq<int>, before: seq<Event>)
      requires me in crs
      reads this
    {
      crs[me].created == created + [task.step] && HasMade(start, me, task, before, history)
    }

    ghost predicate MadeNothingOr(me: string, task: Task, created: seq<int>, before: seq<Event>)
      requires me in crs
      reads this
    {
      crs[me].created == created || Made(me, task, created, before)
    }

    /** Nothing has been created, or the pod of one step of one spec, with its effective `parallel`. */
    ghost predicate MadeAtMostOne(me: string, kind: Kind, created: seq<int>, before: seq<Event>)
      requires me in crs
      reads this
    {
      crs[me].created == created || exists spec, step :: Made(me, TaskFor(me, kind, spec, step), created, before)
    }

    /** What has been made since `mid` has been made since `before`. */
    lemma MadeSince(me: string, task: Task, created: seq<int>, before: seq<Event>, mid: seq<Event>)
      requires me in crs && MadeNothingOr(me, task, created, mid) && Grown(before, mid)
      ensures MadeNothingOr(me, task, created, before)
    {
      if crs[me].created != created {
        MadeWithin(start, me, task, before, mid, history, history);
      }
    }

    lemma MadeSinceFetch(me: string, kind: Kind, created: seq<int>, before: seq<Event>, mid: seq<Event>)
      requires me in crs && MadeAtMostOne(me, kind, created, mid) && Grown(before, mid)
      ensures MadeAtMostOne(me, kind, created, before)
    {
      if crs[me].created != created {
        var spec, step :| Made(me, TaskFor(me, kind, spec, step), created, mid);
        MadeSince(me, TaskFor(me, kind, spec, step), created, before, mid);
      }
    }

    /** Creates the prepared pod unless one of its name exists already. */
    method CreatePod(me: string) returns (created: bool)
      requires Serving(me) && at[me].Prepared? && (at[me].task.parallel || lock.HeldBy(crs[me].uid))
      modifies this
      ensures Serving(me) && Onward(me, old(history), history) && crs[me].uid == old(crs[me].uid)
      ensures lock.HeldBy(crs[me].uid) <==> old(lock.HeldBy(crs[me].uid))
      ensures MadeNothingOr(me, old(at[me].task), old(crs[me].created), old(history))
      ensures created ==> old(at[me].task).podName in pods
      ensures !created ==> crs[me].created == old(crs[me].created)
      ensures at[me] == if created then Created else Releasing(AfterFailedCreate)
      ensures !created ==> Latest(me, old(history), LookupPod(false)) || Refused(me, old(history), old(at[me].task))
    {
      var task := at[me].task;
      var found := FindPod(me);
      if found != Absent {
        return found == Present;
      }
      ghost var looked := history;
      created := CreateAbsentPod(me);
      MadeSince(me, task, old(crs[me].created), old(history), looked);
    }

    /** The pod has not been created: the call failed or the name had been taken. */
    ghost predicate Refused(me: string, before: seq<Event>, task: Task)
      reads this
    {
      || Latest(me, before, Call.CreatePod(false))
      || (Latest(me, before, Call.CreatePod(true)) && task.podName in pods)
    }

    method FindPod(me: string) returns (found: LookupResult)
      requires Serving(me) && at[me].Prepared?
      modifies this
      ensures Serving(me) && Onward(me, old(history), history) && crs[me] == old(crs[me]).(spec := crs[me].spec)
      ensures lock.HeldBy(crs[me].uid) <==> old(lock.HeldBy(crs[me].uid))
      ensures found == Present ==> old(at[me].task).podName in pods
      ensures found == Unanswered ==> Latest(me, old(history), LookupPod(false))
      ensures at[me] == match found
                        case Present => Created
                        case Absent => Creating(old(at[me].task))
                        case Unanswered => Releasing(AfterFailedCreate)
    {
      var task := at[me].task;
      Interfere(me);
      var getOk: bool := *;
      if !getOk {
        Proceed(me, Releasing(AfterFailedCreate), LookupPod(false));
        return Unanswered;
      }
      if task.podName in pods {
        Proceed(me, Created, LookupPod(true));
        return Present;
      }
      Proceed(me, Creating(task), LookupPod(true));
      return Absent;
    }

    /** The cluster makes the pod. */
    method InsertPod(me: string, task: Task, ghost earlier: seq<Event>)
      requires Serving(me) && at[me] == Creating(task) && (task.parallel || lock.HeldBy(crs[me].uid))
      requires task.podName !in pods && Grown(earlier, history)
      modifies this
      ensures Serving(me) && history == old(history) + [Reconcile(me, Call.CreatePod(true))]
      ensures Made(me, task, old(crs[me].created), earlier) && crs[me].uid == old(crs[me].uid)
      ensures pods == old(pods)[task.podName := NewPod(me, task)] && at[me] == Created && lock == old(lock)
    {
      ghost var before, mid := Now(), history;
      pods := pods[task.podName := NewPod(me, task)];
      crs := crs[me := crs[me].(created := crs[me].created + [task.step])];
      at := at[me := Created];
      Record(Reconcile(me, Call.CreatePod(true)), before);
      LastEventMakes(start, me, task, mid, before, Now());
      MadeWithin(start, me, task, earlier, mid, history, history);
    }

    method CreateAbsentPod(me: string) returns (created: bool)
      requires Serving(me) && at[me].Creating? && (at[me].task.parallel || lock.HeldBy(crs[me].uid))
      modifies this
      ensures Serving(me) && Onward(me, old(history), history) && crs[me].uid == old(crs[me].uid)
      ensures lock.HeldBy(crs[me].uid) <==> old(lock.HeldBy(crs[me].uid))
      ensures created ==> Made(me, old(at[me].task), old(crs[me].created), old(history))
      ensures created ==> old(at[me].task).podName in pods
      ensures !created ==> crs[me].created == old(crs[me].created)
      ensures at[me] == if created then Created else Releasing(AfterFailedCreate)
      ensures !created ==> Refused(me, old(history), old(at[me].task))
    {
      var task := at[me].task;
      Interfere(me);
      var createOk: bool := *;
      if !createOk || task.podName in pods {
        Proceed(me, Releasing(AfterFailedCreate), Call.CreatePod(createOk));
        return false;
      }
      InsertPod(me, task, old(history));
      created := true;
    }

    /** `call` is the latest event, and it has come since the history was `before`. */
    ghost predicate Latest(me: string, before: seq<Event>, call: Call)
      reads this
    {
      |before| < |history| && history[|history| - 1] == Reconcile(me, call)
    }

    lemma LatestSetsAbout(me: string, before: seq<Event>, call: Call, purpose: Purpose)
      requires Latest(me, before, call) && Grown(before, history) && Opens(call, purpose)
      ensures SetsAbout(me, purpose, before, history)
    {
      assert history[|history| - 1] == Reconcile(me, call);
    }

    /** The record of `me` is as it was, but for what others may edit. */
    ghost predicate SameRecord(me: string, was: Instance)
      requires me in crs
      reads this
    {
      crs[me] == was.(spec := crs[me].spec)
    }

    /** The reconcile has ended before the pod was built, with the conditions of what went wrong. */
    ghost predicate LeftWith(me: string, was: Instance, before: seq<Event>, outcome: PrepareOutcome)
      requires me in crs && me in at
      reads this
    {
      && outcome != Built && at[me] == Idle && Latest(me, before, Prepare(outcome))
      && crs[me] == was.(spec := crs[me].spec,
                         conditions := OnExit(FailedConditions(was.kind, was.conditions, outcome)))
    }

    /** The volume code has panicked. */
    ghost predicate Crashed(me: string, was: Instance, before: seq<Event>)
      requires me in crs && me in at
      reads this
    {
      at[me] == Panicked && SameRecord(me, was) && Latest(me, before, Prepare(Built))
    }

    /** Inputs, volume claim, config maps, networks and BuildPod; gathers the conditions as it goes.
        Whatever fails leaves with its own conditions, and the lock stays where it is. */
    method PreparePod(me: string) returns (built: bool, ghost outcome: PrepareOutcome)
      requires Serving(me) && at[me].Locked?
      modifies this
      ensures Serving(me) && Onward(me, old(history), history)
      ensures lock.HeldBy(crs[me].uid) <==> old(lock.HeldBy(crs[me].uid))
      ensures built ==> at[me] == Prepared(old(at[me].task))
      ensures built ==> crs[me] == old(crs[me]).(spec := crs[me].spec,
                          conditions := PreparedConditions(old(crs[me]).kind, old(crs[me]).conditions))
      ensures !built ==> LeftWith(me, old(crs[me]), old(history), outcome) || Crashed(me, old(crs[me]), old(history))
      ensures !built && at[me] == Idle ==>
                FailureShown(old(crs[me]).kind, outcome, old(crs[me]).conditions, crs[me].conditions)
      ensures built ==> BuiltShown(old(crs[me]).kind, old(crs[me]).conditions, crs[me].conditions)
      ensures SetsAbout(me, ForBuilding, old(history), history)
      ensures exists o :: Latest(me, old(history), Prepare(o))
    {
      ghost var was, before := crs[me], history;
      built, outcome := TryPrepare(me);
      if built {
        BuiltShows(was.kind, was.conditions);
        LatestSetsAbout(me, before, Prepare(Built), ForBuilding);
      } else if at[me] == Idle {
        FailureShows(was.kind, outcome, was.conditions);
        LatestSetsAbout(me, before, Prepare(outcome), ForBuilding);
      } else {
        LatestSetsAbout(me, before, Prepare(Built), ForBuilding);
      }
    }

    method TryPrepare(me: string) returns (built: bool, ghost outcome: PrepareOutcome)
      requires Serving(me) && at[me].Locked?
      modifies this
      ensures Serving(me) && Onward(me, old(history), history)
      ensures lock.HeldBy(crs[me].uid) <==> old(lock.HeldBy(crs[me].uid))
      ensures built ==> at[me] == Prepared(old(at[me].task)) && Latest(me, old(history), Prepare(Built))
      ensures built ==> crs[me] == old(crs[me]).(spec := crs[me].spec,
                          conditions := PreparedConditions(old(crs[me]).kind, old(crs[me]).conditions))
      ensures !built ==> LeftWith(me, old(crs[me]), old(history), outcome) || Crashed(me, old(crs[me]), old(history))
    {
      var conditions;
      built, conditions, outcome := ValidateInputs(me);
      if !built {
        return;
      }
      built, conditions := GenerateConfigMaps(me, conditions);
      if !built {
        return false, ConfigMapsFail;
      }
      built, conditions, outcome := AttachNetworks(me, conditions);
      if !built {
        return;
      }
      outcome := BuildFails;
      built := BuildPod(me, conditions);
    }

    /** Validates the inputs and claims the log volume. */
    method ValidateInputs(me: string) returns (ok: bool, conditions: StatusMap, ghost outcome: PrepareOutcome)
      requires Serving(me) && at[me].Locked?
      modifies this
      ensures Serving(me) && Onward(me, old(history), history)
      ensures lock.HeldBy(crs[me].uid) <==> old(lock.HeldBy(crs[me].uid))
      ensures if ok then at[me] == old(at[me]) && SameRecord(me, old(crs[me]))
              else LeftWith(me, old(crs[me]), old(history), outcome)
      ensures ok ==> conditions == crs[me].conditions[InputReady := True]
    {
      Interfere(me);
      conditions := crs[me].conditions;
      var inputsOk: bool := *;
      outcome := InputsInvalid;
      if !inputsOk {
        Return(me, conditions[InputReady := False], Prepare(outcome));
        return false, conditions, outcome;
      }
      conditions := conditions[InputReady := True];
      Interfere(me);
      outcome := StorageFails;
      ok := *;
      if !ok {
        Return(me, conditions, Prepare(outcome));
      }
    }

    method GenerateConfigMaps(me: string, valid: StatusMap) returns (ok: bool, conditions: StatusMap)
      requires Serving(me) && at[me].Locked? && valid == crs[me].conditions[InputReady := True]
      modifies this
      ensures Serving(me) && Onward(me, old(history), history)
      ensures lock.HeldBy(crs[me].uid) <==> old(lock.HeldBy(crs[me].uid))
      ensures if ok then at[me] == old(at[me]) && SameRecord(me, old(crs[me]))
              else LeftWith(me, old(crs[me]), old(history), ConfigMapsFail)
      ensures ok ==> conditions == ConfiguredConditions(crs[me].kind, crs[me].conditions)
    {
      conditions := valid;
      ok := true;
      if crs[me].kind.NeedsConfigMaps() {
        Interfere(me);
        ok := *;
        if !ok {
          Return(me, conditions[ServiceConfigReady := False], Prepare(ConfigMapsFail));
          return;
        }
        conditions := conditions[ServiceConfigReady := True];
      }
    }

    method AttachNetworks(me: string, configured: StatusMap)
      returns (ok: bool, conditions: StatusMap, ghost outcome: PrepareOutcome)
      requires Serving(me) && at[me].Locked?
      requires configured == ConfiguredConditions(crs[me].kind, crs[me].conditions)
      modifies this
      ensures Serving(me) && Onward(me, old(history), history)
      ensures lock.HeldBy(crs[me].uid) <==> old(lock.HeldBy(crs[me].uid))
      ensures if ok then at[me] == old(at[me]) && SameRecord(me, old(crs[me]))
              else LeftWith(me, old(crs[me]), old(history), outcome)
      ensures ok ==> conditions == PreparedConditions(crs[me].kind, crs[me].conditions)
    {
      conditions := configured;
      ok, outcome := true, NetworkMissing;
      if crs[me].kind.NeedsNetworkAttachments() {
        Interfere(me);
        ok := *;
        if !ok {
          Return(me, conditions[NetworkAttachmentsReady := False], Prepare(outcome));
          return;
        }
        outcome := NetworkFails;
        ok := *;
        if !ok {
          Return(me, conditions, Prepare(outcome));
          return;
        }
        conditions := conditions[NetworkAttachmentsReady := True];
      }
    }

    method BuildPod(me: string, conditions: StatusMap) returns (built: bool)
      requires Serving(me) && at[me].Locked? && conditions == PreparedConditions(crs[me].kind, crs[me].conditions)
      modifies this
      ensures Serving(me) && Onward(me, old(history), history)
      ensures lock.HeldBy(crs[me].uid) <==> old(lock.HeldBy(crs[me].uid))
      ensures built ==> at[me] == Prepared(old(at[me].task)) && Latest(me, old(history), Prepare(Built))
      ensures built ==> crs[me] == old(crs[me]).(spec := crs[me].spec, conditions := conditions)
      ensures !built ==> LeftWith(me, old(crs[me]), old(history), BuildFails) || Crashed(me, old(crs[me]), old(history))
    {
      Interfere(me);
      var task := at[me].task;
      var imageOk: bool := *;
      if !imageOk {
        Return(me, conditions, Prepare(BuildFails));
        return false;
      }
      if IndexPanics(crs[me].kind, task.spec, task.step) {
        Proceed(me, Panicked, Prepare(Built));
        return false;
      }
      FinishPreparing(me, task, conditions);
      built := true;
    }

    method FinishPreparing(me: string, task: Task, conditions: StatusMap)
      requires Serving(me) && at[me] == Locked(task) && !IndexPanics(crs[me].kind, task.spec, task.step)
      requires conditions == PreparedConditions(crs[me].kind, crs[me].conditions)
      modifies this
      ensures Serving(me) && history == old(history) + [Reconcile(me, Prepare(Built))] && lock == old(lock)
      ensures at == old(at)[me := Prepared(task)] && crs == old(crs)[me := crs[me]]
      ensures crs[me] == old(crs[me]).(conditions := conditions)
    {
      ghost var before := Now();
      crs := crs[me := crs[me].(conditions := conditions)];
      at := at[me := Prepared(task)];
      Record(Reconcile(me, Prepare(Built)), before);
    }

    /** Leaves after a release with the conditions of the place that asked for it. */
    method LeaveReleased(me: string, site: Site, released: bool, ghost answer: Call)
      requires Serving(me) && Answers(me, site, released, answer)
      modifies this
      ensures Serving(me) && Onward(me, old(history), history)
      ensures at[me] == Idle && crs[me].created == old(crs[me].created)
      ensures history == old(history) + [Reconcile(me, answer)] && lock == old(lock)
      ensures ReleasedShown(site, released, old(crs[me].conditions), crs[me].conditions)
    {
      ReleasedShows(site, released, crs[me].conditions);
      ghost var before := Now();
      var conditions := crs[me].conditions;
      if released {
        if site == AtEnd {
          conditions := MarkReadyIfAllTrue(conditions[DeploymentReady := True]);
        } else {
          conditions := conditions[DeploymentReady := False];
        }
      }
      crs := crs[me := crs[me].(conditions := OnExit(conditions))];
      at := at[me := Idle];
      Record(Reconcile(me, answer), before);
    }

    /** Reads the instance; leaves at once when it is new or lacks its finalizer. */
    method FetchInstance(me: string) returns (left: bool)
      requires Serving(me) && at[me] == Idle
      modifies this
      ensures Serving(me) && OnePass(me, old(history), history) && crs[me].created == old(crs[me].created)
      ensures at[me] == if left then Idle else Fetched(crs[me].spec)
      ensures crs[me].kind == old(crs[me]).kind
      ensures left ==> if old(crs[me]).conditions == map[] then InitialShown(crs[me].kind, crs[me].conditions)
                       else crs[me].kind == Tempest && !old(crs[me]).finalizer && crs[me].finalizer
      ensures !left ==> SameRecord(me, old(crs[me]))
    {
      Interfere(me);
      InitialShows(crs[me].kind);
      ghost var interfered := history;
      var instance := crs[me];
      if instance.conditions == map[] {
        Return(me, Initial(instance.kind), Fetch);
        FetchStarts(me, old(history), interfered, history);
        return true;
      }
      if instance.kind.NeedsFinalizer() && !instance.finalizer {
        ghost var before := Now();
        crs := crs[me := instance.(finalizer := true, conditions := OnExit(instance.conditions))];
        at := at[me := Idle];
        Record(Reconcile(me, Fetch), before);
        FetchStarts(me, old(history), interfered, history);
        return true;
      }
      Proceed(me, Fetched(instance.spec), Fetch);
      FetchStarts(me, old(history), interfered, history);
      left := false;
    }

    /** NextAction on a fresh listing. */
    method DecideAction(me: string) returns (left: bool, decision: Decision, ghost listing: seq<string>)
      requires Serving(me) && at[me].Fetched?
      modifies this
      ensures Serving(me) && Onward(me, old(history), history) && crs[me].created == old(crs[me].created)
      ensures left ==> at[me] == Idle
      ensures !left ==> at[me].Decided? && at[me].spec == old(at[me].spec) && at[me].decision == decision
      ensures !left ==> decision.step >= 0 && decision.action != Failure && crs[me].kind == old(crs[me].kind)
      ensures IsListing(pods, me, listing)
      ensures Latest(me, old(history), Decide(listing, true))
              || (left && Latest(me, old(history), Decide(listing, false)))
      ensures Latest(me, old(history), Decide(listing, true)) ==>
                IsDecision(PodsOf(pods, listing), WorkflowLength(old(crs[me].kind), old(at[me].spec)), decision)
                && (left <==> decision.action == Failure)
    {
      Interfere(me);
      var names := ListPods(me);
      listing := names;
      var listOk: bool := *;
      if !listOk {
        Return(me, crs[me].conditions, Decide(names, false));
        return true, Decision(Failure, 0), listing;
      }
      left, decision := TakeDecision(me, names);
    }

    /** What the listed pods call for. */
    method TakeDecision(me: string, names: seq<string>) returns (left: bool, decision: Decision)
      requires Serving(me) && at[me].Fetched? && IsListing(pods, me, names)
      modifies this
      ensures Serving(me) && history == old(history) + [Reconcile(me, Decide(names, true))]
      ensures pods == old(pods) && crs[me].kind == old(crs[me].kind) && crs[me].created == old(crs[me].created)
      ensures IsDecision(PodsOf(pods, names), WorkflowLength(old(crs[me].kind), old(at[me].spec)), decision)
      ensures decision.step >= 0 && (left <==> decision.action == Failure)
      ensures if left then at[me] == Idle
              else at[me].Decided? && at[me].spec == old(at[me].spec) && at[me].decision == decision
    {
      var spec, workflowLength := at[me].spec, 0;
      if crs[me].kind.SupportsWorkflow() {
        workflowLength := |spec.workflow|;
      }
      var seen;
      decision, seen := ChooseAction(PodsOf(pods, names), workflowLength);
      left := decision.action == Failure;
      if left {
        Return(me, crs[me].conditions, Decide(names, true));
      } else {
        Proceed(me, Decided(spec, decision, seen), Decide(names, true));
      }
    }

    /** One reconcile of one custom resource, with everybody else acting in between: it takes the
        protocol's steps from the reading of the instance to its end (or panic) and no others, exactly once,
        and creates at most one pod. */
    method CommonReconcile(me: string)
      requires Serving(me) && at[me] == Idle
      modifies this
      ensures Serving(me) && OnePass(me, old(history), history)
      ensures at[me] == Idle || at[me] == Panicked
      ensures MadeAtMostOne(me, old(crs[me]).kind, old(crs[me].created), old(history))
    {
      var left := FetchInstance(me);
      if left {
        return;
      }
      ghost var fetched := history;
      Continue(me);
      OnePassGoesOn(me, old(history), fetched, history);
      MadeSinceFetch(me, old(crs[me]).kind, old(crs[me].created), old(history), fetched);
    }

    /** What follows the reading of the instance. */
    method Continue(me: string)
      requires Serving(me) && at[me].Fetched?
      modifies this
      ensures Serving(me) && Onward(me, old(history), history)
      ensures at[me] == Idle || at[me] == Panicked
      ensures MadeAtMostOne(me, old(crs[me]).kind, old(crs[me].created), old(history))
    {
      var spec, kind := at[me].spec, crs[me].kind;
      var left, decision;
      ghost var decided;
      left, decision, decided := DecideAction(me);
      if left {
        return;
      }
      ghost var decidedAt := history;
      CheckAndPerform(me, spec, decision);
      MadeSince(me, TaskFor(me, kind, spec, decision.step), old(crs[me].created), old(history), decidedAt);
    }

    /** The config check and, when it passes, what has been decided. */
    method CheckAndPerform(me: string, spec: Spec, decision: Decision)
      requires Serving(me) && at[me].Decided? && at[me].spec == spec && at[me].decision == decision
      requires decision.step >= 0
      modifies this
      ensures Serving(me) && Onward(me, old(history), history)
      ensures at[me] == Idle || at[me] == Panicked
      ensures MadeNothingOr(me, TaskFor(me, old(crs[me]).kind, spec, decision.step), old(crs[me].created), old(history))
    {
      var kind, configHash := crs[me].kind, HashOf(spec);
      var check;
      ghost var listing;
      check, listing := CheckConfigChange(me, configHash);
      if check != Passed {
        return;
      }
      ghost var passed := CheckConfig(listing, true);
      ghost var checked := history;
      Perform(me, spec, decision, passed);
      MadeSince(me, TaskFor(me, kind, spec, decision.step), old(crs[me].created), old(history), checked);
    }

    /** Merges the step, reads `parallel` and acts on the decision. */
    method Perform(me: string, spec: Spec, decision: Decision, ghost passed: Call)
      requires Serving(me) && CallEnabled(Look(Now(), me), me, passed) && !passed.Fetch? && decision.step >= 0
      requires ApplyCall(Look(Now(), me), me, passed)
               == var next := AfterCheck(me, crs[me].kind, spec, decision);
                  if next.Idle? then Quit(Look(Now(), me)) else Look(Now(), me).(stage := next)
      modifies this
      ensures Serving(me) && Onward(me, old(history), history)
      ensures at[me] == Idle || at[me] == Panicked
      ensures MadeNothingOr(me, TaskFor(me, old(crs[me]).kind, spec, decision.step), old(crs[me].created),
                            old(history))
      ensures match decision.action
              case EndTesting => SetsAbout(me, ForRelease, old(history), history)
              case CreateFirstPod | CreateNextPod =>
                SetsAbout(me,
                          if EffectiveParallel(old(crs[me]).kind, spec, decision.step) then ForBuilding else ForLock,
                          old(history), history)
              case _ => history == old(history) + [Reconcile(me, passed)] && at[me] == Idle
    {
      var parallel := ChooseParallel(crs[me].kind, spec, decision.step);
      match decision.action {
        case EndTesting =>
          Proceed(me, Releasing(AtEnd), passed);
          ReleaseAt(me, AtEnd);
        case CreateFirstPod | CreateNextPod =>
          StartPod(me, spec, decision.step, parallel, passed);
        case CheckPending | Wait | Failure =>
          Return(me, crs[me].conditions, passed);
      }
    }

    /** Names the pod of the step and goes for the lock. */
    method StartPod(me: string, spec: Spec, step: int, parallel: bool, ghost passed: Call)
      requires Serving(me) && CallEnabled(Look(Now(), me), me, passed) && !passed.Fetch?
      requires parallel == EffectiveParallel(crs[me].kind, spec, step)
      requires var task := TaskFor(me, crs[me].kind, spec, step);
               ApplyCall(Look(Now(), me), me, passed)
               == Look(Now(), me).(stage := if parallel then Locked(task) else Acquiring(task))
      modifies this
      ensures Serving(me) && Onward(me, old(history), history)
      ensures at[me] == Idle || at[me] == Panicked
      ensures MadeNothingOr(me, TaskFor(me, old(crs[me]).kind, spec, step), old(crs[me].created), old(history))
      ensures SetsAbout(me, if parallel then ForBuilding else ForLock, old(history), history)
    {
      var podName := PodNames.GetPodName(me, StepNames(crs[me].kind, spec), step);
      var task := Task(spec, step, HashOf(spec), parallel, podName);
      Proceed(me, if parallel then Locked(task) else Acquiring(task), passed);
      ghost var proceeded := history;
      SpawnPod(me, parallel);
      MadeSince(me, task, old(crs[me].created), old(history), proceeded);
    }

    /** Gives the lock back and leaves. */
    method ReleaseAt(me: string, site: Site)
      requires Serving(me) && at[me] == Releasing(site)
      modifies this
      ensures Serving(me) && Onward(me, old(history), history)
      ensures at[me] == Idle && crs[me].created == old(crs[me].created)
      ensures SetsAbout(me, ForRelease, old(history), history)
      ensures exists released :: ReleasedShown(site, released, old(crs[me].conditions), crs[me].conditions)
                              && (released ==> lock == NoLock)
    {
      var released;
      ghost var answer;
      released, answer := ReleaseLock(me);
      ghost var tried := history;
      LeaveReleased(me, site, released, answer);
      if answer.ReleaseRead? {
        LastSetsAbout(me, ForRelease, old(history), tried, answer, history);
      } else {
        SetAboutWithin(me, ForRelease, old(history), old(history), tried, history);
      }
    }

    /** From the lock to the created pod, or to giving the lock back. */
    method SpawnPod(me: string, parallel: bool)
      requires Serving(me)
      requires if parallel then at[me].Locked? && at[me].task.parallel else at[me].Acquiring?
      modifies this
      ensures Serving(me) && Onward(me, old(history), history) && (at[me] == Idle || at[me] == Panicked)
      ensures MadeNothingOr(me, old(at[me].task), old(crs[me].created), old(history))
      ensures SetsAbout(me, if parallel then ForBuilding else ForLock, old(history), history)
    {
      var acquired := AcquireLock(me, parallel);
      if acquired {
        ghost var locked := history;
        BuildAndCreate(me);
        MadeSince(me, old(at[me].task), old(crs[me].created), old(history), locked);
      }
    }

    /** The last call was about building the pod, or about the pod that has been created or found. */
    ghost predicate EndsWithPod(me: string, before: seq<Event>)
      reads this
    {
      (exists o :: Latest(me, before, Prepare(o))) || (exists o :: Latest(me, before, Verify(o)))
    }

    /** Builds and creates the pod; a creation that fails is followed by the release of the lock. */
    method BuildAndCreate(me: string)
      requires Serving(me) && at[me].Locked? && (at[me].task.parallel || lock.HeldBy(crs[me].uid))
      modifies this
      ensures Serving(me) && Onward(me, old(history), history) && (at[me] == Idle || at[me] == Panicked)
      ensures MadeNothingOr(me, old(at[me].task), old(crs[me].created), old(history))
      ensures SetsAbout(me, ForBuilding, old(history), history)
      ensures EndsWithPod(me, old(history)) || SetsAbout(me, ForRelease, old(history), history)
    {
      ghost var before := history;
      var built;
      ghost var outcome;
      built, outcome := PreparePod(me);
      if !built {
        return;
      }
      ghost var prepared := history;
      CreateAndVerify(me);
      MadeSince(me, old(at[me].task), old(crs[me].created), before, prepared);
      if SetsAbout(me, ForRelease, prepared, history) {
        SetAboutWithin(me, ForRelease, before, prepared, history, history);
      }
    }

    /** Creates the prepared pod and looks at its networks, or gives the lock back. */
    method CreateAndVerify(me: string)
      requires Serving(me) && at[me].Prepared? && (at[me].task.parallel || lock.HeldBy(crs[me].uid))
      modifies this
      ensures Serving(me) && Onward(me, old(history), history) && at[me] == Idle
      ensures MadeNothingOr(me, old(at[me].task), old(crs[me].created), old(history))
      ensures (exists o :: Latest(me, old(history), Verify(o))) || SetsAbout(me, ForRelease, old(history), history)
    {
      ghost var before := history;
      var created := CreatePod(me);
      ghost var made := history;
      if !created {
        ReleaseAt(me, AfterFailedCreate);
        SetAboutWithin(me, ForRelease, before, made, history, history);
        return;
      }
      ghost var verified := VerifyNetworks(me);
      assert Latest(me, before, Verify(verified));
      if crs[me].created != old(crs[me].created) {
        MadeWithin(start, me, old(at[me].task), before, before, made, history);
      }
    }

    /** Reads the network status of the created pod, with the others at work before it, and leaves. */
    method VerifyNetworks(me: string) returns (ghost outcome: VerifyOutcome)
      requires Serving(me) && at[me] == Created
      modifies this
      ensures Serving(me) && Onward(me, old(history), history)
      ensures at[me] == Idle && crs[me].created == old(crs[me].created)
      ensures VerifiedShown(crs[me].kind, outcome, old(crs[me].conditions), crs[me].conditions)
      ensures Latest(me, old(history), Verify(outcome))
    {
      Interfere(me);
      var verification: VerifyOutcome := *;
      outcome := verification;
      VerifiedShows(crs[me].kind, verification, crs[me].conditions);
      Return(me, VerifiedConditions(crs[me].kind, crs[me].conditions, verification), Verify(verification));
    }
  }

  lemma {:induction false} HashHasName(names: seq<string>, pods: map<string, Pod>)
    requires forall n | n in names :: n in pods
    requires CurrentHash(PodsOf(pods, names)) != NoHash
    ensures LiveNames(pods, names) != []
  {
    var list := PodsOf(pods, names);
    if !list[0].Live() {
      assert PodsOf(pods, names[1..]) == list[1..];
      HashHasName(names[1..], pods);
    }
  }

  lemma EnvSparesRecord(s: State, e: EnvEvent, me: string)
    requires EnvEnabled(s, e) && Knows(s, me)
    ensures var t := ApplyExternal(s, e);
            && Knows(t, me) && t.at[me] == s.at[me] && t.crs[me] == s.crs[me].(spec := t.crs[me].spec)
            && t.lock == s.lock
  {
  }

  /** An event of others neither gives nor takes away the lock, and leaves the own record alone. */
  lemma LockStaysMine(s: State, e: Event, me: string)
    requires Inv(s) && Enabled(s, e) && Knows(s, me) && !(e.Reconcile? && e.cr == me)
    ensures var t := Apply(s, e);
            && Knows(t, me) && t.at[me] == s.at[me] && t.crs[me] == s.crs[me].(spec := t.crs[me].spec)
            && (HoldsLock(Look(t, me)) <==> HoldsLock(Look(s, me)))
            && NoNewPods(s.pods, t.pods, me)
  {
    match e
    case External(env) =>
      EnvSparesRecord(s, env, me);
      EnvLeavesAllAlone(s, env, me);
    case Reconcile(cr, call) =>
      CallSparesRecord(s, cr, call, me);
      CallLeavesOthersAlone(s, cr, call, me);
  }
}
