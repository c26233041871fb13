/** What the events of one stretch of a run say about one custom resource. */
module History {
  import opened Protocol
  import opened ProtocolSafety
  import opened Types

  /** The history has grown from `before` to `now`, and `me` has not started another reconcile. */
  ghost predicate Onward(me: string, before: seq<Event>, now: seq<Event>) {
    && Grown(before, now)
    && forall k | |before| <= k < |now| :: now[k] != Reconcile(me, Fetch)
  }

  /** Only others have acted. */
  ghost predicate OnlyOthers(me: string, before: seq<Event>, now: seq<Event>) {
    && Grown(before, now)
    && forall k | |before| <= k < |now| :: !(now[k].Reconcile? && now[k].cr == me)
  }

  ghost predicate Grown(before: seq<Event>, now: seq<Event>) {
    |before| <= |now| && forall k | 0 <= k < |before| :: now[k] == before[k]
  }

  /** Between `before` and `now`, `me` has started exactly one reconcile. */
  ghost predicate OnePass(me: string, before: seq<Event>, now: seq<Event>) {
    && Grown(before, now)
    && exists f :: |before| <= f < |now| && now[f] == Reconcile(me, Fetch)
                && forall k | |before| <= k < |now| && k != f :: now[k] != Reconcile(me, Fetch)
  }

  lemma OnePassGoesOn(me: string, before: seq<Event>, mid: seq<Event>, now: seq<Event>)
    requires OnePass(me, before, mid) && Onward(me, mid, now)
    ensures OnePass(me, before, now)
  {
    var f :| |before| <= f < |mid| && mid[f] == Reconcile(me, Fetch)
             && forall k | |before| <= k < |mid| && k != f :: mid[k] != Reconcile(me, Fetch);
    assert now[f] == Reconcile(me, Fetch);
    forall k | |before| <= k < |now| && k != f ensures now[k] != Reconcile(me, Fetch) {
      if k < |mid| { assert now[k] == mid[k]; }
    }
  }

  lemma FetchStarts(me: string, before: seq<Event>, mid: seq<Event>, now: seq<Event>)
    requires Onward(me, before, mid) && now == mid + [Reconcile(me, Fetch)]
    ensures OnePass(me, before, now)
  {
    assert now[|mid|] == Reconcile(me, Fetch);
    forall k | |before| <= k < |now| && k != |mid| ensures now[k] != Reconcile(me, Fetch) {
      assert now[k] == mid[k];
    }
  }

  /** How often `me` has polled the lock since the history had `from` events. */
  ghost function PollsIn(me: string, h: seq<Event>, from: nat): nat {
    if |h| <= from then 0
    else
      var e := h[|h| - 1];
      PollsIn(me, h[..|h| - 1], from) + if e.Reconcile? && e.cr == me && e.call.ReleasePoll? then 1 else 0
  }

  lemma PollsAdd(me: string, h: seq<Event>, e: Event, from: nat)
    requires from <= |h|
    ensures PollsIn(me, h + [e], from)
            == PollsIn(me, h, from) + if e.Reconcile? && e.cr == me && e.call.ReleasePoll? then 1 else 0
  {
    assert (h + [e])[..|h|] == h;
  }

  lemma {:induction false} PollsSplit(me: string, mid: seq<Event>, now: seq<Event>, from: nat)
    requires from <= |mid| && Grown(mid, now)
    ensures PollsIn(me, now, from) == PollsIn(me, mid, from) + PollsIn(me, now, |mid|)
    decreases |now|
  {
    if |now| == |mid| {
      assert now == mid;
    } else {
      PollsSplit(me, mid, now[..|now| - 1], from);
    }
  }

  lemma {:induction false} OthersDoNotPoll(me: string, mid: seq<Event>, now: seq<Event>, from: nat)
    requires from <= |mid| && OnlyOthers(me, mid, now)
    ensures PollsIn(me, now, from) == PollsIn(me, mid, from)
    decreases |now|
  {
    if |now| == |mid| {
      assert now == mid;
    } else {
      OthersDoNotPoll(me, mid, now[..|now| - 1], from);
    }
  }

  lemma {:induction false} NoPollsYet(me: string, h: seq<Event>, from: nat)
    requires |h| <= from
    ensures PollsIn(me, h, from) == 0
  {
  }

  /** All that `me` has done between `before` and `now` is to work on a release. */
  ghost predicate OnlyReleases(me: string, before: seq<Event>, now: seq<Event>) {
    && Grown(before, now)
    && forall k | |before| <= k < |now| && now[k].Reconcile? && now[k].cr == me ::
         now[k].call.ReleaseRead? || now[k].call.ReleaseDelete? || now[k].call.ReleasePoll?
  }

  /** Between `before` and `now`, `me` has had a lock deleted. */
  ghost predicate HasDeleted(me: string, before: seq<Event>, now: seq<Event>) {
    exists k :: |before| <= k < |now| && now[k] == Reconcile(me, ReleaseDelete(true))
  }

  lemma OthersOnly(me: string, before: seq<Event>, now: seq<Event>)
    requires OnlyOthers(me, before, now)
    ensures OnlyReleases(me, before, now) && !HasDeleted(me, before, now) && PollsIn(me, now, |before|) == 0
  {
    OthersDoNotPoll(me, before, now, |before|);
  }

  /** Others act, and then `me` makes one call of its release. */
  lemma OneReleaseCall(me: string, before: seq<Event>, mid: seq<Event>, call: Call)
    requires OnlyOthers(me, before, mid) && (call.ReleaseRead? || call.ReleaseDelete? || call.ReleasePoll?)
    ensures var now := mid + [Reconcile(me, call)];
            && OnlyReleases(me, before, now)
            && (HasDeleted(me, before, now) <==> call == ReleaseDelete(true))
            && PollsIn(me, now, |before|) == if call.ReleasePoll? then 1 else 0
  {
    OthersOnly(me, before, mid);
    PollsAdd(me, mid, Reconcile(me, call), |before|);
    var now := mid + [Reconcile(me, call)];
    assert now[|mid|] == Reconcile(me, call);
  }

  lemma ReleasesJoin(me: string, before: seq<Event>, mid: seq<Event>, now: seq<Event>)
    requires OnlyReleases(me, before, mid) && OnlyReleases(me, mid, now)
    ensures OnlyReleases(me, before, now)
    ensures HasDeleted(me, before, now) <==> HasDeleted(me, before, mid) || HasDeleted(me, mid, now)
    ensures PollsIn(me, now, |before|) == PollsIn(me, mid, |before|) + PollsIn(me, now, |mid|)
  {
    PollsSplit(me, mid, now, |before|);
    if HasDeleted(me, before, mid) {
      var k :| |before| <= k < |mid| && mid[k] == Reconcile(me, ReleaseDelete(true));
      assert now[k] == Reconcile(me, ReleaseDelete(true));
    }
    if HasDeleted(me, before, now) {
      var k :| |before| <= k < |now| && now[k] == Reconcile(me, ReleaseDelete(true));
      assert k < |mid| ==> mid[k] == Reconcile(me, ReleaseDelete(true));
    }
  }

  /** No poll that `me` has made between `before` and `now` found the lock absent. */
  ghost predicate PollsMissed(start: State, me: string, before: seq<Event>, now: seq<Event>) {
    forall k | |before| <= k < |now| && now[k] == Reconcile(me, ReleasePoll(true)) :: PollMissed(start, now, k)
  }

  ghost predicate PollMissed(start: State, now: seq<Event>, k: nat)
    requires k < |now|
  {
    Possible(start, now[..k]) && After(start, now[..k]).lock != NoLock
  }

  lemma NothingMissed(start: State, me: string, before: seq<Event>, now: seq<Event>)
    requires OnlyOthers(me, before, now)
    ensures PollsMissed(start, me, before, now)
  {
  }

  lemma OnePollMissed(start: State, me: string, before: seq<Event>, mid: seq<Event>, s: State, ok: bool)
    requires OnlyOthers(me, before, mid) && Leads(start, mid, s) && !(ok && s.lock == NoLock)
    ensures PollsMissed(start, me, before, mid + [Reconcile(me, ReleasePoll(ok))])
  {
    var now := mid + [Reconcile(me, ReleasePoll(ok))];
    assert now[..|mid|] == mid;
    assert forall k | |before| <= k < |mid| :: now[k] == mid[k];
  }

  lemma MissesJoin(start: State, me: string, before: seq<Event>, mid: seq<Event>, now: seq<Event>)
    requires Grown(before, mid) && Grown(mid, now)
    requires PollsMissed(start, me, before, mid) && PollsMissed(start, me, mid, now)
    ensures PollsMissed(start, me, before, now)
  {
    forall k | |before| <= k < |now| && now[k] == Reconcile(me, ReleasePoll(true))
      ensures PollMissed(start, now, k)
    {
      if k < |mid| {
        assert PollMissed(start, mid, k) && now[..k] == mid[..k];
      }
    }
  }

  predicate IsDelete(e: Event, me: string) { e.Reconcile? && e.cr == me && e.call.ReleaseDelete? }

  /** Between `before` and `now`, `me` has tried to delete the lock. */
  ghost predicate HasTriedDelete(me: string, before: seq<Event>, now: seq<Event>) {
    exists d :: |before| <= d < |now| && IsDelete(now[d], me)
  }

  /** Between `before` and `now`, `me` has read the lock and then tried to delete it. */
  ghost predicate HasAsked(me: string, before: seq<Event>, now: seq<Event>) {
    exists r, d :: |before| <= r < d < |now| && now[r] == Reconcile(me, ReleaseRead(true)) && IsDelete(now[d], me)
  }

  datatype Purpose = ForRelease | ForLock | ForBuilding

  /** The call with which a reconcile sets about it. */
  predicate Opens(call: Call, purpose: Purpose) {
    match purpose
    case ForRelease => call.ReleaseRead?
    case ForLock => call.ReadLock?
    case ForBuilding => call.Prepare?
  }

  /** Between `before` and `now`, `me` has set about it. */
  ghost predicate SetsAbout(me: string, purpose: Purpose, before: seq<Event>, now: seq<Event>) {
    exists r :: |before| <= r < |now| && now[r].Reconcile? && now[r].cr == me && Opens(now[r].call, purpose)
  }

  lemma SetAboutWithin(me: string, purpose: Purpose, before: seq<Event>, from: seq<Event>, upTo: seq<Event>,
                       now: seq<Event>)
    requires SetsAbout(me, purpose, from, upTo) && Grown(before, from) && Grown(upTo, now)
    ensures SetsAbout(me, purpose, before, now)
  {
    var r :| |from| <= r < |upTo| && upTo[r].Reconcile? && upTo[r].cr == me && Opens(upTo[r].call, purpose);
    assert now[r] == upTo[r];
  }

  lemma LastSetsAbout(me: string, purpose: Purpose, before: seq<Event>, mid: seq<Event>, call: Call, now: seq<Event>)
    requires Grown(before, mid) && Opens(call, purpose) && Grown(mid + [Reconcile(me, call)], now)
    ensures SetsAbout(me, purpose, before, now)
  {
    var one := mid + [Reconcile(me, call)];
    assert one[|mid|] == Reconcile(me, call) && now[|mid|] == one[|mid|];
  }

  lemma ReadThenDelete(me: string, before: seq<Event>, read: seq<Event>, now: seq<Event>)
    requires Grown(before, read) && Grown(read + [Reconcile(me, ReleaseRead(true))], now)
    requires HasTriedDelete(me, read + [Reconcile(me, ReleaseRead(true))], now)
    ensures HasAsked(me, before, now)
  {
    var one := read + [Reconcile(me, ReleaseRead(true))];
    var d :| |one| <= d < |now| && IsDelete(now[d], me);
    assert one[|read|] == Reconcile(me, ReleaseRead(true)) && now[|read|] == one[|read|];
  }

  lemma DeleteTried(me: string, before: seq<Event>, mid: seq<Event>, now: seq<Event>, ok: bool)
    requires Grown(before, mid) && Grown(mid + [Reconcile(me, ReleaseDelete(ok))], now)
    ensures HasTriedDelete(me, before, now)
  {
    var one := mid + [Reconcile(me, ReleaseDelete(ok))];
    assert one[|mid|] == Reconcile(me, ReleaseDelete(ok)) && now[|mid|] == one[|mid|];
    assert IsDelete(now[|mid|], me);
  }

  /** Others act, `me` tries to delete the lock, and only polls follow. */
  lemma DeleteThenPolls(start: State, me: string, before: seq<Event>, asked: seq<Event>, ok: bool, now: seq<Event>)
    requires OnlyOthers(me, before, asked)
    requires var deleted := asked + [Reconcile(me, ReleaseDelete(ok))];
             && OnlyReleases(me, deleted, now) && !HasDeleted(me, deleted, now) && PollsMissed(start, me, deleted, now)
    ensures OnlyReleases(me, before, now) && PollsMissed(start, me, before, now) && HasTriedDelete(me, before, now)
    ensures HasDeleted(me, before, now) <==> ok
    ensures PollsIn(me, now, |before|) == PollsIn(me, now, |asked| + 1)
  {
    var deleted := asked + [Reconcile(me, ReleaseDelete(ok))];
    OneReleaseCall(me, before, asked, ReleaseDelete(ok));
    ReleasesJoin(me, before, deleted, now);
    NoPollNoMiss(start, me, before, asked, ReleaseDelete(ok));
    MissesJoin(start, me, before, deleted, now);
    DeleteTried(me, before, asked, now, ok);
  }

  /** Others act, `me` reads the lock, and the rest of its release follows. */
  lemma ReadThenRelease(start: State, me: string, before: seq<Event>, read: seq<Event>, now: seq<Event>)
    requires OnlyOthers(me, before, read)
    requires var held := read + [Reconcile(me, ReleaseRead(true))];
             OnlyReleases(me, held, now) && PollsMissed(start, me, held, now)
    ensures OnlyReleases(me, before, now) && PollsMissed(start, me, before, now)
    ensures HasDeleted(me, before, now) <==> HasDeleted(me, read + [Reconcile(me, ReleaseRead(true))], now)
    ensures PollsIn(me, now, |before|) == PollsIn(me, now, |read| + 1)
    ensures HasTriedDelete(me, read + [Reconcile(me, ReleaseRead(true))], now) ==> HasAsked(me, before, now)
    ensures SetsAbout(me, ForRelease, before, now)
  {
    var held := read + [Reconcile(me, ReleaseRead(true))];
    LastSetsAbout(me, ForRelease, before, read, ReleaseRead(true), now);
    OneReleaseCall(me, before, read, ReleaseRead(true));
    ReleasesJoin(me, before, held, now);
    NoPollNoMiss(start, me, before, read, ReleaseRead(true));
    MissesJoin(start, me, before, held, now);
    if HasTriedDelete(me, held, now) {
      ReadThenDelete(me, before, read, now);
    }
  }

  lemma NoPollNoMiss(start: State, me: string, before: seq<Event>, mid: seq<Event>, call: Call)
    requires OnlyOthers(me, before, mid) && !call.ReleasePoll?
    ensures PollsMissed(start, me, before, mid + [Reconcile(me, call)])
  {
    assert forall k | |before| <= k < |mid| :: (mid + [Reconcile(me, call)])[k] == mid[k];
  }

  /** At event `k`, `me` changes the lock only if it holds it. */
  ghost predicate SparesForeignLock(start: State, me: string, now: seq<Event>, k: nat)
    requires k < |now|
  {
    && Possible(start, now[..k]) && Possible(start, now[..k + 1])
    && (After(start, now[..k + 1]).lock != After(start, now[..k]).lock ==>
          Knows(After(start, now[..k]), me) && HoldsLock(Look(After(start, now[..k]), me)))
  }

  /** So does every event of `me` between `before` and `now`. */
  ghost predicate SparesForeignLocks(start: State, me: string, before: seq<Event>, now: seq<Event>) {
    forall k | |before| <= k < |now| && now[k].Reconcile? && now[k].cr == me :: SparesForeignLock(start, me, now, k)
  }

  lemma ReleaseSparesForeignLock(s: State, me: string, call: Call)
    requires Inv(s) && Enabled(s, Reconcile(me, call))
    requires call.ReleaseRead? || call.ReleaseDelete? || call.ReleasePoll?
    ensures Apply(s, Reconcile(me, call)).lock != s.lock ==> HoldsLock(Look(s, me))
  {
    CallLock(Look(s, me), me, call);
    assert ViewInv(Look(s, me), me);
  }

  lemma ReleasesSpareForeignLocks(start: State, me: string, before: seq<Event>, now: seq<Event>)
    requires Start(start) && Possible(start, now) && OnlyReleases(me, before, now)
    ensures SparesForeignLocks(start, me, before, now)
  {
    forall k | |before| <= k < |now| && now[k].Reconcile? && now[k].cr == me
      ensures SparesForeignLock(start, me, now, k)
    {
      OneReleaseSpares(start, me, now, k);
    }
  }

  lemma OneReleaseSpares(start: State, me: string, now: seq<Event>, k: nat)
    requires Start(start) && Possible(start, now) && k < |now| && now[k].Reconcile? && now[k].cr == me
    requires now[k].call.ReleaseRead? || now[k].call.ReleaseDelete? || now[k].call.ReleasePoll?
    ensures SparesForeignLock(start, me, now, k)
  {
    EventAt(start, now, k);
    ReachableInv(start, now[..k]);
    ReleaseSparesForeignLock(After(start, now[..k]), me, now[k].call);
  }

  /** Event `k` creates the pod of `task` for `me`, under its free name and under the lock unless the pod is
      parallel. */
  ghost predicate Makes(start: State, me: string, task: Task, now: seq<Event>, k: nat)
    requires k < |now|
  {
    && now[k] == Reconcile(me, CreatePod(true)) && Possible(start, now[..k]) && Possible(start, now[..k + 1])
    && var s, t := After(start, now[..k]), After(start, now[..k + 1]);
       && Knows(s, me) && Knows(t, me)
       && task.podName !in s.pods && t.pods == s.pods[task.podName := NewPod(me, task)]
       && t.crs[me].created == s.crs[me].created + [task.step]
       && (task.parallel || HoldsLock(Look(t, me)))
  }

  /** Between `before` and `now`, `me` has created the pod of `task`. */
  ghost predicate HasMade(start: State, me: string, task: Task, before: seq<Event>, now: seq<Event>) {
    exists k :: |before| <= k < |now| && Makes(start, me, task, now, k)
  }

  lemma LastEventMakes(start: State, me: string, task: Task, mid: seq<Event>, s: State, t: State)
    requires Leads(start, mid, s) && Leads(start, mid + [Reconcile(me, CreatePod(true))], t)
    requires Knows(s, me) && Knows(t, me)
    requires task.podName !in s.pods && t.pods == s.pods[task.podName := NewPod(me, task)]
    requires t.crs[me].created == s.crs[me].created + [task.step] && (task.parallel || HoldsLock(Look(t, me)))
    ensures HasMade(start, me, task, mid, mid + [Reconcile(me, CreatePod(true))])
  {
    var now := mid + [Reconcile(me, CreatePod(true))];
    assert now[..|mid|] == mid && now[..|mid| + 1] == now;
    assert Makes(start, me, task, now, |mid|);
  }

  lemma MadeWithin(start: State, me: string, task: Task, before: seq<Event>, from: seq<Event>, upTo: seq<Event>,
                   now: seq<Event>)
    requires HasMade(start, me, task, from, upTo) && Grown(before, from) && Grown(upTo, now)
    ensures HasMade(start, me, task, before, now)
  {
    var k :| |from| <= k < |upTo| && Makes(start, me, task, upTo, k);
    assert now[..k] == upTo[..k] && now[..k + 1] == upTo[..k + 1];
    assert Makes(start, me, task, now, k);
  }

  /** Others have made no pod for `me` and revived none. */
  ghost predicate NoNewPods(before: map<string, Pod>, after: map<string, Pod>, me: string) {
    forall n | LivePod(after, me, n) :: LivePod(before, me, n)
  }
}
