/** Status conditions as a map, with the few operations of the condition library the reconcile uses. */
module Conditions {
  import opened Types

  datatype Cond = Ready | InputReady | ServiceConfigReady | DeploymentReady | NetworkAttachmentsReady
  datatype Status = True | False | Undecided

  type StatusMap = map<Cond, Status>

  /** GetInitialConditions of each kind. */
  function Initial(kind: Kind): StatusMap {
    var common := map[Ready := Undecided, InputReady := Undecided, DeploymentReady := Undecided];
    var config := if kind.NeedsConfigMaps() then common[ServiceConfigReady := Undecided] else common;
    if kind.NeedsNetworkAttachments() then config[NetworkAttachmentsReady := Undecided] else config
  }

  predicate Is(c: StatusMap, cond: Cond, status: Status) { cond in c && c[cond] == status }

  function Shows(c: StatusMap, cond: Cond): Option<Status> {
    if cond in c then Some(c[cond]) else None
  }

  predicate AllSubConditionsTrue(c: StatusMap) {
    forall k | k in c && k != Ready :: c[k] == True
  }

  /** The overall status summarises the others: False before Undecided before True. */
  function Mirror(c: StatusMap): Status {
    if exists k :: k in c && k != Ready && c[k] == False then False
    else if exists k :: k in c && k != Ready && c[k] == Undecided then Undecided
    else True
  }

  /** What the deferred function does to the conditions on every way out of a reconcile. */
  function OnExit(c: StatusMap): StatusMap {
    if Is(c, Ready, Undecided) then c[Ready := Mirror(c)] else c
  }

  function MarkReadyIfAllTrue(c: StatusMap): StatusMap {
    if AllSubConditionsTrue(c) then c[Ready := True] else c
  }

  /** Ready only ever says True together with every other condition. */
  predicate ReadyIsHonest(c: StatusMap) {
    Is(c, Ready, True) ==> AllSubConditionsTrue(c)
  }

  lemma ExitKeepsReadyHonest(c: StatusMap)
    requires ReadyIsHonest(c)
    ensures ReadyIsHonest(OnExit(c)) && OnExit(c).Keys == c.Keys
    ensures forall k | k in c && k != Ready :: OnExit(c)[k] == c[k]
  {
    if Is(c, Ready, Undecided) && Mirror(c) == True {
      forall k | k in c && k != Ready ensures c[k] == True {
        assert c[k] != False && c[k] != Undecided;
      }
    }
  }
}
