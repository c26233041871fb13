/** The objects the operator works on: custom resources, pods, the lock and conditions. */
module Types {

  datatype Option<+T> = None | Some(value: T) {
    function GetOr(default: T): T {
      match this
      case Some(v) => v
      case None => default
    }
  }

  datatype Result<+T> = Ok(value: T) | Err

  /** The four kinds of custom resource; each comes with its own TestResourceConfig. */
  datatype Kind = Tempest | Tobiko | AnsibleTest | HorizonTest {
    predicate NeedsNetworkAttachments() { Tempest? || Tobiko? }
    predicate NeedsConfigMaps() { !AnsibleTest? }
    predicate NeedsFinalizer() { Tempest? }
    predicate SupportsWorkflow() { !HorizonTest? }
    predicate HasParallel() { !AnsibleTest? }
    // only the Tempest workflow step carries a `parallel` override
    predicate StepHasParallel() { Tempest? }
  }

  /** One workflow step, as far as the protocol looks at it. */
  datatype StepSpec = StepSpec(name: string, parallel: Option<bool>)

  /** A custom resource's spec; everything the protocol never looks at is `rest`. */
  datatype Spec = Spec(parallel: bool, workflow: seq<StepSpec>, rest: string)

  /** The config-hash annotation. The hash of a spec is never empty and is injective;
      a pod without the annotation reads as NoHash. */
  datatype ConfigHash = NoHash | HashOf(spec: Spec)

  datatype Phase = Pending | Running | Succeeded | Failed | Unknown {
    predicate Terminal() { Succeeded? || Failed? }
  }

  /** A pod object. `stepLabel` is the workflowStep label read as a number (None: it does not parse).
      `parallel` records the effective value at creation; the operator never reads it back. */
  datatype Pod = Pod(instance: string, stepLabel: Option<int>, phase: Phase, terminating: bool,
                     hash: ConfigHash, parallel: bool) {
    predicate Live() { !terminating }
    predicate Finished() { phase.Terminal() }
    function Step(): int { stepLabel.GetOr(-1) }
  }

  /** The test-operator-lock config map: absent, or present with or without an owner field. */
  datatype Lock = NoLock | LockObject(owner: Option<string>) {
    predicate HeldBy(uid: string) { LockObject? && owner == Some(uid) }
  }

  function WorkflowLength(kind: Kind, spec: Spec): nat {
    if kind.SupportsWorkflow() then |spec.workflow| else 0
  }

  /** How many pods one run creates. */
  function StepCount(workflowLength: nat): nat {
    if workflowLength == 0 then 1 else workflowLength
  }

  function PodCount(kind: Kind, spec: Spec): nat { StepCount(WorkflowLength(kind, spec)) }

  /** Indexing a workflow that is not empty panics. */
  predicate OutOfRange(workflowLength: nat, index: int) {
    workflowLength > 0 && !(0 <= index < workflowLength)
  }

  /** What merging a workflow step does to the part of the spec the protocol looks at. */
  function MergeStep(kind: Kind, spec: Spec, step: int): Spec
    requires 0 <= step < |spec.workflow|
  {
    if kind.StepHasParallel() then spec.(parallel := spec.workflow[step].parallel.GetOr(spec.parallel)) else spec
  }

  /** The value of `parallel` that is read after the step has been merged into the spec. */
  function EffectiveParallel(kind: Kind, spec: Spec, step: int): bool {
    if !kind.HasParallel() then false
    else if kind.StepHasParallel() && 0 <= step < WorkflowLength(kind, spec)
    then spec.workflow[step].parallel.GetOr(spec.parallel)
    else spec.parallel
  }
}
