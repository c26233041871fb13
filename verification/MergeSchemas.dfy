/** The Go types that MergeSections is used on: the three spec structs and their workflow steps. */
module MergeSchemas {
  import opened Types

  /** Field names, grouped by where they occur. */
  datatype Field =
    | Section(section: SectionName) | OptionField(option: OptionName) | Shared(shared: SharedName)
    | Inner(inner: InnerName)
    | TempestField(tempest: TempestName) | TempestconfField(tempestconf: TempestconfName)
    | TobikoField(tobiko: TobikoName) | AnsibleField(ansible: AnsibleName)

  datatype SectionName = CommonOptions | WorkflowCommonOptions | CommonOpenstackConfig | TempestRun | TempestconfRun

  datatype OptionName = Privileged | StorageClass | SELinuxLevel | ContainerImage | BackoffLimit
    | ExtraConfigmapsMounts | ExtraMounts | NodeSelector | Tolerations | OpenStackConfigMap | OpenStackConfigSecret

  datatype SharedName = Resources | Parallel | Debug | NetworkAttachments | Workflow | StepName

  datatype InnerName = Limits | Requests | Claims | Repository | Refspec

  datatype TempestName = Cleanup | RerunFailedTests | RerunOverrideStatus | TimingDataUrl | SSHKeySecretName
    | ConfigOverwrite | IncludeList | ExcludeList | ExpectedFailuresList | Concurrency | Smoke | Serial | WorkerFile
    | ExternalPlugin | ExtraRPMs | ExtraImages

  datatype TempestconfName = Create | CollectTiming | Insecure | NoDefaultDeployer | Verbose | NonAdmin | RetryImage
    | ConvertToRaw | Out | DeployerInput | TestAccounts | CreateAccountsFile | Profile | GenerateProfile
    | ImageDiskFormat | Image | FlavorMinMem | FlavorMinDisk | NetworkID | Append | Remove | Overrides | Timeout

  datatype TobikoName = Testenv | PytestAddopts | SkipRegexList | PreventCreate | NumProcesses | Version | Patch
    | Config | PrivateKey | PublicKey | KubeconfigSecretName

  datatype AnsibleName = ComputeSSHKeySecretName | WorkloadSSHKeySecretName | AnsibleGitRepo | AnsibleGitBranch
    | AnsiblePlaybookPath | AnsibleCollections | AnsibleVarFiles | AnsibleExtraVars | AnsibleInventory

  datatype Element = StringElem | ConfigMountElem | VolMountElem | TolerationElem | PluginElem | ImageElem
                   | ClaimElem | TempestStepElem | TobikoStepElem | AnsibleTestStepElem

  /** A Go type. Of a struct type: its fields, and which of them are embedded, so that Go also finds
      their fields under the struct's own name. */
  datatype Type =
    | TString | TBool | TInt32 | TInt64 | TUint8 | TMap | TSlice(elem: Element) | TPtr(to: Type)
    | TStruct(fields: map<Field, Type>, embedded: seq<Field>)

  type StructType = t: Type | t.TStruct? witness TStruct(map[], [])

  function AllFields(): set<Field> {
    (set x: SectionName | true :: Section(x)) + (set x: OptionName | true :: OptionField(x))
    + (set x: SharedName | true :: Shared(x)) + (set x: InnerName | true :: Inner(x))
    + (set x: TempestName | true :: TempestField(x)) + (set x: TempestconfName | true :: TempestconfField(x))
    + (set x: TobikoName | true :: TobikoField(x)) + (set x: AnsibleName | true :: AnsibleField(x))
  }

  /** The struct type whose fields a function lists. */
  function StructWith(field: Field -> Option<Type>, embedded: seq<Field>): StructType {
    TStruct(map f | f in AllFields() && field(f).Some? :: field(f).value, embedded)
  }

  function CommonOptionsField(f: Field): Option<Type> {
    match f
    case OptionField(Privileged) => Some(TBool)
    case OptionField(StorageClass) | OptionField(SELinuxLevel) | OptionField(ContainerImage) => Some(TString)
    case OptionField(BackoffLimit) => Some(TPtr(TInt32))
    case OptionField(ExtraConfigmapsMounts) => Some(TSlice(ConfigMountElem))
    case OptionField(ExtraMounts) => Some(TSlice(VolMountElem))
    case OptionField(NodeSelector) => Some(TMap)
    case OptionField(Tolerations) => Some(TSlice(TolerationElem))
    case _ => None
  }

  function WorkflowCommonOptionsField(f: Field): Option<Type> {
    match f
    case OptionField(Privileged) => Some(TPtr(TBool))
    case OptionField(StorageClass) | OptionField(SELinuxLevel) => Some(TPtr(TString))
    case OptionField(ContainerImage) => Some(TString)
    case OptionField(BackoffLimit) => Some(TPtr(TInt32))
    case OptionField(ExtraConfigmapsMounts) => Some(TPtr(TSlice(ConfigMountElem)))
    case OptionField(NodeSelector) => Some(TPtr(TMap))
    case OptionField(Tolerations) => Some(TPtr(TSlice(TolerationElem)))
    case _ => None
  }

  function TempestSpecField(f: Field): Option<Type> {
    match f
    case Section(CommonOptions) => Some(CommonOptionsType())
    case Section(CommonOpenstackConfig) => Some(OpenstackConfigType())
    case Shared(Resources) => Some(ResourcesType())
    case Shared(Parallel) | Shared(Debug) | TempestField(Cleanup) | TempestField(RerunFailedTests)
       | TempestField(RerunOverrideStatus) => Some(TBool)
    case TempestField(TimingDataUrl) | TempestField(SSHKeySecretName) => Some(TString)
    case Shared(NetworkAttachments) => Some(TSlice(StringElem))
    case Section(TempestRun) => Some(TempestRunSpec())
    case Section(TempestconfRun) => Some(TempestconfRunSpec())
    case TempestField(ConfigOverwrite) => Some(TMap)
    case Shared(Workflow) => Some(TSlice(TempestStepElem))
    case _ => None
  }

  function TempestStepField(f: Field): Option<Type> {
    match f
    case Section(WorkflowCommonOptions) => Some(WorkflowCommonOptionsType())
    case Section(CommonOpenstackConfig) => Some(OpenstackConfigType())
    case Shared(Resources) => Some(TPtr(ResourcesType()))
    case Shared(StepName) => Some(TString)
    case Shared(Parallel) | TempestField(RerunFailedTests) | TempestField(RerunOverrideStatus) => Some(TPtr(TBool))
    case TempestField(TimingDataUrl) | TempestField(SSHKeySecretName) => Some(TPtr(TString))
    case Shared(NetworkAttachments) => Some(TPtr(TSlice(StringElem)))
    case Section(TempestRun) => Some(TempestRunStep())
    case Section(TempestconfRun) => Some(TempestconfRunStep())
    case TempestField(ConfigOverwrite) => Some(TPtr(TMap))
    case _ => None
  }

  function TempestRunSpecField(f: Field): Option<Type> {
    match f
    case TempestField(IncludeList) | TempestField(ExcludeList) | TempestField(ExpectedFailuresList)
       | TempestField(WorkerFile) => Some(TString)
    case TempestField(Concurrency) => Some(TInt64)
    case TempestField(Smoke) | Shared(Parallel) | TempestField(Serial) => Some(TBool)
    case TempestField(ExternalPlugin) => Some(TSlice(PluginElem))
    case TempestField(ExtraRPMs) => Some(TSlice(StringElem))
    case TempestField(ExtraImages) => Some(TSlice(ImageElem))
    case _ => None
  }

  function TempestconfRunSpecField(f: Field): Option<Type> {
    match f
    case TempestconfField(Create) | TempestconfField(CollectTiming) | TempestconfField(Insecure)
       | TempestconfField(NoDefaultDeployer) | Shared(Debug) | TempestconfField(Verbose)
       | TempestconfField(NonAdmin) | TempestconfField(RetryImage) | TempestconfField(ConvertToRaw) =>
      Some(TBool)
    case TempestconfField(Out) | TempestconfField(DeployerInput) | TempestconfField(TestAccounts)
       | TempestconfField(CreateAccountsFile) | TempestconfField(Profile) | TempestconfField(GenerateProfile)
       | TempestconfField(ImageDiskFormat) | TempestconfField(Image) | TempestconfField(NetworkID)
       | TempestconfField(Append) | TempestconfField(Remove) | TempestconfField(Overrides) => Some(TString)
    case TempestconfField(FlavorMinMem) | TempestconfField(FlavorMinDisk) | TempestconfField(Timeout) => Some(TInt64)
    case _ => None
  }

  function TobikoSpecField(f: Field): Option<Type> {
    match f
    case Section(CommonOptions) => Some(CommonOptionsType())
    case Section(CommonOpenstackConfig) => Some(OpenstackConfigType())
    case Shared(Resources) => Some(ResourcesType())
    case Shared(Debug) | TobikoField(PreventCreate) | Shared(Parallel) => Some(TBool)
    case TobikoField(Testenv) | TobikoField(PytestAddopts) | TobikoField(Version) | TobikoField(Config)
       | TobikoField(PrivateKey) | TobikoField(PublicKey) | TobikoField(KubeconfigSecretName) => Some(TString)
    case TobikoField(SkipRegexList) | Shared(NetworkAttachments) => Some(TSlice(StringElem))
    case TobikoField(NumProcesses) => Some(TUint8)
    case TobikoField(Patch) => Some(PatchType())
    case Shared(Workflow) => Some(TSlice(TobikoStepElem))
    case _ => None
  }

  function TobikoStepField(f: Field): Option<Type> {
    match f
    case Section(WorkflowCommonOptions) => Some(WorkflowCommonOptionsType())
    case Section(CommonOpenstackConfig) => Some(OpenstackConfigType())
    case Shared(Resources) => Some(TPtr(ResourcesType()))
    case TobikoField(Testenv) | TobikoField(PytestAddopts) | TobikoField(Version) | TobikoField(Config)
       | TobikoField(PrivateKey) | TobikoField(PublicKey) | TobikoField(KubeconfigSecretName) | Shared(StepName) =>
      Some(TString)
    case TobikoField(SkipRegexList) | Shared(NetworkAttachments) => Some(TSlice(StringElem))
    case TobikoField(PreventCreate) => Some(TPtr(TBool))
    case TobikoField(NumProcesses) => Some(TPtr(TUint8))
    case TobikoField(Patch) => Some(TPtr(PatchType()))
    case _ => None
  }

  function AnsibleTestSpecField(f: Field): Option<Type> {
    match f
    case Section(CommonOptions) => Some(CommonOptionsType())
    case Section(CommonOpenstackConfig) => Some(OpenstackConfigType())
    case Shared(Resources) => Some(ResourcesType())
    case AnsibleField(_) => Some(TString)
    case Shared(Debug) => Some(TBool)
    case Shared(Workflow) => Some(TSlice(AnsibleTestStepElem))
    case _ => None
  }

  function AnsibleTestStepField(f: Field): Option<Type> {
    match f
    case Section(WorkflowCommonOptions) => Some(WorkflowCommonOptionsType())
    case Section(CommonOpenstackConfig) => Some(OpenstackConfigType())
    case Shared(Resources) => Some(TPtr(ResourcesType()))
    case Shared(StepName) | AnsibleField(_) => Some(TString)
    case Shared(Debug) => Some(TBool)
    case _ => None
  }

  /** A pointer to each type of a run section; that is how its step differs from it. */
  function Pointed(t: Option<Type>): Option<Type> {
    if t.Some? then Some(TPtr(t.value)) else None
  }

  function OpenstackConfigField(f: Field): Option<Type> {
    if f == OptionField(OpenStackConfigMap) || f == OptionField(OpenStackConfigSecret) then Some(TString) else None
  }

  function ResourcesField(f: Field): Option<Type> {
    match f
    case Inner(Limits) | Inner(Requests) => Some(TMap)
    case Inner(Claims) => Some(TSlice(ClaimElem))
    case _ => None
  }

  function PatchField(f: Field): Option<Type> {
    if f == Inner(Repository) || f == Inner(Refspec) then Some(TString) else None
  }

  function CommonOptionsType(): StructType { StructWith(f => CommonOptionsField(f), []) }
  function WorkflowCommonOptionsType(): StructType { StructWith(f => WorkflowCommonOptionsField(f), []) }
  function OpenstackConfigType(): StructType { StructWith(f => OpenstackConfigField(f), []) }
  function ResourcesType(): StructType { StructWith(f => ResourcesField(f), []) }
  function PatchType(): StructType { StructWith(f => PatchField(f), []) }
  function TempestRunSpec(): StructType { StructWith(f => TempestRunSpecField(f), []) }
  function TempestRunStep(): StructType { StructWith(f => Pointed(TempestRunSpecField(f)), []) }
  function TempestconfRunSpec(): StructType { StructWith(f => TempestconfRunSpecField(f), []) }
  function TempestconfRunStep(): StructType { StructWith(f => Pointed(TempestconfRunSpecField(f)), []) }

  /** The spec of a kind that has workflows, and its workflow step. */
  function SpecField(kind: Kind, f: Field): Option<Type>
    requires kind.SupportsWorkflow()
  {
    match kind
    case Tempest => TempestSpecField(f)
    case Tobiko => TobikoSpecField(f)
    case AnsibleTest => AnsibleTestSpecField(f)
  }

  function StepField(kind: Kind, f: Field): Option<Type>
    requires kind.SupportsWorkflow()
  {
    match kind
    case Tempest => TempestStepField(f)
    case Tobiko => TobikoStepField(f)
    case AnsibleTest => AnsibleTestStepField(f)
  }

  function SpecType(kind: Kind): StructType
    requires kind.SupportsWorkflow()
  {
    StructWith(f => SpecField(kind, f), [Section(CommonOptions), Section(CommonOpenstackConfig)])
  }

  function StepType(kind: Kind): StructType
    requires kind.SupportsWorkflow()
  {
    StructWith(f => StepField(kind, f), [Section(WorkflowCommonOptions), Section(CommonOpenstackConfig)])
  }
}
