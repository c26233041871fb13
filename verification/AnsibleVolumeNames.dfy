/** When the volume names of an AnsibleTest pod are distinct, as a pod's must be. */
module AnsibleVolumeNames {
  import opened AnsibleVolumes
  import opened Merge
  import opened MergeProperties
  import opened MergeSchemas
  import opened Types

  function Names(volumes: seq<Volume>): (names: seq<string>)
    ensures |names| == |volumes| && forall i | 0 <= i < |volumes| :: names[i] == volumes[i].name
  {
    seq(|volumes|, i requires 0 <= i < |volumes| => volumes[i].name)
  }

  ghost predicate Distinct(names: seq<string>) {
    forall i, j | 0 <= i < j < |names| :: names[i] != names[j]
  }

  ghost predicate Apart(a: seq<string>, b: seq<string>) {
    forall i, j | 0 <= i < |a| && 0 <= j < |b| :: a[i] != b[j]
  }

  lemma DistinctSum(a: seq<string>, b: seq<string>)
    ensures Distinct(a + b) <==> Distinct(a) && Distinct(b) && Apart(a, b)
  {
    var c := a + b;
    assert forall i | 0 <= i < |a| :: a[i] == c[i];
    assert forall j | 0 <= j < |b| :: b[j] == c[|a| + j];
  }

  lemma ApartSum(a: seq<string>, b: seq<string>, c: seq<string>)
    ensures Apart(a + b, c) <==> Apart(a, c) && Apart(b, c)
    ensures Apart(c, a + b) <==> Apart(c, a) && Apart(c, b)
    ensures Apart(a, b) <==> Apart(b, a)
  {
    var d := a + b;
    assert forall i | 0 <= i < |a| :: a[i] == d[i];
    assert forall j | 0 <= j < |b| :: b[j] == d[|a| + j];
  }

  lemma NamesSum(a: seq<Volume>, b: seq<Volume>)
    ensures Names(a + b) == Names(a) + Names(b)
  {
  }

  // ---- the names the operator takes and the names the user gives --------------------------------

  function ReservedNames(spec: AnsibleSpec, mountCerts: bool): seq<string> {
    [LOGS, WORKDIR, TMP] + (if mountCerts then [CA_CERTS] else [])
    + [COMPUTE] + (if spec.workloadKey != "" then [WORKLOAD] else [])
  }

  function ConfigNames(cs: seq<ConfigMount>): (names: seq<string>)
    ensures |names| == |cs| && forall i | 0 <= i < |cs| :: names[i] == cs[i].name
  {
    seq(|cs|, i requires 0 <= i < |cs| => cs[i].name)
  }

  function OpenstackNames(spec: AnsibleSpec): seq<string> { [spec.configMap, spec.configSecret] }

  /** What the user names: extra mounts and config maps. */
  function MountNames(spec: AnsibleSpec): seq<string> {
    Names(ExtraVolumes(spec.extraMounts)) + ConfigNames(spec.configMounts)
  }

  /** The names in the user's hands are distinct and none is one of the operator's own. */
  ghost predicate NamesFit(spec: AnsibleSpec, mountCerts: bool) {
    && Distinct(OpenstackNames(spec) + MountNames(spec))
    && Apart(OpenstackNames(spec) + MountNames(spec), ReservedNames(spec, mountCerts))
  }

  lemma ReservedAreDistinct(spec: AnsibleSpec, mountCerts: bool)
    ensures Distinct(ReservedNames(spec, mountCerts))
  {
    assert |LOGS| == 18 && |WORKDIR| == 31 && |TMP| == 33 && |CA_CERTS| == 8 && |WORKLOAD| == 19;
    assert COMPUTE[0] != LOGS[0];
  }

  lemma FixedNames(spec: AnsibleSpec, logsPVC: string, mountCerts: bool)
    ensures Names(FixedVolumes(spec, logsPVC, mountCerts)) == OpenstackNames(spec) + ReservedNames(spec, mountCerts)
  {
  }

  lemma ConfigVolumeNames(cs: seq<ConfigMount>)
    ensures Names(ConfigVolumes(cs)) == ConfigNames(cs)
  {
  }

  /** The volumes that come from the merged spec. */
  function SpecVolumes(spec: AnsibleSpec, logsPVC: string, mountCerts: bool): seq<Volume> {
    FixedVolumes(spec, logsPVC, mountCerts) + ExtraVolumes(spec.extraMounts) + ConfigVolumes(spec.configMounts)
  }

  lemma SpecVolumeNames(spec: AnsibleSpec, logsPVC: string, mountCerts: bool)
    ensures Names(SpecVolumes(spec, logsPVC, mountCerts))
            == OpenstackNames(spec) + ReservedNames(spec, mountCerts) + MountNames(spec)
  {
    var fixed, extra := FixedVolumes(spec, logsPVC, mountCerts), ExtraVolumes(spec.extraMounts);
    FixedNames(spec, logsPVC, mountCerts);
    ConfigVolumeNames(spec.configMounts);
    NamesSum(fixed, extra);
    NamesSum(fixed + extra, ConfigVolumes(spec.configMounts));
  }

  lemma SpecNamesDistinct(spec: AnsibleSpec, logsPVC: string, mountCerts: bool)
    ensures Distinct(Names(SpecVolumes(spec, logsPVC, mountCerts))) <==> NamesFit(spec, mountCerts)
  {
    SpecVolumeNames(spec, logsPVC, mountCerts);
    ReservedAreDistinct(spec, mountCerts);
    ThreeParts(OpenstackNames(spec), ReservedNames(spec, mountCerts), MountNames(spec));
  }

  lemma ThreeParts(a: seq<string>, r: seq<string>, b: seq<string>)
    requires Distinct(r)
    ensures Distinct(a + r + b) <==> Distinct(a + b) && Apart(a + b, r)
  {
    DistinctSum(a + r, b);
    DistinctSum(a, r);
    DistinctSum(a, b);
    ApartSum(a, r, b);
    ApartSum(a, b, r);
    ApartSum(r, b, a);
  }

  // ---- the step's own list ---------------------------------------------------------------------

  /** The step's list, if it has one, is the merged spec's. */
  predicate StepListIsTheSpecs(spec: AnsibleSpec, step: int)
    requires !OutOfRange(|spec.workflow|, step)
  {
    |spec.workflow| > 0 && spec.workflow[step].Some? ==> spec.workflow[step].value == spec.configMounts
  }

  /** Each config map of the step gets two volumes of the same name. */
  lemma StepVolumesTwice(spec: AnsibleSpec, logsPVC: string, mountCerts: bool, step: int, i: nat)
    requires !OutOfRange(|spec.workflow|, step) && StepListIsTheSpecs(spec, step)
    requires i < |StepMounts(spec, step)|
    ensures var vs, k := Volumes(spec, logsPVC, mountCerts, step), |StepMounts(spec, step)|;
            && |vs| >= 2 * k
            && vs[|vs| - 2 * k + i] == vs[|vs| - k + i] == ConfigVolume(StepMounts(spec, step)[i])
  {
  }

  /** Exactly when the volume names are distinct: the step mounts no config maps, and the names the
      user gives are distinct and none of the operator's own. */
  lemma NamesDistinctExactly(spec: AnsibleSpec, logsPVC: string, mountCerts: bool, step: int)
    requires !OutOfRange(|spec.workflow|, step) && StepListIsTheSpecs(spec, step)
    ensures Distinct(Names(Volumes(spec, logsPVC, mountCerts, step)))
            <==> StepMounts(spec, step) == [] && NamesFit(spec, mountCerts)
  {
    var vs := Volumes(spec, logsPVC, mountCerts, step);
    SpecNamesDistinct(spec, logsPVC, mountCerts);
    if StepMounts(spec, step) == [] {
      assert vs == SpecVolumes(spec, logsPVC, mountCerts);
    } else {
      StepVolumesTwice(spec, logsPVC, mountCerts, step, 0);
      var k := |StepMounts(spec, step)|;
      assert Names(vs)[|vs| - 2 * k] == Names(vs)[|vs| - k];
    }
  }

  // ---- the same, from the merge ----------------------------------------------------------------

  const MOUNTS := In(Section(CommonOptions), OptionField(ExtraConfigmapsMounts))

  function Items(v: Value, read: string -> ConfigMount): seq<ConfigMount> {
    if v.Slice? && v.items.Some?
    then seq(|v.items.value|, i requires 0 <= i < |v.items.value| => read(v.items.value[i]))
    else []
  }

  /** `spec` shows the config mounts of the merged spec `m` and of its step `w`, whatever the elements
      of a slice stand for. */
  predicate Shows(spec: AnsibleSpec, step: int, m: Value, w: Value, read: string -> ConfigMount) {
    && 0 <= step < |spec.workflow|
    && ValueAt(m, MOUNTS).Some? && spec.configMounts == Items(ValueAt(m, MOUNTS).value, read)
    && spec.workflow[step]
       == match SettingAt(w, MOUNTS)
          case Some(Ptr(Some(v))) => Some(Items(v, read))
          case _ => None
  }

  lemma ConfigMountsAreALeaf()
    ensures IsLeaf(SpecType(AnsibleTest), StepType(AnsibleTest), MOUNTS)
    ensures Section(CommonOptions) in SpecType(AnsibleTest).fields
    ensures SpecType(AnsibleTest).fields[Section(CommonOptions)] == CommonOptionsType()
    ensures OptionField(ExtraConfigmapsMounts) in CommonOptionsType().fields
    ensures CommonOptionsType().fields[OptionField(ExtraConfigmapsMounts)] == TSlice(ConfigMountElem)
  {
    NoStepSetsWorkflow(AnsibleTest);
    SchemaFields(AnsibleTest, Section(CommonOptions));
    assert CommonOptionsField(OptionField(ExtraConfigmapsMounts)) == Some(TSlice(ConfigMountElem));
    SectionLeaves(AnsibleTest, Section(CommonOptions), OptionField(ExtraConfigmapsMounts));
  }

  lemma OverriddenListIsTheSpecs(base: Value, m: Value, w: Value, spec: AnsibleSpec, step: int,
                                 read: string -> ConfigMount)
    requires base.Slice? && ValueAt(m, MOUNTS) == Some(Override(base, SettingAt(w, MOUNTS)))
    requires Shows(spec, step, m, w, read)
    ensures StepListIsTheSpecs(spec, step)
  {
  }

  lemma BaseIsASlice(m: Value)
    requires HasType(m, SpecType(AnsibleTest))
    ensures ValueAt(m, MOUNTS).Some? && ValueAt(m, MOUNTS).value.Slice?
  {
    ConfigMountsAreALeaf();
    FieldHasType(m, SpecType(AnsibleTest), Section(CommonOptions));
    FieldHasType(m.fields[Section(CommonOptions)], CommonOptionsType(), OptionField(ExtraConfigmapsMounts));
  }

  /** The merge has made the step's list the spec's. */
  lemma MergeMakesTheListTheSpecs(m: Value, w: Value, spec: AnsibleSpec, step: int, read: string -> ConfigMount)
    requires HasType(m, SpecType(AnsibleTest)) && HasType(w, StepType(AnsibleTest))
    requires Shows(spec, step, Merged(SpecType(AnsibleTest), StepType(AnsibleTest), m, w), w, read)
    ensures StepListIsTheSpecs(spec, step)
  {
    var main, own := SpecType(AnsibleTest), StepType(AnsibleTest);
    ConfigMountsAreALeaf();
    SchemasMatch(AnsibleTest);
    BaseIsASlice(m);
    MergeCorrect(main, own, m, w, MOUNTS);
    OverriddenListIsTheSpecs(ValueAt(m, MOUNTS).value, Merged(main, own, m, w), w, spec, step, read);
  }

  /** So of the volumes that an AnsibleTest's pod gets after the merge. */
  lemma MergedNamesDistinctExactly(m: Value, w: Value, spec: AnsibleSpec, logsPVC: string, mountCerts: bool, step: int,
                                   read: string -> ConfigMount)
    requires HasType(m, SpecType(AnsibleTest)) && HasType(w, StepType(AnsibleTest))
    requires Shows(spec, step, Merged(SpecType(AnsibleTest), StepType(AnsibleTest), m, w), w, read)
    ensures Distinct(Names(Volumes(spec, logsPVC, mountCerts, step)))
            <==> StepMounts(spec, step) == [] && NamesFit(spec, mountCerts)
  {
    MergeMakesTheListTheSpecs(m, w, spec, step, read);
    NamesDistinctExactly(spec, logsPVC, mountCerts, step);
  }
}
