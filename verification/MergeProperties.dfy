/** What MergeSections does to the three kinds of spec that have workflows. */
module MergeProperties {
  import opened Types
  import opened MergeSchemas
  import opened Merge
  import opened MergeAlgebra

  // ---- the schemas fit -------------------------------------------------------------------------

  lemma NoNameTwice(kind: Kind, f: Field)
    requires kind.SupportsWorkflow() && SpecField(kind, f).Some?
    ensures WorkflowCommonOptionsField(f).None? && OpenstackConfigField(f).None?
  {
  }

  lemma EmbeddedTypes(kind: Kind)
    requires kind.SupportsWorkflow()
    ensures StepType(kind).embedded == [Section(WorkflowCommonOptions), Section(CommonOpenstackConfig)]
    ensures StepField(kind, Section(WorkflowCommonOptions)) == Some(WorkflowCommonOptionsType())
    ensures StepField(kind, Section(CommonOpenstackConfig)) == Some(OpenstackConfigType())
  {
  }

  lemma NothingIsPromoted(kind: Kind, f: Field)
    requires kind.SupportsWorkflow() && f in SpecType(kind).fields
    ensures NotPromoted(StepType(kind), f)
  {
    NoNameTwice(kind, f);
    EmbeddedTypes(kind);
    assert !Promotes(StepType(kind), Section(WorkflowCommonOptions), f);
    assert !Promotes(StepType(kind), Section(CommonOpenstackConfig), f);
  }

  /** Assigning the step's field keeps the type of the spec's field. */
  predicate Assignable(base: Type, over: Option<Type>) {
    over.Some? && !base.TStruct? ==> AssignedType(base, over.value) == base
  }

  predicate AssignableWhole(base: Type, over: Option<Type>) {
    over.Some? && over.value.TPtr? && base.TStruct? ==> over.value.to == base
  }

  lemma TempestFits(f: Field)
    requires TempestSpecField(f).Some?
    ensures Assignable(TempestSpecField(f).value, TempestStepField(f))
    ensures AssignableWhole(TempestSpecField(f).value, TempestStepField(f))
  {
  }

  lemma TobikoFits(f: Field)
    requires TobikoSpecField(f).Some?
    ensures Assignable(TobikoSpecField(f).value, TobikoStepField(f))
    ensures AssignableWhole(TobikoSpecField(f).value, TobikoStepField(f))
  {
  }

  lemma AnsibleTestFits(f: Field)
    requires AnsibleTestSpecField(f).Some?
    ensures Assignable(AnsibleTestSpecField(f).value, AnsibleTestStepField(f))
    ensures AssignableWhole(AnsibleTestSpecField(f).value, AnsibleTestStepField(f))
  {
  }

  lemma KindFits(kind: Kind, f: Field)
    requires kind.SupportsWorkflow() && SpecField(kind, f).Some?
    ensures Assignable(SpecField(kind, f).value, StepField(kind, f))
    ensures AssignableWhole(SpecField(kind, f).value, StepField(kind, f))
  {
    match kind
    case Tempest => TempestFits(f);
    case Tobiko => TobikoFits(f);
    case AnsibleTest => AnsibleTestFits(f);
  }

  lemma SchemaFields(kind: Kind, f: Field)
    requires kind.SupportsWorkflow()
    ensures f in SpecType(kind).fields <==> SpecField(kind, f).Some?
    ensures f in StepType(kind).fields <==> StepField(kind, f).Some?
    ensures f in SpecType(kind).fields ==> SpecType(kind).fields[f] == SpecField(kind, f).value
    ensures f in StepType(kind).fields ==> StepType(kind).fields[f] == StepField(kind, f).value
  {
  }

  lemma FieldsFit(main: StructType, step: StructType, f: Field)
    requires f in main.fields && NotPromoted(step, f)
    requires f in step.fields ==>
               Assignable(main.fields[f], Some(step.fields[f])) && AssignableWhole(main.fields[f], Some(step.fields[f]))
    requires SectionFor(f).Some? ==>
               SectionFor(f).value in step.fields && step.fields[SectionFor(f).value].TStruct?
    ensures Compatible(main, step, f)
  {
  }

  lemma OptionFits(f: Field)
    requires CommonOptionsField(f).Some?
    ensures !CommonOptionsField(f).value.TStruct?
    ensures Assignable(CommonOptionsField(f).value, WorkflowCommonOptionsField(f))
  {
  }

  lemma CommonOptionsFit()
    ensures Mergeable(CommonOptionsType(), WorkflowCommonOptionsType())
  {
    forall f | f in CommonOptionsType().fields
      ensures Compatible(CommonOptionsType(), WorkflowCommonOptionsType(), f)
      ensures !IsSection(CommonOptionsType(), WorkflowCommonOptionsType(), f)
    {
      OptionFits(f);
    }
  }

  predicate Plain(t: Type) { !t.TStruct? && !t.TPtr? }

  /** A step whose fields are pointers to the section's own fits. */
  lemma PointersFit(section: StructType, step: StructType)
    requires forall f | f in section.fields ::
               Plain(section.fields[f]) && f in step.fields && step.fields[f] == TPtr(section.fields[f])
    requires step.embedded == []
    ensures Mergeable(section, step)
  {
    forall f | f in section.fields
      ensures Compatible(section, step, f) && !IsSection(section, step, f)
    {
      assert Plain(section.fields[f]);
    }
  }

  lemma RunFieldsArePlain(f: Field)
    ensures TempestRunSpecField(f).Some? ==> Plain(TempestRunSpecField(f).value)
    ensures TempestconfRunSpecField(f).Some? ==> Plain(TempestconfRunSpecField(f).value)
  {
  }

  lemma RunSectionsFit()
    ensures Mergeable(TempestRunSpec(), TempestRunStep())
    ensures Mergeable(TempestconfRunSpec(), TempestconfRunStep())
  {
    forall f: Field
      ensures TempestRunSpecField(f).Some? ==> Plain(TempestRunSpecField(f).value)
      ensures TempestconfRunSpecField(f).Some? ==> Plain(TempestconfRunSpecField(f).value)
    {
      RunFieldsArePlain(f);
    }
    PointersFit(TempestRunSpec(), TempestRunStep());
    PointersFit(TempestconfRunSpec(), TempestconfRunStep());
  }

  /** The pairs of section types that occur. */
  predicate SectionPair(main: Type, step: Type) {
    || (main == CommonOptionsType() && step == WorkflowCommonOptionsType())
    || (main == TempestRunSpec() && step == TempestRunStep())
    || (main == TempestconfRunSpec() && step == TempestconfRunStep())
  }

  lemma SectionFields(kind: Kind, s: Field)
    requires kind.SupportsWorkflow() && SpecField(kind, s).Some? && SectionFor(s).Some?
    ensures StepField(kind, SectionFor(s).value).Some?
    ensures SectionPair(SpecField(kind, s).value, StepField(kind, SectionFor(s).value).value)
    ensures StepField(kind, s).Some? ==> !StepField(kind, s).value.TPtr?
  {
    match s
    case Section(CommonOptions) =>
    case Section(TempestRun) =>
    case Section(TempestconfRun) =>
    case _ =>
  }

  lemma SectionTypes(kind: Kind, s: Field)
    requires kind.SupportsWorkflow() && s in SpecType(kind).fields && SectionFor(s).Some?
    ensures SectionFor(s).value in StepType(kind).fields
    ensures SectionPair(SpecType(kind).fields[s], StepType(kind).fields[SectionFor(s).value])
    ensures IsSection(SpecType(kind), StepType(kind), s)
  {
    SchemaFields(kind, s);
    SchemaFields(kind, SectionFor(s).value);
    SectionFields(kind, s);
  }

  lemma SectionsFit(kind: Kind, s: Field)
    requires kind.SupportsWorkflow() && s in SpecType(kind).fields && SectionFor(s).Some?
    ensures FieldMergeable(SpecType(kind), StepType(kind), s)
  {
    CommonOptionsFit();
    RunSectionsFit();
    SchemaFits(kind, s);
    SectionTypes(kind, s);
  }

  lemma SchemaFits(kind: Kind, f: Field)
    requires kind.SupportsWorkflow() && f in SpecType(kind).fields
    ensures Compatible(SpecType(kind), StepType(kind), f)
  {
    SchemaFields(kind, f);
    NothingIsPromoted(kind, f);
    KindFits(kind, f);
    if SectionFor(f).Some? { SectionTypes(kind, f); }
    FieldsFit(SpecType(kind), StepType(kind), f);
  }

  /** On all three kinds MergeSections may run: it looks up no missing section, assigns across no
      types, and never takes a promoted field for the step's own. */
  lemma SchemasMatch(kind: Kind)
    requires kind.SupportsWorkflow()
    ensures Mergeable(SpecType(kind), StepType(kind))
  {
    forall f | f in SpecType(kind).fields
      ensures FieldMergeable(SpecType(kind), StepType(kind), f)
    {
      SchemaFits(kind, f);
      if SectionFor(f).Some? { SectionsFit(kind, f); }
    }
  }

  // ---- what a merge does, value by value -------------------------------------------------------

  /** Where a value stands in a spec: in a field, or in a field of a section. */
  datatype Path = Top(f: Field) | In(section: Field, f: Field)

  function ValueAt(v: Value, p: Path): Option<Value> {
    match p
    case Top(f) => if v.Struct? && f in v.fields then Some(v.fields[f]) else None
    case In(s, f) =>
      if v.Struct? && s in v.fields && v.fields[s].Struct? && f in v.fields[s].fields
      then Some(v.fields[s].fields[f]) else None
  }

  /** What a workflow step says about that value. */
  function SettingAt(w: Value, p: Path): Option<Value> {
    match p
    case In(Section(CommonOptions), f) => ValueAt(w, In(Section(WorkflowCommonOptions), f))
    case _ => ValueAt(w, p)
  }

  /** A value that is overridden whole: a field that is no section, also inside a section. */
  predicate IsLeaf(main: StructType, step: StructType, p: Path) {
    match p
    case Top(f) => f in main.fields && !IsSection(main, step, f)
    case In(s, f) =>
      && s in main.fields && IsSection(main, step, s) && SectionFor(s).Some?
      && SectionFor(s).value in step.fields && step.fields[SectionFor(s).value].TStruct?
      && f in main.fields[s].fields && !IsSection(main.fields[s], step.fields[SectionFor(s).value], f)
  }

  /** The step's value when it is set: a non-empty string or map, a non-nil slice or pointer, any
      plain bool or number. A pointer stands for what it points to, unless the spec has a pointer too. */
  function Override(base: Value, setting: Option<Value>): Value {
    match setting
    case None => base
    case Some(Str(s)) => if s == "" then base else setting.value
    case Some(Map(entries)) => if entries == None || entries == Some(map[]) then base else setting.value
    case Some(Slice(None)) => base
    case Some(Ptr(None)) => base
    case Some(Ptr(Some(v))) => if base.Ptr? then setting.value else v
    case Some(_) => setting.value
  }

  lemma AssignedIsOverride(base: Value, main: Type, v: Value, step: Type)
    requires HasType(base, main) && HasType(v, step) && AssignedType(main, step) == main
    requires main.TStruct? ==> step.TPtr?
    ensures (if IsEmpty(v) then base else Assigned(main, step, v)) == Override(base, Some(v))
  {
  }

  lemma LeafMerge(main: StructType, step: StructType, m: Value, w: Value, f: Field)
    requires f in main.fields && Compatible(main, step, f) && !IsSection(main, step, f)
    requires HasType(m, main) && HasType(w, step)
    ensures ValueAt(Merged(main, step, m, w), Top(f)) == Some(Override(m.fields[f], ValueAt(w, Top(f))))
  {
    FieldMerge(main, step, f, m.fields[f], w);
    assert Merged(main, step, m, w).fields[f] == MergedField(main, step, f, m.fields[f], w);
    if f in step.fields {
      AssignedIsOverride(m.fields[f], main.fields[f], w.fields[f], step.fields[f]);
    }
  }

  lemma SectionLeafMerge(main: StructType, step: StructType, m: Value, w: Value, s: Field, f: Field)
    requires IsLeaf(main, step, In(s, f)) && Compatible(main, step, s)
    requires Compatible(main.fields[s], step.fields[SectionFor(s).value], f)
    requires HasType(m, main) && HasType(w, step)
    ensures ValueAt(m, In(s, f)).Some?
    ensures ValueAt(Merged(main, step, m, w), In(s, f))
            == Some(Override(ValueAt(m, In(s, f)).value, ValueAt(w, In(SectionFor(s).value, f))))
  {
    var section := SectionFor(s).value;
    assert HasType(m.fields[s], main.fields[s]);
    SectionMerge(main, step, s, m.fields[s], w);
    LeafMerge(main.fields[s], step.fields[section], m.fields[s], w.fields[section], f);
    assert Merged(main, step, m, w).fields[s] == MergedField(main, step, s, m.fields[s], w);
  }

  lemma InsideCompatible(main: StructType, step: StructType, s: Field, f: Field)
    requires s in main.fields && FieldMergeable(main, step, s) && IsLeaf(main, step, In(s, f))
    ensures Compatible(main.fields[s], step.fields[SectionFor(s).value], f)
  {
    EveryFieldMergeable(main.fields[s], step.fields[SectionFor(s).value], f);
  }

  lemma SettingInSection(w: Value, s: Field, f: Field)
    requires SectionFor(s).Some?
    ensures SettingAt(w, In(s, f)) == ValueAt(w, In(SectionFor(s).value, f))
  {
  }

  lemma TopCorrect(main: StructType, step: StructType, m: Value, w: Value, f: Field)
    requires Mergeable(main, step) && HasType(m, main) && HasType(w, step) && IsLeaf(main, step, Top(f))
    ensures ValueAt(m, Top(f)).Some?
    ensures ValueAt(Merged(main, step, m, w), Top(f)) == Some(Override(ValueAt(m, Top(f)).value, SettingAt(w, Top(f))))
  {
    EveryFieldMergeable(main, step, f);
    LeafMerge(main, step, m, w, f);
  }

  lemma SectionCorrect(main: StructType, step: StructType, m: Value, w: Value, s: Field, f: Field)
    requires Mergeable(main, step) && HasType(m, main) && HasType(w, step) && IsLeaf(main, step, In(s, f))
    ensures ValueAt(m, In(s, f)).Some?
    ensures ValueAt(Merged(main, step, m, w), In(s, f))
            == Some(Override(ValueAt(m, In(s, f)).value, SettingAt(w, In(s, f))))
  {
    EveryFieldMergeable(main, step, s);
    InsideCompatible(main, step, s, f);
    SettingInSection(w, s, f);
    SectionLeafMerge(main, step, m, w, s, f);
  }

  /** Every value of the merged spec is the step's where the step sets it and the base's elsewhere. */
  lemma MergeCorrect(main: StructType, step: StructType, m: Value, w: Value, p: Path)
    requires Mergeable(main, step) && HasType(m, main) && HasType(w, step) && IsLeaf(main, step, p)
    ensures ValueAt(m, p).Some?
    ensures ValueAt(Merged(main, step, m, w), p) == Some(Override(ValueAt(m, p).value, SettingAt(w, p)))
  {
    if p.Top? {
      TopCorrect(main, step, m, w, p.f);
    } else {
      SectionCorrect(main, step, m, w, p.section, p.f);
    }
  }

  /** A section the merge passes over stays the same. */
  lemma SectionPassedOver(main: StructType, step: StructType, m: Value, w: Value, f: Field)
    requires Mergeable(main, step) && HasType(m, main) && HasType(w, step)
    requires f in main.fields && IsSection(main, step, f) && SectionFor(f).None?
    ensures ValueAt(Merged(main, step, m, w), Top(f)) == ValueAt(m, Top(f))
  {
    EveryFieldMergeable(main, step, f);
    FieldMerge(main, step, f, m.fields[f], w);
  }

  // ---- the same for the three kinds ------------------------------------------------------------

  /** The fields of a spec that are leaves: all but the four sections, `Resources` and `Patch` included. */
  lemma TopLeaves(kind: Kind, f: Field)
    requires kind.SupportsWorkflow()
    ensures IsLeaf(SpecType(kind), StepType(kind), Top(f))
            <==> f in SpecType(kind).fields && !SectionName(f)
  {
    SchemaFields(kind, f);
    if SpecField(kind, f).Some? { TopFieldTypes(kind, f); }
  }

  predicate PassesThrough(base: Type, over: Option<Type>) {
    base.TStruct? && !(over.Some? && over.value.TPtr?)
  }

  predicate SectionName(f: Field) {
    || f == Section(CommonOptions) || f == Section(CommonOpenstackConfig)
    || f == Section(TempestRun) || f == Section(TempestconfRun)
  }

  lemma TopFieldTypes(kind: Kind, f: Field)
    requires kind.SupportsWorkflow() && SpecField(kind, f).Some?
    ensures PassesThrough(SpecField(kind, f).value, StepField(kind, f)) <==> SectionName(f)
  {
    match kind
    case Tempest => TempestSections(f);
    case Tobiko => TobikoSections(f);
    case AnsibleTest => AnsibleTestSections(f);
  }

  lemma TempestSections(f: Field)
    requires TempestSpecField(f).Some?
    ensures PassesThrough(TempestSpecField(f).value, TempestStepField(f)) <==> SectionName(f)
  {
  }

  lemma TobikoSections(f: Field)
    requires TobikoSpecField(f).Some?
    ensures PassesThrough(TobikoSpecField(f).value, TobikoStepField(f)) <==> SectionName(f)
  {
  }

  lemma AnsibleTestSections(f: Field)
    requires AnsibleTestSpecField(f).Some?
    ensures PassesThrough(AnsibleTestSpecField(f).value, AnsibleTestStepField(f)) <==> SectionName(f)
  {
  }

  lemma NoStructInASection(f: Field)
    ensures CommonOptionsField(f).Some? ==> !CommonOptionsField(f).value.TStruct?
    ensures TempestRunSpecField(f).Some? ==> !TempestRunSpecField(f).value.TStruct?
    ensures TempestconfRunSpecField(f).Some? ==> !TempestconfRunSpecField(f).value.TStruct?
  {
  }

  lemma SectionLeaf(main: Type, step: Type, f: Field)
    requires SectionPair(main, step) && f in main.fields
    ensures !IsSection(main, step, f)
  {
    NoStructInASection(f);
  }

  /** And so is every field of the three sections that are merged. */
  lemma SectionLeaves(kind: Kind, s: Field, f: Field)
    requires kind.SupportsWorkflow() && s in SpecType(kind).fields && SectionFor(s).Some?
    ensures SpecType(kind).fields[s].TStruct?
    ensures f in SpecType(kind).fields[s].fields ==> IsLeaf(SpecType(kind), StepType(kind), In(s, f))
  {
    SectionTypes(kind, s);
    if f in SpecType(kind).fields[s].fields {
      SectionLeaf(SpecType(kind).fields[s], StepType(kind).fields[SectionFor(s).value], f);
    }
  }

  /** A section of a Tempest's runs is merged with the step's section of the same name, field by field. */
  lemma RunSectionsMerge(m: Value, w: Value, s: Field, f: Field)
    requires HasType(m, SpecType(Tempest)) && HasType(w, StepType(Tempest))
    requires (s == Section(TempestRun) && TempestRunSpecField(f).Some?)
             || (s == Section(TempestconfRun) && TempestconfRunSpecField(f).Some?)
    ensures ValueAt(m, In(s, f)).Some? && ValueAt(w, In(s, f)).Some?
    ensures ValueAt(Merged(SpecType(Tempest), StepType(Tempest), m, w), In(s, f))
            == Some(Override(ValueAt(m, In(s, f)).value, ValueAt(w, In(s, f))))
  {
    RunSectionTypes(s, f);
    SchemasMatch(Tempest);
    SectionLeaves(Tempest, s, f);
    MergeCorrect(SpecType(Tempest), StepType(Tempest), m, w, In(s, f));
    FieldHasType(w, StepType(Tempest), s);
    FieldHasType(w.fields[s], StepType(Tempest).fields[s], f);
  }

  lemma RunSectionTypes(s: Field, f: Field)
    requires (s == Section(TempestRun) && TempestRunSpecField(f).Some?)
             || (s == Section(TempestconfRun) && TempestconfRunSpecField(f).Some?)
    ensures s in SpecType(Tempest).fields && SpecType(Tempest).fields[s].TStruct?
    ensures f in SpecType(Tempest).fields[s].fields
    ensures s in StepType(Tempest).fields && StepType(Tempest).fields[s].TStruct?
    ensures f in StepType(Tempest).fields[s].fields
  {
    SchemaFields(Tempest, s);
    assert SpecField(Tempest, s).Some? && StepField(Tempest, s).Some?;
    RunSectionFields(f);
  }

  lemma RunSectionFields(f: Field)
    ensures TempestRunSpecField(f).Some? ==> f in TempestRunSpec().fields && f in TempestRunStep().fields
    ensures TempestconfRunSpecField(f).Some? ==> f in TempestconfRunSpec().fields && f in TempestconfRunStep().fields
  {
  }

  /** The common options of all three kinds are merged with those that the step's own section has. */
  lemma CommonOptionsMerge(kind: Kind, m: Value, w: Value, f: Field)
    requires kind.SupportsWorkflow() && HasType(m, SpecType(kind)) && HasType(w, StepType(kind))
    requires CommonOptionsField(f).Some?
    ensures ValueAt(m, In(Section(CommonOptions), f)).Some?
    ensures ValueAt(w, In(Section(WorkflowCommonOptions), f)).Some? <==> f != OptionField(ExtraMounts)
    ensures ValueAt(Merged(SpecType(kind), StepType(kind), m, w), In(Section(CommonOptions), f))
            == Some(Override(ValueAt(m, In(Section(CommonOptions), f)).value,
                             ValueAt(w, In(Section(WorkflowCommonOptions), f))))
  {
    CommonOptionsTypes(kind, f);
    SchemasMatch(kind);
    SectionLeaves(kind, Section(CommonOptions), f);
    MergeCorrect(SpecType(kind), StepType(kind), m, w, In(Section(CommonOptions), f));
    FieldHasType(w, StepType(kind), Section(WorkflowCommonOptions));
    TypedKeys(w.fields[Section(WorkflowCommonOptions)], WorkflowCommonOptionsType());
  }

  lemma CommonOptionsTypes(kind: Kind, f: Field)
    requires kind.SupportsWorkflow() && CommonOptionsField(f).Some?
    ensures Section(CommonOptions) in SpecType(kind).fields
    ensures SpecType(kind).fields[Section(CommonOptions)] == CommonOptionsType()
    ensures Section(WorkflowCommonOptions) in StepType(kind).fields
    ensures StepType(kind).fields[Section(WorkflowCommonOptions)] == WorkflowCommonOptionsType()
    ensures f in CommonOptionsType().fields
    ensures f in WorkflowCommonOptionsType().fields <==> f != OptionField(ExtraMounts)
  {
    NoStepSetsWorkflow(kind);
    SchemaFields(kind, Section(CommonOptions));
    SchemaFields(kind, Section(WorkflowCommonOptions));
    OptionFieldsShared(f);
  }

  lemma OptionFieldsShared(f: Field)
    requires CommonOptionsField(f).Some?
    ensures f in CommonOptionsType().fields
    ensures f in WorkflowCommonOptionsType().fields <==> f != OptionField(ExtraMounts)
  {
    assert WorkflowCommonOptionsField(f).Some? <==> f != OptionField(ExtraMounts);
  }

  /** The fields of a spec, apart from the sections, that its workflow steps cannot override. */
  predicate Fixed(kind: Kind, f: Field) {
    match kind
    case Tempest => f in {Shared(Workflow), Shared(Debug), TempestField(Cleanup)}
    case Tobiko => f in {Shared(Workflow), Shared(Debug), Shared(Parallel)}
    case AnsibleTest => f == Shared(Workflow)
    case HorizonTest => true
  }

  /** Every other field of a spec is the step's where the step sets it; and the step can set exactly those
      that are not fixed. */
  lemma TopFieldsMerge(kind: Kind, m: Value, w: Value, f: Field)
    requires kind.SupportsWorkflow() && HasType(m, SpecType(kind)) && HasType(w, StepType(kind))
    requires SpecField(kind, f).Some? && !SectionName(f)
    ensures ValueAt(m, Top(f)).Some? && (ValueAt(w, Top(f)).Some? <==> !Fixed(kind, f))
    ensures ValueAt(Merged(SpecType(kind), StepType(kind), m, w), Top(f))
            == Some(Override(ValueAt(m, Top(f)).value, ValueAt(w, Top(f))))
  {
    SchemaFields(kind, f);
    SchemasMatch(kind);
    TopLeaves(kind, f);
    MergeCorrect(SpecType(kind), StepType(kind), m, w, Top(f));
    TypedKeys(w, StepType(kind));
    FixedFields(kind, f);
  }

  lemma FixedFields(kind: Kind, f: Field)
    requires kind.SupportsWorkflow() && SpecField(kind, f).Some? && !SectionName(f)
    ensures StepField(kind, f).Some? <==> !Fixed(kind, f)
  {
    match kind
    case Tempest => FixedInTempest(f);
    case Tobiko => FixedInTobiko(f);
    case AnsibleTest => FixedInAnsibleTest(f);
  }

  /** The fields that a step can also set to an empty value, since its setting is a pointer. */
  predicate Clearable(kind: Kind, f: Field) {
    match kind
    case Tempest => true
    case Tobiko => f in {Shared(Resources), TobikoField(PreventCreate), TobikoField(NumProcesses), TobikoField(Patch)}
    case AnsibleTest => f == Shared(Resources)
    case HorizonTest => false
  }

  /** Of the fields that a step can set: a clearable one comes through a pointer, and an AnsibleTest's `debug`
      is the only one that leaves no way not to set it. */
  lemma HowStepsSet(kind: Kind, w: Value, f: Field)
    requires kind.SupportsWorkflow() && HasType(w, StepType(kind))
    requires SpecField(kind, f).Some? && !SectionName(f) && !Fixed(kind, f)
    ensures ValueAt(w, Top(f)).Some?
    ensures ValueAt(w, Top(f)).value.Ptr? <==> Clearable(kind, f)
    ensures ValueAt(w, Top(f)).value.Bool? || ValueAt(w, Top(f)).value.Int?
            <==> kind == AnsibleTest && f == Shared(Debug)
  {
    SchemaFields(kind, f);
    FixedFields(kind, f);
    FieldHasType(w, StepType(kind), f);
    SettingShapes(kind, f);
  }

  lemma SettingShapes(kind: Kind, f: Field)
    requires kind.SupportsWorkflow() && SpecField(kind, f).Some? && !SectionName(f) && StepField(kind, f).Some?
    ensures StepField(kind, f).value.TPtr? <==> Clearable(kind, f)
    ensures StepField(kind, f).value in {TBool, TInt32, TInt64, TUint8} <==> kind == AnsibleTest && f == Shared(Debug)
    ensures !StepField(kind, f).value.TStruct?
  {
    match kind
    case Tempest => TempestShapes(f);
    case Tobiko => TobikoShapes(f);
    case AnsibleTest => AnsibleTestShapes(f);
  }

  lemma TempestShapes(f: Field)
    requires TempestSpecField(f).Some? && !SectionName(f) && TempestStepField(f).Some?
    ensures TempestStepField(f).value.TPtr?
  {
  }

  lemma TobikoShapes(f: Field)
    requires TobikoSpecField(f).Some? && !SectionName(f) && TobikoStepField(f).Some?
    ensures TobikoStepField(f).value.TPtr? <==> Clearable(Tobiko, f)
    ensures TobikoStepField(f).value.TPtr? || TobikoStepField(f).value.TString? || TobikoStepField(f).value.TSlice?
  {
  }

  lemma AnsibleTestShapes(f: Field)
    requires AnsibleTestSpecField(f).Some? && !SectionName(f) && AnsibleTestStepField(f).Some?
    ensures AnsibleTestStepField(f).value.TPtr? <==> Clearable(AnsibleTest, f)
    ensures AnsibleTestStepField(f).value == TBool <==> f == Shared(Debug)
    ensures AnsibleTestStepField(f).value.TPtr? || AnsibleTestStepField(f).value in {TBool, TString}
  {
  }

  lemma FixedInTempest(f: Field)
    requires TempestSpecField(f).Some? && !SectionName(f)
    ensures TempestStepField(f).Some? <==> !Fixed(Tempest, f)
  {
  }

  lemma FixedInTobiko(f: Field)
    requires TobikoSpecField(f).Some? && !SectionName(f)
    ensures TobikoStepField(f).Some? <==> !Fixed(Tobiko, f)
  {
  }

  lemma FixedInAnsibleTest(f: Field)
    requires AnsibleTestSpecField(f).Some? && !SectionName(f)
    ensures AnsibleTestStepField(f).Some? <==> !Fixed(AnsibleTest, f)
  {
  }

  /** No workflow step changes these. */
  predicate OutOfReach(p: Path) {
    || p == Top(Shared(Workflow)) || p == Top(Section(CommonOpenstackConfig))
    || p == In(Section(CommonOptions), OptionField(ExtraMounts))
  }

  lemma NoStepSetsWorkflow(kind: Kind)
    requires kind.SupportsWorkflow()
    ensures SpecField(kind, Shared(Workflow)).Some? && StepField(kind, Shared(Workflow)).None?
    ensures SpecField(kind, Section(CommonOptions)) == Some(CommonOptionsType())
    ensures StepField(kind, Section(WorkflowCommonOptions)) == Some(WorkflowCommonOptionsType())
    ensures SpecField(kind, Section(CommonOpenstackConfig)) == Some(OpenstackConfigType())
    ensures StepField(kind, Section(CommonOpenstackConfig)) == Some(OpenstackConfigType())
  {
  }

  lemma TypedKeys(v: Value, t: StructType)
    requires HasType(v, t)
    ensures v.Struct? && v.fields.Keys == t.fields.Keys
  {
  }

  lemma StepsHaveNoExtraMounts()
    ensures OptionField(ExtraMounts) !in WorkflowCommonOptionsType().fields
  {
    assert WorkflowCommonOptionsField(OptionField(ExtraMounts)) == None;
  }

  lemma NoSettingForExtraMounts(w: Value)
    requires HasType(w, WorkflowCommonOptionsType())
    ensures OptionField(ExtraMounts) !in w.fields
  {
    TypedKeys(w, WorkflowCommonOptionsType());
    StepsHaveNoExtraMounts();
  }

  lemma NoSettingOutOfReach(w: Value, kind: Kind, p: Path)
    requires kind.SupportsWorkflow() && HasType(w, StepType(kind))
    requires p == Top(Shared(Workflow)) || p == In(Section(CommonOptions), OptionField(ExtraMounts))
    ensures SettingAt(w, p) == None
  {
    NoStepSetsWorkflow(kind);
    if p == Top(Shared(Workflow)) {
      SchemaFields(kind, Shared(Workflow));
    } else {
      SchemaFields(kind, Section(WorkflowCommonOptions));
      NoSettingForExtraMounts(w.fields[Section(WorkflowCommonOptions)]);
    }
  }

  lemma ExtraMountsIsALeaf(kind: Kind)
    requires kind.SupportsWorkflow()
    ensures IsLeaf(SpecType(kind), StepType(kind), In(Section(CommonOptions), OptionField(ExtraMounts)))
  {
    NoStepSetsWorkflow(kind);
    SchemaFields(kind, Section(CommonOptions));
    assert CommonOptionsField(OptionField(ExtraMounts)).Some?;
    SectionLeaves(kind, Section(CommonOptions), OptionField(ExtraMounts));
  }

  lemma LeafOutOfReach(kind: Kind, p: Path)
    requires kind.SupportsWorkflow()
    requires (p == Top(Shared(Workflow)) || p == In(Section(CommonOptions), OptionField(ExtraMounts)))
    ensures IsLeaf(SpecType(kind), StepType(kind), p)
  {
    NoStepSetsWorkflow(kind);
    if p == Top(Shared(Workflow)) {
      SchemaFields(kind, Shared(Workflow));
      TopLeaves(kind, Shared(Workflow));
    } else {
      ExtraMountsIsALeaf(kind);
    }
  }

  lemma UnsetStays(main: StructType, step: StructType, m: Value, w: Value, p: Path)
    requires Mergeable(main, step) && HasType(m, main) && HasType(w, step) && IsLeaf(main, step, p)
    requires SettingAt(w, p) == None
    ensures ValueAt(Merged(main, step, m, w), p) == ValueAt(m, p)
  {
    MergeCorrect(main, step, m, w, p);
  }

  lemma OpenstackConfigIsPassedOver(kind: Kind)
    requires kind.SupportsWorkflow()
    ensures Section(CommonOpenstackConfig) in SpecType(kind).fields
    ensures IsSection(SpecType(kind), StepType(kind), Section(CommonOpenstackConfig))
  {
    NoStepSetsWorkflow(kind);
    SchemaFields(kind, Section(CommonOpenstackConfig));
  }

  /** The workflow, the OpenStack configuration and the extra mounts come through every merge. */
  lemma MergeSpares(kind: Kind, m: Value, w: Value, p: Path)
    requires kind.SupportsWorkflow() && OutOfReach(p)
    requires HasType(m, SpecType(kind)) && HasType(w, StepType(kind))
    ensures ValueAt(Merged(SpecType(kind), StepType(kind), m, w), p) == ValueAt(m, p)
  {
    SchemasMatch(kind);
    if p == Top(Section(CommonOpenstackConfig)) {
      OpenstackConfigIsPassedOver(kind);
      SectionPassedOver(SpecType(kind), StepType(kind), m, w, Section(CommonOpenstackConfig));
    } else {
      UnsetStaysOut(kind, m, w, p);
    }
  }

  lemma UnsetStaysOut(kind: Kind, m: Value, w: Value, p: Path)
    requires kind.SupportsWorkflow() && HasType(m, SpecType(kind)) && HasType(w, StepType(kind))
    requires p == Top(Shared(Workflow)) || p == In(Section(CommonOptions), OptionField(ExtraMounts))
    ensures ValueAt(Merged(SpecType(kind), StepType(kind), m, w), p) == ValueAt(m, p)
  {
    SchemasMatch(kind);
    NoSettingOutOfReach(w, kind, p);
    LeafOutOfReach(kind, p);
    UnsetStays(SpecType(kind), StepType(kind), m, w, p);
  }

  lemma DebugIsPlain()
    ensures AnsibleTestSpecField(Shared(Debug)) == Some(TBool) && AnsibleTestStepField(Shared(Debug)) == Some(TBool)
  {
  }

  lemma DebugIsSet(w: Value)
    requires HasType(w, StepType(AnsibleTest))
    ensures ValueAt(w, Top(Shared(Debug))).Some? && ValueAt(w, Top(Shared(Debug))).value.Bool?
    ensures Shared(Debug) in SpecType(AnsibleTest).fields
  {
    DebugIsPlain();
    SchemaFields(AnsibleTest, Shared(Debug));
    FieldHasType(w, StepType(AnsibleTest), Shared(Debug));
  }

  /** An AnsibleTest step always decides `debug`: it is a plain bool there, so leaving it out of the
      step turns the spec's `debug: true` off. */
  lemma DebugIsAlwaysOverridden(m: Value, w: Value)
    requires HasType(m, SpecType(AnsibleTest)) && HasType(w, StepType(AnsibleTest))
    ensures ValueAt(w, Top(Shared(Debug))).Some?
    ensures ValueAt(Merged(SpecType(AnsibleTest), StepType(AnsibleTest), m, w), Top(Shared(Debug)))
            == ValueAt(w, Top(Shared(Debug)))
  {
    DebugIsSet(w);
    SchemasMatch(AnsibleTest);
    TopLeaves(AnsibleTest, Shared(Debug));
    MergeCorrect(SpecType(AnsibleTest), StepType(AnsibleTest), m, w, Top(Shared(Debug)));
  }

  function ParallelPointer(setting: Option<bool>): Value {
    Ptr(if setting.Some? then Some(Bool(setting.value)) else None)
  }

  /** Of a spec and step as values: what the protocol reads there. */
  ghost predicate ReadsAs(kind: Kind, m: Value, w: Value, spec: Spec, step: nat)
    requires kind.HasParallel() && kind.SupportsWorkflow() && step < |spec.workflow|
  {
    && ValueAt(m, Top(Shared(Parallel))) == Some(Bool(spec.parallel))
    && (kind.StepHasParallel() ==>
          ValueAt(w, Top(Shared(Parallel)))
          == Some(ParallelPointer(spec.workflow[step].parallel)))
  }

  lemma ParallelIsALeaf(kind: Kind)
    requires kind.HasParallel() && kind.SupportsWorkflow()
    ensures IsLeaf(SpecType(kind), StepType(kind), Top(Shared(Parallel)))
    ensures !kind.StepHasParallel() ==> Shared(Parallel) !in StepType(kind).fields
  {
    assert SpecField(kind, Shared(Parallel)) == Some(TBool);
    SchemaFields(kind, Shared(Parallel));
    TopLeaves(kind, Shared(Parallel));
  }

  /** The `parallel` that is read after the merge is the effective one the lock protocol uses. */
  lemma MergedParallel(kind: Kind, m: Value, w: Value, spec: Spec, step: nat)
    requires kind.HasParallel() && kind.SupportsWorkflow() && step < |spec.workflow|
    requires HasType(m, SpecType(kind)) && HasType(w, StepType(kind)) && ReadsAs(kind, m, w, spec, step)
    ensures ValueAt(Merged(SpecType(kind), StepType(kind), m, w), Top(Shared(Parallel)))
            == Some(Bool(EffectiveParallel(kind, spec, step)))
  {
    ParallelIsALeaf(kind);
    SchemasMatch(kind);
    MergeCorrect(SpecType(kind), StepType(kind), m, w, Top(Shared(Parallel)));
    OverrideIsEffective(kind, w, spec, step);
  }

  lemma OverrideIsEffective(kind: Kind, w: Value, spec: Spec, step: nat)
    requires kind.HasParallel() && kind.SupportsWorkflow() && step < |spec.workflow|
    requires kind.StepHasParallel() ==>
               ValueAt(w, Top(Shared(Parallel)))
               == Some(ParallelPointer(spec.workflow[step].parallel))
    requires !kind.StepHasParallel() ==> ValueAt(w, Top(Shared(Parallel))) == None
    ensures Override(Bool(spec.parallel), SettingAt(w, Top(Shared(Parallel))))
            == Bool(EffectiveParallel(kind, spec, step))
  {
  }

  // ---- the step a reconcile merges is one of the spec's own workflow ----------------------------

  function WithWorkflow(m: Value, items: seq<string>): Value
    requires m.Struct?
  {
    Struct(m.fields[Shared(Workflow) := Slice(Some(items))])
  }

  /** The items of the spec's workflow; `read` gives the step an item stands for. */
  function WorkflowItems(m: Value): seq<string> {
    match ValueAt(m, Top(Shared(Workflow)))
    case Some(Slice(Some(items))) => items
    case _ => []
  }

  /** The spec that step `i` runs with: its own workflow's item `i` merged into it. */
  function EffectiveSpec(main: StructType, own: StructType, m: Value, i: nat, read: string -> Value): Value
    requires m.Struct? && i < |WorkflowItems(m)| && read(WorkflowItems(m)[i]).Struct?
  {
    Merged(main, own, m, read(WorkflowItems(m)[i]))
  }

  lemma WorkflowIsUntouched(kind: Kind)
    requires kind.SupportsWorkflow()
    ensures Shared(Workflow) in SpecType(kind).fields && SpecType(kind).fields[Shared(Workflow)].TSlice?
    ensures Shared(Workflow) !in StepType(kind).fields && SectionFor(Shared(Workflow)).None?
  {
    NoStepSetsWorkflow(kind);
    assert SpecField(kind, Shared(Workflow)).value.TSlice?;
    SchemaFields(kind, Shared(Workflow));
  }

  lemma WithWorkflowTyped(kind: Kind, m: Value, items: seq<string>)
    requires kind.SupportsWorkflow() && HasType(m, SpecType(kind))
    ensures HasType(WithWorkflow(m, items), SpecType(kind)) && WorkflowItems(WithWorkflow(m, items)) == items
  {
    WorkflowIsUntouched(kind);
    OneFieldTyped(SpecType(kind), m, Shared(Workflow), Slice(Some(items)));
  }

  lemma OneFieldTyped(main: StructType, m: Value, f: Field, v: Value)
    requires HasType(m, main) && f in main.fields && HasType(v, main.fields[f])
    ensures HasType(Struct(m.fields[f := v]), main)
  {
  }

  lemma OtherItemsDoNotMatter(main: StructType, own: StructType, m: Value, w: Value, items: seq<string>,
                              others: seq<string>)
    requires Shared(Workflow) in main.fields && Compatible(main, own, Shared(Workflow))
    requires main.fields[Shared(Workflow)].TSlice? && Shared(Workflow) !in own.fields
    requires m.Struct? && HasType(WithWorkflow(m, items), main) && HasType(w, own)
    ensures Merged(main, own, WithWorkflow(m, others), w)
            == WithWorkflow(Merged(main, own, WithWorkflow(m, items), w), others)
  {
    OtherStepsDoNotMatter(main, own, WithWorkflow(m, items), w, Shared(Workflow), Slice(Some(others)));
    assert WithWorkflow(m, items).fields[Shared(Workflow) := Slice(Some(others))] == WithWorkflow(m, others).fields;
  }

  lemma OtherItemsKeepTheSpec(main: StructType, own: StructType, m: Value, items: seq<string>, others: seq<string>,
                              i: nat, read: string -> Value)
    requires Shared(Workflow) in main.fields && Compatible(main, own, Shared(Workflow))
    requires main.fields[Shared(Workflow)].TSlice? && Shared(Workflow) !in own.fields
    requires m.Struct? && HasType(WithWorkflow(m, items), main)
    requires i < |items| && i < |others| && items[i] == others[i] && HasType(read(items[i]), own)
    ensures WorkflowItems(WithWorkflow(m, items)) == items && WorkflowItems(WithWorkflow(m, others)) == others
    ensures EffectiveSpec(main, own, WithWorkflow(m, others), i, read)
            == WithWorkflow(EffectiveSpec(main, own, WithWorkflow(m, items), i, read), others)
  {
    OtherItemsDoNotMatter(main, own, m, read(items[i]), items, others);
  }

  /** Two specs that differ only in the other steps of their workflows give step `i` the same effective
      spec, but for the workflow itself. */
  lemma EffectiveSpecIgnoresOtherSteps(kind: Kind, m: Value, items: seq<string>, others: seq<string>, i: nat,
                                       read: string -> Value)
    requires kind.SupportsWorkflow() && HasType(m, SpecType(kind))
    requires i < |items| && i < |others| && items[i] == others[i] && HasType(read(items[i]), StepType(kind))
    ensures WorkflowItems(WithWorkflow(m, items)) == items && WorkflowItems(WithWorkflow(m, others)) == others
    ensures EffectiveSpec(SpecType(kind), StepType(kind), WithWorkflow(m, others), i, read)
            == WithWorkflow(EffectiveSpec(SpecType(kind), StepType(kind), WithWorkflow(m, items), i, read), others)
  {
    WithWorkflowTyped(kind, m, items);
    WorkflowIsUntouched(kind);
    SchemaFits(kind, Shared(Workflow));
    OtherItemsKeepTheSpec(SpecType(kind), StepType(kind), m, items, others, i, read);
  }
}
