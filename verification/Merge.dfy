/**
 MergeSections: a workflow step overrides the spec of its custom resource, field by field, on typed
 dynamic values in the way Go's reflection sees them.
 */
module Merge {
  import opened Types
  import opened MergeSchemas

  /** A Go value. A nil pointer, slice or map is None. Slice elements and map entries stay opaque. */
  datatype Value =
    | Str(s: string)
    | Bool(b: bool)
    | Int(n: int)
    | Map(entries: Option<map<string, string>>)
    | Slice(items: Option<seq<string>>)
    | Ptr(target: Option<Value>)
    | Struct(fields: map<Field, Value>)

  ghost predicate HasType(v: Value, t: Type)
    decreases v
  {
    match t
    case TString => v.Str?
    case TBool => v.Bool?
    case TInt32 => v.Int? && -0x8000_0000 <= v.n < 0x8000_0000
    case TInt64 => v.Int? && -0x8000_0000_0000_0000 <= v.n < 0x8000_0000_0000_0000
    case TUint8 => v.Int? && 0 <= v.n < 0x100
    case TMap => v.Map?
    case TSlice(_) => v.Slice?
    case TPtr(to) => v.Ptr? && (v.target.Some? ==> HasType(v.target.value, to))
    case TStruct(types, _) =>
      v.Struct? && v.fields.Keys == types.Keys && forall f | f in types :: HasType(v.fields[f], types[f])
  }

  lemma FieldHasType(v: Value, t: StructType, f: Field)
    requires HasType(v, t) && f in t.fields
    ensures v.Struct? && f in v.fields && HasType(v.fields[f], t.fields[f])
  {
  }

  // ---- reflection ------------------------------------------------------------------------------

  /** reflect.Value.FieldByName: the struct's own field, or one promoted from an embedded struct. */
  function FieldByName(t: StructType, v: Value, f: Field): Option<(Type, Value)>
    requires v.Struct?
  {
    if f in v.fields && f in t.fields then Some((t.fields[f], v.fields[f]))
    else Promoted(t, v, t.embedded, f)
  }

  function Promoted(t: StructType, v: Value, embedded: seq<Field>, f: Field): Option<(Type, Value)>
    requires v.Struct?
  {
    if embedded == [] then None
    else
      var e := embedded[0];
      if Promotes(t, e, f) && e in v.fields && v.fields[e].Struct? && f in v.fields[e].fields
      then Some((t.fields[e].fields[f], v.fields[e].fields[f]))
      else Promoted(t, v, embedded[1..], f)
  }

  /** The embedded struct `e` of `t` has a field `f`. */
  predicate Promotes(t: StructType, e: Field, f: Field) {
    e in t.fields && t.fields[e].TStruct? && f in t.fields[e].fields
  }

  predicate NotPromoted(t: StructType, f: Field) {
    forall e | e in t.embedded :: !Promotes(t, e, f)
  }

  lemma {:induction false} NothingPromoted(t: StructType, v: Value, embedded: seq<Field>, f: Field)
    requires v.Struct?
    requires forall e | e in embedded :: !Promotes(t, e, f)
    ensures Promoted(t, v, embedded, f).None?
  {
    if embedded != [] {
      assert embedded[0] in embedded;
      NothingPromoted(t, v, embedded[1..], f);
    }
  }

  predicate IsEmpty(v: Value) {
    match v
    case Str(s) => |s| == 0
    case Map(entries) => entries.None? || |entries.value| == 0
    case Ptr(target) => target.None?
    case Slice(items) => items.None?
    case Bool(_) | Int(_) | Struct(_) => false
  }

  /** The value that is assigned: a pointer is followed unless the field itself is a pointer. */
  function Assigned(base: Type, step: Type, v: Value): Value {
    if step.TPtr? && !base.TPtr? && v.Ptr? && v.target.Some? then v.target.value else v
  }

  function AssignedType(base: Type, step: Type): Type {
    if step.TPtr? && !base.TPtr? then step.to else step
  }

  /** The step's section that a struct section of the spec is merged with. */
  function SectionFor(f: Field): Option<Field> {
    match f
    case Section(CommonOptions) => Some(Section(WorkflowCommonOptions))
    case Section(TempestRun) => Some(Section(TempestRun))
    case Section(TempestconfRun) => Some(Section(TempestconfRun))
    case _ => None
  }

  // ---- the merge -------------------------------------------------------------------------------

  /** The merged value of one field. */
  function MergedField(main: StructType, step: StructType, f: Field, base: Value, w: Value): Value
    requires f in main.fields && w.Struct?
    decreases base, 1
  {
    var baseType := main.fields[f];
    var over := FieldByName(step, w, f);
    if baseType.TStruct? && !(over.Some? && over.value.0.TPtr?) then
      if SectionFor(f).None? then base
      else
        var section := FieldByName(step, w, SectionFor(f).value);
        if section.Some? && section.value.0.TStruct? && section.value.1.Struct? && base.Struct?
        then Merged(baseType, section.value.0, base, section.value.1)
        else base
    else if over.Some? && !IsEmpty(over.value.1) then Assigned(baseType, over.value.0, over.value.1)
    else base
  }

  function Merged(main: StructType, step: StructType, m: Value, w: Value): Value
    requires m.Struct? && w.Struct?
    decreases m, 0
  {
    Struct(map f | f in m.fields ::
             if f in main.fields then MergedField(main, step, f, m.fields[f], w) else m.fields[f])
  }

  // ---- what the types promise ------------------------------------------------------------------

  predicate HasPointer(step: StructType, f: Field) {
    f in step.fields && step.fields[f].TPtr?
  }

  /** The field is a struct that the merge descends into or passes over, not one it replaces. */
  predicate IsSection(main: StructType, step: StructType, f: Field)
    requires f in main.fields
  {
    main.fields[f].TStruct? && !HasPointer(step, f)
  }

  /** The types agree on one field: a section pairs up with a section, an assignment keeps the
      field's type, and the field is never mistaken for one promoted from an embedded struct. */
  predicate Compatible(main: StructType, step: StructType, f: Field)
    requires f in main.fields
  {
    && NotPromoted(step, f)
    && (if IsSection(main, step, f) then
          SectionFor(f).Some? ==>
            SectionFor(f).value in step.fields && step.fields[SectionFor(f).value].TStruct?
        else
          f in step.fields ==>
            AssignedType(main.fields[f], step.fields[f]) == main.fields[f])
  }

  ghost predicate Mergeable(main: StructType, step: StructType)
    decreases main
  {
    && (forall f | f in main.fields :: Compatible(main, step, f))
    && (forall f | f in main.fields && IsSection(main, step, f) && SectionFor(f).Some? && Compatible(main, step, f) ::
          Mergeable(main.fields[f], step.fields[SectionFor(f).value]))
  }

  /** What Mergeable says about one field. */
  ghost predicate FieldMergeable(main: StructType, step: StructType, f: Field)
    requires f in main.fields
  {
    && Compatible(main, step, f)
    && (IsSection(main, step, f) && SectionFor(f).Some? ==>
          Mergeable(main.fields[f], step.fields[SectionFor(f).value]))
  }

  lemma EveryFieldMergeable(main: StructType, step: StructType, f: Field)
    requires Mergeable(main, step) && f in main.fields
    ensures FieldMergeable(main, step, f)
  {
  }

  /** On a typed step the reflective lookup is the plain one. */
  lemma LookupIsDirect(main: StructType, step: StructType, w: Value, f: Field)
    requires f in main.fields && Compatible(main, step, f) && HasType(w, step)
    ensures FieldByName(step, w, f)
            == if f in step.fields then Some((step.fields[f], w.fields[f])) else None
  {
    if f !in step.fields {
      NothingPromoted(step, w, step.embedded, f);
    }
  }

  /** What becomes of a section of the spec. */
  lemma SectionMerge(main: StructType, step: StructType, f: Field, base: Value, w: Value)
    requires f in main.fields && Compatible(main, step, f) && IsSection(main, step, f) && SectionFor(f).Some?
    requires HasType(base, main.fields[f]) && HasType(w, step)
    ensures SectionFor(f).value in step.fields
    ensures step.fields[SectionFor(f).value].TStruct?
    ensures HasType(w.fields[SectionFor(f).value], step.fields[SectionFor(f).value])
    ensures MergedField(main, step, f, base, w)
            == Merged(main.fields[f], step.fields[SectionFor(f).value],
                      base, w.fields[SectionFor(f).value])
  {
    LookupIsDirect(main, step, w, f);
  }

  /** What becomes of any other field. */
  lemma FieldMerge(main: StructType, step: StructType, f: Field, base: Value, w: Value)
    requires f in main.fields && Compatible(main, step, f)
    requires !IsSection(main, step, f) || SectionFor(f).None?
    requires HasType(base, main.fields[f]) && HasType(w, step)
    ensures MergedField(main, step, f, base, w)
            == if IsSection(main, step, f) || f !in step.fields || IsEmpty(w.fields[f]) then base
               else Assigned(main.fields[f], step.fields[f], w.fields[f])
    ensures HasType(MergedField(main, step, f, base, w), main.fields[f])
  {
    LookupIsDirect(main, step, w, f);
  }

  // ---- the method ------------------------------------------------------------------------------

  /** A struct variable. A section of a struct is merged through a variable for that section. */
  class StructVar {
    var fields: map<Field, Value>

    constructor (fields: map<Field, Value>)
      ensures this.fields == fields
    {
      this.fields := fields;
    }
  }

  ghost predicate AllTyped(main: StructType, fields: map<Field, Value>) {
    forall f | f in fields :: f in main.fields && HasType(fields[f], main.fields[f])
  }

  /** The fields outside `rest` are merged and the others are as they were. */
  ghost predicate MergedExcept(main: StructType, step: StructType, was: map<Field, Value>, w: Value,
                               rest: set<Field>, fields: map<Field, Value>)
    requires AllTyped(main, was) && w.Struct?
  {
    && fields.Keys == was.Keys
    && forall f | f in was ::
         fields[f] == if f in rest then was[f] else MergedField(main, step, f, was[f], w)
  }

  lemma OneMoreMerged(main: StructType, step: StructType, was: map<Field, Value>, w: Value,
                      rest: set<Field>, before: map<Field, Value>, f: Field)
    requires AllTyped(main, was) && w.Struct? && f in rest && f in was
    requires MergedExcept(main, step, was, w, rest, before)
    ensures MergedExcept(main, step, was, w, rest - {f}, before[f := MergedField(main, step, f, was[f], w)])
  {
  }

  lemma AllMerged(main: StructType, step: StructType, was: map<Field, Value>, w: Value, fields: map<Field, Value>)
    requires AllTyped(main, was) && w.Struct?
    requires MergedExcept(main, step, was, w, {}, fields)
    ensures Struct(fields) == Merged(main, step, Struct(was), w)
  {
    assert fields == Merged(main, step, Struct(was), w).fields;
  }

  lemma TypedField(main: StructType, fields: map<Field, Value>, f: Field)
    requires AllTyped(main, fields) && f in fields
    ensures f in main.fields && HasType(fields[f], main.fields[f])
  {
  }

  lemma StillTyped(main: StructType, fields: map<Field, Value>, f: Field, v: Value)
    requires AllTyped(main, fields) && f in fields && f in main.fields && HasType(v, main.fields[f])
    ensures AllTyped(main, fields[f := v])
  {
  }

  lemma StructTyped(main: StructType, fields: map<Field, Value>)
    ensures HasType(Struct(fields), main) <==> AllTyped(main, fields) && fields.Keys == main.fields.Keys
  {
  }

  /** The loop over the fields of `m`, setting each in place, in whatever order they come. No field
      lookup fails and no value is assigned to a field of another type: `Set` would panic. */
  method MergeSections(main: StructType, step: StructType, m: StructVar, w: Value)
    requires Mergeable(main, step)
    requires HasType(Struct(m.fields), main) && HasType(w, step)
    modifies m
    ensures Struct(m.fields) == Merged(main, step, Struct(old(m.fields)), w)
    ensures HasType(Struct(m.fields), main)
    decreases main, 1
  {
    ghost var was := m.fields;
    StructTyped(main, was);
    var rest := m.fields.Keys;
    while rest != {}
      invariant rest <= was.Keys
      invariant MergedExcept(main, step, was, w, rest, m.fields)
      invariant AllTyped(main, m.fields)
      decreases |rest|
    {
      var f :| f in rest;
      EveryFieldMergeable(main, step, f);
      TypedField(main, m.fields, f);
      OneMoreMerged(main, step, was, w, rest, m.fields, f);
      ghost var before := m.fields;
      MergeField(main, step, m, w, f);
      StillTyped(main, before, f, m.fields[f]);
      assert m.fields == before[f := m.fields[f]];
      rest := rest - {f};
    }
    AllMerged(main, step, was, w, m.fields);
    StructTyped(main, m.fields);
  }

  /** One round of that loop. */
  method MergeField(main: StructType, step: StructType, m: StructVar, w: Value, f: Field)
    requires f in main.fields && f in m.fields && FieldMergeable(main, step, f)
    requires HasType(m.fields[f], main.fields[f]) && HasType(w, step)
    modifies m
    ensures m.fields == old(m.fields)[f := MergedField(main, step, f, old(m.fields[f]), w)]
    ensures HasType(m.fields[f], main.fields[f])
    decreases main, 0
  {
    LookupIsDirect(main, step, w, f);
    var wField := FieldByName(step, w, f);
    if main.fields[f].TStruct? && !(wField.Some? && wField.value.0.TPtr?) {
      if SectionFor(f).Some? {
        MergeSection(main, step, m, w, f);
      } else {
        FieldMerge(main, step, f, m.fields[f], w);
        assert m.fields == m.fields[f := m.fields[f]];
      }
    } else {
      SetField(main, step, m, w, f, wField);
    }
  }

  /** The field is set to the step's value unless that is empty. */
  method SetField(main: StructType, step: StructType, m: StructVar, w: Value, f: Field, wField: Option<(Type, Value)>)
    requires f in main.fields && f in m.fields && Compatible(main, step, f) && !IsSection(main, step, f)
    requires HasType(m.fields[f], main.fields[f]) && HasType(w, step)
    requires wField == if f in step.fields then Some((step.fields[f], w.fields[f])) else None
    modifies m
    ensures m.fields == old(m.fields)[f := MergedField(main, step, f, old(m.fields[f]), w)]
    ensures HasType(m.fields[f], main.fields[f])
  {
    FieldMerge(main, step, f, m.fields[f], w);
    if wField.Some? && !IsEmpty(wField.value.1) {
      var value := wField.value.1;
      if wField.value.0.TPtr? && !main.fields[f].TPtr? {
        value := value.target.value;
      }
      assert HasType(value, main.fields[f]);
      m.fields := m.fields[f := value];
    } else {
      assert m.fields == m.fields[f := m.fields[f]];
    }
  }

  /** A section is merged through its own address. */
  method MergeSection(main: StructType, step: StructType, m: StructVar, w: Value, f: Field)
    requires f in main.fields && f in m.fields && FieldMergeable(main, step, f)
    requires IsSection(main, step, f) && SectionFor(f).Some?
    requires HasType(m.fields[f], main.fields[f]) && HasType(w, step)
    modifies m
    ensures m.fields == old(m.fields)[f := MergedField(main, step, f, old(m.fields[f]), w)]
    ensures HasType(m.fields[f], main.fields[f])
    decreases main.fields[f], 2
  {
    ghost var base := m.fields[f];
    SectionMerge(main, step, f, base, w);
    var section := new StructVar(m.fields[f].fields);
    MergeSections(main.fields[f], step.fields[SectionFor(f).value], section, w.fields[SectionFor(f).value]);
    m.fields := m.fields[f := Struct(section.fields)];
  }
}
