/** Merging several steps, on any pair of struct types that fit. */
module MergeAlgebra {
  import opened MergeSchemas
  import opened Merge

  /** The step that says what `t` says, and what `s` says where `t` says nothing. */
  function Overlay(s: Value, t: Value): Value
    requires s.Struct? && t.Struct?
    decreases s, 0
  {
    Struct(map f | f in s.fields :: if f in t.fields then OverlayField(s.fields[f], t.fields[f]) else s.fields[f])
  }

  function OverlayField(s: Value, t: Value): Value
    decreases s, 1
  {
    if s.Struct? && t.Struct? then Overlay(s, t) else if IsEmpty(t) then s else t
  }

  lemma {:induction false} OverlayKeepsType(s: Value, t: Value, step: StructType)
    requires HasType(s, step) && HasType(t, step)
    ensures HasType(Overlay(s, t), step)
    decreases s, 0
  {
    forall f | f in step.fields
      ensures HasType(OverlayField(s.fields[f], t.fields[f]), step.fields[f])
    {
      OverlayFieldKeepsType(s.fields[f], t.fields[f], step.fields[f]);
    }
  }

  lemma {:induction false} OverlayFieldKeepsType(s: Value, t: Value, shape: Type)
    requires HasType(s, shape) && HasType(t, shape)
    ensures HasType(OverlayField(s, t), shape)
    decreases s, 1
  {
    if s.Struct? && t.Struct? { OverlayKeepsType(s, t, shape); }
  }

  lemma {:induction false} OverlaySelf(s: Value)
    requires s.Struct?
    ensures Overlay(s, s) == s
    decreases s
  {
    forall f | f in s.fields
      ensures OverlayField(s.fields[f], s.fields[f]) == s.fields[f]
    {
      if s.fields[f].Struct? { OverlaySelf(s.fields[f]); }
    }
    assert Overlay(s, s).fields == s.fields;
  }

  lemma {:induction false} MergeKeepsType(main: StructType, step: StructType, m: Value, w: Value)
    requires Mergeable(main, step) && HasType(m, main) && HasType(w, step)
    ensures HasType(Merged(main, step, m, w), main)
    decreases m, 0
  {
    forall f | f in main.fields
      ensures HasType(MergedField(main, step, f, m.fields[f], w), main.fields[f])
    {
      EveryFieldMergeable(main, step, f);
      FieldKeepsType(main, step, f, m.fields[f], w);
    }
  }

  lemma {:induction false} FieldKeepsType(main: StructType, step: StructType, f: Field, base: Value, w: Value)
    requires f in main.fields && FieldMergeable(main, step, f)
    requires HasType(base, main.fields[f]) && HasType(w, step)
    ensures HasType(MergedField(main, step, f, base, w), main.fields[f])
    decreases base, 1
  {
    if IsSection(main, step, f) && SectionFor(f).Some? {
      SectionMerge(main, step, f, base, w);
      MergeKeepsType(main.fields[f], step.fields[SectionFor(f).value], base, w.fields[SectionFor(f).value]);
    } else {
      FieldMerge(main, step, f, base, w);
    }
  }

  /** Merging `s` and then `t` is merging the one step that lays `t` over `s`. */
  lemma {:induction false} MergeComposes(main: StructType, step: StructType, m: Value, s: Value, t: Value)
    requires Mergeable(main, step) && HasType(m, main) && HasType(s, step) && HasType(t, step)
    ensures Merged(main, step, Merged(main, step, m, s), t) == Merged(main, step, m, Overlay(s, t))
    decreases m, 0
  {
    forall f | f in main.fields
      ensures MergedField(main, step, f, MergedField(main, step, f, m.fields[f], s), t)
              == MergedField(main, step, f, m.fields[f], Overlay(s, t))
    {
      EveryFieldMergeable(main, step, f);
      FieldComposes(main, step, f, m.fields[f], s, t);
    }
    assert Merged(main, step, Merged(main, step, m, s), t).fields == Merged(main, step, m, Overlay(s, t)).fields;
  }

  lemma {:induction false} FieldComposes(main: StructType, step: StructType, f: Field, base: Value, s: Value, t: Value)
    requires f in main.fields && FieldMergeable(main, step, f)
    requires HasType(base, main.fields[f]) && HasType(s, step) && HasType(t, step)
    ensures MergedField(main, step, f, MergedField(main, step, f, base, s), t)
            == MergedField(main, step, f, base, Overlay(s, t))
    decreases base, 2
  {
    if IsSection(main, step, f) && SectionFor(f).Some? {
      SectionComposes(main, step, f, base, s, t);
    } else {
      PlainFieldComposes(main, step, f, base, s, t);
    }
  }

  lemma PlainFieldComposes(main: StructType, step: StructType, f: Field, base: Value, s: Value, t: Value)
    requires f in main.fields && Compatible(main, step, f)
    requires !IsSection(main, step, f) || SectionFor(f).None?
    requires HasType(base, main.fields[f]) && HasType(s, step) && HasType(t, step)
    ensures MergedField(main, step, f, MergedField(main, step, f, base, s), t)
            == MergedField(main, step, f, base, Overlay(s, t))
  {
    OverlayKeepsType(s, t, step);
    FieldMerge(main, step, f, base, s);
    FieldMerge(main, step, f, MergedField(main, step, f, base, s), t);
    FieldMerge(main, step, f, base, Overlay(s, t));
    if f in step.fields && !IsSection(main, step, f) {
      LeafSettingsAreNoStructs(s.fields[f], main.fields[f], step.fields[f]);
    }
  }

  /** A value assigned to a field of the spec is no struct by value. */
  lemma LeafSettingsAreNoStructs(v: Value, base: Type, step: Type)
    requires HasType(v, step) && AssignedType(base, step) == base && (base.TStruct? ==> step.TPtr?)
    ensures !v.Struct?
  {
  }

  lemma {:induction false} SectionComposes(main: StructType, step: StructType, f: Field,
                                            base: Value, s: Value, t: Value)
    requires f in main.fields && FieldMergeable(main, step, f)
    requires IsSection(main, step, f) && SectionFor(f).Some?
    requires HasType(base, main.fields[f]) && HasType(s, step) && HasType(t, step)
    ensures MergedField(main, step, f, MergedField(main, step, f, base, s), t)
            == MergedField(main, step, f, base, Overlay(s, t))
    decreases base, 1
  {
    var section := SectionFor(f).value;
    FieldKeepsType(main, step, f, base, s);
    OverlayKeepsType(s, t, step);
    SectionMerge(main, step, f, base, s);
    SectionMerge(main, step, f, MergedField(main, step, f, base, s), t);
    SectionMerge(main, step, f, base, Overlay(s, t));
    SectionOverlay(s, t, step, section);
    MergeComposes(main.fields[f], step.fields[section], base, s.fields[section], t.fields[section]);
  }

  lemma SectionOverlay(s: Value, t: Value, step: StructType, section: Field)
    requires HasType(s, step) && HasType(t, step) && section in step.fields && step.fields[section].TStruct?
    ensures s.fields[section].Struct? && t.fields[section].Struct?
    ensures Overlay(s, t).fields[section] == Overlay(s.fields[section], t.fields[section])
  {
    assert HasType(s.fields[section], step.fields[section]) && HasType(t.fields[section], step.fields[section]);
  }

  /** Merging the same step twice changes nothing more. */
  lemma MergeIsIdempotent(main: StructType, step: StructType, m: Value, w: Value)
    requires Mergeable(main, step) && HasType(m, main) && HasType(w, step)
    ensures Merged(main, step, Merged(main, step, m, w), w) == Merged(main, step, m, w)
  {
    MergeComposes(main, step, m, w, w);
    OverlaySelf(w);
  }

  /** A field the merge does not touch may hold anything: the effective spec of one step does not
      depend on the other steps in `Workflow`. */
  lemma OtherStepsDoNotMatter(main: StructType, step: StructType, m: Value, w: Value, f: Field, other: Value)
    requires f in main.fields && Compatible(main, step, f) && HasType(m, main) && HasType(w, step)
    requires f !in step.fields && SectionFor(f).None? && HasType(other, main.fields[f])
    ensures Merged(main, step, Struct(m.fields[f := other]), w)
            == Struct(Merged(main, step, m, w).fields[f := other])
  {
    FieldMerge(main, step, f, other, w);
    SameButOne(main, step, m.fields, w, f, other);
  }

  lemma SameButOne(main: StructType, step: StructType, fields: map<Field, Value>, w: Value, f: Field, other: Value)
    requires f in main.fields && f in fields && w.Struct?
    requires MergedField(main, step, f, other, w) == other
    ensures Merged(main, step, Struct(fields[f := other]), w)
            == Struct(Merged(main, step, Struct(fields), w).fields[f := other])
  {
    assert Merged(main, step, Struct(fields[f := other]), w).fields
        == Merged(main, step, Struct(fields), w).fields[f := other];
  }
}
