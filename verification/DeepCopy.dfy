/**
 The generated deep copies, on the heap: a copy shows the same value, shares no pointer, slice or map
 with the original, and keeps nil apart from empty.
 */
module DeepCopy {
  import opened Types

  /** What a pointer points to, and what a map variable refers to. Slices are arrays. */
  class Cell<T> {
    var value: T

    constructor (value: T)
      ensures this.value == value
    {
      this.value := value;
    }
  }

  // ---- pieces that need no copying of their own ------------------------------------------------

  function CellView<T>(c: Cell?<T>): Option<T>
    reads c
  {
    if c == null then None else Some(c.value)
  }

  function SliceView<T>(a: array?<T>): Option<seq<T>>
    reads a
  {
    if a == null then None else Some(a[..])
  }

  function Reached<T>(c: Cell?<T>): set<object> { if c == null then {} else {c} }
  function ReachedSlice<T>(a: array?<T>): set<object> { if a == null then {} else {a} }

  method CopyCell<T>(c: Cell?<T>) returns (r: Cell?<T>)
    ensures CellView(r) == CellView(c) && fresh(Reached(r))
  {
    r := null;
    if c != null {
      r := new Cell(c.value);
    }
  }

  method CopySlice<T>(a: array?<T>) returns (r: array?<T>)
    ensures SliceView(r) == SliceView(a) && fresh(ReachedSlice(r))
  {
    r := null;
    if a != null {
      r := new T[a.Length](i requires 0 <= i < a.Length reads a => a[i]);
      assert r[..] == a[..];
    }
  }

  // ---- slices whose elements hold pointers -----------------------------------------------------

  datatype ConfigMount = ConfigMount(name: string, mountPath: string, subPath: string)

  datatype Toleration = Toleration(key: string, op: string, value: string, effect: string, seconds: Cell?<int>)

  datatype TolerationView =
    TolerationView(key: string, op: string, value: string, effect: string, seconds: Option<int>)

  datatype ExtraVolMounts = ExtraVolMounts(name: string, region: string, volMounts: array?<string>)

  datatype MountsView = MountsView(name: string, region: string, volMounts: Option<seq<string>>)

  function ViewOf(t: Toleration): TolerationView
    reads t.seconds
  {
    TolerationView(t.key, t.op, t.value, t.effect, CellView(t.seconds))
  }

  function MountsViewOf(m: ExtraVolMounts): MountsView
    reads m.volMounts
  {
    MountsView(m.name, m.region, SliceView(m.volMounts))
  }

  function ReachedTolerations(a: array?<Toleration>): set<object>
    reads a
  {
    ReachedSlice(a)
    + if a == null then {} else set i | 0 <= i < a.Length && a[i].seconds != null :: a[i].seconds as object
  }

  function TolerationsView(a: array?<Toleration>): Option<seq<TolerationView>>
    reads a, ReachedTolerations(a)
  {
    if a == null then None
    else Some(seq(a.Length, i requires 0 <= i < a.Length reads a, ReachedTolerations(a) => ViewOf(a[i])))
  }

  function ReachedMounts(a: array?<ExtraVolMounts>): set<object>
    reads a
  {
    ReachedSlice(a)
    + if a == null then {} else set i | 0 <= i < a.Length && a[i].volMounts != null :: a[i].volMounts as object
  }

  function AllMountsView(a: array?<ExtraVolMounts>): Option<seq<MountsView>>
    reads a, ReachedMounts(a)
  {
    if a == null then None
    else Some(seq(a.Length, i requires 0 <= i < a.Length reads a, ReachedMounts(a) => MountsViewOf(a[i])))
  }

  /** No two elements share a pointer. */
  predicate TolerationsUnshared(a: array?<Toleration>)
    reads a
  {
    a != null ==> forall i, j | 0 <= i < j < a.Length && a[i].seconds != null :: a[i].seconds != a[j].seconds
  }

  predicate MountsUnshared(a: array?<ExtraVolMounts>)
    reads a
  {
    a != null ==> forall i, j | 0 <= i < j < a.Length && a[i].volMounts != null :: a[i].volMounts != a[j].volMounts
  }

  twostate lemma TolerationsKept(a: array?<Toleration>)
    requires forall o | o in old(ReachedTolerations(a)) :: unchanged(o)
    ensures TolerationsView(a) == old(TolerationsView(a))
    ensures ReachedTolerations(a) == old(ReachedTolerations(a))
  {
    if a != null {
      assert a in old(ReachedTolerations(a));
      assert forall i | 0 <= i < a.Length && a[i].seconds != null :: a[i].seconds in old(ReachedTolerations(a));
      assert TolerationsView(a).value == old(TolerationsView(a)).value;
    }
  }

  twostate lemma MountsKept(a: array?<ExtraVolMounts>)
    requires forall o | o in old(ReachedMounts(a)) :: unchanged(o)
    ensures AllMountsView(a) == old(AllMountsView(a))
    ensures ReachedMounts(a) == old(ReachedMounts(a))
  {
    if a != null {
      assert a in old(ReachedMounts(a));
      assert forall i | 0 <= i < a.Length && a[i].volMounts != null :: a[i].volMounts in old(ReachedMounts(a));
      assert AllMountsView(a).value == old(AllMountsView(a)).value;
    }
  }

  method CopyToleration(t: Toleration) returns (r: Toleration)
    ensures ViewOf(r) == ViewOf(t) && fresh(Reached(r.seconds))
  {
    var seconds := CopyCell(t.seconds);
    r := t.(seconds := seconds);
  }

  method CopyTolerationItems(a: array<Toleration>) returns (r: array<Toleration>)
    ensures fresh(r) && r.Length == a.Length && TolerationsUnshared(r)
    ensures forall k | 0 <= k < r.Length && r[k].seconds != null :: fresh(r[k].seconds)
    ensures forall k | 0 <= k < r.Length :: ViewOf(r[k]) == ViewOf(a[k])
  {
    r := new Toleration[a.Length](_ => Toleration("", "", "", "", null));
    for i := 0 to a.Length
      invariant fresh(r) && r.Length == a.Length
      invariant forall k | 0 <= k < r.Length && r[k].seconds != null :: fresh(r[k].seconds)
      invariant forall k | 0 <= k < i :: ViewOf(r[k]) == ViewOf(a[k])
      invariant forall j, k | 0 <= j < k < i && r[j].seconds != null :: r[j].seconds != r[k].seconds
    {
      r[i] := CopyToleration(a[i]);
    }
  }

  method CopyTolerations(a: array?<Toleration>) returns (r: array?<Toleration>)
    ensures TolerationsView(r) == TolerationsView(a) == old(TolerationsView(a))
    ensures fresh(ReachedTolerations(r)) && TolerationsUnshared(r)
  {
    r := null;
    if a != null {
      r := CopyTolerationItems(a);
      assert TolerationsView(r).value == TolerationsView(a).value;
    }
    TolerationsKept(a);
  }

  method CopyMountsItem(m: ExtraVolMounts) returns (r: ExtraVolMounts)
    ensures MountsViewOf(r) == MountsViewOf(m) && fresh(ReachedSlice(r.volMounts))
  {
    var volMounts := CopySlice(m.volMounts);
    r := m.(volMounts := volMounts);
  }

  method CopyMountsItems(a: array<ExtraVolMounts>) returns (r: array<ExtraVolMounts>)
    ensures fresh(r) && r.Length == a.Length && MountsUnshared(r)
    ensures forall k | 0 <= k < r.Length && r[k].volMounts != null :: fresh(r[k].volMounts)
    ensures forall k | 0 <= k < r.Length :: MountsViewOf(r[k]) == MountsViewOf(a[k])
  {
    r := new ExtraVolMounts[a.Length](_ => ExtraVolMounts("", "", null));
    for i := 0 to a.Length
      invariant fresh(r) && r.Length == a.Length
      invariant forall k | 0 <= k < r.Length && r[k].volMounts != null :: fresh(r[k].volMounts)
      invariant forall k | 0 <= k < i :: MountsViewOf(r[k]) == MountsViewOf(a[k])
      invariant forall j, k | 0 <= j < k < i && r[j].volMounts != null :: r[j].volMounts != r[k].volMounts
    {
      r[i] := CopyMountsItem(a[i]);
    }
  }

  method CopyMounts(a: array?<ExtraVolMounts>) returns (r: array?<ExtraVolMounts>)
    ensures AllMountsView(r) == AllMountsView(a) == old(AllMountsView(a))
    ensures fresh(ReachedMounts(r)) && MountsUnshared(r)
  {
    r := null;
    if a != null {
      r := CopyMountsItems(a);
      assert AllMountsView(r).value == AllMountsView(a).value;
    }
    MountsKept(a);
  }

  // ---- the structs -----------------------------------------------------------------------------

  datatype CommonOptions = CommonOptions(
    privileged: bool, storageClass: string, seLinuxLevel: string, containerImage: string, backoffLimit: Cell?<int>,
    extraConfigmapsMounts: array?<ConfigMount>, extraMounts: array?<ExtraVolMounts>,
    nodeSelector: Cell?<map<string, string>>, tolerations: array?<Toleration>)

  datatype OptionsView = OptionsView(
    privileged: bool, storageClass: string, seLinuxLevel: string, containerImage: string, backoffLimit: Option<int>,
    extraConfigmapsMounts: Option<seq<ConfigMount>>, extraMounts: Option<seq<MountsView>>,
    nodeSelector: Option<map<string, string>>, tolerations: Option<seq<TolerationView>>)

  /** Every pointer, slice and map that belongs to the struct. */
  function OptionsReach(o: CommonOptions): set<object>
    reads o.extraMounts, o.tolerations
  {
    Reached(o.backoffLimit) + ReachedSlice(o.extraConfigmapsMounts) + ReachedMounts(o.extraMounts)
    + Reached(o.nodeSelector) + ReachedTolerations(o.tolerations)
  }

  function OptionsViewOf(o: CommonOptions): OptionsView
    reads o.extraMounts, o.tolerations, OptionsReach(o)
  {
    OptionsView(o.privileged, o.storageClass, o.seLinuxLevel, o.containerImage, CellView(o.backoffLimit),
                SliceView(o.extraConfigmapsMounts), AllMountsView(o.extraMounts), CellView(o.nodeSelector),
                TolerationsView(o.tolerations))
  }

  /** No pointer, slice or map is reached twice. References of different types are different anyway. */
  predicate OptionsUnshared(o: CommonOptions)
    reads o.extraMounts, o.tolerations
  {
    && MountsUnshared(o.extraMounts) && TolerationsUnshared(o.tolerations)
    && (o.backoffLimit == null || o.backoffLimit !in ReachedTolerations(o.tolerations))
  }

  /** A struct reads the same as long as nothing that belongs to it changes. */
  twostate lemma OptionsKept(o: CommonOptions)
    requires forall r | r in old(OptionsReach(o)) :: unchanged(r)
    ensures OptionsViewOf(o) == old(OptionsViewOf(o)) && OptionsReach(o) == old(OptionsReach(o))
  {
    assert old(ReachedTolerations(o.tolerations) <= OptionsReach(o));
    assert old(ReachedMounts(o.extraMounts) <= OptionsReach(o));
    TolerationsKept(o.tolerations);
    MountsKept(o.extraMounts);
    assert o.backoffLimit != null ==> o.backoffLimit in old(OptionsReach(o));
    assert o.nodeSelector != null ==> o.nodeSelector in old(OptionsReach(o));
    assert o.extraConfigmapsMounts != null ==> o.extraConfigmapsMounts in old(OptionsReach(o));
  }

  method CopyFlatReferences(o: CommonOptions) returns (out: CommonOptions)
    ensures out == o.(backoffLimit := out.backoffLimit, extraConfigmapsMounts := out.extraConfigmapsMounts,
                      nodeSelector := out.nodeSelector)
    ensures CellView(out.backoffLimit) == CellView(o.backoffLimit)
    ensures CellView(out.nodeSelector) == CellView(o.nodeSelector)
    ensures SliceView(out.extraConfigmapsMounts) == SliceView(o.extraConfigmapsMounts)
    ensures fresh(Reached(out.backoffLimit) + ReachedSlice(out.extraConfigmapsMounts) + Reached(out.nodeSelector))
  {
    out := o;
    var backoffLimit := CopyCell(o.backoffLimit);
    out := out.(backoffLimit := backoffLimit);
    var configs := CopySlice(o.extraConfigmapsMounts);
    out := out.(extraConfigmapsMounts := configs);
    var nodeSelector := CopyCell(o.nodeSelector);
    out := out.(nodeSelector := nodeSelector);
  }

  method CopyNestedReferences(o: CommonOptions) returns (out: CommonOptions)
    ensures out == o.(extraMounts := out.extraMounts, tolerations := out.tolerations)
    ensures AllMountsView(out.extraMounts) == AllMountsView(o.extraMounts)
    ensures TolerationsView(out.tolerations) == TolerationsView(o.tolerations)
    ensures fresh(ReachedMounts(out.extraMounts) + ReachedTolerations(out.tolerations))
    ensures MountsUnshared(out.extraMounts) && TolerationsUnshared(out.tolerations)
  {
    var mounts := CopyMounts(o.extraMounts);
    out := o.(extraMounts := mounts);
    label Mounts:
    var tolerations := CopyTolerations(o.tolerations);
    out := out.(tolerations := tolerations);
    MountsKept@Mounts(mounts);
    MountsKept@Mounts(o.extraMounts);
  }

  /** The generated body: a shallow copy whose references are then replaced one by one. */
  method CopyOptions(o: CommonOptions) returns (out: CommonOptions)
    ensures OptionsViewOf(out) == OptionsViewOf(o)
    ensures fresh(OptionsReach(out)) && OptionsUnshared(out)
  {
    out := CopyFlatReferences(o);
    out := CopyNestedReferences(out);
  }

  method StoreOptions(out: Cell<CommonOptions>, copy: CommonOptions)
    modifies out
    ensures out.value == copy
    ensures OptionsViewOf(copy) == old(OptionsViewOf(copy)) && OptionsReach(copy) == old(OptionsReach(copy))
    ensures OptionsUnshared(copy) == old(OptionsUnshared(copy))
  {
    assert out !in ReachedMounts(copy.extraMounts) && out !in ReachedTolerations(copy.tolerations);
    out.value := copy;
    MountsKept(copy.extraMounts);
    TolerationsKept(copy.tolerations);
  }

  /** `out` becomes an equal struct of which every pointer, slice and map is new. */
  method OptionsDeepCopyInto(o: Cell<CommonOptions>, out: Cell<CommonOptions>)
    modifies out
    ensures OptionsViewOf(out.value) == old(OptionsViewOf(o.value))
    ensures fresh(OptionsReach(out.value)) && OptionsUnshared(out.value)
    ensures o != out ==> o.value == old(o.value)
  {
    var was := o.value;
    var copy := CopyOptions(was);
    MountsKept(was.extraMounts);
    TolerationsKept(was.tolerations);
    StoreOptions(out, copy);
  }

  method OptionsDeepCopy(o: Cell?<CommonOptions>) returns (out: Cell?<CommonOptions>)
    ensures o == null <==> out == null
    ensures out != null ==> fresh(out) && fresh(OptionsReach(out.value)) && OptionsUnshared(out.value)
    ensures out != null ==> OptionsViewOf(out.value) == old(OptionsViewOf(o.value))
  {
    out := null;
    if o != null {
      out := new Cell(CommonOptions(false, "", "", "", null, null, null, null, null));
      MountsKept(o.value.extraMounts);
      TolerationsKept(o.value.tolerations);
      OptionsDeepCopyInto(o, out);
    }
  }

  /** Whatever is done to objects that do not belong to the original, the original stays the same. A
      copy shares nothing with it, so the copy may be changed freely. */
  twostate lemma OthersMayChange(o: CommonOptions, changed: set<object>)
    requires old(OptionsReach(o)) !! changed
    requires forall r | r in old(OptionsReach(o)) && r !in changed :: unchanged(r)
    ensures OptionsViewOf(o) == old(OptionsViewOf(o))
  {
    OptionsKept(o);
  }

  // ---- pointers to slices and maps -------------------------------------------------------------

  datatype WorkflowCommonOptions = WorkflowCommonOptions(
    privileged: Cell?<bool>, storageClass: Cell?<string>, seLinuxLevel: Cell?<string>, containerImage: string,
    backoffLimit: Cell?<int>, extraConfigmapsMounts: Cell?<array?<ConfigMount>>,
    nodeSelector: Cell?<Cell?<map<string, string>>>, tolerations: Cell?<array?<Toleration>>)

  function ReachedVia<T>(c: Cell?<array?<T>>): set<object>
    reads c
  {
    Reached(c) + if c == null then {} else ReachedSlice(c.value)
  }

  function ViewVia<T>(c: Cell?<array?<T>>): Option<Option<seq<T>>>
    reads c, ReachedVia(c)
  {
    if c == null then None else Some(SliceView(c.value))
  }

  function ReachedMapVia(c: Cell?<Cell?<map<string, string>>>): set<object>
    reads c
  {
    Reached(c) + if c == null then {} else Reached(c.value)
  }

  function MapViewVia(c: Cell?<Cell?<map<string, string>>>): Option<Option<map<string, string>>>
    reads c, ReachedMapVia(c)
  {
    if c == null then None else Some(CellView(c.value))
  }

  function ReachedTolerationsVia(c: Cell?<array?<Toleration>>): set<object>
    reads c, if c == null then {} else ReachedSlice(c.value)
  {
    Reached(c) + if c == null then {} else ReachedTolerations(c.value)
  }

  function TolerationsViewVia(c: Cell?<array?<Toleration>>): Option<Option<seq<TolerationView>>>
    reads c, ReachedTolerationsVia(c)
  {
    if c == null then None else Some(TolerationsView(c.value))
  }

  method CopySliceVia<T>(c: Cell?<array?<T>>) returns (r: Cell?<array?<T>>)
    ensures ViewVia(r) == ViewVia(c) && fresh(ReachedVia(r))
  {
    r := null;
    if c != null {
      r := new Cell(null);
      if c.value != null {
        var items := CopySlice(c.value);
        r.value := items;
      }
    }
  }

  method CopyMapVia(c: Cell?<Cell?<map<string, string>>>) returns (r: Cell?<Cell?<map<string, string>>>)
    ensures MapViewVia(r) == MapViewVia(c) && fresh(ReachedMapVia(r))
  {
    r := null;
    if c != null {
      r := new Cell(null);
      if c.value != null {
        var entries := CopyCell(c.value);
        r.value := entries;
      }
    }
  }

  method CopyTolerationsVia(c: Cell?<array?<Toleration>>) returns (r: Cell?<array?<Toleration>>)
    ensures TolerationsViewVia(r) == TolerationsViewVia(c) == old(TolerationsViewVia(c))
    ensures fresh(ReachedTolerationsVia(r)) && (r != null ==> TolerationsUnshared(r.value))
  {
    r := null;
    if c != null {
      r := new Cell(null);
      if c.value != null {
        var items := CopyTolerations(c.value);
        label Copied:
        r.value := items;
        TolerationsKept@Copied(items);
        TolerationsKept@Copied(c.value);
      }
    }
  }

  twostate lemma TolerationsViaKept(c: Cell?<array?<Toleration>>)
    requires c == null || unchanged(c)
    requires c != null ==> forall o | o in old(ReachedTolerations(c.value)) :: unchanged(o)
    ensures TolerationsViewVia(c) == old(TolerationsViewVia(c))
    ensures ReachedTolerationsVia(c) == old(ReachedTolerationsVia(c))
  {
    if c != null { TolerationsKept(c.value); }
  }

  datatype WorkflowOptionsView = WorkflowOptionsView(
    privileged: Option<bool>, storageClass: Option<string>, seLinuxLevel: Option<string>, containerImage: string,
    backoffLimit: Option<int>, extraConfigmapsMounts: Option<Option<seq<ConfigMount>>>,
    nodeSelector: Option<Option<map<string, string>>>, tolerations: Option<Option<seq<TolerationView>>>)

  function WorkflowReach(o: WorkflowCommonOptions): set<object>
    reads o.extraConfigmapsMounts, o.nodeSelector, o.tolerations
    reads if o.tolerations == null then {} else ReachedSlice(o.tolerations.value)
  {
    Reached(o.privileged) + Reached(o.storageClass) + Reached(o.seLinuxLevel) + Reached(o.backoffLimit)
    + ReachedVia(o.extraConfigmapsMounts) + ReachedMapVia(o.nodeSelector) + ReachedTolerationsVia(o.tolerations)
  }

  function WorkflowViewOf(o: WorkflowCommonOptions): WorkflowOptionsView
    reads o.extraConfigmapsMounts, o.nodeSelector, o.tolerations
    reads if o.tolerations == null then {} else ReachedSlice(o.tolerations.value)
    reads WorkflowReach(o)
  {
    WorkflowOptionsView(CellView(o.privileged), CellView(o.storageClass), CellView(o.seLinuxLevel), o.containerImage,
                        CellView(o.backoffLimit), ViewVia(o.extraConfigmapsMounts), MapViewVia(o.nodeSelector),
                        TolerationsViewVia(o.tolerations))
  }

  predicate WorkflowUnshared(o: WorkflowCommonOptions)
    reads o.tolerations
    reads if o.tolerations == null then {} else ReachedSlice(o.tolerations.value)
  {
    && (o.storageClass != null ==> o.storageClass != o.seLinuxLevel)
    && (o.tolerations != null ==> TolerationsUnshared(o.tolerations.value))
    && (o.backoffLimit != null ==> o.backoffLimit !in ReachedTolerationsVia(o.tolerations))
  }

  /** The struct reads the same as long as nothing that belongs to it changes. */
  twostate lemma WorkflowKept(o: WorkflowCommonOptions, reach: set<object>)
    requires reach == old(WorkflowReach(o)) && forall r | r in reach :: unchanged(r)
    ensures WorkflowViewOf(o) == old(WorkflowViewOf(o)) && WorkflowReach(o) == old(WorkflowReach(o))
  {
    assert old(ReachedVia(o.extraConfigmapsMounts) <= WorkflowReach(o));
    assert old(ReachedMapVia(o.nodeSelector) <= WorkflowReach(o));
    assert old(ReachedTolerationsVia(o.tolerations) <= WorkflowReach(o));
    assert o.privileged != null ==> o.privileged in old(WorkflowReach(o));
    assert o.storageClass != null ==> o.storageClass in old(WorkflowReach(o));
    assert o.seLinuxLevel != null ==> o.seLinuxLevel in old(WorkflowReach(o));
    assert o.backoffLimit != null ==> o.backoffLimit in old(WorkflowReach(o));
    if o.tolerations != null {
      assert o.tolerations in old(ReachedTolerationsVia(o.tolerations));
      TolerationsKept(o.tolerations.value);
    }
  }

  method CopyWorkflowPointers(o: WorkflowCommonOptions) returns (out: WorkflowCommonOptions)
    ensures out == o.(privileged := out.privileged, storageClass := out.storageClass,
                      seLinuxLevel := out.seLinuxLevel, backoffLimit := out.backoffLimit)
    ensures CellView(out.privileged) == CellView(o.privileged) && CellView(out.storageClass) == CellView(o.storageClass)
    ensures CellView(out.seLinuxLevel) == CellView(o.seLinuxLevel)
    ensures CellView(out.backoffLimit) == CellView(o.backoffLimit)
    ensures fresh(Reached(out.privileged) + Reached(out.storageClass))
    ensures fresh(Reached(out.seLinuxLevel) + Reached(out.backoffLimit))
    ensures out.storageClass != null ==> out.storageClass != out.seLinuxLevel
  {
    out := o;
    var privileged := CopyCell(o.privileged);
    out := out.(privileged := privileged);
    var storageClass := CopyCell(o.storageClass);
    out := out.(storageClass := storageClass);
    var seLinuxLevel := CopyCell(o.seLinuxLevel);
    out := out.(seLinuxLevel := seLinuxLevel);
    var backoffLimit := CopyCell(o.backoffLimit);
    out := out.(backoffLimit := backoffLimit);
  }

  method CopyWorkflowCollections(o: WorkflowCommonOptions) returns (out: WorkflowCommonOptions)
    ensures out == o.(extraConfigmapsMounts := out.extraConfigmapsMounts, nodeSelector := out.nodeSelector,
                      tolerations := out.tolerations)
    ensures ViewVia(out.extraConfigmapsMounts) == ViewVia(o.extraConfigmapsMounts)
    ensures MapViewVia(out.nodeSelector) == MapViewVia(o.nodeSelector)
    ensures TolerationsViewVia(out.tolerations) == TolerationsViewVia(o.tolerations)
    ensures fresh(ReachedVia(out.extraConfigmapsMounts)) && fresh(ReachedMapVia(out.nodeSelector))
    ensures fresh(ReachedTolerationsVia(out.tolerations))
    ensures out.tolerations != null ==> TolerationsUnshared(out.tolerations.value)
  {
    out := o;
    var configs := CopySliceVia(o.extraConfigmapsMounts);
    out := out.(extraConfigmapsMounts := configs);
    var nodeSelector := CopyMapVia(o.nodeSelector);
    out := out.(nodeSelector := nodeSelector);
    var tolerations := CopyTolerationsVia(o.tolerations);
    out := out.(tolerations := tolerations);
  }

  /** The generated body. */
  method CopyWorkflowOptions(o: WorkflowCommonOptions) returns (out: WorkflowCommonOptions)
    ensures WorkflowViewOf(out) == WorkflowViewOf(o)
    ensures fresh(WorkflowReach(out)) && WorkflowUnshared(out)
  {
    out := CopyWorkflowPointers(o);
    out := CopyWorkflowCollections(out);
  }

  method StoreWorkflow(out: Cell<WorkflowCommonOptions>, copy: WorkflowCommonOptions)
    modifies out
    ensures out.value == copy
    ensures WorkflowViewOf(copy) == old(WorkflowViewOf(copy)) && WorkflowReach(copy) == old(WorkflowReach(copy))
    ensures WorkflowUnshared(copy) == old(WorkflowUnshared(copy))
  {
    assert copy.tolerations != null ==> out !in ReachedTolerations(copy.tolerations.value);
    out.value := copy;
    if copy.tolerations != null { TolerationsKept(copy.tolerations.value); }
  }

  method WorkflowDeepCopyInto(o: Cell<WorkflowCommonOptions>, out: Cell<WorkflowCommonOptions>)
    modifies out
    ensures WorkflowViewOf(out.value) == old(WorkflowViewOf(o.value))
    ensures fresh(WorkflowReach(out.value)) && WorkflowUnshared(out.value)
  {
    var was := o.value;
    var copy := CopyWorkflowOptions(was);
    TolerationsViaKept(was.tolerations);
    assert WorkflowViewOf(was) == old(WorkflowViewOf(o.value));
    StoreWorkflow(out, copy);
  }

  // ---- the status: a map of slices -------------------------------------------------------------

  datatype CommonTestStatus = CommonTestStatus(
    hash: Cell?<map<string, string>>, conditions: array?<string>, observedGeneration: int,
    networkAttachments: Cell?<map<string, array?<string>>>)

  datatype StatusView = StatusView(
    hash: Option<map<string, string>>, conditions: Option<seq<string>>, observedGeneration: int,
    networkAttachments: Option<map<string, Option<seq<string>>>>)

  function ReachedEntries(m: map<string, array?<string>>): set<object> {
    set k | k in m && m[k] != null :: m[k] as object
  }

  function EntriesView(m: map<string, array?<string>>): map<string, Option<seq<string>>>
    reads ReachedEntries(m)
  {
    map k | k in m :: SliceView(m[k])
  }

  function ReachedAttachments(c: Cell?<map<string, array?<string>>>): set<object>
    reads c
  {
    Reached(c) + if c == null then {} else ReachedEntries(c.value)
  }

  function AttachmentsView(c: Cell?<map<string, array?<string>>>): Option<map<string, Option<seq<string>>>>
    reads c, ReachedAttachments(c)
  {
    if c == null then None else Some(EntriesView(c.value))
  }

  /** In whatever order the keys come, a nil slice stays nil and an empty one stays empty. */
  predicate AttachmentsUnshared(c: Cell?<map<string, array?<string>>>)
    reads c
  {
    c != null ==> forall j, k | j in c.value && k in c.value && j != k && c.value[j] != null :: c.value[j] != c.value[k]
  }

  method CopyAttachments(c: Cell?<map<string, array?<string>>>) returns (r: Cell?<map<string, array?<string>>>)
    ensures AttachmentsView(r) == AttachmentsView(c) && fresh(ReachedAttachments(r)) && AttachmentsUnshared(r)
  {
    r := null;
    if c != null {
      r := new Cell(map[]);
      var rest := c.value.Keys;
      while rest != {}
        invariant r != null && fresh(r) && rest <= c.value.Keys && r.value.Keys == c.value.Keys - rest
        invariant forall k | k in r.value :: SliceView(r.value[k]) == SliceView(c.value[k])
        invariant forall k | k in r.value && r.value[k] != null :: fresh(r.value[k])
        invariant AttachmentsUnshared(r)
        modifies r
        decreases |rest|
      {
        var k :| k in rest;
        var items := CopySlice(c.value[k]);
        r.value := r.value[k := items];
        rest := rest - {k};
      }
      assert EntriesView(r.value) == EntriesView(c.value);
    }
  }

  function StatusReach(s: CommonTestStatus): set<object>
    reads s.networkAttachments
  {
    Reached(s.hash) + ReachedSlice(s.conditions) + ReachedAttachments(s.networkAttachments)
  }

  function StatusViewOf(s: CommonTestStatus): StatusView
    reads s.networkAttachments, StatusReach(s)
  {
    StatusView(CellView(s.hash), SliceView(s.conditions), s.observedGeneration, AttachmentsView(s.networkAttachments))
  }

  predicate StatusUnshared(s: CommonTestStatus)
    reads s.networkAttachments
  {
    && AttachmentsUnshared(s.networkAttachments)
    && (s.conditions != null ==> s.conditions !in ReachedAttachments(s.networkAttachments))
  }

  /** The struct reads the same as long as nothing that belongs to it changes. */
  twostate lemma StatusKept(s: CommonTestStatus)
    requires forall r | r in old(StatusReach(s)) :: unchanged(r)
    ensures StatusViewOf(s) == old(StatusViewOf(s)) && StatusReach(s) == old(StatusReach(s))
  {
    assert s.hash != null ==> s.hash in old(StatusReach(s));
    assert s.conditions != null ==> s.conditions in old(StatusReach(s));
    assert old(ReachedAttachments(s.networkAttachments) <= StatusReach(s));
    if s.networkAttachments != null {
      assert s.networkAttachments in old(ReachedAttachments(s.networkAttachments));
      var m := s.networkAttachments.value;
      assert forall k | k in m && m[k] != null :: m[k] in old(ReachedAttachments(s.networkAttachments));
      assert EntriesView(m) == old(EntriesView(m));
    }
  }

  method CopyStatus(s: CommonTestStatus) returns (out: CommonTestStatus)
    ensures StatusViewOf(out) == StatusViewOf(s)
    ensures fresh(StatusReach(out)) && StatusUnshared(out)
  {
    out := s;
    var hash := CopyCell(s.hash);
    out := out.(hash := hash);
    var conditions := CopySlice(s.conditions);
    out := out.(conditions := conditions);
    var attachments := CopyAttachments(s.networkAttachments);
    out := out.(networkAttachments := attachments);
  }

  method StatusDeepCopyInto(s: Cell<CommonTestStatus>, out: Cell<CommonTestStatus>)
    modifies out
    ensures StatusViewOf(out.value) == old(StatusViewOf(s.value))
    ensures fresh(StatusReach(out.value)) && StatusUnshared(out.value)
  {
    var was := s.value;
    assert out !in StatusReach(was);
    var copy := CopyStatus(was);
    label Copied:
    assert out !in StatusReach(copy);
    out.value := copy;
    assert StatusViewOf(copy) == old@Copied(StatusViewOf(copy));
    assert old@Copied(StatusViewOf(was)) == old(StatusViewOf(was));
  }
}
