/** Field figures of the 3.0 provider API: how an object is built (input
    figure) and read (output figure), extracted from a signature, a NamedTuple,
    a TypedDict, a dataclass or a class `__init__`. The reflection results the
    extractors read are given as a `ClassInfo` record. */
module Fields {
  import opened Values
  import opened Signatures

  /** `NoDefault(field_is_required)`, `DefaultValue(value)`, `DefaultFactory(factory)`. */
  datatype Default = NoDefault(fieldIsRequired: bool) | DefaultValue(value: Value) | DefaultFactory(factory: nat)

  /** `FieldRM`: type, name, default and metadata of one field. */
  datatype FieldRM = FieldRM(tp: TypeHint, fieldName: string, default: Default, metadata: map<string, Value>)

  /** `UnboundExtra`: `None` (to be bound later to skip or forbid), `ExtraKwargs`, or `ExtraTargets`. */
  datatype UnboundExtra = NoExtra | ExtraKwargs | ExtraTargets(targets: seq<string>)

  datatype InputFieldsFigure = InputFieldsFigure(fields: seq<FieldRM>, extra: UnboundExtra)

  /** `GetterKind`: read fields with `getattr` or with `[]`. */
  datatype GetterKind = Attr | Item

  datatype OutputFieldsFigure = OutputFieldsFigure(fields: seq<FieldRM>, getterKind: GetterKind)

  /** An extractor's result: a figure, `CannotProvide`, or a `ValueError`. */
  datatype Extraction<T> = Extracted(figure: T) | CannotProvide | ValueError

  // ---- get_func_iff ----

  /** The kinds `get_func_iff` accepts. */
  predicate SupportedKind(k: InspectKind)
  {
    k == PositionalOrKeyword || k == KeywordOnly || k == VarKeyword
  }

  /** The field built from one parameter: type `Any` without an annotation,
      `NoDefault(field_is_required=True)` without a default, empty metadata. */
  function ParamField(p: Parameter): (r: FieldRM)
    ensures r.fieldName == p.name
    ensures p.annotation.Some? ==> r.tp == p.annotation.value
    ensures p.annotation.None? ==> r.tp == AnyHint
    ensures r.default.NoDefault? <==> p.default.None?
    ensures r.default.NoDefault? ==> r.default.fieldIsRequired
    ensures r.default.DefaultValue? ==> r.default.value == p.default.value
    ensures |r.metadata| == 0
  {
    FieldRM(
      if p.annotation.None? then AnyHint else p.annotation.value,
      p.name,
      if p.default.None? then NoDefault(true) else DefaultValue(p.default.value),
      map[])
  }

  /** `get_func_iff(func, slice(start, None))`, given the parameters of `func`. */
  function GetFuncIff(params: seq<Parameter>, start: nat): (r: Extraction<InputFieldsFigure>)
    ensures !r.CannotProvide?
    ensures r.ValueError? <==>
      exists i :: 0 <= i < |Slice(params, start)| && !SupportedKind(Slice(params, start)[i].kind)
    ensures r.Extracted? ==> (r.figure.extra == ExtraKwargs <==> HasVarKeyword(Slice(params, start)))
    ensures r.Extracted? ==> (r.figure.extra == NoExtra <==> !HasVarKeyword(Slice(params, start)))
    ensures r.Extracted? ==> |r.figure.fields| == |NonKwargs(Slice(params, start))|
    ensures r.Extracted? ==> forall i :: 0 <= i < |r.figure.fields| ==>
      var p := NonKwargs(Slice(params, start))[i];
      && r.figure.fields[i].fieldName == p.name
      && (p.annotation.None? ==> r.figure.fields[i].tp == AnyHint)
      && (p.annotation.Some? ==> r.figure.fields[i].tp == p.annotation.value)
      && (p.default.None? ==> r.figure.fields[i].default == NoDefault(true))
      && (p.default.Some? ==> r.figure.fields[i].default == DefaultValue(p.default.value))
      && r.figure.fields[i].metadata == map[]
  {
    var ps := Slice(params, start);
    if exists i :: 0 <= i < |ps| && !SupportedKind(ps[i].kind) then ValueError
    else
      var kept := NonKwargs(ps);
      Extracted(InputFieldsFigure(
        seq(|kept|, i requires 0 <= i < |kept| => ParamField(kept[i])),
        if HasVarKeyword(ps) then ExtraKwargs else NoExtra))
  }

  /** A positional-only parameter after the first `start` makes `get_func_iff` raise `ValueError`. */
  lemma GetFuncIffRejectsPositionalOnly(params: seq<Parameter>, start: nat, k: nat)
    requires start <= k < |params| && params[k].kind == PositionalOnly
    ensures GetFuncIff(params, start) == ValueError
  {
    assert Slice(params, start)[k - start] == params[k];
  }

  /** Appending `**kwargs` to a signature adds `ExtraKwargs` and leaves the fields as they were. */
  lemma GetFuncIffTrailingKwargs(params: seq<Parameter>, start: nat, kw: Parameter)
    requires start <= |params| && kw.kind == VarKeyword && !HasVarKeyword(Slice(params, start))
    requires GetFuncIff(params, start).Extracted?
    ensures GetFuncIff(params + [kw], start) ==
      Extracted(InputFieldsFigure(GetFuncIff(params, start).figure.fields, ExtraKwargs))
  {
    var ps := Slice(params, start);
    var ps' := Slice(params + [kw], start);
    assert ps' == ps + [kw];
    assert ps'[|ps|] == kw;
    NonKwargsAppend(ps, [kw]);
    assert NonKwargs([kw]) == [];
    assert NonKwargs(ps') == NonKwargs(ps);
    assert !exists i :: 0 <= i < |ps'| && !SupportedKind(ps'[i].kind) by {
      forall i | 0 <= i < |ps'| ensures SupportedKind(ps'[i].kind) {
        if i < |ps| { assert ps'[i] == ps[i]; }
      }
    }
  }

  // ---- dataclasses ----

  /** What `dataclasses.fields` reports about one field; a missing `default` or
      `default_factory` (`MISSING`) is `None`. */
  datatype DataclassField = DataclassField(
    name: string, tp: TypeHint, default: Option<Value>, defaultFactory: Option<nat>,
    init: bool, metadata: map<string, Value>)

  /** `get_dc_default`: the default value wins over the default factory. */
  function GetDcDefault(f: DataclassField): (d: Default)
    ensures d.DefaultValue? <==> f.default.Some?
    ensures d.DefaultFactory? <==> f.default.None? && f.defaultFactory.Some?
    ensures d.NoDefault? <==> f.default.None? && f.defaultFactory.None?
    ensures d.DefaultValue? ==> d.value == f.default.value
    ensures d.DefaultFactory? ==> d.factory == f.defaultFactory.value
    ensures d.NoDefault? ==> d.fieldIsRequired
  {
    if f.default.Some? then DefaultValue(f.default.value)
    else if f.defaultFactory.Some? then DefaultFactory(f.defaultFactory.value)
    else NoDefault(true)
  }

  function DcFieldRM(f: DataclassField): FieldRM
  {
    FieldRM(f.tp, f.name, GetDcDefault(f), f.metadata)
  }

  /** `_get_fields_filtered`: the fields that pass `keep`, in declaration order. */
  function FieldsFiltered(fs: seq<DataclassField>, keep: DataclassField -> bool): (r: seq<FieldRM>)
    ensures |r| <= |fs|
  {
    if |fs| == 0 then []
    else (if keep(fs[0]) then [DcFieldRM(fs[0])] else []) + FieldsFiltered(fs[1..], keep)
  }

  /** A filter that keeps everything keeps every field, one for one and in order. */
  lemma {:induction false} FieldsFilteredAll(fs: seq<DataclassField>, keep: DataclassField -> bool)
    requires forall f :: keep(f)
    ensures |FieldsFiltered(fs, keep)| == |fs|
    ensures forall i :: 0 <= i < |fs| ==> FieldsFiltered(fs, keep)[i] == DcFieldRM(fs[i])
  {
    if |fs| > 0 {
      FieldsFilteredAll(fs[1..], keep);
      forall i | 1 <= i < |fs| ensures FieldsFiltered(fs, keep)[i] == DcFieldRM(fs[i]) {
        assert fs[1..][i - 1] == fs[i];
      }
    }
  }

  /** The positions from `i` on whose field passes `keep`, in increasing order. */
  function Positions(fs: seq<DataclassField>, keep: DataclassField -> bool, i: nat): (p: seq<nat>)
    requires i <= |fs|
    ensures forall k :: 0 <= k < |p| ==> i <= p[k] < |fs|
    ensures forall k, l :: 0 <= k < l < |p| ==> p[k] < p[l]
    ensures forall j :: i <= j < |fs| ==> (keep(fs[j]) <==> j in p)
    decreases |fs| - i
  {
    if i == |fs| then []
    else (if keep(fs[i]) then [i] else []) + Positions(fs, keep, i + 1)
  }

  lemma {:induction false} FieldsFilteredFrom(fs: seq<DataclassField>, keep: DataclassField -> bool, i: nat)
    requires i <= |fs|
    ensures |FieldsFiltered(fs[i..], keep)| == |Positions(fs, keep, i)|
    ensures forall k :: 0 <= k < |Positions(fs, keep, i)| ==>
      FieldsFiltered(fs[i..], keep)[k] == DcFieldRM(fs[Positions(fs, keep, i)[k]])
    decreases |fs| - i
  {
    if i < |fs| {
      FieldsFilteredFrom(fs, keep, i + 1);
      var r, p := FieldsFiltered(fs[i..], keep), Positions(fs, keep, i);
      var r', p' := FieldsFiltered(fs[i + 1..], keep), Positions(fs, keep, i + 1);
      assert fs[i..][0] == fs[i] && fs[i..][1..] == fs[i + 1..];
      if keep(fs[i]) {
        assert r == [DcFieldRM(fs[i])] + r' && p == [i] + p';
        forall k | 1 <= k < |p| ensures r[k] == DcFieldRM(fs[p[k]]) {
          assert r[k] == r'[k - 1] && p[k] == p'[k - 1];
        }
      } else {
        assert r == r' && p == p';
      }
    }
  }

  /** `_get_fields_filtered` keeps exactly the fields at `Positions(fs, keep, 0)`, in that order. */
  lemma FieldsFilteredInOrder(fs: seq<DataclassField>, keep: DataclassField -> bool)
    ensures |FieldsFiltered(fs, keep)| == |Positions(fs, keep, 0)|
    ensures forall k :: 0 <= k < |Positions(fs, keep, 0)| ==>
      FieldsFiltered(fs, keep)[k] == DcFieldRM(fs[Positions(fs, keep, 0)[k]])
  {
    FieldsFilteredFrom(fs, keep, 0);
    assert fs[0..] == fs;
  }

  /** Hence every field that passes `keep` has its entry in the result ... */
  lemma FieldsFilteredKeeps(fs: seq<DataclassField>, keep: DataclassField -> bool, f: DataclassField)
    requires f in fs && keep(f)
    ensures DcFieldRM(f) in FieldsFiltered(fs, keep)
  {
    FieldsFilteredInOrder(fs, keep);
    var p := Positions(fs, keep, 0);
    var j :| 0 <= j < |fs| && fs[j] == f;
    var k :| 0 <= k < |p| && p[k] == j;
    assert FieldsFiltered(fs, keep)[k] == DcFieldRM(f);
  }

  /** ... and every entry of the result comes from a field that passes `keep`. */
  lemma FieldsFilteredOnlyKept(fs: seq<DataclassField>, keep: DataclassField -> bool, x: FieldRM)
    requires x in FieldsFiltered(fs, keep)
    ensures exists f :: f in fs && keep(f) && x == DcFieldRM(f)
  {
    FieldsFilteredInOrder(fs, keep);
    var r, p := FieldsFiltered(fs, keep), Positions(fs, keep, 0);
    var k :| 0 <= k < |r| && r[k] == x;
    assert fs[p[k]] in fs && keep(fs[p[k]]);
  }

  // ---- providers ----

  datatype TypedDictInfo = TypedDictInfo(total: bool, hints: seq<(string, TypeHint)>)

  /** What reflection reports about the requested type: whether it is a class,
      the parameters of `__new__` when it is a NamedTuple class, `__total__` and
      `get_type_hints` when it is a TypedDict class, `dataclasses.fields` when it
      is a dataclass, and the parameters of `__init__`. */
  datatype ClassInfo = ClassInfo(
    isType: bool,
    namedTupleNew: Option<seq<Parameter>>,
    typedDict: Option<TypedDictInfo>,
    dataclassFields: Option<seq<DataclassField>>,
    initParams: seq<Parameter>)

  /** `NamedTupleFieldsProvider._get_input_fields_figure`: `__new__` without `cls`. */
  function NamedTupleInputFigure(c: ClassInfo): (r: Extraction<InputFieldsFigure>)
    ensures r.CannotProvide? <==> c.namedTupleNew.None?
    ensures c.namedTupleNew.Some? ==> r == GetFuncIff(c.namedTupleNew.value, 1)
  {
    match c.namedTupleNew
    case None => CannotProvide
    case Some(ps) => GetFuncIff(ps, 1)
  }

  /** `NamedTupleFieldsProvider._get_output_fields_figure`: the input figure's fields, read by attribute. */
  function NamedTupleOutputFigure(c: ClassInfo): (r: Extraction<OutputFieldsFigure>)
    ensures r.CannotProvide? <==> NamedTupleInputFigure(c).CannotProvide?
    ensures r.ValueError? <==> NamedTupleInputFigure(c).ValueError?
    ensures r.Extracted? ==> r.figure.fields == NamedTupleInputFigure(c).figure.fields
    ensures r.Extracted? ==> r.figure.getterKind == Attr
  {
    match NamedTupleInputFigure(c)
    case CannotProvide => CannotProvide
    case ValueError => ValueError
    case Extracted(iff) => Extracted(OutputFieldsFigure(iff.fields, Attr))
  }

  /** `TypedDictFieldsProvider._get_fields`: one field per type hint, required iff the dict is total. */
  function TypedDictFields(c: ClassInfo): (r: Option<seq<FieldRM>>)
    ensures r.None? <==> c.typedDict.None?
    ensures r.Some? ==> |r.value| == |c.typedDict.value.hints|
    ensures r.Some? ==> forall i :: 0 <= i < |r.value| ==>
      && r.value[i].fieldName == c.typedDict.value.hints[i].0
      && r.value[i].tp == c.typedDict.value.hints[i].1
      && r.value[i].default == NoDefault(c.typedDict.value.total)
      && r.value[i].metadata == map[]
  {
    match c.typedDict
    case None => None
    case Some(td) =>
      Some(seq(|td.hints|, i requires 0 <= i < |td.hints| =>
        FieldRM(td.hints[i].1, td.hints[i].0, NoDefault(td.total), map[])))
  }

  function TypedDictInputFigure(c: ClassInfo): (r: Extraction<InputFieldsFigure>)
    ensures r.CannotProvide? <==> c.typedDict.None?
    ensures !r.ValueError?
    ensures r.Extracted? ==> r.figure.extra == NoExtra
    ensures r.Extracted? ==> r.figure.fields == TypedDictFields(c).value
  {
    match TypedDictFields(c)
    case None => CannotProvide
    case Some(fs) => Extracted(InputFieldsFigure(fs, NoExtra))
  }

  function TypedDictOutputFigure(c: ClassInfo): (r: Extraction<OutputFieldsFigure>)
    ensures r.CannotProvide? <==> c.typedDict.None?
    ensures !r.ValueError?
    ensures r.Extracted? ==> r.figure.getterKind == Item
    ensures r.Extracted? ==> r.figure.fields == TypedDictFields(c).value
  {
    match TypedDictFields(c)
    case None => CannotProvide
    case Some(fs) => Extracted(OutputFieldsFigure(fs, Item))
  }

  /** A TypedDict is loaded and dumped through the same fields, each required iff `__total__`. */
  lemma TypedDictFiguresAgree(c: ClassInfo)
    requires c.typedDict.Some?
    ensures TypedDictInputFigure(c).figure.fields == TypedDictOutputFigure(c).figure.fields
    ensures forall f :: f in TypedDictInputFigure(c).figure.fields ==>
      f.default.NoDefault? && f.default.fieldIsRequired == c.typedDict.value.total
  {
  }

  predicate KeepInit(f: DataclassField) { f.init }

  predicate KeepAll(f: DataclassField) { true }

  function DataclassInputFigure(c: ClassInfo): (r: Extraction<InputFieldsFigure>)
    ensures r.CannotProvide? <==> c.dataclassFields.None?
    ensures !r.ValueError?
    ensures r.Extracted? ==> r.figure.extra == NoExtra
    ensures r.Extracted? ==>
      var fs, p := c.dataclassFields.value, Positions(c.dataclassFields.value, KeepInit, 0);
      && (forall i :: 0 <= i < |fs| ==> (fs[i].init <==> i in p))
      && |r.figure.fields| == |p|
      && (forall k :: 0 <= k < |p| ==> r.figure.fields[k] == DcFieldRM(fs[p[k]]))
  {
    match c.dataclassFields
    case None => CannotProvide
    case Some(fs) =>
      FieldsFilteredInOrder(fs, KeepInit);
      Extracted(InputFieldsFigure(FieldsFiltered(fs, KeepInit), NoExtra))
  }

  function DataclassOutputFigure(c: ClassInfo): (r: Extraction<OutputFieldsFigure>)
    ensures r.CannotProvide? <==> c.dataclassFields.None?
    ensures !r.ValueError?
    ensures r.Extracted? ==> r.figure.getterKind == Attr
  {
    match c.dataclassFields
    case None => CannotProvide
    case Some(fs) => Extracted(OutputFieldsFigure(FieldsFiltered(fs, KeepAll), Attr))
  }

  /** The output figure lists every dataclass field, in declaration order, with its
      `get_dc_default` default and its metadata. */
  lemma DataclassOutputListsAllFields(c: ClassInfo)
    requires c.dataclassFields.Some?
    ensures |DataclassOutputFigure(c).figure.fields| == |c.dataclassFields.value|
    ensures forall i :: 0 <= i < |c.dataclassFields.value| ==>
      var f := c.dataclassFields.value[i];
      DataclassOutputFigure(c).figure.fields[i] == FieldRM(f.tp, f.name, GetDcDefault(f), f.metadata)
  {
    FieldsFilteredAll(c.dataclassFields.value, KeepAll);
  }

  /** When every field takes part in `__init__`, input and output figures list the same fields. */
  lemma DataclassAllInitSameFields(c: ClassInfo)
    requires c.dataclassFields.Some? && forall f :: f in c.dataclassFields.value ==> f.init
    ensures DataclassInputFigure(c).figure.fields == DataclassOutputFigure(c).figure.fields
  {
    FieldsFilteredSameOn(c.dataclassFields.value, KeepInit, KeepAll);
  }

  lemma {:induction false} FieldsFilteredSameOn(fs: seq<DataclassField>, k1: DataclassField -> bool, k2: DataclassField -> bool)
    requires forall f :: f in fs ==> k1(f) == k2(f)
    ensures FieldsFiltered(fs, k1) == FieldsFiltered(fs, k2)
  {
    if |fs| > 0 {
      assert fs[0] in fs;
      FieldsFilteredSameOn(fs[1..], k1, k2);
    }
  }

  /** `ClassInitFieldsProvider._get_input_fields_figure`: `__init__` without `self`;
      a `ValueError` from `get_func_iff` becomes `CannotProvide`. */
  function ClassInitInputFigure(c: ClassInfo): (r: Extraction<InputFieldsFigure>)
    ensures !r.ValueError?
    ensures r.CannotProvide? <==> !c.isType || GetFuncIff(c.initParams, 1).ValueError?
    ensures r.Extracted? ==> r == GetFuncIff(c.initParams, 1)
  {
    if !c.isType then CannotProvide
    else
      var iff := GetFuncIff(c.initParams, 1);
      if iff.ValueError? then CannotProvide else iff
  }
}
