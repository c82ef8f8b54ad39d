/** `ClassInitInputFigureProvider._get_input_figure` of the later provider API:
    the input figure of a class built from the parameters of its `__init__`.
    Unlike `get_func_iff` of the 3.0 API it accepts positional-only parameters,
    and it records each field's kind and requiredness. */
module ClassInit {
  import opened Values
  import opened Signatures
  import opened FieldsBasics
  import Fields

  datatype Extraction = Extracted(figure: InputFieldsFigure) | CannotProvide

  /** The `ParamKind` of a parameter that is neither `*args` nor `**kwargs`. */
  function ParamKindOf(k: InspectKind): ParamKind
  {
    match k
    case PositionalOnly => PosOnly
    case KeywordOnly => KwOnly
    case _ => PosOrKw
  }

  function InitField(p: Parameter): InputFieldRM
  {
    InputFieldRM(
      p.name,
      if p.annotation.None? then AnyHint else p.annotation.value,
      if p.default.None? then NoDefault else DefaultValue(p.default.value),
      p.default.None?,
      map[],
      ParamKindOf(p.kind))
  }

  predicate HasVarPositional(ps: seq<Parameter>)
  {
    exists i :: 0 <= i < |ps| && ps[i].kind == VarPositional
  }

  /** The fields of `__init__` after `self`, one per parameter other than `**kwargs`. */
  function InitFields(initParams: seq<Parameter>): seq<InputFieldRM>
  {
    var kept := NonKwargs(Slice(initParams, 1));
    seq(|kept|, i requires 0 <= i < |kept| => InitField(kept[i]))
  }

  /** What a field says about the parameter it comes from: its name; type `Any` without an
      annotation; no default and required without a default, `DefaultValue(d)` and optional
      with a default `d`; empty metadata; and the parameter's kind. */
  predicate FieldFromParam(p: Parameter, f: InputFieldRM)
  {
    && f.name == p.name
    && (p.annotation.None? ==> f.tp == AnyHint)
    && (p.annotation.Some? ==> f.tp == p.annotation.value)
    && (p.default.None? ==> f.default == NoDefault && f.isRequired)
    && (p.default.Some? ==> f.default == DefaultValue(p.default.value) && !f.isRequired)
    && f.metadata == map[]
    && (p.kind == PositionalOnly <==> f.paramKind == PosOnly)
    && (p.kind == PositionalOrKeyword <==> f.paramKind == PosOrKw)
    && (p.kind == KeywordOnly <==> f.paramKind == KwOnly)
  }

  lemma InitFieldFromParam(p: Parameter)
    requires p.kind !in {VarPositional, VarKeyword}
    ensures FieldFromParam(p, InitField(p))
  {
  }

  /** The parameters after `self` other than `**kwargs` of a legal signature form a legal
      signature with neither `*args` (when there is none) nor `**kwargs`. */
  lemma KeptParamsLegal(initParams: seq<Parameter>)
    requires LegalSignature(initParams) && !HasVarPositional(Slice(initParams, 1))
    ensures LegalSignature(NonKwargs(Slice(initParams, 1)))
    ensures forall i :: 0 <= i < |NonKwargs(Slice(initParams, 1))| ==>
      NonKwargs(Slice(initParams, 1))[i].kind !in {VarPositional, VarKeyword}
  {
    var ps := Slice(initParams, 1);
    LegalSignatureSuffix(initParams, 1);
    NonKwargsOfLegal(ps);
    if HasVarKeyword(ps) {
      LegalSignaturePrefix(ps, |ps| - 1);
    }
    var kept := NonKwargs(ps);
    NonKwargsMembers(ps);
    forall i | 0 <= i < |kept| ensures kept[i].kind !in {VarPositional, VarKeyword} {
      assert kept[i] in kept;
    }
  }

  /** Fields made from a legal signature without variadic parameters are consistent: kinds in
      order because parameter kinds are, required before optional because defaults trail, and
      unique names because parameter names are. */
  lemma FieldsOfLegalConsistent(kept: seq<Parameter>, fs: seq<InputFieldRM>)
    requires LegalSignature(kept)
    requires forall i :: 0 <= i < |kept| ==> kept[i].kind !in {VarPositional, VarKeyword}
    requires |fs| == |kept| && forall i :: 0 <= i < |kept| ==> fs[i] == InitField(kept[i])
    ensures FieldsConsistent(fs)
  {
    assert KindsOrdered(fs) by {
      forall i, j | 0 <= i < j < |fs| ensures FieldsBasics.KindRank(fs[i].paramKind) <= FieldsBasics.KindRank(fs[j].paramKind) {
        assert Compatible(kept[i], kept[j]);
      }
    }
    assert RequiredBeforeOptional(fs) by {
      forall i, j | 0 <= i < j < |fs| && IsPositional(fs[i].paramKind) && IsPositional(fs[j].paramKind) && !fs[i].isRequired
        ensures !fs[j].isRequired
      {
        assert Compatible(kept[i], kept[j]);
      }
    }
    assert UniqueNames(fs) by {
      forall i, j | 0 <= i < j < |fs| ensures fs[i].name != fs[j].name {
        assert Compatible(kept[i], kept[j]);
      }
    }
  }

  /** `_get_input_figure(cls)` for a class `cls` whose `__init__` has `initParams`: the
      figure holds one field per parameter after `self` other than `**kwargs`, in order. */
  function ClassInitInputFigure(cls: nat, initParams: seq<Parameter>): (r: Extraction)
    requires LegalSignature(initParams)
    ensures r.CannotProvide? <==> HasVarPositional(Slice(initParams, 1))
    ensures r.Extracted? ==> r.figure.ctor == cls
    ensures r.Extracted? ==> (r.figure.extra == ExtraKwargs <==> HasVarKeyword(Slice(initParams, 1)))
    ensures r.Extracted? ==> (r.figure.extra == NoExtra <==> !HasVarKeyword(Slice(initParams, 1)))
    ensures r.Extracted? ==> |r.figure.fields| == |NonKwargs(Slice(initParams, 1))|
    ensures r.Extracted? ==> forall i :: 0 <= i < |r.figure.fields| ==>
      FieldFromParam(NonKwargs(Slice(initParams, 1))[i], r.figure.fields[i])
  {
    var ps := Slice(initParams, 1);
    if HasVarPositional(ps) then CannotProvide
    else
      KeptParamsLegal(initParams);
      var kept := NonKwargs(ps);
      var fields := InitFields(initParams);
      FieldsOfLegalConsistent(kept, fields);
      assert forall i :: 0 <= i < |kept| ==> FieldFromParam(kept[i], fields[i]) by {
        forall i | 0 <= i < |kept| ensures FieldFromParam(kept[i], fields[i]) {
          InitFieldFromParam(kept[i]);
        }
      }
      var made := MakeInputFieldsFigure(cls, if HasVarKeyword(ps) then ExtraKwargs else NoExtra, fields);
      Extracted(made.figure)
  }

  /** A field is determined by the parameter it comes from. */
  lemma FieldFromParamDetermines(p: Parameter, f: InputFieldRM, g: InputFieldRM)
    requires FieldFromParam(p, f) && FieldFromParam(p, g)
    ensures f == g
  {
  }

  lemma SliceWithTrailingKwargs(initParams: seq<Parameter>, kw: Parameter)
    requires |initParams| >= 1 && kw.kind == VarKeyword
    ensures NonKwargs(Slice(initParams + [kw], 1)) == NonKwargs(Slice(initParams, 1))
    ensures HasVarKeyword(Slice(initParams + [kw], 1))
    ensures HasVarPositional(Slice(initParams + [kw], 1)) == HasVarPositional(Slice(initParams, 1))
  {
    var s := Slice(initParams, 1);
    var s' := Slice(initParams + [kw], 1);
    assert s' == s + [kw];
    NonKwargsAppend(s, [kw]);
    assert NonKwargs([kw]) == [];
    assert s'[|s|] == kw;
    if HasVarPositional(s) {
      var k :| 0 <= k < |s| && s[k].kind == VarPositional;
      assert s'[k] == s[k];
    }
    if HasVarPositional(s') {
      var k :| 0 <= k < |s'| && s'[k].kind == VarPositional;
      assert s'[k] == s[k];
    }
  }

  /** Adding `**kwargs` to `__init__` changes only `extra`, to `ExtraKwargs`. */
  lemma ClassInitTrailingKwargs(cls: nat, initParams: seq<Parameter>, kw: Parameter)
    requires |initParams| >= 1 && kw.kind == VarKeyword
    requires LegalSignature(initParams) && LegalSignature(initParams + [kw])
    ensures ClassInitInputFigure(cls, initParams).Extracted? ==>
      ClassInitInputFigure(cls, initParams + [kw]) ==
      Extracted(InputFieldsFigure(cls, ExtraKwargs, ClassInitInputFigure(cls, initParams).figure.fields))
  {
    SliceWithTrailingKwargs(initParams, kw);
    var r := ClassInitInputFigure(cls, initParams);
    var r' := ClassInitInputFigure(cls, initParams + [kw]);
    if r.Extracted? {
      var kept := NonKwargs(Slice(initParams, 1));
      forall i | 0 <= i < |kept| ensures r.figure.fields[i] == r'.figure.fields[i] {
        FieldFromParamDetermines(kept[i], r.figure.fields[i], r'.figure.fields[i]);
      }
    }
  }

  function Param(name: string, kind: InspectKind, annotation: Option<TypeHint>, default: Option<Value>): Parameter
  {
    Parameter(name, kind, annotation, default)
  }

  const IntHint: TypeHint := Hint(1)
  const StrHint: TypeHint := Hint(2)

  /** `def __init__(self, a, b: int, c: str = 'abc', *, d, **data)` of `Valid2Kwargs`;
      `Valid1` has the same parameters without `**data`. */
  function Valid2Params(): seq<Parameter>
  {
    [ Param("self", PositionalOrKeyword, None, None),
      Param("a", PositionalOrKeyword, None, None),
      Param("b", PositionalOrKeyword, Some(IntHint), None),
      Param("c", PositionalOrKeyword, Some(StrHint), Some(VStr("abc"))),
      Param("d", KeywordOnly, None, None),
      Param("data", VarKeyword, None, None) ]
  }

  function Valid1Params(): seq<Parameter>
  {
    Valid2Params()[..5]
  }

  function ValidFields(): seq<InputFieldRM>
  {
    [ InputFieldRM("a", AnyHint, NoDefault, true, map[], PosOrKw),
      InputFieldRM("b", IntHint, NoDefault, true, map[], PosOrKw),
      InputFieldRM("c", StrHint, DefaultValue(VStr("abc")), false, map[], PosOrKw),
      InputFieldRM("d", AnyHint, NoDefault, true, map[], KwOnly) ]
  }

  lemma ValidParamsLegal()
    ensures LegalSignature(Valid2Params()) && LegalSignature(Valid1Params())
  {
    var ps := Valid2Params();
    forall i, j | 0 <= i < j < |ps| ensures Compatible(ps[i], ps[j]) {
      if i == 0 {} else if i == 1 {} else if i == 2 {} else if i == 3 {} else {}
    }
    LegalSignaturePrefix(ps, 5);
  }

  /** `Valid1` gets the four fields with no extra. */
  lemma ExtraNone(cls: nat)
    ensures LegalSignature(Valid1Params())
    ensures ClassInitInputFigure(cls, Valid1Params()) == Extracted(InputFieldsFigure(cls, NoExtra, ValidFields()))
  {
    ValidParamsLegal();
    var s := Slice(Valid1Params(), 1);
    assert s[0].kind == PositionalOrKeyword && s[1].kind == PositionalOrKeyword && s[2].kind == PositionalOrKeyword
      && s[3].kind == KeywordOnly && |s| == 4;
    assert !HasVarKeyword(s) && !HasVarPositional(s);
    NonKwargsWithoutVarKeyword(s);
    var f := ClassInitInputFigure(cls, Valid1Params()).figure.fields;
    assert FieldFromParam(s[0], f[0]) && FieldFromParam(s[1], f[1]) && FieldFromParam(s[2], f[2]) && FieldFromParam(s[3], f[3]);
    assert f == ValidFields();
  }

  /** `Valid2Kwargs` gets the same fields with `ExtraKwargs`. */
  lemma ExtraKwargsCase(cls: nat)
    ensures LegalSignature(Valid2Params())
    ensures ClassInitInputFigure(cls, Valid2Params()) == Extracted(InputFieldsFigure(cls, ExtraKwargs, ValidFields()))
  {
    ValidParamsLegal();
    ExtraNone(cls);
    assert Valid2Params() == Valid1Params() + [Param("data", VarKeyword, None, None)];
    ClassInitTrailingKwargs(cls, Valid1Params(), Param("data", VarKeyword, None, None));
  }

  /** `def __init__(self, a, /, b)`: the later API gives `a` the kind `POS_ONLY`, while the
      3.0 `ClassInitFieldsProvider` refuses the same class. */
  lemma PosOnlyAcceptedHereRefusedBefore(cls: nat, c: Fields.ClassInfo)
    requires c.isType
    requires c.initParams == [
      Param("self", PositionalOnly, None, None),
      Param("a", PositionalOnly, None, None),
      Param("b", PositionalOrKeyword, None, None)]
    ensures LegalSignature(c.initParams)
    ensures ClassInitInputFigure(cls, c.initParams) == Extracted(InputFieldsFigure(cls, NoExtra, [
      InputFieldRM("a", AnyHint, NoDefault, true, map[], PosOnly),
      InputFieldRM("b", AnyHint, NoDefault, true, map[], PosOrKw)]))
    ensures Fields.ClassInitInputFigure(c) == Fields.CannotProvide
  {
    var ps := c.initParams;
    forall i, j | 0 <= i < j < |ps| ensures Compatible(ps[i], ps[j]) {
      if i == 0 {} else {}
    }
    var s := Slice(ps, 1);
    assert !HasVarKeyword(s) && !HasVarPositional(s);
    NonKwargsWithoutVarKeyword(s);
    var f := ClassInitInputFigure(cls, ps).figure.fields;
    assert FieldFromParam(s[0], f[0]) && FieldFromParam(s[1], f[1]);
    Fields.GetFuncIffRejectsPositionalOnly(ps, 1, 1);
  }

  /** `def __init__(self, a, b, *args)` is refused. */
  lemma VarArgRefused(cls: nat)
    ensures LegalSignature(VarArgParams())
    ensures ClassInitInputFigure(cls, VarArgParams()) == CannotProvide
  {
    var ps := VarArgParams();
    forall i, j | 0 <= i < j < |ps| ensures Compatible(ps[i], ps[j]) {
      if i == 0 {} else if i == 1 {} else {}
    }
    assert Slice(ps, 1)[2].kind == VarPositional;
  }

  function VarArgParams(): seq<Parameter>
  {
    [ Param("self", PositionalOrKeyword, None, None), Param("a", PositionalOrKeyword, None, None),
      Param("b", PositionalOrKeyword, None, None), Param("args", VarPositional, None, None) ]
  }
}
