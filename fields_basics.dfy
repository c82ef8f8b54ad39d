/** The input figure of the later provider API, whose constructor rejects
    inconsistent field lists with a `ValueError`. The rule is stated twice: as a
    declarative predicate over pairs of fields, and as the single left-to-right
    pass a constructor performs; the two are proved to agree. */
module FieldsBasics {
  import opened Values

  /** `ParamKind`: how a constructor parameter may be passed. */
  datatype ParamKind = PosOnly | PosOrKw | KwOnly

  function KindRank(k: ParamKind): nat
  {
    match k
    case PosOnly => 0
    case PosOrKw => 1
    case KwOnly => 2
  }

  predicate IsPositional(k: ParamKind)
  {
    k != KwOnly
  }

  /** `NoDefault()`, `DefaultValue(value)`, `DefaultFactory(factory)`. */
  datatype Default = NoDefault | DefaultValue(value: Value) | DefaultFactory(factory: nat)

  /** `InputFieldRM`. */
  datatype InputFieldRM = InputFieldRM(
    name: string, tp: TypeHint, default: Default, isRequired: bool,
    metadata: map<string, Value>, paramKind: ParamKind)

  /** The unbound extra policy: `None`, `ExtraKwargs()` or `ExtraTargets(fields)`. */
  datatype Extra = NoExtra | ExtraKwargs | ExtraTargets(targets: seq<string>)

  /** `InputFieldsFigure`; `constructor` identifies the callable that builds the object. */
  datatype InputFieldsFigure = InputFieldsFigure(ctor: nat, extra: Extra, fields: seq<InputFieldRM>)

  datatype Construction = Constructed(figure: InputFieldsFigure) | ValueError

  // ---- the rule, pair by pair ----

  /** Kinds never go back from keyword-only to positional, nor from positional-or-keyword to positional-only. */
  predicate KindsOrdered(fs: seq<InputFieldRM>)
  {
    forall i, j :: 0 <= i < j < |fs| ==> KindRank(fs[i].paramKind) <= KindRank(fs[j].paramKind)
  }

  /** No required positional field after an optional positional one. */
  predicate RequiredBeforeOptional(fs: seq<InputFieldRM>)
  {
    forall i, j ::
      0 <= i < j < |fs| && IsPositional(fs[i].paramKind) && IsPositional(fs[j].paramKind) && !fs[i].isRequired
      ==> !fs[j].isRequired
  }

  predicate UniqueNames(fs: seq<InputFieldRM>)
  {
    forall i, j :: 0 <= i < j < |fs| ==> fs[i].name != fs[j].name
  }

  function Names(fs: seq<InputFieldRM>): set<string>
  {
    set i | 0 <= i < |fs| :: fs[i].name
  }

  /** Every extra target names a field of the figure. */
  predicate TargetsKnown(extra: Extra, fs: seq<InputFieldRM>)
  {
    extra.ExtraTargets? ==> forall t :: t in extra.targets ==> t in Names(fs)
  }

  predicate FieldsConsistent(fs: seq<InputFieldRM>)
  {
    KindsOrdered(fs) && RequiredBeforeOptional(fs) && UniqueNames(fs)
  }

  predicate ValidFigure(extra: Extra, fs: seq<InputFieldRM>)
  {
    FieldsConsistent(fs) && TargetsKnown(extra, fs)
  }

  // ---- the rule, as one pass ----

  /** Checks `fs[i..]` given the rank of the previous field, whether an optional positional
      field was seen, and the names seen; yields all names when the fields are consistent. */
  function Scan(fs: seq<InputFieldRM>, i: nat, prevRank: nat, optionalSeen: bool, names: set<string>): Option<set<string>>
    requires i <= |fs|
    decreases |fs| - i
  {
    if i == |fs| then Some(names)
    else
      var f := fs[i];
      if KindRank(f.paramKind) < prevRank then None
      else if IsPositional(f.paramKind) && f.isRequired && optionalSeen then None
      else if f.name in names then None
      else Scan(fs, i + 1, KindRank(f.paramKind), optionalSeen || (IsPositional(f.paramKind) && !f.isRequired), names + {f.name})
  }

  // The pairwise rules restricted to the first `n` fields.

  predicate KindsOrderedUpTo(fs: seq<InputFieldRM>, n: nat)
    requires n <= |fs|
  {
    forall i, j :: 0 <= i < j < n ==> KindRank(fs[i].paramKind) <= KindRank(fs[j].paramKind)
  }

  predicate RequiredBeforeOptionalUpTo(fs: seq<InputFieldRM>, n: nat)
    requires n <= |fs|
  {
    forall i, j ::
      0 <= i < j < n && IsPositional(fs[i].paramKind) && IsPositional(fs[j].paramKind) && !fs[i].isRequired
      ==> !fs[j].isRequired
  }

  predicate UniqueNamesUpTo(fs: seq<InputFieldRM>, n: nat)
    requires n <= |fs|
  {
    forall i, j :: 0 <= i < j < n ==> fs[i].name != fs[j].name
  }

  function NamesUpTo(fs: seq<InputFieldRM>, n: nat): set<string>
    requires n <= |fs|
  {
    set k | 0 <= k < n :: fs[k].name
  }

  predicate ConsistentUpTo(fs: seq<InputFieldRM>, n: nat)
    requires n <= |fs|
  {
    KindsOrderedUpTo(fs, n) && RequiredBeforeOptionalUpTo(fs, n) && UniqueNamesUpTo(fs, n)
  }

  predicate OptionalSeenBefore(fs: seq<InputFieldRM>, n: nat)
    requires n <= |fs|
  {
    exists k :: 0 <= k < n && IsPositional(fs[k].paramKind) && !fs[k].isRequired
  }

  /** The state `Scan` carries after the first `i` fields. */
  predicate ScanState(fs: seq<InputFieldRM>, i: nat, prevRank: nat, optionalSeen: bool, names: set<string>)
    requires i <= |fs|
  {
    && (i == 0 ==> prevRank == 0)
    && (i > 0 ==> prevRank == KindRank(fs[i - 1].paramKind))
    && (optionalSeen <==> OptionalSeenBefore(fs, i))
    && names == NamesUpTo(fs, i)
  }

  lemma KindsExtend(fs: seq<InputFieldRM>, i: nat)
    requires i < |fs| && KindsOrderedUpTo(fs, i)
    requires i > 0 ==> KindRank(fs[i - 1].paramKind) <= KindRank(fs[i].paramKind)
    ensures KindsOrderedUpTo(fs, i + 1)
  {
    forall a, b | 0 <= a < b < i + 1 ensures KindRank(fs[a].paramKind) <= KindRank(fs[b].paramKind) {
      if b == i && a < i - 1 {
        assert KindRank(fs[a].paramKind) <= KindRank(fs[i - 1].paramKind);
      }
    }
  }

  lemma RequiredExtend(fs: seq<InputFieldRM>, i: nat)
    requires i < |fs| && RequiredBeforeOptionalUpTo(fs, i)
    requires !(IsPositional(fs[i].paramKind) && fs[i].isRequired && OptionalSeenBefore(fs, i))
    ensures RequiredBeforeOptionalUpTo(fs, i + 1)
  {
  }

  lemma NamesExtend(fs: seq<InputFieldRM>, i: nat)
    requires i < |fs| && UniqueNamesUpTo(fs, i)
    requires fs[i].name !in NamesUpTo(fs, i)
    ensures UniqueNamesUpTo(fs, i + 1)
    ensures NamesUpTo(fs, i + 1) == NamesUpTo(fs, i) + {fs[i].name}
  {
    forall a | 0 <= a < i ensures fs[a].name != fs[i].name {
      assert fs[a].name in NamesUpTo(fs, i);
    }
  }

  lemma OptionalSeenExtend(fs: seq<InputFieldRM>, i: nat)
    requires i < |fs|
    ensures OptionalSeenBefore(fs, i + 1) <==>
      OptionalSeenBefore(fs, i) || (IsPositional(fs[i].paramKind) && !fs[i].isRequired)
  {
    if OptionalSeenBefore(fs, i + 1) && !OptionalSeenBefore(fs, i) {
      var k :| 0 <= k < i + 1 && IsPositional(fs[k].paramKind) && !fs[k].isRequired;
      assert k == i;
    }
  }

  lemma {:induction false} ScanFrom(fs: seq<InputFieldRM>, i: nat, prevRank: nat, optionalSeen: bool, names: set<string>)
    requires i <= |fs| && ScanState(fs, i, prevRank, optionalSeen, names)
    requires ConsistentUpTo(fs, i)
    ensures Scan(fs, i, prevRank, optionalSeen, names).Some? <==> FieldsConsistent(fs)
    ensures Scan(fs, i, prevRank, optionalSeen, names).Some? ==> Scan(fs, i, prevRank, optionalSeen, names).value == Names(fs)
    decreases |fs| - i
  {
    var n := |fs|;
    if i == n {
      assert ConsistentUpTo(fs, n) == FieldsConsistent(fs);
    } else {
      var f := fs[i];
      if KindRank(f.paramKind) < prevRank {
        assert KindRank(fs[i - 1].paramKind) > KindRank(fs[i].paramKind);
      } else if IsPositional(f.paramKind) && f.isRequired && optionalSeen {
        var k :| 0 <= k < i && IsPositional(fs[k].paramKind) && !fs[k].isRequired;
        assert 0 <= k < i < |fs|;
      } else if f.name in names {
        var k :| 0 <= k < i && fs[k].name == f.name;
        assert fs[k].name == fs[i].name;
      } else {
        KindsExtend(fs, i);
        RequiredExtend(fs, i);
        NamesExtend(fs, i);
        OptionalSeenExtend(fs, i);
        var optionalSeen' := optionalSeen || (IsPositional(f.paramKind) && !f.isRequired);
        ScanFrom(fs, i + 1, KindRank(f.paramKind), optionalSeen', names + {f.name});
      }
    }
  }

  /** The one-pass check accepts exactly the consistent field lists, and collects their names. */
  lemma ScanIsConsistency(fs: seq<InputFieldRM>)
    ensures Scan(fs, 0, 0, false, {}).Some? <==> FieldsConsistent(fs)
    ensures Scan(fs, 0, 0, false, {}).Some? ==> Scan(fs, 0, 0, false, {}).value == Names(fs)
  {
    ScanFrom(fs, 0, 0, false, {});
  }

  /** `InputFieldsFigure(ctor, extra, fields)`: the figure, or `ValueError`. */
  function MakeInputFieldsFigure(ctor: nat, extra: Extra, fields: seq<InputFieldRM>): (r: Construction)
    ensures r.Constructed? <==> ValidFigure(extra, fields)
    ensures r.Constructed? ==> r.figure == InputFieldsFigure(ctor, extra, fields)
  {
    ScanIsConsistency(fields);
    match Scan(fields, 0, 0, false, {})
    case None => ValueError
    case Some(names) =>
      if extra.ExtraTargets? && exists t :: t in extra.targets && t !in names then ValueError
      else Constructed(InputFieldsFigure(ctor, extra, fields))
  }

  // ---- consequences ----

  /** A kind that goes backwards is rejected whatever the names, defaults and requiredness. */
  lemma KindOrderViolationRejected(ctor: nat, extra: Extra, fields: seq<InputFieldRM>, i: nat, j: nat)
    requires i < j < |fields| && KindRank(fields[i].paramKind) > KindRank(fields[j].paramKind)
    ensures MakeInputFieldsFigure(ctor, extra, fields) == ValueError
  {
  }

  /** A required positional field after an optional positional one is rejected, across the
      positional-only / positional-or-keyword boundary too. */
  lemma RequiredAfterOptionalRejected(ctor: nat, extra: Extra, fields: seq<InputFieldRM>, i: nat, j: nat)
    requires i < j < |fields|
    requires IsPositional(fields[i].paramKind) && IsPositional(fields[j].paramKind)
    requires !fields[i].isRequired && fields[j].isRequired
    ensures MakeInputFieldsFigure(ctor, extra, fields) == ValueError
  {
  }

  lemma DuplicateNameRejected(ctor: nat, extra: Extra, fields: seq<InputFieldRM>, i: nat, j: nat)
    requires i < j < |fields| && fields[i].name == fields[j].name
    ensures MakeInputFieldsFigure(ctor, extra, fields) == ValueError
  {
  }

  lemma UnknownTargetRejected(ctor: nat, fields: seq<InputFieldRM>, targets: seq<string>, t: string)
    requires t in targets && forall i :: 0 <= i < |fields| ==> fields[i].name != t
    ensures MakeInputFieldsFigure(ctor, ExtraTargets(targets), fields) == ValueError
  {
  }

  function Field(name: string, isRequired: bool, kind: ParamKind): InputFieldRM
  {
    InputFieldRM(name, Hint(0), NoDefault, isRequired, map[], kind)
  }

  /** Two fields named `a` whose kinds go backwards are rejected; with distinct names they
      still are, so the kind order alone decides. */
  lemma InconsistentFieldsOrder(first: ParamKind, second: ParamKind)
    requires (first, second) in {(KwOnly, PosOnly), (KwOnly, PosOrKw), (PosOrKw, PosOnly)}
    ensures MakeInputFieldsFigure(0, NoExtra, [Field("a", true, first), Field("a", true, second)]) == ValueError
    ensures MakeInputFieldsFigure(0, NoExtra, [Field("a", true, first), Field("b", true, second)]) == ValueError
  {
    KindOrderViolationRejected(0, NoExtra, [Field("a", true, first), Field("a", true, second)], 0, 1);
    KindOrderViolationRejected(0, NoExtra, [Field("a", true, first), Field("b", true, second)], 0, 1);
  }

  /** Required `a`, optional `b`, required `c`. */
  function Triple(first: ParamKind, second: ParamKind, third: ParamKind): seq<InputFieldRM>
  {
    [Field("a", true, first), Field("b", false, second), Field("c", true, third)]
  }

  /** With all three positional and in kind order, the required `c` after the optional `b` is rejected. */
  lemma BadNonRequiredFieldOrder(first: ParamKind, second: ParamKind, third: ParamKind)
    requires IsPositional(second) && IsPositional(third)
    ensures MakeInputFieldsFigure(0, NoExtra, Triple(first, second, third)) == ValueError
  {
    RequiredAfterOptionalRejected(0, NoExtra, Triple(first, second, third), 1, 2);
  }

  /** A keyword-only `c` may be required after the optional `b`: any kind order ending in
      keyword-only is accepted. */
  lemma OkNonRequiredFieldOrder(first: ParamKind, second: ParamKind)
    requires KindRank(first) <= KindRank(second)
    ensures MakeInputFieldsFigure(0, NoExtra, Triple(first, second, KwOnly)).Constructed?
  {
    var fs := Triple(first, second, KwOnly);
    assert fs[0].name == "a" && fs[1].name == "b" && fs[2].name == "c";
  }

  lemma NameDuplicates()
    ensures MakeInputFieldsFigure(0, NoExtra, [Field("a", true, PosOrKw), Field("a", true, PosOrKw)]) == ValueError
  {
    DuplicateNameRejected(0, NoExtra, [Field("a", true, PosOrKw), Field("a", true, PosOrKw)], 0, 1);
  }

  lemma WildTargets()
    ensures MakeInputFieldsFigure(0, ExtraTargets(["b"]), [Field("a", true, PosOrKw)]) == ValueError
  {
    UnknownTargetRejected(0, [Field("a", true, PosOrKw)], ["b"], "b");
  }
}
