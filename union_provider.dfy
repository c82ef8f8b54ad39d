/** `UnionProvider`: loaders and dumpers for `Union[...]` and `Optional[...]`. */
module UnionProvider {
  import opened Values
  import opened LoadErrors
  import opened UnionFolds
  import opened Loaders
  import opened Provisions

  /** The normalised origin of a union case: `None` (the case `None` itself),
      a class (and whether it is a subclass of `collections.abc.Callable`), or
      something that is not a class. */
  datatype Origin =
    | NoneOrigin
    | ClassOrigin(cls: PyType, callableSubclass: bool)
    | NonClassOrigin(id: nat)

  /** A case of the normalised union: its origin and the type hint it came from. */
  datatype Case = Case(origin: Origin, source: TypeHint)

  /** Normalisation removes duplicate `None` cases. */
  predicate Normalised(cases: seq<Case>)
  {
    forall i, j :: 0 <= i < j < |cases| && cases[i].origin == NoneOrigin ==> cases[j].origin != NoneOrigin
  }

  /** `_is_single_optional`: two cases, one of them `None`. */
  predicate IsSingleOptional(cases: seq<Case>)
    ensures IsSingleOptional(cases) && Normalised(cases) ==>
      |cases| == 2 && (cases[0].origin == NoneOrigin <==> cases[1].origin != NoneOrigin)
  {
    |cases| == 2 && exists i :: 0 <= i < |cases| && cases[i].origin == NoneOrigin
  }

  /** The position of the case that is not `None` in a single optional. */
  function NotNoneIndex(cases: seq<Case>): (k: nat)
    requires Normalised(cases) && IsSingleOptional(cases)
    ensures k < 2 && cases[k].origin != NoneOrigin && cases[1 - k].origin == NoneOrigin
  {
    if cases[0].origin != NoneOrigin then 0 else 1
  }

  /** `_is_class_origin`: `None` or a class, and not a `Callable` subclass. */
  predicate IsClassOrigin(o: Origin)
    ensures IsClassOrigin(o) <==> (o.NoneOrigin? || o.ClassOrigin?) && !(o.ClassOrigin? && o.callableSubclass)
  {
    match o
    case NoneOrigin => true
    case ClassOrigin(_, callableSubclass) => !callableSubclass
    case NonClassOrigin(_) => false
  }

  /** The dispatcher key of a class case: `type(None)` for `None`, the origin otherwise. */
  function DispatchKey(o: Origin): PyType
    requires IsClassOrigin(o)
  {
    match o
    case NoneOrigin => NoneType
    case ClassOrigin(cls, _) => cls
  }

  /** The mediator's answer to a sub-request for the case with this type hint at this generic position. */
  type Resolver<T> = (TypeHint, nat) -> Option<T>

  /** The sub-requests of the general case all succeeded. */
  predicate AllResolved<T>(cases: seq<Case>, resolve: Resolver<T>)
  {
    forall i :: 0 <= i < |cases| ==> resolve(cases[i].source, i).Some?
  }

  /** `UnionProvider._provide_loader`, given the debug-trail setting and the mediator's answers. */
  function ProvideLoader(cases: seq<Case>, trail: DebugTrail, resolve: Resolver<Loader>): (r: Provision<Loader>)
    requires Normalised(cases)
    ensures !r.CannotProvide?
    ensures IsSingleOptional(cases) ==>
      var sub := resolve(cases[NotNoneIndex(cases)].source, 0);
      && (r.Provided? <==> sub.Some?)
      && (r.Provided? ==> r.value == OptionalLoader(trail, sub.value))
    ensures !IsSingleOptional(cases) ==>
      && (r.Provided? <==> AllResolved(cases, resolve))
      && (r.Provided? ==> r.value.UnionLoader? && r.value.trail == trail && |r.value.candidates| == |cases|)
      && (r.Provided? ==> forall i :: 0 <= i < |cases| ==> Some(r.value.candidates[i]) == resolve(cases[i].source, i))
  {
    if IsSingleOptional(cases) then
      match resolve(cases[NotNoneIndex(cases)].source, 0)
      case None => SubRequestFailed
      case Some(l) => Provided(OptionalLoader(trail, l))
    else if AllResolved(cases, resolve) then
      Provided(UnionLoader(trail, seq(|cases|, i requires 0 <= i < |cases| && resolve(cases[i].source, i).Some? =>
        resolve(cases[i].source, i).value)))
    else SubRequestFailed
  }

  // ---- the optional loaders ----

  /** Loading `None` through an optional loader gives `None` whatever the inner loader would do. */
  lemma OptionalLoadsNoneWithoutInner(cases: seq<Case>, trail: DebugTrail, resolve: Resolver<Loader>, leaf: LeafLoaders)
    requires Normalised(cases) && IsSingleOptional(cases)
    requires ProvideLoader(cases, trail, resolve).Provided?
    ensures Run(ProvideLoader(cases, trail, resolve).value, VNone, leaf) == Ok(VNone)
  {
  }

  /** For other data: a success or an unexpected exception of the inner loader comes through
      unchanged; a LoadError `e` is wrapped as `UnionLoadError([TypeLoadError(None, data), e])`
      under FIRST and ALL, and comes through unchanged under DISABLE. */
  lemma OptionalLoaderOnValue(trail: DebugTrail, inner: Loader, data: Value, leaf: LeafLoaders)
    requires data != VNone
    ensures var o, r := Run(inner, data, leaf), Run(OptionalLoader(trail, inner), data, leaf);
      && (!IsLoadFailure(o) ==> r == o)
      && (IsLoadFailure(o) && trail == Disable ==> r == o)
      && (IsLoadFailure(o) && trail != Disable ==>
            r == Raised(UnionLoadError([TypeLoadError(NoneType, Some(data)), o.exc])))
  {
  }

  // ---- the union loader closures ----

  /** `union_loader` (DISABLE): candidates in order, first non-LoadError outcome wins. */
  method UnionLoaderDtDisable(loaders: seq<Loader>, data: Value, leaf: LeafLoaders) returns (r: Outcome, called: nat)
    ensures r == Run(UnionLoader(Disable, loaders), data, leaf)
    ensures called == CallCount(Disable, Outcomes(loaders, data, leaf))
  {
    ghost var os := Outcomes(loaders, data, leaf);
    DisableClosedForm(os);
    var i := 0;
    while i < |loaders|
      invariant 0 <= i <= |loaders|
      invariant forall j :: 0 <= j < i ==> IsLoadFailure(os[j])
    {
      var o := Run(loaders[i], data, leaf);
      if !IsLoadFailure(o) {
        return o, i + 1;
      }
      i := i + 1;
    }
    return Raised(LoadError), |loaders|;
  }

  /** `union_loader_dt_first` (FIRST): as DISABLE, collecting every LoadError. */
  method UnionLoaderDtFirst(loaders: seq<Loader>, data: Value, leaf: LeafLoaders) returns (r: Outcome, called: nat)
    ensures r == Run(UnionLoader(First, loaders), data, leaf)
    ensures called == CallCount(First, Outcomes(loaders, data, leaf))
  {
    ghost var os := Outcomes(loaders, data, leaf);
    FirstClosedForm(os);
    var errors: seq<Exc> := [];
    var i := 0;
    while i < |loaders|
      invariant 0 <= i <= |loaders|
      invariant forall j :: 0 <= j < i ==> IsLoadFailure(os[j])
      invariant errors == Failures(os[..i])
    {
      var o := Run(loaders[i], data, leaf);
      if !IsLoadFailure(o) {
        return o, i + 1;
      }
      FailuresPrefixStep(os, i);
      errors := errors + [o.exc];
      i := i + 1;
    }
    assert os[..i] == os;
    return Raised(UnionLoadError(errors)), |loaders|;
  }

  /** `union_loader_dt_all` (ALL): a success is returned only while no unexpected
      exception has been seen; afterwards successes are dropped and every error is
      collected. */
  method UnionLoaderDtAll(loaders: seq<Loader>, data: Value, leaf: LeafLoaders) returns (r: Outcome, called: nat)
    ensures r == Run(UnionLoader(All, loaders), data, leaf)
    ensures called == CallCount(All, Outcomes(loaders, data, leaf))
  {
    ghost var os := Outcomes(loaders, data, leaf);
    assert Run(UnionLoader(All, loaders), data, leaf) == Fold(All, os);
    var errors: seq<Exc> := [];
    var hasUnexpectedError := false;
    var i := 0;
    while i < |loaders|
      invariant 0 <= i <= |loaders|
      invariant AllScanned(os, i, errors, hasUnexpectedError)
    {
      var o := Run(loaders[i], data, leaf);
      AllScanStep(os, i, errors, hasUnexpectedError);
      if o.Ok? && !hasUnexpectedError {
        return o, i + 1;
      }
      if o.Raised? {
        errors := errors + [o.exc];
        if !IsLoadError(o.exc) {
          hasUnexpectedError := true;
        }
      }
      i := i + 1;
    }
    AllScanDone(os, errors, hasUnexpectedError);
    if hasUnexpectedError {
      return Raised(ExceptionGroup(errors)), |loaders|;
    }
    return Raised(UnionLoadError(errors)), |loaders|;
  }

  // ---- the dumpers ----

  /** The dispatch table for the general case: one entry per case, in case order. */
  function DispatchTable(cases: seq<Case>, dumpers: seq<Dumper>): (t: seq<DispatchEntry>)
    requires |dumpers| == |cases|
    requires forall i :: 0 <= i < |cases| ==> IsClassOrigin(cases[i].origin)
    ensures |t| == |cases|
    ensures forall i :: 0 <= i < |cases| ==> t[i] == DispatchEntry(DispatchKey(cases[i].origin), dumpers[i])
  {
    seq(|cases|, i requires 0 <= i < |cases| => DispatchEntry(DispatchKey(cases[i].origin), dumpers[i]))
  }

  function Resolved<T>(cases: seq<Case>, resolve: Resolver<T>): (ds: seq<T>)
    requires AllResolved(cases, resolve)
    ensures |ds| == |cases|
    ensures forall i :: 0 <= i < |cases| ==> Some(ds[i]) == resolve(cases[i].source, i)
  {
    seq(|cases|, i requires 0 <= i < |cases| => resolve(cases[i].source, i).value)
  }

  /** `UnionProvider._provide_dumper`, given the mediator's answers. */
  function ProvideDumper(cases: seq<Case>, resolve: Resolver<Dumper>): (r: Provision<Dumper>)
    requires Normalised(cases)
    ensures r.CannotProvide? <==>
      !IsSingleOptional(cases) && exists i :: 0 <= i < |cases| && !IsClassOrigin(cases[i].origin)
    ensures r.CannotProvide? ==> r.terminal
    ensures IsSingleOptional(cases) ==>
      var sub := resolve(cases[NotNoneIndex(cases)].source, 0);
      && (r.Provided? <==> sub.Some?)
      && (r.Provided? ==> r.value == if sub.value == AsIsDumper then AsIsDumper else OptionalDumper(sub.value))
  {
    if IsSingleOptional(cases) then
      match resolve(cases[NotNoneIndex(cases)].source, 0)
      case None => SubRequestFailed
      case Some(d) => if d == AsIsDumper then Provided(AsIsDumper) else Provided(OptionalDumper(d))
    else if exists i :: 0 <= i < |cases| && !IsClassOrigin(cases[i].origin) then
      CannotProvide(true)
    else if !AllResolved(cases, resolve) then
      SubRequestFailed
    else
      var dumpers := Resolved(cases, resolve);
      if forall i :: 0 <= i < |dumpers| ==> dumpers[i] == AsIsDumper then Provided(AsIsDumper)
      else Provided(UnionDumper(DispatchTable(cases, dumpers)))
  }

  /** In the general case the provider yields the identity stub exactly when every case
      dumper is the stub, and otherwise a dumper dispatching on one entry per case. */
  lemma GeneralDumperShape(cases: seq<Case>, resolve: Resolver<Dumper>)
    requires Normalised(cases) && !IsSingleOptional(cases)
    requires forall i :: 0 <= i < |cases| ==> IsClassOrigin(cases[i].origin)
    ensures ProvideDumper(cases, resolve).Provided? <==> AllResolved(cases, resolve)
    ensures var r := ProvideDumper(cases, resolve);
      r.Provided? ==>
        if forall i :: 0 <= i < |cases| ==> resolve(cases[i].source, i) == Some(AsIsDumper)
        then r.value == AsIsDumper
        else r.value == UnionDumper(DispatchTable(cases, Resolved(cases, resolve)))
  {
    if AllResolved(cases, resolve) {
      var ds := Resolved(cases, resolve);
      assert (forall i :: 0 <= i < |ds| ==> ds[i] == AsIsDumper) <==>
             (forall i :: 0 <= i < |cases| ==> resolve(cases[i].source, i) == Some(AsIsDumper));
    }
  }

  /** The optional dumper passes `None` through and hands everything else to the inner dumper;
      collapsing it to the stub when the inner dumper is the stub changes nothing. */
  lemma OptionalDumperBehaviour(inner: Dumper, data: Value, leaf: LeafDumpers, mroOf: PyType -> seq<PyType>)
    ensures Dump(OptionalDumper(inner), VNone, leaf, mroOf) == Ok(VNone)
    ensures data != VNone ==> Dump(OptionalDumper(inner), data, leaf, mroOf) == Dump(inner, data, leaf, mroOf)
    ensures Dump(OptionalDumper(AsIsDumper), data, leaf, mroOf) == Dump(AsIsDumper, data, leaf, mroOf)
  {
  }

  /** The general dumper calls the dumper of the case whose key is the runtime class of the
      data (for `None`, `type(None)`), provided that class begins its own MRO and no later
      case has the same key (a later duplicate key replaces an earlier one). */
  lemma UnionDumperDispatchesOnType(cases: seq<Case>, dumpers: seq<Dumper>, i: nat, data: Value,
                                    leaf: LeafDumpers, mroOf: PyType -> seq<PyType>)
    requires |dumpers| == |cases| && i < |cases|
    requires forall j :: 0 <= j < |cases| ==> IsClassOrigin(cases[j].origin)
    requires DispatchKey(cases[i].origin) == TypeOf(data)
    requires forall j :: i < j < |cases| ==> DispatchKey(cases[j].origin) != TypeOf(data)
    requires |mroOf(TypeOf(data))| > 0 && mroOf(TypeOf(data))[0] == TypeOf(data)
    ensures Dump(UnionDumper(DispatchTable(cases, dumpers)), data, leaf, mroOf) == Dump(dumpers[i], data, leaf, mroOf)
  {
    var t := DispatchTable(cases, dumpers);
    var k := Lookup(t, TypeOf(data));
    assert t[i].cls == TypeOf(data);
    assert k.Some? && k.value == i;
  }

  /** Collapsing an all-stub union to the stub agrees with the dispatching dumper on every value
      whose class finds an entry; it differs only in not raising for unregistered classes. */
  lemma AsIsCollapseIsSound(cases: seq<Case>, dumpers: seq<Dumper>, data: Value,
                            leaf: LeafDumpers, mroOf: PyType -> seq<PyType>)
    requires |dumpers| == |cases|
    requires forall j :: 0 <= j < |cases| ==> IsClassOrigin(cases[j].origin) && dumpers[j] == AsIsDumper
    ensures var r := Dump(UnionDumper(DispatchTable(cases, dumpers)), data, leaf, mroOf);
      r == Dump(AsIsDumper, data, leaf, mroOf) || r == Raised(DispatchKeyError(TypeOf(data)))
  {
  }
}
