/** The loader and dumper closures that the providers return, as small
    execution nodes, and the evaluator that calls them. Loaders and dumpers
    resolved by other providers are leaves evaluated by a function parameter. */
module Loaders {
  import opened Values
  import opened LoadErrors
  import opened Literals
  import opened UnionFolds
  import opened SpecialCases

  datatype Loader =
    | LeafLoader(id: nat)                                  // a loader built elsewhere
    | NoneLoaderNode                                       // `none_loader`
    | LiteralNode(literal: LiteralLoader)                  // `literal_loader` / `literal_loader_sc`
    | OptionalLoader(trail: DebugTrail, inner: Loader)     // `optional_dt_loader` / `optional_dt_disable_loader`
    | UnionLoader(trail: DebugTrail, candidates: seq<Loader>)  // the three `union_loader*` closures

  /** What each leaf loader does with the data. */
  type LeafLoaders = (nat, Value) -> Outcome

  /** Calls loader `l` on `data`. */
  function Run(l: Loader, data: Value, leaf: LeafLoaders): (r: Outcome)
    ensures (l.NoneLoaderNode? || l.LiteralNode?) && r.Ok? ==> r.value == data
    ensures l.NoneLoaderNode? ==> (r.Ok? <==> data == VNone)
    ensures l.OptionalLoader? && data == VNone ==> r == Ok(VNone)
    ensures l.OptionalLoader? && l.trail != Disable && data != VNone && IsLoadFailure(r) ==>
      r.exc.UnionLoadError? && |r.exc.errors| == 2 && r.exc.errors[0] == TypeLoadError(NoneType, Some(data))
    ensures l.UnionLoader? && |l.candidates| == 0 ==>
      r == if l.trail == Disable then Raised(LoadError) else Raised(UnionLoadError([]))
    ensures l.UnionLoader? && r.Ok? && l.trail != All ==>
      exists i :: 0 <= i < |l.candidates| && r == Run(l.candidates[i], data, leaf)
    decreases l
  {
    match l
    case LeafLoader(id) => leaf(id, data)
    case NoneLoaderNode => NoneLoader(data)
    case LiteralNode(lit) => LiteralLoad(lit, data)
    case OptionalLoader(trail, inner) =>
      if data == VNone then Ok(VNone)
      else
        var o := Run(inner, data, leaf);
        if trail != Disable && IsLoadFailure(o)
        then Raised(UnionLoadError([TypeLoadError(NoneType, Some(data)), o.exc]))
        else o
    case UnionLoader(trail, cs) =>
      Fold(trail, seq(|cs|, i requires 0 <= i < |cs| => Run(cs[i], data, leaf)))
  }

  /** The outcome each candidate would have on `data`. */
  function Outcomes(cs: seq<Loader>, data: Value, leaf: LeafLoaders): (os: seq<Outcome>)
    ensures |os| == |cs|
    ensures forall i :: 0 <= i < |cs| ==> os[i] == Run(cs[i], data, leaf)
  {
    seq(|cs|, i requires 0 <= i < |cs| => Run(cs[i], data, leaf))
  }

  /** One entry of the `ClassDispatcher` built by the union dumper. */
  datatype DispatchEntry = DispatchEntry(cls: PyType, dumper: Dumper)

  datatype Dumper =
    | LeafDumper(id: nat)                        // a dumper built elsewhere
    | AsIsDumper                                 // `as_is_stub`
    | OptionalDumper(inner: Dumper)              // `optional_dumper`
    | UnionDumper(table: seq<DispatchEntry>)     // `union_dumper` over a class dispatcher

  type LeafDumpers = (nat, Value) -> Outcome

  /** The entry a dict built from `table` keeps for `cls`: the last one with that key. */
  function Lookup(table: seq<DispatchEntry>, cls: PyType): (r: Option<nat>)
    ensures r.Some? ==> r.value < |table| && table[r.value].cls == cls
    ensures r.Some? ==> forall j :: r.value < j < |table| ==> table[j].cls != cls
    ensures r.None? ==> forall j :: 0 <= j < |table| ==> table[j].cls != cls
  {
    if |table| == 0 then None
    else if table[|table| - 1].cls == cls then Some(|table| - 1)
    else Lookup(table[..|table| - 1], cls)
  }

  /** Class dispatch: the first class of the runtime class's MRO that has an entry. */
  function Dispatch(table: seq<DispatchEntry>, mro: seq<PyType>): (r: Option<nat>)
    ensures r.Some? ==> r.value < |table|
    ensures |mro| > 0 && Lookup(table, mro[0]).Some? ==> r == Lookup(table, mro[0])
    ensures r.None? ==> forall k :: 0 <= k < |mro| ==> Lookup(table, mro[k]).None?
    ensures r.Some? ==>
      exists k :: 0 <= k < |mro| && r == Lookup(table, mro[k]) && (forall j :: 0 <= j < k ==> Lookup(table, mro[j]).None?)
  {
    if |mro| == 0 then None
    else match Lookup(table, mro[0])
      case Some(i) => Some(i)
      case None =>
        var r := Dispatch(table, mro[1..]);
        if r.Some? then
          var k :| 0 <= k < |mro| - 1 && r == Lookup(table, mro[1..][k]) &&
                   (forall j :: 0 <= j < k ==> Lookup(table, mro[1..][j]).None?);
          assert 0 <= k + 1 < |mro| && r == Lookup(table, mro[k + 1]) &&
                 (forall j :: 0 <= j < k + 1 ==> Lookup(table, mro[j]).None?);
          r
        else r
  }

  /** Calls dumper `d` on `data`; `mroOf` gives the MRO of a runtime class, starting with the class. */
  function Dump(d: Dumper, data: Value, leaf: LeafDumpers, mroOf: PyType -> seq<PyType>): (r: Outcome)
    ensures d.AsIsDumper? ==> r == Ok(data)
    ensures d.OptionalDumper? && data == VNone ==> r == Ok(VNone)
    ensures d.UnionDumper? && (forall k :: 0 <= k < |mroOf(TypeOf(data))| ==> Lookup(d.table, mroOf(TypeOf(data))[k]).None?) ==>
      r == Raised(DispatchKeyError(TypeOf(data)))
    decreases d
  {
    match d
    case LeafDumper(id) => leaf(id, data)
    case AsIsDumper => Ok(AsIsStub(data))
    case OptionalDumper(inner) =>
      if data == VNone then Ok(VNone) else Dump(inner, data, leaf, mroOf)
    case UnionDumper(table) =>
      match Dispatch(table, mroOf(TypeOf(data)))
      case None => Raised(DispatchKeyError(TypeOf(data)))
      case Some(i) =>
        assert table[i] in table;
        Dump(table[i].dumper, data, leaf, mroOf)
  }
}
