/** `LiteralProvider`: loaders and dumpers for `Literal[...]`. */
module LiteralProvider {
  import opened Values
  import opened LoadErrors
  import opened Literals
  import opened Loaders
  import opened Provisions
  import opened UnionFolds

  /** `tuple_size_limit`: above this many args a hash set is used. */
  const TupleSizeLimit: int := 4

  /** Some arg is an `Enum` member. */
  predicate HasEnum(args: seq<Value>)
  {
    exists i :: 0 <= i < |args| && args[i].VEnum?
  }

  /** `_is_exact_zero_or_one`: an `int` (not a `bool`, not a `float`) that is `==` to a `bool`. */
  predicate IsExactZeroOrOne(v: Value)
    ensures IsExactZeroOrOne(v) <==> TypeOf(v) == IntType && (PyEq(v, VBool(false)) || PyEq(v, VBool(true)))
  {
    v.VInt? && (v.i == 0 || v.i == 1)
  }

  /** Some arg is unhashable, so `set(args)` raises `TypeError`. */
  predicate HasUnhashable(args: seq<Value>)
  {
    exists i :: 0 <= i < |args| && !Hashable(args[i])
  }

  /** Some arg is a `bool` or an exact int 0 or 1, so that `==` could confuse it with another arg. */
  predicate HasBoolLike(args: seq<Value>)
  {
    exists i :: 0 <= i < |args| && (args[i].VBool? || IsExactZeroOrOne(args[i]))
  }

  /** `LiteralProvider._provide_loader`; `args` are the literal's args after
      `strip_annotated`, `strictCoercion` the answer to the strict-coercion request. */
  function ProvideLiteralLoader(args: seq<Value>, strictCoercion: bool, sizeLimit: int): (r: Provision<Loader>)
    ensures r.CannotProvide? <==> HasEnum(args)
    ensures r.CannotProvide? ==> r.terminal
    ensures r.ProviderRaised? <==> !HasEnum(args) && HasUnhashable(args)
    ensures r.ProviderRaised? ==> r.exc == UnhashableTypeError
    ensures !r.SubRequestFailed?
    ensures r.Provided? ==> r.value.LiteralNode? && r.value.literal.allowedRepr == ValueSet(args)
    ensures r.Provided? ==> r.value.literal.strict == (strictCoercion && HasBoolLike(args))
    ensures r.Provided? ==> (r.value.literal.allowed.SetColl? <==> |args| > sizeLimit)
  {
    if HasEnum(args) then CannotProvide(true)
    else if HasUnhashable(args) then ProviderRaised(UnhashableTypeError)
    else if strictCoercion && HasBoolLike(args) then
      Provided(LiteralNode(LiteralLoader(AllowedCollection(TypedKeys(args), sizeLimit), true, ValueSet(args))))
    else
      Provided(LiteralNode(LiteralLoader(AllowedCollection(PlainKeys(args), sizeLimit), false, ValueSet(args))))
  }

  /** `LiteralProvider._provide_dumper`. */
  function ProvideLiteralDumper(args: seq<Value>): (r: Provision<Dumper>)
    ensures r.CannotProvide? <==> HasEnum(args)
    ensures r.CannotProvide? ==> r.terminal
    ensures r.Provided? ==> r.value == AsIsDumper
    ensures r.Provided? || r.CannotProvide?
  {
    if HasEnum(args) then CannotProvide(true) else Provided(AsIsDumper)
  }

  /** The literal dumper returns every value unchanged. */
  lemma LiteralDumperIsIdentity(args: seq<Value>, data: Value, leaf: LeafDumpers, mroOf: PyType -> seq<PyType>)
    requires !HasEnum(args)
    ensures Dump(ProvideLiteralDumper(args).value, data, leaf, mroOf) == Ok(data)
  {
  }

  /** Without strict coercion in force, the loader returns `data` unchanged iff it is `==` to
      some arg, and otherwise raises `BadVariantError(set(args), data)`; the tuple and the set
      representations give the same answer, except that the set raises `TypeError` on
      unhashable data. */
  lemma LiteralLoaderNonStrict(args: seq<Value>, strictCoercion: bool, sizeLimit: int, data: Value, leaf: LeafLoaders)
    requires !HasEnum(args) && !HasUnhashable(args)
    requires !(strictCoercion && HasBoolLike(args))
    ensures Run(ProvideLiteralLoader(args, strictCoercion, sizeLimit).value, data, leaf) ==
      if |args| > sizeLimit && !Hashable(data) then Raised(UnhashableTypeError)
      else if exists i :: 0 <= i < |args| && PyEq(args[i], data) then Ok(data)
      else Raised(BadVariantError(ValueSet(args), data))
  {
    var keys := PlainKeys(args);
    if |args| <= sizeLimit || Hashable(data) {
      AllowedCollectionMembership(keys, sizeLimit, Plain(data));
      assert (exists i :: 0 <= i < |keys| && KeyEq(keys[i], Plain(data))) <==>
             (exists i :: 0 <= i < |args| && PyEq(args[i], data)) by {
        forall i | 0 <= i < |args| ensures KeyEq(keys[i], Plain(data)) == PyEq(args[i], data) { }
      }
    }
  }

  /** With strict coercion in force, membership is by `(type(data), data)`: the loader accepts
      exactly the values structurally equal to an arg, so `True` and `1` stay distinct; the set
      representation raises `TypeError` on unhashable data. */
  lemma LiteralLoaderStrict(args: seq<Value>, sizeLimit: int, data: Value, leaf: LeafLoaders)
    requires !HasEnum(args) && !HasUnhashable(args) && HasBoolLike(args)
    ensures Run(ProvideLiteralLoader(args, true, sizeLimit).value, data, leaf) ==
      if |args| > sizeLimit && !Hashable(data) then Raised(UnhashableTypeError)
      else if data in args then Ok(data)
      else Raised(BadVariantError(ValueSet(args), data))
  {
    var keys := TypedKeys(args);
    var k := Typed(TypeOf(data), data);
    if |args| <= sizeLimit || Hashable(data) {
      AllowedCollectionMembership(keys, sizeLimit, k);
      assert (exists i :: 0 <= i < |keys| && KeyEq(keys[i], k)) <==> data in args by {
        forall i | 0 <= i < |args| ensures KeyEq(keys[i], k) == (args[i] == data) {
          TypedEqIsIdentity(args[i], data);
        }
      }
    }
  }

  /** With strict coercion on and no `float` among the args, a `bool` or an `int` is accepted
      exactly when it is itself one of the args: `True` never passes for `1`, nor `1` for `True`,
      whether or not the strict comparison was switched on for these args. */
  lemma StrictCoercionKeepsBoolsAndIntsApart(args: seq<Value>, sizeLimit: int, data: Value, leaf: LeafLoaders)
    requires !HasEnum(args) && !HasUnhashable(args)
    requires forall i :: 0 <= i < |args| ==> !args[i].VFloat?
    requires data.VBool? || data.VInt?
    ensures Run(ProvideLiteralLoader(args, true, sizeLimit).value, data, leaf).Ok? <==> data in args
  {
    if HasBoolLike(args) {
      LiteralLoaderStrict(args, sizeLimit, data, leaf);
    } else {
      LiteralLoaderNonStrict(args, true, sizeLimit, data, leaf);
      if exists i :: 0 <= i < |args| && PyEq(args[i], data) {
        var i :| 0 <= i < |args| && PyEq(args[i], data);
        assert !args[i].VBool? && !IsExactZeroOrOne(args[i]);
        assert args[i] == data;
      }
    }
  }

  /** Strict coercion is switched on by `bool`s and exact `0`/`1` only: `Literal[2]` still accepts
      `2.0` (and returns the float), while `Literal[1]` rejects `1.0`. */
  lemma StrictCoercionAndFloats(leaf: LeafLoaders)
    ensures Run(ProvideLiteralLoader([VInt(2)], true, TupleSizeLimit).value, VFloat(2.0), leaf) == Ok(VFloat(2.0))
    ensures Run(ProvideLiteralLoader([VInt(1)], true, TupleSizeLimit).value, VFloat(1.0), leaf).Raised?
  {
    assert !HasBoolLike([VInt(2)]) by { assert !IsExactZeroOrOne([VInt(2)][0]); }
    LiteralLoaderNonStrict([VInt(2)], true, TupleSizeLimit, VFloat(2.0), leaf);
    assert PyEq([VInt(2)][0], VFloat(2.0));
    assert IsExactZeroOrOne([VInt(1)][0]);
    LiteralLoaderStrict([VInt(1)], TupleSizeLimit, VFloat(1.0), leaf);
  }

  /** Unhashable data (a list) reaching the loader of a literal with more than four args raises
      `TypeError`, which is not a `LoadError`; with four args or fewer it is an ordinary
      `BadVariantError`. */
  lemma UnhashableDataAboveTheLimit(args: seq<Value>, strictCoercion: bool, data: Value, leaf: LeafLoaders)
    requires !HasEnum(args) && !HasUnhashable(args) && !Hashable(data)
    ensures var o := Run(ProvideLiteralLoader(args, strictCoercion, TupleSizeLimit).value, data, leaf);
      if |args| > TupleSizeLimit then o == Raised(UnhashableTypeError) && !IsLoadError(o.exc)
      else o == Raised(BadVariantError(ValueSet(args), data))
  {
    if strictCoercion && HasBoolLike(args) {
      LiteralLoaderStrict(args, TupleSizeLimit, data, leaf);
      assert data !in args;
    } else {
      LiteralLoaderNonStrict(args, strictCoercion, TupleSizeLimit, data, leaf);
      assert forall i :: 0 <= i < |args| ==> !PyEq(args[i], data);
    }
  }

  /** Put first in a union, such a literal loader ends a FIRST union with its `TypeError` even
      when the next candidate would load the data, and makes an ALL union raise an exception
      group instead of a `LoadError`. */
  lemma UnhashableDataEscapesTheUnion(args: seq<Value>, strictCoercion: bool, data: Value, next: Loader, leaf: LeafLoaders)
    requires !HasEnum(args) && !HasUnhashable(args) && !Hashable(data)
    requires |args| > TupleSizeLimit && Run(next, data, leaf).Ok?
    ensures var lit := ProvideLiteralLoader(args, strictCoercion, TupleSizeLimit).value;
      && Run(UnionLoader(First, [lit, next]), data, leaf) == Raised(UnhashableTypeError)
      && Run(UnionLoader(All, [lit, next]), data, leaf) == Raised(ExceptionGroup([UnhashableTypeError]))
  {
    var lit := ProvideLiteralLoader(args, strictCoercion, TupleSizeLimit).value;
    UnhashableDataAboveTheLimit(args, strictCoercion, data, leaf);
    var o1, o2 := Run(lit, data, leaf), Run(next, data, leaf);
    assert Outcomes([lit, next], data, leaf) == [o1, o2];
    UnexpectedBeforeSuccess(o1, o2);
  }

  /** `Literal[1]`: `True` passes (and comes back as `True`) without strict coercion, and is
      rejected with it; `Literal[True]` with strict coercion rejects `1`. */
  lemma TrueAndOneUnderStrictCoercion(leaf: LeafLoaders)
    ensures Run(ProvideLiteralLoader([VInt(1)], false, TupleSizeLimit).value, VBool(true), leaf) == Ok(VBool(true))
    ensures Run(ProvideLiteralLoader([VInt(1)], true, TupleSizeLimit).value, VBool(true), leaf).Raised?
    ensures Run(ProvideLiteralLoader([VBool(true)], true, TupleSizeLimit).value, VInt(1), leaf).Raised?
  {
    LiteralLoaderNonStrict([VInt(1)], false, TupleSizeLimit, VBool(true), leaf);
    assert IsExactZeroOrOne([VInt(1)][0]) && [VBool(true)][0].VBool?;
    LiteralLoaderStrict([VInt(1)], TupleSizeLimit, VBool(true), leaf);
    LiteralLoaderStrict([VBool(true)], TupleSizeLimit, VInt(1), leaf);
  }

  /** `Literal[True, 1]` with strict coercion loads `True` as `True` and `1` as `1`; the error for
      `2` carries `set(args)`, in which `True` and `1` collapse into one element. */
  lemma TrueAndOneBothAllowed(leaf: LeafLoaders)
    ensures Run(ProvideLiteralLoader([VBool(true), VInt(1)], true, TupleSizeLimit).value, VBool(true), leaf) == Ok(VBool(true))
    ensures Run(ProvideLiteralLoader([VBool(true), VInt(1)], true, TupleSizeLimit).value, VInt(1), leaf) == Ok(VInt(1))
    ensures Run(ProvideLiteralLoader([VBool(true), VInt(1)], true, TupleSizeLimit).value, VInt(2), leaf) ==
      Raised(BadVariantError({VInt(1)}, VInt(2)))
  {
    var args := [VBool(true), VInt(1)];
    assert args[0].VBool?;
    assert !HasUnhashable(args) by { assert forall i :: 0 <= i < |args| ==> Hashable(args[i]); }
    LiteralLoaderStrict(args, TupleSizeLimit, VBool(true), leaf);
    LiteralLoaderStrict(args, TupleSizeLimit, VInt(1), leaf);
    LiteralLoaderStrict(args, TupleSizeLimit, VInt(2), leaf);
    TrueAndOneCollapse();
  }

  /** `set([True, 1])` has one element. */
  lemma TrueAndOneCollapse()
    ensures ValueSet([VBool(true), VInt(1)]) == {VInt(1)}
  {
    var args := [VBool(true), VInt(1)];
    assert Canon(args[0]) == VInt(1) && Canon(args[1]) == VInt(1);
    forall x | x in ValueSet(args) ensures x == VInt(1) {
      var i :| 0 <= i < |args| && x == Canon(args[i]);
    }
  }

  /** The loader of `Literal[None]` accepts exactly what `none_loader` accepts. */
  lemma LiteralNoneMatchesNoneLoader(strictCoercion: bool, data: Value, leaf: LeafLoaders)
    ensures Run(ProvideLiteralLoader([VNone], strictCoercion, TupleSizeLimit).value, data, leaf).Ok? <==>
            Run(NoneLoaderNode, data, leaf).Ok?
  {
    var args := [VNone];
    assert forall i :: 0 <= i < |args| ==> args[i] == VNone;
    LiteralLoaderNonStrict(args, strictCoercion, TupleSizeLimit, data, leaf);
    assert (exists i :: 0 <= i < |args| && PyEq(args[i], data)) <==> data == VNone by {
      if data == VNone { assert PyEq(args[0], data); }
    }
  }
}
