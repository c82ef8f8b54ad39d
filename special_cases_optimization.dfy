/** Shared stubs: the identity dumper, the loader of `None`, and the default
    clause that can be attached to a sieve object. */
module SpecialCases {
  import opened Values
  import opened LoadErrors

  /** `as_is_stub`: the identity conversion. */
  function AsIsStub(x: Value): (r: Value)
    ensures r == x
  {
    x
  }

  /** `none_loader`: accepts `None` only. */
  function NoneLoader(data: Value): (r: Outcome)
    ensures r.Ok? <==> data == VNone
    ensures r.Ok? ==> r.value == VNone
    ensures r.Raised? ==> r.exc == TypeLoadError(NoneType, None) && IsLoadError(r.exc)
  {
    if data == VNone then Ok(VNone) else Raised(TypeLoadError(NoneType, None))
  }

  /** `DefaultValue | DefaultFactory`, the two default clauses a sieve can carry. */
  datatype DefaultClause = DefaultValue(value: Value) | DefaultFactory(factory: nat)

  /** A sieve: a predicate object that may be tagged with a default clause
      stored in its `_adaptix_default_clause` attribute. */
  class Sieve {
    const id: nat
    var defaultClause: Option<DefaultClause>

    /** A fresh sieve has no `_adaptix_default_clause` attribute. */
    constructor (id: nat)
      ensures this.id == id && defaultClause == None
    {
      this.id := id;
      defaultClause := None;
    }
  }

  /** `with_default_clause`: sets the attribute on the sieve itself and hands back the same object. */
  method WithDefaultClause(sieve: Sieve, default: DefaultClause) returns (r: Sieve)
    modifies sieve`defaultClause
    ensures r == sieve
    ensures sieve.defaultClause == Some(default)
  {
    sieve.defaultClause := Some(default);
    r := sieve;
  }

  /** `get_default_clause`: the attribute, or `None` when it was never set. */
  function GetDefaultClause(sieve: Sieve): (r: Option<DefaultClause>)
    reads sieve
    ensures r == sieve.defaultClause
  {
    sieve.defaultClause
  }

  /** Reading back what was stored returns it; a second store overwrites the
      first; a sieve never marked reads `None`; other sieves are untouched. */
  method DefaultClauseRoundTrip(d1: DefaultClause, d2: DefaultClause)
  {
    var s := new Sieve(0);
    var other := new Sieve(1);
    assert GetDefaultClause(s) == None;
    var s' := WithDefaultClause(s, d1);
    assert s' == s && GetDefaultClause(s) == Some(d1);
    assert GetDefaultClause(other) == None;
    s' := WithDefaultClause(s, d2);
    assert GetDefaultClause(s) == Some(d2);
    assert GetDefaultClause(other) == None;
  }
}
