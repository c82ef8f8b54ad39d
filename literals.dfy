/** Membership collections built by `LiteralProvider` and the loader closures
    that test them. */
module Literals {
  import opened Values
  import opened LoadErrors

  /** An element of the allowed-values collection: a plain value, or the pair
      `(type(v), v)` used under strict coercion. */
  datatype Key = Plain(v: Value) | Typed(t: PyType, v: Value)

  /** Python `==` on keys; a tuple is never equal to a non-tuple. */
  predicate KeyEq(a: Key, b: Key)
  {
    match (a, b)
    case (Plain(x), Plain(y)) => PyEq(x, y)
    case (Typed(s, x), Typed(t, y)) => s == t && PyEq(x, y)
    case _ => false
  }

  /** The representative a hash set keeps for the class of keys `==` to `k`. */
  function CanonKey(k: Key): Key
  {
    match k
    case Plain(x) => Plain(Canon(x))
    case Typed(t, x) => Typed(t, Canon(x))
  }

  /** `hash(k)` succeeds: hashing a pair hashes the value in it. */
  predicate KeyHashable(k: Key)
  {
    Hashable(k.v)
  }

  lemma KeyEqIffSameCanon(a: Key, b: Key)
    requires KeyHashable(a) || KeyHashable(b)
    ensures KeyEq(a, b) <==> CanonKey(a) == CanonKey(b)
  {
    match (a, b)
    case (Plain(x), Plain(y)) => PyEqIffSameCanon(x, y);
    case (Typed(s, x), Typed(t, y)) => PyEqIffSameCanon(x, y);
    case _ =>
  }

  /** A `tuple` scanned with `==`, or a hash `set` of representatives. */
  datatype Collection = TupleColl(items: seq<Key>) | SetColl(members: set<Key>)

  /** Membership `k in c`, for a key a set can hash (`LiteralLoad` raises before asking
      a set about any other key). */
  predicate Contains(c: Collection, k: Key)
  {
    match c
    case TupleColl(items) => exists i :: 0 <= i < |items| && KeyEq(items[i], k)
    case SetColl(members) => CanonKey(k) in members
  }

  /** `_get_allowed_values_collection`: a set above the size limit, a tuple otherwise. */
  function AllowedCollection(keys: seq<Key>, sizeLimit: int): (c: Collection)
    ensures c.SetColl? <==> |keys| > sizeLimit
  {
    if |keys| > sizeLimit then SetColl(set i | 0 <= i < |keys| :: CanonKey(keys[i]))
    else TupleColl(keys)
  }

  /** Whichever representation is chosen, membership of a key the collection can look up
      means "equal to some listed key". */
  lemma AllowedCollectionMembership(keys: seq<Key>, sizeLimit: int, k: Key)
    requires |keys| <= sizeLimit || KeyHashable(k)
    ensures Contains(AllowedCollection(keys, sizeLimit), k) <==> exists i :: 0 <= i < |keys| && KeyEq(keys[i], k)
  {
    if |keys| > sizeLimit {
      var members := set i | 0 <= i < |keys| :: CanonKey(keys[i]);
      if CanonKey(k) in members {
        var i :| 0 <= i < |keys| && CanonKey(keys[i]) == CanonKey(k);
        KeyEqIffSameCanon(keys[i], k);
      }
      if exists i :: 0 <= i < |keys| && KeyEq(keys[i], k) {
        var i :| 0 <= i < |keys| && KeyEq(keys[i], k);
        KeyEqIffSameCanon(keys[i], k);
        assert CanonKey(keys[i]) in members;
      }
    }
  }

  /** `set(cleaned_args)`, kept for the error message: values `==` to each other collapse. */
  function ValueSet(args: seq<Value>): (r: set<Value>)
    ensures forall i :: 0 <= i < |args| ==> Canon(args[i]) in r
    ensures forall x :: x in r ==> exists i :: 0 <= i < |args| && x == Canon(args[i])
  {
    set i | 0 <= i < |args| :: Canon(args[i])
  }

  function PlainKeys(args: seq<Value>): (r: seq<Key>)
    ensures |r| == |args| && forall i :: 0 <= i < |args| ==> r[i] == Plain(args[i])
  {
    seq(|args|, i requires 0 <= i < |args| => Plain(args[i]))
  }

  function TypedKeys(args: seq<Value>): (r: seq<Key>)
    ensures |r| == |args| && forall i :: 0 <= i < |args| ==> r[i] == Typed(TypeOf(args[i]), args[i])
  {
    seq(|args|, i requires 0 <= i < |args| => Typed(TypeOf(args[i]), args[i]))
  }

  /** The closure `literal_loader` (strict == false) or `literal_loader_sc` (strict == true). */
  datatype LiteralLoader = LiteralLoader(allowed: Collection, strict: bool, allowedRepr: set<Value>)

  /** Calling the closure: the data itself is returned when its key is in the collection;
      a set cannot even look up a key holding unhashable data and raises `TypeError`. */
  function LiteralLoad(l: LiteralLoader, data: Value): (r: Outcome)
    ensures r.Ok? ==> r.value == data
    ensures r == Raised(UnhashableTypeError) <==> l.allowed.SetColl? && !Hashable(data)
    ensures r.Raised? && !r.exc.UnhashableTypeError? ==> r.exc == BadVariantError(l.allowedRepr, data)
    ensures l.allowed.TupleColl? ==>
      (r.Ok? <==> exists i :: 0 <= i < |l.allowed.items| && KeyEq(l.allowed.items[i], LoaderKey(l.strict, data)))
  {
    var key := LoaderKey(l.strict, data);
    if l.allowed.SetColl? && !KeyHashable(key) then Raised(UnhashableTypeError)
    else if Contains(l.allowed, key) then Ok(data)
    else Raised(BadVariantError(l.allowedRepr, data))
  }

  /** What the closure looks up: `(type(data), data)` under strict coercion, `data` otherwise. */
  function LoaderKey(strict: bool, data: Value): (k: Key)
    ensures k.v == data
  {
    if strict then Typed(TypeOf(data), data) else Plain(data)
  }
}
