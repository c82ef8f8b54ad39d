/** The three providers that unwrap a type hint and delegate the same request,
    with the unwrapped hint as its last type-hint location, to the providers
    that follow. A `Provided(t)` result stands for that delegation with `t`. */
module UnwrappingProviders {
  import opened Values
  import opened Provisions

  /** `NewTypeUnwrappingProvider`. `loc` is the type hint of the request's last
      location, when it has one; `supertypeOf(t)` is `Some(t.__supertype__)`
      when `is_new_type(t)` holds and `None` otherwise. */
  function UnwrapNewType(loc: Option<TypeHint>, supertypeOf: TypeHint -> Option<TypeHint>): (r: Provision<TypeHint>)
    ensures r.Provided? <==> loc.Some? && supertypeOf(loc.value).Some?
    ensures r.Provided? ==> r.value == supertypeOf(loc.value).value
    ensures r.CannotProvide? ==> !r.terminal
    ensures r.Provided? || r.CannotProvide?
  {
    match loc
    case None => CannotProvide(false)
    case Some(t) =>
      match supertypeOf(t)
      case None => CannotProvide(false)
      case Some(s) => Provided(s)
  }

  /** `TypeHintTagsUnwrappingProvider`; `stripTags(t)` is
      `strip_tags(try_normalize_type(t)).source`. */
  function UnwrapTags(loc: Option<TypeHint>, stripTags: TypeHint -> TypeHint): (r: Provision<TypeHint>)
    ensures r.Provided? <==> loc.Some? && stripTags(loc.value) != loc.value
    ensures r.Provided? ==> r.value == stripTags(loc.value)
    ensures r.CannotProvide? ==> !r.terminal
    ensures r.Provided? || r.CannotProvide?
  {
    match loc
    case None => CannotProvide(false)
    case Some(t) =>
      var unwrapped := stripTags(t);
      if unwrapped == t then CannotProvide(false) else Provided(unwrapped)
  }

  /** The tag unwrapper never delegates to the request it was given, and when stripping
      is idempotent the delegated request is refused by it: the provider search cannot
      loop through it. */
  lemma TagUnwrapTerminates(t: TypeHint, stripTags: TypeHint -> TypeHint)
    requires stripTags(stripTags(t)) == stripTags(t)
    ensures var r := UnwrapTags(Some(t), stripTags);
      r.Provided? ==> r.value != t && UnwrapTags(Some(r.value), stripTags) == CannotProvide(false)
  {
  }

  /** What `try_normalize_type` says about a hint: not an alias, or a
      `NormTypeAlias` with its value and the sources of its args. */
  datatype AliasNorm = NotAlias | Alias(value: TypeHint, argSources: seq<TypeHint>)

  /** `TypeAliasUnwrappingProvider`: a parametrised alias is substituted before delegating. */
  function UnwrapAlias(loc: Option<TypeHint>, normalize: TypeHint -> AliasNorm): (r: Provision<TypeHint>)
    ensures r.Provided? <==> loc.Some? && normalize(loc.value).Alias?
    ensures r.Provided? && |normalize(loc.value).argSources| == 0 ==> r.value == normalize(loc.value).value
    ensures r.Provided? && |normalize(loc.value).argSources| > 0 ==>
      r.value == Subscripted(normalize(loc.value).value, normalize(loc.value).argSources)
    ensures r.CannotProvide? ==> !r.terminal
    ensures r.Provided? || r.CannotProvide?
  {
    match loc
    case None => CannotProvide(false)
    case Some(t) =>
      match normalize(t)
      case NotAlias => CannotProvide(false)
      case Alias(value, args) =>
        if |args| > 0 then Provided(Subscripted(value, args)) else Provided(value)
  }
}
