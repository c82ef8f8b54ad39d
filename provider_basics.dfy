/** Request checkers and the small providers built on them (3.0 provider API).
    The type-tool queries the checkers make (`normalize_type`, `is_subclass_soft`,
    `is_protocol`, `isabstract`, membership in `FORBID_ZERO_ARGS`) are given as a
    `TypeTools` record of uninterpreted functions. */
module ProviderBasics {
  import opened Values

  /** Request classes; a request is an instance of every class in its `classes`. */
  datatype ReqClass = RequestCls | TypeHintRMCls | FieldNameRMCls | OtherCls(id: nat)

  /** A request: the classes it is an instance of, and its `type` and `field_name`
      attributes, read only when it is an instance of `TypeHintRM` and `FieldNameRM`. */
  datatype Request = Request(classes: set<ReqClass>, tp: TypeHint, fieldName: string)

  /** A normalised type: its origin and arguments. */
  datatype NormType = NormType(origin: TypeHint, args: seq<TypeHint>)

  /** `normalize(t)` is `None` when `normalize_type(t)` raises `ValueError`. */
  datatype TypeTools = TypeTools(
    normalize: TypeHint -> Option<NormType>,
    isSubclassSoft: (TypeHint, TypeHint) -> bool,
    isType: TypeHint -> bool,
    isProtocol: TypeHint -> bool,
    isAbstract: TypeHint -> bool,
    forbidZeroArgs: set<TypeHint>)

  /** `FieldNameRC`, `ExactTypeRC` (holding the normalised type), `SubclassRC`, `ExactOriginRC`. */
  datatype RequestChecker =
    | FieldNameRC(fieldName: string)
    | ExactTypeRC(norm: NormType)
    | SubclassRC(tp: TypeHint)
    | ExactOriginRC(origin: TypeHint)

  /** A check returns, raises `CannotProvide`, or lets `normalize_type`'s `ValueError` out. */
  datatype CheckResult = Passed | Refused | NormalizeError

  /** `get_allowed_request_classes`. */
  function AllowedClasses(rc: RequestChecker): (r: set<ReqClass>)
    ensures rc.FieldNameRC? ==> r == {FieldNameRMCls}
    ensures !rc.FieldNameRC? ==> r == {TypeHintRMCls}
  {
    if rc.FieldNameRC? then {FieldNameRMCls} else {TypeHintRMCls}
  }

  /** `isinstance(request, allowed)`. */
  predicate IsInstance(request: Request, allowed: set<ReqClass>)
  {
    request.classes * allowed != {}
  }

  /** `_check_request`. */
  function CheckRequest(rc: RequestChecker, request: Request, tools: TypeTools): (r: CheckResult)
    ensures rc.FieldNameRC? ==> (r == Passed <==> request.fieldName == rc.fieldName)
    ensures rc.SubclassRC? ==> (r == Passed <==> tools.isSubclassSoft(request.tp, rc.tp))
    ensures rc.ExactTypeRC? ==> (r == Passed <==> tools.normalize(request.tp) == Some(rc.norm))
    ensures rc.ExactOriginRC? ==>
      (r == Passed <==> tools.normalize(request.tp).Some? && tools.normalize(request.tp).value.origin == rc.origin)
    ensures r == NormalizeError <==> (rc.ExactTypeRC? || rc.ExactOriginRC?) && tools.normalize(request.tp).None?
  {
    match rc
    case FieldNameRC(name) => if name == request.fieldName then Passed else Refused
    case SubclassRC(tp) => if tools.isSubclassSoft(request.tp, tp) then Passed else Refused
    case ExactTypeRC(norm) =>
      (match tools.normalize(request.tp)
       case None => NormalizeError
       case Some(n) => if n == norm then Passed else Refused)
    case ExactOriginRC(origin) =>
      (match tools.normalize(request.tp)
       case None => NormalizeError
       case Some(n) => if n.origin == origin then Passed else Refused)
  }

  /** `RequestChecker.__call__` as written: after a passing `_check_request` the
      final `raise CannotProvide` still runs, so the call never passes. */
  function CallAsWritten(rc: RequestChecker, request: Request, tools: TypeTools): (r: CheckResult)
    ensures r != Passed
    ensures !IsInstance(request, AllowedClasses(rc)) ==> r == Refused
    ensures r == NormalizeError <==>
      IsInstance(request, AllowedClasses(rc)) && CheckRequest(rc, request, tools) == NormalizeError
  {
    if !IsInstance(request, AllowedClasses(rc)) then Refused
    else
      match CheckRequest(rc, request, tools)
      case NormalizeError => NormalizeError
      case _ => Refused
  }

  /** `RequestChecker.__call__` as evidently intended: return when `_check_request` returns. */
  function CallIntended(rc: RequestChecker, request: Request, tools: TypeTools): (r: CheckResult)
    ensures r == Passed <==> IsInstance(request, AllowedClasses(rc)) && CheckRequest(rc, request, tools) == Passed
    ensures !IsInstance(request, AllowedClasses(rc)) ==> r == Refused
    ensures r == NormalizeError <==>
      IsInstance(request, AllowedClasses(rc)) && CheckRequest(rc, request, tools) == NormalizeError
  {
    if !IsInstance(request, AllowedClasses(rc)) then Refused else CheckRequest(rc, request, tools)
  }

  /** The two readings differ only where `_check_request` passes. */
  lemma AsWrittenDiffersOnlyOnPass(rc: RequestChecker, request: Request, tools: TypeTools)
    ensures CallAsWritten(rc, request, tools) != CallIntended(rc, request, tools) <==>
      CallIntended(rc, request, tools) == Passed
    ensures CallIntended(rc, request, tools) != Passed ==>
      CallAsWritten(rc, request, tools) == CallIntended(rc, request, tools)
  {
  }

  /** A field-name request for exactly the checker's name is refused as written. */
  lemma FieldNameMatchRefusedAsWritten(tools: TypeTools, tp: TypeHint)
    ensures CallIntended(FieldNameRC("a"), Request({RequestCls, FieldNameRMCls}, tp, "a"), tools) == Passed
    ensures CallAsWritten(FieldNameRC("a"), Request({RequestCls, FieldNameRMCls}, tp, "a"), tools) == Refused
  {
    assert FieldNameRMCls in {RequestCls, FieldNameRMCls} * {FieldNameRMCls};
  }

  // ---- checker factories ----

  datatype Creation = Created(checker: RequestChecker) | CreationValueError

  /** `create_type_hint_req_checker`: a protocol or abstract class gives `SubclassRC`, a
      member of `FORBID_ZERO_ARGS` gives `ExactOriginRC`, anything else `ExactTypeRC`, and a
      type `normalize_type` rejects gives `ValueError`. */
  function CreateTypeHintReqChecker(tp: TypeHint, tools: TypeTools): (r: Creation)
    ensures tools.isType(tp) && (tools.isProtocol(tp) || tools.isAbstract(tp)) ==> r == Created(SubclassRC(tp))
    ensures !(tools.isType(tp) && (tools.isProtocol(tp) || tools.isAbstract(tp))) && tp in tools.forbidZeroArgs ==>
      r == Created(ExactOriginRC(tp))
    ensures !(tools.isType(tp) && (tools.isProtocol(tp) || tools.isAbstract(tp))) && tp !in tools.forbidZeroArgs ==>
      (r == CreationValueError <==> tools.normalize(tp).None?)
    ensures !(tools.isType(tp) && (tools.isProtocol(tp) || tools.isAbstract(tp))) && tp !in tools.forbidZeroArgs
      && tools.normalize(tp).Some?
      ==> r == Created(ExactTypeRC(tools.normalize(tp).value))
  {
    if tools.isType(tp) && (tools.isProtocol(tp) || tools.isAbstract(tp)) then Created(SubclassRC(tp))
    else if tp in tools.forbidZeroArgs then Created(ExactOriginRC(tp))
    else
      match tools.normalize(tp)
      case None => CreationValueError
      case Some(n) => Created(ExactTypeRC(n))
  }

  /** What a checker is created from: a field name or a type hint. */
  datatype Pred = NamePred(name: string) | TypePred(tp: TypeHint)

  /** `create_req_checker`: a string gives `FieldNameRC` before any type test. */
  function CreateReqChecker(pred: Pred, tools: TypeTools): (r: Creation)
    ensures pred.NamePred? ==> r == Created(FieldNameRC(pred.name))
    ensures pred.TypePred? ==> r == CreateTypeHintReqChecker(pred.tp, tools)
  {
    match pred
    case NamePred(name) => Created(FieldNameRC(name))
    case TypePred(tp) => CreateTypeHintReqChecker(tp, tools)
  }

  /** A checker created from a type hint that `normalize_type` accepts, and that is neither a
      protocol, an abstract class nor in `FORBID_ZERO_ARGS`, admits exactly the type-hint
      requests whose type normalises to the same thing, and so the type itself. */
  lemma ExactTypeCheckerAdmitsSameNormalForm(tp: TypeHint, request: Request, tools: TypeTools)
    requires !(tools.isType(tp) && (tools.isProtocol(tp) || tools.isAbstract(tp))) && tp !in tools.forbidZeroArgs
    requires tools.normalize(tp).Some?
    requires TypeHintRMCls in request.classes
    ensures CreateReqChecker(TypePred(tp), tools).Created?
    ensures CallIntended(CreateReqChecker(TypePred(tp), tools).checker, request, tools) == Passed <==>
      tools.normalize(request.tp) == tools.normalize(tp)
    ensures request.tp == tp ==> CallIntended(CreateReqChecker(TypePred(tp), tools).checker, request, tools) == Passed
  {
    assert TypeHintRMCls in request.classes * {TypeHintRMCls};
  }

  /** A checker created from a name admits exactly the field-name requests with that name. */
  lemma NameCheckerAdmitsExactlyTheName(name: string, request: Request, tools: TypeTools)
    ensures CallIntended(CreateReqChecker(NamePred(name), tools).checker, request, tools) == Passed <==>
      FieldNameRMCls in request.classes && request.fieldName == name
  {
    if FieldNameRMCls in request.classes {
      assert FieldNameRMCls in request.classes * {FieldNameRMCls};
    }
  }

  // ---- providers ----

  /** What a provider answers: a value, `CannotProvide`, or a `ValueError`. */
  datatype Answer<T> = Provided(value: T) | CannotProvide | ValueError

  /** `LimitingProvider(req_checker, provider)`: `providerKeys` are the request classes the
      wrapped provider's dispatcher handles. */
  datatype LimitingProvider = LimitingProvider(checker: RequestChecker, providerKeys: set<ReqClass>)

  /** The request classes the limiting provider's dispatcher covers. */
  function LimitingKeys(lp: LimitingProvider): (r: set<ReqClass>)
    ensures forall c :: c in r <==> c in lp.providerKeys && c in AllowedClasses(lp.checker)
  {
    lp.providerKeys * AllowedClasses(lp.checker)
  }

  function CheckAnswer<T>(c: CheckResult, request: Request, apply: Request -> Answer<T>): Answer<T>
  {
    match c
    case Passed => apply(request)
    case Refused => CannotProvide
    case NormalizeError => ValueError
  }

  /** `_lp_proxy_provide` as written: check the request, then apply the wrapped provider,
      which the check as written never lets happen. */
  function LimitingProxyAsWritten<T>(lp: LimitingProvider, request: Request, tools: TypeTools, apply: Request -> Answer<T>): (r: Answer<T>)
    ensures !r.Provided?
    ensures r.ValueError? <==>
      IsInstance(request, AllowedClasses(lp.checker)) && CheckRequest(lp.checker, request, tools) == NormalizeError
  {
    CheckAnswer(CallAsWritten(lp.checker, request, tools), request, apply)
  }

  /** `_lp_proxy_provide` with the intended check: the wrapped provider answers exactly the
      requests the checker admits, and the rest are refused. */
  function LimitingProxy<T>(lp: LimitingProvider, request: Request, tools: TypeTools, apply: Request -> Answer<T>): (r: Answer<T>)
    ensures CallIntended(lp.checker, request, tools) == Passed ==> r == apply(request)
    ensures CallIntended(lp.checker, request, tools) == Refused ==> r.CannotProvide?
    ensures CallIntended(lp.checker, request, tools) == NormalizeError ==> r.ValueError?
  {
    CheckAnswer(CallIntended(lp.checker, request, tools), request, apply)
  }

  /** A limiting provider around a provider that answers by field name, limited to the
      field `a`, never reaches it as written, and reaches it for `a` as intended. */
  lemma LimitingProviderNeverDelegatesAsWritten(tools: TypeTools, tp: TypeHint, v: Value)
    ensures var lp := LimitingProvider(FieldNameRC("a"), {FieldNameRMCls});
            var request := Request({RequestCls, FieldNameRMCls}, tp, "a");
            var apply := (r: Request) => Provided(v);
            && FieldNameRMCls in LimitingKeys(lp)
            && LimitingProxyAsWritten(lp, request, tools, apply) == CannotProvide
            && LimitingProxy(lp, request, tools, apply) == Provided(v)
  {
    FieldNameMatchRefusedAsWritten(tools, tp);
  }

  /** `ValueProvider(request_type, value)`. */
  datatype ValueProvider<T> = ValueProvider(requestClass: ReqClass, value: T)

  /** Dispatching a request to a value provider: the stored value for every instance of
      its request class, whatever the request says; other requests are not dispatched to it. */
  function ProvideValue<T>(vp: ValueProvider<T>, request: Request): (r: Answer<T>)
    ensures r.Provided? <==> vp.requestClass in request.classes
    ensures r.Provided? ==> r.value == vp.value
    ensures !r.ValueError?
  {
    if vp.requestClass in request.classes then Provided(vp.value) else CannotProvide
  }

  /** The value does not depend on the request. */
  lemma ValueProviderIgnoresRequest<T>(vp: ValueProvider<T>, r1: Request, r2: Request)
    requires vp.requestClass in r1.classes && vp.requestClass in r2.classes
    ensures ProvideValue(vp, r1) == ProvideValue(vp, r2) == Provided(vp.value)
  {
  }

  // ---- foreign_parser ----

  /** An exception a parser raises: `ParseError`, or a foreign exception class. */
  datatype ParserExc = ParseError | Foreign(cls: nat)

  datatype ParserOutcome = Parsed(value: Value) | Failed(exc: ParserExc)

  /** `foreign_parser(func)(arg)`; `compat` are the classes of `PARSER_COMPAT_EXCEPTIONS`. */
  function ForeignParser(func: Value -> ParserOutcome, compat: set<nat>, arg: Value): (r: ParserOutcome)
    ensures func(arg).Parsed? ==> r == func(arg)
    ensures func(arg).Failed? && func(arg).exc.Foreign? && func(arg).exc.cls in compat ==> r == Failed(ParseError)
    ensures func(arg).Failed? && !(func(arg).exc.Foreign? && func(arg).exc.cls in compat) ==> r == func(arg)
  {
    match func(arg)
    case Parsed(v) => Parsed(v)
    case Failed(e) => if e.Foreign? && e.cls in compat then Failed(ParseError) else Failed(e)
  }

  /** The wrapper never lets a compatible exception out, and wrapping twice is wrapping once. */
  lemma ForeignParserIdempotent(func: Value -> ParserOutcome, compat: set<nat>, arg: Value)
    ensures var r := ForeignParser(func, compat, arg); !(r.Failed? && r.exc.Foreign? && r.exc.cls in compat)
    ensures ForeignParser(a => ForeignParser(func, compat, a), compat, arg) == ForeignParser(func, compat, arg)
  {
  }
}
