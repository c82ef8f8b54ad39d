# adaptix conversion-closure core, modelled in Dafny

This project models the part of adaptix (and of its 3.0 predecessor,
`dataclass_factory_30`) that assembles conversion closures and the records
they are built from:

- **Literal and Union providers** (`generic_provider.py`):
  - the Literal loader tests membership. Without strict coercion it uses Python `==`, so `True == 1`. With strict coercion it compares `(type(data), data)` pairs. Above four args it looks the key up in a hash set, which raises `TypeError` on unhashable data.
  - the three union loader closures try candidate loaders in declaration order. They are DISABLE, FIRST and ALL, selected by `DebugTrail`.
  - the optional loader and dumper short-circuit on `None`.
  - the union dumper either dispatches on the runtime class or collapses to `as_is_stub`.
  - three unwrapping providers refuse when there is nothing to unwrap.
- **Shared stubs** (`special_cases_optimization.py`): `as_is_stub`, `none_loader`, and the default clause stored on a sieve object.
- **Field figures of the 3.0 API** (`fields.py`):
  - `get_func_iff`, which maps a parameter list to an input figure;
  - `get_dc_default`;
  - the NamedTuple, TypedDict, dataclass and class-`__init__` figure extractors.
- **Request checkers and small providers of the 3.0 API** (`provider_basics.py`).
- **The later API's input figure**, whose rule is pinned down by `test_fields_basics.py` and `test_class_init.py`:
  - the constructor's validity rule: kind order, required before optional among positional fields, unique names, known extra targets;
  - the mapping from an `__init__` signature to a figure, which accepts positional-only parameters.

How the model is built:

- **Values and outcomes.** Python values, exceptions and loader outcomes are datatypes (`Values`, `LoadErrors`).
- **Closures.** A produced closure is an execution node (`Loaders.Loader`, `Loaders.Dumper`) interpreted by `Run` and `Dump`. Loaders and dumpers that the mediator resolves are leaves, evaluated through a function parameter.
- **Union loops.** Each union closure's loop is a `method` with a `while` loop (`UnionProvider`). It is proved equal to a fold over the candidates' outcomes (`UnionFolds`), and it reports how many candidates it called. Each fold has a closed form, proved by induction.
- **Reflection and type tools.** What reflection reports (`inspect.signature`, `dataclasses.fields`, `get_type_hints`, `__total__`) is given as input records. The type tools (`normalize_type`, `is_subclass_soft`, `strip_tags`, ...) are uninterpreted function parameters.
- **The default clause.** It is the one piece of mutable object state, so `SpecialCases.Sieve` is a class and `WithDefaultClause` updates it in place.

## Model

| member | source | states |
|---|---|---|
| Values.PyEqIffSameCanon | src/adaptix/_internal/morphing/generic_provider.py:97-100 | When at least one of two values is hashable, Python `==` on them holds exactly when they have the same hash-set representative. Numbers compare by value across `bool`, `int` and `float`, and a list is never `==` to a hashable value. This is why a `set` and a `tuple` of args give the same membership answer for hashable data. |
| Values.TypedEqIsIdentity | src/adaptix/_internal/morphing/generic_provider.py:120-128 | When at least one value is hashable, two `(type(v), v)` pairs are `==` exactly when the values are structurally identical. So `True`, `1` and `1.0` are told apart. |
| SpecialCases.AsIsStub | src/adaptix/_internal/provider/model/special_cases_optimization.py:7 | `as_is_stub` returns its argument unchanged. |
| SpecialCases.NoneLoader | src/adaptix/_internal/provider/model/special_cases_optimization.py:25-28 | Succeeds exactly on `None` and returns `None`. Any other data raises `TypeLoadError(None)`, which is a LoadError. |
| SpecialCases.Sieve.constructor | src/adaptix/_internal/provider/model/special_cases_optimization.py:21-22 | A sieve that was never marked has no default clause, so `get_default_clause` reads `None`. |
| SpecialCases.WithDefaultClause | src/adaptix/_internal/provider/model/special_cases_optimization.py:16-18 | Returns the same sieve object. It changes only that sieve's default-clause attribute, which then holds the given clause, so a second call overwrites the first. |
| SpecialCases.GetDefaultClause | src/adaptix/_internal/provider/model/special_cases_optimization.py:21-22 | Reads back the stored clause, or `None` when none was stored. |
| Literals.KeyEqIffSameCanon | src/adaptix/_internal/morphing/generic_provider.py:120-127 | When at least one key is hashable, equality of plain and typed keys is equality of their hash-set representatives. |
| Literals.AllowedCollection | src/adaptix/_internal/morphing/generic_provider.py:97-100 | A hash set is chosen exactly when there are more args than `tuple_size_limit`; otherwise a tuple. |
| Literals.AllowedCollectionMembership | src/adaptix/_internal/morphing/generic_provider.py:97-100 | For a key the collection can look up, `k in collection` holds exactly when some listed key is `==` to `k`, under either representation. A tuple can look up any key; a set only a hashable one. |
| Literals.ValueSet | src/adaptix/_internal/morphing/generic_provider.py:134 | `set(cleaned_args)` holds the representative of every arg and nothing else. |
| Literals.LiteralLoad | src/adaptix/_internal/morphing/generic_provider.py:126-139 | A literal closure returns the data itself or raises. It raises `TypeError` exactly when its collection is a set and the data is unhashable; any other raise is `BadVariantError(set(args), data)`. Over a tuple, it succeeds exactly when some listed key is `==` to the data's key. |
| LiteralProvider.ProvideLiteralLoader | src/adaptix/_internal/morphing/generic_provider.py:102-141 | Refuses, with a terminal `CannotProvide`, exactly when some arg is an Enum member. Otherwise, when some arg is unhashable, `set(args)` raises `TypeError` while the loader is built. It never fails a sub-request. The strict closure is chosen exactly when strict coercion is on and some arg is a `bool` or an exact `int` 0 or 1. The error repr is `set(args)`, and a hash set is used exactly above the size limit. |
| LiteralProvider.ProvideLiteralDumper | src/adaptix/_internal/morphing/generic_provider.py:143-154 | Refuses, with a terminal `CannotProvide`, exactly when some arg is an Enum member. Otherwise it yields `as_is_stub`. It never fails otherwise, even with unhashable args. |
| LiteralProvider.IsExactZeroOrOne | src/adaptix/_internal/morphing/generic_provider.py:88-89 | Holds exactly for values of type `int` (not `bool`, not `float`) that are `==` to a `bool`. |
| LiteralProvider.LiteralDumperIsIdentity | src/adaptix/_internal/morphing/generic_provider.py:154 | The literal dumper returns every value unchanged. |
| LiteralProvider.LiteralLoaderNonStrict | src/adaptix/_internal/morphing/generic_provider.py:133-141 | The non-strict loader raises `TypeError` exactly when a set is used and the data is unhashable. Otherwise it returns `data` iff `data` is `==` to some arg, and raises `BadVariantError(set(args), data)` if not. The answer is the same for the tuple and the set representation. |
| LiteralProvider.LiteralLoaderStrict | src/adaptix/_internal/morphing/generic_provider.py:116-131 | The strict loader raises `TypeError` exactly when a set is used and the data is unhashable. Otherwise it returns `data` iff `data` is structurally one of the args, and raises `BadVariantError(set(args), data)` if not. |
| LiteralProvider.StrictCoercionKeepsBoolsAndIntsApart | src/adaptix/_internal/morphing/generic_provider.py:116-141 | With strict coercion on and no `float` arg, a `bool` or `int` is accepted exactly when it is itself one of the args, whichever closure was chosen. |
| LiteralProvider.StrictCoercionAndFloats | src/adaptix/_internal/morphing/generic_provider.py:116-139 | Floats do not switch strict comparison on: under strict coercion `Literal[2]` accepts `2.0` and returns the float, while `Literal[1]` rejects `1.0`. |
| LiteralProvider.UnhashableDataAboveTheLimit | src/adaptix/_internal/morphing/generic_provider.py:97-100 | Unhashable data reaching a literal loader with more than four args raises `TypeError`, which is not a `LoadError`. With four args or fewer it raises `BadVariantError`. |
| LiteralProvider.UnhashableDataEscapesTheUnion | src/adaptix/_internal/morphing/generic_provider.py:223-267 | Such a literal loader placed first in a union ends a FIRST union with its `TypeError` even when the next candidate would load the data. It makes an ALL union raise an exception group instead of a `LoadError`. |
| LiteralProvider.TrueAndOneUnderStrictCoercion | src/adaptix/_internal/morphing/generic_provider.py:116-141 | `Literal[1]` accepts `True` without strict coercion and rejects it with strict coercion. `Literal[True]` with strict coercion rejects `1`. |
| LiteralProvider.TrueAndOneBothAllowed | src/adaptix/_internal/morphing/generic_provider.py:120-129 | `Literal[True, 1]` under strict coercion loads `True` as `True` and `1` as `1`. The error for `2` carries a one-element set, because `True` and `1` collapse in `set(args)`. |
| LiteralProvider.LiteralNoneMatchesNoneLoader | src/adaptix/_internal/morphing/generic_provider.py:136-139 | The loader of `Literal[None]` accepts exactly what `none_loader` accepts. |
| UnionFolds.FailuresWhenAllFailed | src/adaptix/_internal/morphing/generic_provider.py:236-243 | When every candidate raised, the collected errors are one per candidate, in candidate order. |
| UnionFolds.DisableFrom | src/adaptix/_internal/morphing/generic_provider.py:223-232 | From candidate `i` on, DISABLE raises a bare `LoadError` exactly when every remaining candidate raises a LoadError. Otherwise it yields the outcome of the first remaining candidate that does not. |
| UnionFolds.FirstFrom | src/adaptix/_internal/morphing/generic_provider.py:234-245 | From candidate `i` on, FIRST ends in a LoadError exactly when every remaining candidate raises one. That error is a `UnionLoadError` keeping the errors collected so far, followed by one error per remaining candidate. Otherwise it yields the outcome of the first remaining candidate that does not raise a LoadError. |
| UnionFolds.AllFrom | src/adaptix/_internal/morphing/generic_provider.py:247-266 | From candidate `i` on, ALL returns a success only if no unexpected exception was seen before, and the success is a candidate's outcome. Otherwise it raises an exception group or a `UnionLoadError` that keeps the errors collected so far at its head. It is a group exactly when an unexpected exception was seen earlier or among the remaining candidates. |
| UnionFolds.DisableClosedForm | src/adaptix/_internal/morphing/generic_provider.py:223-232 | DISABLE yields the outcome of the first candidate that does not raise a LoadError. That is either its value or its exception propagating. If every candidate raises a LoadError, DISABLE raises a bare `LoadError`. |
| UnionFolds.FirstClosedForm | src/adaptix/_internal/morphing/generic_provider.py:234-245 | FIRST yields the same outcome as DISABLE whenever some candidate does not raise a LoadError. On total failure it raises `UnionLoadError` with one error per candidate, in order. |
| UnionFolds.AllClosedForm | src/adaptix/_internal/morphing/generic_provider.py:247-267 | ALL returns the first success only when no candidate before it raised an unexpected exception. Otherwise it raises an exception group of every error seen, in order. With no success and no unexpected exception it raises `UnionLoadError` of all errors. |
| UnionFolds.DisableAndFirstAgree | src/adaptix/_internal/morphing/generic_provider.py:223-245 | DISABLE and FIRST call the same candidates and agree except on total failure, where only the raised error differs. |
| UnionFolds.AllIsFirstWithoutUnexpected | src/adaptix/_internal/morphing/generic_provider.py:234-267 | Without unexpected exceptions, ALL returns and calls exactly what FIRST does. |
| UnionFolds.UnexpectedBeforeSuccess | src/adaptix/_internal/morphing/generic_provider.py:234-267 | An unexpected exception followed by a success: FIRST propagates it after one call. ALL calls both candidates, drops the success and raises a group holding that exception. |
| UnionFolds.SuccessBeforeUnexpected | src/adaptix/_internal/morphing/generic_provider.py:247-261 | A success before any unexpected exception is returned by ALL after one call. |
| Loaders.Lookup | src/adaptix/_internal/morphing/generic_provider.py:323-325 | A dict built from the case entries keeps, for each key, the last entry with that key. A key with no entry has none. |
| Loaders.Dispatch | src/adaptix/_internal/morphing/generic_provider.py:329-330 | Dispatch finds the entry of the first class of the runtime class's MRO that has one. It finds nothing only when no class of the MRO has an entry. |
| Loaders.Run | src/adaptix/_internal/morphing/generic_provider.py:204-267 | Calling a closure: `none_loader` succeeds exactly on `None`, and it and the literal loaders return the data itself. An optional loader returns `None` for `None`. With a debug trail, it wraps an inner LoadError as a two-error `UnionLoadError` headed by `TypeLoadError(None, data)`. An empty union raises `LoadError` (DISABLE) or an empty `UnionLoadError`. A DISABLE or FIRST union succeeds only with some candidate's own outcome. |
| Loaders.Dump | src/adaptix/_internal/morphing/generic_provider.py:320-340 | `as_is_stub` returns the data. The optional dumper passes `None` through. A union dumper raises the dispatcher's key error for `type(data)` when no class of its MRO has an entry. |
| UnionProvider.NotNoneIndex | src/adaptix/_internal/morphing/generic_provider.py:164 | In a single optional, exactly one of the two cases is not `None`, and this is its position. |
| UnionProvider.IsSingleOptional | src/adaptix/_internal/morphing/generic_provider.py:269-270 | In a normalised union, a single optional has exactly two cases and exactly one of them is `None`. |
| UnionProvider.IsClassOrigin | src/adaptix/_internal/morphing/generic_provider.py:272-273 | An origin counts as a class exactly when it is `None` or a class, and not a `Callable` subclass. |
| UnionProvider.ProvideLoader | src/adaptix/_internal/morphing/generic_provider.py:159-202 | Never refuses. A single optional gets an optional loader around the loader of its non-`None` case, requested at generic position 0, with the configured trail. Otherwise the result is a union loader over all case loaders, in case order, with the configured trail. It fails exactly when a sub-request fails. |
| UnionProvider.OptionalLoadsNoneWithoutInner | src/adaptix/_internal/morphing/generic_provider.py:204-221 | The optional loader loads `None` as `None` whatever the inner loader would do. |
| UnionProvider.OptionalLoaderOnValue | src/adaptix/_internal/morphing/generic_provider.py:204-221 | On other data, an inner success or unexpected exception comes through unchanged. An inner LoadError `e` becomes `UnionLoadError([TypeLoadError(None, data), e])` under FIRST and ALL, and comes through unchanged under DISABLE. |
| UnionProvider.UnionLoaderDtDisable | src/adaptix/_internal/morphing/generic_provider.py:223-232 | The loop returns what the DISABLE fold gives. It calls candidates up to and including the first one that does not raise a LoadError, and no later ones. |
| UnionProvider.UnionLoaderDtFirst | src/adaptix/_internal/morphing/generic_provider.py:234-245 | The loop, which collects errors, returns what the FIRST fold gives and calls the same candidates as DISABLE. |
| UnionProvider.UnionLoaderDtAll | src/adaptix/_internal/morphing/generic_provider.py:247-267 | The loop with the `has_unexpected_error` flag returns what the ALL fold gives. It stops at a success met before any unexpected exception, and otherwise calls every candidate. |
| UnionProvider.DispatchTable | src/adaptix/_internal/morphing/generic_provider.py:323-325 | One entry per case in case order. The key is `type(None)` for the `None` case and the origin otherwise. |
| UnionProvider.ProvideDumper | src/adaptix/_internal/morphing/generic_provider.py:275-326 | Outside the single-optional case, refuses with a terminal `CannotProvide` exactly when some case origin is not `None` or a class, or is a `Callable` subclass. A single optional yields `as_is_stub` when its inner dumper is the stub, and the optional dumper otherwise. |
| UnionProvider.GeneralDumperShape | src/adaptix/_internal/morphing/generic_provider.py:306-326 | In the general case the dumper is built iff every sub-request succeeds. It is `as_is_stub` exactly when every case dumper is the stub, and otherwise a dispatching dumper over the case table. |
| UnionProvider.OptionalDumperBehaviour | src/adaptix/_internal/morphing/generic_provider.py:334-340 | The optional dumper passes `None` through and delegates everything else. Wrapping the stub behaves as the stub. |
| UnionProvider.UnionDumperDispatchesOnType | src/adaptix/_internal/morphing/generic_provider.py:323-332 | The dispatching dumper calls the dumper of the case keyed by `type(data)`, with `type(None)` for `None`. A later case with the same key wins. |
| UnionProvider.AsIsCollapseIsSound | src/adaptix/_internal/morphing/generic_provider.py:320-321 | Collapsing an all-stub union to `as_is_stub` agrees with dispatching wherever dispatch finds an entry. |
| UnwrappingProviders.UnwrapNewType | src/adaptix/_internal/morphing/generic_provider.py:34-47 | Delegates with `__supertype__` exactly when the request has a type-hint location holding a NewType. Otherwise it refuses non-terminally. |
| UnwrappingProviders.UnwrapTags | src/adaptix/_internal/morphing/generic_provider.py:50-64 | Delegates with the stripped type exactly when stripping changes it. Otherwise it refuses non-terminally. |
| UnwrappingProviders.TagUnwrapTerminates | src/adaptix/_internal/morphing/generic_provider.py:53-57 | The tag unwrapper never delegates the request it was given. When stripping is idempotent, it refuses the request it delegated. |
| UnwrappingProviders.UnwrapAlias | src/adaptix/_internal/morphing/generic_provider.py:67-85 | Delegates exactly when the type normalises to a type alias, substituting the args' sources when there are any. Otherwise it refuses non-terminally. |
| Signatures.Slice | dataclass_factory_30/provider/fields.py:90-92 | `params[slice(start, None)]`: the parameters from `start` on, or none when `start` is past the end. |
| Signatures.NonKwargsMembers | dataclass_factory_30/provider/fields.py:131-132 | The comprehension's filter keeps exactly the parameters that are not `**kwargs`. |
| Fields.GetFuncIff | dataclass_factory_30/provider/fields.py:89-135 | Raises `ValueError` iff some sliced parameter is positional-only or `*args`. `extra` is `ExtraKwargs` iff some sliced parameter is `**kwargs`, and `None` otherwise. There is one field per non-`**kwargs` parameter, in order, with: its name; type `Any` when unannotated; `NoDefault(True)` or `DefaultValue(default)`; empty metadata. |
| Fields.ParamField | dataclass_factory_30/provider/fields.py:117-130 | A parameter becomes a field with its name. The type is the annotation, or `Any` when there is none. The default is `DefaultValue` of the parameter default, or `NoDefault(field_is_required=True)` when there is none. Metadata is empty. |
| Fields.GetFuncIffRejectsPositionalOnly | dataclass_factory_30/provider/fields.py:94-107 | A positional-only parameter inside the slice makes `get_func_iff` raise `ValueError`. |
| Fields.GetFuncIffTrailingKwargs | dataclass_factory_30/provider/fields.py:109-135 | Appending `**kwargs` sets `extra` to `ExtraKwargs` and leaves the fields unchanged. |
| Fields.GetDcDefault | dataclass_factory_30/provider/fields.py:206-211 | `default` wins over `default_factory`. With neither, the result is `NoDefault(field_is_required=True)`. Each case holds iff its condition does. |
| Fields.Positions | dataclass_factory_30/provider/fields.py:229-238 | The reference for the filter: the positions of the fields that pass it, strictly increasing, and a position is listed exactly when its field passes. |
| Fields.FieldsFilteredInOrder | dataclass_factory_30/provider/fields.py:229-238 | `_get_fields_filtered` has one entry per kept position, in that order. Each entry has the field's type, name, `get_dc_default` default and metadata. |
| Fields.FieldsFilteredKeeps | dataclass_factory_30/provider/fields.py:229-238 | Every field that passes the filter has its entry in the result. |
| Fields.FieldsFilteredOnlyKept | dataclass_factory_30/provider/fields.py:229-238 | Every entry of the result comes from a field that passes the filter. |
| Fields.NamedTupleInputFigure | dataclass_factory_30/provider/fields.py:163-167 | Refuses exactly on non-NamedTuple classes. Otherwise it is `get_func_iff` on `__new__` without its first parameter. |
| Fields.NamedTupleOutputFigure | dataclass_factory_30/provider/fields.py:169-173 | Refuses and fails exactly when the input figure does. Otherwise it has the input figure's fields, read by attribute. |
| Fields.TypedDictFields | dataclass_factory_30/provider/fields.py:177-191 | One field per type hint, in order, with that name and type, required iff `__total__`, and empty metadata. It refuses exactly on non-TypedDict classes. |
| Fields.TypedDictInputFigure | dataclass_factory_30/provider/fields.py:193-197 | Refuses exactly on non-TypedDict classes. Otherwise its fields are the TypedDict fields and `extra` is `None`. |
| Fields.TypedDictOutputFigure | dataclass_factory_30/provider/fields.py:199-203 | Refuses exactly on non-TypedDict classes. Otherwise its fields are the TypedDict fields, read by item. |
| Fields.TypedDictFiguresAgree | dataclass_factory_30/provider/fields.py:176-203 | Input and output figures list the same fields, each required iff `__total__`. |
| Fields.DataclassInputFigure | dataclass_factory_30/provider/fields.py:240-246 | Refuses exactly on non-dataclasses. Otherwise the fields are the entries of the `init=True` fields, one each, in declaration order, and `extra` is `None`. |
| Fields.DataclassOutputFigure | dataclass_factory_30/provider/fields.py:248-254 | Refuses exactly on non-dataclasses. Fields are read by attribute. |
| Fields.DataclassOutputListsAllFields | dataclass_factory_30/provider/fields.py:225-254 | The output figure lists every dataclass field, in declaration order, with its type, name, `get_dc_default` default and metadata. |
| Fields.DataclassAllInitSameFields | dataclass_factory_30/provider/fields.py:240-254 | When every field takes part in `__init__`, the input and output figures list the same fields. |
| Fields.ClassInitInputFigure | dataclass_factory_30/provider/fields.py:257-267 | Never lets `ValueError` out. It refuses exactly when the type is not a class or `get_func_iff` on `__init__` without `self` fails. Otherwise it is that figure. |
| FieldsBasics.ScanIsConsistency | tests_30/provider/test_fields_basics.py:12-148 | The one-pass check accepts exactly the field lists whose kinds do not go back, with no required positional field after an optional positional one and no duplicate name. On success it collects exactly their names. |
| FieldsBasics.MakeInputFieldsFigure | tests_30/provider/test_fields_basics.py:12-148 | The constructor succeeds iff the fields are consistent and every extra target names a field. On success the figure holds exactly the given constructor, extra and fields. |
| FieldsBasics.KindOrderViolationRejected | tests_30/provider/test_fields_basics.py:12-43 | A field whose kind ranks below an earlier field's kind is rejected, whatever the names, defaults and requiredness. |
| FieldsBasics.RequiredAfterOptionalRejected | tests_30/provider/test_fields_basics.py:79-90 | A required positional field after an optional positional one is rejected, across the positional-only to positional-or-keyword boundary too. |
| FieldsBasics.DuplicateNameRejected | tests_30/provider/test_fields_basics.py:107-130 | Two fields with the same name are rejected. |
| FieldsBasics.UnknownTargetRejected | tests_30/provider/test_fields_basics.py:133-148 | An extra target naming no field is rejected. |
| FieldsBasics.InconsistentFieldsOrder | tests_30/provider/test_fields_basics.py:12-43 | The three backward kind pairs are rejected both with the test's shared name `a` and with distinct names. |
| FieldsBasics.BadNonRequiredFieldOrder | tests_30/provider/test_fields_basics.py:79-90 | Required `a`, optional `b`, required `c` is rejected whenever `b` and `c` are positional. |
| FieldsBasics.OkNonRequiredFieldOrder | tests_30/provider/test_fields_basics.py:93-104 | The same triple is accepted when `c` is keyword-only and the first two kinds are in order. |
| FieldsBasics.NameDuplicates | tests_30/provider/test_fields_basics.py:107-130 | Two positional-or-keyword fields named `a` are rejected. |
| FieldsBasics.WildTargets | tests_30/provider/test_fields_basics.py:133-148 | `ExtraTargets(("b",))` over a single field `a` is rejected. |
| ClassInit.InitFieldFromParam | tests_30/provider/fields/test_figure_provider/test_class_init.py:29-62 | A parameter maps to a field with: its name; type `Any` when unannotated and the annotation otherwise; `NoDefault()` and required without a default; `DefaultValue(d)` and optional with default `d`; empty metadata; and its kind (positional-only, positional-or-keyword or keyword-only). |
| ClassInit.FieldsOfLegalConsistent | tests_30/provider/fields/test_figure_provider/test_class_init.py:65-121 | The fields made from a legal signature pass the figure constructor's consistency rule, so building the figure never raises `ValueError`. |
| ClassInit.ClassInitInputFigure | tests_30/provider/fields/test_figure_provider/test_class_init.py:65-134 | Refuses exactly when `__init__` has `*args`. The constructor is the class. `extra` is `ExtraKwargs` iff there is `**kwargs`, and `None` otherwise. There is one field per parameter after `self` other than `**kwargs`, in order, each related to its parameter as above. |
| ClassInit.ClassInitTrailingKwargs | tests_30/provider/fields/test_figure_provider/test_class_init.py:65-86 | Adding `**kwargs` changes only `extra`, to `ExtraKwargs`. The fields stay identical. |
| ClassInit.ExtraNone | tests_30/provider/fields/test_figure_provider/test_class_init.py:65-74 | `Valid1` gets the four expected fields, with no extra and itself as constructor. |
| ClassInit.ExtraKwargsCase | tests_30/provider/fields/test_figure_provider/test_class_init.py:77-86 | `Valid2Kwargs` gets the same four fields with `ExtraKwargs`. |
| ClassInit.PosOnlyAcceptedHereRefusedBefore | tests_30/provider/fields/test_figure_provider/test_class_init.py:89-121 | `__init__(self, a, /, b)` gives `a` the kind `POS_ONLY` and `b` the kind `POS_OR_KW`. The 3.0 `ClassInitFieldsProvider` refuses the same class. |
| ClassInit.VarArgRefused | tests_30/provider/fields/test_figure_provider/test_class_init.py:124-134 | `__init__(self, a, b, *args)` is refused with `CannotProvide`. |
| ProviderBasics.AllowedClasses | dataclass_factory_30/provider/provider_basics.py:36-85 | `FieldNameRC` allows field-name requests; the three type checkers allow type-hint requests. |
| ProviderBasics.CheckRequest | dataclass_factory_30/provider/provider_basics.py:43-85 | `FieldNameRC` passes iff the names are equal. `SubclassRC` passes iff `is_subclass_soft` holds. `ExactTypeRC` passes iff the request type normalises to the stored form. `ExactOriginRC` passes iff the normalised origin is the stored one. `ValueError` comes out exactly when an exact checker cannot normalise the request type. |
| ProviderBasics.CallAsWritten | dataclass_factory_30/provider/provider_basics.py:28-33 | As written, `__call__` never passes. A request outside the allowed classes is refused, and only a normalisation `ValueError` escapes otherwise. |
| ProviderBasics.CallIntended | dataclass_factory_30/provider/provider_basics.py:28-33 | As intended, the call passes iff the request is an allowed instance and `_check_request` passes. A request outside the allowed classes is refused without checking. |
| ProviderBasics.AsWrittenDiffersOnlyOnPass | dataclass_factory_30/provider/provider_basics.py:28-33 | The two readings of `__call__` differ exactly where `_check_request` passes. |
| ProviderBasics.FieldNameMatchRefusedAsWritten | dataclass_factory_30/provider/provider_basics.py:28-46 | A field-name request for exactly the checker's name is admitted as intended and refused as written. |
| ProviderBasics.CreateTypeHintReqChecker | dataclass_factory_30/provider/provider_basics.py:88-98 | Priority order: a protocol or abstract class gives `SubclassRC`; then a member of `FORBID_ZERO_ARGS` gives `ExactOriginRC`; otherwise `ExactTypeRC` of the normal form. It raises `ValueError` iff normalisation fails. |
| ProviderBasics.CreateReqChecker | dataclass_factory_30/provider/provider_basics.py:101-105 | A string gives `FieldNameRC` before any type test. Anything else goes to the type-hint factory. |
| ProviderBasics.ExactTypeCheckerAdmitsSameNormalForm | dataclass_factory_30/provider/provider_basics.py:49-98 | An exact-type checker admits exactly the type-hint requests whose type has the same normal form, and so the type itself. |
| ProviderBasics.NameCheckerAdmitsExactlyTheName | dataclass_factory_30/provider/provider_basics.py:36-46 | A name checker admits exactly the field-name requests with that name. |
| ProviderBasics.LimitingKeys | dataclass_factory_30/provider/provider_basics.py:122-128 | The limiting provider's dispatcher covers exactly the request classes handled by both the wrapped provider and the checker. |
| ProviderBasics.LimitingProxyAsWritten | dataclass_factory_30/provider/provider_basics.py:135-137 | As written, the proxy never reaches the wrapped provider. It fails with `ValueError` exactly when the check does. |
| ProviderBasics.LimitingProxy | dataclass_factory_30/provider/provider_basics.py:135-137 | With the intended check, the wrapped provider answers every admitted request, refused requests get `CannotProvide`, and a normalisation failure gives `ValueError`. |
| ProviderBasics.LimitingProviderNeverDelegatesAsWritten | dataclass_factory_30/provider/provider_basics.py:117-137 | A provider limited to field `a` is dispatched a request for `a`. As written it refuses, and as intended the wrapped provider answers. |
| ProviderBasics.ProvideValue | dataclass_factory_30/provider/provider_basics.py:150-159 | The stored value is provided exactly for instances of the provider's request class. |
| ProviderBasics.ValueProviderIgnoresRequest | dataclass_factory_30/provider/provider_basics.py:158-159 | Any two requests of that class get the same stored value. |
| ProviderBasics.ForeignParser | dataclass_factory_30/provider/provider_basics.py:140-147 | A result comes back unchanged, a compatible exception becomes `ParseError`, and any other exception propagates. |
| ProviderBasics.ForeignParserIdempotent | dataclass_factory_30/provider/provider_basics.py:140-147 | No compatible exception escapes the wrapper, and wrapping twice is the same as wrapping once. |

## Left out

- Exception and `CannotProvide` message text and the `is_demonstrative` flag are not modelled. `CompatExceptionGroup` is kept only as "an aggregate carrying a list of errors".
- `PathLikeProvider` and `path_like_dumper` are a thin wrapper over `__fspath__`.
- The mediator (`mandatory_provide`, `mandatory_provide_by_iterable`, `delegating_provide`) is a resolver function parameter. Its failure is the `SubRequestFailed` outcome. For unwrapping providers, a `Provided(t)` result stands for delegating with `t`.
- `normalize_type`, `try_normalize_type`, `strip_tags`, `strip_annotated`, `is_new_type`, `is_subclass_soft`, `is_protocol`, `isabstract` and `FORBID_ZERO_ARGS` are uninterpreted parameters. `is_subclass_soft(None, Callable)` is taken to be false: a `None` origin is modelled as a class origin.
- `ClassDispatcher` is abstracted as a lookup along a given MRO, and its key view intersection as set intersection.
- Python reflection (`inspect.signature`, `dataclasses.fields`, `get_type_hints`, `is_dataclass`, `is_typed_dict_class`, `is_named_tuple_class`) is given as input records. `GetterKind.to_function` is not modelled.
- The `ExtraSkip`/`ExtraForbid`/`ExtraKwargs` marker classes are an `UnboundExtra` datatype.
- The unknown-`DebugTrail` `raise ValueError` branches cannot be reached, because `DebugTrail` is a three-case datatype.
- `Literals.ValueSet` keeps the integer representative for `True`/`1`. Which of the two equal elements Python's `set` keeps is not modelled.
- `ClassInit.ClassInitInputFigure` requires a signature Python accepts in a `def` (`LegalSignature`). Reflection only ever reports such signatures.
- The later API's implementation (`fields_basics`, `ClassInitInputFigureProvider`) is not part of this model. Its behaviour is inferred from the two test files.
- The later API's refusal of a non-class is not modelled, because the tests do not exercise it.
- ALL returns the first success at once when no unexpected exception has been seen (`generic_provider.py:259-261`), and later candidates are not called. `UnionProvider.UnionLoaderDtAll` states this call count.
- The strict Literal loader's error repr is `set(args)` (`generic_provider.py:123`), in which `True` and `1` collapse into one element.
- Values are limited to `None`, `bool`, `int`, finite `float` (as an exact real), `str`, Enum members, opaque objects and lists. Lists stand for every unhashable value. Dicts, sets, tuples, NaN and infinities are not modelled.
- A `TypeError` from hashing stands for any non-LoadError exception Python raises there. Its message is not modelled.
- Caching, thread safety, recursive types and `tests/conftest.py` fixtures are not modelled.
- `SpecialCases.WithDefaultClause`: `setattr` on an arbitrary object is modelled as a field of a `Sieve` class.

## Findings

| source | as written | input that shows it | evidently intended | confidence | as-written member | corrected member |
|---|---|---|---|---|---|---|
| dataclass_factory_30/provider/provider_basics.py:28-33 | `__call__` runs `_check_request` and then falls through to `raise CannotProvide`, so every request is refused, including those the check admits. `LimitingProvider._lp_proxy_provide` therefore never reaches the wrapped provider. | `FieldNameRC("a")` called on a `FieldNameRM` request with `field_name == "a"` | return after a passing `_check_request`, raising only for requests outside the allowed classes | not executed | ProviderBasics.CallAsWritten, ProviderBasics.LimitingProxyAsWritten (counterexamples: ProviderBasics.FieldNameMatchRefusedAsWritten, ProviderBasics.LimitingProviderNeverDelegatesAsWritten) | ProviderBasics.CallIntended, ProviderBasics.LimitingProxy |
