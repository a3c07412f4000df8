# godot-rust method export and class registry, modelled in Dafny

This project models two parts of godot-rust, the Rust bindings for the Godot
game engine:

* **The `#[methods]` attribute macro** (`gdnative-derive/src/methods.rs`).
  It reads an `impl` block and finds the methods marked `#[method]`, or the
  legacy `#[export]`. It parses each marker's options: `rpc = "<mode>"`,
  `name = "<name>"` and `deref_return`. It checks each parameter's `#[opt]`
  and `#[base]` markers against the positional rules:
  * the receiver and the base cannot be optional;
  * the base must be the second parameter;
  * optional parameters form a tail.

  It strips every marker so that the block compiles again, and it inserts
  a compile error next to each method that broke a rule. Methods with
  generic parameters are dropped from the export. In the exported copies
  of the others, wildcard parameters get synthetic names `___unused_arg_<i>`
  and `mut` bindings and `unsafe` are removed. Finally each exported method yields one step of the generated `register`
  body. The step is a compile error when the method has no parameters, or
  when it uses the legacy `#[export]` marker without a base parameter.
  Otherwise it is a registration. A registration carries the name (the
  override or the Rust name), the RPC mode (default `Disabled`), the role
  of each parameter (plain, base or optional) and two deprecation warnings.
* **The class registry** (`gdnative-core/src/export/class_registry.rs`): the
  process-wide map from a class's type identity to the name it was
  registered under. It supports lookup, lookup with a fallback,
  registration (which returns the previous record) and cleanup.

Modules follow the source:

* `Syntax` is the part of the `syn` tree that is inspected.
* `Diagnostics` holds the error kinds. Its `Message` function gives each kind's message text exactly as the source writes it (methods.rs lines 101, 109, 118-121, 256, 269, 276, 292-345, 353-369, 414, 422, 431 and 466-482).
* `RpcModes` is `RpcMode::parse` and its default.
* `ExportOptions` is the marker `retain` closure and its option loop.
* `Params` is the parameter loop.
* `Expose` is `impl_gdnative_expose`.
* `Derive` is the per-method closure of `derive_methods`.
* `ClassRegistry` is the registry, as a class with a `map` field.
* `Seqs`, `Text` and `Wrappers` are generic helpers.

Each loop that changes state step by step in the source is a Dafny method
with a loop. Each such method is proved equal to a recursive specification
function over prefixes of its input. The properties are proved as lemmas
about those functions.

## Model

| member | source | states |
|---|---|---|
| Diagnostics.TooManyOptionalMessage | gdnative-derive/src/methods.rs:118-121 | an example: for maximum 1 and count 13 the capacity message prints both numbers in decimal |
| Diagnostics.UnknownOptionMessage | gdnative-derive/src/methods.rs:365-369 | an example: for marker `method` and option `foo` the unknown-option message names both |
| RpcModes.ParseRpcMode | gdnative-derive/src/methods.rs:18-30 | parsing succeeds exactly on the seven tokens, and a parsed mode prints back as the token it came from |
| RpcModes.RpcTokenRoundTrip | gdnative-derive/src/methods.rs:18-30 | every mode is parsed back from its own token |
| ExportOptions.ApplyOption | gdnative-derive/src/methods.rs:265-372 | one option item: no error exactly when the item is well formed and its key is not yet set; a well-formed item is applied even when it also reports "set more than once"; literal items, list items and unknown keys each give their own error; the syntax flag is never changed |
| ExportOptions.ApplyOptionsMonotone | gdnative-derive/src/methods.rs:265-372 | the option loop only appends errors and keeps the syntax flag |
| ExportOptions.ApplyOptionsSetKeys | gdnative-derive/src/methods.rs:286-363 | after the loop a key is set exactly when it was set before or some well-formed item names it |
| ExportOptions.UpdatedSets | gdnative-derive/src/methods.rs:286-363 | applying a well-formed item sets its key and leaves the other keys as they were |
| ExportOptions.ApplyOptionsErrorFree | gdnative-derive/src/methods.rs:265-372 | the loop adds no error exactly when every item is well formed, names a key not set before, and no two items name the same key |
| ExportOptions.CleanOptionsSnoc | gdnative-derive/src/methods.rs:265-372 | the clean-options condition splits into the prefix and the last item |
| ExportOptions.ApplyOptionsClean | gdnative-derive/src/methods.rs:265-372 | a clean argument list records no error |
| ExportOptions.ApplyOptionsErrorsClean | gdnative-derive/src/methods.rs:265-372 | an argument list that records no error is clean |
| ExportOptions.ScanAttrOther | gdnative-derive/src/methods.rs:223-377 | a non-marker attribute is kept and changes nothing else |
| ExportOptions.ScanAttrMarker | gdnative-derive/src/methods.rs:241-374 | a marker is never kept and creates the shared arguments. A failed parse adds the parser's error, and `#[method = ...]` adds the name-value error. A bare marker adds nothing, and an argument list adds no error exactly when its options are clean for the shared arguments |
| ExportOptions.ScanAttrsKept | gdnative-derive/src/methods.rs:223-378 | the kept attributes are exactly the non-markers, in order |
| ExportOptions.ScanAttrsMarked | gdnative-derive/src/methods.rs:232-245 | export arguments exist exactly when some attribute is an outer `export` or `method` marker |
| ExportOptions.ScanAttrsSyntax | gdnative-derive/src/methods.rs:241-245 | the legacy-syntax flag comes from the last marker |
| ExportOptions.ScanAttrsUnmarked | gdnative-derive/src/methods.rs:223-378 | without markers all attributes are kept and no error is recorded |
| ExportOptions.SharedArgsExample | gdnative-derive/src/methods.rs:243-245 | two markers on one method feed one set of export arguments |
| ExportOptions.ApplyKeyStep | gdnative-derive/src/methods.rs:286-371 | the imperative key dispatch computes what the option specification does |
| ExportOptions.ParseOptions | gdnative-derive/src/methods.rs:265-372 | the `for nested_meta` loop computes the option fold |
| ExportOptions.RetainAttrs | gdnative-derive/src/methods.rs:219-378 | the `retain` closure computes the attribute scan: kept attributes, export arguments, errors |
| Params.ScanParamsShape | gdnative-derive/src/methods.rs:384-403 | every parameter is kept in order with its markers stripped; errors are only appended |
| Params.ScanParamsOptional | gdnative-derive/src/methods.rs:410-418 | the optional count exists exactly when a parameter from index 2 on is `#[opt]`, and then lies between 1 and the parameter count minus 2 |
| Params.ScanParamsOptionalCount | gdnative-derive/src/methods.rs:410-418 | the reported count is exactly the number of `#[opt]` parameters from index 2 on, whether or not the positional rules hold |
| Params.ScanParamsBase | gdnative-derive/src/methods.rs:405-434 | `exist_base_arg` holds exactly when some parameter is `#[base]`, or is the second one in legacy syntax |
| Params.PositionalOkSnoc | gdnative-derive/src/methods.rs:410-434 | the positional rules hold for a list exactly when they hold for its prefix and its last parameter |
| Params.ScanParamsErrorFree | gdnative-derive/src/methods.rs:410-434 | the parameter loop adds no error exactly when the positional rules hold |
| Params.ScanParamsOptionalTail | gdnative-derive/src/methods.rs:410-424 | when the rules hold, the `#[opt]` parameters are exactly the last `k`, where `k` is the reported count |
| Params.StripParamClean | gdnative-derive/src/methods.rs:393-403 | a stripped parameter has no `#[opt]`/`#[base]` but keeps its other attributes, pattern and type |
| Params.HasParamMarkerSnoc | gdnative-derive/src/methods.rs:393-403 | a list with one more attribute has a marker exactly when the prefix has it or the new attribute is it |
| Params.RetainParamAttrs | gdnative-derive/src/methods.rs:390-403 | the parameter `retain` closure keeps the non-markers and reports whether `opt` and `base` were present |
| Params.CheckPosition | gdnative-derive/src/methods.rs:410-434 | the per-parameter checks compute one step of the parameter scan |
| Params.ScanInputs | gdnative-derive/src/methods.rs:380-435 | the `for (n, arg)` loop computes the parameter scan |
| Expose.AnalyzeUnmarked | gdnative-derive/src/methods.rs:218-450 | a method without a marker is kept unchanged, records no error and is not exported |
| Expose.AnalyzeMarked | gdnative-derive/src/methods.rs:380-443 | a marked method is exported whatever errors it recorded; its kept copy loses only the markers; the export shares its signature and respects the optional-count bound |
| Expose.AnalyzePositionalErrors | gdnative-derive/src/methods.rs:380-445 | a marked method's errors are those of its attributes exactly when its parameters meet the positional rules |
| Expose.AnalyzeKeepsSignature | gdnative-derive/src/methods.rs:437-448 | the copy kept in the block keeps `unsafe`, name, generics, return type, body and every parameter pattern |
| Expose.CollectItemsAppend | gdnative-derive/src/methods.rs:216-455 | the item loop is compositional, so it keeps source order |
| Expose.ErrorItemsFiltered | gdnative-derive/src/methods.rs:445-449 | the verbatim error items are all errors |
| Expose.ProcessItemPassThrough | gdnative-derive/src/methods.rs:445-451 | one item contributes its cleaned self, error items aside |
| Expose.CollectItemsPassThrough | gdnative-derive/src/methods.rs:216-455 | error items aside, the rebuilt block is the input with each method cleaned and every other item unchanged |
| Expose.CollectItemsCandidates | gdnative-derive/src/methods.rs:437-442 | exactly one export candidate per marked method, in order |
| Expose.CollectItemsBound | gdnative-derive/src/methods.rs:380-443 | every candidate respects the optional-count bound |
| Expose.GenericsErrorOrder | gdnative-derive/src/methods.rs:464-486 | a generic method gets one error, checked in the order type, lifetime, const |
| Expose.CheckShapesSurvivors | gdnative-derive/src/methods.rs:460-522 | the exported methods are the non-generic candidates, normalised, in order |
| Expose.CheckShapesDropped | gdnative-derive/src/methods.rs:464-486 | the generic candidates give one error item each, in order |
| Expose.CheckShapesCount | gdnative-derive/src/methods.rs:460-522 | every candidate is either exported or dropped |
| Expose.UnusedArgNamesDistinct | gdnative-derive/src/methods.rs:497-498 | wildcards at different indices get different names |
| Expose.NormalizedInputsClean | gdnative-derive/src/methods.rs:488-515 | no exported parameter is a wildcard or a `mut` binding; wildcards become `___unused_arg_<i>`; all else is unchanged |
| Expose.ExposeSurvivors | gdnative-derive/src/methods.rs:457-523 | every exported method is free of generics and `unsafe`, normalised, and within the optional-count bound |
| Expose.ExposeCleanedBlock | gdnative-derive/src/methods.rs:197-526 | the output block keeps the type; error items aside it holds the input; the errors of dropped methods come after all items |
| Expose.ProcessMethod | gdnative-derive/src/methods.rs:218-450 | the method arm of the item loop computes the per-item specification |
| Expose.NormalizeInputs | gdnative-derive/src/methods.rs:490-515 | the in-place `for_each` computes the normalised parameter list |
| Expose.CollectMethods | gdnative-derive/src/methods.rs:212-455 | the item loop computes the rebuilt items and the candidates |
| Expose.CheckMethods | gdnative-derive/src/methods.rs:459-523 | the candidate loop computes the error items and the exported methods |
| Expose.ImplGdnativeExpose | gdnative-derive/src/methods.rs:197-526 | the whole function computes the cleaned block and the export list |
| Derive.RegisterMethod | gdnative-derive/src/methods.rs:85-177 | gives each error exactly on its condition, in source order: no parameters; legacy syntax without base; more optional parameters than the count minus 2. Otherwise, and only then, the method is registered |
| Derive.RegistrationShape | gdnative-derive/src/methods.rs:129-159 | a registration forwards every parameter in order: base at index 1 exactly when a base exists, optional exactly on the last `k`. It uses the override name, or the Rust name. The RPC mode defaults to `Disabled`. It warns for legacy syntax, and for a reference return without `deref_return` |
| Derive.MarkedRegistered | gdnative-derive/src/methods.rs:85-177 | a marked method with a receiver is registered, whatever errors it recorded, exactly when it is not legacy or has a base parameter |
| Derive.RolesFollowMarkers | gdnative-derive/src/methods.rs:132-142 | when the positional rules hold, the roles match the method's own `#[opt]`/base parameters and it is registered unless it lacks a receiver or a legacy base |
| Derive.NeverTooManyOptional | gdnative-derive/src/methods.rs:114-127 | the "at most N optional parameters" error cannot arise from an expanded block |
| Derive.DerivedSteps | gdnative-derive/src/methods.rs:76-188 | one registration step per exported method, in order, for the block's own type |
| Derive.DeriveMethods | gdnative-derive/src/methods.rs:74-193 | the macro computes the cleaned block and the registration steps |
| Derive.ContiguityScan | gdnative-derive/src/methods.rs:410-424 | `(&self, #[base] owner, #[opt] a, b)` gives one optional, a base, and exactly the "required after optional" error |
| Derive.ContiguityErrorStillRegistered | gdnative-derive/src/methods.rs:419-442 | that method is still exported and registered, and the optional role goes to `b` |
| Derive.FourParamRoles | gdnative-derive/src/methods.rs:132-142 | four parameters with one optional and a base get the roles plain, base, plain, optional |
| Derive.UnknownRpcStillRegistered | gdnative-derive/src/methods.rs:304-311 | an unknown RPC token is reported, and the method is still registered with `Disabled` |
| Derive.NameOverrideRegistered | gdnative-derive/src/methods.rs:321-341 | `#[method(name = "bar")]` on `foo` registers under `"bar"` with no error |
| Text.NatTextInjective | gdnative-derive/src/methods.rs:498 | decimal rendering of indices is injective |
| ClassRegistry.Registry.constructor | gdnative-core/src/export/class_registry.rs:10-11 | the registry starts empty |
| ClassRegistry.Registry.WithClassInfo | gdnative-core/src/export/class_registry.rs:17-24 | gives the function of the class's record exactly when the class is registered |
| ClassRegistry.Registry.ClassName | gdnative-core/src/export/class_registry.rs:26-31 | gives the registered name exactly when registered |
| ClassRegistry.Registry.ClassNameOrDefault | gdnative-core/src/export/class_registry.rs:33-41 | gives the registered name, or the type's own name when unregistered |
| ClassRegistry.Registry.RegisterClassAs | gdnative-core/src/export/class_registry.rs:43-49 | returns the previous record if any, and records the new name for that class only |
| ClassRegistry.Registry.Cleanup | gdnative-core/src/export/class_registry.rs:51-55 | empties the registry |
| ClassRegistry.RegisterTwice | gdnative-core/src/export/class_registry.rs:43-49 | re-registration returns the first record and the second name wins |
| ClassRegistry.RegisterIndependent | gdnative-core/src/export/class_registry.rs:43-49 | registering one class leaves another's name unchanged |
| ClassRegistry.CleanupForgets | gdnative-core/src/export/class_registry.rs:51-55 | after cleanup lookups fail and the diagnostic name falls back to the type name |

### Behaviour that is easy to misread

* A marked method is exported and registered whatever attribute or
  parameter errors it recorded. Its errors become compile errors beside it
  in the cleaned block (`Expose.AnalyzeMarked`, `Derive.MarkedRegistered`).
  There are three exceptions. A method with generic parameters is dropped
  from the export list (`Expose.CheckShapesDropped`). A method without
  parameters, and a legacy `#[export]` method without a base parameter,
  yield a compile error instead of a registration (`Derive.RegisterMethod`).
* When the optional parameters do not form a tail, the optional role still
  goes to the last `k` parameters, where `k` counts the `#[opt]` parameters
  from index 2 on
  (`Params.ScanParamsOptionalCount`, `Derive.RegistrationShape`).
* A second `rpc` or `name` option reports an error and also replaces the
  earlier value (`ExportOptions.ApplyOption`).
* Every marker sets the legacy-syntax flag, so the last marker decides it
  (`ExportOptions.ScanAttrsSyntax`). Several markers on one method share
  one set of export arguments (`ExportOptions.SharedArgsExample`).
* The "there can be at most N optional parameters" error cannot arise. The
  parameter scan never reports more than the parameter count minus 2
  (`Derive.NeverTooManyOptional`).

## Left out

- Token generation is not modelled. This covers `quote!`, spans, `ToTokens` for `RpcMode`, and the `#[automatically_derived]` impl around the registration body. The generated `register` body is modelled as a list of `Derive.Step` values.
- The expansion of `godot_wrap_method!`, `ClassBuilder::method`, `with_rpc_mode`, `done_stateless` and the two deprecation macros is not modelled, because they live in other crates. A registration records the arguments passed to them.
- The `syn` parser is not modelled. `parse_meta` failing is an input (`ParseError` with the parser's message). Source spans of errors are not modelled.
- Path printing for the "unknown option" message is approximated. `to_token_stream` output is modelled as the segments joined by ` :: `, with a leading `:: ` for a leading colon.
- Only the counts of a method's generic parameters are kept, because only the counts are inspected.
- A pattern's sub-pattern and attributes are not modelled. Types, receivers and bodies are kept as text, because the macro passes them through untouched.
- `usize` arithmetic is modelled on unbounded integers. `arg_count - 2` and `arg_count - optional_args` are `int` subtractions. The cases where `usize` would underflow cannot arise: an optional count exists only with at least three parameters (`Params.ScanParamsOptional`).
- ClassRegistry: the `Lazy<RwLock<...>>` global is one `Registry` object, and locking and concurrent access are not modelled.
- ClassRegistry: `TypeId::of::<C>()` is a `TypeKey` value, and `std::any::type_name::<C>()` is the `typeName` parameter of `ClassNameOrDefault`.
- ClassRegistry: `Cow<'static, str>` is a plain string.
