/** `derive_methods` (gdnative-derive/src/methods.rs:74-193): what the
    generated `NativeClassMethods::register` does for each exported method. */
module Derive {
  import opened Wrappers
  import opened Seqs
  import opened Syntax
  import opened Diagnostics
  import opened RpcModes
  import opened ExportOptions
  import opened Params
  import opened Expose

  /** How a parameter is forwarded to the wrapping macro: as is, as
      `#[base]`, or as `#[opt]`. */
  datatype ParamRole = Plain | Base | Optional

  datatype RoledArg = RoledArg(role: ParamRole, param: Param)

  /** The `godot_wrap_method!` invocation. */
  datatype WrappedMethod = WrappedMethod(classTy: string, isDerefReturn: bool, name: string, args: seq<RoledArg>, output: ReturnType)

  /** One `builder.method(name, method).with_rpc_mode(rpc).done_stateless()`
      call, with the two deprecation warnings that may follow it. */
  datatype MethodRegistration = MethodRegistration(
    wrapped: WrappedMethod,
    nameString: string,
    rpc: RpcMode,
    warnDeprecatedExport: bool,
    warnDeprecatedRefReturn: bool)

  /** What one exported method becomes in the generated `register` body. */
  datatype Step = CompileError(error: ExportError) | Register(registration: MethodRegistration)

  /** The macro output: the cleaned block and the `register` body. */
  datatype DerivedMethods = DerivedMethods(implBlock: ItemImpl, classTy: string, steps: seq<Step>)

  /** The role of parameter `n`: the base is always the one at index 1;
      the last `optionalArgs` parameters are optional (methods.rs:132-142). */
  function RoleOf(n: nat, argCount: nat, optionalArgs: nat, existBaseArg: bool): ParamRole {
    if existBaseArg && n == 1 then Base
    else if n < argCount - optionalArgs then Plain
    else Optional
  }

  predicate ReturnsReference(output: ReturnType) {
    output.Returns? && output.ty.isReference
  }

  /** The closure applied to each exported method (methods.rs:85-177). */
  function RegisterMethod(classTy: string, em: ExportMethod): (r: Step)
    ensures r == CompileError(MustTakeSelf) <==> |em.sig.inputs| == 0
    ensures r == CompileError(LegacyMustTakeBase) <==>
              |em.sig.inputs| > 0 && em.exportArgs.isOldSyntax && !em.existBaseArg
    ensures r.CompileError? && r.error.TooManyOptional? <==>
              && |em.sig.inputs| > 0 && !(em.exportArgs.isOldSyntax && !em.existBaseArg)
              && em.optionalArgs.Some? && em.optionalArgs.value > |em.sig.inputs| - 2
    ensures r.CompileError? && r.error.TooManyOptional? ==>
              r.error == TooManyOptional(|em.sig.inputs| - 2, em.optionalArgs.value)
    ensures r.Register? <==>
              && |em.sig.inputs| > 0 && !(em.exportArgs.isOldSyntax && !em.existBaseArg)
              && !(em.optionalArgs.Some? && em.optionalArgs.value > |em.sig.inputs| - 2)
  {
    var argCount := |em.sig.inputs|;
    if argCount == 0 then CompileError(MustTakeSelf)
    else if em.exportArgs.isOldSyntax && !em.existBaseArg then CompileError(LegacyMustTakeBase)
    else if em.optionalArgs.Some? && em.optionalArgs.value > argCount - 2 then
      CompileError(TooManyOptional(argCount - 2, em.optionalArgs.value))
    else
      var optional := em.optionalArgs.GetOr(0);
      var args := seq(argCount, n requires 0 <= n < argCount =>
                        RoledArg(RoleOf(n, argCount, optional, em.existBaseArg), em.sig.inputs[n]));
      var isDerefReturn := em.exportArgs.isDerefReturn;
      Register(MethodRegistration(
        WrappedMethod(classTy, isDerefReturn, em.sig.ident, args, em.sig.output),
        em.exportArgs.nameOverride.GetOr(em.sig.ident),
        em.exportArgs.rpcMode.GetOr(DefaultRpcMode),
        em.exportArgs.isOldSyntax,
        ReturnsReference(em.sig.output) && !isDerefReturn))
  }

  function RegisterAll(classTy: string, methods: seq<ExportMethod>): seq<Step> {
    Map(methods, (em: ExportMethod) => RegisterMethod(classTy, em))
  }

  function Derived(itemImpl: ItemImpl): DerivedMethods {
    var (implBlock, exported) := Exposed(itemImpl);
    DerivedMethods(implBlock, exported.classTy, RegisterAll(exported.classTy, exported.methods))
  }

  /** `derive_methods`: expose, then one step per exported method, in order. */
  method DeriveMethods(itemImpl: ItemImpl) returns (d: DerivedMethods)
    ensures d == Derived(itemImpl)
  {
    var implBlock, exported := ImplGdnativeExpose(itemImpl);
    var classTy := exported.classTy;
    var steps: seq<Step> := [];
    for i := 0 to |exported.methods|
      invariant steps == RegisterAll(classTy, exported.methods[..i])
    {
      assert exported.methods[..i + 1] == exported.methods[..i] + [exported.methods[i]];
      MapAppend(exported.methods[..i], [exported.methods[i]], (em: ExportMethod) => RegisterMethod(classTy, em));
      steps := steps + [RegisterMethod(classTy, exported.methods[i])];
    }
    assert exported.methods[..|exported.methods|] == exported.methods;
    d := DerivedMethods(implBlock, classTy, steps);
  }

  // ----- properties ---------------------------------------------------------

  /** A registration forwards every parameter in order; the base role goes
      to index 1 exactly when a base exists, and the optional role to the
      last `k` parameters, where `k` is the optional count. It registers
      under the override name if any, with `Disabled` as the default RPC
      mode, warns for the deprecated syntax, and warns for a reference
      return unless `deref` was given. */
  lemma RegistrationShape(classTy: string, em: ExportMethod)
    requires RegisterMethod(classTy, em).Register?
    ensures var reg := RegisterMethod(classTy, em).registration;
            var n := |em.sig.inputs|;
            var k := em.optionalArgs.GetOr(0);
            && (em.optionalArgs.Some? ==> k <= n - 2)
            && |reg.wrapped.args| == n
            && reg.wrapped.classTy == classTy
            && reg.wrapped.name == em.sig.ident
            && reg.wrapped.output == em.sig.output
            && reg.wrapped.isDerefReturn == em.exportArgs.isDerefReturn
            && reg.nameString == (if em.exportArgs.nameOverride.Some? then em.exportArgs.nameOverride.value else em.sig.ident)
            && reg.rpc == (if em.exportArgs.rpcMode.Some? then em.exportArgs.rpcMode.value else Disabled)
            && reg.warnDeprecatedExport == em.exportArgs.isOldSyntax
            && (reg.warnDeprecatedRefReturn <==> em.sig.output.Returns? && em.sig.output.ty.isReference && !em.exportArgs.isDerefReturn)
            && forall i :: 0 <= i < n ==>
                 && reg.wrapped.args[i].param == em.sig.inputs[i]
                 && (reg.wrapped.args[i].role == Base <==> em.existBaseArg && i == 1)
                 && (reg.wrapped.args[i].role == Optional <==> n - k <= i)
  {
  }

  /** For a marked method whose parameters meet the positional contract,
      the roles in its registration are exactly its `#[opt]` and base
      parameters, and it is registered unless it has no receiver or uses
      the deprecated syntax without a base. */
  lemma RolesFollowMarkers(classTy: string, m: ImplMethod)
    requires ScanAttrs(m.attrs).exportArgs.Some?
    requires PositionalOk(m.sig.inputs, ScanAttrs(m.attrs).exportArgs.value.isOldSyntax)
    ensures IsMarked(m)
    ensures var em := Normalized(Analyze(m).exported.value);
            var legacy := ScanAttrs(m.attrs).exportArgs.value.isOldSyntax;
            var ps := m.sig.inputs;
            var r := RegisterMethod(classTy, em);
            && (r.Register? <==> |ps| > 0 && (!legacy || exists n :: 0 <= n < |ps| && IsBase(ps[n], n, legacy)))
            && (r.Register? ==>
                  |r.registration.wrapped.args| == |ps| &&
                  forall i :: 0 <= i < |ps| ==>
                    && (r.registration.wrapped.args[i].role == Optional <==> IsOptional(ps[i]))
                    && (r.registration.wrapped.args[i].role == Base <==> IsBase(ps[i], i, legacy)))
  {
    ScanAttrsMarked(m.attrs);
    var sc := ScanAttrs(m.attrs);
    var legacy := sc.exportArgs.value.isOldSyntax;
    var ps := m.sig.inputs;
    AnalyzeMarked(m);
    ScanParamsShape(sc.errors, ps, legacy);
    ScanParamsOptional(sc.errors, ps, legacy);
    ScanParamsBase(sc.errors, ps, legacy);
    ScanParamsOptionalTail(sc.errors, ps, legacy);
    var em := Normalized(Analyze(m).exported.value);
    assert |em.sig.inputs| == |ps|;
    var r := RegisterMethod(classTy, em);
    if r.Register? {
      RegistrationShape(classTy, em);
      forall i | 0 <= i < |ps|
        ensures r.registration.wrapped.args[i].role == Base <==> IsBase(ps[i], i, legacy)
      {
        assert ParamOk(ps, i, legacy);
        if em.existBaseArg && i == 1 {
          var b :| 0 <= b < |ps| && IsBase(ps[b], b, legacy);
          assert ParamOk(ps, b, legacy);
        }
      }
    }
  }

  /** A marked method with a receiver is registered whatever errors its
      attributes and parameters recorded, unless it uses the deprecated
      syntax without a base parameter. */
  lemma MarkedRegistered(classTy: string, m: ImplMethod)
    requires IsMarked(m)
    requires |m.sig.inputs| > 0
    ensures ScanAttrs(m.attrs).exportArgs.Some?
    ensures var legacy := ScanAttrs(m.attrs).exportArgs.value.isOldSyntax;
            var ps := m.sig.inputs;
            RegisterMethod(classTy, Normalized(Analyze(m).exported.value)).Register? <==>
              !legacy || exists n :: 0 <= n < |ps| && IsBase(ps[n], n, legacy)
  {
    ScanAttrsMarked(m.attrs);
    var sc := ScanAttrs(m.attrs);
    var legacy := sc.exportArgs.value.isOldSyntax;
    AnalyzeMarked(m);
    ScanParamsShape(sc.errors, m.sig.inputs, legacy);
    ScanParamsBase(sc.errors, m.sig.inputs, legacy);
  }

  /** The too-many-optional error is unreachable: the parameter scan never
      reports more optional parameters than `arg_count - 2`. */
  lemma NeverTooManyOptional(itemImpl: ItemImpl)
    ensures forall s :: s in Derived(itemImpl).steps ==> !(s.CompileError? && s.error.TooManyOptional?)
  {
    var exported := Exposed(itemImpl).1;
    ExposeSurvivors(itemImpl);
    forall s | s in Derived(itemImpl).steps ensures !(s.CompileError? && s.error.TooManyOptional?) {
      var k :| 0 <= k < |exported.methods| && Derived(itemImpl).steps[k] == s;
      assert OptionalWithinBound(exported.methods[k]);
    }
  }

  /** There is one step per exported method, in order, and the generated
      impl is for the block's own type. */
  lemma DerivedSteps(itemImpl: ItemImpl)
    ensures var d := Derived(itemImpl);
            && d.classTy == itemImpl.selfTy
            && d.implBlock == Exposed(itemImpl).0
            && |d.steps| == |Exposed(itemImpl).1.methods|
            && forall k :: 0 <= k < |d.steps| ==> d.steps[k] == RegisterMethod(itemImpl.selfTy, Exposed(itemImpl).1.methods[k])
  {
  }

  // ----- examples -----------------------------------------------------------

  function Marker(name: string): Attr {
    Attr(Outer, Path(false, [name]), Parsed(MetaPath))
  }

  function Roles(r: Step): seq<ParamRole>
    requires r.Register?
  {
    Map(r.registration.wrapped.args, (a: RoledArg) => a.role)
  }

  /** `#[method] fn foo(&self, #[base] owner: &Node, #[opt] a: i64, b: i64)`. */
  function ContiguityMethod(): ImplMethod {
    ImplMethod(
      [Marker("method")],
      Sig(false, "foo", 0, 0, 0,
          [Receiver([], "&self"),
           Typed([Marker("base")], PatIdent(false, false, "owner"), Ty(true, "&Node")),
           Typed([Marker("opt")], PatIdent(false, false, "a"), Ty(false, "i64")),
           Typed([], PatIdent(false, false, "b"), Ty(false, "i64"))],
          DefaultReturn),
      "")
  }

  /** The parameter scan of `ContiguityMethod`, one parameter at a time. */
  lemma ContiguityScan()
    ensures var ps := ContiguityMethod().sig.inputs;
            var sc := ScanParams([], ps, false);
            sc.optionalArgs == Some(1) && sc.existBaseArg && sc.errors == [RequiredAfterOptional]
  {
    var ps := ContiguityMethod().sig.inputs;
    assert !IsOptional(ps[0]) && !IsBase(ps[0], 0, false);
    assert !IsOptional(ps[1]) && IsBase(ps[1], 1, false) by {
      assert ps[1].attrs[0] == Marker("base");
    }
    assert IsOptional(ps[2]) && !IsBase(ps[2], 2, false) by {
      assert ps[2].attrs[0] == Marker("opt");
    }
    assert !IsOptional(ps[3]) && !IsBase(ps[3], 3, false);
    var s1 := ScanParam(InputScan(None, false, [], []), ps[0], 0, false);
    var s2 := ScanParam(s1, ps[1], 1, false);
    var s3 := ScanParam(s2, ps[2], 2, false);
    var s4 := ScanParam(s3, ps[3], 3, false);
    assert ScanParams([], ps[..1], false) == s1 by { assert ps[..1][..0] == []; }
    assert ScanParams([], ps[..2], false) == s2 by { assert ps[..2][..1] == ps[..1]; }
    assert ScanParams([], ps[..3], false) == s3 by { assert ps[..3][..2] == ps[..2]; }
    assert ScanParams([], ps, false) == s4 by { assert ps[..3] == ps[..|ps| - 1]; }
  }

  /** A required parameter after an optional one is reported, yet the method
      is still exported and registered; the optional role then lands on the
      last parameter `b` rather than on `a`. */
  lemma ContiguityErrorStillRegistered()
    ensures Analyze(ContiguityMethod()).errors == [RequiredAfterOptional]
    ensures Analyze(ContiguityMethod()).exported.Some?
    ensures var r := RegisterMethod("Foo", Normalized(Analyze(ContiguityMethod()).exported.value));
            r.Register? && Roles(r) == [Plain, Base, Plain, Optional]
  {
    var m := ContiguityMethod();
    assert ScanAttrs(m.attrs) == ScanAttr(ScanAttrs([]), m.attrs[0]) by {
      assert m.attrs[..0] == [];
    }
    assert ScanAttrs(m.attrs) == AttrScan(Some(DefaultExportArgs), [], []);
    ContiguityScan();
    AnalyzeMarked(m);
    FourParamRoles(Normalized(Analyze(m).exported.value));
  }

  /** Four parameters, one optional, a base: the roles by position. */
  lemma FourParamRoles(em: ExportMethod)
    requires |em.sig.inputs| == 4 && em.optionalArgs == Some(1) && em.existBaseArg
    ensures var r := RegisterMethod("Foo", em);
            r.Register? && Roles(r) == [Plain, Base, Plain, Optional]
  {
  }

  /** `#[method(rpc = "everyone")] fn foo(&self)`. */
  function BadRpcMethod(): ImplMethod {
    ImplMethod(
      [Attr(Outer, Path(false, ["method"]),
            Parsed(MetaList([NestedNameValue(Path(false, ["rpc"]), Str("everyone"))])))],
      Sig(false, "foo", 0, 0, 0, [Receiver([], "&self")], DefaultReturn),
      "")
  }

  /** An unknown RPC token is reported, yet the method is still exported
      and registered with the default mode. */
  lemma UnknownRpcStillRegistered()
    ensures Analyze(BadRpcMethod()).errors == [RpcUnexpectedValue("everyone")]
    ensures Analyze(BadRpcMethod()).exported.Some?
    ensures var r := RegisterMethod("Foo", Normalized(Analyze(BadRpcMethod()).exported.value));
            r.Register? && r.registration.rpc == Disabled && r.registration.nameString == "foo"
  {
  }

  /** `#[method(name = "bar")] fn foo(&self)` registers under "bar". */
  lemma NameOverrideRegistered()
    ensures var m := ImplMethod(
              [Attr(Outer, Path(false, ["method"]),
                    Parsed(MetaList([NestedNameValue(Path(false, ["name"]), Str("bar"))])))],
              Sig(false, "foo", 0, 0, 0, [Receiver([], "&self")], DefaultReturn),
              "");
            && Analyze(m).errors == []
            && Analyze(m).exported.Some?
            && var r := RegisterMethod("Foo", Normalized(Analyze(m).exported.value));
               r.Register? && r.registration.nameString == "bar" && r.registration.wrapped.name == "foo"
  {
  }
}
