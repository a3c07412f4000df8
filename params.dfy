/** The parameter scan of an exported method: the loop over
    `method.sig.inputs` in `impl_gdnative_expose`
    (gdnative-derive/src/methods.rs:381-435). */
module Params {
  import opened Wrappers
  import opened Seqs
  import opened Syntax
  import opened Diagnostics

  /** `#[opt]` and `#[base]` on a parameter (compared with `is_ident`, whatever the style). */
  predicate IsParamMarker(a: Attr) {
    IsIdent(a.path, "opt") || IsIdent(a.path, "base")
  }

  predicate NotParamMarker(a: Attr) {
    !IsParamMarker(a)
  }

  predicate HasParamMarker(attrs: seq<Attr>, name: string) {
    exists i :: 0 <= i < |attrs| && IsIdent(attrs[i].path, name)
  }

  predicate IsOptional(p: Param) {
    HasParamMarker(p.attrs, "opt")
  }

  /** A base parameter: marked `#[base]`, or the second parameter in legacy syntax. */
  predicate IsBase(p: Param, n: nat, isOldSyntax: bool) {
    HasParamMarker(p.attrs, "base") || (isOldSyntax && n == 1)
  }

  /** The parameter with its `#[opt]`/`#[base]` markers removed. */
  function StripParam(p: Param): Param {
    p.(attrs := Filter(p.attrs, NotParamMarker))
  }

  function StripAll(ps: seq<Param>): seq<Param> {
    seq(|ps|, i requires 0 <= i < |ps| => StripParam(ps[i]))
  }

  /** No parameter with index in [lo, hi) is optional. */
  predicate NoOptionalIn(ps: seq<Param>, lo: nat, hi: nat)
    requires hi <= |ps|
  {
    forall m :: lo <= m < hi ==> !IsOptional(ps[m])
  }

  /** The positional rules for the parameter at index `n`. */
  predicate ParamOk(ps: seq<Param>, n: nat, isOldSyntax: bool)
    requires n < |ps|
  {
    && (IsOptional(ps[n]) ==> 2 <= n)
    && (IsBase(ps[n], n, isOldSyntax) ==> n == 1)
    && (!IsOptional(ps[n]) ==> NoOptionalIn(ps, 2, n))
  }

  /** The positional contract the scan enforces: no optional receiver or
      base, base only at index 1, and optional parameters (from index 2 on)
      form a contiguous tail. */
  predicate PositionalOk(ps: seq<Param>, isOldSyntax: bool) {
    forall n :: 0 <= n < |ps| ==> ParamOk(ps, n, isOldSyntax)
  }

  /** The state of the scan: `optional_args`, `exist_base_arg`, the shared
      error list and the parameters with their markers stripped. */
  datatype InputScan = InputScan(optionalArgs: Option<nat>, existBaseArg: bool, errors: seq<ExportError>, params: seq<Param>)

  /** One parameter at index `n` (methods.rs:385-434). */
  function ScanParam(st: InputScan, p: Param, n: nat, isOldSyntax: bool): InputScan {
    ScanStep(st, StripParam(p), IsOptional(p), IsBase(p, n, isOldSyntax), n)
  }

  /** The effect of a parameter once its markers are known: `opt` and `base`. */
  function ScanStep(st: InputScan, stripped: Param, opt: bool, base: bool, n: nat): InputScan {
    var optErrors :=
      if opt then (if n < 2 then [SelfOrBaseOptional] else [])
      else if st.optionalArgs.Some? then [RequiredAfterOptional]
      else [];
    var count: Option<nat> := if opt && 2 <= n then Some(st.optionalArgs.GetOr(0) + 1) else st.optionalArgs;
    var baseErrors := if base && n != 1 then [BaseNotSecond] else [];
    InputScan(count, st.existBaseArg || base, st.errors + optErrors + baseErrors, st.params + [stripped])
  }

  /** All parameters in order, continuing the error list `errors0` of the attribute scan. */
  function ScanParams(errors0: seq<ExportError>, ps: seq<Param>, isOldSyntax: bool): InputScan
    decreases |ps|
  {
    if |ps| == 0 then InputScan(None, false, errors0, [])
    else ScanParam(ScanParams(errors0, ps[..|ps| - 1], isOldSyntax), ps[|ps| - 1], |ps| - 1, isOldSyntax)
  }

  /** Every parameter is kept, in order, with its markers stripped; errors are only appended. */
  lemma {:induction false} ScanParamsShape(errors0: seq<ExportError>, ps: seq<Param>, isOldSyntax: bool)
    ensures ScanParams(errors0, ps, isOldSyntax).params == StripAll(ps)
    ensures errors0 <= ScanParams(errors0, ps, isOldSyntax).errors
    decreases |ps|
  {
    if |ps| > 0 {
      ScanParamsShape(errors0, ps[..|ps| - 1], isOldSyntax);
    }
  }

  /** The number of `#[opt]` parameters from index 2 on. */
  function CountOpt(ps: seq<Param>): nat
    decreases |ps|
  {
    if |ps| == 0 then 0
    else CountOpt(ps[..|ps| - 1]) + (if IsOptional(ps[|ps| - 1]) && 2 <= |ps| - 1 then 1 else 0)
  }

  /** `optional_args` is `Some(k)` exactly when some parameter from index 2
      on is optional, and then `1 <= k <= |ps| - 2`. */
  lemma {:induction false} ScanParamsOptional(errors0: seq<ExportError>, ps: seq<Param>, isOldSyntax: bool)
    ensures var o := ScanParams(errors0, ps, isOldSyntax).optionalArgs;
            (o.Some? <==> exists n :: 2 <= n < |ps| && IsOptional(ps[n])) &&
            (o.Some? ==> 1 <= o.value <= |ps| - 2)
    decreases |ps|
  {
    if |ps| > 0 {
      var k := |ps| - 1;
      ScanParamsOptional(errors0, ps[..k], isOldSyntax);
      assert forall n :: 0 <= n < k ==> ps[..k][n] == ps[n];
    }
  }

  /** The reported count is the number of `#[opt]` parameters from index 2
      on, whether or not the positional rules hold (0 when there are none). */
  lemma {:induction false} ScanParamsOptionalCount(errors0: seq<ExportError>, ps: seq<Param>, isOldSyntax: bool)
    ensures ScanParams(errors0, ps, isOldSyntax).optionalArgs.GetOr(0) == CountOpt(ps)
    decreases |ps|
  {
    if |ps| > 0 {
      ScanParamsOptionalCount(errors0, ps[..|ps| - 1], isOldSyntax);
    }
  }

  /** `exist_base_arg` holds exactly when some parameter is a base parameter. */
  lemma {:induction false} ScanParamsBase(errors0: seq<ExportError>, ps: seq<Param>, isOldSyntax: bool)
    ensures ScanParams(errors0, ps, isOldSyntax).existBaseArg <==>
              exists n :: 0 <= n < |ps| && IsBase(ps[n], n, isOldSyntax)
    decreases |ps|
  {
    if |ps| > 0 {
      var k := |ps| - 1;
      ScanParamsBase(errors0, ps[..k], isOldSyntax);
      assert forall n :: 0 <= n < k ==> ps[..k][n] == ps[n];
    }
  }

  /** The positional contract of a sequence holds exactly when it holds of
      all parameters but the last and of the last one. */
  lemma PositionalOkSnoc(ps: seq<Param>, isOldSyntax: bool)
    requires |ps| > 0
    ensures PositionalOk(ps, isOldSyntax) <==>
              PositionalOk(ps[..|ps| - 1], isOldSyntax) && ParamOk(ps, |ps| - 1, isOldSyntax)
  {
    var k := |ps| - 1;
    var front := ps[..k];
    forall n | 0 <= n < k ensures ParamOk(front, n, isOldSyntax) == ParamOk(ps, n, isOldSyntax) {
      assert front[n] == ps[n];
      assert NoOptionalIn(front, 2, n) == NoOptionalIn(ps, 2, n) by {
        assert forall m :: 2 <= m < n ==> front[m] == ps[m];
      }
    }
  }

  /** The scan adds no error exactly when the parameters meet the positional contract. */
  lemma {:induction false} ScanParamsErrorFree(errors0: seq<ExportError>, ps: seq<Param>, isOldSyntax: bool)
    ensures ScanParams(errors0, ps, isOldSyntax).errors == errors0 <==> PositionalOk(ps, isOldSyntax)
    decreases |ps|
  {
    if |ps| > 0 {
      var k := |ps| - 1;
      var front := ps[..k];
      ScanParamsErrorFree(errors0, front, isOldSyntax);
      ScanParamsShape(errors0, front, isOldSyntax);
      ScanParamsOptional(errors0, front, isOldSyntax);
      PositionalOkSnoc(ps, isOldSyntax);
      var prev := ScanParams(errors0, front, isOldSyntax);
      assert prev.optionalArgs.None? <==> NoOptionalIn(ps, 2, k) by {
        assert forall m :: 0 <= m < k ==> front[m] == ps[m];
      }
    }
  }

  /** Under the positional contract the optional parameters are exactly
      the last `k` ones, where `k` is the count the scan reports (0 for none). */
  lemma {:induction false} ScanParamsOptionalTail(errors0: seq<ExportError>, ps: seq<Param>, isOldSyntax: bool)
    requires PositionalOk(ps, isOldSyntax)
    ensures var k := ScanParams(errors0, ps, isOldSyntax).optionalArgs.GetOr(0);
            k <= |ps| && forall n :: 0 <= n < |ps| ==> (IsOptional(ps[n]) <==> |ps| - k <= n)
    decreases |ps|
  {
    if |ps| > 0 {
      var last := |ps| - 1;
      var front := ps[..last];
      PositionalOkSnoc(ps, isOldSyntax);
      ScanParamsOptionalTail(errors0, front, isOldSyntax);
      ScanParamsOptional(errors0, front, isOldSyntax);
      assert forall n :: 0 <= n < last ==> front[n] == ps[n];
      var kf := ScanParams(errors0, front, isOldSyntax).optionalArgs.GetOr(0);
      if !IsOptional(ps[last]) {
        assert NoOptionalIn(ps, 2, last);
        assert forall n :: 0 <= n < last ==> !IsOptional(front[n]) by {
          forall n | 0 <= n < last ensures !IsOptional(front[n]) {
            assert ParamOk(ps, n, isOldSyntax);
          }
        }
        assert kf == 0;
      }
    }
  }

  /** A stripped parameter carries no `#[opt]` or `#[base]` and keeps every other attribute. */
  lemma StripParamClean(p: Param)
    ensures !HasParamMarker(StripParam(p).attrs, "opt") && !HasParamMarker(StripParam(p).attrs, "base")
    ensures StripParam(p).attrs == Filter(p.attrs, NotParamMarker)
    ensures StripParam(p).Typed? == p.Typed?
    ensures p.Typed? ==> StripParam(p).pat == p.pat && StripParam(p).ty == p.ty
  {
    var kept := StripParam(p).attrs;
    forall i | 0 <= i < |kept| ensures NotParamMarker(kept[i]) {
      assert kept[i] in kept;
    }
  }

  lemma HasParamMarkerSnoc(attrs: seq<Attr>, a: Attr, name: string)
    ensures HasParamMarker(attrs + [a], name) <==> HasParamMarker(attrs, name) || IsIdent(a.path, name)
  {
    assert forall j :: 0 <= j < |attrs| ==> (attrs + [a])[j] == attrs[j];
    assert (attrs + [a])[|attrs|] == a;
  }

  // ----- the imperative loop --------------------------------------------------

  /** `attrs.retain(...)` over one parameter's attributes, setting
      `is_optional` and `is_base` (methods.rs:390-403). */
  method RetainParamAttrs(attrs: seq<Attr>) returns (kept: seq<Attr>, isOptional: bool, isBase: bool)
    ensures kept == Filter(attrs, NotParamMarker)
    ensures isOptional == HasParamMarker(attrs, "opt")
    ensures isBase == HasParamMarker(attrs, "base")
  {
    kept, isOptional, isBase := [], false, false;
    for i := 0 to |attrs|
      invariant kept == Filter(attrs[..i], NotParamMarker)
      invariant isOptional == HasParamMarker(attrs[..i], "opt")
      invariant isBase == HasParamMarker(attrs[..i], "base")
    {
      var attr := attrs[i];
      assert attrs[..i + 1] == attrs[..i] + [attr];
      FilterAppend(attrs[..i], [attr], NotParamMarker);
      FilterSingle(attr, NotParamMarker);
      HasParamMarkerSnoc(attrs[..i], attr, "opt");
      HasParamMarkerSnoc(attrs[..i], attr, "base");
      if IsIdent(attr.path, "opt") {
        isOptional := true;
      } else if IsIdent(attr.path, "base") {
        isBase := true;
      } else {
        kept := kept + [attr];
      }
    }
    assert attrs[..|attrs|] == attrs;
  }

  /** The checks on the parameter at index `n` once its markers are known
      (methods.rs:410-434), updating the counters and the error list. */
  method CheckPosition(optionalArgs0: Option<nat>, existBaseArg0: bool, errors0: seq<ExportError>, n: nat, isOptional: bool, isBase: bool)
    returns (optionalArgs: Option<nat>, existBaseArg: bool, errors: seq<ExportError>)
    ensures forall params: seq<Param>, stripped: Param ::
              ScanStep(InputScan(optionalArgs0, existBaseArg0, errors0, params), stripped, isOptional, isBase, n)
              == InputScan(optionalArgs, existBaseArg, errors, params + [stripped])
  {
    optionalArgs, existBaseArg, errors := optionalArgs0, existBaseArg0, errors0;
    if isOptional {
      if n < 2 {
        errors := errors + [SelfOrBaseOptional];
      } else {
        optionalArgs := Some(optionalArgs.GetOr(0) + 1);
      }
    } else if optionalArgs.Some? {
      errors := errors + [RequiredAfterOptional];
    }

    if isBase {
      existBaseArg := true;
      if n != 1 {
        errors := errors + [BaseNotSecond];
      }
    }
  }

  /** `for (n, arg) in method.sig.inputs.iter_mut().enumerate()` (methods.rs:381-435). */
  method ScanInputs(inputs: seq<Param>, isOldSyntax: bool, errors0: seq<ExportError>)
    returns (optionalArgs: Option<nat>, existBaseArg: bool, errors: seq<ExportError>, params: seq<Param>)
    ensures InputScan(optionalArgs, existBaseArg, errors, params) == ScanParams(errors0, inputs, isOldSyntax)
  {
    optionalArgs, existBaseArg, errors, params := None, false, errors0, [];
    for n := 0 to |inputs|
      invariant InputScan(optionalArgs, existBaseArg, errors, params) == ScanParams(errors0, inputs[..n], isOldSyntax)
    {
      assert inputs[..n + 1][..n] == inputs[..n];
      ghost var prev := InputScan(optionalArgs, existBaseArg, errors, params);
      var arg := inputs[n];
      var attrs, isOptional, isBase := RetainParamAttrs(arg.attrs);
      arg := arg.(attrs := attrs);
      assert arg == StripParam(inputs[n]);

      // Under the legacy `#[export]` marker, index 1 is the base.
      if isOldSyntax && n == 1 {
        isBase := true;
      }
      assert isOptional == IsOptional(inputs[n]) && isBase == IsBase(inputs[n], n, isOldSyntax);
      optionalArgs, existBaseArg, errors := CheckPosition(optionalArgs, existBaseArg, errors, n, isOptional, isBase);
      params := params + [arg];
    }
    assert inputs[..|inputs|] == inputs;
  }
}
