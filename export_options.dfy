/** Export markers and their options: the `method.attrs.retain` closure of
    `impl_gdnative_expose` (gdnative-derive/src/methods.rs:219-378). */
module ExportOptions {
  import opened Wrappers
  import opened Seqs
  import opened Syntax
  import opened Diagnostics
  import opened RpcModes

  /** What the markers of one method ask for (`ExportArgs`). */
  datatype ExportArgs = ExportArgs(
    isOldSyntax: bool,
    rpcMode: Option<RpcMode>,
    nameOverride: Option<string>,
    isDerefReturn: bool)

  const DefaultExportArgs: ExportArgs := ExportArgs(false, None, None, false)

  /** Some(true) for a legacy `#[export]` marker, Some(false) for `#[method]`,
      None for every other attribute. Only outer attributes are markers, and
      only the last path segment is compared, so `#[gdnative::method]` is one too. */
  function MarkerSyntax(a: Attr): Option<bool> {
    if a.style != Outer then None
    else
      match LastSegment(a.path)
      case Some(s) => if s == "export" then Some(true) else if s == "method" then Some(false) else None
      case None => None
  }

  predicate IsMarker(a: Attr) {
    MarkerSyntax(a).Some?
  }

  predicate NotMarker(a: Attr) {
    MarkerSyntax(a).None?
  }

  /** The marker's name as it appears in "unknown option for #[...]". */
  function MacroName(isOldSyntax: bool): string {
    if isOldSyntax then "export" else "method"
  }

  function JoinSegments(segments: seq<string>): string {
    if |segments| == 0 then ""
    else if |segments| == 1 then segments[0]
    else segments[0] + " :: " + JoinSegments(segments[1..])
  }

  /** The path as its token stream prints it. */
  function PathText(p: Path): string {
    (if p.leadingColon then ":: " else "") + JoinSegments(p.segments)
  }

  // ----- one option ---------------------------------------------------------

  /** The three options a marker understands. */
  datatype OptionKey = RpcKey | NameKey | DerefKey

  function KeyOf(p: Path): Option<OptionKey> {
    if IsIdent(p, "rpc") then Some(RpcKey)
    else if IsIdent(p, "name") then Some(NameKey)
    else if IsIdent(p, "deref_return") then Some(DerefKey)
    else None
  }

  /** The key an argument-list item names, if it is a known one. */
  function OptionKeyOf(nm: Nested): Option<OptionKey> {
    match nm
    case NestedPath(p) => KeyOf(p)
    case NestedNameValue(p, _) => KeyOf(p)
    case _ => None
  }

  /** An item that is acceptable on its own: `rpc = "<one of the seven tokens>"`,
      `name = "<any string>"`, or the bare `deref_return`. */
  predicate WellFormedOption(nm: Nested) {
    match nm
    case NestedPath(p) => KeyOf(p) == Some(DerefKey)
    case NestedNameValue(p, Str(v)) => KeyOf(p) == Some(NameKey) || (KeyOf(p) == Some(RpcKey) && v in RpcTokens)
    case _ => false
  }

  /** Whether an option has already been given a value. */
  predicate IsSet(args: ExportArgs, k: OptionKey) {
    match k
    case RpcKey => args.rpcMode.Some?
    case NameKey => args.nameOverride.Some?
    case DerefKey => args.isDerefReturn
  }

  function SetTwiceError(k: OptionKey): ExportError {
    match k
    case RpcKey => RpcSetTwice
    case NameKey => NameSetTwice
    case DerefKey => DerefSetTwice
  }

  /** The arguments once a well-formed option has been recorded. */
  function Updated(args: ExportArgs, nm: Nested): ExportArgs
    requires WellFormedOption(nm)
  {
    match nm
    case NestedNameValue(p, lit) =>
      if KeyOf(p) == Some(NameKey) then args.(nameOverride := Some(lit.value))
      else args.(rpcMode := ParseRpcMode(lit.value))
    case NestedPath(_) => args.(isDerefReturn := true)
  }

  /** The handling of a known or unknown key (methods.rs:286-371). */
  function ApplyKey(args: ExportArgs, p: Path, lit: Option<Lit>, macroName: string): (ExportArgs, Option<ExportError>) {
    if IsIdent(p, "rpc") then
      match lit
      case None => (args, Some(RpcRequiresString))
      case Some(Str(v)) =>
        (match ParseRpcMode(v)
         case Some(mode) => (args.(rpcMode := Some(mode)), if args.rpcMode.Some? then Some(RpcSetTwice) else None)
         case None => (args, Some(RpcUnexpectedValue(v))))
      case Some(OtherLit(_)) => (args, Some(RpcUnexpectedType))
    else if IsIdent(p, "name") then
      match lit
      case None => (args, Some(NameRequiresString))
      case Some(Str(v)) => (args.(nameOverride := Some(v)), if args.nameOverride.Some? then Some(NameSetTwice) else None)
      case Some(OtherLit(_)) => (args, Some(NameUnexpectedType))
    else if IsIdent(p, "deref_return") then
      if lit.Some? then (args, Some(DerefTakesNoValue))
      else if args.isDerefReturn then (args, Some(DerefSetTwice))
      else (args.(isDerefReturn := true), None)
    else (args, Some(UnknownOption(macroName, PathText(p))))
  }

  /** One item of a marker's argument list (methods.rs:265-372): the new
      arguments and the error it records, if any. A well-formed option is
      recorded even when it was set before (the newer value replaces the
      older one) and then also reports "set more than once". */
  function ApplyOption(args: ExportArgs, nm: Nested, macroName: string): (r: (ExportArgs, Option<ExportError>))
    ensures r.1.None? <==> WellFormedOption(nm) && !IsSet(args, OptionKeyOf(nm).value)
    ensures r.0 == if WellFormedOption(nm) then Updated(args, nm) else args
    ensures WellFormedOption(nm) && IsSet(args, OptionKeyOf(nm).value) ==> r.1 == Some(SetTwiceError(OptionKeyOf(nm).value))
    ensures nm.NestedLit? ==> r.1 == Some(LiteralItem)
    ensures nm.NestedList? ==> r.1 == Some(ListItem)
    ensures (nm.NestedPath? || nm.NestedNameValue?) && KeyOf(nm.path).None? ==>
              r.1 == Some(UnknownOption(macroName, PathText(nm.path)))
    ensures r.0.isOldSyntax == args.isOldSyntax
  {
    match nm
    case NestedLit(_) => (args, Some(LiteralItem))
    case NestedList(_) => (args, Some(ListItem))
    case NestedPath(p) => ApplyKey(args, p, None, macroName)
    case NestedNameValue(p, lit) => ApplyKey(args, p, Some(lit), macroName)
  }

  function ErrorList(e: Option<ExportError>): seq<ExportError> {
    if e.Some? then [e.value] else []
  }

  // ----- a whole argument list ----------------------------------------------

  datatype OptionsState = OptionsState(args: ExportArgs, errors: seq<ExportError>)

  /** The argument list processed item by item, from left to right. */
  function ApplyOptions(st: OptionsState, nested: seq<Nested>, macroName: string): OptionsState
    decreases |nested|
  {
    if |nested| == 0 then st
    else
      var prev := ApplyOptions(st, nested[..|nested| - 1], macroName);
      var r := ApplyOption(prev.args, nested[|nested| - 1], macroName);
      OptionsState(r.0, prev.errors + ErrorList(r.1))
  }

  /** Options never change the syntax flag, and errors are only appended. */
  lemma {:induction false} ApplyOptionsMonotone(st: OptionsState, nested: seq<Nested>, macroName: string)
    ensures ApplyOptions(st, nested, macroName).args.isOldSyntax == st.args.isOldSyntax
    ensures st.errors <= ApplyOptions(st, nested, macroName).errors
    decreases |nested|
  {
    if |nested| > 0 {
      ApplyOptionsMonotone(st, nested[..|nested| - 1], macroName);
    }
  }

  /** An option is set after the list exactly when it was set before or some
      well-formed item of the list names it. */
  lemma {:induction false} ApplyOptionsSetKeys(st: OptionsState, nested: seq<Nested>, macroName: string, k: OptionKey)
    ensures IsSet(ApplyOptions(st, nested, macroName).args, k) <==>
              IsSet(st.args, k) ||
              exists j :: 0 <= j < |nested| && WellFormedOption(nested[j]) && OptionKeyOf(nested[j]) == Some(k)
    decreases |nested|
  {
    if |nested| > 0 {
      var n := |nested| - 1;
      var front := nested[..n];
      ApplyOptionsSetKeys(st, front, macroName, k);
      var prev := ApplyOptions(st, front, macroName);
      var last := nested[n];
      UpdatedSets(prev.args, last, k);
      assert forall j :: 0 <= j < n ==> front[j] == nested[j];
      if IsSet(ApplyOptions(st, nested, macroName).args, k) && !IsSet(st.args, k) {
        if WellFormedOption(last) && OptionKeyOf(last) == Some(k) {
          assert WellFormedOption(nested[n]) && OptionKeyOf(nested[n]) == Some(k);
        } else {
          var j :| 0 <= j < n && WellFormedOption(front[j]) && OptionKeyOf(front[j]) == Some(k);
          assert WellFormedOption(nested[j]) && OptionKeyOf(nested[j]) == Some(k);
        }
      }
      if exists j :: 0 <= j < |nested| && WellFormedOption(nested[j]) && OptionKeyOf(nested[j]) == Some(k) {
        var j :| 0 <= j < |nested| && WellFormedOption(nested[j]) && OptionKeyOf(nested[j]) == Some(k);
        if j < n {
          assert WellFormedOption(front[j]) && OptionKeyOf(front[j]) == Some(k);
        }
      }
    }
  }

  lemma UpdatedSets(args: ExportArgs, nm: Nested, k: OptionKey)
    ensures var r := if WellFormedOption(nm) then Updated(args, nm) else args;
            IsSet(r, k) <==> IsSet(args, k) || (WellFormedOption(nm) && OptionKeyOf(nm) == Some(k))
  {
  }

  /** Every item is well formed and names an option not set in `args`,
      and no option is named twice. */
  predicate CleanOptions(args: ExportArgs, nested: seq<Nested>) {
    && (forall j :: 0 <= j < |nested| ==>
          WellFormedOption(nested[j]) && !IsSet(args, OptionKeyOf(nested[j]).value))
    && (forall i, j :: 0 <= i < j < |nested| ==> OptionKeyOf(nested[i]) != OptionKeyOf(nested[j]))
  }

  lemma CleanOptionsSnoc(args: ExportArgs, nested: seq<Nested>)
    requires |nested| > 0
    ensures var n := |nested| - 1;
            CleanOptions(args, nested) <==>
              && CleanOptions(args, nested[..n])
              && WellFormedOption(nested[n]) && !IsSet(args, OptionKeyOf(nested[n]).value)
              && forall i :: 0 <= i < n ==> OptionKeyOf(nested[i]) != OptionKeyOf(nested[n])
  {
  }

  lemma {:induction false} ApplyOptionsClean(st: OptionsState, nested: seq<Nested>, macroName: string)
    requires CleanOptions(st.args, nested)
    ensures ApplyOptions(st, nested, macroName).errors == st.errors
    decreases |nested|
  {
    if |nested| > 0 {
      var n := |nested| - 1;
      var front := nested[..n];
      CleanOptionsSnoc(st.args, nested);
      ApplyOptionsClean(st, front, macroName);
      var k := OptionKeyOf(nested[n]).value;
      ApplyOptionsSetKeys(st, front, macroName, k);
      assert forall j :: 0 <= j < n ==> front[j] == nested[j];
      assert !IsSet(ApplyOptions(st, front, macroName).args, k);
    }
  }

  lemma {:induction false} ApplyOptionsErrorsClean(st: OptionsState, nested: seq<Nested>, macroName: string)
    requires ApplyOptions(st, nested, macroName).errors == st.errors
    ensures CleanOptions(st.args, nested)
    decreases |nested|
  {
    if |nested| > 0 {
      var n := |nested| - 1;
      var front := nested[..n];
      ApplyOptionsMonotone(st, front, macroName);
      var prev := ApplyOptions(st, front, macroName);
      var r := ApplyOption(prev.args, nested[n], macroName);
      assert |prev.errors| >= |st.errors|;
      assert prev.errors == st.errors && r.1.None?;
      ApplyOptionsErrorsClean(st, front, macroName);
      var k := OptionKeyOf(nested[n]).value;
      ApplyOptionsSetKeys(st, front, macroName, k);
      forall i | 0 <= i < n ensures OptionKeyOf(nested[i]) != OptionKeyOf(nested[n]) {
        assert front[i] == nested[i];
        assert WellFormedOption(front[i]);
      }
      CleanOptionsSnoc(st.args, nested);
    }
  }

  /** A marker's argument list records no error exactly when every item is
      well formed, names an option not set before, and no option is named twice. */
  lemma ApplyOptionsErrorFree(st: OptionsState, nested: seq<Nested>, macroName: string)
    ensures ApplyOptions(st, nested, macroName).errors == st.errors <==> CleanOptions(st.args, nested)
  {
    if CleanOptions(st.args, nested) {
      ApplyOptionsClean(st, nested, macroName);
    }
    if ApplyOptions(st, nested, macroName).errors == st.errors {
      ApplyOptionsErrorsClean(st, nested, macroName);
    }
  }

  // ----- all attributes of one method ---------------------------------------

  /** The state of the attribute scan: the shared export arguments (present
      once a marker has been seen), the errors so far, and the attributes kept. */
  datatype AttrScan = AttrScan(exportArgs: Option<ExportArgs>, errors: seq<ExportError>, kept: seq<Attr>)

  /** One attribute (methods.rs:223-377): a marker is removed and folded into
      the shared arguments; every other attribute is kept. */
  function ScanAttr(st: AttrScan, a: Attr): AttrScan {
    match MarkerSyntax(a)
    case None => st.(kept := st.kept + [a])
    case Some(isOld) =>
      var args := st.exportArgs.GetOr(DefaultExportArgs).(isOldSyntax := isOld);
      match a.meta
      case ParseError(msg) => AttrScan(Some(args), st.errors + [AttrParseError(msg)], st.kept)
      case Parsed(MetaNameValue(_)) => AttrScan(Some(args), st.errors + [NameValueSyntax], st.kept)
      case Parsed(MetaPath) => AttrScan(Some(args), st.errors, st.kept)
      case Parsed(MetaList(nested)) =>
        var o := ApplyOptions(OptionsState(args, st.errors), nested, MacroName(isOld));
        AttrScan(Some(o.args), o.errors, st.kept)
  }

  /** What a marker itself records: a parse failure or a top-level
      `#[method = ...]` adds one error, a bare marker adds none, and an
      argument list adds none exactly when its options are clean for the
      shared arguments with the marker's syntax flag set. The marker is never
      kept, and the shared arguments then exist. */
  lemma ScanAttrMarker(st: AttrScan, a: Attr)
    requires IsMarker(a)
    ensures var args := st.exportArgs.GetOr(DefaultExportArgs).(isOldSyntax := MarkerSyntax(a).value);
            var r := ScanAttr(st, a);
            && r.kept == st.kept
            && r.exportArgs.Some?
            && (a.meta.ParseError? ==> r.errors == st.errors + [AttrParseError(a.meta.message)])
            && (a.meta.Parsed? && a.meta.shape.MetaNameValue? ==> r.errors == st.errors + [NameValueSyntax])
            && (a.meta.Parsed? && a.meta.shape.MetaPath? ==> r.errors == st.errors && r.exportArgs == Some(args))
            && (a.meta.Parsed? && a.meta.shape.MetaList? ==>
                  (r.errors == st.errors <==> CleanOptions(args, a.meta.shape.nested)))
  {
    if a.meta.Parsed? && a.meta.shape.MetaList? {
      var args := st.exportArgs.GetOr(DefaultExportArgs).(isOldSyntax := MarkerSyntax(a).value);
      ApplyOptionsErrorFree(OptionsState(args, st.errors), a.meta.shape.nested, MacroName(args.isOldSyntax));
    }
  }

  /** The attributes processed in order, from an empty state. */
  function ScanAttrs(attrs: seq<Attr>): AttrScan
    decreases |attrs|
  {
    if |attrs| == 0 then AttrScan(None, [], [])
    else ScanAttr(ScanAttrs(attrs[..|attrs| - 1]), attrs[|attrs| - 1])
  }

  /** Every marker is removed; all other attributes are kept in their order. */
  lemma {:induction false} ScanAttrsKept(attrs: seq<Attr>)
    ensures ScanAttrs(attrs).kept == Filter(attrs, NotMarker)
    decreases |attrs|
  {
    if |attrs| > 0 {
      var n := |attrs| - 1;
      ScanAttrsKept(attrs[..n]);
      assert attrs == attrs[..n] + [attrs[n]];
      FilterAppend(attrs[..n], [attrs[n]], NotMarker);
      FilterSingle(attrs[n], NotMarker);
    }
  }

  /** Export arguments exist exactly when the method carries a marker. */
  lemma {:induction false} ScanAttrsMarked(attrs: seq<Attr>)
    ensures ScanAttrs(attrs).exportArgs.Some? <==> exists i :: 0 <= i < |attrs| && IsMarker(attrs[i])
    decreases |attrs|
  {
    if |attrs| > 0 {
      var n := |attrs| - 1;
      ScanAttrsMarked(attrs[..n]);
      assert forall i :: 0 <= i < n ==> attrs[..n][i] == attrs[i];
      if ScanAttrs(attrs).exportArgs.Some? && !IsMarker(attrs[n]) {
        var i :| 0 <= i < n && IsMarker(attrs[..n][i]);
        assert IsMarker(attrs[i]);
      }
    }
  }

  /** `is_old_syntax` comes from the last marker: all markers share one
      `ExportArgs`, and each marker overwrites the flag. */
  lemma {:induction false} ScanAttrsSyntax(attrs: seq<Attr>)
    requires ScanAttrs(attrs).exportArgs.Some?
    ensures exists i :: 0 <= i < |attrs| && IsMarker(attrs[i]) &&
              ScanAttrs(attrs).exportArgs.value.isOldSyntax == MarkerSyntax(attrs[i]).value &&
              forall j :: i < j < |attrs| ==> NotMarker(attrs[j])
    decreases |attrs|
  {
    var n := |attrs| - 1;
    var prev := ScanAttrs(attrs[..n]);
    if IsMarker(attrs[n]) {
      var args := prev.exportArgs.GetOr(DefaultExportArgs).(isOldSyntax := MarkerSyntax(attrs[n]).value);
      if attrs[n].meta.Parsed? && attrs[n].meta.shape.MetaList? {
        ApplyOptionsMonotone(OptionsState(args, prev.errors), attrs[n].meta.shape.nested, MacroName(args.isOldSyntax));
      }
      assert ScanAttrs(attrs).exportArgs.value.isOldSyntax == MarkerSyntax(attrs[n]).value;
    } else {
      ScanAttrsSyntax(attrs[..n]);
      var i :| 0 <= i < n && IsMarker(attrs[..n][i]) &&
               prev.exportArgs.value.isOldSyntax == MarkerSyntax(attrs[..n][i]).value &&
               forall j :: i < j < n ==> NotMarker(attrs[..n][j]);
      assert IsMarker(attrs[i]);
      assert forall j :: i < j < |attrs| ==> NotMarker(attrs[j]) by {
        forall j | i < j < |attrs| ensures NotMarker(attrs[j]) {
          if j < n { assert attrs[..n][j] == attrs[j]; }
        }
      }
    }
  }

  /** A method without markers keeps all its attributes and records no error. */
  lemma {:induction false} ScanAttrsUnmarked(attrs: seq<Attr>)
    requires forall i :: 0 <= i < |attrs| ==> NotMarker(attrs[i])
    ensures ScanAttrs(attrs) == AttrScan(None, [], attrs)
    decreases |attrs|
  {
    if |attrs| > 0 {
      var n := |attrs| - 1;
      var front := attrs[..n];
      assert forall i :: 0 <= i < n ==> front[i] == attrs[i];
      ScanAttrsUnmarked(front);
      ScanAttrsLast(attrs);
      ScanAttrOther(ScanAttrs(front), attrs[n]);
      assert front + [attrs[n]] == attrs;
    }
  }

  lemma ScanAttrsLast(attrs: seq<Attr>)
    requires |attrs| > 0
    ensures ScanAttrs(attrs) == ScanAttr(ScanAttrs(attrs[..|attrs| - 1]), attrs[|attrs| - 1])
  {
  }

  lemma ScanAttrOther(st: AttrScan, a: Attr)
    requires NotMarker(a)
    ensures ScanAttr(st, a) == st.(kept := st.kept + [a])
  {
  }

  /** Both markers of `#[method(rpc = "remote")] #[export(name = "x")]` feed one
      `ExportArgs`: the first marker's mode survives, the second's name is added,
      and the second (legacy) marker decides the syntax. */
  lemma SharedArgsExample()
    ensures var rpc := Attr(Outer, Path(false, ["method"]),
                            Parsed(MetaList([NestedNameValue(Path(false, ["rpc"]), Str("remote"))])));
            var name := Attr(Outer, Path(false, ["export"]),
                             Parsed(MetaList([NestedNameValue(Path(false, ["name"]), Str("x"))])));
            ScanAttrs([rpc, name]) == AttrScan(Some(ExportArgs(true, Some(Remote), Some("x"), false)), [], [])
  {
    var rpc := Attr(Outer, Path(false, ["method"]),
                    Parsed(MetaList([NestedNameValue(Path(false, ["rpc"]), Str("remote"))])));
    var name := Attr(Outer, Path(false, ["export"]),
                     Parsed(MetaList([NestedNameValue(Path(false, ["name"]), Str("x"))])));
    assert [rpc, name][..1] == [rpc];
    assert [rpc][..0] == [];
    var nv := NestedNameValue(Path(false, ["rpc"]), Str("remote"));
    assert [nv][..0] == [];
    assert ParseRpcMode("remote") == Some(Remote);
    assert MarkerSyntax(rpc) == Some(false);
    var a0 := DefaultExportArgs.(isOldSyntax := false);
    assert ApplyOptions(OptionsState(a0, []), [nv], "method") == OptionsState(a0.(rpcMode := Some(Remote)), []);
    assert ScanAttrs([rpc]) == ScanAttr(ScanAttrs([]), rpc);
    var first := ScanAttrs([rpc]);
    assert first == AttrScan(Some(ExportArgs(false, Some(Remote), None, false)), [], []);
  }

  // ----- the imperative retain closure --------------------------------------

  /** The key handling of the nested-option loop, updating the arguments and
      the error list in place. */
  method ApplyKeyStep(args0: ExportArgs, errors0: seq<ExportError>, path: Path, lit: Option<Lit>, macroName: string)
    returns (args: ExportArgs, errors: seq<ExportError>)
    ensures var r := ApplyKey(args0, path, lit, macroName); args == r.0 && errors == errors0 + ErrorList(r.1)
  {
    args, errors := args0, errors0;
    if IsIdent(path, "rpc") {
      if lit.None? {
        errors := errors + [RpcRequiresString];
      } else if lit.value.Str? {
        var value := lit.value.value;
        var mode := ParseRpcMode(value);
        if mode.Some? {
          var previous := args.rpcMode;
          args := args.(rpcMode := mode);
          if previous.Some? {
            errors := errors + [RpcSetTwice];
          }
        } else {
          errors := errors + [RpcUnexpectedValue(value)];
        }
      } else {
        errors := errors + [RpcUnexpectedType];
      }
    } else if IsIdent(path, "name") {
      if lit.None? {
        errors := errors + [NameRequiresString];
      } else if lit.value.Str? {
        var previous := args.nameOverride;
        args := args.(nameOverride := Some(lit.value.value));
        if previous.Some? {
          errors := errors + [NameSetTwice];
        }
      } else {
        errors := errors + [NameUnexpectedType];
      }
    } else if IsIdent(path, "deref_return") {
      if lit.Some? {
        errors := errors + [DerefTakesNoValue];
      } else if args.isDerefReturn {
        errors := errors + [DerefSetTwice];
      } else {
        args := args.(isDerefReturn := true);
      }
    } else {
      errors := errors + [UnknownOption(macroName, PathText(path))];
    }
  }

  /** The `for nested_meta in nested_meta_iter` loop (methods.rs:265-372). */
  method ParseOptions(args0: ExportArgs, errors0: seq<ExportError>, nested: seq<Nested>, macroName: string)
    returns (args: ExportArgs, errors: seq<ExportError>)
    ensures OptionsState(args, errors) == ApplyOptions(OptionsState(args0, errors0), nested, macroName)
  {
    args, errors := args0, errors0;
    for i := 0 to |nested|
      invariant OptionsState(args, errors) == ApplyOptions(OptionsState(args0, errors0), nested[..i], macroName)
    {
      assert nested[..i + 1][..i] == nested[..i];
      match nested[i]
      case NestedLit(_) =>
        errors := errors + [LiteralItem];
      case NestedList(_) =>
        errors := errors + [ListItem];
      case NestedPath(path) =>
        args, errors := ApplyKeyStep(args, errors, path, None, macroName);
      case NestedNameValue(path, lit) =>
        args, errors := ApplyKeyStep(args, errors, path, Some(lit), macroName);
    }
    assert nested[..|nested|] == nested;
  }

  /** `method.attrs.retain(...)` with the closure's captured `export_args` and
      `errors` (methods.rs:219-378). */
  method RetainAttrs(attrs: seq<Attr>) returns (kept: seq<Attr>, exportArgs: Option<ExportArgs>, errors: seq<ExportError>)
    ensures AttrScan(exportArgs, errors, kept) == ScanAttrs(attrs)
  {
    kept, exportArgs, errors := [], None, [];
    for i := 0 to |attrs|
      invariant AttrScan(exportArgs, errors, kept) == ScanAttrs(attrs[..i])
    {
      assert attrs[..i + 1][..i] == attrs[..i];
      var attr := attrs[i];
      var retain := true;
      if attr.style == Outer {
        var lastSeg := LastSegment(attr.path);
        var isExport, isOldSyntax, macroName := false, false, "unknown";
        if lastSeg == Some("export") {
          isExport, isOldSyntax, macroName := true, true, "export";
        } else if lastSeg == Some("method") {
          isExport, isOldSyntax, macroName := true, false, "method";
        }
        if isExport {
          var args := exportArgs.GetOr(DefaultExportArgs).(isOldSyntax := isOldSyntax);
          exportArgs := Some(args);
          retain := false;
          match attr.meta
          case ParseError(msg) =>
            errors := errors + [AttrParseError(msg)];
          case Parsed(MetaNameValue(_)) =>
            errors := errors + [NameValueSyntax];
          case Parsed(MetaPath) =>
          case Parsed(MetaList(nested)) =>
            args, errors := ParseOptions(args, errors, nested, macroName);
            exportArgs := Some(args);
        }
      }
      if retain {
        kept := kept + [attr];
      }
    }
    assert attrs[..|attrs|] == attrs;
  }
}
