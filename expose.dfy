/** `impl_gdnative_expose` (gdnative-derive/src/methods.rs:195-526): the
    cleaned `impl` block and the list of methods to export. */
module Expose {
  import opened Wrappers
  import opened Seqs
  import opened Text
  import opened Syntax
  import opened Diagnostics
  import opened ExportOptions
  import opened Params

  /** One method to export (`ExportMethod`). */
  datatype ExportMethod = ExportMethod(sig: Sig, exportArgs: ExportArgs, optionalArgs: Option<nat>, existBaseArg: bool)

  /** The export data of one `impl` block (`ClassMethodExport`). */
  datatype ClassMethodExport = ClassMethodExport(classTy: string, methods: seq<ExportMethod>)

  predicate IsMarked(m: ImplMethod) {
    exists i :: 0 <= i < |m.attrs| && IsMarker(m.attrs[i])
  }

  predicate IsMarkedItem(item: ImplItem) {
    item.MethodItem? && IsMarked(item.fn)
  }

  predicate NotErrorItem(item: ImplItem) {
    !item.ErrorItem?
  }

  // ----- first pass: one method ---------------------------------------------

  /** What the first pass makes of one method: the errors recorded for it,
      the copy kept in the cleaned block, and the method to export if it
      carried a marker (methods.rs:218-450). */
  datatype Analysis = Analysis(errors: seq<ExportError>, cleaned: ImplMethod, exported: Option<ExportMethod>)

  function Analyze(m: ImplMethod): Analysis {
    var sc := ScanAttrs(m.attrs);
    var m1 := m.(attrs := sc.kept);
    match sc.exportArgs
    case None => Analysis(sc.errors, m1, None)
    case Some(args) =>
      var ps := ScanParams(sc.errors, m.sig.inputs, args.isOldSyntax);
      var m2 := m1.(sig := m1.sig.(inputs := ps.params));
      Analysis(ps.errors, m2, Some(ExportMethod(m2.sig, args, ps.optionalArgs, ps.existBaseArg)))
  }

  /** Each recorded error becomes a verbatim compile-error item. */
  function ErrorItems(errors: seq<ExportError>): seq<ImplItem> {
    Map(errors, (e: ExportError) => ErrorItem(e))
  }

  datatype ItemOutcome = ItemOutcome(items: seq<ImplItem>, exported: Option<ExportMethod>)

  /** The items an input item becomes: a method is preceded by its errors;
      every other item passes through (methods.rs:217-452). */
  function ProcessItem(item: ImplItem): ItemOutcome {
    match item
    case MethodItem(m) =>
      var a := Analyze(m);
      ItemOutcome(ErrorItems(a.errors) + [MethodItem(a.cleaned)], a.exported)
    case _ => ItemOutcome([item], None)
  }

  /** The cleaned block so far and the methods collected for export. */
  datatype Collected = Collected(items: seq<ImplItem>, candidates: seq<ExportMethod>)

  function ExportList(e: Option<ExportMethod>): seq<ExportMethod> {
    if e.Some? then [e.value] else []
  }

  /** The item loop of the first pass (methods.rs:216-455). */
  function CollectItems(items: seq<ImplItem>): Collected
    decreases |items|
  {
    if |items| == 0 then Collected([], [])
    else
      var prev := CollectItems(items[..|items| - 1]);
      var o := ProcessItem(items[|items| - 1]);
      Collected(prev.items + o.items, prev.candidates + ExportList(o.exported))
  }

  // ----- second pass: generics check and normalisation ----------------------

  predicate HasGenerics(sig: Sig) {
    sig.typeParams > 0 || sig.lifetimes > 0 || sig.constParams > 0
  }

  predicate NoGenerics(em: ExportMethod) {
    !HasGenerics(em.sig)
  }

  predicate Generic(em: ExportMethod) {
    HasGenerics(em.sig)
  }

  /** The single error a generic method is dropped with (methods.rs:464-486). */
  function GenericsError(sig: Sig): ExportError {
    if sig.typeParams > 0 then TypeParamsNotAllowed
    else if sig.lifetimes > 0 then LifetimeParamsNotAllowed
    else ConstParamsNotAllowed
  }

  function GenericsErrorItem(em: ExportMethod): ImplItem {
    ErrorItem(GenericsError(em.sig))
  }

  /** The synthetic name a wildcard parameter at index `i` receives. */
  function UnusedArgName(i: nat): string {
    "___unused_arg_" + NatText(i)
  }

  function NormalizePat(p: Pat, i: nat): Pat {
    match p
    case Wild => PatIdent(false, false, UnusedArgName(i))
    case PatIdent(byRef, _, ident) => PatIdent(byRef, false, ident)
    case OtherPat(_) => p
  }

  function NormalizeParam(p: Param, i: nat): Param {
    match p
    case Typed(attrs, pat, ty) => Typed(attrs, NormalizePat(pat, i), ty)
    case Receiver(_, _) => p
  }

  /** The exported copy's parameters after the `for_each` at methods.rs:490-515. */
  function NormalizedInputs(inputs: seq<Param>): seq<Param> {
    seq(|inputs|, i requires 0 <= i < |inputs| => NormalizeParam(inputs[i], i))
  }

  /** The exported copy of a surviving method: normalised patterns, no `unsafe`. */
  function Normalized(em: ExportMethod): ExportMethod {
    em.(sig := em.sig.(inputs := NormalizedInputs(em.sig.inputs), isUnsafe := false))
  }

  datatype Shaped = Shaped(errorItems: seq<ImplItem>, survivors: seq<ExportMethod>)

  /** The loop over `methods_to_export` (methods.rs:460-522). */
  function CheckShapes(cands: seq<ExportMethod>): Shaped
    decreases |cands|
  {
    if |cands| == 0 then Shaped([], [])
    else
      var prev := CheckShapes(cands[..|cands| - 1]);
      var em := cands[|cands| - 1];
      if HasGenerics(em.sig) then prev.(errorItems := prev.errorItems + [GenericsErrorItem(em)])
      else prev.(survivors := prev.survivors + [Normalized(em)])
  }

  /** The whole transformation: the cleaned block, with the errors of
      dropped methods appended after all items, and the export list. */
  function Exposed(ast: ItemImpl): (ItemImpl, ClassMethodExport) {
    var c := CollectItems(ast.items);
    var s := CheckShapes(c.candidates);
    (ast.(items := c.items + s.errorItems), ClassMethodExport(ast.selfTy, s.survivors))
  }

  // ----- properties of one method -------------------------------------------

  /** A method without a marker is left exactly as it was and is not exported. */
  lemma AnalyzeUnmarked(m: ImplMethod)
    requires !IsMarked(m)
    ensures Analyze(m) == Analysis([], m, None)
  {
    ScanAttrsUnmarked(m.attrs);
  }

  /** Within an export, `optional_args` is `Some(k)` only with `1 <= k <= arg_count - 2`. */
  predicate OptionalWithinBound(em: ExportMethod) {
    em.optionalArgs.Some? ==> 1 <= em.optionalArgs.value <= |em.sig.inputs| - 2
  }

  /** A method with a marker yields exactly one export, whatever errors were
      recorded for it. Its markers are gone from the kept copy, its parameters
      lose their `#[opt]`/`#[base]` markers, and everything else is unchanged;
      the export shares that signature. */
  lemma AnalyzeMarked(m: ImplMethod)
    requires IsMarked(m)
    ensures var a := Analyze(m);
            && a.exported.Some?
            && a.cleaned == m.(attrs := Filter(m.attrs, NotMarker), sig := m.sig.(inputs := StripAll(m.sig.inputs)))
            && a.exported.value.sig == a.cleaned.sig
            && Some(a.exported.value.exportArgs) == ScanAttrs(m.attrs).exportArgs
            && OptionalWithinBound(a.exported.value)
  {
    ScanAttrsMarked(m.attrs);
    ScanAttrsKept(m.attrs);
    var args := ScanAttrs(m.attrs).exportArgs.value;
    ScanParamsShape(ScanAttrs(m.attrs).errors, m.sig.inputs, args.isOldSyntax);
    ScanParamsOptional(ScanAttrs(m.attrs).errors, m.sig.inputs, args.isOldSyntax);
  }

  /** The parameter errors of an exported method are the attribute errors
      followed by nothing exactly when the positional contract holds. */
  lemma AnalyzePositionalErrors(m: ImplMethod)
    requires IsMarked(m)
    ensures var sc := ScanAttrs(m.attrs);
            sc.exportArgs.Some? &&
            (Analyze(m).errors == sc.errors <==> PositionalOk(m.sig.inputs, sc.exportArgs.value.isOldSyntax))
  {
    ScanAttrsMarked(m.attrs);
    var sc := ScanAttrs(m.attrs);
    ScanParamsErrorFree(sc.errors, m.sig.inputs, sc.exportArgs.value.isOldSyntax);
  }

  /** The copy kept in the cleaned block keeps the method's `unsafe`, name,
      generics, return type, body and every parameter pattern: normalisation
      touches only the exported copy. */
  lemma AnalyzeKeepsSignature(m: ImplMethod)
    ensures var c := Analyze(m).cleaned;
            && c.body == m.body
            && c.sig.isUnsafe == m.sig.isUnsafe
            && c.sig.ident == m.sig.ident
            && (c.sig.typeParams, c.sig.lifetimes, c.sig.constParams) == (m.sig.typeParams, m.sig.lifetimes, m.sig.constParams)
            && c.sig.output == m.sig.output
            && |c.sig.inputs| == |m.sig.inputs|
            && forall i :: 0 <= i < |m.sig.inputs| ==>
                 c.sig.inputs[i].Typed? == m.sig.inputs[i].Typed? &&
                 (m.sig.inputs[i].Typed? ==> c.sig.inputs[i].pat == m.sig.inputs[i].pat)
  {
    if IsMarked(m) {
      AnalyzeMarked(m);
      forall i | 0 <= i < |m.sig.inputs| ensures StripAll(m.sig.inputs)[i] == StripParam(m.sig.inputs[i]) {
      }
    } else {
      AnalyzeUnmarked(m);
    }
  }

  // ----- properties of the item loop ----------------------------------------

  /** The item loop is compositional: processing `a + b` yields the output of
      `a` followed by that of `b`, so everything keeps source order. */
  lemma {:induction false} CollectItemsAppend(a: seq<ImplItem>, b: seq<ImplItem>)
    ensures CollectItems(a + b).items == CollectItems(a).items + CollectItems(b).items
    ensures CollectItems(a + b).candidates == CollectItems(a).candidates + CollectItems(b).candidates
    decreases |b|
  {
    if |b| == 0 {
      assert a + b == a;
    } else {
      var n := |b| - 1;
      assert (a + b)[..|a + b| - 1] == a + b[..n];
      assert (a + b)[|a + b| - 1] == b[n];
      CollectItemsAppend(a, b[..n]);
    }
  }

  /** The copy of an item kept in the cleaned block. */
  function CleanItem(item: ImplItem): ImplItem {
    match item
    case MethodItem(m) => MethodItem(Analyze(m).cleaned)
    case _ => item
  }

  lemma ErrorItemsFiltered(errors: seq<ExportError>)
    ensures Filter(ErrorItems(errors), NotErrorItem) == []
  {
    FilterNone(ErrorItems(errors), NotErrorItem);
  }

  /** Apart from the inserted error items, the cleaned block holds every input
      item in order: each method once (cleaned), every other item unchanged. */
  lemma {:induction false} CollectItemsPassThrough(items: seq<ImplItem>)
    ensures Filter(CollectItems(items).items, NotErrorItem) == Map(Filter(items, NotErrorItem), CleanItem)
    decreases |items|
  {
    if |items| > 0 {
      var n := |items| - 1;
      var init, x := items[..n], items[n];
      CollectItemsPassThrough(init);
      var prev := CollectItems(init);
      var o := ProcessItem(x);
      assert items == init + [x];
      FilterAppend(prev.items, o.items, NotErrorItem);
      ProcessItemPassThrough(x);
      calc {
        Filter(CollectItems(items).items, NotErrorItem);
        Filter(prev.items + o.items, NotErrorItem);
        Filter(prev.items, NotErrorItem) + Filter(o.items, NotErrorItem);
        Map(Filter(init, NotErrorItem), CleanItem) + Map(Filter([x], NotErrorItem), CleanItem);
        { MapAppend(Filter(init, NotErrorItem), Filter([x], NotErrorItem), CleanItem); }
        Map(Filter(init, NotErrorItem) + Filter([x], NotErrorItem), CleanItem);
        { FilterAppend(init, [x], NotErrorItem); }
        Map(Filter(items, NotErrorItem), CleanItem);
      }
    }
  }

  /** One item's contribution to the cleaned block, error items aside. */
  lemma ProcessItemPassThrough(x: ImplItem)
    ensures Filter(ProcessItem(x).items, NotErrorItem) == Map(Filter([x], NotErrorItem), CleanItem)
  {
    FilterSingle(x, NotErrorItem);
    if x.MethodItem? {
      var a := Analyze(x.fn);
      FilterAppend(ErrorItems(a.errors), [MethodItem(a.cleaned)], NotErrorItem);
      ErrorItemsFiltered(a.errors);
      FilterSingle(MethodItem(a.cleaned), NotErrorItem);
      assert Map([x], CleanItem) == [MethodItem(a.cleaned)];
    } else {
      FilterSingle(x, NotErrorItem);
      assert Map([x], CleanItem) == [x];
    }
  }

  /** What an item contributes to the export list. */
  function ItemExport(item: ImplItem): Option<ExportMethod> {
    if item.MethodItem? then Analyze(item.fn).exported else None
  }

  /** Exactly one export per marked method, in source order. */
  lemma {:induction false} CollectItemsCandidates(items: seq<ImplItem>)
    ensures var c := CollectItems(items).candidates;
            var marked := Filter(items, IsMarkedItem);
            |c| == |marked| && forall k :: 0 <= k < |c| ==> Some(c[k]) == ItemExport(marked[k])
    decreases |items|
  {
    if |items| > 0 {
      var n := |items| - 1;
      var x := items[n];
      CollectItemsCandidates(items[..n]);
      assert items == items[..n] + [x];
      FilterAppend(items[..n], [x], IsMarkedItem);
      FilterSingle(x, IsMarkedItem);
      if x.MethodItem? {
        if IsMarked(x.fn) {
          AnalyzeMarked(x.fn);
        } else {
          AnalyzeUnmarked(x.fn);
        }
      }
    }
  }

  /** Every collected export respects the optional-count bound. */
  lemma {:induction false} CollectItemsBound(items: seq<ImplItem>)
    ensures forall k :: 0 <= k < |CollectItems(items).candidates| ==> OptionalWithinBound(CollectItems(items).candidates[k])
    decreases |items|
  {
    if |items| > 0 {
      var n := |items| - 1;
      CollectItemsBound(items[..n]);
      var x := items[n];
      if x.MethodItem? && IsMarked(x.fn) {
        AnalyzeMarked(x.fn);
      } else if x.MethodItem? {
        AnalyzeUnmarked(x.fn);
      }
    }
  }

  // ----- properties of the second pass --------------------------------------

  /** The generics errors are checked in the order type, lifetime, const, and
      only the first that applies is reported. */
  lemma GenericsErrorOrder(sig: Sig)
    requires HasGenerics(sig)
    ensures GenericsError(sig) == TypeParamsNotAllowed <==> sig.typeParams > 0
    ensures GenericsError(sig) == LifetimeParamsNotAllowed <==> sig.typeParams == 0 && sig.lifetimes > 0
    ensures GenericsError(sig) == ConstParamsNotAllowed <==> sig.typeParams == 0 && sig.lifetimes == 0 && sig.constParams > 0
  {
  }

  /** The kept candidates, normalised, are the export list, in order. */
  lemma {:induction false} CheckShapesSurvivors(cands: seq<ExportMethod>)
    ensures CheckShapes(cands).survivors == Map(Filter(cands, NoGenerics), Normalized)
    decreases |cands|
  {
    if |cands| > 0 {
      var n := |cands| - 1;
      var init, em := cands[..n], cands[n];
      CheckShapesSurvivors(init);
      assert cands == init + [em];
      FilterSingle(em, NoGenerics);
      var tail := if HasGenerics(em.sig) then [] else [Normalized(em)];
      assert Map(Filter([em], NoGenerics), Normalized) == tail;
      calc {
        CheckShapes(cands).survivors;
        CheckShapes(init).survivors + tail;
        Map(Filter(init, NoGenerics), Normalized) + Map(Filter([em], NoGenerics), Normalized);
        { MapAppend(Filter(init, NoGenerics), Filter([em], NoGenerics), Normalized); }
        Map(Filter(init, NoGenerics) + Filter([em], NoGenerics), Normalized);
        { FilterAppend(init, [em], NoGenerics); }
        Map(Filter(cands, NoGenerics), Normalized);
      }
    }
  }

  /** The dropped candidates give one error item each, in order. */
  lemma {:induction false} CheckShapesDropped(cands: seq<ExportMethod>)
    ensures CheckShapes(cands).errorItems == Map(Filter(cands, Generic), GenericsErrorItem)
    decreases |cands|
  {
    if |cands| > 0 {
      var n := |cands| - 1;
      var init, em := cands[..n], cands[n];
      CheckShapesDropped(init);
      assert cands == init + [em];
      FilterSingle(em, Generic);
      var tail := if HasGenerics(em.sig) then [GenericsErrorItem(em)] else [];
      assert Map(Filter([em], Generic), GenericsErrorItem) == tail;
      calc {
        CheckShapes(cands).errorItems;
        CheckShapes(init).errorItems + tail;
        Map(Filter(init, Generic), GenericsErrorItem) + Map(Filter([em], Generic), GenericsErrorItem);
        { MapAppend(Filter(init, Generic), Filter([em], Generic), GenericsErrorItem); }
        Map(Filter(init, Generic) + Filter([em], Generic), GenericsErrorItem);
        { FilterAppend(init, [em], Generic); }
        Map(Filter(cands, Generic), GenericsErrorItem);
      }
    }
  }

  /** Every candidate ends up in exactly one of the two lists. */
  lemma {:induction false} CheckShapesCount(cands: seq<ExportMethod>)
    ensures |CheckShapes(cands).survivors| + |CheckShapes(cands).errorItems| == |cands|
    decreases |cands|
  {
    if |cands| > 0 {
      CheckShapesCount(cands[..|cands| - 1]);
    }
  }

  /** Distinct indices give distinct synthetic wildcard names. */
  lemma UnusedArgNamesDistinct(i: nat, j: nat)
    requires UnusedArgName(i) == UnusedArgName(j)
    ensures i == j
  {
    var prefix := "___unused_arg_";
    assert NatText(i) == UnusedArgName(i)[|prefix|..];
    assert NatText(j) == UnusedArgName(j)[|prefix|..];
    NatTextInjective(i, j);
  }

  /** After normalisation no parameter pattern is a wildcard or a `mut`
      binding: the wildcard at index `i` is named `___unused_arg_i`, an
      identifier loses only its `mut`, and attributes, types, receivers and
      other patterns are unchanged. */
  lemma NormalizedInputsClean(inputs: seq<Param>)
    ensures var out := NormalizedInputs(inputs);
            && |out| == |inputs|
            && forall i :: 0 <= i < |inputs| ==>
                 && out[i].attrs == inputs[i].attrs
                 && out[i].Typed? == inputs[i].Typed?
                 && (inputs[i].Receiver? ==> out[i] == inputs[i])
                 && (out[i].Typed? ==> out[i].ty == inputs[i].ty && !out[i].pat.Wild? && !(out[i].pat.PatIdent? && out[i].pat.mutable))
                 && (inputs[i].Typed? && inputs[i].pat.Wild? ==> out[i].pat == PatIdent(false, false, UnusedArgName(i)))
                 && (inputs[i].Typed? && inputs[i].pat.PatIdent? ==>
                       out[i].pat == inputs[i].pat.(mutable := false))
                 && (inputs[i].Typed? && inputs[i].pat.OtherPat? ==> out[i].pat == inputs[i].pat)
  {
  }

  /** Every exported method is free of generics and `unsafe`, has normalised
      patterns, and respects the optional-count bound. */
  lemma ExposeSurvivors(ast: ItemImpl)
    ensures var ms := Exposed(ast).1.methods;
            forall k :: 0 <= k < |ms| ==>
              && !HasGenerics(ms[k].sig)
              && !ms[k].sig.isUnsafe
              && OptionalWithinBound(ms[k])
              && exists em :: em in CollectItems(ast.items).candidates && ms[k] == Normalized(em)
  {
    var c := CollectItems(ast.items).candidates;
    CheckShapesSurvivors(c);
    CollectItemsBound(ast.items);
    var kept := Filter(c, NoGenerics);
    forall k | 0 <= k < |kept| ensures !HasGenerics(kept[k].sig) && kept[k] in c {
      assert kept[k] in kept;
    }
    forall em | em in c ensures OptionalWithinBound(Normalized(em)) {
      var k :| 0 <= k < |c| && c[k] == em;
    }
  }

  /** The cleaned block, error items aside, is the input with each method
      cleaned; errors of dropped methods add only error items, after the rest. */
  lemma ExposeCleanedBlock(ast: ItemImpl)
    ensures var out := Exposed(ast).0;
            && out.selfTy == ast.selfTy
            && Filter(out.items, NotErrorItem) == Map(Filter(ast.items, NotErrorItem), CleanItem)
            && out.items[..|CollectItems(ast.items).items|] == CollectItems(ast.items).items
            && forall k :: |CollectItems(ast.items).items| <= k < |out.items| ==> out.items[k].ErrorItem?
  {
    var c := CollectItems(ast.items);
    var s := CheckShapes(c.candidates);
    CollectItemsPassThrough(ast.items);
    CheckShapesDropped(c.candidates);
    FilterAppend(c.items, s.errorItems, NotErrorItem);
    FilterNone(s.errorItems, NotErrorItem);
    assert (c.items + s.errorItems)[..|c.items|] == c.items;
  }

  // ----- the imperative transformation --------------------------------------

  /** The `ImplItem::Method` arm of the item loop (methods.rs:218-450). */
  method ProcessMethod(m: ImplMethod) returns (items: seq<ImplItem>, exported: Option<ExportMethod>)
    ensures ItemOutcome(items, exported) == ProcessItem(MethodItem(m))
  {
    var kept, exportArgs, errors := RetainAttrs(m.attrs);
    var fn := m.(attrs := kept);
    exported := None;
    if exportArgs.Some? {
      var args := exportArgs.value;
      var optionalArgs, existBaseArg, errors', inputs := ScanInputs(fn.sig.inputs, args.isOldSyntax, errors);
      errors := errors';
      fn := fn.(sig := fn.sig.(inputs := inputs));
      exported := Some(ExportMethod(fn.sig, args, optionalArgs, existBaseArg));
    }
    items := ErrorItems(errors) + [MethodItem(fn)];
  }

  /** The in-place `for_each` over the exported copy's parameters (methods.rs:490-515). */
  method NormalizeInputs(inputs: seq<Param>) returns (out: seq<Param>)
    ensures out == NormalizedInputs(inputs)
  {
    out := inputs;
    for i := 0 to |out|
      invariant |out| == |inputs|
      invariant forall k :: 0 <= k < i ==> out[k] == NormalizeParam(inputs[k], k)
      invariant forall k :: i <= k < |out| ==> out[k] == inputs[k]
    {
      match out[i]
      case Typed(attrs, pat, ty) =>
        match pat {
          case Wild =>
            out := out[i := Typed(attrs, PatIdent(false, false, UnusedArgName(i)), ty)];
          case PatIdent(byRef, _, ident) =>
            out := out[i := Typed(attrs, PatIdent(byRef, false, ident), ty)];
          case OtherPat(_) =>
        }
      case Receiver(_, _) =>
    }
  }

  /** The first pass: the item loop (methods.rs:211-455). */
  method CollectMethods(items: seq<ImplItem>) returns (out: seq<ImplItem>, methodsToExport: seq<ExportMethod>)
    ensures Collected(out, methodsToExport) == CollectItems(items)
  {
    out := [];
    methodsToExport := [];
    for i := 0 to |items|
      invariant Collected(out, methodsToExport) == CollectItems(items[..i])
    {
      assert items[..i + 1][..i] == items[..i];
      var produced: seq<ImplItem>;
      match items[i] {
        case MethodItem(m) =>
          var exported';
          produced, exported' := ProcessMethod(m);
          if exported'.Some? {
            methodsToExport := methodsToExport + [exported'.value];
          }
        case ErrorItem(_) =>
          produced := [items[i]];
        case OtherItem(_) =>
          produced := [items[i]];
      }
      out := out + produced;
    }
    assert items[..|items|] == items;
  }

  /** The second pass: the loop over `methods_to_export` (methods.rs:460-522). */
  method CheckMethods(methodsToExport: seq<ExportMethod>) returns (errorItems: seq<ImplItem>, methods: seq<ExportMethod>)
    ensures Shaped(errorItems, methods) == CheckShapes(methodsToExport)
  {
    errorItems := [];
    methods := [];
    for j := 0 to |methodsToExport|
      invariant Shaped(errorItems, methods) == CheckShapes(methodsToExport[..j])
    {
      assert methodsToExport[..j + 1][..j] == methodsToExport[..j];
      var fn := methodsToExport[j];
      var sig := fn.sig;
      if sig.typeParams > 0 {
        errorItems := errorItems + [ErrorItem(TypeParamsNotAllowed)];
      } else if sig.lifetimes > 0 {
        errorItems := errorItems + [ErrorItem(LifetimeParamsNotAllowed)];
      } else if sig.constParams > 0 {
        errorItems := errorItems + [ErrorItem(ConstParamsNotAllowed)];
      } else {
        var inputs := NormalizeInputs(sig.inputs);
        // Only the exported copy loses `unsafe`; the kept method keeps it.
        fn := fn.(sig := sig.(inputs := inputs, isUnsafe := false));
        methods := methods + [fn];
      }
    }
    assert methodsToExport[..|methodsToExport|] == methodsToExport;
  }

  /** `impl_gdnative_expose`: rebuilds the block item by item, then checks
      and normalises the collected methods, appending the errors of the
      dropped ones to the block (methods.rs:197-526). */
  method ImplGdnativeExpose(ast: ItemImpl) returns (result: ItemImpl, exported: ClassMethodExport)
    ensures (result, exported) == Exposed(ast)
  {
    var items, methodsToExport := CollectMethods(ast.items);
    var errorItems, methods := CheckMethods(methodsToExport);
    result := ast.(items := items + errorItems);
    exported := ClassMethodExport(ast.selfTy, methods);
  }
}
