/** The parts of an `impl` block's syntax tree that the method-export
    analyzer inspects. These stand for the trees the `syn` parser produces;
    the parser itself is not part of this model. */
module Syntax {
  import opened Wrappers
  import opened Diagnostics

  /** `#[thing]` is outer style, `#![thing]` inner style. */
  datatype AttrStyle = Outer | Inner

  /** A path such as `gdnative::export`; `leadingColon` records a leading `::`. */
  datatype Path = Path(leadingColon: bool, segments: seq<string>)

  /** `path.is_ident(s)`: the path is exactly the single identifier `s`. */
  predicate IsIdent(p: Path, s: string) {
    !p.leadingColon && p.segments == [s]
  }

  function LastSegment(p: Path): Option<string> {
    if |p.segments| == 0 then None else Some(p.segments[|p.segments| - 1])
  }

  /** A literal: a string, or any other kind (integer, boolean, ...), kept as text. */
  datatype Lit = Str(value: string) | OtherLit(text: string)

  /** One item of an attribute's argument list. */
  datatype Nested =
    | NestedLit(lit: Lit)                      // #[m("lit")]
    | NestedList(path: Path)                   // #[m(a(b))]
    | NestedPath(path: Path)                   // #[m(a)]
    | NestedNameValue(path: Path, lit: Lit)    // #[m(a = "lit")]

  /** The shape of a whole attribute once parsed. */
  datatype MetaShape =
    | MetaPath                        // #[m]
    | MetaList(nested: seq<Nested>)   // #[m(...)]
    | MetaNameValue(lit: Lit)         // #[m = "lit"]

  /** The outcome of `attr.parse_meta()`. */
  datatype ParsedMeta = ParseError(message: string) | Parsed(shape: MetaShape)

  datatype Attr = Attr(style: AttrStyle, path: Path, meta: ParsedMeta)

  /** A parameter pattern: `_`, an identifier binding (`ref`? `mut`? name), or anything else. */
  datatype Pat = Wild | PatIdent(byRef: bool, mutable: bool, ident: string) | OtherPat(text: string)

  /** A type, kept as text, with whether it is a reference type `&T`. */
  datatype Ty = Ty(isReference: bool, text: string)

  /** A function parameter: the receiver (`self`, `&self`, ...) or a typed `pat: ty`. */
  datatype Param = Receiver(attrs: seq<Attr>, text: string) | Typed(attrs: seq<Attr>, pat: Pat, ty: Ty)

  datatype ReturnType = DefaultReturn | Returns(ty: Ty)

  /** A method signature; only the number of each kind of generic parameter matters. */
  datatype Sig = Sig(
    isUnsafe: bool,
    ident: string,
    typeParams: nat,
    lifetimes: nat,
    constParams: nat,
    inputs: seq<Param>,
    output: ReturnType)

  datatype ImplMethod = ImplMethod(attrs: seq<Attr>, sig: Sig, body: string)

  /** An item of an `impl` block. `ErrorItem` is a verbatim compile error the
      analyzer inserts; `OtherItem` is a constant, type, macro or other item. */
  datatype ImplItem = MethodItem(fn: ImplMethod) | ErrorItem(error: ExportError) | OtherItem(text: string)

  datatype ItemImpl = ItemImpl(selfTy: string, items: seq<ImplItem>)
}
