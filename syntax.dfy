/** Abstract syntax shared by both crates: the parts of the syn syntax tree
    that the attribute helpers inspect. Everything else about a declaration
    is kept as opaque text, since the helpers never look inside it. */
module Syntax {

  datatype Option<+T> = None | Some(value: T)

  datatype Result<+T, +E> = Ok(value: T) | Err(error: E)

  /** A path such as `syn::AttributeArgs`, as the names of its segments. */
  datatype Path = Path(segments: seq<string>)

  /** The path's last segment is `name`, whatever comes before it
      (`AttributeArgs` and `syn::AttributeArgs` both end in `AttributeArgs`). */
  ghost predicate EndsIn(p: Path, name: string) {
    exists prefix :: p.segments == prefix + [name]
  }

  /** Ending in `name` is exactly having a last segment, equal to `name`. */
  lemma EndsInIffLastSegment(p: Path, name: string)
    ensures EndsIn(p, name) <==> |p.segments| > 0 && p.segments[|p.segments| - 1] == name
  {
    var n := |p.segments|;
    if n > 0 && p.segments[n - 1] == name {
      assert p.segments == p.segments[..n - 1] + [name];
    }
  }

  /** The type of a parameter or of a return value: a path type, or any other
      form (reference, tuple, slice, ...), whose text is kept opaque. */
  datatype Type = PathType(path: Path) | OtherType(text: string)

  /** A function parameter: a `self` receiver, or a typed pattern `pat: ty`. */
  datatype FnArg = Receiver(text: string) | Typed(pat: string, ty: Type)

  /** The return part of a signature: absent (`()`), or `-> ty`. */
  datatype ReturnType = DefaultReturn | ReturnTy(ty: Type)

  /** The parsed form of an attribute's contents, as syn's `Meta`. */
  datatype Meta =
    | MetaPath(path: Path)
    | MetaList(path: Path, nested: seq<NestedMeta>)
    | MetaNameValue(path: Path, lit: string)

  /** One element of a `Meta::List`: a nested meta item or a literal. */
  datatype NestedMeta = NestedItem(meta: Meta) | NestedLit(lit: string)

  /** An attribute `#[path tokens]`. `meta` is what parsing its tokens as a
      `Meta` yields, or None when that parse fails. */
  datatype Attribute = Attribute(path: Path, meta: Option<Meta>)

  datatype Visibility = Public | Inherited

  /** The signature parts the helpers use: the name, the parameters and the
      return type. */
  datatype Signature = Signature(ident: string, inputs: seq<FnArg>, output: ReturnType)

  /** A function body: the original statements, kept opaque, or the body of a
      generated entry point, `callee(parse_macro_input!(attributes as
      AttributeArgs), item.into()).into()`. */
  datatype Block = Body(text: string) | Forward(callee: Path)

  /** A function declaration, as syn's `ItemFn`. */
  datatype ItemFn = ItemFn(attrs: seq<Attribute>, vis: Visibility, sig: Signature, block: Block)

  /** The kinds of declaration syn distinguishes. Verbatim stands for every
      kind whose attributes are not reachable (syn's `Item::Verbatim` and its
      hidden non-exhaustive variant). */
  datatype ItemKind =
    | Const | Enum | ExternCrate | Fn | ForeignMod | Impl | Macro | Macro2
    | Mod | Static | Struct | Trait | TraitAlias | TypeAlias | Union | Use
    | Verbatim

  /** A declaration: its kind, its attributes (outer and inner), and the
      rest of it as opaque text. */
  datatype Item = Item(kind: ItemKind, attrs: seq<Attribute>, rest: string)
}
