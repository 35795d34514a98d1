/** The `proc_macro_attribute2` attribute (attributes/src/lib.rs): it checks
    that a function has the shape `(AttributeArgs, TokenStream2) ->
    TokenStream2` and wraps it in a compiler entry point plus a module
    `implementation` that keeps the function callable from tests. */
module Attributes {
  import opened Syntax

  const ATTRIBUTE_ARGS := "AttributeArgs"
  const TOKEN_STREAM2 := "TokenStream2"
  const IMPLEMENTATION := "implementation"

  /** The type the compiler hands to and expects from an attribute macro. */
  const PROC_MACRO_TOKEN_STREAM := PathType(Path(["proc_macro", "TokenStream"]))

  /** `input` is a typed parameter whose type is a path ending in `name`. */
  ghost predicate IsTypedArgOf(input: FnArg, name: string) {
    input.Typed? && input.ty.PathType? && EndsIn(input.ty.path, name)
  }

  /** `output` is `-> T` for a path type T ending in `name`. */
  ghost predicate ReturnsPathOf(output: ReturnType, name: string) {
    output.ReturnTy? && output.ty.PathType? && EndsIn(output.ty.path, name)
  }

  /** The shape `(AttributeArgs, TokenStream2) -> TokenStream2`, comparing
      only the last segment of each type path. */
  ghost predicate HasExpectedShape(sig: Signature) {
    && |sig.inputs| == 2
    && IsTypedArgOf(sig.inputs[0], ATTRIBUTE_ARGS)
    && IsTypedArgOf(sig.inputs[1], TOKEN_STREAM2)
    && ReturnsPathOf(sig.output, TOKEN_STREAM2)
  }

  /** `path.segments.last().map(|seg| seg.ident.to_string() == name).unwrap_or(false)` */
  function LastSegmentIs(path: Path, name: string): (r: bool)
    ensures r <==> EndsIn(path, name)
    ensures path.segments == [] ==> !r
  {
    EndsInIffLastSegment(path, name);
    |path.segments| > 0 && path.segments[|path.segments| - 1] == name
  }

  /** `argument_of_expected_type`: a typed parameter whose type path ends in
      `expected`; a receiver, a non-path type or an empty path is rejected. */
  function ArgumentOfExpectedType(input: FnArg, expected: string): (r: bool)
    ensures r <==> IsTypedArgOf(input, expected)
    ensures input.Receiver? ==> !r
    ensures input.Typed? && input.ty.OtherType? ==> !r
    ensures input.Typed? && input.ty.PathType? && input.ty.path.segments == [] ==> !r
  {
    match input
    case Typed(_, ty) =>
      (match ty
       case PathType(p) => LastSegmentIs(p, expected)
       case _ => false)
    case _ => false
  }

  /** `output_of_expected_type`: `-> T` with T a path ending in `TokenStream2`;
      a missing return type or a non-path type is rejected. */
  function OutputOfExpectedType(output: ReturnType): (r: bool)
    ensures r <==> ReturnsPathOf(output, TOKEN_STREAM2)
    ensures output.DefaultReturn? ==> !r
    ensures output.ReturnTy? && output.ty.OtherType? ==> !r
  {
    match output
    case ReturnTy(ty) =>
      (match ty
       case PathType(p) => LastSegmentIs(p, TOKEN_STREAM2)
       case _ => false)
    case _ => false
  }

  /** `signature_as_expected`. */
  function SignatureAsExpected(sig: Signature): (r: bool)
    ensures |sig.inputs| != 2 ==> !r
    ensures r <==> HasExpectedShape(sig)
  {
    if |sig.inputs| != 2 then false
    else
      var firstParamOk := ArgumentOfExpectedType(sig.inputs[0], ATTRIBUTE_ARGS);
      var secondParamOk := ArgumentOfExpectedType(sig.inputs[1], TOKEN_STREAM2);
      var outputOk := OutputOfExpectedType(sig.output);
      firstParamOk && secondParamOk && outputOk
  }

  /** Only the last segment is compared: any qualification of the three type
      names, and any parameter patterns, give an accepted signature. */
  lemma QualifiedTypesAccepted(
    ident: string, pat0: string, pat1: string,
    prefix0: seq<string>, prefix1: seq<string>, prefix2: seq<string>)
    ensures SignatureAsExpected(Signature(ident,
      [Typed(pat0, PathType(Path(prefix0 + [ATTRIBUTE_ARGS]))),
       Typed(pat1, PathType(Path(prefix1 + [TOKEN_STREAM2])))],
      ReturnTy(PathType(Path(prefix2 + [TOKEN_STREAM2])))))
  {
  }

  /** The three parts of what `implement` generates. */
  datatype ModuleDef = ModuleDef(vis: Visibility, name: string, usesParentGlob: bool, functions: seq<ItemFn>)

  datatype Generated = Generated(entry: ItemFn, implementation: ModuleDef)

  datatype ImplementError = NotAFunction | SignatureNotExpected

  /** The signature of the generated entry point:
      `fn ident(attributes: proc_macro::TokenStream, item: proc_macro::TokenStream) -> proc_macro::TokenStream`. */
  function EntrySignature(ident: string): (r: Signature)
    ensures r.ident == ident && |r.inputs| == 2
    ensures forall i :: 0 <= i < |r.inputs| ==> r.inputs[i].Typed? && r.inputs[i].ty == PROC_MACRO_TOKEN_STREAM
    ensures r.output == ReturnTy(PROC_MACRO_TOKEN_STREAM)
  {
    Signature(ident,
      [Typed("attributes", PROC_MACRO_TOKEN_STREAM), Typed("item", PROC_MACRO_TOKEN_STREAM)],
      ReturnTy(PROC_MACRO_TOKEN_STREAM))
  }

  const PROC_MACRO_ATTRIBUTE := Path(["proc_macro_attribute"])

  /** `implement`: rejects a function of the wrong shape; otherwise generates
      a `#[proc_macro_attribute] pub fn ident` that forwards to
      `implementation::ident`, and `pub mod implementation { use super::*;
      pub fn ident(params) output { block } }`. */
  function Implement(f: ItemFn): (r: Result<Generated, ImplementError>)
    ensures r.Err? <==> !HasExpectedShape(f.sig)
    ensures r.Err? ==> r.error == SignatureNotExpected
    ensures r.Ok? ==>
      && r.value.entry.sig.ident == f.sig.ident
      && r.value.entry.vis == Public
      && r.value.entry.attrs == [Attribute(PROC_MACRO_ATTRIBUTE, Some(MetaPath(PROC_MACRO_ATTRIBUTE)))]
      && r.value.implementation.name == IMPLEMENTATION
      && r.value.implementation.vis == Public
      && r.value.implementation.usesParentGlob
      && r.value.implementation.functions == [ItemFn([], Public, f.sig, f.block)]
  {
    if !SignatureAsExpected(f.sig) then Err(SignatureNotExpected)
    else
      var ident := f.sig.ident;
      var entry := ItemFn(
        [Attribute(PROC_MACRO_ATTRIBUTE, Some(MetaPath(PROC_MACRO_ATTRIBUTE)))],
        Public, EntrySignature(ident), Forward(Path([IMPLEMENTATION, ident])));
      var wrapped := ItemFn([], Public, Signature(ident, f.sig.inputs, f.sig.output), f.block);
      Ok(Generated(entry, ModuleDef(Public, IMPLEMENTATION, true, [wrapped])))
  }

  /** `proc_macro_attribute2`: `parsed` is the item parsed as a function, or
      None when it is not one. */
  function ProcMacroAttribute2(parsed: Option<ItemFn>): (r: Result<Generated, ImplementError>)
    ensures parsed.None? ==> r == Err(NotAFunction)
    ensures parsed.Some? ==> (r.Ok? <==> HasExpectedShape(parsed.value.sig))
  {
    match parsed
    case None => Err(NotAFunction)
    case Some(f) => Implement(f)
  }

  /** The first function named `name` among `fns`. */
  function FindFunction(fns: seq<ItemFn>, name: string): (r: Option<ItemFn>)
    ensures r.Some? ==> exists k :: 0 <= k < |fns| && fns[k] == r.value && r.value.sig.ident == name &&
                          forall j :: 0 <= j < k ==> fns[j].sig.ident != name
    ensures r.None? ==> forall f :: f in fns ==> f.sig.ident != name
  {
    if fns == [] then None
    else if fns[0].sig.ident == name then Some(fns[0])
    else FindFunction(fns[1..], name)
  }

  /** What a two-segment path `module::name` resolves to among the generated
      items. */
  function Resolve(g: Generated, callee: Path): Option<ItemFn> {
    if |callee.segments| == 2 && callee.segments[0] == g.implementation.name
    then FindFunction(g.implementation.functions, callee.segments[1])
    else None
  }

  /** The entry point's call `implementation::ident(...)` reaches the wrapped
      function, which keeps the original signature and body and so is itself
      of the expected shape. */
  lemma EntryForwardsToOriginal(f: ItemFn)
    requires Implement(f).Ok?
    ensures Implement(f).value.entry.block.Forward?
    ensures Implement(f).value.entry.sig == EntrySignature(f.sig.ident)
    ensures
      var g := Implement(f).value;
      var target := Resolve(g, g.entry.block.callee);
      && target.Some?
      && target.value.sig == f.sig
      && target.value.block == f.block
      && SignatureAsExpected(target.value.sig)
  {
  }
}
