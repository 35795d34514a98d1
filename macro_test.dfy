/** The body of `assert_attribute_implementation_as_expected!` (src/lib.rs):
    take the tested attribute off the item, turn its meta into the
    transformer's arguments, run the transformer on the stripped item, and
    compare the result with the expected tokens, ignoring whitespace. */
module MacroTest {
  import opened Syntax
  import opened Whitespace

  /** The ways the macro panics before it reaches its assertion. */
  datatype MacroError =
    | AttributesNotReachable  // "Could not extract attributes"
    | PathNotIdentifier       // "The given path was not an identifier."
    | AttributeNotFound       // "Could not find expected attribute"
    | MetaNotParsable         // `parse_meta().unwrap()` fails
    | TransformerPanicked     // the attribute implementation under test panics

  /** `path_to_name`: the last segment's name; None where `expect` panics. */
  function PathToName(p: Path): (r: Option<string>)
    ensures r.None? <==> p.segments == []
    ensures r.Some? ==> EndsIn(p, r.value)
  {
    if p.segments == [] then None
    else
      EndsInIffLastSegment(p, p.segments[|p.segments| - 1]);
      Some(p.segments[|p.segments| - 1])
  }

  /** `attribute_has_ident`: whether the attribute names `ident`, or an error
      when its path is empty. */
  function AttributeHasIdent(a: Attribute, ident: string): (r: Result<bool, MacroError>)
    ensures r.Err? <==> a.path.segments == []
    ensures r.Err? ==> r.error == PathNotIdentifier
    ensures r.Ok? ==> (r.value <==> EndsIn(a.path, ident))
  {
    match PathToName(a.path)
    case None => Err(PathNotIdentifier)
    case Some(name) =>
      EndsInIffLastSegment(a.path, ident);
      Ok(name == ident)
  }

  /** The kinds listed in the macro's `match`; every other kind panics. */
  predicate HasAttributes(kind: ItemKind): (r: bool)
    ensures r <==> kind in {Const, Enum, ExternCrate, Fn, ForeignMod, Impl, Macro, Macro2,
                            Mod, Static, Struct, Trait, TraitAlias, TypeAlias, Union, Use}
  {
    kind != Verbatim
  }

  /** Attribute `attrs[i]` is the first one naming `ident`, and every attribute
      before it has a non-empty path (so the search gets that far). */
  ghost predicate FirstMatchAt(attrs: seq<Attribute>, ident: string, i: int) {
    && 0 <= i < |attrs|
    && EndsIn(attrs[i].path, ident)
    && forall j :: 0 <= j < i ==> attrs[j].path.segments != [] && !EndsIn(attrs[j].path, ident)
  }

  /** `attributes.iter().enumerate().find(|(_, a)| attribute_has_ident(a, &ident))`,
      from position `from` on, with its two panics as errors. */
  function FindAttribute(attrs: seq<Attribute>, ident: string, from: nat): (r: Result<nat, MacroError>)
    requires from <= |attrs|
    ensures r.Ok? ==>
      && from <= r.value < |attrs|
      && EndsIn(attrs[r.value].path, ident)
      && forall j :: from <= j < r.value ==> attrs[j].path.segments != [] && !EndsIn(attrs[j].path, ident)
    ensures r == Err(AttributeNotFound) ==>
      forall j :: from <= j < |attrs| ==> attrs[j].path.segments != [] && !EndsIn(attrs[j].path, ident)
    ensures r.Err? && r.error != AttributeNotFound ==>
      && r.error == PathNotIdentifier
      && exists k :: from <= k < |attrs| && attrs[k].path.segments == [] &&
           forall j :: from <= j < k ==> attrs[j].path.segments != [] && !EndsIn(attrs[j].path, ident)
    decreases |attrs| - from
  {
    if from == |attrs| then Err(AttributeNotFound)
    else match AttributeHasIdent(attrs[from], ident)
      case Err(e) => Err(e)
      case Ok(true) => Ok(from)
      case Ok(false) => FindAttribute(attrs, ident, from + 1)
  }

  /** `attrs` without its element at `i`, as `Vec::remove` leaves it. */
  function RemoveAt<T>(attrs: seq<T>, i: nat): (r: seq<T>)
    requires i < |attrs|
    ensures |r| == |attrs| - 1
    ensures forall j :: 0 <= j < i ==> r[j] == attrs[j]
    ensures forall j :: i <= j < |r| ==> r[j] == attrs[j + 1]
  {
    attrs[..i] + attrs[i + 1..]
  }

  /** The extraction step as a value: the removed attribute and the item
      left without it. */
  function Extract(item: Item, ident: string): (r: Result<(Attribute, Item), MacroError>)
    ensures !HasAttributes(item.kind) ==> r == Err(AttributesNotReachable)
    ensures r.Ok? ==> r.value.1.kind == item.kind && r.value.1.rest == item.rest
  {
    if !HasAttributes(item.kind) then Err(AttributesNotReachable)
    else match FindAttribute(item.attrs, ident, 0)
      case Err(e) => Err(e)
      case Ok(i) => Ok((item.attrs[i], item.(attrs := RemoveAt(item.attrs, i))))
  }

  /** Extraction succeeds exactly when the item's kind has attributes and
      some attribute is the first naming `ident`; it then removes that one and
      keeps the others in their order. */
  lemma ExtractRemovesFirstMatch(item: Item, ident: string)
    ensures Extract(item, ident).Ok? <==>
      HasAttributes(item.kind) && exists i :: FirstMatchAt(item.attrs, ident, i)
    ensures forall i :: FirstMatchAt(item.attrs, ident, i) && HasAttributes(item.kind) ==>
      Extract(item, ident) == Ok((item.attrs[i], item.(attrs := RemoveAt(item.attrs, i))))
  {
    var r := FindAttribute(item.attrs, ident, 0);
    forall i | FirstMatchAt(item.attrs, ident, i)
      ensures r == Ok(i)
    {
      FirstMatchUnique(item.attrs, ident, i);
    }
    if r.Ok? {
      assert FirstMatchAt(item.attrs, ident, r.value);
    }
  }

  lemma FirstMatchUnique(attrs: seq<Attribute>, ident: string, i: int)
    requires FirstMatchAt(attrs, ident, i)
    ensures FindAttribute(attrs, ident, 0) == Ok(i)
  {
  }

  /** Extraction fails in each of the three ways the macro panics. */
  lemma ExtractFailures(item: Item, ident: string)
    ensures !HasAttributes(item.kind) ==> Extract(item, ident) == Err(AttributesNotReachable)
    ensures HasAttributes(item.kind) && (forall a :: a in item.attrs ==> a.path.segments != [] && !EndsIn(a.path, ident))
            ==> Extract(item, ident) == Err(AttributeNotFound)
    ensures forall k ::
              (0 <= k < |item.attrs| && HasAttributes(item.kind) && item.attrs[k].path.segments == [] &&
               (forall j :: 0 <= j < k ==> item.attrs[j].path.segments != [] && !EndsIn(item.attrs[j].path, ident)))
              ==> Extract(item, ident) == Err(PathNotIdentifier)
  {
  }

  /** An empty path before the match panics even though a match follows:
      `#[] #[bar]` with ident `bar`. */
  lemma EmptyPathBeforeMatch()
    ensures Extract(Item(Struct, [Attribute(Path([]), None), Attribute(Path(["bar"]), None)], ""), "bar")
         == Err(PathNotIdentifier)
  {
  }

  /** The item being tested, whose attribute list the macro edits in place
      (`let mut item`, `&mut i.attrs`, `attributes.remove(attribute_index)`). */
  class ParsedItem {
    const kind: ItemKind
    var attrs: seq<Attribute>
    const rest: string

    constructor (item: Item)
      ensures Value() == item
    {
      kind, attrs, rest := item.kind, item.attrs, item.rest;
    }

    function Value(): Item
      reads this
    {
      Item(kind, attrs, rest)
    }

    /** Finds the first attribute naming `ident`, removes it from `attrs` and
        returns it; on a panic path `attrs` is left as it was. */
    method RemoveAttribute(ident: string) returns (r: Result<Attribute, MacroError>)
      modifies this`attrs
      ensures var e := Extract(old(Value()), ident);
        && (e.Ok? ==> r == Ok(e.value.0) && Value() == e.value.1)
        && (e.Err? ==> r == Err(e.error) && attrs == old(attrs))
    {
      if !HasAttributes(kind) {
        return Err(AttributesNotReachable);
      }
      var i := 0;
      while i < |attrs|
        invariant 0 <= i <= |attrs|
        invariant FindAttribute(attrs, ident, i) == FindAttribute(attrs, ident, 0)
      {
        var has := AttributeHasIdent(attrs[i], ident);
        match has {
          case Err(e) =>
            return Err(e);
          case Ok(true) =>
            r := Ok(attrs[i]);
            attrs := attrs[..i] + attrs[i + 1..];
            return;
          case Ok(false) =>
        }
        i := i + 1;
      }
      return Err(AttributeNotFound);
    }
  }

  /** Turning the removed attribute into `AttributeArgs`: a `Meta::List`
      gives its nested elements in order, any other meta none. */
  function ArgsOfMeta(meta: Meta): (r: seq<NestedMeta>)
    ensures meta.MetaList? ==> r == meta.nested
    ensures !meta.MetaList? ==> r == []
  {
    match meta
    case MetaList(_, nested) => nested
    case _ => []
  }

  /** What is foreign to the macro: `quote! { #item }` (from an item to a
      token stream T), `TokenStream::to_string`, and `char::is_whitespace`. */
  datatype Host<!T> = Host(quote: Item -> T, toString: T -> string, isWhitespace: char -> bool)

  /** How the macro ends: its assertion holds, its assertion fails with the
      two stripped strings, or it panics before the assertion. */
  datatype Outcome = Passed | AssertionFailed(left: string, right: string) | Panicked(reason: MacroError)

  /** Running the transformer on the stripped item and comparing its output
      with the expected tokens. The transformer is the user's attribute
      implementation; None stands for its panicking. */
  function Compare<T>(args: seq<NestedMeta>, stripped: Item, expected: T,
                      transformer: (seq<NestedMeta>, T) -> Option<T>, host: Host<T>): (o: Outcome)
    ensures o.Panicked? <==> transformer(args, host.quote(stripped)).None?
    ensures o.Panicked? ==> o.reason == TransformerPanicked
    ensures o.Passed? <==>
      && transformer(args, host.quote(stripped)).Some?
      && EqualIgnoringWhitespace(host.toString(transformer(args, host.quote(stripped)).value),
                                 host.toString(expected), host.isWhitespace)
  {
    match transformer(args, host.quote(stripped))
    case None => Panicked(TransformerPanicked)
    case Some(implementationTs) =>
      var left := RemoveWhitespace(host.toString(implementationTs), host.isWhitespace);
      var right := RemoveWhitespace(host.toString(expected), host.isWhitespace);
      if left == right then Passed else AssertionFailed(left, right)
  }

  /** The whole macro as a value. */
  function MacroOutcome<T>(ident: string, item: Item, expected: T,
                           transformer: (seq<NestedMeta>, T) -> Option<T>, host: Host<T>): (o: Outcome)
    ensures !HasAttributes(item.kind) ==> o == Panicked(AttributesNotReachable)
    ensures o.Panicked? <==>
      || Extract(item, ident).Err?
      || Extract(item, ident).value.0.meta.None?
      || transformer(ArgsOfMeta(Extract(item, ident).value.0.meta.value),
                     host.quote(Extract(item, ident).value.1)).None?
    ensures o.AssertionFailed? ==>
      && o.left != o.right
      && NoWhitespace(o.left, host.isWhitespace) && NoWhitespace(o.right, host.isWhitespace)
      && o.right == RemoveWhitespace(host.toString(expected), host.isWhitespace)
  {
    match Extract(item, ident)
    case Err(e) => Panicked(e)
    case Ok((attribute, stripped)) =>
      match attribute.meta
      case None => Panicked(MetaNotParsable)
      case Some(meta) => Compare(ArgsOfMeta(meta), stripped, expected, transformer, host)
  }

  /** `assert_attribute_implementation_as_expected!`, step by step on a
      mutable item. */
  method AssertAttributeImplementationAsExpected<T>(
    ident: string, item: Item, expected: T,
    transformer: (seq<NestedMeta>, T) -> Option<T>, host: Host<T>) returns (o: Outcome)
    ensures o == MacroOutcome(ident, item, expected, transformer, host)
  {
    var parsed := new ParsedItem(item);
    var attribute := parsed.RemoveAttribute(ident);
    if attribute.Err? {
      return Panicked(attribute.error);
    }
    if attribute.value.meta.None? {
      return Panicked(MetaNotParsable);
    }
    var attrArgs := ArgsOfMeta(attribute.value.meta.value);
    o := Compare(attrArgs, parsed.Value(), expected, transformer, host);
  }

  /** The macro panics exactly when extraction fails, the removed
      attribute's meta does not parse, or the transformer panics; otherwise it
      passes exactly when the transformer's output on the stripped item equals
      the expected tokens up to whitespace, the transformer receiving the
      attribute's arguments. */
  lemma MacroOutcomeCases<T>(ident: string, item: Item, expected: T,
                             transformer: (seq<NestedMeta>, T) -> Option<T>, host: Host<T>)
    ensures var o := MacroOutcome(ident, item, expected, transformer, host);
      && (o.Panicked? <==>
            || !HasAttributes(item.kind)
            || (forall i :: !FirstMatchAt(item.attrs, ident, i))
            || (forall i :: FirstMatchAt(item.attrs, ident, i) ==>
                  || item.attrs[i].meta.None?
                  || transformer(ArgsOfMeta(item.attrs[i].meta.value),
                                 host.quote(item.(attrs := RemoveAt(item.attrs, i)))).None?))
      && (forall i ::
            (FirstMatchAt(item.attrs, ident, i) && HasAttributes(item.kind) && item.attrs[i].meta.Some?) ==>
            var output := transformer(ArgsOfMeta(item.attrs[i].meta.value),
                                      host.quote(item.(attrs := RemoveAt(item.attrs, i))));
            (o.Passed? <==>
               (output.Some? &&
                EqualIgnoringWhitespace(host.toString(output.value), host.toString(expected), host.isWhitespace))))
  {
    ExtractRemovesFirstMatch(item, ident);
    var e := Extract(item, ident);
    if e.Ok? {
      var i :| FirstMatchAt(item.attrs, ident, i);
      forall j | FirstMatchAt(item.attrs, ident, j) ensures j == i {
        FirstMatchUnique(item.attrs, ident, i);
        FirstMatchUnique(item.attrs, ident, j);
      }
    }
  }

  /** Changing the expected tokens' text only in whitespace does not change
      the outcome's verdict. */
  lemma MacroOutcomeIgnoresWhitespace<T>(ident: string, item: Item, expected1: T, expected2: T,
                                         transformer: (seq<NestedMeta>, T) -> Option<T>, host: Host<T>)
    requires EqualIgnoringWhitespace(host.toString(expected1), host.toString(expected2), host.isWhitespace)
    ensures MacroOutcome(ident, item, expected1, transformer, host).Passed?
        == MacroOutcome(ident, item, expected2, transformer, host).Passed?
  {
  }

  /** A transformer that returns its item unchanged (`bar` in the crate's own
      test) passes exactly when the expected tokens are the item without the
      tested attribute, up to whitespace. */
  lemma IdentityTransformerPasses<T>(ident: string, item: Item, i: nat, expected: T, host: Host<T>)
    requires HasAttributes(item.kind) && FirstMatchAt(item.attrs, ident, i) && item.attrs[i].meta.Some?
    ensures MacroOutcome(ident, item, expected, (args, ts) => Some(ts), host).Passed?
        <==> EqualIgnoringWhitespace(host.toString(host.quote(item.(attrs := RemoveAt(item.attrs, i)))),
                                     host.toString(expected), host.isWhitespace)
  {
  }

  /** The crate's self-test `foo`: `#[bar] struct S { foo: usize, }` through
      the identity transformer `bar` matches `struct S { foo: usize, }`,
      whatever the token-stream machinery. */
  lemma SelfTest<T>(host: Host<T>)
    ensures
      var body := "struct S { foo: usize, }";
      var bar := Path(["bar"]);
      var item := Item(Struct, [Attribute(bar, Some(MetaPath(bar)))], body);
      MacroOutcome("bar", item, host.quote(Item(Struct, [], body)), (args, ts) => Some(ts), host) == Passed
  {
  }
}
