# macro-test: a Dafny model of its decision logic

macro-test is a small Rust helper for testing attribute macros. It has two
parts, and this project models the logic underneath each of them:

- `proc_macro_attribute2` (attributes/src/lib.rs) checks that a function has
  the shape `(AttributeArgs, TokenStream2) -> TokenStream2`. It compares only
  the last path segment of each type. If the shape is wrong it panics.
  Otherwise it generates a `#[proc_macro_attribute] pub fn ident` entry point
  that forwards to `implementation::ident`, together with a module
  `pub mod implementation { use super::*; pub fn ident(params) output { block } }`.
- `assert_attribute_implementation_as_expected!` (src/lib.rs) takes an item,
  finds the first attribute whose path ends in the tested name, and removes
  that attribute from the item's attribute list in place. It turns the
  attribute's meta into the transformer's arguments (the nested elements of a
  `Meta::List`, otherwise none) and runs the transformer on the stripped
  item. Finally it asserts that the output text and the expected text are
  equal once every whitespace character is dropped from both.

Files:

- `syntax.dfy` (module `Syntax`): the syntax-tree shapes the helpers inspect.
  A `Path` is a list of segment names. There are also `Type`, `FnArg`,
  `ReturnType`, `Signature`, `ItemFn`, `Meta`, `Attribute`, and `Item`
  (a kind, its attributes, and the rest as opaque text). It also defines
  `EndsIn`, "the path's last segment is this name".
- `attributes.dfy` (module `Attributes`): the signature checks, `implement`
  and the entry point, as pure functions, as the Rust code has them.
- `whitespace.dfy` (module `Whitespace`): `remove_whitespace` and the final
  whitespace-insensitive comparison.
- `macro_test.dfy` (module `MacroTest`): attribute matching, the search, and
  the in-place removal. The removal lives in class `ParsedItem`, whose `attrs`
  field the method `RemoveAttribute` edits. `Extract` is the pure value that
  specifies that method. The file also holds the meta-to-arguments
  conversion and the whole macro. The macro exists twice: as a method that
  works on a mutable `ParsedItem`, and as the function `MacroOutcome` that
  specifies it.

Things the model takes as parameters, because they are foreign code:
`quote! { #item }`, `TokenStream::to_string` and `char::is_whitespace`.
They are bundled in `Host<T>`, where `T` stands for the token-stream type. The
transformer under test is a function `(seq<NestedMeta>, T) -> Option<T>`, where
`None` stands for the transformer panicking; the macro then panics too.

Three points about how the code behaves, where it may differ from what one
would assume:

- `implement` keeps the original ident, parameters, return type and block. It
  does not keep the function's other attributes or its visibility: the
  wrapped function is always `pub` and has no attributes. `Implement` states
  exactly this.
- Attribute matching also compares only the last segment. So `#[x::bar]`
  counts as the `bar` attribute.
- While searching, every attribute before the match is turned into a name.
  An attribute with an empty path therefore panics ("The given path was not an
  identifier.") even when a matching attribute comes after it. Attributes
  after the match are never examined. This panic path exists in the code as
  written, but parsed input never takes it: the attribute parser rejects an
  attribute with an empty path (`#[]`) before the macro runs.

## Model

| member | source | states |
|---|---|---|
| `Syntax.EndsInIffLastSegment` | attributes/src/lib.rs:56-60 | A path ends in a name exactly when it has a last segment and that segment is the name (the `last().map(..).unwrap_or(false)` pattern). |
| `Attributes.LastSegmentIs` | attributes/src/lib.rs:56-60 | True exactly when the path ends in the name, whatever its prefix; false for a path with no segments. |
| `Attributes.ArgumentOfExpectedType` | attributes/src/lib.rs:53-65 | True exactly when the argument is typed with a path type ending in the expected name; false for a receiver, for a non-path type and for an empty path. |
| `Attributes.OutputOfExpectedType` | attributes/src/lib.rs:67-79 | True exactly when the return type is `-> T` with T a path ending in `TokenStream2`; false for a missing return type and for a non-path type. |
| `Attributes.SignatureAsExpected` | attributes/src/lib.rs:42-51 | False whenever there are not exactly two inputs; true exactly when input 0 ends in `AttributeArgs`, input 1 in `TokenStream2` and the output in `TokenStream2`. |
| `Attributes.QualifiedTypesAccepted` | attributes/src/lib.rs:47-50 | Any qualification of the three type names (`syn::AttributeArgs` as well as `AttributeArgs`) with any parameter patterns is accepted. |
| `Attributes.Implement` | attributes/src/lib.rs:13-40 | Fails exactly when the signature is not as expected. Otherwise: a public entry fn with the original ident and `#[proc_macro_attribute]`, and a public module `implementation` that glob-imports its parent and holds one public fn with the original signature and block and no attributes. |
| `Attributes.EntrySignature` | attributes/src/lib.rs:25 | The entry point keeps the wrapped ident and takes two `proc_macro::TokenStream` parameters and returns a `proc_macro::TokenStream`. |
| `Attributes.EntryForwardsToOriginal` | attributes/src/lib.rs:23-39 | The entry fn has the proc-macro signature `(TokenStream, TokenStream) -> TokenStream`. Its call `implementation::ident` resolves to the wrapped fn, which has the original signature and block and itself passes the signature check. |
| `Attributes.ProcMacroAttribute2` | attributes/src/lib.rs:7-11 | An item that is not a function is rejected. A function is accepted exactly when its signature has the expected shape. |
| `Whitespace.RemoveWhitespace` | src/lib.rs:104-106 | The output contains no whitespace character and is no longer than the input. |
| `Whitespace.RemoveWhitespaceAppend` | src/lib.rs:104-106 | Stripping a concatenation gives the concatenation of the stripped parts. |
| `Whitespace.RemoveWhitespaceOfClean` | src/lib.rs:104-106 | A string without whitespace is returned unchanged. |
| `Whitespace.RemoveWhitespaceOfBlank` | src/lib.rs:104-106 | A string made only of whitespace becomes empty. |
| `Whitespace.RemoveWhitespaceIdempotent` | src/lib.rs:104-106 | Stripping twice gives the same result as stripping once. |
| `Whitespace.RemoveWhitespaceIsSubsequence` | src/lib.rs:104-106 | The output is a subsequence of the input: its characters keep their original order. |
| `Whitespace.RemoveWhitespaceCounts` | src/lib.rs:104-106 | Each non-whitespace character occurs as often in the output as in the input; whitespace characters do not occur. |
| `Whitespace.RemoveWhitespaceIgnoresInsertion` | src/lib.rs:104-106 | Inserting a run of whitespace anywhere leaves the stripped string unchanged. |
| `Whitespace.EqualIgnoringWhitespace` | src/lib.rs:107 | Identical texts compare equal. |
| `Whitespace.EqualIgnoringWhitespaceIsEquivalence` | src/lib.rs:107 | The final comparison is reflexive, symmetric and transitive. |
| `Whitespace.EqualIgnoringWhitespaceUnderInsertion` | src/lib.rs:107 | Inserting or deleting whitespace on either side does not change the comparison's result. |
| `Whitespace.EqualIgnoringWhitespaceIsNormalisedEquality` | src/lib.rs:104-107 | A string compares equal to its own stripped form. Two whitespace-free strings compare equal only when they are identical. |
| `MacroTest.PathToName` | src/lib.rs:59-62 | Fails exactly for an empty path. Otherwise it gives a name the path ends in. |
| `MacroTest.AttributeHasIdent` | src/lib.rs:58-64 | Panics (as an error) exactly for an empty path. Otherwise it answers whether the attribute's path ends in the ident. |
| `MacroTest.FindAttribute` | src/lib.rs:85-88 | On success: the lowest index whose path ends in the ident, with every earlier attribute non-empty and not matching. "Not found": every attribute is non-empty and none matches. Otherwise: some attribute has an empty path and every attribute before it is non-empty and not matching. |
| `MacroTest.FirstMatchUnique` | src/lib.rs:85-88 | When the first match is at index i (and everything before it is examinable), the search returns exactly i. |
| `MacroTest.RemoveAt` | src/lib.rs:89 | The list is one shorter. Elements before the index are kept, and later ones move down by one, in order. |
| `MacroTest.Extract` | src/lib.rs:65-89 | A kind outside the listed ones fails. On success the item's kind and the rest of the item are unchanged. |
| `MacroTest.ExtractRemovesFirstMatch` | src/lib.rs:65-89 | Extraction succeeds exactly when the kind is a listed one and some attribute is the first match. It then returns that attribute and the item without it, all other attributes in their order. |
| `MacroTest.ExtractFailures` | src/lib.rs:58-88 | Failure cases: an unlisted kind; no attribute matching; an empty path at any index k, when every attribute before k is non-empty and does not match. |
| `MacroTest.EmptyPathBeforeMatch` | src/lib.rs:85-88 | `#[]` followed by `#[bar]` panics with "not an identifier" although a match follows (a path of the code as written that parsed input never reaches). |
| `MacroTest.HasAttributes` | src/lib.rs:65-82 | True exactly for the sixteen kinds the `match` lists; every other kind reaches the `_ => panic!` arm. |
| `MacroTest.MacroOutcome` | src/lib.rs:47-108 | The whole macro as a value. An unlisted kind panics. It panics exactly when extraction fails, the removed attribute's meta does not parse, or the transformer panics. A failed assertion reports two different, whitespace-free strings, the right one being the stripped expected text. |
| `MacroTest.ParsedItem.constructor` | src/lib.rs:53 | The mutable item starts as the parsed item. |
| `MacroTest.ParsedItem.RemoveAttribute` | src/lib.rs:65-90 | Removes in place exactly what `Extract` removes and returns it. Nothing changes on a panic path. |
| `MacroTest.ArgsOfMeta` | src/lib.rs:93-98 | A list meta gives its nested elements in order; a path or name-value meta gives no arguments. |
| `MacroTest.Compare` | src/lib.rs:100-107 | Panics exactly when the transformer panics. Passes exactly when the transformer returns and its output on the stripped item equals the expected tokens up to whitespace. |
| `MacroTest.AssertAttributeImplementationAsExpected` | src/lib.rs:47-108 | The step-by-step macro on a mutable item has exactly the outcome `MacroOutcome` gives. |
| `MacroTest.MacroOutcomeCases` | src/lib.rs:56-107 | Panics exactly when the kind is unlisted, when there is no first match, when the match's meta does not parse, or when the transformer panics on the match's arguments and the stripped item. Otherwise it passes exactly when the transformer returns and, given the match's arguments and the item without that attribute, produces the expected text up to whitespace. |
| `MacroTest.MacroOutcomeIgnoresWhitespace` | src/lib.rs:104-107 | Expected token texts that differ only in whitespace give the same verdict. |
| `MacroTest.IdentityTransformerPasses` | src/lib.rs:101-107 | For an identity transformer, the macro passes exactly when the expected text is the stripped item's text, up to whitespace. |
| `MacroTest.SelfTest` | src/lib.rs:112-140 | The crate's own test passes for every host: `#[bar] struct S { foo: usize, }` through the identity `bar`, compared with `struct S { foo: usize, }`. |

## Left out

- Parsing token streams into syntax trees (`syn::parse2`, `parse::<ItemFn>`, `parse_macro_input!`). This is foreign library code, so the model starts from parsed values. `ProcMacroAttribute2` takes the result of parsing as an `Option`.
- `quote!` token generation and `TokenStream::to_string`. Their formats belong to libraries that are not part of this model. They are the functions `Host.quote` and `Host.toString`, and the generated code of `implement` is a datatype value rather than tokens.
- `attribute.parse_meta()`. Its result is the `meta` field of `Attribute`, where `None` means the parse fails.
- `char::is_whitespace` (the Unicode White_Space property) is the parameter `isWhitespace`. Every whitespace lemma holds for any such predicate.
- Parts of a function signature other than the ident, inputs and output (generics, `async`, `unsafe`, ABI, variadics) are not modelled. `implement` emits only those three parts, so the model captures what it keeps but not what it drops.
- The import `use $base_path::implementation::$attr`, the registration `#[proc_macro_attribute]`, and the expansion of the macro's own arguments (`$base_path`, `$attr:ident`) are handled by the Rust compiler. The tested name is a plain string here.
- Panic messages, including the mismatched name `'testable_proc_macro_attribute'` in the signature panic. Panics are error values (`ImplementError`, `MacroError`).
- SelfTest: the crate's test builds the expected tokens directly from source text (`quote! { $($expected)* }`). The lemma takes them to be `host.quote` of the stripped struct. It therefore assumes that quoting the parsed struct without its attribute gives the same tokens as writing that struct out.
- `Attributes.Resolve` and `Attributes.FindFunction` only look up the callee path among the generated functions, so that the forwarding property can be stated. They do not model Rust's name resolution.
- `Vec::remove` shifts elements in memory. The model replaces a sequence field with the sequence minus one element, which has the same visible result.
