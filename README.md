# size_of_const_macro, modelled in Dafny

The crate adds a `usize` constant that holds a type's size, e.g.
`const SIZE_OF_FOO_BAR: usize = ::core::mem::size_of::<FooBar>();`.
It offers two macros. The derive `#[derive(SizeOf)]` emits only the constant.
The attribute `#[size_of_const(...)]` re-emits the item and then the constant.
The attribute's arguments can change the constant's name (`name = "..."`) and its visibility (`private`, `visibility = "..."`).

This model covers the rule that picks the constant's name and visibility, in both versions of the crate:

- `snake_case.dfy` (module `SnakeCase`) holds the specification of `push_snake_case`.
  - `Snake(s)` is what the function appends.
  - `DefaultConstName(ident)` is `SIZE_OF` followed by `Snake(ident)`.
  - Lemmas state its algebra: concatenation, length, no lower-case output, and splitting at capitalised words.
- `size_of_const.dfy` (module `SizeOfConstMacro`) models `src/lib.rs`.
  - `SocmParser` is a class with the three optional fields the source mutates.
  - `FoldDeriveInput` fills the fields that are still empty.
  - `ParseAttribute` runs the argument loop over the parser's fields.
  - Each method is proved against pure functions: `Fold`, `ApplyArgument`, `ApplyArguments`, `AttributeExpansion` and `DeriveExpansion`.
  - Lemmas about those functions state "last assignment wins", the exact error conditions, and the unreachable branches.
- `size_of_const_old.dfy` (module `SizeOfConstMacroOld`) models `src/lib.old.rs`.
  - It has its own copy of `push_snake_case` and its three entry points.
  - A lemma relates its derive to the current one.
- `syn.dfy` (module `Syn`) holds the Rust syntax the macros read and write, as plain values.

Failures come in two kinds, and the model keeps them apart:

- `Bail(message)` is an `anyhow` error returned by `bail!` or `?`. `unwrap_token_stream` turns it into `compile_error!("size_of_const_macro: " + message)`.
- `Panic(message)` is a panic (`panic!`, `unwrap`, `expect`). It unwinds out of the macro as `Panicked(message)`.

Where the code differs from a plain reading of the crate's design, the model follows the code:

- `private` and `visibility = "..."` have no priority over each other. Whichever comes last wins.
- Several malformed inputs panic and unwind out of the macro. They do not become an inline `compile_error!`:
  - a generic type declaration (`panic!`);
  - a list-form argument such as `key(...)` (`panic!`);
  - a `visibility = "..."` whose text does not parse as a visibility (`expect`);
  - an argument whose path or key has more than one segment, such as `a::b` (`get_ident().unwrap()`);
  - a constant name that does not lex into tokens (`unwrap`).
- Only three failures are returned as errors and become a `compile_error!`:
  - arguments that do not parse;
  - an item that does not parse;
  - a `key = value` whose value is not a string literal, whatever the key.

Foreign services are parameters of type `Services`, and the model assumes nothing about them:

- `syn::parse_str::<Visibility>` is `parseVisibility`, a partial function from strings to visibilities.
- Lexing a string into a `TokenStream` with `str::parse`, then `unwrap`, is `lexes`.

## Model

| member | source | states |
|---|---|---|
| `SizeOfConstMacro.PushSnakeCase` | src/lib.rs:61-70 | the loop appends to the buffer exactly `Snake(camelCase)`: the old buffer is kept as a prefix, and an empty name appends nothing |
| `SnakeCase.SnakeAppend` | src/lib.rs:61-70 | converting `a + b` appends the conversion of `a`, then that of `b` |
| `SnakeCase.SnakeStep` | src/lib.rs:62-69 | one more input character adds exactly that character's contribution: `_` and the character for an upper-case letter, else the character upper-cased |
| `SnakeCase.SnakeLength` | src/lib.rs:62-69 | the text added is as long as the name plus its number of upper-case letters |
| `SnakeCase.SnakeHasNoLowercase` | src/lib.rs:62-69 | the text added holds no lower-case letter |
| `SnakeCase.ToUpper` | src/lib.rs:67 | the upper-case mapping leaves no lower-case letter, sends each lower-case letter to its own upper-case letter (32 code points lower), and keeps every other character |
| `SnakeCase.SnakeOfLowerRun` | src/lib.rs:66-68 | a run without capitals is only upper-cased, with no `_` inserted |
| `SnakeCase.SnakeOfWord` | src/lib.rs:63-65 | a capitalised word becomes `_` followed by the word in upper case |
| `SnakeCase.SnakeOfWords` | src/lib.rs:60-70 | a name made of capitalised words (`FooBar`) converts to `_FOO_BAR`: it splits exactly at the word boundaries |
| `SnakeCase.DefaultConstNameExamples` | src/lib.rs:35-37 | default names: `Foo` gives `SIZE_OF_FOO`, `FooBar` gives `SIZE_OF_FOO_BAR` and `BazBin` gives `SIZE_OF_BAZ_BIN`; also `foo` gives `SIZE_OFFOO`, `AB` gives `SIZE_OF_A_B`, and the empty name gives `SIZE_OF` |
| `SizeOfConstMacro.Fold` | src/lib.rs:24-42 | fails, with the generics panic, exactly on a generic declaration; otherwise returns the declaration unchanged, leaves all three fields set, never overwrites a field that was set, and fills empty ones with the default name, the identifier and the declared visibility |
| `SizeOfConstMacro.SocmParser.constructor` | src/lib.rs:8-13 | a default parser has all three fields empty |
| `SizeOfConstMacro.SocmParser.FoldDeriveInput` | src/lib.rs:24-42 | updates the fields and returns what `Fold` prescribes for the old fields; a panic leaves the fields as they were |
| `SizeOfConstMacro.ConstNameToken` | src/lib.rs:16-20 | passes the name through unchanged; panics exactly when a name is present and does not lex |
| `SizeOfConstMacro.MnvStrLiteral` | src/lib.rs:46-58 | yields the literal's text exactly when the value is a string literal |
| `SizeOfConstMacro.ApplyArgument` | src/lib.rs:106-141 | fails exactly on a refused argument: a list, a multi-segment path, a non-string value under any key, or an unparseable visibility; a bail happens exactly for a non-string value; on success it keeps the identifier, and sets the name or visibility that the argument assigns, leaving the rest as it was |
| `SizeOfConstMacro.ApplyArguments` | src/lib.rs:105-142 | the only error the loop returns with `bail!` (rather than panicking) is the string-literal one |
| `SizeOfConstMacro.ApplyArgumentsAppend` | src/lib.rs:105-142 | the arguments are applied left to right: running `a + b` is running `a`, then `b` on the result, stopping at the first failure |
| `SizeOfConstMacro.ArgumentsAccepted` | src/lib.rs:105-142 | the loop succeeds if and only if no argument is refused |
| `SizeOfConstMacro.ArgumentsOutcome` | src/lib.rs:105-137 | after the loop, the visibility is that of the last `private` or `visibility=` argument, and the name that of the last `name=`; with none, each keeps its earlier value; the identifier never changes |
| `SizeOfConstMacro.LastKeepsSet` | src/lib.rs:105-137 | a name or visibility that was set stays set whatever the arguments do |
| `SizeOfConstMacro.CollectedStateIsFilled` | src/lib.rs:144-149 | a parser with all fields set still has all of them set after a successful loop |
| `SizeOfConstMacro.GenericsAlwaysPanic` | src/lib.rs:25-27 | a generic declaration makes both entry points panic with the generics message, whatever the arguments |
| `SizeOfConstMacro.AttributeConstant` | src/lib.rs:90-162 | on a non-generic declaration, the attribute succeeds if and only if every argument is accepted and the final name lexes; it then emits the item, then the constant; the constant gets the last assigned name or else `SIZE_OF` plus the snake form, and the last assigned visibility or else the declaration's own |
| `SizeOfConstMacro.DeriveConstant` | src/lib.rs:164-187 | the derive emits only the constant, with the default name and the declaration's visibility, unless that name does not lex |
| `SizeOfConstMacro.DeriveIsAttributeWithoutArguments` | src/lib.rs:164-187 | the derive gives what the attribute gives with no arguments, minus the re-emitted item |
| `SizeOfConstMacro.FailedToParseUnreachable` | src/lib.rs:144-147 | neither entry point can end with the "failed to parse" error: after folding, the name and the identifier are always set |
| `SizeOfConstMacro.DocumentedExpansions` | src/lib.rs:189-241 | the documented examples: `Foo` gets `SIZE_OF_FOO` with its own visibility; `Bar` with `visibility = "pub", name = "SIZE_OF_OTHER_FOO"` gets a public `SIZE_OF_OTHER_FOO`; `pub enum BazBin` with `private` gets an inherited-visibility `SIZE_OF_BAZ_BIN`; the derive on `FooBar` gives `SIZE_OF_FOO_BAR`; an unparseable visibility panics |
| `SizeOfConstMacro.UnwrapTokenStream` | src/lib.rs:75-88 | passes `Ok` tokens through unchanged; a returned error becomes a `compile_error!` whose message is `size_of_const_macro: ` followed by the error; only panics escape |
| `SizeOfConstMacro.ParseAttribute` | src/lib.rs:90-162 | on a fresh parser, running the fold and then the argument loop yields `AttributeExpansion`; the loop invariant ties the fields to `ApplyArguments` over the remaining arguments |
| `SizeOfConstMacro.ParseDerive` | src/lib.rs:164-187 | on a fresh parser, the fold followed by quoting yields `DeriveExpansion` |
| `SizeOfConstMacro.SizeOfConst` | src/lib.rs:225-228 | the attribute macro gives `unwrap_token_stream` of `parse_attribute` |
| `SizeOfConstMacro.SizeOfConstDerive` | src/lib.rs:243-246 | the derive macro gives `unwrap_token_stream` of `parse_derive` |
| `SizeOfConstMacroOld.PushSnakeCase` | src/lib.old.rs:5-14 | appends exactly `Snake(camelCase)`, the same as the current version's `push_snake_case` |
| `SizeOfConstMacroOld.SizeOfConstDerive` | src/lib.old.rs:27-43 | the old derive's output is `Generated` without the item |
| `SizeOfConstMacroOld.SizeOf` | src/lib.old.rs:45-65 | `size_of` ignores its arguments; its output is `Generated` with the item and a trailing `;` |
| `SizeOfConstMacroOld.PrivateSizeOf` | src/lib.old.rs:67-87 | `private_size_of` has the same contract as `size_of`: identical output for identical input, with no visibility change |
| `SizeOfConstMacroOld.GeneratedShape` | src/lib.old.rs:32-40 | every constant the old version emits is named `SIZE_OF` plus the snake form of the type name, has no visibility, and follows the item exactly in the attribute forms; it panics exactly when that name does not lex |
| `SizeOfConstMacroOld.FooBarExample` | src/lib.old.rs:16-26 | `FooBar` gets the constant `SIZE_OF_FOO_BAR` |
| `SizeOfConstMacroOld.CurrentDeriveAgreesWithOld` | src/lib.old.rs:27-43 | on a non-generic declaration, the current derive emits what the old one emits, except that the constant takes the declaration's visibility; with inherited visibility they are identical; on a generic one, only the current derive panics |

## Left out

- Token streams and `quote!` are not modelled as text. The output is the abstract `Tokens` value: the optional item, then the constant.
- `syn`'s parsing of Rust items and argument lists is not modelled. Inputs arrive already parsed (`Parsed`) or as a `SyntaxError`.
- `syn::parse_str::<Visibility>` and `TokenStream` lexing are uninterpreted parameters (`Services`). Their results are taken as given.
- Unicode case mapping is not modelled. `char::is_uppercase` and `to_uppercase` are modelled on ASCII only. A non-ASCII character counts as not upper case and is kept as it is. Characters whose upper-case form has several characters (`ß`) are not covered.
- The `{error:#?}` debug rendering of errors is not modelled.
  - The `compile_error!` message is the fixed prefix followed by the bail message.
  - syn's parse error is appended to `failed to parse input ` as it is.
  - Panic messages from `expect` and `unwrap` keep only their fixed text.
- Paths are modelled as their identifier segments only. A leading `::` and generic arguments on a path segment are not represented.
- The value of `::core::mem::size_of` is not modelled. The compiler computes it.
- The old attribute forms re-emit the raw item tokens. The model represents that item by its parsed declaration.

