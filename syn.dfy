/** The slice of Rust syntax the macro reads and writes, as plain values: the
    parts of `syn::DeriveInput`, `syn::Meta` and `syn::Visibility` it inspects,
    the token streams it returns, and the two ways a macro run can fail
    (an `anyhow` error returned with `bail!`, or a panic). */
module Syn {

  datatype Option<+T> = None | Some(value: T)

  /** `syn::Visibility`: nothing written (`Inherited`), `pub`, or a restricted
      `pub(crate)` / `pub(in path)`, kept as the text of its path. */
  datatype Visibility = Inherited | Public | Restricted(path: string)

  /** The value on the right of `key = value`: a string literal, or any other expression. */
  datatype Lit = Str(text: string) | Other

  /** `syn::Meta`, one attribute argument: a bare path (`private`), a
      `key = value` pair, or a parenthesised list. Paths are their segments. */
  datatype Meta =
    | Path(path: seq<string>)
    | NameValue(path: seq<string>, value: Lit)
    | List

  /** What the macro reads from `syn::DeriveInput`: the type's name, its
      visibility, and whether it declares generic parameters. */
  datatype Decl = Decl(ident: string, vis: Visibility, hasGenerics: bool)

  /** Token input parsed by `syn`: the parsed value, or syn's error message. */
  datatype Parsed<+T> = Parsed(value: T) | SyntaxError(message: string)

  /** The two foreign services whose behaviour is not modelled: parsing a
      string as a visibility (`syn::parse_str::<Visibility>`), and whether a
      string lexes into a token stream (`str::parse::<TokenStream>`). */
  datatype Services = Services(parseVisibility: string -> Option<Visibility>, lexes: string -> bool)

  /** `vis const NAME: usize = ::core::mem::size_of::<SizeOf>();`.
      `Inherited` prints as no tokens at all. */
  datatype ConstDecl = ConstDecl(visibility: Visibility, name: string, sizeOf: string)

  /** The token stream a macro returns: optionally the item (followed by a
      stray `;` when `semicolon` holds), then the constant; or a
      `compile_error!` carrying a message. */
  datatype Tokens =
    | Expansion(item: Option<Decl>, semicolon: bool, constant: ConstDecl)
    | CompileError(message: string)

  /** How one macro invocation ends: it hands tokens back to the compiler, or it panics. */
  datatype MacroOutput = Emitted(tokens: Tokens) | Panicked(message: string)

  /** `bail!`/`anyhow!` errors are returned; panics unwind. */
  datatype Failure = Bail(message: string) | Panic(message: string)

  datatype Result<+T> = Ok(value: T) | Err(failure: Failure)

  const OptionUnwrapMessage := "called `Option::unwrap()` on a `None` value"
  const ResultUnwrapMessage := "called `Result::unwrap()` on an `Err` value"

  /** `syn::Path::get_ident`: the identifier of a path made of exactly one segment. */
  function GetIdent(path: seq<string>): Option<string> {
    if |path| == 1 then Some(path[0]) else None
  }
}
