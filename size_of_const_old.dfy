/** The earlier version of the crate, no longer reachable from the crate
    root: a derive and two attribute macros that always name the constant
    `SIZE_OF` plus the snake form of the type name, never give it a
    visibility, and ignore the attribute arguments altogether. It serves as
    a reference for the current derive. */
module SizeOfConstMacroOld {
  import opened Syn
  import opened SnakeCase
  import SizeOfConstMacro

  /** Appends the snake form of `camelCase` to `buffer`, as in the current version. */
  method PushSnakeCase(buffer: string, camelCase: string) returns (result: string)
    ensures result == buffer + Snake(camelCase)
  {
    result := buffer;
    for i := 0 to |camelCase|
      invariant result == buffer + Snake(camelCase[..i])
    {
      var c := camelCase[i];
      if IsUpper(c) {
        result := result + ['_'];
        result := result + [c];
      } else {
        result := result + [ToUpper(c)];
      }
      SnakeStep(camelCase, i);
    }
    assert camelCase[..|camelCase|] == camelCase;
  }

  /** What every entry point of this version produces. A parse failure of
      the item becomes syn's own `compile_error!`; a name that does not lex
      panics in `unwrap`; otherwise the constant is emitted without a
      visibility, after the item and a `;` when `reemitItem` holds. */
  function Generated(itemTokens: Parsed<Decl>, syn: Services, reemitItem: bool): MacroOutput {
    match itemTokens
    case SyntaxError(message) => Emitted(CompileError(message))
    case Parsed(d) =>
      var name := DefaultConstName(d.ident);
      if !syn.lexes(name) then Panicked(ResultUnwrapMessage)
      else Emitted(Expansion(if reemitItem then Some(d) else None, reemitItem, ConstDecl(Inherited, name, d.ident)))
  }

  /** The derive `SizeOf` of this version: the constant alone. */
  method SizeOfConstDerive(tokens: Parsed<Decl>, syn: Services) returns (out: MacroOutput)
    ensures out == Generated(tokens, syn, false)
  {
    if tokens.SyntaxError? {
      return Emitted(CompileError(tokens.message));
    }
    var input := tokens.value;
    var constName := PushSnakeCase(SizeOfPrefix, input.ident);
    if !syn.lexes(constName) {
      return Panicked(ResultUnwrapMessage);
    }
    out := Emitted(Expansion(None, false, ConstDecl(Inherited, constName, input.ident)));
  }

  /** The attribute `size_of`: the item, a `;`, then the constant; `attr` is never read. */
  method SizeOf(attr: Parsed<seq<Meta>>, itemTokens: Parsed<Decl>, syn: Services) returns (out: MacroOutput)
    ensures out == Generated(itemTokens, syn, true)
  {
    if itemTokens.SyntaxError? {
      return Emitted(CompileError(itemTokens.message));
    }
    var input := itemTokens.value;
    var constName := PushSnakeCase(SizeOfPrefix, input.ident);
    if !syn.lexes(constName) {
      return Panicked(ResultUnwrapMessage);
    }
    out := Emitted(Expansion(Some(input), true, ConstDecl(Inherited, constName, input.ident)));
  }

  /** The attribute `private_size_of`: despite its name, the same output as `size_of`. */
  method PrivateSizeOf(attr: Parsed<seq<Meta>>, itemTokens: Parsed<Decl>, syn: Services) returns (out: MacroOutput)
    ensures out == Generated(itemTokens, syn, true)
  {
    if itemTokens.SyntaxError? {
      return Emitted(CompileError(itemTokens.message));
    }
    var input := itemTokens.value;
    var constName := PushSnakeCase(SizeOfPrefix, input.ident);
    if !syn.lexes(constName) {
      return Panicked(ResultUnwrapMessage);
    }
    out := Emitted(Expansion(Some(input), true, ConstDecl(Inherited, constName, input.ident)));
  }

  /** Whatever this version emits names the constant after the type, with
      no visibility, and re-emits the item exactly in the attribute forms. */
  lemma GeneratedShape(itemTokens: Parsed<Decl>, syn: Services, reemitItem: bool)
    ensures var out := Generated(itemTokens, syn, reemitItem);
      out.Emitted? && out.tokens.Expansion? ==>
        itemTokens.Parsed? &&
        out.tokens.constant == ConstDecl(Inherited, DefaultConstName(itemTokens.value.ident), itemTokens.value.ident) &&
        out.tokens.item == (if reemitItem then Some(itemTokens.value) else None) &&
        out.tokens.semicolon == reemitItem
    ensures itemTokens.Parsed? ==>
      (Generated(itemTokens, syn, reemitItem).Panicked? <==> !syn.lexes(DefaultConstName(itemTokens.value.ident)))
  {
  }

  /** The documented use: `FooBar` gets the constant `SIZE_OF_FOO_BAR`. */
  lemma FooBarExample(syn: Services)
    requires syn.lexes("SIZE_OF_FOO_BAR")
    ensures Generated(Parsed(Decl("FooBar", Inherited, false)), syn, false) ==
      Emitted(Expansion(None, false, ConstDecl(Inherited, "SIZE_OF_FOO_BAR", "FooBar")))
  {
    DefaultConstNameExamples();
  }

  /** On a parsed declaration without generics, the current derive emits
      what this version emits, except that the constant takes the
      declaration's visibility; for a declaration without one the two agree
      exactly. Generic declarations panic only in the current version. */
  lemma CurrentDeriveAgreesWithOld(d: Decl, syn: Services)
    ensures var current := SizeOfConstMacro.UnwrapTokenStream(SizeOfConstMacro.DeriveExpansion(Parsed(d), syn));
      !d.hasGenerics ==> (current ==
        match Generated(Parsed(d), syn, false)
        case Emitted(Expansion(item, semicolon, constant)) =>
          Emitted(Expansion(item, semicolon, constant.(visibility := d.vis)))
        case other => other)
    ensures var current := SizeOfConstMacro.UnwrapTokenStream(SizeOfConstMacro.DeriveExpansion(Parsed(d), syn));
      !d.hasGenerics && d.vis == Inherited ==> current == Generated(Parsed(d), syn, false)
    ensures var current := SizeOfConstMacro.UnwrapTokenStream(SizeOfConstMacro.DeriveExpansion(Parsed(d), syn));
      d.hasGenerics ==> current == Panicked(SizeOfConstMacro.GenericsMessage) && Generated(Parsed(d), syn, false) != current
  {
    if !d.hasGenerics {
      SizeOfConstMacro.DeriveConstant(d, syn);
    }
  }
}
