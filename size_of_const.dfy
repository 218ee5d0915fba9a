/** The current macro crate: the `#[size_of_const(...)]` attribute and the
    `#[derive(SizeOf)]` derive. Both read a type declaration, decide the name
    and visibility of a `usize` constant holding the type's size, and emit it.
    A `SocmParser` collects the decision in three optional fields: folding the
    declaration fills the ones still empty, then each attribute argument, left
    to right, may overwrite the name or the visibility. */
module SizeOfConstMacro {
  import opened Syn
  import opened SnakeCase

  const ErrorPrefix := "size_of_const_macro: "
  const GenericsMessage := "size_of_const_macro: SizeOf derive macro does not yet support generics"
  const StrLiteralMessage := "size_of_const values must be a str literal"
  const VisibilityMessage := "size_of_const failed to parse visibility"
  const MalformedMessage := "size_of_const malformed attribute arguments"
  const PunctuationMessage := "failed to parse punctuation"
  const InputMessage := "failed to parse input "
  const FailedToParseMessage := "failed to parse"

  /** Appends the snake form of `camelCase` to `buffer`: an upper-case
      character as `_` and itself, any other character upper-cased. */
  method PushSnakeCase(buffer: string, camelCase: string) returns (result: string)
    ensures result == buffer + Snake(camelCase)
  {
    result := buffer;
    for i := 0 to |camelCase|
      invariant result == buffer + Snake(camelCase[..i])
    {
      var c := camelCase[i];
      if IsUpper(c) {
        result := result + ['_'];
        result := result + [c];
      } else {
        result := result + [ToUpper(c)];
      }
      SnakeStep(camelCase, i);
    }
    assert camelCase[..|camelCase|] == camelCase;
  }

  /** The three fields of a `SocmParser`, as a value. */
  datatype ParserState = ParserState(constName: Option<string>, ident: Option<string>, visibility: Option<Visibility>)

  const EmptyState := ParserState(None, None, None)

  predicate Filled(st: ParserState) {
    st.constName.Some? && st.ident.Some? && st.visibility.Some?
  }

  /** `after` keeps every field that was already set in `before`. */
  predicate KeepsSetFields(before: ParserState, after: ParserState) {
    (before.constName.Some? ==> after.constName == before.constName) &&
    (before.ident.Some? ==> after.ident == before.ident) &&
    (before.visibility.Some? ==> after.visibility == before.visibility)
  }

  /** `fold_derive_input` on the state `st`: a generic declaration panics;
      otherwise each empty field is filled from the declaration (the name
      with its default), and the declaration itself is passed on. */
  function Fold(st: ParserState, d: Decl): (r: Result<(ParserState, Decl)>)
    ensures r.Err? <==> d.hasGenerics
    ensures r.Err? ==> r.failure == Panic(GenericsMessage)
    ensures r.Ok? ==> r.value.1 == d
    ensures r.Ok? ==> Filled(r.value.0) && KeepsSetFields(st, r.value.0)
    ensures r.Ok? && st.constName.None? ==> r.value.0.constName == Some(DefaultConstName(d.ident))
    ensures r.Ok? && st.ident.None? ==> r.value.0.ident == Some(d.ident)
    ensures r.Ok? && st.visibility.None? ==> r.value.0.visibility == Some(d.vis)
  {
    if d.hasGenerics then Err(Panic(GenericsMessage))
    else
      var visibility := if st.visibility.Some? then st.visibility else Some(d.vis);
      var ident := if st.ident.Some? then st.ident else Some(d.ident);
      var constName := if st.constName.Some? then st.constName else Some(DefaultConstName(d.ident));
      Ok((ParserState(constName, ident, visibility), d))
  }

  /** `SocmParser::const_name_token`: the name turned into tokens, which
      panics when the name does not lex. */
  function ConstNameToken(st: ParserState, syn: Services): (r: Result<Option<string>>)
    ensures r.Err? <==> st.constName.Some? && !syn.lexes(st.constName.value)
    ensures r.Err? ==> r.failure.Panic?
    ensures r.Ok? ==> r.value == st.constName
  {
    match st.constName
    case None => Ok(None)
    case Some(name) => if syn.lexes(name) then Ok(Some(name)) else Err(Panic(ResultUnwrapMessage))
  }

  /** `mnv_str_literal`: the text of a string-literal value. */
  function MnvStrLiteral(value: Lit): (r: Option<string>)
    ensures r.Some? <==> value.Str?
    ensures r.Some? ==> r.value == value.text
  {
    match value
    case Str(text) => Some(text)
    case Other => None
  }

  /** The arguments the loop of `parse_attribute` refuses: a list; a path
      that is not a single identifier; a `key = value` whose value is not a
      string literal (whatever the key), whose key is not a single identifier,
      or whose key is `visibility` and whose text is not a visibility. */
  predicate Rejects(argument: Meta, syn: Services) {
    match argument
    case List => true
    case Path(path) => |path| != 1
    case NameValue(path, value) =>
      value.Other? || |path| != 1 ||
      (path == ["visibility"] && syn.parseVisibility(value.text).None?)
  }

  /** The visibility an argument assigns: `private` assigns `Inherited`,
      `visibility = "..."` the parsed text; others assign none. */
  function AssignedVisibility(argument: Meta, syn: Services): Option<Visibility> {
    match argument
    case Path(path) => if path == ["private"] then Some(Inherited) else None
    case NameValue(path, value) =>
      if path == ["visibility"] && value.Str? then syn.parseVisibility(value.text) else None
    case List => None
  }

  /** The constant name an argument assigns: only `name = "..."` does. */
  function AssignedName(argument: Meta): Option<string> {
    match argument
    case NameValue(path, value) => if path == ["name"] && value.Str? then Some(value.text) else None
    case _ => None
  }

  /** One pass of the argument loop of `parse_attribute`. */
  function ApplyArgument(st: ParserState, argument: Meta, syn: Services): (r: Result<ParserState>)
    ensures r.Err? <==> Rejects(argument, syn)
    ensures r.Err? ==> (r.failure.Bail? <==> argument.NameValue? && argument.value.Other?)
    ensures r.Err? && r.failure.Bail? ==> r.failure.message == StrLiteralMessage
    ensures r.Ok? ==> r.value.ident == st.ident
    ensures r.Ok? ==> (r.value.visibility ==
      if AssignedVisibility(argument, syn).Some? then AssignedVisibility(argument, syn) else st.visibility)
    ensures r.Ok? ==> (r.value.constName ==
      if AssignedName(argument).Some? then AssignedName(argument) else st.constName)
  {
    match argument
    case Path(path) =>
      (match GetIdent(path)
       case None => Err(Panic(OptionUnwrapMessage))
       case Some(key) => if key == "private" then Ok(st.(visibility := Some(Inherited))) else Ok(st))
    case NameValue(path, value) =>
      (match MnvStrLiteral(value)
       case None => Err(Bail(StrLiteralMessage))
       case Some(text) =>
         match GetIdent(path)
         case None => Err(Panic(OptionUnwrapMessage))
         case Some(key) =>
           if key == "name" then Ok(st.(constName := Some(text)))
           else if key == "visibility" then
             (match syn.parseVisibility(text)
              case None => Err(Panic(VisibilityMessage))
              case Some(vis) => Ok(st.(visibility := Some(vis))))
           else Ok(st))
    case List => Err(Panic(MalformedMessage))
  }

  /** The whole argument loop: the arguments applied left to right, stopping at the first failure. */
  function ApplyArguments(st: ParserState, arguments: seq<Meta>, syn: Services): (r: Result<ParserState>)
    ensures r.Err? && r.failure.Bail? ==> r.failure.message == StrLiteralMessage
    decreases |arguments|
  {
    if arguments == [] then Ok(st)
    else
      match ApplyArgument(st, arguments[0], syn)
      case Err(f) => Err(f)
      case Ok(next) => ApplyArguments(next, arguments[1..], syn)
  }

  /** The visibility after `arguments`, read from the right: that of the
      last argument assigning one, else `initial`. */
  function LastVisibility(arguments: seq<Meta>, syn: Services, initial: Option<Visibility>): Option<Visibility> {
    if arguments == [] then initial
    else
      var latest := AssignedVisibility(arguments[|arguments| - 1], syn);
      if latest.Some? then latest else LastVisibility(arguments[..|arguments| - 1], syn, initial)
  }

  /** The constant name after `arguments`: the last one assigned, else `initial`. */
  function LastName(arguments: seq<Meta>, initial: Option<string>): Option<string> {
    if arguments == [] then initial
    else
      var latest := AssignedName(arguments[|arguments| - 1]);
      if latest.Some? then latest else LastName(arguments[..|arguments| - 1], initial)
  }

  /** Running two argument lists one after the other is running their concatenation. */
  lemma {:induction false} ApplyArgumentsAppend(st: ParserState, a: seq<Meta>, b: seq<Meta>, syn: Services)
    ensures ApplyArguments(st, a + b, syn) ==
      match ApplyArguments(st, a, syn)
      case Ok(mid) => ApplyArguments(mid, b, syn)
      case Err(f) => Err(f)
    decreases |a|
  {
    if a == [] {
      assert a + b == b;
    } else {
      assert (a + b)[0] == a[0];
      assert (a + b)[1..] == a[1..] + b;
      match ApplyArgument(st, a[0], syn)
      case Err(_) =>
      case Ok(next) => ApplyArgumentsAppend(next, a[1..], b, syn);
    }
  }

  /** The loop succeeds exactly when no argument is refused. */
  lemma {:induction false} ArgumentsAccepted(st: ParserState, arguments: seq<Meta>, syn: Services)
    ensures ApplyArguments(st, arguments, syn).Ok? <==>
      forall i :: 0 <= i < |arguments| ==> !Rejects(arguments[i], syn)
    decreases |arguments|
  {
    if arguments != [] {
      var rest := arguments[1..];
      assert forall i :: 0 <= i < |rest| ==> rest[i] == arguments[i + 1];
      match ApplyArgument(st, arguments[0], syn)
      case Err(_) =>
      case Ok(next) =>
        ArgumentsAccepted(next, rest, syn);
        if forall i :: 0 <= i < |rest| ==> !Rejects(rest[i], syn) {
          forall i | 0 <= i < |arguments|
            ensures !Rejects(arguments[i], syn)
          {
            if i > 0 {
              assert arguments[i] == rest[i - 1];
            }
          }
        }
    }
  }

  /** After a successful loop the last assignment wins, for the visibility
      and the name alike, and the identifier is untouched. */
  lemma {:induction false} ArgumentsOutcome(st: ParserState, arguments: seq<Meta>, syn: Services)
    requires ApplyArguments(st, arguments, syn).Ok?
    ensures ApplyArguments(st, arguments, syn).value.visibility == LastVisibility(arguments, syn, st.visibility)
    ensures ApplyArguments(st, arguments, syn).value.constName == LastName(arguments, st.constName)
    ensures ApplyArguments(st, arguments, syn).value.ident == st.ident
  {
    if arguments != [] {
      var n := |arguments| - 1;
      var init, last := arguments[..n], arguments[n];
      assert arguments == init + [last];
      ApplyArgumentsAppend(st, init, [last], syn);
      ArgumentsOutcome(st, init, syn);
      var mid := ApplyArguments(st, init, syn).value;
      assert ApplyArguments(mid, [last], syn) ==
        match ApplyArgument(mid, last, syn)
        case Err(f) => Err(f)
        case Ok(next) => ApplyArguments(next, [], syn);
    }
  }

  /** A visibility or name that was set stays set whatever the arguments assign. */
  lemma {:induction false} LastKeepsSet(arguments: seq<Meta>, syn: Services, vis: Option<Visibility>, name: Option<string>)
    requires vis.Some? && name.Some?
    ensures LastVisibility(arguments, syn, vis).Some?
    ensures LastName(arguments, name).Some?
  {
    if arguments != [] {
      LastKeepsSet(arguments[..|arguments| - 1], syn, vis, name);
    }
  }

  /** The quoting step shared by both entry points: the constant takes the
      collected name, visibility and identifier. Without a visibility the
      constant is written without one, which prints like `Inherited`. */
  function Emit(st: ParserState, item: Option<Decl>, syn: Services): Result<Tokens> {
    match ConstNameToken(st, syn)
    case Err(f) => Err(f)
    case Ok(name) =>
      if name.None? || st.ident.None? then Err(Bail(FailedToParseMessage))
      else
        var visibility := if st.visibility.Some? then st.visibility.value else Inherited;
        Ok(Expansion(item, false, ConstDecl(visibility, name.value, st.ident.value)))
  }

  /** `parse_attribute`: parse the arguments and the item, fold the item,
      run the arguments, then emit the item followed by the constant. */
  function AttributeExpansion(argumentTokens: Parsed<seq<Meta>>, itemTokens: Parsed<Decl>, syn: Services): Result<Tokens> {
    match argumentTokens
    case SyntaxError(_) => Err(Bail(PunctuationMessage))
    case Parsed(arguments) =>
      match itemTokens
      case SyntaxError(message) => Err(Bail(InputMessage + message))
      case Parsed(d) =>
        match Fold(EmptyState, d)
        case Err(f) => Err(f)
        case Ok((st, folded)) =>
          match ApplyArguments(st, arguments, syn)
          case Err(f) => Err(f)
          case Ok(st') => Emit(st', Some(folded), syn)
  }

  /** `parse_derive`: parse and fold the item, then emit the constant alone. */
  function DeriveExpansion(tokens: Parsed<Decl>, syn: Services): Result<Tokens> {
    match tokens
    case SyntaxError(message) => Err(Bail(InputMessage + message))
    case Parsed(d) =>
      match Fold(EmptyState, d)
      case Err(f) => Err(f)
      case Ok((st, _)) => Emit(st, None, syn)
  }

  /** `unwrap_token_stream`: tokens pass through unchanged, a returned error
      becomes a `compile_error!` whose message starts with the crate's
      name; a panic is not caught and unwinds out of the macro. */
  function UnwrapTokenStream(r: Result<Tokens>): (out: MacroOutput)
    ensures r.Ok? ==> out == Emitted(r.value)
    ensures r.Err? && r.failure.Bail? ==>
      out.Emitted? && out.tokens.CompileError? &&
      out.tokens.message == ErrorPrefix + r.failure.message
    ensures out.Panicked? <==> r.Err? && r.failure.Panic?
  {
    match r
    case Ok(stream) => Emitted(stream)
    case Err(Bail(message)) => Emitted(CompileError(ErrorPrefix + message))
    case Err(Panic(message)) => Panicked(message)
  }

  /** A state with every field set keeps every field set through a successful loop. */
  lemma CollectedStateIsFilled(st: ParserState, arguments: seq<Meta>, syn: Services)
    requires Filled(st) && ApplyArguments(st, arguments, syn).Ok?
    ensures Filled(ApplyArguments(st, arguments, syn).value)
  {
    ArgumentsOutcome(st, arguments, syn);
    LastKeepsSet(arguments, syn, st.visibility, st.constName);
  }

  /** A generic declaration makes both entry points panic, whatever the arguments. */
  lemma GenericsAlwaysPanic(arguments: seq<Meta>, d: Decl, syn: Services)
    requires d.hasGenerics
    ensures AttributeExpansion(Parsed(arguments), Parsed(d), syn) == Err(Panic(GenericsMessage))
    ensures DeriveExpansion(Parsed(d), syn) == Err(Panic(GenericsMessage))
  {
  }

  /** What the attribute produces for a non-generic declaration: it fails
      exactly when some argument is refused or the final name does not lex;
      otherwise it re-emits the declaration followed by a constant whose name
      and visibility are those of the last argument assigning them, falling
      back to the default name and to the declaration's own visibility. */
  lemma AttributeConstant(arguments: seq<Meta>, d: Decl, syn: Services)
    requires !d.hasGenerics
    ensures LastName(arguments, Some(DefaultConstName(d.ident))).Some?
    ensures LastVisibility(arguments, syn, Some(d.vis)).Some?
    ensures
      var name := LastName(arguments, Some(DefaultConstName(d.ident))).value;
      var vis := LastVisibility(arguments, syn, Some(d.vis)).value;
      var r := AttributeExpansion(Parsed(arguments), Parsed(d), syn);
      (r.Ok? <==> (forall i :: 0 <= i < |arguments| ==> !Rejects(arguments[i], syn)) && syn.lexes(name)) &&
      (r.Ok? ==> r.value == Expansion(Some(d), false, ConstDecl(vis, name, d.ident)))
  {
    var st := ParserState(Some(DefaultConstName(d.ident)), Some(d.ident), Some(d.vis));
    assert Fold(EmptyState, d) == Ok((st, d));
    LastKeepsSet(arguments, syn, st.visibility, st.constName);
    ArgumentsAccepted(st, arguments, syn);
    if ApplyArguments(st, arguments, syn).Ok? {
      ArgumentsOutcome(st, arguments, syn);
    }
  }

  /** The derive produces the constant alone, with the default name and the declaration's own visibility. */
  lemma DeriveConstant(d: Decl, syn: Services)
    requires !d.hasGenerics
    ensures var name := DefaultConstName(d.ident);
      DeriveExpansion(Parsed(d), syn) ==
        if syn.lexes(name) then Ok(Expansion(None, false, ConstDecl(d.vis, name, d.ident)))
        else Err(Panic(ResultUnwrapMessage))
  {
  }

  /** The derive is the attribute without arguments, minus the re-emitted item. */
  lemma DeriveIsAttributeWithoutArguments(d: Decl, message: string, syn: Services)
    ensures AttributeExpansion(Parsed([]), Parsed(d), syn) ==
      match DeriveExpansion(Parsed(d), syn)
      case Ok(Expansion(_, semicolon, constant)) => Ok(Expansion(Some(d), semicolon, constant))
      case other => other
    ensures AttributeExpansion(Parsed([]), SyntaxError(message), syn) == DeriveExpansion(SyntaxError(message), syn)
  {
  }

  /** Once the declaration is folded, name and identifier are always set
      (`CollectedStateIsFilled`), so neither entry point can end in the
      "failed to parse" error. */
  lemma FailedToParseUnreachable(argumentTokens: Parsed<seq<Meta>>, itemTokens: Parsed<Decl>, syn: Services)
    ensures AttributeExpansion(argumentTokens, itemTokens, syn) != Err(Bail(FailedToParseMessage))
    ensures DeriveExpansion(itemTokens, syn) != Err(Bail(FailedToParseMessage))
  {
    if argumentTokens.Parsed? && itemTokens.Parsed? {
      match Fold(EmptyState, itemTokens.value)
      case Err(_) =>
      case Ok((st, _)) =>
        if ApplyArguments(st, argumentTokens.value, syn).Ok? {
          CollectedStateIsFilled(st, argumentTokens.value, syn);
        }
    }
    if itemTokens.SyntaxError? {
      assert |InputMessage + itemTokens.message| > |FailedToParseMessage|;
    }
  }

  /** The three documented uses of the attribute, the documented derive, and
      a visibility that does not parse. */
  lemma DocumentedExpansions(syn: Services)
    requires syn.parseVisibility("pub") == Some(Public)
    requires syn.parseVisibility("not_a_real_visibility") == None
    requires syn.lexes("SIZE_OF_FOO") && syn.lexes("SIZE_OF_OTHER_FOO")
    requires syn.lexes("SIZE_OF_BAZ_BIN") && syn.lexes("SIZE_OF_FOO_BAR")
    ensures var foo := Decl("Foo", Inherited, false);
      AttributeExpansion(Parsed([]), Parsed(foo), syn) ==
        Ok(Expansion(Some(foo), false, ConstDecl(Inherited, "SIZE_OF_FOO", "Foo")))
    ensures var bar := Decl("Bar", Inherited, false);
      var arguments := [NameValue(["visibility"], Str("pub")), NameValue(["name"], Str("SIZE_OF_OTHER_FOO"))];
      AttributeExpansion(Parsed(arguments), Parsed(bar), syn) ==
        Ok(Expansion(Some(bar), false, ConstDecl(Public, "SIZE_OF_OTHER_FOO", "Bar")))
    ensures var bazBin := Decl("BazBin", Public, false);
      AttributeExpansion(Parsed([Path(["private"])]), Parsed(bazBin), syn) ==
        Ok(Expansion(Some(bazBin), false, ConstDecl(Inherited, "SIZE_OF_BAZ_BIN", "BazBin")))
    ensures DeriveExpansion(Parsed(Decl("FooBar", Inherited, false)), syn) ==
      Ok(Expansion(None, false, ConstDecl(Inherited, "SIZE_OF_FOO_BAR", "FooBar")))
    ensures var arguments := [NameValue(["visibility"], Str("not_a_real_visibility"))];
      AttributeExpansion(Parsed(arguments), Parsed(Decl("Foo", Inherited, false)), syn) ==
        Err(Panic(VisibilityMessage))
  {
    DefaultConstNameExamples();
  }

  /** The state the macro collects: `SocmParser`. */
  class SocmParser {
    var constName: Option<string>
    var ident: Option<string>
    var visibility: Option<Visibility>

    /** `SocmParser::default()`. */
    constructor ()
      ensures State() == EmptyState
    {
      constName, ident, visibility := None, None, None;
    }

    function State(): ParserState
      reads this
    {
      ParserState(constName, ident, visibility)
    }

    /** `fold_derive_input`: fills the empty fields from the declaration and
        hands the declaration back; panics on a generic declaration. */
    method FoldDeriveInput(deriveInput: Decl) returns (r: Result<Decl>)
      modifies this
      ensures match Fold(old(State()), deriveInput)
        case Ok((st, d)) => r == Ok(d) && State() == st
        case Err(f) => r == Err(f) && State() == old(State())
    {
      if deriveInput.hasGenerics {
        return Err(Panic(GenericsMessage));
      }
      var name := deriveInput.ident;
      if visibility.None? {
        visibility := Some(deriveInput.vis);
      }
      if ident.None? {
        ident := Some(name);
      }
      if constName.None? {
        var buffer := PushSnakeCase(SizeOfPrefix, name);
        constName := Some(buffer);
      }
      r := Ok(deriveInput);
    }
  }

  /** `parse_attribute`, run on a fresh `SocmParser`. */
  method ParseAttribute(argumentTokens: Parsed<seq<Meta>>, itemTokens: Parsed<Decl>, syn: Services) returns (r: Result<Tokens>)
    ensures r == AttributeExpansion(argumentTokens, itemTokens, syn)
  {
    if argumentTokens.SyntaxError? {
      return Err(Bail(PunctuationMessage));
    }
    var arguments := argumentTokens.value;
    if itemTokens.SyntaxError? {
      return Err(Bail(InputMessage + itemTokens.message));
    }
    var parser := new SocmParser();
    var folded := parser.FoldDeriveInput(itemTokens.value);
    if folded.Err? {
      return Err(folded.failure);
    }
    ghost var start := parser.State();
    for i := 0 to |arguments|
      invariant ApplyArguments(start, arguments, syn) == ApplyArguments(parser.State(), arguments[i..], syn)
    {
      ghost var before := parser.State();
      assert arguments[i..][1..] == arguments[i + 1..];
      match arguments[i] {
        case Path(path) =>
          if |path| != 1 {
            return Err(Panic(OptionUnwrapMessage));
          }
          if path[0] == "private" {
            parser.visibility := Some(Inherited);
          }
        case NameValue(path, value) =>
          if !value.Str? {
            return Err(Bail(StrLiteralMessage));
          }
          if |path| != 1 {
            return Err(Panic(OptionUnwrapMessage));
          }
          if path[0] == "name" {
            parser.constName := Some(value.text);
          } else if path[0] == "visibility" {
            var parsed := syn.parseVisibility(value.text);
            if parsed.None? {
              return Err(Panic(VisibilityMessage));
            }
            parser.visibility := parsed;
          }
        case List =>
          return Err(Panic(MalformedMessage));
      }
      assert ApplyArgument(before, arguments[i], syn) == Ok(parser.State());
    }
    var constName := ConstNameToken(parser.State(), syn);
    if constName.Err? {
      return Err(constName.failure);
    }
    if constName.value.None? || parser.ident.None? {
      return Err(Bail(FailedToParseMessage));
    }
    var visibility := if parser.visibility.Some? then parser.visibility.value else Inherited;
    r := Ok(Expansion(Some(folded.value), false, ConstDecl(visibility, constName.value.value, parser.ident.value)));
  }

  /** `parse_derive`, run on a fresh `SocmParser`. */
  method ParseDerive(tokens: Parsed<Decl>, syn: Services) returns (r: Result<Tokens>)
    ensures r == DeriveExpansion(tokens, syn)
  {
    if tokens.SyntaxError? {
      return Err(Bail(InputMessage + tokens.message));
    }
    var parser := new SocmParser();
    var folded := parser.FoldDeriveInput(tokens.value);
    if folded.Err? {
      return Err(folded.failure);
    }
    var constName := ConstNameToken(parser.State(), syn);
    if constName.Err? {
      return Err(constName.failure);
    }
    if constName.value.None? || parser.ident.None? {
      return Err(Bail(FailedToParseMessage));
    }
    var visibility := if parser.visibility.Some? then parser.visibility.value else Inherited;
    r := Ok(Expansion(None, false, ConstDecl(visibility, constName.value.value, parser.ident.value)));
  }

  /** The attribute macro `size_of_const`. */
  method SizeOfConst(argumentTokens: Parsed<seq<Meta>>, itemTokens: Parsed<Decl>, syn: Services) returns (out: MacroOutput)
    ensures out == UnwrapTokenStream(AttributeExpansion(argumentTokens, itemTokens, syn))
  {
    var r := ParseAttribute(argumentTokens, itemTokens, syn);
    out := UnwrapTokenStream(r);
  }

  /** The derive macro `SizeOf`. */
  method SizeOfConstDerive(tokens: Parsed<Decl>, syn: Services) returns (out: MacroOutput)
    ensures out == UnwrapTokenStream(DeriveExpansion(tokens, syn))
  {
    var r := ParseDerive(tokens, syn);
    out := UnwrapTokenStream(r);
  }
}
