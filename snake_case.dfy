/** The name rule shared by both versions of the macro: `push_snake_case`
    turns a type name such as `FooBar` into `_FOO_BAR`, and the default
    constant name is `SIZE_OF` followed by that. Case mapping is ASCII only. */
module SnakeCase {

  predicate IsUpper(c: char) { 'A' <= c <= 'Z' }

  predicate IsLower(c: char) { 'a' <= c <= 'z' }

  /** `char::to_uppercase` restricted to ASCII: lower-case letters move to
      upper case, every other character is kept. */
  function ToUpper(c: char): (u: char)
    ensures !IsLower(u)
    ensures IsLower(c) ==> IsUpper(u) && u as int == c as int - 32
    ensures !IsLower(c) ==> u == c
  {
    if IsLower(c) then (c as int - 32) as char else c
  }

  /** What one character of the type name adds to the buffer. */
  function SnakeChar(c: char): string {
    if IsUpper(c) then ['_', c] else [ToUpper(c)]
  }

  /** Everything `push_snake_case` appends for the name `s`. */
  function Snake(s: string): string {
    if s == [] then [] else SnakeChar(s[0]) + Snake(s[1..])
  }

  const SizeOfPrefix := "SIZE_OF"

  /** The constant name used when none is given: the prefix, then the snake form of the type name. */
  function DefaultConstName(ident: string): string {
    SizeOfPrefix + Snake(ident)
  }

  function CountUpper(s: string): nat {
    if s == [] then 0 else (if IsUpper(s[0]) then 1 else 0) + CountUpper(s[1..])
  }

  /** Converting a concatenation is converting each part and concatenating. */
  lemma {:induction false} SnakeAppend(a: string, b: string)
    ensures Snake(a + b) == Snake(a) + Snake(b)
  {
    if a == [] {
      assert a + b == b;
    } else {
      assert (a + b)[0] == a[0];
      assert (a + b)[1..] == a[1..] + b;
      SnakeAppend(a[1..], b);
    }
  }

  /** One more character of input adds exactly that character's contribution. */
  lemma SnakeStep(s: string, i: nat)
    requires i < |s|
    ensures Snake(s[..i + 1]) == Snake(s[..i]) + SnakeChar(s[i])
  {
    assert s[..i + 1] == s[..i] + [s[i]];
    SnakeAppend(s[..i], [s[i]]);
    assert Snake([s[i]]) == SnakeChar(s[i]) + Snake([]);
  }

  /** Each upper-case letter adds two characters, every other character one. */
  lemma {:induction false} SnakeLength(s: string)
    ensures |Snake(s)| == |s| + CountUpper(s)
  {
    if s != [] {
      SnakeLength(s[1..]);
    }
  }

  /** The output never holds a lower-case letter. */
  lemma {:induction false} SnakeHasNoLowercase(s: string)
    ensures forall i :: 0 <= i < |Snake(s)| ==> !IsLower(Snake(s)[i])
  {
    if s != [] {
      SnakeHasNoLowercase(s[1..]);
      var head, tail := SnakeChar(s[0]), Snake(s[1..]);
      assert Snake(s) == head + tail;
      forall i | 0 <= i < |Snake(s)|
        ensures !IsLower(Snake(s)[i])
      {
        if i >= |head| {
          assert Snake(s)[i] == tail[i - |head|];
        }
      }
    }
  }

  /** Every character upper-cased, nothing inserted. */
  function UpperAll(w: string): (r: string)
    ensures |r| == |w|
  {
    if w == [] then [] else [ToUpper(w[0])] + UpperAll(w[1..])
  }

  /** A run without upper-case letters is only upper-cased. */
  lemma {:induction false} SnakeOfLowerRun(w: string)
    requires forall i :: 0 <= i < |w| ==> !IsUpper(w[i])
    ensures Snake(w) == UpperAll(w)
  {
    if w != [] {
      SnakeOfLowerRun(w[1..]);
    }
  }

  /** A capitalised word: one upper-case letter, then no upper-case letters. */
  predicate IsCapitalisedWord(w: string) {
    |w| > 0 && IsUpper(w[0]) && forall i :: 1 <= i < |w| ==> !IsUpper(w[i])
  }

  function Concat(words: seq<string>): string {
    if words == [] then [] else words[0] + Concat(words[1..])
  }

  /** Screaming snake case: each word upper-cased and preceded by `_`. */
  function ScreamingSnake(words: seq<string>): string {
    if words == [] then [] else "_" + UpperAll(words[0]) + ScreamingSnake(words[1..])
  }

  /** A capitalised word becomes `_` followed by the word in upper case. */
  lemma SnakeOfWord(w: string)
    requires IsCapitalisedWord(w)
    ensures Snake(w) == "_" + UpperAll(w)
  {
    var rest := w[1..];
    forall i | 0 <= i < |rest|
      ensures !IsUpper(rest[i])
    {
      assert rest[i] == w[i + 1];
    }
    SnakeOfLowerRun(rest);
    assert SnakeChar(w[0]) == ['_', w[0]];
    assert Snake(w) == ['_', w[0]] + UpperAll(rest);
    assert ToUpper(w[0]) == w[0];
    assert UpperAll(w) == [w[0]] + UpperAll(rest);
    assert "_" + UpperAll(w) == ['_', w[0]] + UpperAll(rest);
  }

  /** For a name built of capitalised words, the conversion splits exactly at the word boundaries. */
  lemma {:induction false} SnakeOfWords(words: seq<string>)
    requires forall k :: 0 <= k < |words| ==> IsCapitalisedWord(words[k])
    ensures Snake(Concat(words)) == ScreamingSnake(words)
  {
    if words != [] {
      var w, rest := words[0], words[1..];
      assert Concat(words) == w + Concat(rest);
      SnakeAppend(w, Concat(rest));
      SnakeOfWord(w);
      assert forall k :: 0 <= k < |rest| ==> rest[k] == words[k + 1];
      SnakeOfWords(rest);
      assert ScreamingSnake(words) == "_" + UpperAll(w) + ScreamingSnake(rest);
    }
  }

  /** The names the documentation promises, and the literal behaviour on
      names that do not start with a capital or hold adjacent capitals. */
  lemma DefaultConstNameExamples()
    ensures DefaultConstName("Foo") == "SIZE_OF_FOO"
    ensures DefaultConstName("FooBar") == "SIZE_OF_FOO_BAR"
    ensures DefaultConstName("BazBin") == "SIZE_OF_BAZ_BIN"
    ensures DefaultConstName("foo") == "SIZE_OFFOO"
    ensures DefaultConstName("AB") == "SIZE_OF_A_B"
    ensures DefaultConstName("") == "SIZE_OF"
  {
    SnakeOfWord("Foo");
    SnakeOfWord("Bar");
    SnakeOfWord("Baz");
    SnakeOfWord("Bin");
    SnakeAppend("Foo", "Bar");
    SnakeAppend("Baz", "Bin");
    SnakeOfLowerRun("foo");
    SnakeAppend("A", "B");
    SnakeOfWord("A");
    SnakeOfWord("B");
  }
}
