/** The two string built-ins the components rely on: `trim` (used as the
    blank-input guard everywhere, and to normalise room codes) and
    `toUpperCase` (room codes). */
module Text {

  /** The characters `String.prototype.trim` removes: the ECMAScript
      WhiteSpace and LineTerminator code points. */
  predicate IsWhitespace(c: char) {
    c == '\t' || c == '\n' || c == '\U{000B}' || c == '\U{000C}' || c == '\r'
    || c == ' ' || c == '\U{00A0}' || c == '\U{1680}'
    || ('\U{2000}' <= c && c <= '\U{200A}')
    || c == '\U{2028}' || c == '\U{2029}' || c == '\U{202F}' || c == '\U{205F}'
    || c == '\U{3000}' || c == '\U{FEFF}'
  }

  /** Every character is whitespace: exactly the strings whose trim is falsy. */
  predicate Blank(s: string) {
    forall i :: 0 <= i < |s| ==> IsWhitespace(s[i])
  }

  /** Drops leading whitespace: the result is a suffix of `s`, what was dropped
      is blank, and the result does not start with whitespace. */
  function TrimStart(s: string): (r: string)
    ensures |r| <= |s| && r == s[|s| - |r|..]
    ensures Blank(s[..|s| - |r|])
    ensures r != [] ==> !IsWhitespace(r[0])
  {
    if s != [] && IsWhitespace(s[0]) then TrimStart(s[1..]) else s
  }

  /** Drops trailing whitespace: the result is a prefix of `s`, what was
      dropped is blank, and the result does not end with whitespace. */
  function TrimEnd(s: string): (r: string)
    ensures |r| <= |s| && r == s[..|r|]
    ensures Blank(s[|r|..])
    ensures r != [] ==> !IsWhitespace(r[|r| - 1])
  {
    if s != [] && IsWhitespace(s[|s| - 1]) then
      var r := TrimEnd(s[..|s| - 1]);
      assert s[..|s| - 1][..|r|] == s[..|r|];
      assert s[|r|..] == s[..|s| - 1][|r|..] + [s[|s| - 1]];
      r
    else s
  }

  /** `s.trim()`: empty exactly when `s` is blank; otherwise neither end is
      whitespace. */
  function Trim(s: string): (r: string)
    ensures |r| <= |s|
    ensures r == [] <==> Blank(s)
    ensures r != [] ==> !IsWhitespace(r[0]) && !IsWhitespace(r[|r| - 1])
  {
    var a := TrimStart(s);
    var r := TrimEnd(a);
    assert r == [] ==> a == [];
    assert a == [] ==> s[..|s| - |a|] == s;
    r
  }

  /** ASCII upper-casing of one character. */
  function UpperChar(c: char): char {
    if 'a' <= c <= 'z' then (c as int - 32) as char else c
  }

  /** `s.toUpperCase()`, character by character. */
  function ToUpper(s: string): (r: string)
    ensures |r| == |s|
    ensures forall i :: 0 <= i < |s| ==> r[i] == UpperChar(s[i])
  {
    if s == [] then [] else [UpperChar(s[0])] + ToUpper(s[1..])
  }

  /** The room lookup key built from the join form's input: trimmed, then
      upper-cased. */
  function LookupKey(input: string): string {
    ToUpper(Trim(input))
  }

  // ---------------------------------------------------------------------
  // Properties

  lemma UpperCharKeepsWhitespace(c: char)
    ensures IsWhitespace(UpperChar(c)) == IsWhitespace(c)
  {
  }

  lemma ToUpperIdempotent(s: string)
    ensures ToUpper(ToUpper(s)) == ToUpper(s)
  {
  }

  /** Trimming a string that already has non-whitespace ends changes nothing. */
  lemma TrimOfTrimmed(s: string)
    requires s == [] || (!IsWhitespace(s[0]) && !IsWhitespace(s[|s| - 1]))
    ensures Trim(s) == s
  {
  }

  lemma {:induction false} TrimStartSkipsBlankPrefix(w: string, x: string)
    requires Blank(w)
    ensures TrimStart(w + x) == TrimStart(x)
  {
    if w != [] {
      assert (w + x)[0] == w[0];
      assert (w + x)[1..] == w[1..] + x;
      TrimStartSkipsBlankPrefix(w[1..], x);
    } else {
      assert w + x == x;
    }
  }

  lemma {:induction false} TrimEndSkipsBlankSuffix(x: string, w: string)
    requires Blank(w)
    ensures TrimEnd(x + w) == TrimEnd(x)
  {
    if w != [] {
      var n := |x + w|;
      assert (x + w)[n - 1] == w[|w| - 1];
      assert (x + w)[..n - 1] == x + w[..|w| - 1];
      TrimEndSkipsBlankSuffix(x, w[..|w| - 1]);
    } else {
      assert x + w == x;
    }
  }

  /** Whitespace around a word with non-whitespace ends is what trim removes,
      and nothing more. */
  lemma TrimPadded(w1: string, s: string, w2: string)
    requires Blank(w1) && Blank(w2)
    requires s != [] && !IsWhitespace(s[0]) && !IsWhitespace(s[|s| - 1])
    ensures Trim(w1 + s + w2) == s
  {
    assert w1 + s + w2 == w1 + (s + w2);
    TrimStartSkipsBlankPrefix(w1, s + w2);
    assert (s + w2)[0] == s[0];
    assert TrimStart(s + w2) == s + w2;
    TrimEndSkipsBlankSuffix(s, w2);
  }

  lemma {:induction false} TrimStartCommutesWithUpper(s: string)
    ensures TrimStart(ToUpper(s)) == ToUpper(TrimStart(s))
  {
    if s != [] {
      UpperCharKeepsWhitespace(s[0]);
      assert ToUpper(s)[1..] == ToUpper(s[1..]);
      TrimStartCommutesWithUpper(s[1..]);
    }
  }

  lemma {:induction false} TrimEndCommutesWithUpper(s: string)
    ensures TrimEnd(ToUpper(s)) == ToUpper(TrimEnd(s))
  {
    if s != [] {
      var n := |s|;
      UpperCharKeepsWhitespace(s[n - 1]);
      assert ToUpper(s)[..n - 1] == ToUpper(s[..n - 1]);
      TrimEndCommutesWithUpper(s[..n - 1]);
    }
  }

  lemma TrimCommutesWithUpper(s: string)
    ensures Trim(ToUpper(s)) == ToUpper(Trim(s))
  {
    TrimStartCommutesWithUpper(s);
    TrimEndCommutesWithUpper(TrimStart(s));
  }

  /** The input field upper-cases every keystroke; that does not change which
      room the key resolves to. */
  lemma KeyIgnoresCase(s: string)
    ensures LookupKey(ToUpper(s)) == LookupKey(s)
  {
    TrimCommutesWithUpper(s);
    ToUpperIdempotent(Trim(s));
  }

  /** Normalising an already normalised key changes nothing. */
  lemma KeyIdempotent(s: string)
    ensures LookupKey(LookupKey(s)) == LookupKey(s)
  {
    var t := Trim(s);
    TrimOfTrimmed(t);
    TrimCommutesWithUpper(t);
    ToUpperIdempotent(t);
    calc {
      LookupKey(LookupKey(s));
      ToUpper(Trim(ToUpper(t)));
      ToUpper(ToUpper(Trim(t)));
      ToUpper(ToUpper(t));
      ToUpper(t);
    }
  }

  /** A key is blank exactly when its input is. */
  lemma KeyBlankIffInputBlank(s: string)
    ensures LookupKey(s) == [] <==> Blank(s)
  {
  }

  /** A code padded with whitespace resolves to the same key as its
      upper-case form, and that key is the upper-case form itself. */
  lemma PaddedCodeKey(w1: string, code: string, w2: string)
    requires Blank(w1) && Blank(w2)
    requires code != [] && !IsWhitespace(code[0]) && !IsWhitespace(code[|code| - 1])
    ensures LookupKey(w1 + code + w2) == LookupKey(ToUpper(code)) == ToUpper(code)
  {
    TrimPadded(w1, code, w2);
    KeyIgnoresCase(code);
    TrimOfTrimmed(code);
  }

  /** A padded lower-case code and the bare upper-case code resolve to the
      same key. */
  lemma PaddedLowerCaseCodeMatches()
    ensures LookupKey(" ab12cd ") == LookupKey("AB12CD") == "AB12CD"
  {
    var space, lower := " ", "ab12cd";
    assert space + lower + space == " ab12cd ";
    assert Blank(space) by {
      assert space[0] == ' ';
    }
    assert lower[0] == 'a' && lower[5] == 'd';
    PaddedCodeKey(space, lower, space);
    UpperOfCode();
  }

  lemma UpperOfCode()
    ensures ToUpper("ab12cd") == ToUpper("AB12CD") == "AB12CD"
  {
    var lower, upper := "ab12cd", "AB12CD";
    var u := ToUpper(lower);
    assert u[0] == 'A' && u[1] == 'B' && u[2] == '1';
    assert u[3] == '2' && u[4] == 'C' && u[5] == 'D';
    var v := ToUpper(upper);
    assert v[0] == 'A' && v[1] == 'B' && v[2] == '1';
    assert v[3] == '2' && v[4] == 'C' && v[5] == 'D';
  }
}
