/** String lengths as JavaScript counts them: `length` and an input's
    `maxLength` count UTF-16 code units, so a character outside the Basic
    Multilingual Plane, such as an emoji, counts two. */
module Utf16 {
  import opened Text

  /** The UTF-16 code units of one character: two for a character outside
      the Basic Multilingual Plane (a surrogate pair), one otherwise. */
  function Units(c: char): nat {
    if c as int > 0xFFFF then 2 else 1
  }

  /** A string's `length`, which counts UTF-16 code units. */
  function Utf16Length(s: string): (n: nat)
    ensures |s| <= n <= 2 * |s|
  {
    if s == [] then 0 else Utf16Length(s[..|s| - 1]) + Units(s[|s| - 1])
  }

  /** What a field with `maxLength = limit` keeps of `s`: the longest prefix
      of whole characters whose UTF-16 length is at most `limit`. */
  function CutToUnits(s: string, limit: nat): (r: string)
    ensures |r| <= |s| && r == s[..|r|]
    ensures Utf16Length(r) <= limit
    ensures r != s ==> Utf16Length(s[..|r| + 1]) > limit
    decreases |s|
  {
    if Utf16Length(s) <= limit then s
    else
      assert s != [];
      var shorter := s[..|s| - 1];
      var r := CutToUnits(shorter, limit);
      assert r == s[..|r|];
      assert r == shorter ==> s[..|r| + 1] == s;
      assert r != shorter ==> |r| < |shorter| && shorter[..|r| + 1] == s[..|r| + 1];
      r
  }

  // ---------------------------------------------------------------------
  // Properties

  /** A longer prefix never has a shorter UTF-16 length. */
  lemma {:induction false} Utf16PrefixMonotone(s: string, i: nat, j: nat)
    requires i <= j <= |s|
    ensures Utf16Length(s[..i]) <= Utf16Length(s[..j])
    decreases j
  {
    if i < j {
      assert s[..j][..j - 1] == s[..j - 1];
      Utf16PrefixMonotone(s, i, j - 1);
    }
  }

  /** No longer prefix than the one `CutToUnits` keeps fits the limit. */
  lemma CutIsLongest(s: string, limit: nat, k: nat)
    requires k <= |s| && Utf16Length(s[..k]) <= limit
    ensures k <= |CutToUnits(s, limit)|
  {
    var r := CutToUnits(s, limit);
    if k > |r| {
      assert s[..|s|] == s;
      Utf16PrefixMonotone(s, |r| + 1, k);
    }
  }

  /** Two strings whose characters take the same number of units, position
      by position, have the same UTF-16 length. */
  lemma {:induction false} SameUnits(a: string, b: string)
    requires |a| == |b|
    requires forall i :: 0 <= i < |a| ==> Units(a[i]) == Units(b[i])
    ensures Utf16Length(a) == Utf16Length(b)
    decreases |a|
  {
    if a != [] {
      SameUnits(a[..|a| - 1], b[..|b| - 1]);
    }
  }

  /** Upper-casing keeps the UTF-16 length. */
  lemma UpperKeepsUnits(s: string)
    ensures Utf16Length(ToUpper(s)) == Utf16Length(s)
  {
    SameUnits(ToUpper(s), s);
  }

  /** Every character lies in the Basic Multilingual Plane. */
  predicate InBmp(s: string) {
    forall i :: 0 <= i < |s| ==> s[i] as int <= 0xFFFF
  }

  lemma BmpPrefix(s: string, k: nat)
    requires InBmp(s) && k <= |s|
    ensures InBmp(s[..k])
  {
  }

  /** In the Basic Multilingual Plane a character is one unit, so the
      length is the number of characters. */
  lemma {:induction false} BmpLength(s: string)
    requires InBmp(s)
    ensures Utf16Length(s) == |s|
    decreases |s|
  {
    if s != [] {
      BmpLength(s[..|s| - 1]);
    }
  }

  /** Outside it every character is a surrogate pair. */
  lemma {:induction false} AstralLength(s: string)
    requires forall i :: 0 <= i < |s| ==> s[i] as int > 0xFFFF
    ensures Utf16Length(s) == 2 * |s|
    decreases |s|
  {
    if s != [] {
      AstralLength(s[..|s| - 1]);
    }
  }

  /** For text in the Basic Multilingual Plane, such as a room code, the
      field keeps the first `limit` characters. */
  lemma BmpCutIsPlainCut(s: string, limit: nat)
    requires InBmp(s)
    ensures CutToUnits(s, limit) == if |s| <= limit then s else s[..limit]
  {
    var r := CutToUnits(s, limit);
    BmpCutLength(s, limit);
    assert s[..|s|] == s;
  }

  lemma BmpCutLength(s: string, limit: nat)
    requires InBmp(s)
    ensures |CutToUnits(s, limit)| == if |s| <= limit then |s| else limit
  {
    var r := CutToUnits(s, limit);
    var k := if |s| <= limit then |s| else limit;
    BmpPrefix(s, |r|);
    BmpLength(r);
    BmpPrefix(s, k);
    BmpLength(s[..k]);
    CutIsLongest(s, limit, k);
  }

  /** Text made only of characters outside the Basic Multilingual Plane,
      such as emoji, is cut after half as many characters as the limit. */
  lemma AstralTextKeepsHalf(s: string, limit: nat)
    requires forall i :: 0 <= i < |s| ==> s[i] as int > 0xFFFF
    ensures |CutToUnits(s, limit)| == if |s| <= limit / 2 then |s| else limit / 2
  {
    var r := CutToUnits(s, limit);
    AstralLength(r);
    var k := if |s| <= limit / 2 then |s| else limit / 2;
    AstralLength(s[..k]);
    CutIsLongest(s, limit, k);
    if r != s {
      AstralLength(s[..|r| + 1]);
    }
  }
}
