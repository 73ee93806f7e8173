/** String operations of the ECMAScript runtime that the monitor relies on:
    `String.prototype.trim`, the `\s` class of regular expressions, upper-casing and
    rendering integers in decimal inside template literals. */
module Text {

  /** The characters ECMAScript counts as WhiteSpace or LineTerminator: those removed by
      `trim()` and matched by `\s`. */
  predicate IsWhitespace(c: char) {
    || c == '\t' || c == '\n' || c == '\U{000B}' || c == '\U{000C}' || c == '\r' || c == ' '
    || c == '\U{00A0}' || c == '\U{1680}' || ('\U{2000}' <= c <= '\U{200A}')
    || c == '\U{2028}' || c == '\U{2029}' || c == '\U{202F}' || c == '\U{205F}'
    || c == '\U{3000}' || c == '\U{FEFF}'
  }

  /** Every character of `s` is white space (this includes the empty string). */
  predicate IsBlank(s: string) {
    forall i :: 0 <= i < |s| ==> IsWhitespace(s[i])
  }

  /** `s`, when not empty, neither starts nor ends with white space. */
  predicate Trimmed(s: string) {
    s != [] ==> !IsWhitespace(s[0]) && !IsWhitespace(s[|s| - 1])
  }

  predicate NoWhitespace(s: string) {
    forall i :: 0 <= i < |s| ==> !IsWhitespace(s[i])
  }

  /** Leading white space removed: the result is a suffix of `s`, everything dropped is
      white space and the result does not start with white space. */
  function TrimStart(s: string): (r: string)
    ensures |r| <= |s| && r == s[|s| - |r|..]
    ensures forall i :: 0 <= i < |s| - |r| ==> IsWhitespace(s[i])
    ensures r != [] ==> !IsWhitespace(r[0])
  {
    if s != [] && IsWhitespace(s[0]) then TrimStart(s[1..]) else s
  }

  /** Trailing white space removed: the result is a prefix of `s`, everything dropped is
      white space and the result does not end with white space. */
  function TrimEnd(s: string): (r: string)
    ensures |r| <= |s| && r == s[..|r|]
    ensures forall i :: |r| <= i < |s| ==> IsWhitespace(s[i])
    ensures r != [] ==> !IsWhitespace(r[|r| - 1])
  {
    if s != [] && IsWhitespace(s[|s| - 1]) then TrimEnd(s[..|s| - 1]) else s
  }

  /** `s.trim()`: the slice of `s` left when white space is removed at both ends. It is
      empty exactly when `s` is blank, and otherwise neither starts nor ends with white
      space. */
  function Trim(s: string): (r: string)
    ensures var k := |s| - |TrimStart(s)|;
      && k + |r| <= |s|
      && (forall i :: 0 <= i < |r| ==> r[i] == s[k + i])
      && (forall i :: 0 <= i < k ==> IsWhitespace(s[i]))
      && (forall i :: k + |r| <= i < |s| ==> IsWhitespace(s[i]))
    ensures r == [] <==> IsBlank(s)
    ensures Trimmed(r)
  {
    TrimSlice(s);
    TrimEndsInWhitespace(s);
    TrimBlank(s);
    TrimEnd(TrimStart(s))
  }

  /** Trimming both ends leaves a slice of `s` that starts where the leading white space
      ends. */
  lemma TrimSlice(s: string)
    ensures var r, k := TrimEnd(TrimStart(s)), |s| - |TrimStart(s)|;
      k + |r| <= |s| && forall i :: 0 <= i < |r| ==> r[i] == s[k + i]
  {
    var t := TrimStart(s);
    PrefixOfSuffix(s, t, TrimEnd(t), |s| - |t|);
  }

  /** A prefix of a suffix of `s` sits in `s` where the suffix starts, at `k`. */
  lemma PrefixOfSuffix(s: string, t: string, r: string, k: int)
    requires |t| <= |s| && k == |s| - |t| && t == s[k..]
    requires |r| <= |t| && r == t[..|r|]
    ensures k + |r| <= |s| && forall i :: 0 <= i < |r| ==> r[i] == s[k + i]
  {
    forall i | 0 <= i < |r| ensures r[i] == s[k + i] {
      assert r[i] == t[i];
    }
  }

  /** Everything after that slice is white space. */
  lemma TrimEndsInWhitespace(s: string)
    ensures var r, k := TrimEnd(TrimStart(s)), |s| - |TrimStart(s)|; forall i :: k + |r| <= i < |s| ==> IsWhitespace(s[i])
  {
    var t := TrimStart(s);
    WhitespaceAfterPrefix(s, t, TrimEnd(t));
  }

  /** White space after a prefix of a suffix of `s` is white space of `s`. */
  lemma WhitespaceAfterPrefix(s: string, t: string, r: string)
    requires |t| <= |s| && t == s[|s| - |t|..] && |r| <= |t|
    requires forall i :: |r| <= i < |t| ==> IsWhitespace(t[i])
    ensures forall i :: |s| - |t| + |r| <= i < |s| ==> IsWhitespace(s[i])
  {
    forall i | |s| - |t| + |r| <= i < |s| ensures IsWhitespace(s[i]) {
      assert s[i] == t[i - (|s| - |t|)];
    }
  }

  /** Nothing is left exactly when `s` is blank. */
  lemma TrimBlank(s: string)
    ensures TrimEnd(TrimStart(s)) == [] <==> IsBlank(s)
  {
    var t := TrimStart(s);
    // t starts with a non-white-space character of s, which TrimEnd keeps
    if t != [] {
      assert !IsWhitespace(t[0]);
      assert TrimEnd(t) != [];
      assert t[0] == s[|s| - |t|];
    }
  }

  /** `s.replace(/\s+/g, '')`: the characters of `s` that are not white space, in order. */
  function StripWhitespace(s: string): (r: string)
    ensures NoWhitespace(r)
    ensures |r| <= |s|
    ensures forall c :: c in r <==> c in s && !IsWhitespace(c)
  {
    if s == [] then []
    else if IsWhitespace(s[0]) then StripWhitespace(s[1..])
    else [s[0]] + StripWhitespace(s[1..])
  }

  /** One character is dropped when it is white space and kept otherwise. */
  lemma StripWhitespaceSingleton(c: char)
    ensures StripWhitespace([c]) == if IsWhitespace(c) then [] else [c]
  {
    assert [c][1..] == [];
  }

  /** Stripping distributes over concatenation, so the kept characters stay in order. */
  lemma {:induction false} StripWhitespaceAppend(a: string, b: string)
    ensures StripWhitespace(a + b) == StripWhitespace(a) + StripWhitespace(b)
  {
    if a == [] {
      assert a + b == b;
    } else {
      assert (a + b)[0] == a[0];
      assert (a + b)[1..] == a[1..] + b;
      StripWhitespaceAppend(a[1..], b);
      if !IsWhitespace(a[0]) {
        var x, y := StripWhitespace(a[1..]), StripWhitespace(b);
        assert StripWhitespace(a + b) == [a[0]] + (x + y);
        assert [a[0]] + (x + y) == ([a[0]] + x) + y;
      }
    }
  }

  /** Stripping a string that holds no white space changes nothing. */
  lemma {:induction false} StripWhitespaceKeeps(s: string)
    requires NoWhitespace(s)
    ensures StripWhitespace(s) == s
  {
    if s != [] {
      StripWhitespaceKeeps(s[1..]);
    }
  }

  /** Upper-casing of one character, for the Basic Latin letters. */
  function UpperChar(c: char): (u: char)
    ensures 'a' <= c <= 'z' ==> 'A' <= u <= 'Z' && u as int == c as int - 32
    ensures !('a' <= c <= 'z') ==> u == c
  {
    if 'a' <= c <= 'z' then (c as int - 32) as char else c
  }

  /** `s.toUpperCase()` on Basic Latin letters: same length, each character upper-cased. */
  function ToUpper(s: string): (r: string)
    ensures |r| == |s|
    ensures forall i :: 0 <= i < |s| ==> r[i] == UpperChar(s[i])
  {
    if s == [] then [] else [UpperChar(s[0])] + ToUpper(s[1..])
  }

  /** Upper-casing never turns a character into white space or back. */
  lemma UpperCharWhitespace(c: char)
    ensures IsWhitespace(UpperChar(c)) == IsWhitespace(c)
  {
  }

  /** Upper-casing works character by character: it distributes over concatenation. */
  lemma ToUpperAppend(a: string, b: string)
    ensures ToUpper(a + b) == ToUpper(a) + ToUpper(b)
  {
    var l, r := ToUpper(a + b), ToUpper(a) + ToUpper(b);
    assert |l| == |r|;
    forall i | 0 <= i < |l| ensures l[i] == r[i] {
      if i < |a| {
        assert (a + b)[i] == a[i];
      } else {
        assert (a + b)[i] == b[i - |a|];
      }
    }
  }

  /** Stripping white space and upper-casing commute, since upper-casing never turns a
      character into white space or back. */
  lemma {:induction false} StripToUpperCommute(s: string)
    ensures StripWhitespace(ToUpper(s)) == ToUpper(StripWhitespace(s))
  {
    if s != [] {
      var u := ToUpper(s);
      assert u[0] == UpperChar(s[0]);
      assert u[1..] == ToUpper(s[1..]);
      UpperCharWhitespace(s[0]);
      StripToUpperCommute(s[1..]);
      if !IsWhitespace(s[0]) {
        var rest := StripWhitespace(s[1..]);
        ToUpperAppend([s[0]], rest);
        assert ToUpper([s[0]]) == [UpperChar(s[0])];
        assert StripWhitespace(u) == [u[0]] + StripWhitespace(u[1..]);
      } else {
        assert StripWhitespace(u) == StripWhitespace(u[1..]);
      }
    }
  }

  /** Upper-casing is idempotent and never creates or removes white space. */
  lemma ToUpperProperties(s: string)
    ensures ToUpper(ToUpper(s)) == ToUpper(s)
    ensures NoWhitespace(s) ==> NoWhitespace(ToUpper(s))
  {
    var u := ToUpper(s);
    forall i | 0 <= i < |s| ensures ToUpper(u)[i] == u[i] && (IsWhitespace(u[i]) == IsWhitespace(s[i])) {
      assert u[i] == UpperChar(s[i]);
      UpperCharWhitespace(s[i]);
    }
  }

  function DigitChar(d: nat): (c: char)
    requires d < 10
    ensures '0' <= c <= '9'
  {
    ('0' as int + d) as char
  }

  function DigitValue(c: char): (d: nat)
    requires '0' <= c <= '9'
    ensures d < 10
  {
    c as int - '0' as int
  }

  predicate IsDigits(s: string) {
    forall i :: 0 <= i < |s| ==> '0' <= s[i] <= '9'
  }

  /** A natural number as a template literal renders it: its decimal digits, with no
      leading zero. */
  function NatToString(n: nat): (r: string)
    ensures |r| > 0 && IsDigits(r)
    ensures |r| > 1 ==> r[0] != '0'
  {
    if n < 10 then [DigitChar(n)] else NatToString(n / 10) + [DigitChar(n % 10)]
  }

  /** The value of a string of decimal digits. */
  function DigitsValue(s: string): nat
    requires IsDigits(s)
  {
    if s == [] then 0 else 10 * DigitsValue(s[..|s| - 1]) + DigitValue(s[|s| - 1])
  }

  /** Reading back the decimal rendering gives the number: rendering loses nothing. */
  lemma {:induction false} NatToStringRoundTrip(n: nat)
    ensures DigitsValue(NatToString(n)) == n
  {
    if n >= 10 {
      NatToStringRoundTrip(n / 10);
      var a := NatToString(n / 10);
      var s := NatToString(n);
      assert s[..|s| - 1] == a;
    }
  }

  /** Distinct numbers render as distinct strings. */
  lemma NatToStringInjective(n: nat, m: nat)
    requires NatToString(n) == NatToString(m)
    ensures n == m
  {
    NatToStringRoundTrip(n);
    NatToStringRoundTrip(m);
  }

  /** A run of digits followed by a non-digit is determined by the text: two such runs at
      the start of equal strings are equal. */
  lemma DigitsPrefixUnique(d1: string, t1: string, d2: string, t2: string)
    requires IsDigits(d1) && IsDigits(d2) && d1 + t1 == d2 + t2
    requires t1 != [] && !('0' <= t1[0] <= '9')
    requires t2 != [] && !('0' <= t2[0] <= '9')
    ensures d1 == d2
  {
    var s := d1 + t1;
    assert s[|d1|] == t1[0];
    assert s[|d2|] == t2[0];
    assert forall i :: 0 <= i < |d1| ==> s[i] == d1[i];
    assert forall i :: 0 <= i < |d2| ==> s[i] == d2[i];
    if |d1| < |d2| {
      assert false;
    }
    if |d2| < |d1| {
      assert false;
    }
    assert d1 == s[..|d1|] == d2;
  }

  /** An integer as a template literal renders it: a minus sign for negative values. */
  function IntToString(i: int): string {
    if i < 0 then "-" + NatToString(-i) else NatToString(i)
  }
}
