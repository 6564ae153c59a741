/**
 * The handful of Python 2 `str` operations the modelled code relies on:
 * `split`, `join`, `strip`, `startswith`/`endswith`, `in` on strings,
 * `upper`/`lower`, `int(s)` and `%d`. Python 2 strings are byte strings, so
 * case mapping and whitespace are the ASCII ones.
 */
module Strings {
  import opened Wrappers

  // ---------------------------------------------------------------------------
  // Prefixes, suffixes and substrings
  // ---------------------------------------------------------------------------

  /** `s.startswith(p)` */
  predicate StartsWith(s: string, p: string) {
    p <= s
  }

  /** `s.endswith(p)` */
  predicate EndsWith(s: string, p: string) {
    |p| <= |s| && s[|s| - |p|..] == p
  }

  /** `sub` occurs in `s` starting at index `k`. */
  predicate OccursAt(sub: string, s: string, k: int) {
    0 <= k && k + |sub| <= |s| && s[k..k + |sub|] == sub
  }

  lemma OccursAtTail(sub: string, s: string, k: int)
    requires s != [] && k >= 0
    ensures OccursAt(sub, s[1..], k) <==> OccursAt(sub, s, k + 1)
  {
    if 0 <= k && k + |sub| <= |s| - 1 {
      assert s[1..][k..k + |sub|] == s[k + 1..k + 1 + |sub|];
    }
  }

  /** `sub in s`: `sub` occurs somewhere in `s` (the empty string occurs everywhere). */
  predicate IsSubstring(sub: string, s: string)
    ensures IsSubstring(sub, s) <==> exists k :: OccursAt(sub, s, k)
    decreases |s|
  {
    if sub <= s then
      assert OccursAt(sub, s, 0);
      true
    else if s == [] then
      assert forall k :: !OccursAt(sub, s, k);
      false
    else
      var r := IsSubstring(sub, s[1..]);
      assert r ==> exists k :: OccursAt(sub, s, k) by {
        if r {
          var k :| OccursAt(sub, s[1..], k);
          OccursAtTail(sub, s, k);
        }
      }
      assert (exists k :: OccursAt(sub, s, k)) ==> r by {
        if exists k :: OccursAt(sub, s, k) {
          var k :| OccursAt(sub, s, k);
          assert k != 0;
          OccursAtTail(sub, s, k - 1);
        }
      }
      r
  }

  // ---------------------------------------------------------------------------
  // split and join
  // ---------------------------------------------------------------------------

  /**
   * `s.split(sep)` for a one-character separator: the pieces between
   * consecutive separators, so there is always one more piece than there are
   * separators, and `"".split(",") == [""]`.
   */
  function Split(s: string, sep: char): (r: seq<string>)
    ensures |r| >= 1
    ensures forall i :: 0 <= i < |r| ==> sep !in r[i]
    ensures |r| == 1 <==> sep !in s
    decreases |s|
  {
    if s == [] then [[]]
    else
      var rest := Split(s[1..], sep);
      if s[0] == sep then [[]] + rest
      else [[s[0]] + rest[0]] + rest[1..]
  }

  /** `sep.join(pieces)` */
  function Join(pieces: seq<string>, sep: string): string
    decreases |pieces|
  {
    if |pieces| == 0 then ""
    else if |pieces| == 1 then pieces[0]
    else pieces[0] + sep + Join(pieces[1..], sep)
  }

  /** Joining the pieces of a split with the same separator gives back the string. */
  lemma {:induction false} JoinSplit(s: string, sep: char)
    ensures Join(Split(s, sep), [sep]) == s
    decreases |s|
  {
    if s != [] {
      JoinSplit(s[1..], sep);
      if s[0] == sep {
        JoinSplitAtSeparator(s, sep);
      } else {
        JoinSplitAtChar(s, sep);
      }
    }
  }

  /** The step of JoinSplit for a string that starts with the separator. */
  lemma {:induction false} JoinSplitAtSeparator(s: string, sep: char)
    requires s != [] && s[0] == sep
    requires Join(Split(s[1..], sep), [sep]) == s[1..]
    ensures Join(Split(s, sep), [sep]) == s
  {
    var rest := Split(s[1..], sep);
    assert Split(s, sep) == [[]] + rest;
    assert ([[]] + rest)[1..] == rest;
    assert Join([[]] + rest, [sep]) == [] + [sep] + Join(rest, [sep]);
    assert s == [s[0]] + s[1..];
  }

  /** The step of JoinSplit for a string that starts with any other character. */
  lemma {:induction false} JoinSplitAtChar(s: string, sep: char)
    requires s != [] && s[0] != sep
    requires Join(Split(s[1..], sep), [sep]) == s[1..]
    ensures Join(Split(s, sep), [sep]) == s
  {
    var rest := Split(s[1..], sep);
    assert Split(s, sep) == [[s[0]] + rest[0]] + rest[1..];
    JoinExtendFirst(s[0], rest, [sep]);
    assert s == [s[0]] + s[1..];
  }

  /** Putting a character in front of the first piece puts it in front of the join. */
  lemma {:induction false} JoinExtendFirst(c: char, pieces: seq<string>, sep: string)
    requires |pieces| >= 1
    ensures Join([[c] + pieces[0]] + pieces[1..], sep) == [c] + Join(pieces, sep)
  {
    var r := [[c] + pieces[0]] + pieces[1..];
    if |pieces| > 1 {
      assert r[1..] == pieces[1..];
      assert Join(r, sep) == [c] + pieces[0] + sep + Join(pieces[1..], sep);
    }
  }

  /** A string free of the separator splits into itself alone. */
  lemma SplitWithoutSeparator(s: string, sep: char)
    requires sep !in s
    ensures Split(s, sep) == [s]
  {
    JoinSplit(s, sep);
  }

  /** Splitting `x + sep + y`, where `x` has no separator, yields `x` and then the pieces of `y`. */
  lemma {:induction false} SplitAfterPiece(x: string, y: string, sep: char)
    requires sep !in x
    ensures Split(x + [sep] + y, sep) == [x] + Split(y, sep)
    decreases |x|
  {
    var s := x + [sep] + y;
    if x == [] {
      assert s[1..] == y;
    } else {
      assert s[1..] == x[1..] + [sep] + y;
      SplitAfterPiece(x[1..], y, sep);
      assert x == [x[0]] + x[1..];
    }
  }

  /** Splitting the join of separator-free pieces gives back the pieces. */
  lemma {:induction false} SplitJoin(pieces: seq<string>, sep: char)
    requires |pieces| >= 1
    requires forall i :: 0 <= i < |pieces| ==> sep !in pieces[i]
    ensures Split(Join(pieces, [sep]), sep) == pieces
    decreases |pieces|
  {
    if |pieces| == 1 {
      SplitWithoutSeparator(pieces[0], sep);
    } else {
      SplitJoin(pieces[1..], sep);
      SplitAfterPiece(pieces[0], Join(pieces[1..], [sep]), sep);
      assert pieces == [pieces[0]] + pieces[1..];
    }
  }

  // ---------------------------------------------------------------------------
  // strip
  // ---------------------------------------------------------------------------

  /** The characters Python 2's `str.strip()` removes. */
  predicate IsSpace(c: char) {
    c == ' ' || c == '\t' || c == '\n' || c == '\r' || c == '\U{0B}' || c == '\U{0C}'
  }

  /** The string neither begins nor ends with whitespace. */
  predicate Trimmed(s: string) {
    s == [] || (!IsSpace(s[0]) && !IsSpace(s[|s| - 1]))
  }

  /** `s.lstrip()`: a suffix of `s` that does not begin with whitespace. */
  function TrimStart(s: string): (r: string)
    ensures |r| <= |s|
    ensures r == [] || !IsSpace(r[0])
    decreases |s|
  {
    if s != [] && IsSpace(s[0]) then TrimStart(s[1..]) else s
  }

  /** What `lstrip()` keeps is the end of `s`, and what it drops is all whitespace. */
  lemma {:induction false} TrimStartDropsBlanks(s: string)
    ensures TrimStart(s) == s[|s| - |TrimStart(s)|..]
    ensures forall k :: 0 <= k < |s| - |TrimStart(s)| ==> IsSpace(s[k])
    decreases |s|
  {
    if s != [] && IsSpace(s[0]) {
      TrimStartDropsBlanks(s[1..]);
      forall k | 1 <= k < |s| - |TrimStart(s)| ensures IsSpace(s[k]) {
        assert s[k] == s[1..][k - 1];
      }
    }
  }

  /** `s.rstrip()`: a prefix of `s` that does not end with whitespace. */
  function TrimEnd(s: string): (r: string)
    ensures |r| <= |s| && r == s[..|r|]
    ensures r == [] || !IsSpace(r[|r| - 1])
    decreases |s|
  {
    if s != [] && IsSpace(s[|s| - 1]) then TrimEnd(s[..|s| - 1]) else s
  }

  /** What `rstrip()` drops is all whitespace. */
  lemma {:induction false} TrimEndDropsBlanks(s: string)
    ensures forall k :: |TrimEnd(s)| <= k < |s| ==> IsSpace(s[k])
    decreases |s|
  {
    if s != [] && IsSpace(s[|s| - 1]) {
      TrimEndDropsBlanks(s[..|s| - 1]);
    }
  }

  /**
   * `s.strip()`: the result is the middle of `s` left when the whitespace at
   * both ends is removed; it has no whitespace at either end.
   */
  function Strip(s: string): (r: string)
    ensures Trimmed(r)
    ensures Trimmed(s) ==> r == s
    ensures exists k :: StrippedAt(r, s, k)
  {
    var t := TrimStart(s);
    var r := TrimEnd(t);
    TrimStartDropsBlanks(s);
    TrimEndDropsBlanks(t);
    assert OccursAt(r, s, |s| - |t|);
    assert StrippedAt(r, s, |s| - |t|);
    r
  }

  /** `r` occurs in `s` at `k` with nothing but whitespace before and after it. */
  predicate StrippedAt(r: string, s: string, k: int) {
    && OccursAt(r, s, k)
    && (forall j :: 0 <= j < k ==> IsSpace(s[j]))
    && (forall j :: k + |r| <= j < |s| ==> IsSpace(s[j]))
  }

  /** The contract of Strip pins its result: only one trimmed string sits in `s` between whitespace. */
  lemma StripUnique(r: string, s: string, k: int)
    requires Trimmed(r) && StrippedAt(r, s, k)
    ensures r == Strip(s)
  {
    var q := Strip(s);
    var m :| StrippedAt(q, s, m);
    if r != [] && q != [] {
      assert !IsSpace(s[k]) && !IsSpace(s[m]);
      assert k == m;
      assert !IsSpace(s[k + |r| - 1]) && !IsSpace(s[m + |q| - 1]);
      assert |r| == |q|;
    }
  }

  // ---------------------------------------------------------------------------
  // Case mapping
  // ---------------------------------------------------------------------------

  function UpperChar(c: char): char {
    if 'a' <= c <= 'z' then (c as int - 'a' as int + 'A' as int) as char else c
  }

  function LowerChar(c: char): char {
    if 'A' <= c <= 'Z' then (c as int - 'A' as int + 'a' as int) as char else c
  }

  /** `s.upper()` */
  function Upper(s: string): (r: string)
    ensures |r| == |s| && forall i :: 0 <= i < |s| ==> r[i] == UpperChar(s[i])
  {
    seq(|s|, i requires 0 <= i < |s| => UpperChar(s[i]))
  }

  /** `s.lower()` */
  function Lower(s: string): (r: string)
    ensures |r| == |s| && forall i :: 0 <= i < |s| ==> r[i] == LowerChar(s[i])
  {
    seq(|s|, i requires 0 <= i < |s| => LowerChar(s[i]))
  }

  // ---------------------------------------------------------------------------
  // Decimal integers: `%d` and `int(s)`
  // ---------------------------------------------------------------------------

  predicate IsDigit(c: char) {
    '0' <= c <= '9'
  }

  predicate AllDigits(s: string) {
    forall i :: 0 <= i < |s| ==> IsDigit(s[i])
  }

  function DigitChar(d: nat): (c: char)
    requires d < 10
    ensures IsDigit(c) && c as int - '0' as int == d
  {
    ('0' as int + d) as char
  }

  /** The number written by a string of decimal digits. */
  function DigitsValue(s: string): nat
    requires AllDigits(s)
    decreases |s|
  {
    if s == [] then 0 else DigitsValue(s[..|s| - 1]) * 10 + (s[|s| - 1] as int - '0' as int)
  }

  /** `'%d' % n` for a non-negative `n`: its decimal digits, without leading zeros. */
  function NatToString(n: nat): (r: string)
    ensures |r| >= 1 && AllDigits(r)
    ensures |r| > 1 ==> r[0] != '0'
    decreases n
  {
    if n < 10 then [DigitChar(n)] else NatToString(n / 10) + [DigitChar(n % 10)]
  }

  /** `'%d' % i` */
  function IntToString(i: int): (r: string)
    ensures |r| >= 1 && Trimmed(r)
  {
    if i < 0 then "-" + NatToString(-i) else NatToString(i)
  }

  /**
   * `int(s)` for a string in base 10: surrounding whitespace, an optional sign
   * (which Python 2 may separate from the digits by whitespace) and at least
   * one digit. None where Python raises ValueError.
   */
  function ParseInt(s: string): Option<int> {
    ParseSigned(Strip(s))
  }

  /** `int(t)` for a string already stripped of surrounding whitespace. */
  function ParseSigned(t: string): Option<int> {
    if t == [] then None
    else if t[0] == '-' || t[0] == '+' then
      var digits := TrimStart(t[1..]);
      if digits != [] && AllDigits(digits) then
        var v: int := DigitsValue(digits);
        Some(if t[0] == '-' then -v else v)
      else None
    else if AllDigits(t) then Some(DigitsValue(t))
    else None
  }

  lemma {:induction false} DigitsValueOfNatToString(n: nat)
    ensures DigitsValue(NatToString(n)) == n
    decreases n
  {
    if n >= 10 {
      DigitsValueOfNatToString(n / 10);
      var r := NatToString(n);
      assert r[..|r| - 1] == NatToString(n / 10);
    }
  }

  lemma ParseSignedOfNatToString(n: nat)
    ensures ParseSigned(NatToString(n)) == Some(n)
  {
    var d := NatToString(n);
    DigitsValueOfNatToString(n);
    assert IsDigit(d[0]);
  }

  lemma ParseSignedOfNegative(n: nat)
    requires n > 0
    ensures ParseSigned("-" + NatToString(n)) == Some(-(n as int))
  {
    var d := NatToString(n);
    DigitsValueOfNatToString(n);
    var r := "-" + d;
    assert r[1..] == d;
    assert !IsSpace(d[0]);
    assert TrimStart(d) == d;
    assert ParseSigned(r) == Some(-(DigitsValue(d) as int));
  }

  /**
   * Blanks between the sign and the digits are skipped: `int("+ 5") == 5`,
   * `int("- 5") == -5`.
   */
  lemma {:induction false} ParseIntSignThenBlanks(sign: char, blanks: string, d: string)
    requires sign == '+' || sign == '-'
    requires forall k :: 0 <= k < |blanks| ==> IsSpace(blanks[k])
    requires d != [] && AllDigits(d)
    ensures ParseInt([sign] + blanks + d) == Some(if sign == '-' then -(DigitsValue(d) as int) else DigitsValue(d) as int)
  {
    var rest := blanks + d;
    assert [sign] + blanks + d == [sign] + rest;
    assert IsDigit(d[0]);
    TrimStartPastBlanks(blanks, d);
    ParseSignedAfterSign(sign, rest);
    assert rest[|rest| - 1] == d[|d| - 1] && IsDigit(d[|d| - 1]);
    SignedTrimmed(sign, rest);
    ParseIntOfTrimmed([sign] + rest);
  }

  /** After a sign, `int` skips the blanks and reads the digits. */
  lemma {:induction false} ParseSignedAfterSign(sign: char, rest: string)
    requires sign == '+' || sign == '-'
    requires TrimStart(rest) != [] && AllDigits(TrimStart(rest))
    ensures var v: int := DigitsValue(TrimStart(rest));
      ParseSigned([sign] + rest) == Some(if sign == '-' then -v else v)
  {
    assert ([sign] + rest)[1..] == rest;
  }

  /** A sign followed by a string ending in a non-blank has no surrounding whitespace. */
  lemma SignedTrimmed(sign: char, rest: string)
    requires sign == '+' || sign == '-'
    requires rest != [] && !IsSpace(rest[|rest| - 1])
    ensures Trimmed([sign] + rest)
  {
    assert ([sign] + rest)[|rest|] == rest[|rest| - 1];
  }

  /** `int` of a string with no surrounding whitespace reads it as it is. */
  lemma ParseIntOfTrimmed(t: string)
    requires Trimmed(t)
    ensures ParseInt(t) == ParseSigned(t)
  {
  }

  /** TrimStart drops exactly a run of blanks in front of a non-blank. */
  lemma {:induction false} TrimStartPastBlanks(blanks: string, d: string)
    requires forall k :: 0 <= k < |blanks| ==> IsSpace(blanks[k])
    requires d != [] && !IsSpace(d[0])
    ensures TrimStart(blanks + d) == d
    decreases |blanks|
  {
    if blanks != [] {
      assert (blanks + d)[1..] == blanks[1..] + d;
      TrimStartPastBlanks(blanks[1..], d);
    } else {
      assert blanks + d == d;
    }
  }

  /** `int('%d' % i) == i`: the two conversions are inverse. */
  lemma ParseIntOfIntToString(i: int)
    ensures ParseInt(IntToString(i)) == Some(i)
  {
    var r := IntToString(i);
    assert Strip(r) == r;
    assert ParseInt(r) == ParseSigned(r);
    if i < 0 {
      var n: nat := -i;
      assert r == "-" + NatToString(n);
      ParseSignedOfNegative(n);
    } else {
      assert r == NatToString(i);
      ParseSignedOfNatToString(i);
    }
  }
}
