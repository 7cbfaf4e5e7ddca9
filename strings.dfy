/**
 * The few Python `str` operations the modelled code relies on, over `seq<char>`:
 * `isspace`, `strip`, `lower`, `startswith`, the `in` substring test, `partition`,
 * `splitlines`, `str(int)` and `int(str)` in base 10.
 */
module Strings {
  import opened Wrappers

  /** `c.isspace()`; the same set is what `\s` matches in a `str` regular expression. */
  predicate IsSpace(c: char) {
    || c == ' '
    || ('\t' <= c <= '\r')
    || ('\U{1C}' <= c <= '\U{1F}')
    || c == '\U{85}' || c == '\U{A0}' || c == '\U{1680}'
    || ('\U{2000}' <= c <= '\U{200A}')
    || c == '\U{2028}' || c == '\U{2029}' || c == '\U{202F}' || c == '\U{205F}' || c == '\U{3000}'
  }

  /** The characters at which `str.splitlines()` ends a line. */
  predicate IsLineBreak(c: char) {
    || c == '\n' || c == '\r' || c == '\U{0B}' || c == '\U{0C}'
    || c == '\U{1C}' || c == '\U{1D}' || c == '\U{1E}'
    || c == '\U{85}' || c == '\U{2028}' || c == '\U{2029}'
  }

  predicate NoLineBreak(s: string) {
    forall k :: 0 <= k < |s| ==> !IsLineBreak(s[k])
  }

  // ---------------------------------------------------------------- strip

  /** `s.lstrip()`: what is left after dropping leading whitespace, a suffix of `s`. */
  function LStrip(s: string): (r: string)
    ensures |r| <= |s| && r == s[|s| - |r|..]
    ensures r == [] || !IsSpace(r[0])
    ensures forall k :: 0 <= k < |s| - |r| ==> IsSpace(s[k])
  {
    if s != [] && IsSpace(s[0]) then LStrip(s[1..]) else s
  }

  /** `s.rstrip()`: what is left after dropping trailing whitespace, a prefix of `s`. */
  function RStrip(s: string): (r: string)
    ensures |r| <= |s| && r == s[..|r|]
    ensures r == [] || !IsSpace(r[|r| - 1])
    ensures forall k :: |r| <= k < |s| ==> IsSpace(s[k])
  {
    if s != [] && IsSpace(s[|s| - 1]) then RStrip(s[..|s| - 1]) else s
  }

  /** `s.strip()`: no whitespace at either end, and never longer than `s`. */
  function Strip(s: string): (r: string)
    ensures IsStripped(r) && |r| <= |s|
  {
    var l := LStrip(s);
    var r := RStrip(l);
    assert r != [] ==> r[0] == l[0];
    r
  }

  /** `s.strip()` is empty exactly when `s` is all whitespace. */
  lemma StripEmpty(s: string)
    ensures Strip(s) == [] <==> forall k :: 0 <= k < |s| ==> IsSpace(s[k])
  {
    var l := LStrip(s);
    if l != [] {
      assert RStrip(l) != [] by {
        assert !IsSpace(l[0]);
      }
    }
  }

  /** A string is its own strip exactly when it is empty or neither end is whitespace. */
  predicate IsStripped(s: string) {
    s == [] || (!IsSpace(s[0]) && !IsSpace(s[|s| - 1]))
  }

  /** The strip is a contiguous piece of the input: it adds no character. */
  lemma StripIsInfix(s: string)
    ensures exists i, j :: 0 <= i <= j <= |s| && Strip(s) == s[i..j]
  {
    var l := LStrip(s);
    var i := |s| - |l|;
    assert Strip(s) == s[i..i + |RStrip(l)|];
  }

  lemma StripChars(s: string)
    ensures forall k :: 0 <= k < |Strip(s)| ==> Strip(s)[k] in s
  {
    StripIsInfix(s);
    var i, j :| 0 <= i <= j <= |s| && Strip(s) == s[i..j];
    forall k | 0 <= k < |Strip(s)| ensures Strip(s)[k] in s {
      assert Strip(s)[k] == s[i + k];
    }
  }

  /** `strip()` leaves no whitespace at either end, and leaves alone exactly the stripped strings. */
  lemma StripCharacterised(s: string)
    ensures IsStripped(Strip(s))
    ensures Strip(s) == s <==> IsStripped(s)
  {
    var l := LStrip(s);
    var r := RStrip(l);
    if r != [] {
      assert r[0] == l[0];
    }
    if IsStripped(s) && s != [] {
      assert l == s;
      assert r == l;
    }
  }

  /** Stripping twice is stripping once. */
  lemma StripIdempotent(s: string)
    ensures Strip(Strip(s)) == Strip(s)
  {
    StripCharacterised(s);
    StripCharacterised(Strip(s));
  }

  // ---------------------------------------------------------------- lower, startswith, in

  /**
   * One character of `str.lower()`. ASCII capitals and the Kelvin sign lower to ASCII; every
   * other character is kept, which decides the same equalities and containments with the
   * all-ASCII words this model compares against.
   */
  function LowerChar(c: char): (r: char)
    ensures 'A' <= c <= 'Z' ==> r as int == c as int + 32
    ensures !('A' <= c <= 'Z') && c != '\U{212A}' ==> r == c
  {
    if 'A' <= c <= 'Z' then (c as int + 32) as char
    else if c == '\U{212A}' then 'k'
    else c
  }

  function Lower(s: string): (r: string)
    ensures |r| == |s|
    ensures forall k :: 0 <= k < |s| ==> r[k] == LowerChar(s[k])
  {
    seq(|s|, k requires 0 <= k < |s| => LowerChar(s[k]))
  }

  /** `s.startswith(p)`. */
  predicate StartsWith(s: string, p: string) {
    |p| <= |s| && s[..|p|] == p
  }

  /** `w in s` for strings: `s` starts with `w`, or its tail contains it. */
  predicate Contains(s: string, w: string)
    decreases |s|
  {
    StartsWith(s, w) || (s != [] && Contains(s[1..], w))
  }

  /** `w` stands at `s[i..]`. */
  predicate OccursAt(s: string, w: string, i: nat) {
    i + |w| <= |s| && s[i..i + |w|] == w
  }

  /** `w in s` holds exactly when `w` stands somewhere in `s`. */
  lemma {:induction false} ContainsOccurs(s: string, w: string)
    ensures Contains(s, w) <==> exists i :: 0 <= i <= |s| - |w| && OccursAt(s, w, i)
    decreases |s|
  {
    if |w| <= |s| {
      assert s[0..|w|] == s[..|w|];
    }
    if StartsWith(s, w) {
      assert OccursAt(s, w, 0);
    }
    if s != [] {
      ContainsOccurs(s[1..], w);
      if Contains(s[1..], w) {
        var i :| 0 <= i <= |s[1..]| - |w| && OccursAt(s[1..], w, i);
        assert s[i + 1..i + 1 + |w|] == s[1..][i..i + |w|];
        assert OccursAt(s, w, i + 1);
      }
      if !Contains(s, w) {
        forall i | 0 <= i <= |s| - |w| ensures !OccursAt(s, w, i) {
          if i > 0 {
            assert s[i..i + |w|] == s[1..][i - 1..i - 1 + |w|];
            assert !OccursAt(s[1..], w, i - 1);
          }
        }
      }
    }
  }

  // ---------------------------------------------------------------- partition

  /** `s.find(c)`, with "not found" given as `|s|`. */
  function IndexOf(s: string, c: char): (i: nat)
    ensures i <= |s|
    ensures i < |s| ==> s[i] == c
    ensures forall k :: 0 <= k < i ==> s[k] != c
  {
    if s == [] || s[0] == c then 0 else 1 + IndexOf(s[1..], c)
  }

  /**
   * `head, sep, tail = s.partition(c)`: split at the first `c`; without one, the whole
   * string is the head and the tail is empty.
   */
  function Partition(s: string, c: char): (r: (string, string))
    ensures c !in r.0
    ensures c in s ==> r.0 + [c] + r.1 == s
    ensures c !in s ==> r.0 == s && r.1 == []
  {
    var i := IndexOf(s, c);
    if i == |s| then (s, []) else (s[..i], s[i + 1..])
  }

  // ---------------------------------------------------------------- splitlines

  function FirstLineBreak(s: string): (i: nat)
    ensures i <= |s|
    ensures i < |s| ==> IsLineBreak(s[i])
    ensures forall k :: 0 <= k < i ==> !IsLineBreak(s[k])
  {
    if s == [] || IsLineBreak(s[0]) then 0 else 1 + FirstLineBreak(s[1..])
  }

  /**
   * `s.splitlines()`: the pieces between line breaks, `\r\n` counting as one break; a
   * final break does not start another (empty) line.
   */
  function SplitLines(s: string): (lines: seq<string>)
    ensures forall k :: 0 <= k < |lines| ==> NoLineBreak(lines[k])
    decreases |s|
  {
    if s == [] then []
    else
      var i := FirstLineBreak(s);
      if i == |s| then [s]
      else
        var next := if s[i] == '\r' && i + 1 < |s| && s[i + 1] == '\n' then i + 2 else i + 1;
        [s[..i]] + SplitLines(s[next..])
  }

  /** A line without breaks followed by `\n` is one line of `splitlines()`. */
  lemma SplitLinesCons(line: string, rest: string)
    requires NoLineBreak(line)
    ensures SplitLines(line + "\n" + rest) == [line] + SplitLines(rest)
  {
    var s := line + "\n" + rest;
    assert s[|line|] == '\n';
    assert s[..|line|] == line;
    var i := FirstLineBreak(s);
    assert i == |line|;
    assert s[..i] == line;
    assert s[i + 1..] == rest;
  }

  // ---------------------------------------------------------------- str(int), int(str)

  predicate IsDigit(c: char) {
    '0' <= c <= '9'
  }

  function DigitChar(d: nat): (c: char)
    requires d < 10
    ensures IsDigit(c) && c as int - '0' as int == d
  {
    ('0' as int + d) as char
  }

  /** `str(n)` for `n >= 0`: decimal digits, most significant first, no leading zero. */
  function NatToString(n: nat): (s: string)
    ensures s != [] && forall k :: 0 <= k < |s| ==> IsDigit(s[k])
    decreases n
  {
    if n < 10 then [DigitChar(n)] else NatToString(n / 10) + [DigitChar(n % 10)]
  }

  /** `str(n)`: decimal digits, preceded by `-` exactly when `n` is negative. */
  function IntToString(n: int): (s: string)
    ensures s != [] && (s[0] == '-' <==> n < 0)
    ensures forall k :: 0 < k < |s| ==> IsDigit(s[k])
    ensures n >= 0 ==> IsDigit(s[0])
  {
    if n < 0 then
      var d := NatToString(-n);
      assert forall k :: 0 < k < |d| + 1 ==> ("-" + d)[k] == d[k - 1];
      "-" + d
    else NatToString(n)
  }

  /**
   * The digit part `int()` accepts in base 10: ASCII digits, where a single `_` may stand
   * between two digits.
   */
  predicate WellFormedDigits(s: string) {
    && s != []
    && IsDigit(s[0])
    && IsDigit(s[|s| - 1])
    && (forall k :: 0 <= k < |s| ==> IsDigit(s[k]) || s[k] == '_')
    && (forall k :: 0 < k < |s| - 1 && s[k] == '_' ==> IsDigit(s[k - 1]) && IsDigit(s[k + 1]))
  }

  /** The number the digits of `s` spell, underscores skipped. */
  function DigitsValue(s: string): nat {
    if s == [] then 0
    else if IsDigit(s[|s| - 1]) then DigitsValue(s[..|s| - 1]) * 10 + (s[|s| - 1] as int - '0' as int)
    else DigitsValue(s[..|s| - 1])
  }

  /**
   * `int(s)`: surrounding whitespace is ignored, then an optional sign and well-formed
   * digits; anything else is the `ValueError` case, `None` here.
   */
  function ParseInt(s: string): (r: Option<int>)
    ensures r.Some? ==> Strip(s) != []
    ensures r.Some? ==> forall k :: 0 < k < |Strip(s)| ==> IsDigit(Strip(s)[k]) || Strip(s)[k] == '_'
    ensures r.Some? && r.value < 0 ==> Strip(s)[0] == '-'
  {
    var t := Strip(s);
    var signed := |t| > 0 && (t[0] == '-' || t[0] == '+');
    var digits := if signed then t[1..] else t;
    if !WellFormedDigits(digits) then None
    else
      AcceptedShape(t, signed);
      var n: int := DigitsValue(digits);
      Some(if signed && t[0] == '-' then -n else n)
  }

  /** After an optional sign, accepted text holds only digits and underscores. */
  lemma AcceptedShape(t: string, signed: bool)
    requires signed ==> t != []
    requires WellFormedDigits(if signed then t[1..] else t)
    ensures forall k :: 0 < k < |t| ==> IsDigit(t[k]) || t[k] == '_'
  {
    if signed {
      var d := t[1..];
      forall k | 0 < k < |t| ensures IsDigit(t[k]) || t[k] == '_' {
        assert t[k] == d[k - 1];
      }
    }
  }

  lemma {:induction false} NatToStringValue(n: nat)
    ensures DigitsValue(NatToString(n)) == n
    decreases n
  {
    if n >= 10 {
      NatToStringValue(n / 10);
      var s := NatToString(n);
      assert s[..|s| - 1] == NatToString(n / 10);
    }
  }

  lemma NatToStringWellFormed(n: nat)
    ensures WellFormedDigits(NatToString(n))
  {
  }

  /** `int(str(n)) == n`. */
  lemma ParseIntOfIntToString(n: int)
    ensures ParseInt(IntToString(n)) == Some(n)
  {
    var s := IntToString(n);
    var m: nat := if n < 0 then -n else n;
    var d := NatToString(m);
    NatToStringValue(m);
    NatToStringWellFormed(m);
    assert n < 0 ==> s[1..] == d;
    assert IsStripped(s);
    StripCharacterised(s);
    assert Strip(s) == s;
  }

  /** The text of `str(n)` has no whitespace at either end and no line break. */
  lemma IntToStringShape(n: int)
    ensures IsStripped(IntToString(n)) && NoLineBreak(IntToString(n))
    ensures '\n' !in IntToString(n)
  {
    var s := IntToString(n);
    var d := NatToString(if n < 0 then -n else n);
    assert n < 0 ==> s == "-" + d;
    forall k | 0 <= k < |s| ensures !IsLineBreak(s[k]) && s[k] != '\n' {
      if n < 0 && k > 0 {
        assert s[k] == d[k - 1];
      }
    }
  }
}
