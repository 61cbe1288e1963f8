/** The string methods the client pages use (`toLowerCase`, `toUpperCase`, `includes`,
    `startsWith`, `split(' ')`, `charAt(0)`, `toString`, `parseInt`), restricted to ASCII
    case mapping. */
module Text {
  import opened Wrappers

  // ---------------------------------------------------------------------------
  // ASCII case mapping
  // ---------------------------------------------------------------------------

  predicate IsUpperAscii(c: char) {
    'A' <= c <= 'Z'
  }

  predicate IsLowerAscii(c: char) {
    'a' <= c <= 'z'
  }

  function LowerChar(c: char): char {
    if IsUpperAscii(c) then (c as int + 32) as char else c
  }

  function UpperChar(c: char): char {
    if IsLowerAscii(c) then (c as int - 32) as char else c
  }

  /** `s.toLowerCase()` on ASCII letters: every position mapped, no upper-case letter left. */
  function Lower(s: string): (r: string)
    ensures |r| == |s|
    ensures forall i :: 0 <= i < |s| ==> r[i] == LowerChar(s[i])
    ensures forall i :: 0 <= i < |r| ==> !IsUpperAscii(r[i])
  {
    if s == [] then [] else [LowerChar(s[0])] + Lower(s[1..])
  }

  /** `s.toUpperCase()` on ASCII letters: every position mapped, no lower-case letter left. */
  function Upper(s: string): (r: string)
    ensures |r| == |s|
    ensures forall i :: 0 <= i < |s| ==> r[i] == UpperChar(s[i])
    ensures forall i :: 0 <= i < |r| ==> !IsLowerAscii(r[i])
  {
    if s == [] then [] else [UpperChar(s[0])] + Upper(s[1..])
  }

  /** Lower-casing twice is lower-casing once, so `Lower(s)` is a fixed point. */
  lemma LowerIdempotent(s: string)
    ensures Lower(Lower(s)) == Lower(s)
  {
    var l := Lower(s);
    assert forall i :: 0 <= i < |l| ==> Lower(l)[i] == LowerChar(l[i]) == l[i];
  }

  /** Two strings that differ only in the case of ASCII letters lower-case alike. */
  lemma LowerOfUpperAgrees(s: string)
    ensures Lower(Upper(s)) == Lower(s)
  {
    var u := Upper(s);
    assert forall i :: 0 <= i < |s| ==> Lower(u)[i] == LowerChar(UpperChar(s[i])) == LowerChar(s[i]);
  }

  // ---------------------------------------------------------------------------
  // startsWith / includes
  // ---------------------------------------------------------------------------

  /** `s.startsWith(p)`. */
  predicate StartsWith(s: string, p: string) {
    |p| <= |s| && s[..|p|] == p
  }

  /** `n` occurs in `h` at position `i`. */
  ghost predicate OccursAt(h: string, n: string, i: int) {
    0 <= i && i + |n| <= |h| && h[i..i + |n|] == n
  }

  /** `h.includes(n)`, scanning left to right. */
  predicate Contains(h: string, n: string)
    decreases |h|
  {
    StartsWith(h, n) || (h != [] && Contains(h[1..], n))
  }

  /** `includes` holds exactly when the needle occurs at some position. */
  lemma {:induction false} ContainsIsOccurrence(h: string, n: string)
    ensures Contains(h, n) <==> exists i :: OccursAt(h, n, i)
    decreases |h|
  {
    if h != [] {
      ContainsIsOccurrence(h[1..], n);
      if Contains(h[1..], n) {
        var i :| OccursAt(h[1..], n, i);
        assert h[1..][i..i + |n|] == h[i + 1..i + 1 + |n|];
        assert OccursAt(h, n, i + 1);
      }
      if i :| OccursAt(h, n, i) && i > 0 {
        assert h[1..][i - 1..i - 1 + |n|] == h[i..i + |n|];
        assert OccursAt(h[1..], n, i - 1);
      }
    }
    if StartsWith(h, n) {
      assert OccursAt(h, n, 0);
    }
  }

  /** Every string includes the empty string, so an empty search term matches everything. */
  lemma ContainsEmpty(h: string)
    ensures Contains(h, "")
  {
  }

  // ---------------------------------------------------------------------------
  // split(' ') / charAt(0) / join('')
  // ---------------------------------------------------------------------------

  /** `s.split(' ')`: the pieces between spaces, empty pieces included
      (`"".split(' ')` is `[""]`, `" a".split(' ')` is `["", "a"]`). */
  function Split(s: string): (r: seq<string>)
    ensures |r| >= 1
    ensures forall w :: w in r ==> ' ' !in w
  {
    if s == [] then [[]]
    else
      var rest := Split(s[1..]);
      if s[0] == ' ' then [[]] + rest else [[s[0]] + rest[0]] + rest[1..]
  }

  /** `words.map(w => w.charAt(0)).join('')`: an empty word contributes nothing. */
  function FirstChars(words: seq<string>): string {
    if words == [] then [] else (if words[0] == [] then [] else [words[0][0]]) + FirstChars(words[1..])
  }

  /** The characters of `s` that start a word: not a space, and first or after a space.
      `afterSpace` says whether the position before `s` counts as a word boundary. */
  function WordStarts(s: string, afterSpace: bool): string {
    if s == [] then []
    else (if s[0] != ' ' && afterSpace then [s[0]] else []) + WordStarts(s[1..], s[0] == ' ')
  }

  /** Joining the first characters of `split(' ')` gives exactly the word starts, in order;
      the first piece is the one that begins at a boundary. */
  lemma {:induction false} FirstCharsOfSplit(s: string)
    ensures FirstChars(Split(s)) == WordStarts(s, true)
    ensures FirstChars(Split(s)[1..]) == WordStarts(s, false)
  {
    if s != [] {
      FirstCharsOfSplit(s[1..]);
      var rest := Split(s[1..]);
      if s[0] == ' ' {
        assert Split(s) == [[]] + rest;
        assert Split(s)[1..] == rest;
      } else {
        var w := [s[0]] + rest[0];
        assert Split(s) == [w] + rest[1..];
        assert Split(s)[1..] == rest[1..];
        assert FirstChars([w] + rest[1..]) == [s[0]] + FirstChars(rest[1..]);
      }
    }
  }

  // ---------------------------------------------------------------------------
  // The search boxes' test
  // ---------------------------------------------------------------------------

  /** `text?.toLowerCase().includes(term.toLowerCase())`: a missing text matches nothing. */
  predicate MatchesText(text: Option<string>, term: string) {
    text.Some? && Contains(Lower(text.value), Lower(term))
  }

  /** The lower-cased term occurs somewhere in the lower-cased text, and the text is there. */
  ghost predicate OccursIn(text: Option<string>, term: string) {
    text.Some? && exists i :: OccursAt(Lower(text.value), Lower(term), i)
  }

  lemma MatchesTextIsOccurrence(text: Option<string>, term: string)
    ensures MatchesText(text, term) <==> OccursIn(text, term)
  {
    if text.Some? {
      ContainsIsOccurrence(Lower(text.value), Lower(term));
    }
  }

  // ---------------------------------------------------------------------------
  // toString on decimal integers, parseInt without a radix
  // ---------------------------------------------------------------------------

  predicate IsDigit(c: char) {
    '0' <= c <= '9'
  }

  function DigitChar(d: int): (c: char)
    requires 0 <= d < 10
    ensures IsDigit(c)
  {
    ('0' as int + d) as char
  }

  function DigitValue(c: char): (d: int)
    requires IsDigit(c)
    ensures 0 <= d < 10
  {
    c as int - '0' as int
  }

  /** `n.toString()` for a natural number: decimal digits, no leading zero. */
  function NatToString(n: nat): (s: string)
    ensures |s| >= 1
    ensures forall i :: 0 <= i < |s| ==> IsDigit(s[i])
  {
    if n < 10 then [DigitChar(n)] else NatToString(n / 10) + [DigitChar(n % 10)]
  }

  /** `n.toString()` for an integer: a minus sign before the digits of a negative number. */
  function IntToString(n: int): string {
    if n < 0 then "-" + NatToString(-n) else NatToString(n)
  }

  /** A digit of base `radix`: '0' to '9', and in base 16 also 'a' to 'f' in either case. */
  predicate IsDigitIn(c: char, radix: nat) {
    IsDigit(c) || (radix == 16 && ('a' <= c <= 'f' || 'A' <= c <= 'F'))
  }

  function DigitValueIn(c: char, radix: nat): (d: nat)
    requires IsDigitIn(c, radix)
    ensures d < 16 && (radix != 16 ==> d < 10)
    ensures IsDigit(c) ==> d == DigitValue(c)
  {
    if IsDigit(c) then DigitValue(c)
    else if 'a' <= c <= 'f' then c as int - 'a' as int + 10
    else c as int - 'A' as int + 10
  }

  /** The value of a string of digits of base `radix`. */
  function DigitsValue(s: string, radix: nat): nat
    requires forall i :: 0 <= i < |s| ==> IsDigitIn(s[i], radix)
  {
    if s == [] then 0 else radix * DigitsValue(s[..|s| - 1], radix) + DigitValueIn(s[|s| - 1], radix)
  }

  /** The longest prefix of `s` made of digits of base `radix`. */
  function LeadingDigits(s: string, radix: nat): (r: string)
    ensures |r| <= |s| && r == s[..|r|]
    ensures forall i :: 0 <= i < |r| ==> IsDigitIn(r[i], radix)
    ensures |r| < |s| ==> !IsDigitIn(s[|r|], radix)
  {
    if s == [] || !IsDigitIn(s[0], radix) then [] else [s[0]] + LeadingDigits(s[1..], radix)
  }

  /** The text after an optional leading sign. */
  function Unsigned(s: string): (u: string)
    ensures u == s || (s != [] && (s[0] == '-' || s[0] == '+') && u == s[1..])
  {
    if s != [] && (s[0] == '-' || s[0] == '+') then s[1..] else s
  }

  /** A `0x` or `0X` prefix, which makes `parseInt` without a radix read base 16. */
  predicate HexPrefixed(u: string) {
    |u| >= 2 && u[0] == '0' && (u[1] == 'x' || u[1] == 'X')
  }

  /** `parseInt(s)` with no radix: an optional sign; then, after a `0x` or `0X` prefix, the
      longest run of hexadecimal digits, and otherwise the longest run of decimal digits.
      `None` stands for NaN (no digit). Leading white space, which `parseInt` skips, is not
      modelled. */
  function ParseInt(s: string): (r: Option<int>)
    ensures !HexPrefixed(Unsigned(s)) ==> (r.Some? <==> Unsigned(s) != [] && IsDigit(Unsigned(s)[0]))
    ensures HexPrefixed(Unsigned(s)) ==> (r.Some? <==> |Unsigned(s)| > 2 && IsDigitIn(Unsigned(s)[2], 16))
    ensures r.Some? && r.value < 0 ==> s[0] == '-'
  {
    var u := Unsigned(s);
    var radix: nat := if HexPrefixed(u) then 16 else 10;
    var digits := LeadingDigits(if HexPrefixed(u) then u[2..] else u, radix);
    if digits == [] then None
    else
      var magnitude: int := DigitsValue(digits, radix);
      Some(if s != [] && s[0] == '-' then -magnitude else magnitude)
  }

  lemma {:induction false} DigitsOfNatToString(n: nat)
    ensures DigitsValue(NatToString(n), 10) == n
  {
    var s := NatToString(n);
    if n >= 10 {
      DigitsOfNatToString(n / 10);
      assert s[..|s| - 1] == NatToString(n / 10);
    }
  }

  lemma LeadingDigitsOfDigits(s: string)
    requires forall i :: 0 <= i < |s| ==> IsDigit(s[i])
    ensures LeadingDigits(s, 10) == s
  {
    if s != [] {
      LeadingDigitsOfDigits(s[1..]);
    }
  }

  /** `parseInt(n.toString())` gives `n` back, for every integer: a printed integer never
      carries the hexadecimal prefix. */
  lemma ParseIntOfIntToString(n: int)
    ensures ParseInt(IntToString(n)) == Some(n)
  {
    var digits := NatToString(if n < 0 then -n else n);
    LeadingDigitsOfDigits(digits);
    DigitsOfNatToString(if n < 0 then -n else n);
    assert !HexPrefixed(digits) by {
      if |digits| >= 2 {
        assert IsDigit(digits[1]);
      }
    }
    if n < 0 {
      assert ("-" + digits)[1..] == digits;
    } else {
      assert digits[0] != '-' && digits[0] != '+';
    }
  }

  /** A `0x` or `0X` prefix reads the rest as hexadecimal, after either sign. */
  lemma ParseIntReadsHexPrefix()
    ensures ParseInt("0x1f") == Some(31)
    ensures ParseInt("-0X1F") == Some(-31)
  {
    HexValueOf1F("1f");
    HexValueOf1F("1F");
    assert Unsigned("0x1f") == "0x1f" && HexPrefixed("0x1f") && "0x1f"[2..] == "1f";
    assert Unsigned("-0X1F") == "0X1F" && HexPrefixed("0X1F") && "0X1F"[2..] == "1F";
  }

  /** A prefix with no hexadecimal digit after it is NaN, as is text that starts with none. */
  lemma ParseIntNeedsADigit()
    ensures ParseInt("0xZ") == None
    ensures ParseInt("x1") == None
  {
    assert Unsigned("0xZ") == "0xZ" && HexPrefixed("0xZ") && "0xZ"[2..] == "Z";
    assert LeadingDigits("Z", 16) == "";
    assert Unsigned("x1") == "x1" && !HexPrefixed("x1");
    assert LeadingDigits("x1", 10) == "";
  }

  /** Reading stops at the first character that is not a digit. */
  lemma ParseIntStopsAtNonDigit()
    ensures ParseInt("12ab") == Some(12)
  {
    assert Unsigned("12ab") == "12ab" && !HexPrefixed("12ab");
    assert LeadingDigits("12ab", 10) == "12" by {
      assert "12ab"[1..] == "2ab";
      assert "2ab"[1..] == "ab";
      assert LeadingDigits("ab", 10) == "";
    }
    assert DigitsValue("12", 10) == 12 by {
      assert "12"[..1] == "1";
      assert "1"[..0] == "";
    }
  }

  /** "1f" and "1F" in base 16 are the digits and the value 31. */
  lemma HexValueOf1F(s: string)
    requires s == "1f" || s == "1F"
    ensures LeadingDigits(s, 16) == s && DigitsValue(s, 16) == 31
  {
    assert s[1..] == [s[1]];
    assert LeadingDigits([s[1]], 16) == [s[1]] by {
      assert [s[1]][1..] == "";
    }
    assert s[..1] == "1";
    assert "1"[..0] == "";
  }
}
