/**
 * The few Python string built-ins the bank wizard relies on, written out:
 * the substring test `a in b`, `str(n)` of a natural number, `int(s)` and
 * `s.split(c)`.
 */
module Text {
  import opened Wrappers

  /** `p` is a prefix of `s`. */
  predicate IsPrefix(p: string, s: string) {
    |p| <= |s| && s[..|p|] == p
  }

  /** Python's `needle in haystack` for two strings. */
  predicate IsSubstring(needle: string, haystack: string)
    decreases |haystack|
  {
    IsPrefix(needle, haystack) || (haystack != [] && IsSubstring(needle, haystack[1..]))
  }

  /** `needle` occurs in `haystack` starting at index `i`. */
  ghost predicate OccursAt(needle: string, haystack: string, i: int) {
    0 <= i && i + |needle| <= |haystack| && haystack[i..i + |needle|] == needle
  }

  /** The recursive substring test agrees with the positional definition. */
  lemma {:induction false} SubstringOccurs(needle: string, haystack: string)
    ensures IsSubstring(needle, haystack) <==> exists i :: OccursAt(needle, haystack, i)
    decreases |haystack|
  {
    if IsPrefix(needle, haystack) {
      assert OccursAt(needle, haystack, 0);
    } else if haystack != [] {
      var tail := haystack[1..];
      SubstringOccurs(needle, tail);
      if IsSubstring(needle, tail) {
        var i :| OccursAt(needle, tail, i);
        assert tail[i..i + |needle|] == haystack[i + 1..i + 1 + |needle|];
        assert OccursAt(needle, haystack, i + 1);
      }
      if i :| OccursAt(needle, haystack, i) {
        assert i != 0;
        assert tail[i - 1..i - 1 + |needle|] == haystack[i..i + |needle|];
        assert OccursAt(needle, tail, i - 1);
      }
    }
  }

  /** A text without the first character of a non-empty string does not contain that string. */
  lemma {:induction false} MissingHeadNoSubstring(needle: string, haystack: string)
    requires needle != [] && needle[0] !in haystack
    ensures !IsSubstring(needle, haystack)
    decreases |haystack|
  {
    if haystack != [] {
      if |needle| <= |haystack| {
        assert haystack[..|needle|][0] == haystack[0] != needle[0];
      }
      MissingHeadNoSubstring(needle, haystack[1..]);
    }
  }

  /** A string occurs in any text that embeds it. */
  lemma SubstringOfConcat(needle: string, before: string, after: string)
    ensures IsSubstring(needle, before + needle + after)
  {
    var h := before + needle + after;
    assert h[|before|..|before| + |needle|] == needle;
    assert OccursAt(needle, h, |before|);
    SubstringOccurs(needle, h);
  }

  /** Decimal digit `d` as a character. */
  function DigitChar(d: nat): (c: char)
    requires d < 10
    ensures '0' <= c <= '9' && c as int - '0' as int == d
  {
    ('0' as int + d) as char
  }

  predicate IsDigit(c: char) {
    '0' <= c <= '9'
  }

  predicate AllDigits(s: string) {
    forall i :: 0 <= i < |s| ==> IsDigit(s[i])
  }

  /** Python's `str(n)` (and `"{0}".format(n)`) for a natural number. */
  function NatToString(n: nat): (s: string)
    ensures |s| >= 1 && AllDigits(s)
    ensures n >= 10 ==> |s| >= 2
    decreases n
  {
    if n < 10 then [DigitChar(n)] else NatToString(n / 10) + [DigitChar(n % 10)]
  }

  /** The value of a string of decimal digits. */
  function DigitsValue(s: string): nat
    requires AllDigits(s)
    decreases |s|
  {
    if s == [] then 0
    else DigitsValue(s[..|s| - 1]) * 10 + (s[|s| - 1] as int - '0' as int)
  }

  /**
   * Python's `int(s)` on a field of a `-`-split string: an optional `+`
   * followed by one or more ASCII digits; anything else raises, here None.
   */
  function ParseInt(s: string): (r: Option<int>)
    ensures r.Some? ==> r.value >= 0
  {
    var digits := if s != [] && s[0] == '+' then s[1..] else s;
    if digits != [] && AllDigits(digits) then Some(DigitsValue(digits)) else None
  }

  /** Reading back what `str(n)` wrote gives `n`. */
  lemma {:induction false} DigitsValueOfNatToString(n: nat)
    ensures DigitsValue(NatToString(n)) == n
    decreases n
  {
    if n >= 10 {
      DigitsValueOfNatToString(n / 10);
      var s := NatToString(n);
      assert s[..|s| - 1] == NatToString(n / 10);
    }
  }

  /** `int(str(n)) == n`. */
  lemma ParseIntOfNatToString(n: nat)
    ensures ParseInt(NatToString(n)) == Some(n)
  {
    DigitsValueOfNatToString(n);
  }

  /** `str(n)` is injective: distinct counters never print alike. */
  lemma NatToStringInjective(a: nat, b: nat)
    requires NatToString(a) == NatToString(b)
    ensures a == b
  {
    DigitsValueOfNatToString(a);
    DigitsValueOfNatToString(b);
  }

  /** Python's `s.split(sep)`: the pieces between occurrences of `sep`. */
  function Split(s: string, sep: char): (r: seq<string>)
    ensures |r| >= 1
    decreases |s|
  {
    if s == [] then [""]
    else
      var rest := Split(s[1..], sep);
      if s[0] == sep then [""] + rest else [[s[0]] + rest[0]] + rest[1..]
  }

  /** No piece of a split contains the separator. */
  lemma {:induction false} SplitPiecesFree(s: string, sep: char)
    ensures forall k :: 0 <= k < |Split(s, sep)| ==> sep !in Split(s, sep)[k]
    decreases |s|
  {
    if s != [] {
      SplitPiecesFree(s[1..], sep);
    }
  }

  /** Splitting a separator-free prefix followed by more text. */
  lemma {:induction false} SplitFreePrefix(a: string, b: string, sep: char)
    requires sep !in a
    ensures Split(a + b, sep) == [a + Split(b, sep)[0]] + Split(b, sep)[1..]
    decreases |a|
  {
    if a != [] {
      var ab := a + b;
      assert ab[0] == a[0] && ab[0] != sep;
      assert ab[1..] == a[1..] + b;
      SplitFreePrefix(a[1..], b, sep);
      var rest := Split(ab[1..], sep);
      assert Split(ab, sep) == [[ab[0]] + rest[0]] + rest[1..];
      assert rest == [a[1..] + Split(b, sep)[0]] + Split(b, sep)[1..];
      assert a == [a[0]] + a[1..];
      assert [a[0]] + (a[1..] + Split(b, sep)[0]) == a + Split(b, sep)[0];
    } else {
      var pieces := Split(b, sep);
      assert a + b == b && a + pieces[0] == pieces[0];
      assert pieces == [pieces[0]] + pieces[1..];
    }
  }

  /** Splitting `a + sep + b` where `a` has no separator. */
  lemma SplitAtSeparator(a: string, b: string, sep: char)
    requires sep !in a
    ensures Split(a + [sep] + b, sep) == [a] + Split(b, sep)
  {
    var sb := [sep] + b;
    SplitFreePrefix(a, sb, sep);
    assert sb[0] == sep && sb[1..] == b;
    assert Split(sb, sep) == [""] + Split(b, sep);
    assert a + [sep] + b == a + sb;
    assert a + "" == a;
  }

  /** A separator-free string splits into itself. */
  lemma SplitFree(a: string, sep: char)
    requires sep !in a
    ensures Split(a, sep) == [a]
  {
    SplitFreePrefix(a, "", sep);
    assert a + "" == a;
  }
}
