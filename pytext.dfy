/** The two Python string builtins the helpers rely on: `str.strip()` with no
    argument, and `int(str)` on a decimal literal (with `str(int)`, its
    inverse, which the callers use to build delete requests). */
module PyText {
  import opened Wrappers

  /** The characters for which Python's `str.isspace()` holds. */
  predicate IsSpace(c: char) {
    || c == ' '
    || ('\t' <= c <= '\r')
    || ('\U{1C}' <= c <= '\U{1F}')
    || c == '\U{85}'
    || c == '\U{A0}'
    || c == '\U{1680}'
    || ('\U{2000}' <= c <= '\U{200A}')
    || c == '\U{2028}'
    || c == '\U{2029}'
    || c == '\U{202F}'
    || c == '\U{205F}'
    || c == '\U{3000}'
  }

  /** Neither end of `s` is whitespace. */
  predicate Trimmed(s: string) {
    s == [] || (!IsSpace(s[0]) && !IsSpace(s[|s| - 1]))
  }

  /** Drops leading whitespace: the result is a suffix of `s`, everything
      dropped is whitespace, and the result does not start with whitespace. */
  function StripLeft(s: string): (r: string)
    ensures |r| <= |s| && r == s[|s| - |r|..]
    ensures forall k :: 0 <= k < |s| - |r| ==> IsSpace(s[k])
    ensures r == [] || !IsSpace(r[0])
  {
    if |s| > 0 && IsSpace(s[0]) then StripLeft(s[1..]) else s
  }

  /** Drops trailing whitespace: the result is a prefix of `s`, everything
      dropped is whitespace, and the result does not end with whitespace. */
  function StripRight(s: string): (r: string)
    ensures |r| <= |s| && r == s[..|r|]
    ensures forall k :: |r| <= k < |s| ==> IsSpace(s[k])
    ensures r == [] || !IsSpace(r[|r| - 1])
  {
    if |s| > 0 && IsSpace(s[|s| - 1]) then StripRight(s[..|s| - 1]) else s
  }

  /** Every character of `s[lo..hi]` is whitespace. */
  ghost predicate SpacesIn(s: string, lo: int, hi: int)
    requires 0 <= lo <= hi <= |s|
  {
    forall k :: lo <= k < hi ==> IsSpace(s[k])
  }

  /** `r` is `s[i..j]`, and everything outside `i..j` is whitespace. */
  ghost predicate CutAt(s: string, r: string, i: int, j: int) {
    0 <= i <= j <= |s| && r == s[i..j] && SpacesIn(s, 0, i) && SpacesIn(s, j, |s|)
  }

  /** `r` is `s` with some whitespace removed from each end and nothing else. */
  ghost predicate TrimmedFrom(s: string, r: string) {
    exists i, j :: CutAt(s, r, i, j)
  }

  /** Python's `s.strip()`: the input with all of its surrounding whitespace
      removed. */
  function Strip(s: string): (r: string)
    ensures Trimmed(r)
    ensures TrimmedFrom(s, r)
    ensures |r| <= |s|
    ensures Trimmed(s) ==> r == s
  {
    var t := StripLeft(s);
    var r := StripRight(t);
    StripEndsTrimmed(s, t, r);
    var i := |s| - |t|;
    StripBothEnds(s, t, r, i);
    assert CutAt(s, r, i, i + |r|);
    r
  }

  /** Stripping the left end, then the right, leaves no whitespace at either
      end, and leaves a string that had none as it was. */
  lemma StripEndsTrimmed(s: string, t: string, r: string)
    requires t == StripLeft(s) && r == StripRight(t)
    ensures Trimmed(r)
    ensures Trimmed(s) ==> r == s
  {
    assert r != [] ==> r[0] == t[0];
    assert Trimmed(s) ==> t == s;
  }

  /** Stripping the left end, then the right, cuts `s` between whitespace. */
  lemma StripBothEnds(s: string, t: string, r: string, i: int)
    requires t == StripLeft(s) && r == StripRight(t) && i == |s| - |t|
    ensures CutAt(s, r, i, i + |r|)
  {
    assert SpacesIn(s, 0, i);
    SpaceAfterCut(s, i, t, |r|);
    PrefixOfSuffix(s, i, t, r);
  }

  /** A prefix of the suffix `s[i..]` is a slice of `s` starting at `i`. */
  lemma PrefixOfSuffix(s: string, i: int, t: string, r: string)
    requires 0 <= i <= |s| && t == s[i..] && |r| <= |t| && r == t[..|r|]
    ensures r == s[i..i + |r|]
  {
  }

  /** Whitespace at the end of the suffix `s[i..]` is whitespace at the end of `s`. */
  lemma SpaceAfterCut(s: string, i: int, t: string, n: int)
    requires 0 <= i <= |s| && t == s[i..] && 0 <= n <= |t|
    requires forall k :: n <= k < |t| ==> IsSpace(t[k])
    ensures SpacesIn(s, i + n, |s|)
  {
    forall k | i + n <= k < |s| ensures IsSpace(s[k]) {
      assert s[k] == t[k - i];
    }
  }

  /** Two trimmed cuts of `s` that each drop only whitespace are the same. */
  lemma SameTrimmedCut(s: string, i: int, j: int, i2: int, j2: int)
    requires 0 <= i <= j <= |s| && 0 <= i2 <= j2 <= |s|
    requires CutAt(s, s[i..j], i, j) && CutAt(s, s[i2..j2], i2, j2)
    requires Trimmed(s[i..j]) && Trimmed(s[i2..j2])
    ensures s[i..j] == s[i2..j2]
  {
    if i < j {
      assert !IsSpace(s[i]) && !IsSpace(s[j - 1]);
    }
    if i2 < j2 {
      assert !IsSpace(s[i2]) && !IsSpace(s[j2 - 1]);
    }
  }

  /** The strip of a string is determined by that description: any trimmed
      string obtained by removing whitespace from its ends is it. */
  lemma StripIsUnique(s: string, r: string)
    requires Trimmed(r) && TrimmedFrom(s, r)
    ensures r == Strip(s)
  {
    var i, j :| CutAt(s, r, i, j);
    var r2 := Strip(s);
    var i2, j2 :| CutAt(s, r2, i2, j2);
    SameTrimmedCut(s, i, j, i2, j2);
  }

  /** Strip's result is trimmed, and a trimmed string is a fixed point. */
  lemma StripIdempotent(s: string)
    ensures Strip(Strip(s)) == Strip(s)
  {
    assert Trimmed(Strip(s));
  }

  predicate IsDigit(c: char) {
    '0' <= c <= '9'
  }

  predicate AllDigits(s: string) {
    forall k :: 0 <= k < |s| ==> IsDigit(s[k])
  }

  function DigitValue(c: char): (d: nat)
    requires IsDigit(c)
    ensures d < 10
  {
    (c as int) - ('0' as int)
  }

  function DigitChar(d: nat): (c: char)
    requires d < 10
    ensures IsDigit(c) && DigitValue(c) == d
  {
    ('0' as int + d) as char
  }

  /** The number a string of decimal digits denotes (leading zeros allowed). */
  function DigitsValue(ds: string): (n: nat)
    requires AllDigits(ds)
  {
    if ds == [] then 0 else 10 * DigitsValue(ds[..|ds| - 1]) + DigitValue(ds[|ds| - 1])
  }

  /** A decimal integer literal: an optional sign, then one or more digits. */
  predicate IsIntegerLiteral(s: string) {
    || (|s| > 0 && AllDigits(s))
    || (|s| > 1 && (s[0] == '+' || s[0] == '-') && AllDigits(s[1..]))
  }

  /** Python's `int(s)` on an already stripped string: `None` stands for the
      `ValueError` it raises on anything but a decimal literal. */
  function ParseInt(s: string): (r: Option<int>)
    ensures r.Some? <==> IsIntegerLiteral(s)
    ensures r.Some? && s[0] == '-' ==> r.value <= 0
    ensures r.Some? && s[0] != '-' ==> r.value >= 0
  {
    if |s| > 1 && (s[0] == '+' || s[0] == '-') && AllDigits(s[1..]) then
      var n: int := DigitsValue(s[1..]);
      Some(if s[0] == '-' then -n else n)
    else if |s| > 0 && AllDigits(s) then
      Some(DigitsValue(s))
    else
      None
  }

  /** The value `int()` gives a literal: the digits' value, negated after a
      minus sign. */
  lemma ParseIntValue(sign: string, ds: string)
    requires sign == "" || sign == "+" || sign == "-"
    requires |ds| > 0 && AllDigits(ds)
    ensures ParseInt(sign + ds) == Some(if sign == "-" then -(DigitsValue(ds) as int) else DigitsValue(ds) as int)
  {
    var s := sign + ds;
    if sign == "" {
      assert s == ds;
      assert IsDigit(s[0]);
    } else {
      assert s[0] == sign[0] && s[1..] == ds;
      assert !IsDigit(s[0]);
    }
  }

  /** Leading zeros do not change the value of a digit string. */
  lemma {:induction false} LeadingZeroIgnored(ds: string)
    requires AllDigits(ds)
    ensures AllDigits("0" + ds) && DigitsValue("0" + ds) == DigitsValue(ds)
  {
    var z := "0" + ds;
    assert AllDigits(z) by {
      forall k | 0 <= k < |z| ensures IsDigit(z[k]) {
        if k > 0 { assert z[k] == ds[k - 1]; }
      }
    }
    if ds != [] {
      var front := ds[..|ds| - 1];
      LeadingZeroIgnored(front);
      assert z[..|z| - 1] == "0" + front;
      assert z[|z| - 1] == ds[|ds| - 1];
    }
  }

  /** `int("+7") == 7`, `int("007") == 7` and `int("-0") == 0`. */
  lemma ParseIntExamples()
    ensures ParseInt("+7") == Some(7) && ParseInt("007") == Some(7) && ParseInt("-0") == Some(0)
  {
    ParseIntValue("+", "7");
    assert "+" + "7" == "+7";
    LeadingZeroIgnored("7");
    LeadingZeroIgnored("07");
    ParseIntValue("", "007");
    assert "" + "007" == "007";
    ParseIntValue("-", "0");
    assert "-" + "0" == "-0";
  }

  /** Python's `str(n)` for a natural number. */
  function ShowNat(n: nat): (s: string)
    ensures |s| > 0
  {
    if n < 10 then [DigitChar(n)] else ShowNat(n / 10) + [DigitChar(n % 10)]
  }

  /** Python's `str(n)` for an integer. */
  function ShowInt(n: int): (s: string)
    ensures |s| > 0
  {
    if n < 0 then "-" + ShowNat(-n) else ShowNat(n)
  }

  lemma {:induction false} ShowNatIsDigits(n: nat)
    ensures AllDigits(ShowNat(n))
    ensures DigitsValue(ShowNat(n)) == n
  {
    if n >= 10 {
      ShowNatIsDigits(n / 10);
      var s := ShowNat(n);
      assert s[..|s| - 1] == ShowNat(n / 10);
    }
  }

  /** `int(str(n)) == n`, the round trip a delete request relies on. */
  lemma {:induction false} ParseShowInt(n: int)
    ensures ParseInt(ShowInt(n)) == Some(n)
  {
    if n < 0 {
      var digits := ShowNat(-n);
      ShowNatIsDigits(-n);
      var s := ShowInt(n);
      assert s == "-" + digits;
      assert s[1..] == digits;
      assert |s| > 1 && s[0] == '-' && AllDigits(s[1..]);
      assert DigitsValue(s[1..]) == -n;
    } else {
      var s := ShowNat(n);
      ShowNatIsDigits(n);
      assert ShowInt(n) == s;
      assert IsDigit(s[0]);
      assert !(|s| > 1 && (s[0] == '+' || s[0] == '-'));
      assert DigitsValue(s) == n;
    }
  }

  /** `str(n)` has no surrounding whitespace, so stripping it changes nothing. */
  lemma ShowIntTrimmed(n: int)
    ensures Trimmed(ShowInt(n))
  {
    var s := ShowInt(n);
    if n < 0 {
      ShowNatIsDigits(-n);
      assert s[|s| - 1] == ShowNat(-n)[|ShowNat(-n)| - 1];
    } else {
      ShowNatIsDigits(n);
    }
    assert IsDigit(s[|s| - 1]);
  }

  /** Input the delete operation is exercised with: not an integer. */
  lemma ParseRejectsWord()
    ensures ParseInt("test") == None
  {
    assert !IsDigit("test"[0]);
  }
}
