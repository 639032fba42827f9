/** String rules shared by several services: Python's `str.strip()`, the
    hard truncation with an ellipsis used before publishing, `str.split` on a
    one-character separator and `str.join`, `int()` on a decimal string and
    `str.upper()`. Each is narrowed to ASCII where Python would also accept
    other Unicode characters. */
module Text {
  import opened Wrappers

  /** Which ASCII characters count as whitespace. `str.strip()` trims what
      `str.isspace()` accepts; `int()` on an ASCII string trims only space and
      `\t` to `\r`, so it rejects `\x1c`-`\x1f` around the digits. */
  datatype Spaces = StrSpaces | IntSpaces

  predicate IsSpaceIn(c: char, w: Spaces) {
    c == ' ' || ('\t' <= c <= '\r') || (w == StrSpaces && '\U{1C}' <= c <= '\U{1F}')
  }

  /** The ASCII characters for which Python's `str.isspace()` is true. */
  predicate IsSpace(c: char) {
    IsSpaceIn(c, StrSpaces)
  }

  predicate AllSpace(s: string) {
    forall i :: 0 <= i < |s| ==> IsSpace(s[i])
  }

  /** The first index at or after `i` that is not whitespace (or `|s|`). */
  function SkipSpace(s: string, i: nat, w: Spaces): (k: nat)
    requires i <= |s|
    ensures i <= k <= |s|
    ensures forall j :: i <= j < k ==> IsSpaceIn(s[j], w)
    ensures k == |s| || !IsSpaceIn(s[k], w)
    decreases |s| - i
  {
    if i < |s| && IsSpaceIn(s[i], w) then SkipSpace(s, i + 1, w) else i
  }

  /** The end of `s[lo..hi]` once its trailing whitespace is dropped. */
  function BackSpace(s: string, lo: nat, hi: nat, w: Spaces): (k: nat)
    requires lo <= hi <= |s|
    ensures lo <= k <= hi
    ensures forall j :: k <= j < hi ==> IsSpaceIn(s[j], w)
    ensures k == lo || !IsSpaceIn(s[k - 1], w)
    decreases hi
  {
    if hi > lo && IsSpaceIn(s[hi - 1], w) then BackSpace(s, lo, hi - 1, w) else hi
  }

  /** `s` with the whitespace of class `w` removed from both ends. */
  function StripBy(s: string, w: Spaces): (r: string)
    ensures |r| <= |s|
    ensures r == [] || (!IsSpaceIn(r[0], w) && !IsSpaceIn(r[|r| - 1], w))
  {
    var i := SkipSpace(s, 0, w);
    var j := BackSpace(s, i, |s|, w);
    s[i..j]
  }

  /** Python's `s.strip()`: whitespace removed from both ends. */
  function Strip(s: string): (r: string)
    ensures |r| <= |s|
    ensures r == [] || (!IsSpace(r[0]) && !IsSpace(r[|r| - 1]))
  {
    StripBy(s, StrSpaces)
  }

  /** What `strip` keeps is the infix of `s` between two all-whitespace ends. */
  lemma StripInfix(s: string)
    ensures exists i :: (0 <= i <= |s| - |Strip(s)| && Strip(s) == s[i..i + |Strip(s)|]
                         && AllSpace(s[..i]) && AllSpace(s[i + |Strip(s)|..]))
  {
    var i := SkipSpace(s, 0, StrSpaces);
    var j := BackSpace(s, i, |s|, StrSpaces);
    assert Strip(s) == s[i..j];
    assert AllSpace(s[..i]) by {
      forall k | 0 <= k < i ensures IsSpace(s[..i][k]) {
        assert s[..i][k] == s[k];
      }
    }
    assert AllSpace(s[j..]) by {
      forall k | 0 <= k < |s| - j ensures IsSpace(s[j..][k]) {
        assert s[j..][k] == s[j + k];
      }
    }
  }

  /** A string with no whitespace of class `w` at either end is its own strip. */
  lemma StripUnchanged(s: string, w: Spaces)
    requires s == [] || (!IsSpaceIn(s[0], w) && !IsSpaceIn(s[|s| - 1], w))
    ensures StripBy(s, w) == s
  {
    assert SkipSpace(s, 0, w) == 0;
    assert BackSpace(s, 0, |s|, w) == |s|;
    assert s[0..|s|] == s;
  }

  lemma StripIdempotent(s: string)
    ensures Strip(Strip(s)) == Strip(s)
  {
    StripUnchanged(Strip(s), StrSpaces);
  }

  /** Hard truncation to `ceiling` characters, the last three of which become
      "..." when the text was too long. */
  function Truncate(s: string, ceiling: nat): (r: string)
    requires ceiling >= 3
    ensures |r| <= ceiling
    ensures |s| <= ceiling ==> r == s
    ensures |s| > ceiling ==>
              && |r| == ceiling
              && r[..ceiling - 3] == s[..ceiling - 3]
              && r[ceiling - 3..] == "..."
  {
    if |s| > ceiling then s[..ceiling - 3] + "..." else s
  }

  lemma TruncateIdempotent(s: string, ceiling: nat)
    requires ceiling >= 3
    ensures Truncate(Truncate(s, ceiling), ceiling) == Truncate(s, ceiling)
  {
  }

  /** Python's `sep.join(parts)`. */
  function Join(parts: seq<string>, sep: string): string
  {
    if |parts| == 0 then ""
    else if |parts| == 1 then parts[0]
    else parts[0] + sep + Join(parts[1..], sep)
  }

  lemma {:induction false} JoinSnoc(parts: seq<string>, x: string, sep: string)
    requires parts != []
    ensures Join(parts + [x], sep) == Join(parts, sep) + sep + x
  {
    if |parts| == 1 {
      assert (parts + [x])[1..] == [x];
    } else {
      assert (parts + [x])[1..] == parts[1..] + [x];
      JoinSnoc(parts[1..], x, sep);
    }
  }

  /** The first index at or after `i` that holds `c`, or `|s|` when none does. */
  function NextSep(s: string, c: char, i: nat): (k: nat)
    requires i <= |s|
    ensures i <= k <= |s|
    ensures forall j :: i <= j < k ==> s[j] != c
    ensures k < |s| ==> s[k] == c
    decreases |s| - i
  {
    if i == |s| || s[i] == c then i else NextSep(s, c, i + 1)
  }

  /** The pieces of `s[i..]` between consecutive occurrences of `c`. */
  function SplitFrom(s: string, c: char, i: nat): (parts: seq<string>)
    requires i <= |s|
    ensures |parts| >= 1
    decreases |s| - i
  {
    var k := NextSep(s, c, i);
    if k == |s| then [s[i..]] else [s[i..k]] + SplitFrom(s, c, k + 1)
  }

  /** Python's `s.split(c)` for a one-character separator: the pieces
      between consecutive separators, empty pieces included. */
  function Split(s: string, c: char): (parts: seq<string>)
    ensures |parts| >= 1
  {
    SplitFrom(s, c, 0)
  }

  /** A piece of `s` before a separator or the end holds no separator. */
  lemma NoSepBefore(s: string, c: char, i: nat)
    requires i <= |s|
    ensures c !in s[i..NextSep(s, c, i)]
  {
    var k := NextSep(s, c, i);
    forall j | 0 <= j < k - i ensures s[i..k][j] != c {
      assert s[i..k][j] == s[i + j];
    }
  }

  lemma {:induction false} SplitFromFacts(s: string, c: char, i: nat)
    requires i <= |s|
    ensures forall k :: 0 <= k < |SplitFrom(s, c, i)| ==> c !in SplitFrom(s, c, i)[k]
    ensures Join(SplitFrom(s, c, i), [c]) == s[i..]
    decreases |s| - i
  {
    var k := NextSep(s, c, i);
    NoSepBefore(s, c, i);
    if k < |s| {
      var rest := SplitFrom(s, c, k + 1);
      SplitFromFacts(s, c, k + 1);
      assert SplitFrom(s, c, i) == [s[i..k]] + rest;
      assert ([s[i..k]] + rest)[1..] == rest;
      assert s[i..] == s[i..k] + [c] + s[k + 1..];
    }
  }

  /** No piece holds the separator, and joining the pieces gives `s` back. */
  lemma SplitFacts(s: string, c: char)
    ensures forall k :: 0 <= k < |Split(s, c)| ==> c !in Split(s, c)[k]
    ensures Join(Split(s, c), [c]) == s
  {
    SplitFromFacts(s, c, 0);
    assert s[0..] == s;
  }

  lemma {:induction false} SplitFromJoin(s: string, c: char, i: nat, parts: seq<string>)
    requires i <= |s| && |parts| >= 1
    requires forall k :: 0 <= k < |parts| ==> c !in parts[k]
    requires s[i..] == Join(parts, [c])
    ensures SplitFrom(s, c, i) == parts
    decreases |parts|
  {
    var p := parts[0];
    assert c !in p;
    var next := NextSep(s, c, i);
    if |parts| == 1 {
      assert s[i..] == p;
      assert forall j :: i <= j < |s| ==> s[j] != c by {
        forall j | i <= j < |s| ensures s[j] != c {
          assert s[j] == p[j - i];
        }
      }
    } else {
      assert s[i..] == p + [c] + Join(parts[1..], [c]);
      assert s[i + |p|] == c;
      assert forall j :: i <= j < i + |p| ==> s[j] != c by {
        forall j | i <= j < i + |p| ensures s[j] != c {
          assert s[j] == p[j - i];
        }
      }
      assert next == i + |p|;
      assert s[i..next] == p;
      assert s[next + 1..] == Join(parts[1..], [c]);
      SplitFromJoin(s, c, next + 1, parts[1..]);
    }
  }

  /** Splitting undoes joining when no piece holds the separator. */
  lemma SplitJoin(parts: seq<string>, c: char)
    requires |parts| >= 1
    requires forall k :: 0 <= k < |parts| ==> c !in parts[k]
    ensures Split(Join(parts, [c]), c) == parts
  {
    var s := Join(parts, [c]);
    assert s[0..] == s;
    SplitFromJoin(s, c, 0, parts);
  }

  predicate IsDigit(c: char) { '0' <= c <= '9' }

  function DigitValue(c: char): (d: nat)
    requires IsDigit(c)
    ensures d < 10
  {
    (c as int - '0' as int) as nat
  }

  function DigitChar(d: nat): (c: char)
    requires d < 10
    ensures IsDigit(c) && DigitValue(c) == d
  {
    ('0' as int + d) as char
  }

  predicate AllDigits(ds: string) {
    forall i :: 0 <= i < |ds| ==> IsDigit(ds[i])
  }

  /** The value of a string of decimal digits, most significant first. */
  function DigitsValue(ds: string): nat
    requires AllDigits(ds)
  {
    if ds == [] then 0 else DigitsValue(ds[..|ds| - 1]) * 10 + DigitValue(ds[|ds| - 1])
  }

  /** The decimal digits of `n`, as Python's `str(n)` writes them. */
  function NatToDigits(n: nat): (ds: string)
    ensures |ds| >= 1 && AllDigits(ds)
  {
    if n < 10 then [DigitChar(n)] else NatToDigits(n / 10) + [DigitChar(n % 10)]
  }

  function IntToString(n: int): string
  {
    if n < 0 then "-" + NatToDigits(-n) else NatToDigits(n)
  }

  /** A non-empty run of decimal digits, and its value. */
  function Digits(ds: string): (v: Option<nat>)
    ensures v.Some? <==> |ds| >= 1 && AllDigits(ds)
  {
    if |ds| >= 1 && AllDigits(ds) then Some(DigitsValue(ds)) else None
  }

  /** One optional sign, then the digits. */
  function Signed(t: string): Option<int>
  {
    if |t| >= 1 && (t[0] == '-' || t[0] == '+') then
      match Digits(t[1..])
      case None => None
      case Some(d) => Some(if t[0] == '-' then 0 - d else d)
    else
      match Digits(t)
      case None => None
      case Some(d) => Some(d)
  }

  /** Python's `int(s)` for a decimal string: surrounding space and `\t` to
      `\r` are ignored, one optional sign, then at least one digit. `None`
      stands for the ValueError Python raises otherwise. */
  function ParseInt(s: string): Option<int>
  {
    Signed(StripBy(s, IntSpaces))
  }

  /** `int()` skips less whitespace than `strip()`: a leading `\x1c` is
      stripped by `strip()` but makes `int()` raise. */
  lemma ParseIntKeepsFileSeparator()
    ensures Strip("\U{1C}5") == "5"
    ensures ParseInt("\U{1C}5") == None
  {
    assert SkipSpace("\U{1C}5", 0, StrSpaces) == 1;
    assert SkipSpace("\U{1C}5", 0, IntSpaces) == 0;
    assert Digits("\U{1C}5") == None by {
      assert !IsDigit("\U{1C}5"[0]);
    }
  }

  /** Unsigned digits read as their value, and a leading '-' negates it. */
  lemma SignedDigits(ds: string)
    requires |ds| >= 1 && AllDigits(ds)
    ensures Signed(ds) == Some(DigitsValue(ds))
    ensures Signed("-" + ds) == Some(0 - DigitsValue(ds))
  {
    assert IsDigit(ds[0]);
    assert Digits(ds) == Some(DigitsValue(ds));
    assert ("-" + ds)[1..] == ds;
  }

  /** A plain run of digits reads as its value. */
  lemma ParseIntDigits(ds: string)
    requires |ds| >= 1 && AllDigits(ds)
    ensures ParseInt(ds) == Some(DigitsValue(ds))
  {
    SignedDigits(ds);
    assert StripBy(ds, IntSpaces) == ds by {
      assert IsDigit(ds[0]) && IsDigit(ds[|ds| - 1]);
      StripUnchanged(ds, IntSpaces);
    }
  }

  lemma {:induction false} DigitsRoundTrip(n: nat)
    ensures DigitsValue(NatToDigits(n)) == n
  {
    if n >= 10 {
      var ds := NatToDigits(n);
      assert ds[..|ds| - 1] == NatToDigits(n / 10);
      DigitsRoundTrip(n / 10);
    }
  }

  /** A '-' followed by digits reads as the negated value. */
  lemma ParseIntNegative(ds: string)
    requires |ds| >= 1 && AllDigits(ds)
    ensures ParseInt("-" + ds) == Some(0 - DigitsValue(ds))
  {
    var s := "-" + ds;
    SignedDigits(ds);
    assert StripBy(s, IntSpaces) == s by {
      assert s[|s| - 1] == ds[|ds| - 1];
      assert IsDigit(ds[|ds| - 1]);
      StripUnchanged(s, IntSpaces);
    }
  }

  /** `int(str(n)) == n`. */
  lemma ParseIntRoundTrip(n: int)
    ensures ParseInt(IntToString(n)) == Some(n)
  {
    var ds := NatToDigits(if n < 0 then -n else n);
    DigitsRoundTrip(if n < 0 then -n else n);
    if n < 0 {
      assert IntToString(n) == "-" + ds;
      ParseIntNegative(ds);
    } else {
      assert IntToString(n) == ds;
      ParseIntDigits(ds);
    }
  }

  predicate IsLower(c: char) { 'a' <= c <= 'z' }

  function UpperChar(c: char): char
  {
    if IsLower(c) then (c as int - 32) as char else c
  }

  /** Python's `s.upper()` on ASCII letters; other characters are kept. */
  function Upper(s: string): (r: string)
    ensures |r| == |s|
    ensures forall i :: 0 <= i < |r| ==> !IsLower(r[i])
    ensures forall i :: 0 <= i < |r| ==> !IsLower(s[i]) ==> r[i] == s[i]
    ensures forall i :: 0 <= i < |r| ==> IsLower(s[i]) ==> r[i] as int == s[i] as int - 32
  {
    seq(|s|, i requires 0 <= i < |s| => UpperChar(s[i]))
  }

  lemma UpperIdempotent(s: string)
    ensures Upper(Upper(s)) == Upper(s)
  {
  }
}
