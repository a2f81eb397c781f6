/**
 * The Python string built-ins the retrieval core relies on, stated over
 * `seq<char>`: `str.strip()`, `str.lower()`, `str(int)` and `str.join()`.
 */
module Text {

  /** `c.isspace()` in Python: the characters `str.strip()` removes by default. */
  predicate IsSpace(c: char) {
    || c == ' '
    || ('\t' <= c <= '\r')
    || ('\U{1C}' <= c <= '\U{1F}')
    || c == '\U{85}' || c == '\U{A0}' || c == '\U{1680}'
    || ('\U{2000}' <= c <= '\U{200A}')
    || c == '\U{2028}' || c == '\U{2029}' || c == '\U{202F}' || c == '\U{205F}' || c == '\U{3000}'
  }

  predicate AllSpace(s: string) {
    forall i :: 0 <= i < |s| ==> IsSpace(s[i])
  }

  /** Removes trailing whitespace (`str.rstrip()`). */
  function StripEnd(s: string): (r: string)
    ensures |r| <= |s| && r == s[..|r|]
    ensures r == [] || !IsSpace(r[|r| - 1])
    ensures forall i :: |r| <= i < |s| ==> IsSpace(s[i])
  {
    if s != [] && IsSpace(s[|s| - 1]) then StripEnd(s[..|s| - 1]) else s
  }

  /** Removes leading whitespace (`str.lstrip()`). */
  function StripStart(s: string): (r: string)
    ensures |r| <= |s| && r == s[|s| - |r|..]
    ensures r == [] || !IsSpace(r[0])
    ensures forall i :: 0 <= i < |s| - |r| ==> IsSpace(s[i])
  {
    if s != [] && IsSpace(s[0]) then StripStart(s[1..]) else s
  }

  /** `str.strip()`: the longest infix of `s` that neither starts nor ends with whitespace. */
  function Strip(s: string): (r: string)
    ensures r == [] || (!IsSpace(r[0]) && !IsSpace(r[|r| - 1]))
    ensures exists i :: 0 <= i && i + |r| <= |s| && r == s[i..i + |r|]
                        && AllSpace(s[..i]) && AllSpace(s[i + |r|..])
  {
    var e := StripEnd(s);
    var r := StripStart(e);
    StripBothEnds(s, e, r);
    r
  }

  /** Stripping the end and then the start leaves an infix with only whitespace around it. */
  lemma StripBothEnds(s: string, e: string, r: string)
    requires |e| <= |s| && e == s[..|e|] && forall k :: |e| <= k < |s| ==> IsSpace(s[k])
    requires |r| <= |e| && r == e[|e| - |r|..] && forall k :: 0 <= k < |e| - |r| ==> IsSpace(e[k])
    ensures var i := |e| - |r|;
            && 0 <= i && i + |r| <= |s| && r == s[i..i + |r|]
            && AllSpace(s[..i]) && AllSpace(s[i + |r|..])
  {
    var i := |e| - |r|;
    var j := i + |r|;
    assert j == |e|;
    assert r == e[i..] == s[i..j];
    forall k | 0 <= k < i ensures IsSpace(s[..i][k]) {
      assert s[..i][k] == e[k];
    }
    forall k | 0 <= k < |s| - j ensures IsSpace(s[j..][k]) {
      assert s[j..][k] == s[j + k];
    }
  }

  lemma {:induction false} StripEndPadded(x: string, pad: string)
    requires x == [] || !IsSpace(x[|x| - 1])
    requires AllSpace(pad)
    ensures StripEnd(x + pad) == x
    decreases |pad|
  {
    if pad != [] {
      var shorter := pad[..|pad| - 1];
      assert (x + pad)[..|x + pad| - 1] == x + shorter;
      StripEndPadded(x, shorter);
    } else {
      assert x + pad == x;
    }
  }

  lemma {:induction false} StripStartPadded(pad: string, x: string)
    requires x != [] && !IsSpace(x[0])
    requires AllSpace(pad)
    ensures StripStart(pad + x) == x
    decreases |pad|
  {
    if pad != [] {
      var rest := pad[1..];
      assert IsSpace((pad + x)[0]);
      assert (pad + x)[1..] == rest + x;
      StripStartPadded(rest, x);
      assert StripStart(pad + x) == StripStart(rest + x);
    } else {
      assert pad + x == x;
    }
  }

  /** Whitespace around a word that has none at its ends is exactly what `Strip` removes. */
  lemma StripPadded(left: string, x: string, right: string)
    requires x != [] && !IsSpace(x[0]) && !IsSpace(x[|x| - 1])
    requires AllSpace(left) && AllSpace(right)
    ensures Strip(left + x + right) == x
  {
    var lx := left + x;
    assert lx[|lx| - 1] == x[|x| - 1];
    StripEndPadded(lx, right);
    StripStartPadded(left, x);
  }

  /** `c.lower()` for the ASCII letters. */
  function LowerChar(c: char): char {
    if 'A' <= c <= 'Z' then (c as int + 32) as char else c
  }

  /** `s.lower()`, letter by letter. */
  function Lower(s: string): (r: string)
    ensures |r| == |s|
    ensures forall i :: 0 <= i < |s| ==> r[i] == LowerChar(s[i])
  {
    seq(|s|, i requires 0 <= i < |s| => LowerChar(s[i]))
  }

  predicate IsDigit(c: char) {
    '0' <= c <= '9'
  }

  function DigitChar(d: int): (c: char)
    requires 0 <= d < 10
    ensures IsDigit(c) && c as int - '0' as int == d
  {
    ('0' as int + d) as char
  }

  /** `str(n)` for a non-negative integer: its decimal digits, most significant first. */
  function NatToString(n: nat): (s: string)
    ensures |s| >= 1
    ensures forall i :: 0 <= i < |s| ==> IsDigit(s[i])
    ensures n >= 10 ==> |s| >= 2
    ensures s[0] == '0' <==> n == 0
    ensures s[0] == '0' ==> |s| == 1
  {
    if n < 10 then [DigitChar(n)] else NatToString(n / 10) + [DigitChar(n % 10)]
  }

  /** `int(s)` for a string of decimal digits. */
  function DigitsValue(s: string): int
    requires forall i :: 0 <= i < |s| ==> IsDigit(s[i])
  {
    if s == [] then 0 else DigitsValue(s[..|s| - 1]) * 10 + (s[|s| - 1] as int - '0' as int)
  }

  /** Reading back the decimal digits gives the number: `int(str(n)) == n`. */
  lemma {:induction false} NatToStringRoundTrip(n: nat)
    ensures DigitsValue(NatToString(n)) == n
    decreases n
  {
    var s := NatToString(n);
    if n >= 10 {
      NatToStringRoundTrip(n / 10);
      assert s[..|s| - 1] == NatToString(n / 10);
    }
  }

  /** Different numbers print differently. */
  lemma NatToStringInjective(m: nat, n: nat)
    ensures NatToString(m) == NatToString(n) ==> m == n
  {
    NatToStringRoundTrip(m);
    NatToStringRoundTrip(n);
  }

  /** The total number of characters in `parts`. */
  function TotalLength(parts: seq<string>): nat {
    if parts == [] then 0 else |parts[0]| + TotalLength(parts[1..])
  }

  /**
   * `sep.join(parts)`: the joined text starts with the first part and holds
   * exactly the characters of the parts plus one separator between each two.
   */
  function Join(parts: seq<string>, sep: string): (r: string)
    ensures |parts| == 0 ==> r == ""
    ensures |parts| >= 1 ==> parts[0] <= r
    ensures |parts| >= 1 ==> |r| == TotalLength(parts) + (|parts| - 1) * |sep|
  {
    if |parts| == 0 then ""
    else if |parts| == 1 then parts[0]
    else parts[0] + sep + Join(parts[1..], sep)
  }

  /** Joining one more part appends the separator and that part, so order is kept. */
  lemma {:induction false} JoinAppend(parts: seq<string>, p: string, sep: string)
    requires |parts| >= 1
    ensures Join(parts + [p], sep) == Join(parts, sep) + sep + p
    decreases |parts|
  {
    if |parts| > 1 {
      assert (parts + [p])[1..] == parts[1..] + [p];
      JoinAppend(parts[1..], p, sep);
    } else {
      assert (parts + [p])[1..] == [p];
    }
  }
}
