/** Shared vocabulary of the model: optional values, results, money in cents,
    sums, and the few string operations the services use (decimal rendering,
    zero padding, ASCII case folding, substring search, trimming). */
module Common {

  datatype Option<+T> = None | Some(value: T) {
    function GetOr(default: T): T {
      match this
      case Some(v) => v
      case None => default
    }
  }

  /** A result that either carries a value or the error the source throws. */
  datatype Result<+T, +E> = Ok(value: T) | Err(error: E)

  /** An operation without a value that either succeeds or fails with an error. */
  datatype Outcome<+E> = Pass | Fail(error: E)

  /** Amounts of money in cents (the source uses BigDecimal with scale 2). */
  type Money = int

  /** Calendar days as day numbers (LocalDate compared and shifted by days). */
  type Day = int

  /** `x.max(ZERO)` on a BigDecimal. */
  function Max0(x: int): (r: int)
    ensures r >= 0 && r >= x && (r == x || r == 0)
  {
    if x < 0 then 0 else x
  }

  function Min(a: int, b: int): int { if a <= b then a else b }

  /** Sum of a sequence, folded from the left as `reduce(ZERO, add)` does. */
  function Sum(xs: seq<int>): int
  {
    if xs == [] then 0 else Sum(xs[..|xs| - 1]) + xs[|xs| - 1]
  }

  lemma SumAppend(xs: seq<int>, x: int)
    ensures Sum(xs + [x]) == Sum(xs) + x
  {
    assert (xs + [x])[..|xs|] == xs;
  }

  lemma {:induction false} SumConcat(xs: seq<int>, ys: seq<int>)
    ensures Sum(xs + ys) == Sum(xs) + Sum(ys)
    decreases |ys|
  {
    if ys == [] {
      assert xs + ys == xs;
    } else {
      var ys' := ys[..|ys| - 1];
      assert xs + ys == (xs + ys') + [ys[|ys| - 1]];
      SumAppend(xs + ys', ys[|ys| - 1]);
      SumConcat(xs, ys');
      SumAppend(ys', ys[|ys| - 1]);
      assert ys == ys' + [ys[|ys| - 1]];
    }
  }

  /** `stream().filter(p)`: keeps, in order, the elements satisfying `p`. */
  function Filter<T(!new)>(s: seq<T>, p: T -> bool): (r: seq<T>)
    ensures |r| <= |s|
    ensures forall x :: x in r <==> x in s && p(x)
  {
    if s == [] then []
    else if p(s[|s| - 1]) then Filter(s[..|s| - 1], p) + [s[|s| - 1]]
    else Filter(s[..|s| - 1], p)
  }

  /** Filtering a concatenation filters each part. */
  lemma {:induction false} FilterConcat<T(!new)>(a: seq<T>, b: seq<T>, p: T -> bool)
    ensures Filter(a + b, p) == Filter(a, p) + Filter(b, p)
    decreases |b|
  {
    if b == [] {
      assert a + b == a;
    } else {
      var b' := b[..|b| - 1];
      assert (a + b)[..|a + b| - 1] == a + b';
      FilterConcat(a, b', p);
    }
  }

  /** A filter that every element passes changes nothing. */
  lemma {:induction false} FilterKeepsAll<T(!new)>(s: seq<T>, p: T -> bool)
    requires forall i :: 0 <= i < |s| ==> p(s[i])
    ensures Filter(s, p) == s
  {
    if s != [] {
      var init := s[..|s| - 1];
      assert forall i :: 0 <= i < |init| ==> init[i] == s[i];
      FilterKeepsAll(init, p);
      assert init + [s[|s| - 1]] == s;
    }
  }

  /** Filtering twice is filtering once. */
  lemma FilterIdempotent<T(!new)>(s: seq<T>, p: T -> bool)
    ensures Filter(Filter(s, p), p) == Filter(s, p)
  {
    var r := Filter(s, p);
    forall i | 0 <= i < |r|
      ensures p(r[i])
    {
      assert r[i] in r;
    }
    FilterKeepsAll(r, p);
  }

  /** Two concatenations with equally long left parts are equal part by part. */
  lemma SplitConcat<T>(a1: seq<T>, b1: seq<T>, a2: seq<T>, b2: seq<T>)
    requires a1 + b1 == a2 + b2 && |a1| == |a2|
    ensures a1 == a2 && b1 == b2
  {
    assert a1 == (a1 + b1)[..|a1|] && a2 == (a2 + b2)[..|a2|];
    assert b1 == (a1 + b1)[|a1|..] && b2 == (a2 + b2)[|a2|..];
  }

  // ---------------------------------------------------------------------------
  // Decimal strings

  predicate IsDigit(c: char) { '0' <= c <= '9' }

  predicate AllDigits(s: string) { forall i :: 0 <= i < |s| ==> IsDigit(s[i]) }

  function DigitChar(d: nat): (c: char)
    requires d < 10
    ensures IsDigit(c) && c as int - '0' as int == d
  {
    ('0' as int + d) as char
  }

  function DigitValue(c: char): nat
    requires IsDigit(c)
  {
    c as int - '0' as int
  }

  /** The value of a string of decimal digits (leading zeros allowed). */
  function DecimalValue(s: string): nat
    requires AllDigits(s)
  {
    if s == [] then 0 else DecimalValue(s[..|s| - 1]) * 10 + DigitValue(s[|s| - 1])
  }

  /** `String.valueOf(n)` for a non-negative number: no sign, no leading zeros. */
  function NatToString(n: nat): (s: string)
    ensures 1 <= |s| && AllDigits(s)
    ensures n < 10 <==> |s| == 1
  {
    if n < 10 then [DigitChar(n)] else NatToString(n / 10) + [DigitChar(n % 10)]
  }

  lemma {:induction false} NatToStringValue(n: nat)
    ensures DecimalValue(NatToString(n)) == n
  {
    if n >= 10 {
      NatToStringValue(n / 10);
      var s := NatToString(n);
      assert s[..|s| - 1] == NatToString(n / 10);
    }
  }

  /** Rendering a number below 10^k takes at most k digits. */
  lemma {:induction false} NatToStringLength(n: nat, k: nat, bound: nat)
    requires bound == Pow10(k) && n < bound && k >= 1
    ensures |NatToString(n)| <= k
  {
    assert Pow10(1) == 10;
    if n >= 10 {
      assert k >= 2;
      assert n / 10 < Pow10(k - 1);
      NatToStringLength(n / 10, k - 1, Pow10(k - 1));
    }
  }

  /** Java `Long.valueOf` / `Long.parseLong`: an optional sign followed by at least one digit.
      Range limits of `long` are not modelled. */
  function ParseLong(s: string): (r: Option<int>)
    ensures r.Some? <==> (s != [] && AllDigits(s)) || (|s| > 1 && (s[0] == '-' || s[0] == '+') && AllDigits(s[1..]))
  {
    if s == [] then None
    else if AllDigits(s) then Some(DecimalValue(s))
    else if (s[0] == '-' || s[0] == '+') && |s| > 1 && AllDigits(s[1..]) then
      var v: int := DecimalValue(s[1..]);
      Some(if s[0] == '-' then -v else v)
    else None
  }

  /** Rendering a number and parsing it back, with or without a sign, gives
      the number back. */
  lemma ParseLongRoundTrip(n: nat)
    ensures ParseLong(NatToString(n)) == Some(n)
    ensures ParseLong("-" + NatToString(n)) == Some(-(n as int))
    ensures ParseLong("+" + NatToString(n)) == Some(n)
  {
    NatToStringValue(n);
    assert ("-" + NatToString(n))[1..] == NatToString(n) && !IsDigit(("-" + NatToString(n))[0]);
    assert ("+" + NatToString(n))[1..] == NatToString(n) && !IsDigit(("+" + NatToString(n))[0]);
  }

  /** A number of at least 10^k takes more than k digits. */
  lemma {:induction false} NatToStringLengthAtLeast(n: nat, k: nat)
    requires n >= Pow10(k)
    ensures |NatToString(n)| >= k + 1
  {
    if k > 0 {
      assert n / 10 >= Pow10(k - 1);
      NatToStringLengthAtLeast(n / 10, k - 1);
    }
  }

  function Pow10(k: nat): (p: nat)
    ensures p >= 1
  {
    if k == 0 then 1 else 10 * Pow10(k - 1)
  }

  function Repeat(c: char, k: nat): (s: string)
    ensures |s| == k && forall i :: 0 <= i < k ==> s[i] == c
  {
    if k == 0 then [] else Repeat(c, k - 1) + [c]
  }

  /** `String.format("%0<width>d", n)`: left-padded with zeros, never truncated. */
  function ZeroPad(n: nat, width: nat): (s: string)
    ensures AllDigits(s)
    ensures |s| == if |NatToString(n)| < width then width else |NatToString(n)|
  {
    var digits := NatToString(n);
    if |digits| < width then Repeat('0', width - |digits|) + digits else digits
  }

  lemma {:induction false} LeadingZerosValue(k: nat, s: string)
    requires AllDigits(s)
    ensures AllDigits(Repeat('0', k) + s)
    ensures DecimalValue(Repeat('0', k) + s) == DecimalValue(s)
    decreases |s|, k
  {
    var z := Repeat('0', k);
    if s == [] {
      assert z + s == z;
      if k > 0 {
        assert z[..k - 1] == Repeat('0', k - 1);
        LeadingZerosValue(k - 1, []);
        assert Repeat('0', k - 1) + [] == Repeat('0', k - 1);
      }
    } else {
      var s' := s[..|s| - 1];
      assert (z + s)[..|z + s| - 1] == z + s';
      LeadingZerosValue(k, s');
    }
  }

  /** Zero padding keeps the number's value: the padded field reads back as `n`. */
  lemma ZeroPadValue(n: nat, width: nat)
    ensures DecimalValue(ZeroPad(n, width)) == n
  {
    var digits := NatToString(n);
    assert DecimalValue(digits) == n by {
      NatToStringValue(n);
    }
    if |digits| < width {
      assert ZeroPad(n, width) == Repeat('0', width - |digits|) + digits;
      LeadingZerosValue(width - |digits|, digits);
    } else {
      assert ZeroPad(n, width) == digits;
    }
  }

  /** Two zero-padded fields of the same width are equal only for equal numbers. */
  lemma ZeroPadInjective(a: nat, b: nat, width: nat)
    requires ZeroPad(a, width) == ZeroPad(b, width)
    ensures a == b
  {
    ZeroPadValue(a, width);
    ZeroPadValue(b, width);
  }

  /** A number below 10^width fills exactly `width` characters once padded. */
  lemma ZeroPadExactWidth(n: nat, width: nat)
    requires width >= 1 && n < Pow10(width)
    ensures |ZeroPad(n, width)| == width
  {
    NatToStringLength(n, width, Pow10(width));
  }

  // ---------------------------------------------------------------------------
  // Text helpers

  /** ASCII case folding (`toLowerCase` on the letters A-Z). */
  function LowerChar(c: char): char
  {
    if 'A' <= c <= 'Z' then (c as int + 32) as char else c
  }

  function ToLower(s: string): (r: string)
    ensures |r| == |s| && forall i :: 0 <= i < |s| ==> r[i] == LowerChar(s[i])
  {
    if s == [] then [] else ToLower(s[..|s| - 1]) + [LowerChar(s[|s| - 1])]
  }

  /** `haystack.contains(needle)` / `includes`: `needle` occurs at some offset. */
  predicate Contains(haystack: string, needle: string)
  {
    exists k :: 0 <= k <= |haystack| - |needle| && OccursAt(haystack, needle, k)
  }

  predicate OccursAt(haystack: string, needle: string, k: int)
  {
    0 <= k <= |haystack| - |needle| && haystack[k..k + |needle|] == needle
  }

  /** Java's `String.trim` removes every leading and trailing char <= U+0020. */
  predicate IsJavaTrimmed(c: char) { c <= ' ' }

  predicate IsBlank(s: string) { forall i :: 0 <= i < |s| ==> IsJavaTrimmed(s[i]) }
  // ---------------------------------------------------------------------------
  // JavaScript white space

  /** JavaScript's white space and line terminators: what `trim` removes and
      what `\s` matches in a regular expression (tab, line feed, vertical tab,
      form feed, carriage return, space, no-break space, the byte order mark,
      the Unicode space separators, and the line and paragraph separators). */
  predicate IsJsSpace(c: char)
  {
    c == '\t' || c == '\n' || c == '\U{000B}' || c == '\U{000C}' || c == '\r' || c == ' ' ||
    c == '\U{00A0}' || c == '\U{1680}' || '\U{2000}' <= c <= '\U{200A}' || c == '\U{2028}' || c == '\U{2029}' ||
    c == '\U{202F}' || c == '\U{205F}' || c == '\U{3000}' || c == '\U{FEFF}'
  }

  /** Drops the leading white space. */
  function TrimStart(s: string): (r: string)
    ensures |r| <= |s| && r == s[|s| - |r|..]
    ensures forall k :: 0 <= k < |s| - |r| ==> IsJsSpace(s[k])
    ensures r != [] ==> !IsJsSpace(r[0])
  {
    if s != [] && IsJsSpace(s[0]) then TrimStart(s[1..]) else s
  }

  /** Drops the trailing white space. */
  function TrimEnd(s: string): (r: string)
    ensures |r| <= |s| && r == s[..|r|]
    ensures forall k :: |r| <= k < |s| ==> IsJsSpace(s[k])
    ensures r != [] ==> !IsJsSpace(r[|r| - 1])
  {
    if s != [] && IsJsSpace(s[|s| - 1]) then TrimEnd(s[..|s| - 1]) else s
  }

  /** `String.prototype.trim`: the text between the first and the last
      character that is not white space. */
  function JsTrim(s: string): (r: string)
    ensures r != [] ==> !IsJsSpace(r[0]) && !IsJsSpace(r[|r| - 1])
    ensures |r| <= |s|
  {
    TrimEnd(TrimStart(s))
  }

  /** Trimming leaves nothing exactly when the text is all white space. */
  lemma JsTrimBlank(s: string)
    ensures JsTrim(s) == [] <==> forall k :: 0 <= k < |s| ==> IsJsSpace(s[k])
  {
    var t := TrimStart(s);
    var off := |s| - |t|;
    if JsTrim(s) == [] {
      // all of t is white space and t does not start with white space
      assert t == [];
    } else {
      assert JsTrim(s)[0] == t[0] == s[off];
    }
  }

  /** Trimming twice is trimming once. */
  lemma JsTrimIdempotent(s: string)
    ensures JsTrim(JsTrim(s)) == JsTrim(s)
  {
    var r := JsTrim(s);
    if r != [] {
      assert TrimStart(r) == r;
      assert TrimEnd(r) == r;
    }
  }

}
