/** Values and string helpers shared by the agent and server parts of the
    torrent plugin model: optional values, announce URIs, Java's 32-bit
    integer arithmetic and Java's decimal conversions of `long` values. */
module Common {

  /** Java's nullable reference: `None` stands for `null`. */
  datatype Option<+T> = None | Some(value: T) {
    function GetOr(default: T): T {
      match this
      case Some(v) => v
      case None => default
    }
  }

  /** A `java.net.URI` that its parser accepted; only the text is modelled. */
  datatype Uri = Uri(text: string)

  predicate StartsWith(s: string, prefix: string) {
    |prefix| <= |s| && s[..|prefix|] == prefix
  }

  predicate EndsWith(s: string, suffix: string) {
    |suffix| <= |s| && s[|s| - |suffix|..] == suffix
  }

  // ---------------------------------------------------------------------------
  // Java integer widths

  const INT32_MIN: int := -0x8000_0000
  const INT32_MAX: int := 0x7FFF_FFFF
  const LONG_MIN: int := -0x8000_0000_0000_0000
  const LONG_MAX: int := 0x7FFF_FFFF_FFFF_FFFF

  /** Java's `int`. */
  type Int32 = x: int | INT32_MIN <= x <= INT32_MAX

  /** The value a Java `int` expression holds after two's-complement wrap-around. */
  function WrapInt32(x: int): (r: Int32)
    ensures (r - x) % 0x1_0000_0000 == 0
    ensures INT32_MIN <= x <= INT32_MAX ==> r == x
  {
    (x + 0x8000_0000) % 0x1_0000_0000 - 0x8000_0000
  }

  /** Values that differ by a multiple of 2^32 wrap to the same `int`. */
  lemma WrapInt32Congruent(x: int, y: int, k: int)
    requires x == y + k * 0x1_0000_0000
    ensures WrapInt32(x) == WrapInt32(y)
  {
    var q := (y + 0x8000_0000) / 0x1_0000_0000;
    var m := (y + 0x8000_0000) % 0x1_0000_0000;
    assert x + 0x8000_0000 == (q + k) * 0x1_0000_0000 + m;
    assert (x + 0x8000_0000) % 0x1_0000_0000 == m;
  }

  // ---------------------------------------------------------------------------
  // Decimal strings, as produced by Long.toString and read by Long.parseLong

  predicate IsDigit(c: char) {
    '0' <= c <= '9'
  }

  predicate AllDigits(s: string) {
    forall i :: 0 <= i < |s| ==> IsDigit(s[i])
  }

  function DigitValue(c: char): (d: nat)
    requires IsDigit(c)
    ensures d < 10
  {
    c as int - '0' as int
  }

  function DigitChar(d: nat): (c: char)
    requires d < 10
    ensures IsDigit(c) && DigitValue(c) == d
  {
    ('0' as int + d) as char
  }

  /** The number a string of decimal digits denotes (most significant first). */
  function DigitsValue(s: string): nat
    requires AllDigits(s)
  {
    if s == [] then 0 else DigitsValue(s[..|s| - 1]) * 10 + DigitValue(s[|s| - 1])
  }

  /** The shortest decimal representation of a natural number. */
  function DecimalString(n: nat): (r: string)
    ensures |r| > 0 && AllDigits(r)
  {
    if n < 10 then [DigitChar(n)] else DecimalString(n / 10) + [DigitChar(n % 10)]
  }

  lemma {:induction false} DecimalStringValue(n: nat)
    ensures DigitsValue(DecimalString(n)) == n
  {
    var s := DecimalString(n);
    if n < 10 {
      assert s[..|s| - 1] == [];
    } else {
      assert s[..|s| - 1] == DecimalString(n / 10);
      DecimalStringValue(n / 10);
    }
  }

  /** `Long.toString(n)`, which Java's string concatenation applies to a `long`. */
  function LongToString(n: int): (r: string)
    ensures |r| > 0
  {
    if n < 0 then "-" + DecimalString(-n) else DecimalString(n)
  }

  /** `Long.parseLong(s)` over ASCII digits: an optional sign, at least one
      digit, and a value inside the `long` range; anything else is the
      NumberFormatException, here `None`. */
  function ParseLong(s: string): (r: Option<int>)
    ensures r.Some? ==> LONG_MIN <= r.value <= LONG_MAX
    ensures r.Some? ==> |s| > 0 && (IsDigit(s[0]) || s[0] == '-' || s[0] == '+')
  {
    if |s| == 0 then None
    else
      var digits := if s[0] == '-' || s[0] == '+' then s[1..] else s;
      if |digits| == 0 || !AllDigits(digits) then None
      else
        var magnitude: int := DigitsValue(digits);
        var v := if s[0] == '-' then -magnitude else magnitude;
        if LONG_MIN <= v <= LONG_MAX then Some(v) else None
  }

  /** Long.parseLong reads back every value Long.toString prints. */
  lemma ParseLongRoundTrip(n: int)
    requires LONG_MIN <= n <= LONG_MAX
    ensures ParseLong(LongToString(n)) == Some(n)
  {
    var s := LongToString(n);
    if n < 0 {
      assert s[1..] == DecimalString(-n);
      DecimalStringValue(-n);
    } else {
      assert IsDigit(s[0]);
      DecimalStringValue(n);
    }
  }

  /** Distinct `long` values print differently. */
  lemma LongToStringInjective(a: int, b: int)
    requires LONG_MIN <= a <= LONG_MAX && LONG_MIN <= b <= LONG_MAX
    requires LongToString(a) == LongToString(b)
    ensures a == b
  {
    ParseLongRoundTrip(a);
    ParseLongRoundTrip(b);
  }

  // ---------------------------------------------------------------------------
  // Sequences

  /** The results of `f` on each element of `xs`, concatenated in order. */
  function ConcatMap<A, B>(xs: seq<A>, f: A -> seq<B>): seq<B> {
    if xs == [] then [] else ConcatMap(xs[..|xs| - 1], f) + f(xs[|xs| - 1])
  }

  lemma ConcatMapSingleton<A, B>(x: A, f: A -> seq<B>)
    ensures ConcatMap([x], f) == f(x)
  {
    assert [x][..0] == [];
  }

  lemma {:induction false} ConcatMapAppend<A, B>(xs: seq<A>, ys: seq<A>, f: A -> seq<B>)
    ensures ConcatMap(xs + ys, f) == ConcatMap(xs, f) + ConcatMap(ys, f)
    decreases |ys|
  {
    if ys == [] {
      assert xs + ys == xs;
    } else {
      var zs := xs + ys;
      assert zs[..|zs| - 1] == xs + ys[..|ys| - 1];
      ConcatMapAppend(xs, ys[..|ys| - 1], f);
    }
  }

  lemma {:induction false} InConcatMap<A, B>(xs: seq<A>, f: A -> seq<B>, e: B)
    ensures e in ConcatMap(xs, f) <==> exists i :: 0 <= i < |xs| && e in f(xs[i])
  {
    if xs != [] {
      var init := xs[..|xs| - 1];
      InConcatMap(init, f, e);
      if e in ConcatMap(xs, f) && e !in f(xs[|xs| - 1]) {
        var i :| 0 <= i < |init| && e in f(init[i]);
        assert init[i] == xs[i];
      }
      if exists i :: 0 <= i < |xs| && e in f(xs[i]) {
        var i :| 0 <= i < |xs| && e in f(xs[i]);
        if i < |init| {
          assert init[i] == xs[i];
        }
      }
    }
  }
}
