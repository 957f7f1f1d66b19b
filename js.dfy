/** Small JavaScript-semantics helpers shared by the server and the client model:
    optional values, the three states a JSON field can be in, `Math.max(lo,
    Math.min(hi, v))`, and `Number.prototype.toString(radix)` on naturals. */
module Js {

  datatype Option<+T> = None | Some(value: T)

  /** A string-valued field of an incoming JSON message: absent (`undefined`),
      explicitly `null`, or a string. */
  datatype Field = Undefined | Null | Text(s: string)

  /** JavaScript truthiness of a field: only a non-empty string is truthy. */
  predicate Truthy(f: Field)
  {
    f.Text? && f.s != ""
  }

  /** `f !== undefined` turned into the stored value: `null` clears (None). */
  function Defined(f: Field): (r: Option<string>)
    requires !f.Undefined?
    ensures r.None? <==> f.Null?
    ensures r.Some? ==> f == Text(r.value)
  {
    if f.Null? then None else Some(f.s)
  }

  function Abs(x: real): (r: real)
    ensures r >= 0.0 && (r == x || r == -x)
  {
    if x < 0.0 then -x else x
  }

  /** `Math.max(lo, Math.min(hi, v))`. */
  function Clamp(lo: real, hi: real, v: real): (r: real)
    ensures lo <= hi ==> lo <= r <= hi
    ensures lo <= v <= hi ==> r == v
    ensures v < lo ==> r == lo
    ensures lo <= hi < v ==> r == hi
  {
    var m := if hi < v then hi else v;
    if m < lo then lo else m
  }

  // ---------------------------------------------------------------------
  // n.toString(base) for naturals, lower-case digits, no padding

  predicate IsDigit(c: char, base: nat)
  {
    ('0' <= c <= '9' && (c as int) - ('0' as int) < base)
    || ('a' <= c <= 'f' && (c as int) - ('a' as int) + 10 < base)
  }

  function DigitChar(d: nat): (c: char)
    requires d < 16
    ensures IsDigit(c, d + 1)
  {
    if d < 10 then (('0' as int) + d) as char else (('a' as int) + d - 10) as char
  }

  function DigitValue(c: char): nat
  {
    if '0' <= c <= '9' then (c as int) - ('0' as int)
    else if 'a' <= c <= 'f' then (c as int) - ('a' as int) + 10
    else 0
  }

  /** The digits of `n` in `base`, most significant first, as
      `n.toString(base)` writes them. `toString` accepts bases 2 to 36; the
      model covers 2 to 16, which includes the only bases the server uses
      (10 for the default name, 16 for the colour). */
  function ToRadix(n: nat, base: nat): (s: string)
    requires 2 <= base <= 16
    ensures |s| >= 1
    ensures forall i :: 0 <= i < |s| ==> IsDigit(s[i], base)
    ensures n < base ==> |s| == 1
    // no leading zeros: the only string starting with '0' is "0" itself
    ensures s[0] == '0' <==> n == 0
    ensures s[0] == '0' ==> |s| == 1
    decreases n
  {
    if n < base then [DigitChar(n)]
    else
      DivMod(n, base);
      var t, d := ToRadix(n / base, base), DigitChar(n % base);
      assert IsDigit(d, base);
      assert forall i :: 0 <= i < |t| ==> (t + [d])[i] == t[i];
      t + [d]
  }

  /** The value of a digit string in `base` (the reading `parseInt` gives). */
  function FromRadix(s: string, base: nat): nat
  {
    if s == [] then 0 else FromRadix(s[..|s| - 1], base) * base + DigitValue(s[|s| - 1])
  }

  lemma DigitRoundTrip(d: nat)
    requires d < 16
    ensures DigitValue(DigitChar(d)) == d
  {
  }

  lemma FromRadixSnoc(t: string, c: char, base: nat)
    ensures FromRadix(t + [c], base) == FromRadix(t, base) * base + DigitValue(c)
  {
    assert (t + [c])[..|t + [c]| - 1] == t;
  }

  /** Reading back what `ToRadix` wrote gives the number again, so distinct
      numbers give distinct strings. */
  lemma {:induction false} RadixRoundTrip(n: nat, base: nat)
    requires 2 <= base <= 16
    ensures FromRadix(ToRadix(n, base), base) == n
    decreases n
  {
    if n < base {
      DigitRoundTrip(n);
      FromRadixSnoc([], DigitChar(n), base);
      assert [] + [DigitChar(n)] == ToRadix(n, base);
    } else {
      var q, r := n / base, n % base;
      var t := ToRadix(q, base);
      DivMod(n, base);
      RadixRoundTrip(q, base);
      assert ToRadix(n, base) == t + [DigitChar(r)];
      assert FromRadix(ToRadix(n, base), base) == q * base + r by {
        FromRadixSnoc(t, DigitChar(r), base);
        DigitRoundTrip(r);
      }
    }
  }

  lemma DivMod(n: nat, base: nat)
    requires base > 0
    ensures (n / base) * base + n % base == n
    ensures base >= 2 && n >= base ==> 0 < n / base < n
    ensures n % base < base
  {
  }

  lemma RadixInjective(m: nat, n: nat, base: nat)
    requires 2 <= base <= 16
    ensures ToRadix(m, base) == ToRadix(n, base) <==> m == n
  {
    RadixRoundTrip(m, base);
    RadixRoundTrip(n, base);
  }

  lemma DigitOfChar(c: char, base: nat)
    requires base <= 16 && IsDigit(c, base)
    ensures DigitValue(c) < base && DigitChar(DigitValue(c)) == c
  {
  }

  /** A digit string without leading zeros is the one `ToRadix` writes for
      its value: `toString(radix)` is the only such spelling of a number. */
  lemma {:induction false} CanonicalDigits(s: string, base: nat)
    requires 2 <= base <= 16 && |s| >= 1
    requires forall i :: 0 <= i < |s| ==> IsDigit(s[i], base)
    requires s[0] == '0' ==> |s| == 1
    ensures s == ToRadix(FromRadix(s, base), base)
    decreases |s|
  {
    var t, c := s[..|s| - 1], s[|s| - 1];
    assert s == t + [c];
    FromRadixSnoc(t, c, base);
    DigitOfChar(c, base);
    var n, d := FromRadix(s, base), DigitValue(c);
    if t == [] {
      assert n == d;
      assert ToRadix(n, base) == [DigitChar(d)];
    } else {
      assert t[0] == s[0];
      CanonicalDigits(t, base);
      var m := FromRadix(t, base);
      assert t == ToRadix(m, base);
      assert m >= 1;
      assert n == m * base + d;
      MulAtLeast(m, base);
      DivModUnique(n, base, m, d);
      assert ToRadix(n, base) == ToRadix(m, base) + [DigitChar(d)];
    }
  }

  lemma DivModUnique(n: nat, base: nat, q: nat, r: nat)
    requires base > 0 && r < base && n == q * base + r
    ensures n / base == q && n % base == r
  {
    var q', r' := n / base, n % base;
    DivMod(n, base);
    assert (q - q') * base == r' - r;
    if q > q' {
      MulAtLeast(q - q', base);
    } else if q < q' {
      MulAtLeast(q' - q, base);
    }
  }

  lemma MulAtLeast(k: int, base: nat)
    requires k >= 1
    ensures k * base >= base
  {
    var e := k - 1;
    assert k * base == e * base + base;
  }
}
