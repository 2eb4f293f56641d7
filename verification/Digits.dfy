/** Fixed-width positional text in base 10 or 16, and reading it back. */
module Digits {
  import opened Options

  function Pow(base: nat, e: nat): (p: nat)
    ensures base > 0 ==> p > 0
  {
    if e == 0 then 1 else base * Pow(base, e - 1)
  }

  function DigitChar(v: nat): char
    requires v < 16
  {
    if v < 10 then '0' + v as char else 'a' + (v - 10) as char
  }

  // Upper-case hex letters are read, never written
  function DigitValue(c: char, base: nat): Option<nat> {
    if '0' <= c <= '9' then Some((c - '0') as nat)
    else if base == 16 && 'a' <= c <= 'f' then Some((c - 'a') as nat + 10)
    else if base == 16 && 'A' <= c <= 'F' then Some((c - 'A') as nat + 10)
    else None
  }

  // The low w digits of n
  function Fixed(n: nat, w: nat, base: nat): (s: string)
    requires base == 10 || base == 16
    ensures |s| == w
    ensures forall i :: 0 <= i < w ==> DigitValue(s[i], base).Some? && s[i] < 128 as char
  {
    if w == 0 then "" else Fixed(n / base, w - 1, base) + [DigitChar(n % base)]
  }

  function Read(s: string, base: nat): Option<nat> {
    if s == "" then Some(0)
    else
      var high, low := Read(s[..|s| - 1], base), DigitValue(s[|s| - 1], base);
      if high.Some? && low.Some? then Some(high.value * base + low.value) else None
  }

  lemma DropDigit(n: nat, base: nat, p: nat)
    requires base == 10 || base == 16
    requires n < base * p
    ensures n / base < p && n / base * base + n % base == n
  {
    if base == 10 { assert n < 10 * p; } else { assert n < 16 * p; }
  }

  lemma DigitRoundTrip(v: nat, base: nat)
    requires (base == 10 || base == 16) && v < base
    ensures DigitValue(DigitChar(v), base) == Some(v)
  {
  }

  lemma ReadAppend(s: string, v: nat, base: nat)
    requires (base == 10 || base == 16) && v < base && Read(s, base).Some?
    ensures Read(s + [DigitChar(v)], base) == Some(Read(s, base).value * base + v)
  {
    var t := s + [DigitChar(v)];
    DigitRoundTrip(v, base);
    assert t[..|t| - 1] == s;
  }

  lemma {:induction false} ReadFixed(n: nat, w: nat, base: nat)
    requires base == 10 || base == 16
    requires n < Pow(base, w)
    ensures Read(Fixed(n, w, base), base) == Some(n)
  {
    if w > 0 {
      DropDigit(n, base, Pow(base, w - 1));
      ReadFixed(n / base, w - 1, base);
      ReadAppend(Fixed(n / base, w - 1, base), n % base, base);
    }
  }

  lemma {:induction false} ReadInjective(a: string, b: string)
    requires |a| == |b| && Read(a, 10).Some? && Read(a, 10) == Read(b, 10)
    ensures a == b
  {
    if a != "" {
      var n := |a| - 1;
      var x, y := Read(a[..n], 10).value, Read(b[..n], 10).value;
      var i, j := DigitValue(a[n], 10).value, DigitValue(b[n], 10).value;
      assert x * 10 + i == y * 10 + j;
      ReadInjective(a[..n], b[..n]);
      assert a == a[..n] + [a[n]] && b == b[..n] + [b[n]];
    }
  }
}
