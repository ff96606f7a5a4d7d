/** The JavaScript semantics the exporters and generators rely on: 32-bit bitwise
    operators, Uint8Array conversion, Math.round, truncating `%`, and the few string
    operations (startsWith, endsWith, indexOf, replace, toString, padStart) the code uses.
    Numbers are modelled as `int` where the source only ever holds integers and as
    `real` for beat positions. */
module Js {

  datatype Option<+T> = None | Some(value: T)

  const TWO_31: int := 0x8000_0000
  const TWO_32: int := 0x1_0000_0000

  // ---------------------------------------------------------------- numbers

  /** ToInt32: the conversion every bitwise operator applies to its operands. */
  function ToInt32(x: int): (r: int)
    ensures -TWO_31 <= r < TWO_31
    ensures x % TWO_32 == r % TWO_32
    ensures 0 <= x < TWO_31 ==> r == x
  {
    var m := x % TWO_32;
    if m >= TWO_31 then m - TWO_32 else m
  }

  /** `x >> 7`, `x >> 8`, `x >> 16`, `x >> 24`: an arithmetic shift of the 32-bit value,
      that is, floor division of ToInt32(x). */
  function Shr(x: int, k: nat): int
    requires k == 7 || k == 8 || k == 16 || k == 24
  {
    ToInt32(x) / (if k == 7 then 0x80 else if k == 8 then 0x100 else if k == 16 then 0x1_0000 else 0x100_0000)
  }

  /** `x & 0xFF`: the low eight bits of the 32-bit two's complement value. */
  function And255(x: int): (r: int)
    ensures 0 <= r < 256
    ensures r == x % 256
  {
    Mod256OfInt32(x);
    ToInt32(x) % 256
  }

  /** `x & 0x7F`: the low seven bits of the 32-bit two's complement value. */
  function And127(x: int): (r: int)
    ensures 0 <= r < 128
    ensures r == x % 128
  {
    Mod256OfInt32(x);
    ToInt32(x) % 128
  }

  /** `x & 0x0F`: the low four bits of the 32-bit two's complement value. */
  function And15(x: int): (r: int)
    ensures 0 <= r < 16
    ensures r == x % 16
  {
    Mod256OfInt32(x);
    ToInt32(x) % 16
  }

  lemma Mod256OfInt32(x: int)
    ensures ToInt32(x) % 256 == x % 256
    ensures ToInt32(x) % 128 == x % 128
    ensures ToInt32(x) % 16 == x % 16
  {
    var r := ToInt32(x);
    var q := x / TWO_32;
    assert x == TWO_32 * q + x % TWO_32;
    assert r == x % TWO_32 || r == x % TWO_32 - TWO_32;
    if r == x % TWO_32 {
      SameModulo(x, r, q * 0x100_0000);
    } else {
      SameModulo(x, r, q * 0x100_0000 + 0x100_0000);
    }
  }

  /** Adding a multiple of 256 changes none of the low eight bits. */
  lemma SameModulo(x: int, r: int, k: int)
    requires x == r + 256 * k
    ensures x % 256 == r % 256
    ensures x % 128 == r % 128
    ensures x % 16 == r % 16
  {
    DivModUnique(x, 256, r / 256 + k, r % 256);
    DivModUnique(x, 128, r / 128 + 2 * k, r % 128);
    DivModUnique(x, 16, r / 16 + 16 * k, r % 16);
  }

  /** Euclidean division is characterised by its quotient and remainder. */
  lemma DivModUnique(x: int, d: int, q: int, m: int)
    requires d > 0
    requires x == d * q + m
    requires 0 <= m < d
    ensures x / d == q
    ensures x % d == m
  {
    var q' := x / d;
    var m' := x % d;
    assert x == d * q' + m';
    MulStep(d, q, q');
    MulStep(d, q', q);
  }

  /** Multiplying by a positive factor keeps a strict gap of at least the factor. */
  lemma MulStep(d: int, a: int, b: int)
    ensures d > 0 && a < b ==> d * a + d <= d * b
  {
    if d > 0 && a < b {
      var k := b - a;
      assert d * b == d * a + d * k;
      assert d * k >= d;
    }
  }

  /** `new Uint8Array([... x ...])`: every number is stored modulo 256. */
  function ToUint8(x: int): (r: int)
    ensures 0 <= r < 256
    ensures 0 <= x < 256 ==> r == x
  {
    x % 256
  }

  function ToUint8Seq(xs: seq<int>): (r: seq<int>)
    ensures |r| == |xs|
    ensures AllBytes(r)
    ensures AllBytes(xs) ==> r == xs
  {
    seq(|xs|, i requires 0 <= i < |xs| => ToUint8(xs[i]))
  }

  lemma ToUint8SeqAppend(a: seq<int>, b: seq<int>)
    ensures ToUint8Seq(a + b) == ToUint8Seq(a) + ToUint8Seq(b)
  {
  }

  /** Storing bytes after a prefix that already holds bytes leaves the prefix as it is. */
  lemma ToUint8SeqOfBytesPrefix(p: seq<int>, t: seq<int>)
    requires AllBytes(p)
    ensures ToUint8Seq(p + t) == p + ToUint8Seq(t)
  {
    ToUint8SeqAppend(p, t);
  }

  predicate AllBytes(xs: seq<int>)
  {
    forall i :: 0 <= i < |xs| ==> 0 <= xs[i] < 256
  }

  /** Math.round on a finite number: round half up. */
  function Round(x: real): (r: int)
    ensures r as real <= x + 0.5 < r as real + 1.0
  {
    (x + 0.5).Floor
  }

  /** Math.floor. */
  function Floor(x: real): (r: int)
    ensures r as real <= x < r as real + 1.0
  {
    x.Floor
  }

  /** Math.min(hi, Math.max(lo, x)). */
  function Clamp(lo: int, hi: int, x: int): (r: int)
    requires lo <= hi
    ensures lo <= r <= hi
    ensures lo <= x <= hi ==> r == x
  {
    if x < lo then lo else if x > hi then hi else x
  }

  /** The `%` operator on integers: the remainder takes the sign of the dividend. */
  function Rem(a: int, b: int): (r: int)
    requires b > 0
    ensures a >= 0 ==> r == a % b
    ensures -b < r < b
  {
    if a >= 0 then a % b else -((-a) % b)
  }

  /** `((a % n) + n) % n` with JavaScript's `%`: the non-negative residue. */
  lemma WrappedRemIsMod(a: int, n: int)
    requires n > 0
    ensures Rem(Rem(a, n) + n, n) == a % n
  {
    var r := Rem(a, n);
    assert 0 <= r + n;
    if a >= 0 {
      DivModUnique(r + n, n, 1, a % n);
    } else {
      var t := (-a) % n;
      var q := (-a) / n;
      assert -a == n * q + t;
      if t == 0 {
        DivModUnique(a, n, -q, 0);
        DivModUnique(n, n, 1, 0);
      } else {
        DivModUnique(a, n, -q - 1, n - t);
        DivModUnique(n - t, n, 0, n - t);
      }
    }
  }

  // ---------------------------------------------------------------- strings

  predicate StartsWith<T(==)>(s: seq<T>, p: seq<T>)
  {
    |p| <= |s| && s[..|p|] == p
  }

  predicate EndsWith<T(==)>(s: seq<T>, p: seq<T>)
  {
    |p| <= |s| && s[|s| - |p|..] == p
  }

  /** `s.includes(p)` */
  predicate Includes<T(==)>(s: seq<T>, p: seq<T>)
  {
    StartsWith(s, p) || (|s| > 0 && Includes(s[1..], p))
  }

  /** A string that includes `p` has every character of `p`. */
  lemma {:induction false} IncludesChar(s: string, p: string, c: char)
    requires c in p && c !in s
    ensures !Includes(s, p)
    decreases |s|
  {
    if |s| > 0 {
      IncludesChar(s[1..], p, c);
    }
  }

  /** `a.indexOf(x)`: the first position of `x`, or -1. */
  function IndexOf<T(==)>(a: seq<T>, x: T): (r: int)
    ensures -1 <= r < |a|
    ensures r == -1 <==> x !in a
    ensures r >= 0 ==> a[r] == x && forall j :: 0 <= j < r ==> a[j] != x
  {
    if |a| == 0 then -1
    else if a[0] == x then 0
    else var k := IndexOf(a[1..], x); if k == -1 then -1 else k + 1
  }

  /** `s.replace(c, '')` for a one-character pattern: drops the first occurrence. */
  function ReplaceFirst(s: string, c: char): (r: string)
    ensures c !in s ==> r == s
    ensures c in s ==> |r| == |s| - 1
  {
    if |s| == 0 then s
    else if s[0] == c then s[1..]
    else [s[0]] + ReplaceFirst(s[1..], c)
  }

  function DigitChar(d: int): char
    requires 0 <= d < 10
  {
    (d + '0' as int) as char
  }

  /** The decimal digits of a natural number, without leading zeros ("0" for zero). */
  function NatToString(n: nat): (r: string)
    ensures |r| >= 1
    ensures forall i :: 0 <= i < |r| ==> '0' <= r[i] <= '9'
    ensures n < 10 <==> |r| == 1
    ensures |r| > 1 ==> r[0] != '0'
  {
    if n < 10 then [DigitChar(n)] else NatToString(n / 10) + [DigitChar(n % 10)]
  }

  /** `Math.trunc(x)`: rounds toward zero. */
  function Trunc(x: real): (r: int)
    ensures x >= 0.0 ==> r as real <= x < r as real + 1.0
    ensures x < 0.0 ==> r as real - 1.0 < x <= r as real
  {
    if x >= 0.0 then Floor(x) else -Floor(-x)
  }

  /** JavaScript's `x % m` on numbers, `x - m * Math.trunc(x / m)`, written as
      `m * (q - Math.trunc(q))` with `q = x / m`: the remainder takes the sign of the dividend. */
  function RealRem(x: real, m: real): (r: real)
    requires m > 0.0
    ensures x >= 0.0 ==> 0.0 <= r < m
    ensures x < 0.0 ==> -m < r <= 0.0
  {
    var q := x / m;
    var f := q - Trunc(q) as real;
    assert x >= 0.0 ==> q >= 0.0;
    ScaledFraction(m, f);
    m * f
  }

  lemma ScaledFraction(m: real, f: real)
    requires m > 0.0
    ensures 0.0 <= f < 1.0 ==> 0.0 <= m * f < m
    ensures -1.0 < f <= 0.0 ==> -m < m * f <= 0.0
  {
    if 0.0 <= f < 1.0 {
      assert m * f < m * 1.0;
    }
    if -1.0 < f <= 0.0 {
      assert m * -1.0 < m * f;
    }
  }

  /** The value of a string of decimal digits. */
  function DecimalValue(k: string): nat
  {
    if |k| == 0 then 0
    else
      var c := k[|k| - 1];
      DecimalValue(k[..|k| - 1]) * 10 + (if '0' <= c <= '9' then c as int - '0' as int else 0)
  }

  /** Reading the digits back gives the number. */
  lemma {:induction false} DecimalOfNatToString(n: nat)
    ensures DecimalValue(NatToString(n)) == n
  {
    if n >= 10 {
      var s := NatToString(n);
      assert s == NatToString(n / 10) + [DigitChar(n % 10)];
      assert s[..|s| - 1] == NatToString(n / 10);
      DecimalOfNatToString(n / 10);
    }
  }

  /** `String(n)` / template interpolation of an integer-valued number. */
  function IntToString(n: int): string
  {
    if n < 0 then "-" + NatToString(-n) else NatToString(n)
  }

  /** `s.padStart(2, '0')` */
  function PadStart2(s: string): (r: string)
    ensures |r| == if |s| >= 2 then |s| else 2
  {
    if |s| >= 2 then s else if |s| == 1 then "0" + s else "00"
  }

  /** The UTF-16 code units of a string, as `charCodeAt` enumerates them. */
  function Utf16Units(s: string): (r: seq<int>)
    ensures forall i :: 0 <= i < |r| ==> 0 <= r[i] < 0x1_0000
    ensures |s| <= |r| <= 2 * |s|
  {
    if |s| == 0 then []
    else
      var c := s[0] as int;
      (if c < 0x1_0000 then [c]
       else [0xD800 + (c - 0x1_0000) / 0x400, 0xDC00 + (c - 0x1_0000) % 0x400])
      + Utf16Units(s[1..])
  }

  /** `[...s].map(c => c.charCodeAt(0))`: the first UTF-16 unit of every code point. */
  function FirstUnits(s: string): (r: seq<int>)
    ensures |r| == |s|
    ensures forall i :: 0 <= i < |r| ==> 0 <= r[i] < 0x1_0000
  {
    if |s| == 0 then []
    else
      var c := s[0] as int;
      [if c < 0x1_0000 then c else 0xD800 + (c - 0x1_0000) / 0x400] + FirstUnits(s[1..])
  }

  lemma HeadTail<T>(s: seq<T>)
    requires |s| > 0
    ensures [s[0]] + s[1..] == s
  {
  }

  lemma TailOfConcat<T>(a: seq<T>, b: seq<T>)
    requires |a| > 0
    ensures (a + b)[0] == a[0] && (a + b)[1..] == a[1..] + b
  {
  }

  lemma SuffixOfConcat<T>(a: seq<T>, b: seq<T>)
    ensures (a + b)[|a + b| - |b|..] == b
  {
  }

  /** A sequence ends with whatever its suffix ends with. */
  lemma EndsOfSuffix<T>(f: seq<T>, k: nat, body: seq<T>, tail: seq<T>)
    requires k <= |f| && f[k..] == body + tail
    ensures f[|f| - |tail|..] == tail
  {
    assert f[|f| - |tail|..] == f[k..][|body|..];
  }

  lemma Append3<T>(a: seq<T>, b: seq<T>, c: seq<T>)
    ensures a + b + c == a + (b + c)
  {
  }

  lemma ConcatAssoc<T>(a: seq<T>, b: seq<T>, c: seq<T>, d: seq<T>, e: seq<T>)
    ensures a + b + c + d + e == a + b + (c + d + e)
  {
  }

  /** Sums of integer sequences, used for counting lemmas throughout. */
  function Sum(xs: seq<int>): int
  {
    if |xs| == 0 then 0 else xs[0] + Sum(xs[1..])
  }

  /** Adding `v` to one element adds `v` to the sum. */
  lemma {:induction false} SumUpdate(s: seq<int>, p: nat, v: int)
    requires p < |s|
    ensures Sum(s[p := s[p] + v]) == Sum(s) + v
    decreases |s|
  {
    var t := s[p := s[p] + v];
    if p == 0 {
      assert t[1..] == s[1..];
    } else {
      assert t[1..] == s[1..][p - 1 := s[p] + v];
      SumUpdate(s[1..], p - 1, v);
    }
  }

  /** The sum is the element at `k` plus the sum of the rest. */
  lemma {:induction false} SumRemove(s: seq<int>, k: nat)
    requires k < |s|
    ensures Sum(s) == s[k] + Sum(s[..k] + s[k + 1..])
    decreases k
  {
    if k > 0 {
      var t := s[1..];
      SumRemove(t, k - 1);
      assert s[..k] + s[k + 1..] == [s[0]] + (t[..k - 1] + t[k..]);
    } else {
      assert s[..k] + s[k + 1..] == s[1..];
    }
  }

  /** Removing the element at `k` removes one occurrence of it. */
  lemma MultisetRemove(b: seq<int>, k: nat)
    requires k < |b|
    ensures multiset(b[..k] + b[k + 1..]) == multiset(b) - multiset{b[k]}
  {
    assert b == b[..k] + [b[k]] + b[k + 1..];
    assert multiset(b) == multiset(b[..k]) + multiset{b[k]} + multiset(b[k + 1..]);
  }

  lemma TailMultiset(a: seq<int>)
    requires |a| > 0
    ensures multiset(a[1..]) == multiset(a) - multiset{a[0]}
  {
    assert a == [a[0]] + a[1..];
  }

  /** A permutation has the same sum. */
  lemma {:induction false} SumPermutation(a: seq<int>, b: seq<int>)
    requires multiset(a) == multiset(b)
    ensures Sum(a) == Sum(b)
    decreases |a|
  {
    if |a| > 0 {
      assert a[0] in multiset(b);
      var k :| 0 <= k < |b| && b[k] == a[0];
      var rest := b[..k] + b[k + 1..];
      MultisetRemove(b, k);
      TailMultiset(a);
      SumRemove(b, k);
      SumPermutation(a[1..], rest);
    } else {
      assert |b| == 0;
    }
  }
}
