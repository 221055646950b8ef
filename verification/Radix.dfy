/** Positional notation, most significant digit first: the arithmetic under
    base58 text, big-endian integers and hexadecimal quantities. */
module Radix {
  type Byte = x: nat | x < 256

  predicate DigitsIn(b: nat, ds: seq<nat>) {
    forall i | 0 <= i < |ds| :: ds[i] < b
  }

  /** The number a digit sequence denotes. */
  function Value(b: nat, ds: seq<nat>): nat {
    if ds == [] then 0 else Value(b, ds[..|ds| - 1]) * b + ds[|ds| - 1]
  }

  /** The digits of a number, without leading zeros (zero has none). */
  function Numeral(b: nat, n: nat): (ds: seq<nat>)
    requires b >= 2
    ensures DigitsIn(b, ds)
    ensures ds != [] ==> ds[0] != 0
    ensures ds == [] <==> n == 0
  {
    if n == 0 then [] else Numeral(b, n / b) + [n % b]
  }

  /** One division step moves the last digit of the number in front of `ds`. */
  lemma NumeralStep(b: nat, n: nat, ds: seq<nat>)
    requires b >= 2 && n > 0
    ensures Numeral(b, n / b) + ([n % b] + ds) == Numeral(b, n) + ds
  {
  }

  function Pow(b: nat, k: nat): nat {
    if k == 0 then 1 else Pow(b, k - 1) * b
  }

  function Zeros(k: nat): (ds: seq<nat>)
    ensures |ds| == k && forall i | 0 <= i < k :: ds[i] == 0
  {
    seq(k, _ => 0)
  }

  /** How many leading zero digits a sequence has. */
  function LeadingZeros(ds: seq<nat>): (k: nat)
    ensures k <= |ds|
    ensures ds[..k] == Zeros(k)
    ensures k < |ds| ==> ds[k] != 0
  {
    if ds != [] && ds[0] == 0 then
      var k := 1 + LeadingZeros(ds[1..]);
      assert ds[..k] == [0] + ds[1..][..k - 1];
      k
    else 0
  }

  lemma LeadingZerosUnique(k: nat, body: seq<nat>)
    requires body == [] || body[0] != 0
    ensures LeadingZeros(Zeros(k) + body) == k
  {
    var all := Zeros(k) + body;
    var z := LeadingZeros(all);
    assert forall i | 0 <= i < z :: all[i] == all[..z][i] == 0;
    assert body != [] ==> all[k] == body[0];
    assert forall i | 0 <= i < k :: all[i] == 0;
  }

  lemma ValueSnoc(b: nat, ds: seq<nat>, d: nat)
    ensures Value(b, ds + [d]) == Value(b, ds) * b + d
  {
    assert (ds + [d])[..|ds|] == ds;
  }

  lemma {:induction false} ValueOfNumeral(b: nat, n: nat)
    requires b >= 2
    ensures Value(b, Numeral(b, n)) == n
  {
    if n != 0 {
      Division(b, n);
      ValueOfNumeral(b, n / b);
      ValueSnoc(b, Numeral(b, n / b), n % b);
    }
  }

  lemma Division(b: nat, n: nat)
    requires b >= 1
    ensures n == n / b * b + n % b
    ensures b >= 2 && n > 0 ==> n / b < n
  {
  }

  lemma TimesMonotone(x: nat, y: nat, b: nat)
    ensures x <= y ==> x * b <= y * b
    ensures (x + 1) * b == x * b + b
  {
  }

  lemma TimesAssociative(x: nat, y: nat, z: nat)
    ensures x * y * z == x * (y * z)
  {
  }

  lemma Distribute(x: nat, y: nat, z: nat)
    ensures (x + y) * z == x * z + y * z
  {
  }

  lemma QuotientUnique(b: nat, q: nat, r: nat, d: nat, m: nat)
    requires r < b && m < b && q * b + r == d * b + m
    ensures q == d && r == m
  {
    TimesMonotone(q + 1, d, b);
    TimesMonotone(d + 1, q, b);
    Distribute(q, 1, b);
    Distribute(d, 1, b);
  }

  lemma QuotientRemainder(b: nat, q: nat, r: nat)
    requires r < b
    ensures (q * b + r) / b == q && (q * b + r) % b == r
  {
    var n := q * b + r;
    assert n == n / b * b + n % b;
    QuotientUnique(b, q, r, n / b, n % b);
  }

  lemma {:induction false} NumeralOfValue(b: nat, ds: seq<nat>)
    requires b >= 2 && DigitsIn(b, ds)
    requires ds == [] || ds[0] != 0
    ensures Numeral(b, Value(b, ds)) == ds
  {
    if ds != [] {
      var init, last := ds[..|ds| - 1], ds[|ds| - 1];
      NumeralOfValue(b, init);
      QuotientRemainder(b, Value(b, init), last);
      TimesMonotone(1, Value(b, init), b);
      assert init == [] ==> last == ds[0];
    }
  }

  lemma {:induction false} ValueLeadingZeros(b: nat, k: nat, ds: seq<nat>)
    ensures Value(b, Zeros(k) + ds) == Value(b, ds)
  {
    var all := Zeros(k) + ds;
    if ds == [] {
      if k > 0 {
        assert all[..k - 1] == Zeros(k - 1) + [];
        ValueLeadingZeros(b, k - 1, []);
      }
    } else {
      assert all[..|all| - 1] == Zeros(k) + ds[..|ds| - 1];
      ValueLeadingZeros(b, k, ds[..|ds| - 1]);
    }
  }

  lemma {:induction false} ValueConcat(b: nat, a: seq<nat>, c: seq<nat>)
    ensures Value(b, a + c) == Value(b, a) * Pow(b, |c|) + Value(b, c)
  {
    if c == [] {
      assert a + c == a;
    } else {
      var init, last := c[..|c| - 1], c[|c| - 1];
      assert (a + c)[..|a + c| - 1] == a + init;
      ValueConcat(b, a, init);
      Distribute(Value(b, a) * Pow(b, |init|), Value(b, init), b);
      TimesAssociative(Value(b, a), Pow(b, |init|), b);
    }
  }

  lemma {:induction false} ValueBound(b: nat, ds: seq<nat>)
    requires b >= 1 && DigitsIn(b, ds)
    ensures Value(b, ds) < Pow(b, |ds|)
  {
    if ds != [] {
      var init := ds[..|ds| - 1];
      ValueBound(b, init);
      TimesMonotone(Value(b, init) + 1, Pow(b, |init|), b);
      TimesMonotone(Value(b, init), Pow(b, |init|), b);
    }
  }

  /** Repeated division: what is left of `n` without its last `k` digits. */
  function Shift(b: nat, n: nat, k: nat): nat
    requires b >= 2
    decreases k
  {
    if k == 0 then n else Shift(b, n / b, k - 1)
  }

  lemma {:induction false} ShiftOfRange(b: nat, n: nat, k: nat, lead: nat)
    requires b >= 2
    requires lead * Pow(b, k) <= n < (lead + 1) * Pow(b, k)
    ensures Shift(b, n, k) == lead
    decreases k
  {
    if k > 0 {
      var p := Pow(b, k - 1);
      TimesAssociative(lead, p, b);
      TimesAssociative(lead + 1, p, b);
      QuotientBounds(b, n, lead * p, (lead + 1) * p);
      ShiftOfRange(b, n / b, k - 1, lead);
    }
  }

  /** A number lying between `lead` and `lead + 1` times a power has one more
      digit than the power, and `lead` is the first of them. */
  lemma {:induction false} NumeralShape(b: nat, n: nat, k: nat, lead: nat)
    requires b >= 2 && 0 < lead < b
    requires Shift(b, n, k) == lead
    ensures |Numeral(b, n)| == k + 1 && Numeral(b, n)[0] == lead
    decreases k
  {
    if k == 0 {
      QuotientRemainder(b, 0, lead);
      assert Numeral(b, n) == Numeral(b, 0) + [lead];
    } else {
      NumeralShape(b, n / b, k - 1, lead);
      assert Numeral(b, n / b) != [];
      assert n != 0;
    }
  }

  lemma QuotientBounds(b: nat, n: nat, lo: nat, hi: nat)
    requires b >= 1
    requires lo * b <= n < hi * b
    ensures lo <= n / b < hi
  {
    assert n == n / b * b + n % b;
    DivideBounds(b, n / b, n % b, lo, hi);
  }

  lemma DivideBounds(b: nat, q: nat, r: nat, lo: nat, hi: nat)
    requires r < b
    requires lo * b <= q * b + r < hi * b
    ensures lo <= q < hi
  {
    TimesMonotone(q + 1, lo, b);
    TimesMonotone(q, lo, b);
    TimesMonotone(hi, q, b);
  }

  lemma {:induction false} PowPositive(b: nat, k: nat)
    requires b >= 1
    ensures Pow(b, k) >= 1
  {
    if k > 0 {
      PowPositive(b, k - 1);
      TimesMonotone(1, Pow(b, k - 1), b);
    }
  }

  /** Change of radix that keeps leading zeros one for one. */
  function Recode(a: nat, b: nat, ds: seq<nat>): (r: seq<nat>)
    requires b >= 2
    ensures DigitsIn(b, r)
  {
    Zeros(LeadingZeros(ds)) + Numeral(b, Value(a, ds))
  }

  /** Changing the radix and changing it back gives the digits one started with. */
  lemma RecodeInverse(a: nat, b: nat, ds: seq<nat>)
    requires a >= 2 && b >= 2 && DigitsIn(a, ds)
    ensures Recode(b, a, Recode(a, b, ds)) == ds
  {
    var k, n := LeadingZeros(ds), Value(a, ds);
    ValueLeadingZeros(b, k, Numeral(b, n));
    ValueOfNumeral(b, n);
    LeadingZerosUnique(k, Numeral(b, n));
    var rest := ds[k..];
    SplitLeadingZeros(ds, rest);
    ValueLeadingZeros(a, k, rest);
    NumeralOfValue(a, rest);
  }

  lemma SplitLeadingZeros(ds: seq<nat>, rest: seq<nat>)
    requires rest == ds[LeadingZeros(ds)..]
    ensures ds == Zeros(LeadingZeros(ds)) + rest
    ensures rest == [] || rest[0] != 0
  {
    assert ds == ds[..LeadingZeros(ds)] + ds[LeadingZeros(ds)..];
  }

  // Big-endian byte strings.

  /** `int.bit_length()`. */
  function BitLength(n: nat): nat {
    if n == 0 then 0 else 1 + BitLength(n / 2)
  }

  /** `int.to_bytes(k, "big")` of a number that fits. */
  function ToBytes(n: nat, k: nat): (bs: seq<Byte>)
    ensures |bs| == k
  {
    if k == 0 then [] else ToBytes(n / 256, k - 1) + [n % 256]
  }

  /** The width the decoder computes from the bit length is exactly the number
      of base-256 digits. */
  lemma {:induction false} ByteWidth(n: nat)
    ensures (BitLength(n) + 7) / 8 == |Numeral(256, n)|
  {
    if n >= 256 {
      assert n / 2 / 2 / 2 / 2 / 2 / 2 / 2 / 2 == n / 256;
      BitLengthByte(n);
      ByteWidth(n / 256);
    } else if n > 0 {
      SmallBitLength(n);
      assert Numeral(256, n / 256) == [];
    }
  }

  lemma BitLengthByte(n: nat)
    requires n >= 256
    ensures BitLength(n) == 8 + BitLength(n / 256)
  {
    BitLengthNibble(n);
    BitLengthNibble(n / 16);
    assert n / 16 / 16 == n / 256;
  }

  lemma BitLengthNibble(n: nat)
    requires n >= 16
    ensures BitLength(n) == 4 + BitLength(n / 16)
  {
    var a := n / 2;
    var c := a / 2;
    var d := c / 2;
    assert d / 2 == n / 16;
    assert BitLength(n) == 1 + BitLength(a);
    assert BitLength(a) == 1 + BitLength(c);
    assert BitLength(c) == 1 + BitLength(d);
    assert BitLength(d) == 1 + BitLength(d / 2);
  }

  lemma {:induction false} BitLengthBound(n: nat, k: nat)
    requires n < Pow(2, k)
    ensures BitLength(n) <= k
  {
    if n > 0 {
      assert k > 0;
      assert n / 2 < Pow(2, k - 1);
      BitLengthBound(n / 2, k - 1);
    }
  }

  lemma SmallBitLength(n: nat)
    requires 0 < n < 256
    ensures 1 <= BitLength(n) <= 8
  {
    assert Pow(2, 4) == 16;
    assert Pow(2, 8) == 256 by {
      assert Pow(2, 6) == 64;
    }
    BitLengthBound(n, 8);
  }

  lemma {:induction false} ToBytesIsNumeral(n: nat, k: nat)
    requires k == |Numeral(256, n)|
    ensures ToBytes(n, k) == Numeral(256, n)
  {
    if n != 0 {
      ToBytesIsNumeral(n / 256, k - 1);
    }
  }

  lemma {:induction false} ValueOfToBytes(n: nat, k: nat)
    requires n < Pow(256, k)
    ensures Value(256, ToBytes(n, k)) == n
  {
    if k > 0 {
      DivideBounds(256, n / 256, n % 256, 0, Pow(256, k - 1));
      ValueOfToBytes(n / 256, k - 1);
      assert ToBytes(n, k)[..k - 1] == ToBytes(n / 256, k - 1);
    }
  }

  lemma {:induction false} ToBytesOfValue(bs: seq<Byte>)
    ensures ToBytes(Value(256, bs), |bs|) == bs
  {
    if bs != [] {
      var init := bs[..|bs| - 1];
      ToBytesOfValue(init);
      QuotientRemainder(256, Value(256, init), bs[|bs| - 1]);
    }
  }
}
