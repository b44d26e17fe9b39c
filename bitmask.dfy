/**
  `bitmask_to_string`: the labels of the set bits of a status word, joined
  with commas and cut to a maximum length, or a default text when no bit is
  set.
 */
module Bitmask {

  function Pow2(n: nat): (r: nat)
    ensures r >= 1
  {
    if n == 0 then 1 else 2 * Pow2(n - 1)
  }

  /** `bitmask & (1 << bit)` is non-zero. */
  predicate BitSet(mask: nat, bit: nat)
  {
    (mask / Pow2(bit)) % 2 == 1
  }

  /** The decimal digits of `n`, as an f-string renders an int. */
  function DecimalString(n: nat): (r: string)
    ensures |r| >= 1
    ensures forall i :: 0 <= i < |r| ==> '0' <= r[i] <= '9'
  {
    if n < 10 then [('0' as int + n) as char]
    else DecimalString(n / 10) + [('0' as int + n % 10) as char]
  }

  /** The text for one set bit: its entry in the label list, or
      `bit N undefined` past the end of the list. */
  function BitLabel(labels: seq<string>, bit: nat): string
  {
    if bit < |labels| then labels[bit] else "bit " + DecimalString(bit) + " undefined"
  }

  /** The positions below `bits` whose bit is set, in ascending order. */
  function SetBits(mask: nat, bits: nat): (r: seq<nat>)
    ensures forall i :: 0 <= i < |r| ==> r[i] < bits && BitSet(mask, r[i])
    ensures forall i, j :: 0 <= i < j < |r| ==> r[i] < r[j]
    ensures forall k :: 0 <= k < bits && BitSet(mask, k) ==> k in r
  {
    if bits == 0 then []
    else SetBits(mask, bits - 1) + (if BitSet(mask, bits - 1) then [bits - 1] else [])
  }

  /** The list the loop of `bitmask_to_string` builds: one label per set bit
      below `bits`, in ascending bit order. */
  function SetBitLabels(mask: nat, labels: seq<string>, bits: nat): (r: seq<string>)
  {
    if bits == 0 then []
    else
      var tail := if BitSet(mask, bits - 1) then [BitLabel(labels, bits - 1)] else [];
      SetBitLabels(mask, labels, bits - 1) + tail
  }

  /** The collected labels are, position by position, the labels of the set
      bits in ascending order. */
  lemma {:induction false} SetBitLabelsInOrder(mask: nat, labels: seq<string>, bits: nat)
    ensures |SetBitLabels(mask, labels, bits)| == |SetBits(mask, bits)|
    ensures forall i :: 0 <= i < |SetBits(mask, bits)| ==>
      SetBitLabels(mask, labels, bits)[i] == BitLabel(labels, SetBits(mask, bits)[i])
  {
    if bits > 0 {
      SetBitLabelsInOrder(mask, labels, bits - 1);
    }
  }

  /** `sep.join(parts)`. */
  function Join(parts: seq<string>, sep: string): string
  {
    if |parts| == 0 then ""
    else if |parts| == 1 then parts[0]
    else parts[0] + sep + Join(parts[1..], sep)
  }

  /** `s[:n]` for a non-negative `n`. */
  function Truncate(s: string, n: nat): (r: string)
    ensures |r| <= n && r <= s
    ensures |s| <= n ==> r == s
  {
    if |s| <= n then s else s[..n]
  }

  /** What `bitmask_to_string` returns. */
  function BitmaskText(mask: nat, labels: seq<string>, default: string, maxLength: nat, bits: nat): string
  {
    var parts := SetBitLabels(mask, labels, bits);
    if |parts| > 0 then Truncate(Join(parts, ","), maxLength) else default
  }

  /** The loop of `bitmask_to_string`, which tests each of the low `bits`
      bits against `1 << bit` and collects the labels of the set ones. */
  method BitmaskToString(mask: nat, labels: seq<string>, default: string, maxLength: nat, bits: nat)
    returns (r: string)
    ensures r == BitmaskText(mask, labels, default, maxLength, bits)
  {
    var strings: seq<string> := [];
    var bit: nat := 0;
    var flag: nat := 1;
    while bit < bits
      invariant bit <= bits
      invariant flag == Pow2(bit)
      invariant strings == SetBitLabels(mask, labels, bit)
    {
      if (mask / flag) % 2 == 1 {
        strings := strings + [BitLabel(labels, bit)];
      }
      bit := bit + 1;
      flag := 2 * flag;
    }
    if |strings| > 0 {
      r := Truncate(Join(strings, ","), maxLength);
    } else {
      r := default;
    }
  }

  /** The default text is returned exactly when none of the low `bits` bits
      is set; otherwise the text is the joined labels cut to `maxLength`. */
  lemma BitmaskDefault(mask: nat, labels: seq<string>, default: string, maxLength: nat, bits: nat)
    ensures (forall k :: 0 <= k < bits ==> !BitSet(mask, k))
      ==> BitmaskText(mask, labels, default, maxLength, bits) == default
    ensures (exists k :: 0 <= k < bits && BitSet(mask, k))
      ==> BitmaskText(mask, labels, default, maxLength, bits)
          == Truncate(Join(SetBitLabels(mask, labels, bits), ","), maxLength)
  {
    SetBitLabelsInOrder(mask, labels, bits);
    var found := SetBits(mask, bits);
    if |found| > 0 {
      assert found[0] < bits && BitSet(mask, found[0]);
    }
  }

  lemma Pow2Add(a: nat, b: nat)
    ensures Pow2(a + b) == Pow2(a) * Pow2(b)
  {
    if b > 0 {
      Pow2Add(a, b - 1);
      assert Pow2(a + b) == 2 * Pow2(a + b - 1);
    }
  }

  lemma MulAtLeast(a: nat, d: int)
    requires d >= 1
    ensures a * d >= a
  {
  }

  /** Euclidean division is unique. */
  lemma DivUnique(n: nat, a: nat, q: nat, r: nat)
    requires a > 0 && r < a && n == a * q + r
    ensures n / a == q && n % a == r
  {
    var q', r' := n / a, n % a;
    assert a * (q' - q) == r - r';
    if q' > q {
      MulAtLeast(a, q' - q);
    } else if q' < q {
      assert a * (q - q') == r' - r;
      MulAtLeast(a, q - q');
    }
  }

  lemma DivPlusMultiple(a: nat, c: nat, x: nat)
    requires a > 0
    ensures (a * c + x) / a == c + x / a
  {
    var q, r := x / a, x % a;
    assert a * c + x == a * (c + q) + r;
    DivUnique(a * c + x, a, c + q, r);
  }

  lemma MulAssoc(a: nat, b: nat, c: nat)
    ensures (a * b) * c == a * (b * c)
  {
  }

  lemma ModPlusEven(d: nat, y: nat)
    ensures (2 * d + y) % 2 == y % 2
  {
  }

  /** Dividing `pk * (2 * ph) * q + r` by `pk` leaves the parity of `r / pk`. */
  lemma ParityAfterDivision(m: nat, pk: nat, ph: nat, q: nat, r: nat)
    requires pk > 0 && m == (pk * (2 * ph)) * q + r
    ensures (m / pk) % 2 == (r / pk) % 2
  {
    MulAssoc(pk, 2 * ph, q);
    DivPlusMultiple(pk, (2 * ph) * q, r);
    MulAssoc(2, ph, q);
    ModPlusEven(ph * q, r / pk);
  }

  lemma Pow2Split(n: nat, k: nat)
    requires k < n
    ensures Pow2(n) == Pow2(k) * (2 * Pow2(n - k - 1))
  {
    Pow2Add(k, n - k);
  }

  /** Adding a multiple of `2**n` leaves every bit below `n` alone. */
  lemma BitSetAboveIgnored(low: nat, high: nat, n: nat, k: nat)
    requires k < n
    ensures BitSet(low + Pow2(n) * high, k) == BitSet(low, k)
  {
    var pk, ph := Pow2(k), Pow2(n - k - 1);
    Pow2Split(n, k);
    ParityAfterDivision(low + Pow2(n) * high, pk, ph, high, low);
  }

  lemma {:induction false} SetBitLabelsAboveIgnored(low: nat, high: nat, n: nat, labels: seq<string>, bits: nat)
    requires bits <= n
    ensures SetBitLabels(low + Pow2(n) * high, labels, bits) == SetBitLabels(low, labels, bits)
  {
    if bits > 0 {
      SetBitLabelsAboveIgnored(low, high, n, labels, bits - 1);
      BitSetAboveIgnored(low, high, n, bits - 1);
    }
  }

  /** Only the low `bits` bits of the mask matter: whatever is set from bit
      `bits` upwards, the text is the same. */
  lemma BitmaskLowBitsOnly(low: nat, high: nat, labels: seq<string>, default: string, maxLength: nat, bits: nat)
    ensures BitmaskText(low + Pow2(bits) * high, labels, default, maxLength, bits)
         == BitmaskText(low, labels, default, maxLength, bits)
  {
    SetBitLabelsAboveIgnored(low, high, bits, labels, bits);
  }

  lemma {:induction false} Pow2Monotone(a: nat, b: nat)
    requires a <= b
    ensures Pow2(a) <= Pow2(b)
  {
    if a < b {
      Pow2Monotone(a, b - 1);
    }
  }

  /** A mask below `2**lo` has no bit set at `lo` or above. */
  lemma NoHighBits(mask: nat, lo: nat, k: nat)
    requires mask < Pow2(lo) && lo <= k
    ensures !BitSet(mask, k)
  {
    Pow2Monotone(lo, k);
    DivUnique(mask, Pow2(k), 0, mask);
  }

  lemma Pow2Values()
    ensures Pow2(1) == 2 && Pow2(2) == 4 && Pow2(3) == 8 && Pow2(4) == 16
    ensures Pow2(16) == 0x1_0000
  {
    assert Pow2(8) == 256 by {
      assert Pow2(5) == 32;
      assert Pow2(6) == 64;
      assert Pow2(7) == 128;
    }
    Pow2Add(8, 8);
  }

  /** Bits 0 and 2 of 5 over a three-label list. */
  lemma BitmaskExampleLabels()
    ensures BitmaskText(5, ["A", "B", "C"], "NA", 255, 16) == "A,C"
  {
    Pow2Values();
    assert BitSet(5, 0) && !BitSet(5, 1) && BitSet(5, 2);
    forall k | 3 <= k < 16 ensures !BitSet(5, k) {
      NoHighBits(5, 3, k);
    }
    assert SetBitLabels(5, ["A", "B", "C"], 1) == ["A"];
    assert SetBitLabels(5, ["A", "B", "C"], 2) == ["A"];
    assert SetBitLabels(5, ["A", "B", "C"], 3) == ["A", "C"];
    NoBitsBetween(5, ["A", "B", "C"], 3, 16);
    assert Join(["A", "C"], ",") == "A,C";
  }

  /** Bit 3 of 8 lies past a two-label list. */
  lemma BitmaskExampleUndefined()
    ensures BitmaskText(8, ["A", "B"], "Normal", 255, 16) == "bit 3 undefined"
  {
    Pow2Values();
    assert BitSet(8, 3) && !BitSet(8, 0) && !BitSet(8, 1) && !BitSet(8, 2);
    forall k | 4 <= k < 16 ensures !BitSet(8, k) {
      NoHighBits(8, 4, k);
    }
    assert DecimalString(3) == "3";
    assert SetBitLabels(8, ["A", "B"], 3) == [] by {
      assert SetBitLabels(8, ["A", "B"], 1) == [];
      assert SetBitLabels(8, ["A", "B"], 2) == [];
    }
    assert BitLabel(["A", "B"], 3) == "bit 3 undefined";
    assert SetBitLabels(8, ["A", "B"], 4) == ["bit 3 undefined"];
    NoBitsBetween(8, ["A", "B"], 4, 16);
  }

  lemma {:induction false} NoLabelsOfZero(labels: seq<string>, bits: nat)
    ensures SetBitLabels(0, labels, bits) == []
  {
    if bits > 0 {
      NoLabelsOfZero(labels, bits - 1);
      DivUnique(0, Pow2(bits - 1), 0, 0);
    }
  }

  /** Bit 16 lies outside the 16 bits looked at. */
  lemma BitmaskExampleDefault()
    ensures BitmaskText(0x1_0000, ["A"], "Normal", 255, 16) == "Normal"
  {
    Pow2Values();
    BitmaskLowBitsOnly(0, 1, ["A"], "Normal", 255, 16);
    NoLabelsOfZero(["A"], 16);
  }

  lemma {:induction false} NoBitsBetween(mask: nat, labels: seq<string>, lo: nat, hi: nat)
    requires lo <= hi
    requires forall k :: lo <= k < hi ==> !BitSet(mask, k)
    ensures SetBitLabels(mask, labels, hi) == SetBitLabels(mask, labels, lo)
  {
    if hi > lo {
      NoBitsBetween(mask, labels, lo, hi - 1);
    }
  }
}
