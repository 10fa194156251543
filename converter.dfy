/** The binary converter (pkg/utils/converter.go): `bits` digits of a number in base two, most
    significant first, written into a fresh array from the right. */
module Converters {

  function Pow2(n: nat): (p: nat)
    ensures p >= 1
  {
    if n == 0 then 1 else 2 * Pow2(n - 1)
  }

  /** The `width`-digit binary representation of `n`, most significant digit first; digits above
      `width` are dropped. */
  function Bits(n: nat, width: nat): (s: seq<int>)
    ensures |s| == width
  {
    if width == 0 then [] else Bits(n / 2, width - 1) + [n % 2]
  }

  /** The number a sequence of binary digits, most significant first, stands for. */
  function FromBits(s: seq<int>): int {
    if s == [] then 0 else 2 * FromBits(s[..|s| - 1]) + s[|s| - 1]
  }

  predicate Binary(s: seq<int>) {
    forall i :: 0 <= i < |s| ==> s[i] == 0 || s[i] == 1
  }

  /** Every digit is 0 or 1. */
  lemma {:induction false} BitsBinary(n: nat, width: nat)
    ensures Binary(Bits(n, width))
  {
    if width > 0 {
      BitsBinary(n / 2, width - 1);
    }
  }

  /** Zero is all zeros, whatever the width. */
  lemma {:induction false} BitsOfZero(width: nat)
    ensures forall i :: 0 <= i < width ==> Bits(0, width)[i] == 0
  {
    if width > 0 {
      BitsOfZero(width - 1);
    }
  }

  /** A number that fits in `width` digits is read back from them. */
  lemma {:induction false} BitsRoundTrip(n: nat, width: nat)
    requires n < Pow2(width)
    ensures FromBits(Bits(n, width)) == n
  {
    if width > 0 {
      BitsRoundTrip(n / 2, width - 1);
      var s := Bits(n, width);
      assert s[..|s| - 1] == Bits(n / 2, width - 1);
    }
  }

  /** And the other way: binary digits are the representation of the number they stand for. */
  lemma {:induction false} FromBitsRoundTrip(s: seq<int>)
    requires Binary(s)
    ensures 0 <= FromBits(s) < Pow2(|s|)
    ensures Bits(FromBits(s), |s|) == s
  {
    if s != [] {
      var init := s[..|s| - 1];
      assert Binary(init) by {
        assert forall i :: 0 <= i < |init| ==> init[i] == s[i];
      }
      FromBitsRoundTrip(init);
      var n := FromBits(s);
      assert n / 2 == FromBits(init) && n % 2 == s[|s| - 1];
      assert s == init + [s[|s| - 1]];
    }
  }

  /** `BinaryConverter`: the loop stops once the number is used up, so the digits it never
      writes keep the array's zero value. A number that needs more than `bits` digits would
      index below the array, so it must fit. */
  method BinaryConverter(number: int, bits: nat) returns (result: array<int>)
    requires number < Pow2(bits)
    ensures fresh(result) && result.Length == bits
    ensures number >= 0 ==> result[..] == Bits(number, bits)
    ensures number <= 0 ==> forall i :: 0 <= i < bits ==> result[i] == 0
  {
    var n := number;
    var b := bits;
    var factor := n;
    result := new int[bits](_ => 0);
    while factor >= 0 && n > 0
      invariant 0 <= b <= bits && result.Length == bits
      invariant n > 0 ==> factor >= 0
      invariant n < Pow2(b)
      invariant number <= 0 ==> n == number && b == bits
      invariant forall i :: 0 <= i < b ==> result[i] == 0
      invariant number >= 0 ==> n >= 0 && Bits(number, bits) == Bits(n, b) + result[b..]
      decreases b
    {
      ghost var before := result[b..];
      factor := n % 2;
      n := n / 2;
      result[b - 1] := factor;
      b := b - 1;
      assert result[b..] == [factor] + before;
    }
    if number >= 0 {
      BitsOfZero(b);
      assert Bits(0, b) == result[..b];
      assert result[..] == result[..b] + result[b..];
    }
  }

  /** The converter's output read back as a number is the number it was given, for every
      number that fits. */
  lemma ConverterReadsBack(number: nat, bits: nat)
    requires number < Pow2(bits)
    ensures Binary(Bits(number, bits)) && FromBits(Bits(number, bits)) == number
  {
    BitsBinary(number, bits);
    BitsRoundTrip(number, bits);
  }
}
