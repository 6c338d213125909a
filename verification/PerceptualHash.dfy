/** Perceptual hashing: the ai-service packs thresholded pixels into a hex
    string, the ingestion worker parses two such strings back and counts the
    differing bits. */
module PerceptualHash {
  import opened Common

  // ---- Bits, values and hexadecimal text ----

  /** The number whose binary digits, most significant first, are `bits`. */
  function BitsValue(bits: seq<bool>): nat {
    if bits == [] then 0
    else 2 * BitsValue(bits[..|bits| - 1]) + (if bits[|bits| - 1] then 1 else 0)
  }

  /** The low `width` binary digits of `value`, most significant first. */
  function BitsOf(value: nat, width: nat): seq<bool> {
    if width == 0 then [] else BitsOf(value / 2, width - 1) + [value % 2 == 1]
  }

  const HEX: string := "0123456789abcdef"

  function DigitValue(c: char): Option<nat> {
    if '0' <= c <= '9' then Some((c - '0') as nat)
    else if 'a' <= c <= 'f' then Some((c - 'a') as nat + 10)
    else if 'A' <= c <= 'F' then Some((c - 'A') as nat + 10)
    else None
  }

  /** `format(value, "x")`: no leading zeros, "0" for zero. */
  function ToHex(value: nat): string {
    if value < 16 then [HEX[value]] else ToHex(value / 16) + [HEX[value % 16]]
  }

  function Zeros(n: nat): string { seq(n, _ => '0') }

  /** `f"{value:0{width}x}"` */
  function PaddedHex(value: nat, width: nat): string {
    var digits := ToHex(value);
    if |digits| < width then Zeros(width - |digits|) + digits else digits
  }

  /** `int(s, 16)`; None stands for the ValueError. */
  function ParseHex(s: string): Option<nat> {
    if s == [] then None
    else if |s| == 1 then DigitValue(s[0])
    else match (ParseHex(s[..|s| - 1]), DigitValue(s[|s| - 1]))
      case (Some(hi), Some(lo)) => Some(16 * hi + lo)
      case _ => None
  }

  function Pow2(n: nat): nat { if n == 0 then 1 else 2 * Pow2(n - 1) }

  /** The hash of an already thresholded picture. */
  function HashOf(bits: seq<bool>): string { PaddedHex(BitsValue(bits), |bits| / 4) }

  /** `average_hash` from the thresholded pixels on: the shift-and-or loop. */
  method AverageHash(bits: seq<bool>, side: nat) returns (hash: string)
    requires |bits| == side * side
    ensures hash == HashOf(bits)
    ensures ParseHex(hash) == Some(BitsValue(bits))
  {
    var value: nat := 0;
    for i := 0 to |bits|
      invariant value == BitsValue(bits[..i])
    {
      assert bits[..i + 1][..i] == bits[..i];
      value := value * 2 + (if bits[i] then 1 else 0);
    }
    assert bits[..|bits|] == bits;
    hash := PaddedHex(value, side * side / 4);
    ParsePadded(value, side * side / 4);
  }

  // ---- Round trip ----

  lemma HexDigits(d: nat)
    requires d < 16
    ensures DigitValue(HEX[d]) == Some(d)
  {
  }

  lemma {:induction false} ParseToHex(value: nat)
    ensures ToHex(value) != "" && ParseHex(ToHex(value)) == Some(value)
  {
    HexDigits(value % 16);
    if value >= 16 {
      ParseToHex(value / 16);
      var front, s := ToHex(value / 16), ToHex(value);
      assert s == front + [HEX[value % 16]];
      assert s[..|s| - 1] == front && s[|s| - 1] == HEX[value % 16] && |s| > 1;
    }
  }

  lemma {:induction false} ParseLeadingZeros(n: nat, s: string)
    requires s != "" && ParseHex(s).Some?
    ensures ParseHex(Zeros(n) + s) == ParseHex(s)
  {
    var t := Zeros(n) + s;
    if |s| > 1 {
      var front := s[..|s| - 1];
      assert t[..|t| - 1] == Zeros(n) + front;
      ParseLeadingZeros(n, front);
    } else if n > 0 {
      assert t[..|t| - 1] == Zeros(n - 1) + "0";
      ParseLeadingZeros(n - 1, "0");
    } else {
      assert t == s;
    }
  }

  lemma ParsePadded(value: nat, width: nat)
    ensures ParseHex(PaddedHex(value, width)) == Some(value)
  {
    ParseToHex(value);
    if |ToHex(value)| < width {
      ParseLeadingZeros(width - |ToHex(value)|, ToHex(value));
    }
  }

  lemma {:induction false} HexLength(value: nat, width: nat)
    requires 1 <= width
    ensures |ToHex(value)| <= width <==> value < Pow2(4 * width)
  {
    assert Pow2(4 * width) == 16 * Pow2(4 * (width - 1)) by {
      assert Pow2(4 * width) == 2 * Pow2(4 * width - 1);
      assert Pow2(4 * width - 1) == 2 * Pow2(4 * width - 2);
      assert Pow2(4 * width - 2) == 2 * Pow2(4 * width - 3);
    }
    if width > 1 {
      HexLength(value / 16, width - 1);
      if value < 16 { PowPositive(4 * (width - 1)); }
    } else if value >= 16 {
      ParseToHex(value / 16);
    }
  }

  lemma {:induction false} PowPositive(n: nat)
    ensures Pow2(n) >= 1
  {
    if n > 0 { PowPositive(n - 1); }
  }

  lemma {:induction false} ValueBound(bits: seq<bool>)
    ensures BitsValue(bits) < Pow2(|bits|)
  {
    if bits != [] { ValueBound(bits[..|bits| - 1]); }
  }

  lemma {:induction false} BitsOfValue(bits: seq<bool>)
    ensures BitsOf(BitsValue(bits), |bits|) == bits
  {
    if bits != [] {
      BitsOfValue(bits[..|bits| - 1]);
      assert bits == bits[..|bits| - 1] + [bits[|bits| - 1]];
    }
  }

  /** A padded hash has the nominal width exactly when the value fits it. */
  lemma {:induction false} PaddedLength(value: nat, width: nat)
    requires 1 <= width
    ensures |PaddedHex(value, width)| == width <==> value < Pow2(4 * width)
  {
    HexLength(value, width);
  }

  /** Packing loses nothing: the printed hash parses back to the same bits. */
  lemma {:induction false} HashRoundTrip(bits: seq<bool>)
    ensures ParseHex(HashOf(bits)).Some?
    ensures BitsOf(ParseHex(HashOf(bits)).value, |bits|) == bits
  {
    ParsePadded(BitsValue(bits), |bits| / 4);
    BitsOfValue(bits);
  }

  /** 4n pixels print as exactly n digits. */
  lemma {:induction false} HashWidth(bits: seq<bool>, n: nat)
    requires |bits| == 4 * n && 1 <= n
    ensures |HashOf(bits)| == n
  {
    ValueBound(bits);
    PaddedLength(BitsValue(bits), n);
  }

  // ---- Distance ----

  /** `x ^ y` on non-negative integers. */
  function Xor(x: nat, y: nat): nat
    decreases x + y
  {
    if x == 0 && y == 0 then 0
    else 2 * Xor(x / 2, y / 2) + (if x % 2 != y % 2 then 1 else 0)
  }

  /** `bin(n)` without its "0b" prefix, which holds no '1'. */
  function Binary(n: nat): string {
    if n < 2 then (if n == 0 then "0" else "1")
    else Binary(n / 2) + (if n % 2 == 0 then "0" else "1")
  }

  /** `s.count("1")` */
  function CountOnes(s: string): nat {
    if s == [] then 0 else CountOnes(s[..|s| - 1]) + (if s[|s| - 1] == '1' then 1 else 0)
  }

  /** `hamming_distance`; None stands for the ValueError of a non-hex argument. */
  function HammingDistance(a: string, b: string): Option<nat> {
    match (ParseHex(a), ParseHex(b))
    case (Some(x), Some(y)) => Some(CountOnes(Binary(Xor(x, y))))
    case _ => None
  }

  /** Reference definition: the number of positions where two pictures differ. */
  function Differences(p: seq<bool>, q: seq<bool>): nat
    requires |p| == |q|
  {
    if p == [] then 0
    else Differences(p[..|p| - 1], q[..|q| - 1]) + (if p[|p| - 1] != q[|q| - 1] then 1 else 0)
  }

  /** Bits in which two numbers differ, one bit at a time. */
  function BitDistance(x: nat, y: nat): nat
    decreases x + y
  {
    if x == 0 && y == 0 then 0
    else BitDistance(x / 2, y / 2) + (if x % 2 != y % 2 then 1 else 0)
  }

  lemma {:induction false} OnesOfXor(x: nat, y: nat)
    ensures CountOnes(Binary(Xor(x, y))) == BitDistance(x, y)
    decreases x + y
  {
    if x != 0 || y != 0 {
      OnesOfXor(x / 2, y / 2);
      var rest, last := Xor(x / 2, y / 2), if x % 2 != y % 2 then 1 else 0;
      var n := Xor(x, y);
      assert n / 2 == rest && n % 2 == last;
      if n >= 2 {
        var s := Binary(n);
        assert s[..|s| - 1] == Binary(rest);
      } else {
        assert rest == 0;
        assert CountOnes("0") == CountOnes("0"[..0]) == 0;
        assert CountOnes("1") == CountOnes("1"[..0]) + 1;
      }
    }
  }

  lemma {:induction false} DistanceOfValues(p: seq<bool>, q: seq<bool>)
    requires |p| == |q|
    ensures BitDistance(BitsValue(p), BitsValue(q)) == Differences(p, q)
  {
    if p != [] {
      DistanceOfValues(p[..|p| - 1], q[..|q| - 1]);
    }
  }

  lemma {:induction false} BitDistanceMetric(x: nat, y: nat, z: nat)
    ensures BitDistance(x, y) == BitDistance(y, x)
    ensures BitDistance(x, y) == 0 <==> x == y
    ensures BitDistance(x, z) <= BitDistance(x, y) + BitDistance(y, z)
    decreases x + y + z
  {
    if x != 0 || y != 0 || z != 0 {
      BitDistanceMetric(x / 2, y / 2, z / 2);
    }
  }

  lemma {:induction false} DifferencesBound(p: seq<bool>, q: seq<bool>)
    requires |p| == |q|
    ensures Differences(p, q) <= |p|
  {
    if p != [] { DifferencesBound(p[..|p| - 1], q[..|q| - 1]); }
  }

  /** Across the two services: the distance the worker computes from two printed
      hashes is the number of differing pixels, hence at most the bit count and
      zero exactly for equal pictures. */
  lemma HammingCountsPixels(p: seq<bool>, q: seq<bool>)
    requires |p| == |q|
    ensures HammingDistance(HashOf(p), HashOf(q)) == Some(Differences(p, q))
    ensures Differences(p, q) <= |p|
    ensures Differences(p, q) == 0 <==> p == q
  {
    ParsePadded(BitsValue(p), |p| / 4);
    ParsePadded(BitsValue(q), |q| / 4);
    OnesOfXor(BitsValue(p), BitsValue(q));
    DistanceOfValues(p, q);
    DifferencesBound(p, q);
    BitDistanceMetric(BitsValue(p), BitsValue(q), 0);
    BitsOfValue(p);
    BitsOfValue(q);
  }

  /** On every triple of parsable strings the distance is a metric up to
      equality of the numbers they denote. */
  lemma HammingIsMetric(a: string, b: string, c: string)
    requires ParseHex(a).Some? && ParseHex(b).Some? && ParseHex(c).Some?
    ensures HammingDistance(a, b).Some? && HammingDistance(b, c).Some? && HammingDistance(a, c).Some?
    ensures HammingDistance(a, b) == HammingDistance(b, a)
    ensures HammingDistance(a, b) == Some(0) <==> ParseHex(a) == ParseHex(b)
    ensures HammingDistance(a, c).value <= HammingDistance(a, b).value + HammingDistance(b, c).value
  {
    var x, y, z := ParseHex(a).value, ParseHex(b).value, ParseHex(c).value;
    OnesOfXor(x, y);
    OnesOfXor(y, x);
    OnesOfXor(y, z);
    OnesOfXor(x, z);
    BitDistanceMetric(x, y, z);
  }
}
