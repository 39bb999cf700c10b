/** Machine words, byte strings and their values.

    The lanes of the sponge are `bv64`; every other integer is a `nat`, with wrap-around written out
    where the source has it.  The two worlds meet only in `LaneBytes` and `BytesLane`, which list and
    assemble the eight bytes of a word. */
module Words {

  type byte = b: nat | b < 0x100

  const TWO32: nat := 0x1_0000_0000
  const TWO64: nat := 0x1_0000_0000_0000_0000
  const TWO128: nat := 0x1_0000_0000_0000_0000_0000_0000_0000_0000
  const TWO192: nat := 0x1_0000_0000_0000_0000_0000_0000_0000_0000_0000_0000_0000_0000
  const TWO256: nat := 0x1_0000_0000_0000_0000_0000_0000_0000_0000_0000_0000_0000_0000_0000_0000_0000_0000

  /** A uint256. */
  type uint256 = n: nat | n < TWO256

  /** A challenge, a digest or a mapping key: 32 bytes. */
  type bytes32 = s: seq<byte> | |s| == 32
    witness [0, 0, 0, 0, 0, 0, 0, 0, 0, 0, 0, 0, 0, 0, 0, 0, 0, 0, 0, 0, 0, 0, 0, 0, 0, 0, 0, 0, 0, 0, 0, 0]

  function Min(a: nat, b: nat): nat {
    if a <= b then a else b
  }

  // ---------- values of byte strings

  function Reverse<T>(s: seq<T>): (r: seq<T>)
    ensures |r| == |s|
  {
    seq(|s|, k requires 0 <= k < |s| => s[|s| - 1 - k])
  }

  /** int.from_bytes(s, "little") */
  function LittleEndian(s: seq<byte>): nat {
    if s == [] then 0 else s[0] + 0x100 * LittleEndian(s[1..])
  }

  /** int.from_bytes(s, "big") */
  function BigEndian(s: seq<byte>): nat {
    if s == [] then 0 else 0x100 * BigEndian(s[..|s| - 1]) + s[|s| - 1]
  }

  /** n.to_bytes(len, "big"), the high bytes of an over-long `n` being dropped. */
  function ToBigEndian(n: nat, len: nat): (s: seq<byte>)
    ensures |s| == len
  {
    if len == 0 then [] else ToBigEndian(n / 0x100, len - 1) + [n % 0x100]
  }

  function Pow256(k: nat): (p: nat)
    ensures p > 0
  {
    if k == 0 then 1 else 0x100 * Pow256(k - 1)
  }

  lemma {:induction false} BigEndianBound(s: seq<byte>)
    ensures BigEndian(s) < Pow256(|s|)
  {
    if s != [] { BigEndianBound(s[..|s| - 1]); }
  }

  lemma {:induction false} BigEndianRoundTrip(n: nat, len: nat)
    requires n < Pow256(len)
    ensures BigEndian(ToBigEndian(n, len)) == n
  {
    if len > 0 {
      BigEndianRoundTrip(n / 0x100, len - 1);
      assert ToBigEndian(n, len)[..len - 1] == ToBigEndian(n / 0x100, len - 1);
    }
  }

  lemma LastByte(n: nat, b: byte)
    ensures (0x100 * n + b) / 0x100 == n && (0x100 * n + b) % 0x100 == b
  {
  }

  lemma {:induction false} ToBigEndianRoundTrip(s: seq<byte>)
    ensures ToBigEndian(BigEndian(s), |s|) == s
  {
    if s != [] {
      ToBigEndianRoundTrip(s[..|s| - 1]);
      LastByte(BigEndian(s[..|s| - 1]), s[|s| - 1]);
      assert s == s[..|s| - 1] + [s[|s| - 1]];
    }
  }

  lemma ScaleAppend(a: nat, p: nat, b: nat, v: nat)
    ensures 0x100 * (a * p + b) + v == a * (0x100 * p) + (0x100 * b + v)
  {
  }

  lemma {:induction false} BigEndianAppend(s: seq<byte>, t: seq<byte>)
    ensures BigEndian(s + t) == BigEndian(s) * Pow256(|t|) + BigEndian(t)
  {
    if t == [] {
      assert s + t == s;
    } else {
      var t' := t[..|t| - 1];
      assert (s + t)[..|s + t| - 1] == s + t';
      BigEndianAppend(s, t');
      ScaleAppend(BigEndian(s), Pow256(|t'|), BigEndian(t'), t[|t| - 1]);
    }
  }

  lemma {:induction false} ToBigEndianSplit(high: nat, low: nat, j: nat, k: nat)
    requires low < Pow256(k)
    ensures ToBigEndian(high * Pow256(k) + low, j + k) == ToBigEndian(high, j) + ToBigEndian(low, k)
  {
    if k > 0 {
      var p := Pow256(k - 1);
      var n := high * Pow256(k) + low;
      ToBigEndianSplit(high, low / 0x100, j, k - 1);
      SplitByte(high, p, low);
    }
  }

  lemma SplitByte(high: nat, p: nat, low: nat)
    ensures var n := high * (0x100 * p) + low; n / 0x100 == high * p + low / 0x100 && n % 0x100 == low % 0x100
  {
    assert high * (0x100 * p) == 0x100 * (high * p);
  }

  lemma {:induction false} LittleEndianReverse(s: seq<byte>)
    ensures LittleEndian(Reverse(s)) == BigEndian(s)
  {
    if s != [] {
      assert Reverse(s)[1..] == Reverse(s[..|s| - 1]);
      LittleEndianReverse(s[..|s| - 1]);
    }
  }

  lemma ReverseTwice<T>(s: seq<T>)
    ensures Reverse(Reverse(s)) == s
  {
  }

  // ---------- bits of a byte

  /** A byte as eight bits, one hexadecimal digit at a time. */
  function ByteBits(b: byte): bv8 {
    JoinDigits((b / 16) as bv4, (b % 16) as bv4)
  }

  function BitsByte(x: bv8): byte {
    16 * HighDigit(x) as nat + LowDigit(x) as nat
  }

  function HighDigit(x: bv8): bv4 { (x >> 4) as bv4 }

  function LowDigit(x: bv8): bv4 { (x & 0xF) as bv4 }

  function JoinDigits(high: bv4, low: bv4): bv8 { ((high as bv8) << 4) | (low as bv8) }

  lemma DigitRoundTrip(n: nat)
    requires n < 16
    ensures (n as bv4) as nat == n
  {
  }

  lemma SplitJoined(high: bv4, low: bv4)
    ensures HighDigit(JoinDigits(high, low)) == high && LowDigit(JoinDigits(high, low)) == low
  {
  }

  lemma ByteRoundTrip(b: byte)
    ensures BitsByte(ByteBits(b)) == b
  {
    DigitRoundTrip(b / 16);
    DigitRoundTrip(b % 16);
    SplitJoined((b / 16) as bv4, (b % 16) as bv4);
  }

  // ---------- bytes of a 64-bit word

  /** Byte `k` of `x`, byte 0 being the least significant one. */
  function LaneByte(x: bv64, k: nat): bv8
    requires k < 8
  {
    if k == 0 then (x & 0xFF) as bv8
    else if k == 1 then ((x >> 8) & 0xFF) as bv8
    else if k == 2 then ((x >> 16) & 0xFF) as bv8
    else if k == 3 then ((x >> 24) & 0xFF) as bv8
    else if k == 4 then ((x >> 32) & 0xFF) as bv8
    else if k == 5 then ((x >> 40) & 0xFF) as bv8
    else if k == 6 then ((x >> 48) & 0xFF) as bv8
    else ((x >> 56) & 0xFF) as bv8
  }

  function LaneBytes(x: bv64): (s: seq<byte>)
    ensures |s| == 8
  {
    [BitsByte(LaneByte(x, 0)), BitsByte(LaneByte(x, 1)), BitsByte(LaneByte(x, 2)), BitsByte(LaneByte(x, 3)),
     BitsByte(LaneByte(x, 4)), BitsByte(LaneByte(x, 5)), BitsByte(LaneByte(x, 6)), BitsByte(LaneByte(x, 7))]
  }

  function Assemble(b0: bv8, b1: bv8, b2: bv8, b3: bv8, b4: bv8, b5: bv8, b6: bv8, b7: bv8): bv64 {
    (b0 as bv64) | ((b1 as bv64) << 8) | ((b2 as bv64) << 16) | ((b3 as bv64) << 24) |
    ((b4 as bv64) << 32) | ((b5 as bv64) << 40) | ((b6 as bv64) << 48) | ((b7 as bv64) << 56)
  }

  /** The word whose bytes, least significant first, are `s`. */
  function BytesLane(s: seq<byte>): bv64
    requires |s| == 8
  {
    Assemble(ByteBits(s[0]), ByteBits(s[1]), ByteBits(s[2]), ByteBits(s[3]),
             ByteBits(s[4]), ByteBits(s[5]), ByteBits(s[6]), ByteBits(s[7]))
  }

  /** `bswap64` of the kernel. */
  function Bswap(x: bv64): bv64 {
    var a := ((x & 0x00FF_00FF_00FF_00FF) << 8) | ((x & 0xFF00_FF00_FF00_FF00) >> 8);
    var b := ((a & 0x0000_FFFF_0000_FFFF) << 16) | ((a & 0xFFFF_0000_FFFF_0000) >> 16);
    (b << 32) | (b >> 32)
  }

  lemma AssembledBytes(b0: bv8, b1: bv8, b2: bv8, b3: bv8, b4: bv8, b5: bv8, b6: bv8, b7: bv8, x: bv64)
    requires x == Assemble(b0, b1, b2, b3, b4, b5, b6, b7)
    ensures LaneByte(x, 0) == b0 && LaneByte(x, 1) == b1 && LaneByte(x, 2) == b2 && LaneByte(x, 3) == b3
    ensures LaneByte(x, 4) == b4 && LaneByte(x, 5) == b5 && LaneByte(x, 6) == b6 && LaneByte(x, 7) == b7
  {
  }

  /** A lane assembled from eight bytes has those bytes, so different bytes never make the same lane. */
  lemma BytesOfLane(s: seq<byte>)
    requires |s| == 8
    ensures LaneBytes(BytesLane(s)) == s
  {
    AssembledBytes(ByteBits(s[0]), ByteBits(s[1]), ByteBits(s[2]), ByteBits(s[3]),
                   ByteBits(s[4]), ByteBits(s[5]), ByteBits(s[6]), ByteBits(s[7]), BytesLane(s));
    ByteRoundTrip(s[0]); ByteRoundTrip(s[1]); ByteRoundTrip(s[2]); ByteRoundTrip(s[3]);
    ByteRoundTrip(s[4]); ByteRoundTrip(s[5]); ByteRoundTrip(s[6]); ByteRoundTrip(s[7]);
  }

  lemma BswapBytes(x: bv64, y: bv64)
    requires y == Bswap(x)
    ensures LaneByte(y, 0) == LaneByte(x, 7) && LaneByte(y, 1) == LaneByte(x, 6)
    ensures LaneByte(y, 2) == LaneByte(x, 5) && LaneByte(y, 3) == LaneByte(x, 4)
    ensures LaneByte(y, 4) == LaneByte(x, 3) && LaneByte(y, 5) == LaneByte(x, 2)
    ensures LaneByte(y, 6) == LaneByte(x, 1) && LaneByte(y, 7) == LaneByte(x, 0)
  {
  }

  lemma SwapAssembled(b0: bv8, b1: bv8, b2: bv8, b3: bv8, b4: bv8, b5: bv8, b6: bv8, b7: bv8)
    ensures Bswap(Assemble(b0, b1, b2, b3, b4, b5, b6, b7)) == Assemble(b7, b6, b5, b4, b3, b2, b1, b0)
  {
  }

  /** Swapping a word assembled from little-endian bytes assembles them big-endian. */
  lemma SwapReversed(s: seq<byte>)
    requires |s| == 8
    ensures Bswap(BytesLane(Reverse(s))) == BytesLane(s)
  {
    hide Bswap, Assemble, ByteBits;
    SwapAssembled(ByteBits(s[7]), ByteBits(s[6]), ByteBits(s[5]), ByteBits(s[4]),
                  ByteBits(s[3]), ByteBits(s[2]), ByteBits(s[1]), ByteBits(s[0]));
  }

  lemma ReversedBytes(x: bv64, y: bv64)
    requires LaneByte(y, 0) == LaneByte(x, 7) && LaneByte(y, 1) == LaneByte(x, 6)
    requires LaneByte(y, 2) == LaneByte(x, 5) && LaneByte(y, 3) == LaneByte(x, 4)
    requires LaneByte(y, 4) == LaneByte(x, 3) && LaneByte(y, 5) == LaneByte(x, 2)
    requires LaneByte(y, 6) == LaneByte(x, 1) && LaneByte(y, 7) == LaneByte(x, 0)
    ensures LaneBytes(y) == Reverse(LaneBytes(x))
  {
    hide LaneByte, BitsByte;
  }

  lemma BswapReverses(x: bv64)
    ensures LaneBytes(Bswap(x)) == Reverse(LaneBytes(x))
  {
    hide Bswap, LaneByte;
    BswapBytes(x, Bswap(x));
    ReversedBytes(x, Bswap(x));
  }

  // ---------- integers as 64-bit words

  /** The unsigned integer a word stands for. */
  function Value(x: bv64): nat {
    LittleEndian(LaneBytes(x))
  }

  /** The word that stands for `n`, as in np.uint64(n). */
  function Word(n: nat): bv64 {
    BytesLane(Reverse(ToBigEndian(n, 8)))
  }

  lemma Pow256Values()
    ensures Pow256(8) == TWO64 && Pow256(16) == TWO128 && Pow256(24) == TWO192 && Pow256(32) == TWO256
  {
    assert Pow256(4) == 0x1_0000_0000;
    assert Pow256(12) == 0x1_0000_0000_0000_0000_0000_0000;
    assert Pow256(20) == TWO128 * 0x1_0000_0000;
    assert Pow256(28) == TWO192 * 0x1_0000_0000;
  }

  /** A byte-swapped integer is the lane whose bytes are the integer's, big-endian. */
  lemma SwappedWord(n: nat)
    ensures Bswap(Word(n)) == BytesLane(ToBigEndian(n, 8))
  {
    hide Bswap, BytesLane;
    SwapReversed(ToBigEndian(n, 8));
  }

  lemma ValueOfSwapped(x: bv64)
    ensures Value(Bswap(x)) == BigEndian(LaneBytes(x)) < TWO64
  {
    BswapReverses(x);
    LittleEndianReverse(LaneBytes(x));
    BigEndianBound(LaneBytes(x));
    Pow256Values();
  }

  /** The integer of a lane read big-endian. */
  function SwappedValue(x: bv64): (v: nat)
    ensures v < TWO64
  {
    ValueOfSwapped(x);
    Value(Bswap(x))
  }
}
