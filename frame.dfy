/** The pure pieces of the DHT11 decoder: the 32-bit shift registers that
    collect the 40 frame bits MSB-first, and the split of the 32-bit data
    word into the four bytes of a reading (dht11.c:250-256, 281-287, 307-312). */
module Frame {

  /** The width of the C registers `data`, `checksum` (int) and
      `hw_timer_elapsed` (uint32_t): values are kept as bit patterns below 2^32. */
  const Word: nat := 0x1_0000_0000

  function Pow2(n: nat): (p: nat)
    ensures p >= 1
  {
    if n == 0 then 1 else 2 * Pow2(n - 1)
  }

  lemma {:induction false} Pow2Monotone(m: nat, n: nat)
    requires m <= n
    ensures Pow2(m) <= Pow2(n)
  {
    if m < n {
      Pow2Monotone(m, n - 1);
    }
  }

  lemma {:induction false} Pow2Add(m: nat, n: nat)
    ensures Pow2(m + n) == Pow2(m) * Pow2(n)
  {
    if n > 0 {
      Pow2Add(m, n - 1);
    }
  }

  /** The register widths in play: a byte and a 32-bit word. */
  lemma Pow2Widths()
    ensures Pow2(8) == 256 && Pow2(16) == 0x1_0000 && Pow2(32) == Word
  {
    assert Pow2(2) == 4;
    assert Pow2(4) == 16 by { Pow2Add(2, 2); }
    assert Pow2(8) == 256 by { Pow2Add(4, 4); }
    assert Pow2(16) == 0x1_0000 by { Pow2Add(8, 8); }
    Pow2Add(16, 16);
  }

  // Euclidean division facts used by the byte split and the shift.

  lemma MulMonotone(a: int, b: int, d: nat)
    requires a <= b
    ensures a * d <= b * d
  {
    assert b * d - a * d == (b - a) * d;
  }

  /** A multiple of `d` strictly between `-d` and `d` is zero. */
  lemma MultipleBelow(k: int, d: int)
    requires d > 0 && -d < k * d < d
    ensures k == 0
  {
    if k >= 1 {
      MulMonotone(1, k, d);
    } else if k <= -1 {
      MulMonotone(k, -1, d);
    }
  }

  /** The quotient and remainder of `x` by `d` are the unique `q`, `m` with `x == q * d + m`, `0 <= m < d`. */
  lemma DivModOf(x: int, d: int, q: int, m: int)
    requires d > 0 && 0 <= m < d && x == q * d + m
    ensures x / d == q && x % d == m
  {
    var k := q - x / d;
    assert k * d == q * d - (x / d) * d;
    MultipleBelow(k, d);
  }

  lemma ModMod(x: nat, d: nat, k: nat)
    requires d > 0 && k > 0
    ensures (x % (d * k)) % d == x % d
  {
    var r := x % (d * k);
    var q := x / (d * k);
    assert x == q * (d * k) + r;
    DivModOf(r, d, r / d, r % d);
    DivModOf(x, d, q * k + r / d, r % d);
  }

  function BitValue(bit: bool): nat { if bit then 1 else 0 }

  /** `reg = (reg << 1) | bit` on a 32-bit register. */
  function ShiftIn(reg: nat, bit: bool): (r: nat)
    ensures r < Word
    ensures reg < Word / 2 ==> r == 2 * reg + BitValue(bit)
  {
    (2 * reg + BitValue(bit)) % Word
  }

  /** The old contents move up one place, the top bit falls out, and the new
      bit becomes bit 0. */
  lemma ShiftInBits(reg: nat, bit: bool)
    ensures ShiftIn(reg, bit) % 2 == BitValue(bit)
    ensures ShiftIn(reg, bit) / 2 == reg % (Word / 2)
  {
    var q := reg % (Word / 2);
    var k := reg / (Word / 2);
    assert reg == k * (Word / 2) + q;
    DivModOf(2 * reg + BitValue(bit), Word, k, 2 * q + BitValue(bit));
    DivModOf(2 * q + BitValue(bit), 2, q, BitValue(bit));
  }

  /** A register holding fewer than 32 significant bits loses nothing to the
      shift and gains exactly one significant bit. */
  lemma ShiftInWidth(reg: nat, width: nat, bit: bool)
    requires reg < Pow2(width) && width < 32
    ensures ShiftIn(reg, bit) == 2 * reg + BitValue(bit)
    ensures ShiftIn(reg, bit) < Pow2(width + 1)
  {
    Pow2Monotone(width, 31);
    Pow2Add(1, 31);
    Pow2Widths();
  }

  /** The register after shifting in `bits` one after another, first bit first. */
  function Accumulate(reg: nat, bits: seq<bool>): nat
  {
    if bits == [] then reg else ShiftIn(Accumulate(reg, bits[..|bits| - 1]), bits[|bits| - 1])
  }

  /** The `n` low bits of `v`, most significant first: the order the sensor sends them. */
  function BitsOf(v: nat, n: nat): (bits: seq<bool>)
    ensures |bits| == n
  {
    if n == 0 then [] else BitsOf(v / 2, n - 1) + [v % 2 == 1]
  }

  /** Shifting the `n`-bit MSB-first encoding of `v` into a cleared register
      yields `v` again, for every register width up to 32 bits. */
  lemma {:induction false} AccumulateBitsOf(v: nat, n: nat)
    requires n <= 32 && v < Pow2(n)
    ensures Accumulate(0, BitsOf(v, n)) == v
  {
    if n > 0 {
      var bits := BitsOf(v, n);
      assert bits[..n - 1] == BitsOf(v / 2, n - 1);
      AccumulateBitsOf(v / 2, n - 1);
      assert Accumulate(0, bits[..n - 1]) == v / 2;
      Pow2Monotone(n, 32);
      Pow2Widths();
      assert v / 2 < Word / 2;
    }
  }

  /** A register that has taken `k` bits from a cleared start holds fewer than `k` significant bits. */
  lemma {:induction false} AccumulateBound(bits: seq<bool>)
    requires |bits| <= 32
    ensures Accumulate(0, bits) < Pow2(|bits|)
  {
    if bits != [] {
      AccumulateBound(bits[..|bits| - 1]);
    }
  }

  /** The four bytes of `data` as received_data names them: relative humidity
      integral and decimal, temperature integral and decimal. */
  datatype Reading = Reading(rhIntegral: nat, rhDecimal: nat, tIntegral: nat, tDecimal: nat)
  {
    predicate IsBytes()
    {
      rhIntegral < 256 && rhDecimal < 256 && tIntegral < 256 && tDecimal < 256
    }

    /** `x`, the checksum received_data computes (and only prints). */
    function Sum(): nat
    {
      rhIntegral + rhDecimal + tIntegral + tDecimal
    }
  }

  /** The 40-bit frame the sensor transmits: a reading and the checksum byte. */
  datatype Packet = Packet(reading: Reading, checksum: nat)
  {
    predicate IsBytes() { reading.IsBytes() && checksum < 256 }
  }

  /** The data word whose bytes, high to low, are those of `rd`. */
  function Pack(rd: Reading): nat
  {
    rd.rhIntegral * 0x100_0000 + rd.rhDecimal * 0x1_0000 + rd.tIntegral * 0x100 + rd.tDecimal
  }

  /** The byte split of received_data with the mask-and-shift expressions of
      dht11.c:308-310, the top byte taken as an unsigned shift. */
  function Split(data: nat): (rd: Reading)
    requires data < Word
    ensures rd.IsBytes()
  {
    Reading(data / 0x100_0000,
            (data % 0x100_0000) / 0x1_0000,
            (data % 0x1_0000) / 0x100,
            data % 0x100)
  }

  /** Split inverts Pack on readings made of bytes ... */
  lemma SplitPack(rd: Reading)
    requires rd.IsBytes()
    ensures Pack(rd) < Word
    ensures Split(Pack(rd)) == rd
  {
    var d := Pack(rd);
    var low := rd.tIntegral * 0x100 + rd.tDecimal;
    var mid := rd.rhDecimal * 0x1_0000 + low;
    DivModOf(d, 0x100_0000, rd.rhIntegral, mid);
    DivModOf(mid, 0x1_0000, rd.rhDecimal, low);
    DivModOf(d, 0x1_0000, rd.rhIntegral * 0x100 + rd.rhDecimal, low);
    DivModOf(low, 0x100, rd.tIntegral, rd.tDecimal);
    DivModOf(d, 0x100, rd.rhIntegral * 0x1_0000 + rd.rhDecimal * 0x100 + rd.tIntegral, rd.tDecimal);
  }

  /** ... and Pack inverts Split on every 32-bit word. */
  lemma PackSplit(data: nat)
    requires data < Word
    ensures Pack(Split(data)) == data
  {
    var r24 := data % 0x100_0000;
    var r16 := data % 0x1_0000;
    ModMod(data, 0x1_0000, 0x100);
    ModMod(data, 0x100, 0x100);
    assert r24 == (r24 / 0x1_0000) * 0x1_0000 + r16;
    assert r16 == (r16 / 0x100) * 0x100 + data % 0x100;
  }

  /** The frame bits in transmission order: 32 data bits, then 8 checksum bits. */
  function PacketBits(p: Packet): (bits: seq<bool>)
    ensures |bits| == 40
  {
    BitsOf(Pack(p.reading), 32) + BitsOf(p.checksum, 8)
  }

  /** The data register after the first `min(|bits|, 32)` frame bits. */
  function DataOf(bits: seq<bool>): nat
  {
    if |bits| <= 32 then Accumulate(0, bits) else Accumulate(0, bits[..32])
  }

  /** The checksum register: it takes the bits after the 32nd. */
  function ChecksumOf(bits: seq<bool>): nat
  {
    if |bits| <= 32 then 0 else Accumulate(0, bits[32..])
  }

  /** The registers filled from a packet's 40 bits hold exactly the packet. */
  lemma {:induction false} RegistersOfPacket(p: Packet)
    requires p.IsBytes()
    ensures DataOf(PacketBits(p)) == Pack(p.reading)
    ensures ChecksumOf(PacketBits(p)) == p.checksum
    ensures Split(DataOf(PacketBits(p))) == p.reading
  {
    var bits := PacketBits(p);
    SplitPack(p.reading);
    Pow2Widths();
    assert bits[..32] == BitsOf(Pack(p.reading), 32);
    assert bits[32..] == BitsOf(p.checksum, 8);
    AccumulateBitsOf(Pack(p.reading), 32);
    AccumulateBitsOf(p.checksum, 8);
  }

  /** `data >> 24` exactly as dht11.c:307 computes it: `data` is a signed
      32-bit int, so with bit 31 set the arithmetic shift yields the top byte
      minus 256. */
  function RhIntegralAsWritten(data: nat): (v: int)
    requires data < Word
    ensures data < Word / 2 ==> v == Split(data).rhIntegral
    ensures data >= Word / 2 ==> v == Split(data).rhIntegral - 256 && v < 0
  {
    if data < 0x8000_0000 then data / 0x100_0000 else data / 0x100_0000 - 0x100
  }

  /** A humidity byte of 128 or more comes out negative as written. */
  lemma RhIntegralAsWrittenNegative()
    ensures Pack(Reading(128, 0, 0, 0)) < Word
    ensures RhIntegralAsWritten(Pack(Reading(128, 0, 0, 0))) == -128
    ensures Split(Pack(Reading(128, 0, 0, 0))).rhIntegral == 128
  {
  }

  /** An example: 0x32001D03 splits into 50, 0, 29 and 3 with sum 82. */
  lemma SplitExample()
    ensures Split(0x3200_1D03) == Reading(50, 0, 29, 3)
    ensures Split(0x3200_1D03).Sum() == 82
  {
    SplitPack(Reading(50, 0, 29, 3));
  }
}
