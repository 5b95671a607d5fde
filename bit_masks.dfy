/** The C mask and shift expressions of the driver, shown equal to the
    arithmetic forms the model computes with. They are on 8-bit values,
    except 1L << sf, which is on a 64-bit and a 32-bit long. The lemmas for
    the masks that combine fields (BandwidthMask, SpreadingFactorMask,
    CodingRateMask, HeaderBitMasks, BitWriteMask) go in two steps: a lemma
    on bit-vectors alone gives the numeric value of the masked byte from
    its bit fields, read through the shift lemmas; a lemma on integers
    alone identifies that value with the model's function. The others are
    proved in one step. */
module BitMasks {
  import opened Registers
  import opened RadioConfig

  // ---------------------------------------------------------------------
  // Shifts as arithmetic: x >> k is x div 2^k, and x << (8 - k) >> (8 - k)
  // keeps the low k bits, x mod 2^k.

  lemma ShiftRight1(x: bv8) ensures (x >> 1) as int == x as int / 2 {}
  lemma ShiftRight2(x: bv8) ensures (x >> 2) as int == x as int / 4 {}
  lemma ShiftRight3(x: bv8) ensures (x >> 3) as int == x as int / 8 {}
  lemma ShiftRight4(x: bv8) ensures (x >> 4) as int == x as int / 16 {}
  lemma ShiftRight5(x: bv8) ensures (x >> 5) as int == x as int / 32 {}
  lemma ShiftRight6(x: bv8) ensures (x >> 6) as int == x as int / 64 {}
  lemma ShiftRight7(x: bv8) ensures (x >> 7) as int == x as int / 128 {}

  lemma LowBits1(x: bv8) ensures ((x << 7) >> 7) as int == x as int % 2 {}
  lemma LowBits2(x: bv8) ensures ((x << 6) >> 6) as int == x as int % 4 {}
  lemma LowBits3(x: bv8) ensures ((x << 5) >> 5) as int == x as int % 8 {}
  lemma LowBits4(x: bv8) ensures ((x << 4) >> 4) as int == x as int % 16 {}
  lemma LowBits7(x: bv8) ensures ((x << 1) >> 1) as int == x as int % 128 {}

  /** A byte is the number its high nibble and low nibble make. */
  lemma FromNibbles(r: bv8, hi: bv8, lo: bv8)
    requires r >> 4 == hi && (r << 4) >> 4 == (lo << 4) >> 4
    ensures r as int == hi as int * 16 + lo as int % 16
  {
    ShiftRight4(r);
    LowBits4(r);
    LowBits4(lo);
  }

  /** A byte is the number its bits 1-7 and bit 0 make. */
  lemma FromBit0(r: bv8, hi: bv8, lo: bv8)
    requires r >> 1 == hi && (r << 7) >> 7 == (lo << 7) >> 7
    ensures r as int == hi as int * 2 + lo as int % 2
  {
    ShiftRight1(r);
    LowBits1(r);
    LowBits1(lo);
  }

  // ---------------------------------------------------------------------
  // Register addresses and operating modes

  /** address & 0x7f and address | 0x80 of readRegister and writeRegister. */
  lemma AddressMasks(address: bv8)
    ensures (address & 0x7F) as int == address as int % 0x80
    ensures (address | 0x80) as int == address as int % 0x80 + 0x80
  {
    var w := address | 0x80;
    assert address & 0x7F == (address << 1) >> 1;
    assert w >> 7 == 1 && (w << 1) >> 1 == (address << 1) >> 1;
    LowBits7(address);
    LowBits7(w);
    ShiftRight7(w);
  }

  /** MODE_LONG_RANGE_MODE | mode, for a mode in the low three bits. */
  lemma LongRangeMask(mode: bv8)
    requires mode < 8
    ensures (0x80 | mode) as int == LongRange(mode as int)
  {
  }

  // ---------------------------------------------------------------------
  // REG_MODEM_CONFIG_1 and REG_MODEM_CONFIG_2

  /** reg >> 4, the bandwidth and spreading-factor getters. */
  lemma HighNibbleMask(x: bv8)
    ensures (x >> 4) as int == HighNibble(x as int)
  {
    ShiftRight4(x);
  }

  /** (reg & 0x0f) | (n << 4) of setSignalBandwidth. */
  lemma BandwidthMask(x: bv8, bw: bv8)
    requires bw < 16
    ensures ((x & 0x0F) | (bw << 4)) as int == WithHighNibble(x as int, bw as int)
  {
    var r := (x & 0x0F) | (bw << 4);
    assert r >> 4 == bw && (r << 4) >> 4 == (x << 4) >> 4;
    FromNibbles(r, bw, x);
    HighNibbleValue(x as int, bw as int, r as int);
  }

  lemma HighNibbleValue(x: byte, n: int, v: int)
    requires 0 <= n < 16 && v == n * 16 + x % 16
    ensures v == WithHighNibble(x, n)
  {
  }

  /** (reg & 0x0f) | ((sf << 4) & 0xf0) of setSpreadingFactor. */
  lemma SpreadingFactorMask(x: bv8, sf: bv8)
    requires sf < 16
    ensures ((x & 0x0F) | ((sf << 4) & 0xF0)) as int == WithHighNibble(x as int, sf as int)
  {
    assert (sf << 4) & 0xF0 == sf << 4;
    BandwidthMask(x, sf);
  }

  /** (reg >> 1) & 0x07, the coding-rate field. */
  lemma CodingRateFieldMask(x: bv8)
    ensures ((x >> 1) & 0x07) as int == CodingRateField(x as int)
  {
    var y := x >> 1;
    assert y & 0x07 == (y << 5) >> 5;
    ShiftRight1(x);
    LowBits3(y);
  }

  /** (reg & 0xf1) | (cr << 1) of setCodingRate4. */
  lemma CodingRateMask(x: bv8, cr: bv8)
    requires cr < 8
    ensures ((x & 0xF1) | (cr << 1)) as int == WithCodingRate(x as int, cr as int)
  {
    var r := (x & 0xF1) | (cr << 1);
    CodingRateBits(x, cr, r);
    CodingRateValue(x as int, cr as int, r as int);
  }

  lemma CodingRateBits(x: bv8, cr: bv8, r: bv8)
    requires cr < 8 && r == (x & 0xF1) | (cr << 1)
    ensures r as int == x as int / 16 * 16 + cr as int * 2 + x as int % 2
  {
    var low := (r << 4) >> 4;
    assert r >> 4 == x >> 4 && (r << 4) >> 4 == (low << 4) >> 4;
    FromNibbles(r, x >> 4, low);
    assert low >> 1 == cr && (low << 7) >> 7 == (x << 7) >> 7;
    FromBit0(low, cr, x);
    ShiftRight4(x);
  }

  lemma CodingRateValue(x: byte, cr: int, v: int)
    requires 0 <= cr < 8 && v == x / 16 * 16 + cr * 2 + x % 2
    ensures v == WithCodingRate(x, cr)
  {
  }

  /** reg | 0x01 and reg & 0xfe of the two header-mode setters. */
  lemma HeaderBitMasks(x: bv8)
    ensures (x | 0x01) as int == WithBit0(x as int, true)
    ensures (x & 0xFE) as int == WithBit0(x as int, false)
  {
    var setBit, clearBit := x | 0x01, x & 0xFE;
    SetBit0Bits(x, setBit);
    ClearBit0Bits(x, clearBit);
    Bit0Value(x as int, 1, setBit as int);
    Bit0Value(x as int, 0, clearBit as int);
  }

  lemma SetBit0Bits(x: bv8, r: bv8)
    requires r == x | 0x01
    ensures r as int == x as int / 2 * 2 + 1
  {
    assert r >> 1 == x >> 1 && (r << 7) >> 7 == (1 << 7) >> 7;
    FromBit0(r, x >> 1, 1);
    ShiftRight1(x);
  }

  lemma ClearBit0Bits(x: bv8, r: bv8)
    requires r == x & 0xFE
    ensures r as int == x as int / 2 * 2
  {
    assert r >> 1 == x >> 1 && (r << 7) >> 7 == (0 << 7) >> 7;
    FromBit0(r, x >> 1, 0);
    ShiftRight1(x);
  }

  lemma Bit0Value(x: byte, b: int, v: int)
    requires 0 <= b <= 1 && v == x / 2 * 2 + b
    ensures v == WithBit0(x, b == 1)
  {
  }

  // ---------------------------------------------------------------------
  // REG_MODEM_CONFIG_3, REG_LNA, REG_PA_CONFIG, REG_IRQ_FLAGS

  /** bitWrite(config3, 3, ldoOn), (x & ~(1 << 3)) | (ldoOn << 3). */
  lemma BitWriteMask(x: bv8, ldoOn: bv8)
    requires ldoOn <= 1
    ensures ((x & !(1 << 3)) | (ldoOn << 3)) as int == WithBit3(x as int, ldoOn == 1)
  {
    var r := (x & !(1 << 3)) | (ldoOn << 3);
    BitWriteBits(x, ldoOn, r);
    Bit3Value(x as int, ldoOn as int, r as int);
  }

  lemma BitWriteBits(x: bv8, b: bv8, r: bv8)
    requires b <= 1 && r == (x & !(1 << 3)) | (b << 3)
    ensures r as int == x as int / 16 * 16 + b as int * 8 + x as int % 8
  {
    var y := r >> 3;
    assert (r << 5) >> 5 == (x << 5) >> 5;
    assert y >> 1 == x >> 4 && (y << 7) >> 7 == (b << 7) >> 7;
    FromBit0(y, x >> 4, b);
    ShiftRight3(r);
    LowBits3(r);
    LowBits3(x);
    ShiftRight4(x);
  }

  lemma Bit3Value(x: byte, b: int, v: int)
    requires 0 <= b <= 1 && v == x / 16 * 16 + b * 8 + x % 8
    ensures v == WithBit3(x, b == 1)
  {
    var q, m := x / 16, x % 16;
    DivModUnique(x, 8, q * 2 + m / 8, m % 8);
    DivModUnique(x / 8, 2, q, m / 8);
  }

  /** reg | 0x03, the LNA boost of begin. */
  lemma LnaBoostMask(x: bv8)
    ensures (x | 0x03) as int == WithLow2Set(x as int)
  {
    var r := x | 0x03;
    assert r >> 2 == x >> 2 && (r << 6) >> 6 == 3;
    ShiftRight2(r);
    ShiftRight2(x);
    LowBits2(r);
  }

  /** 0x70 | level and PA_BOOST | (level - 2) of setTxPower, for a level
      in the low nibble. */
  lemma PaConfigMasks(level: bv8)
    requires level < 16
    ensures (0x70 | level) as int == 0x70 + level as int
    ensures (0x80 | level) as int == PA_BOOST + level as int
  {
  }

  /** 1L << sf, the divisor of setLdoFlag, for a spreading-factor code
      (at most 15). */
  lemma ShiftLeftLong(sf: bv64)
    requires sf < 16
    ensures ((1 as bv64) << sf) as int == Pow2(sf as nat)
  {
    assert Pow2(4) == 16 && Pow2(8) == 256 && Pow2(12) == 4096;
    if sf == 0 {
    } else if sf == 1 {
    } else if sf == 2 {
    } else if sf == 3 {
    } else if sf == 4 {
    } else if sf == 5 {
    } else if sf == 6 {
    } else if sf == 7 {
    } else if sf == 8 {
    } else if sf == 9 {
    } else if sf == 10 {
    } else if sf == 11 {
    } else if sf == 12 {
    } else if sf == 13 {
    } else if sf == 14 {
    } else {
      assert sf == 15;
      assert Pow2(14) == 16384;
    }
  }

  /** The same shift where long is 32 bits wide: for a 4-bit code both
      widths give the same value. */
  lemma ShiftLeftLong32(sf: bv32)
    requires sf < 16
    ensures ((1 as bv32) << sf) as int == Pow2(sf as nat)
  {
    assert ((1 as bv32) << sf) as int == ((1 as bv64) << (sf as bv64)) as int;
    ShiftLeftLong(sf as bv64);
  }

  /** irqFlags & IRQ_RX_DONE_MASK and irqFlags & IRQ_PAYLOAD_CRC_ERROR_MASK
      tested against zero. */
  lemma IrqMasks(irqFlags: bv8)
    ensures (irqFlags & 0x40 != 0) == RxDone(irqFlags as int)
    ensures (irqFlags & 0x20 != 0) == CrcError(irqFlags as int)
  {
    var rx, crc := irqFlags >> 6, irqFlags >> 5;
    assert (irqFlags & 0x40 != 0) == ((rx << 7) >> 7 == 1);
    assert (irqFlags & 0x20 != 0) == ((crc << 7) >> 7 == 1);
    ShiftRight6(irqFlags);
    LowBits1(rx);
    ShiftRight5(irqFlags);
    LowBits1(crc);
  }
}
