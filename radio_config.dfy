/** The arithmetic and bit-field encodings behind the driver's configuration
    setters: clamps, the PA_CONFIG value, the 24-bit frequency word, the
    bandwidth table, the spreading-factor and coding-rate fields, the
    derived low-data-rate-optimisation bit, the preamble split and the RSSI
    offset. Every value the driver writes to a register is computed here. */
module RadioConfig {
  import opened Registers

  // ---------------------------------------------------------------------
  // Bits of a byte. Each function is the arithmetic form of one mask
  // expression of the driver; BitMasks proves the two equal.

  /** Bits 4-7: x >> 4. */
  function HighNibble(x: byte): (n: byte)
    ensures n < 16 && x == n * 16 + x % 16
  {
    x / 16
  }

  /** (x & 0x0f) | (n << 4): bits 4-7 replaced by n, bits 0-3 kept. */
  function WithHighNibble(x: byte, n: int): (r: byte)
    requires 0 <= n < 16
    ensures HighNibble(r) == n && r % 16 == x % 16
  {
    x % 16 + n * 16
  }

  /** (x >> 1) & 0x07: bits 1-3. */
  function CodingRateField(x: byte): (cr: byte)
    ensures cr < 8
  {
    x / 2 % 8
  }

  /** (x & 0xf1) | (cr << 1): bits 1-3 replaced by cr, bits 0 and 4-7
      kept. */
  function WithCodingRate(x: byte, cr: int): (r: byte)
    requires 0 <= cr < 8
    ensures CodingRateField(r) == cr
    ensures HighNibble(r) == HighNibble(x) && r % 2 == x % 2
  {
    x / 16 * 16 + cr * 2 + x % 2
  }

  /** Bit 0: x & 0x01. */
  predicate Bit0(x: byte) {
    x % 2 == 1
  }

  /** x | 0x01 when `on`, x & 0xfe otherwise: bit 0 written, bits 1-7
      kept. */
  function WithBit0(x: byte, on: bool): (r: byte)
    ensures Bit0(r) == on && r / 2 == x / 2
  {
    x - x % 2 + (if on then 1 else 0)
  }

  /** Bit 3: x & 0x08. */
  predicate Bit3(x: byte) {
    x / 8 % 2 == 1
  }

  /** The bitWrite macro for bit 3, (x & ~(1 << 3)) | (b << 3): bit 3
      written, the other seven kept. */
  function WithBit3(x: byte, on: bool): (r: byte)
    ensures Bit3(r) == on && r % 8 == x % 8 && HighNibble(r) == HighNibble(x)
  {
    Bit3Fields(x, if on then 1 else 0);
    x - (x / 8 % 2) * 8 + (if on then 8 else 0)
  }

  /** A byte is its high nibble, bit 3 and bits 0-2; replacing bit 3 by b
      changes nothing else. */
  lemma Bit3Fields(x: byte, b: int)
    requires 0 <= b <= 1
    ensures var r := x - (x / 8 % 2) * 8 + b * 8;
            r / 8 % 2 == b && r % 8 == x % 8 && r / 16 == x / 16
  {
    var q, m := x / 16, x % 16;
    DivModUnique(x, 8, q * 2 + m / 8, m % 8);
    DivModUnique(x / 8, 2, q, m / 8);
    var r := x - (x / 8 % 2) * 8 + b * 8;
    assert r == q * 16 + b * 8 + m % 8;
    DivModUnique(r, 8, q * 2 + b, m % 8);
    DivModUnique(r / 8, 2, q, b);
    DivModUnique(r, 16, q, b * 8 + m % 8);
  }

  /** x | 0x03: bits 0 and 1 set, bits 2-7 kept. */
  function WithLow2Set(x: byte): (r: byte)
    ensures r % 4 == 3 && r / 4 == x / 4
  {
    x - x % 4 + 3
  }

  // ---------------------------------------------------------------------
  // Clamping

  /** The integer of [lo, hi] nearest to x, by the same comparisons the
      setters make (below lo first, then above hi). */
  function Clamp(x: int, lo: int, hi: int): (r: int)
    requires lo <= hi
    ensures lo <= r <= hi
    ensures lo <= x <= hi ==> r == x
    ensures forall y :: lo <= y <= hi ==> Dist(r, x) <= Dist(y, x)
  {
    if x < lo then lo else if x > hi then hi else x
  }

  function Dist(a: int, b: int): nat {
    if a < b then b - a else a - b
  }

  // ---------------------------------------------------------------------
  // Transmit power

  /** The PA_CONFIG byte setTxPower writes: on the RFO pin 0x70 | level
      with the level clamped to [0, 14]; on any other pin (PA_BOOST)
      PA_BOOST | (level - 2) with the level clamped to [2, 17]. */
  function PaConfigValue(level: int, outputPin: int): (v: byte)
    ensures outputPin == PA_OUTPUT_RFO_PIN ==> 0x70 <= v <= 0x7E
    ensures outputPin != PA_OUTPUT_RFO_PIN ==> 0x80 <= v <= 0x8F
  {
    if outputPin == PA_OUTPUT_RFO_PIN then
      0x70 + Clamp(level, 0, 14)
    else
      PA_BOOST + (Clamp(level, 2, 17) - 2)
  }

  /** Whether a PA_CONFIG byte selects the PA_BOOST pin (bit 7). */
  predicate UsesBoost(v: byte) {
    v >= PA_BOOST
  }

  /** The output power in dBm a PA_CONFIG byte written by setTxPower
      selects: the low nibble, plus 2 on the PA_BOOST pin. */
  function PowerOf(v: byte): int {
    if UsesBoost(v) then v % 16 + 2 else v % 16
  }

  /** The PA_CONFIG byte determines both the path and the clamped level:
      the two paths' encodings never coincide. */
  lemma PaConfigRoundTrip(level: int, outputPin: int)
    ensures UsesBoost(PaConfigValue(level, outputPin)) == (outputPin != PA_OUTPUT_RFO_PIN)
    ensures PowerOf(PaConfigValue(level, outputPin)) ==
              if outputPin == PA_OUTPUT_RFO_PIN then Clamp(level, 0, 14) else Clamp(level, 2, 17)
  {
  }

  lemma PaConfigExamples()
    ensures PaConfigValue(25, PA_OUTPUT_PA_BOOST_PIN) == 0x8F
    ensures PaConfigValue(17, PA_OUTPUT_PA_BOOST_PIN) == 0x8F
    ensures PaConfigValue(-5, PA_OUTPUT_RFO_PIN) == 0x70
    ensures PaConfigValue(0, 7) == 0x80
  {
  }

  // ---------------------------------------------------------------------
  // Carrier frequency

  const TWO_POW_64 := 0x1_0000_0000_0000_0000
  const TWO_POW_24 := 0x100_0000
  /** 2^19: the frequency word counts steps of 32 MHz / 2^19 (about 61.03 Hz). */
  const FRF_SCALE := 0x8_0000
  /** The crystal frequency, 32 MHz. */
  const FXOSC := 32000000

  /** The frequency word setFrequency computes: the frequency converted to a
      64-bit unsigned integer, shifted left by 19 (both modulo 2^64) and
      divided by 32 000 000. */
  function Frf(frequency: int): (frf: nat)
    ensures frf < TWO_POW_64
  {
    ((frequency % TWO_POW_64) * FRF_SCALE % TWO_POW_64) / FXOSC
  }

  /** The three bytes written to REG_FRF_MSB, REG_FRF_MID and REG_FRF_LSB:
      the frequency word truncated to 8 bits after shifts of 16, 8 and 0. */
  function FrfBytes(frf: nat): (b: seq<byte>)
    ensures |b| == 3
    ensures frf < TWO_POW_24 ==> b[0] as int * 0x1_0000 + b[1] as int * 0x100 + b[2] as int == frf
  {
    ByteSplit(frf);
    [ToByte(frf / 0x1_0000), ToByte(frf / 0x100), ToByte(frf)]
  }

  /** The frequency word the chip assembles from the three registers. */
  function FrfFromBytes(msb: byte, mid: byte, lsb: byte): (frf: nat)
    ensures frf < TWO_POW_24
  {
    msb * 0x1_0000 + mid * 0x100 + lsb
  }

  /** Below 1 024 000 000 Hz the frequency word fits in 24 bits, so the three
      registers hold it exactly, and it is the largest number of 61.03 Hz
      steps not above the requested frequency. */
  lemma FrequencyRoundTrip(frequency: int)
    requires 0 <= frequency < 1024000000
    ensures Frf(frequency) < TWO_POW_24
    ensures FrfFromBytes(FrfBytes(Frf(frequency))[0], FrfBytes(Frf(frequency))[1], FrfBytes(Frf(frequency))[2])
              == Frf(frequency)
    ensures Frf(frequency) * FXOSC <= frequency * FRF_SCALE < (Frf(frequency) + 1) * FXOSC
  {
    var shifted := frequency * FRF_SCALE;
    assert frequency % TWO_POW_64 == frequency;
    assert shifted < TWO_POW_64;
    assert shifted % TWO_POW_64 == shifted;
    var frf := shifted / FXOSC;
    assert Frf(frequency) == frf;
    assert frf * FXOSC <= shifted < (frf + 1) * FXOSC;
    assert frf < TWO_POW_24 by {
      assert shifted < TWO_POW_24 * FXOSC;
    }
    ByteSplit(frf);
  }

  /** A 24-bit number is the sum of its three bytes. */
  lemma ByteSplit(n: nat)
    ensures n < TWO_POW_24 ==> (n / 0x1_0000 % 256) * 0x1_0000 + (n / 0x100 % 256) * 0x100 + n % 256 == n
  {
    if n < TWO_POW_24 {
      var hi, rest := n / 0x1_0000, n % 0x1_0000;
      var mid, lo := rest / 0x100, rest % 0x100;
      assert n == hi * 0x1_0000 + rest;
      assert rest == mid * 0x100 + lo;
      assert hi < 256 && hi % 256 == hi;
      DivModUnique(n, 0x100, hi * 0x100 + mid, lo);
      DivModUnique(hi * 0x100 + mid, 0x100, hi, mid);
    }
  }

  /** Quotient and remainder are the only pair that rebuilds the dividend. */
  lemma DivModUnique(n: int, d: int, q: int, r: int)
    requires d > 0 && 0 <= r < d && n == q * d + r
    ensures n / d == q && n % d == r
  {
    var q', r' := n / d, n % d;
    assert n == q' * d + r';
    assert (q - q') * d == r' - r;
    if q' < q {
      MulAtLeast(q - q', d);
    } else if q < q' {
      MulAtLeast(q' - q, d);
    }
  }

  lemma MulAtLeast(k: int, d: int)
    requires k >= 1 && d > 0
    ensures k * d >= d
  {
    assert k * d == (k - 1) * d + d;
    assert (k - 1) * d >= 0;
  }

  // ---------------------------------------------------------------------
  // Signal bandwidth

  /** The ten bandwidths in Hz, indexed by the 4-bit code of
      REG_MODEM_CONFIG_1; the first nine are also setSignalBandwidth's
      thresholds. */
  const BANDWIDTHS: seq<int> :=
    [7800, 10400, 15600, 20800, 31250, 41700, 62500, 125000, 250000, 500000]

  /** The code setSignalBandwidth selects: the first threshold not below the
      request, else 9 (500 kHz). */
  function BandwidthCode(sbw: int): (bw: byte)
    ensures bw <= 9
  {
    if sbw <= 7800 then 0
    else if sbw <= 10400 then 1
    else if sbw <= 15600 then 2
    else if sbw <= 20800 then 3
    else if sbw <= 31250 then 4
    else if sbw <= 41700 then 5
    else if sbw <= 62500 then 6
    else if sbw <= 125000 then 7
    else if sbw <= 250000 then 8
    else 9
  }

  /** What getSignalBandwidth returns for a 4-bit code: the table entry,
      and 0 for a code outside the table. */
  function BandwidthHz(code: int): (hz: int)
    ensures 0 <= code <= 9 ==> hz == BANDWIDTHS[code]
    ensures !(0 <= code <= 9) ==> hz == 0
  {
    match code
    case 0 => 7800
    case 1 => 10400
    case 2 => 15600
    case 3 => 20800
    case 4 => 31250
    case 5 => 41700
    case 6 => 62500
    case 7 => 125000
    case 8 => 250000
    case 9 => 500000
    case _ => 0
  }

  /** The selected code is the smallest whose bandwidth is at least the
      request (or 9 when none is); the bandwidth read back therefore covers
      every request up to 500 kHz. */
  lemma BandwidthCodeIsSmallestSufficient(sbw: int)
    ensures var c := BandwidthCode(sbw);
            (c < 9 ==> sbw <= BANDWIDTHS[c]) &&
            (forall j :: 0 <= j < c ==> BANDWIDTHS[j] < sbw)
    ensures sbw <= 500000 ==> BandwidthHz(BandwidthCode(sbw)) >= sbw
  {
  }

  /** Requesting a table bandwidth selects its own code. */
  lemma BandwidthRoundTrip(code: int)
    requires 0 <= code <= 9
    ensures BandwidthCode(BandwidthHz(code)) == code
  {
  }

  lemma BandwidthExamples()
    ensures BandwidthCode(125000) == 7
    ensures BandwidthCode(250001) == 9
    ensures BandwidthCode(0) == 0 && BandwidthCode(1000000) == 9
  {
  }

  // ---------------------------------------------------------------------
  // Spreading factor and coding rate

  /** The spreading factor setSpreadingFactor writes: the request clamped
      to [6, 12]. */
  function SpreadingFactorCode(sf: int): (code: byte)
    ensures sf < 6 ==> code == 6
    ensures sf > 12 ==> code == 12
    ensures 6 <= sf <= 12 ==> code == sf
  {
    Clamp(sf, 6, 12)
  }

  /** The coding-rate code setCodingRate4 writes: the denominator clamped
      to [5, 8], less 4. */
  function CodingRateCode(denominator: int): (cr: byte)
    ensures denominator < 5 ==> cr == 1
    ensures denominator > 8 ==> cr == 4
    ensures 5 <= denominator <= 8 ==> cr == denominator - 4
  {
    Clamp(denominator, 5, 8) - 4
  }

  lemma ClampCodeExamples()
    ensures SpreadingFactorCode(3) == 6 && SpreadingFactorCode(20) == 12 && SpreadingFactorCode(9) == 9
    ensures CodingRateCode(0) == 1 && CodingRateCode(10) == 4 && CodingRateCode(7) == 3
  {
  }

  /** The coding-rate denominator a REG_MODEM_CONFIG_1 value encodes. */
  function CodingRateOf(config1: byte): int {
    CodingRateField(config1) + 4
  }

  /** The three REG_MODEM_CONFIG_1 fields (bandwidth in bits 4-7, coding
      rate in bits 1-3, implicit header in bit 0) are independent: each
      setter leaves the other two fields as they were. Writing the
      bandwidth keeps the coding rate and the header bit. */
  lemma BandwidthKeepsOtherFields(config1: byte, code: int)
    requires 0 <= code < 16
    ensures var r := WithHighNibble(config1, code);
            CodingRateOf(r) == CodingRateOf(config1) && Bit0(r) == Bit0(config1)
  {
    var r := WithHighNibble(config1, code);
    LowNibbleFields(r);
    LowNibbleFields(config1);
  }

  /** Bits 0-3 alone determine the coding-rate field and bit 0. */
  lemma LowNibbleFields(x: byte)
    ensures CodingRateField(x) == x % 16 / 2 && x % 2 == x % 16 % 2
  {
    var q, m := x / 16, x % 16;
    DivModUnique(x, 2, q * 8 + m / 2, m % 2);
    DivModUnique(x / 2, 8, q, m / 2);
  }

  /** Writing the coding rate keeps the bandwidth and the header bit, and
      the denominator read back is the clamped request. */
  lemma CodingRateKeepsOtherFields(config1: byte, denominator: int)
    ensures var r := WithCodingRate(config1, CodingRateCode(denominator));
            HighNibble(r) == HighNibble(config1) && Bit0(r) == Bit0(config1) &&
            CodingRateOf(r) == Clamp(denominator, 5, 8)
  {
  }

  /** Writing the header bit keeps the bandwidth and the coding rate. */
  lemma HeaderModeKeepsOtherFields(config1: byte, implicit: bool)
    ensures var r := WithBit0(config1, implicit);
            HighNibble(r) == HighNibble(config1) && CodingRateOf(r) == CodingRateOf(config1)
  {
    var r := WithBit0(config1, implicit);
    assert r / 16 == r / 2 / 8 && config1 / 16 == config1 / 2 / 8;
  }

  // ---------------------------------------------------------------------
  // Low-data-rate optimisation

  /** 2^n, the value of setLdoFlag's 1L << sf. */
  function Pow2(n: nat): (p: nat)
    ensures p >= 1
  {
    if n == 0 then 1 else 2 * Pow2(n - 1)
  }

  /** The divisor setLdoFlag computes, the bandwidth divided by 2^sf with
      integer division; setLdoFlag divides by it. */
  function SymbolRate(bandwidthHz: int, sf: nat): (rate: int)
    ensures bandwidthHz >= 0 ==> 0 <= rate * Pow2(sf) <= bandwidthHz < (rate + 1) * Pow2(sf)
  {
    FloorDiv(bandwidthHz, Pow2(sf));
    bandwidthHz / Pow2(sf)
  }

  /** n div d is the largest multiple count of d not above n. */
  lemma FloorDiv(n: int, d: int)
    requires d > 0
    ensures n >= 0 ==> 0 <= (n / d) * d <= n < (n / d + 1) * d
  {
    var q, r := n / d, n % d;
    assert n == q * d + r;
    assert (q + 1) * d == q * d + d;
  }

  lemma MulMonotone(a: int, b: int, q: int)
    requires a <= b && q >= 0
    ensures a * q <= b * q
  {
    assert b * q - a * q == (b - a) * q;
  }

  /** setLdoFlag's symbol duration in ms: 1000 divided by the integer
      symbol rate. */
  function SymbolDuration(bandwidthHz: int, sf: nat): (ms: int)
    requires SymbolRate(bandwidthHz, sf) > 0
    ensures 0 <= ms * SymbolRate(bandwidthHz, sf) <= 1000 < (ms + 1) * SymbolRate(bandwidthHz, sf)
  {
    FloorDiv(1000, SymbolRate(bandwidthHz, sf));
    1000 / SymbolRate(bandwidthHz, sf)
  }

  /** setLdoFlag's decision: optimisation on iff the symbol duration exceeds
      16 ms. */
  predicate LdoOn(bandwidthHz: int, sf: nat): (on: bool)
    requires SymbolRate(bandwidthHz, sf) > 0
    ensures on <==> SymbolRate(bandwidthHz, sf) <= 58
  {
    DurationThreshold(SymbolRate(bandwidthHz, sf));
    SymbolDuration(bandwidthHz, sf) > 16
  }

  /** 1000 div q exceeds 16 exactly for the rates 1 to 58. */
  lemma DurationThreshold(q: int)
    requires q > 0
    ensures 1000 / q > 16 <==> q <= 58
  {
    var d := 1000 / q;
    FloorDiv(1000, q);
    if q <= 58 {
      if d <= 16 {
        MulMonotone(d + 1, 17, q);
        MulMonotone(q, 58, 17);
      }
    } else {
      if d >= 17 {
        MulMonotone(17, d, q);
        MulMonotone(59, q, 17);
      }
    }
  }

  /** setLdoFlag divides without fault iff the bandwidth code and the
      spreading factor read from the registers give a positive rate. */
  predicate LdoDefined(bwCode: int, sf: nat) {
    SymbolRate(BandwidthHz(bwCode), sf) > 0
  }

  lemma {:induction false} Pow2Monotone(m: nat, n: nat)
    requires m <= n
    ensures Pow2(m) <= Pow2(n)
    decreases n
  {
    if m < n {
      Pow2Monotone(m, n - 1);
    }
  }

  /** Every bandwidth code setSignalBandwidth writes (0..9) together with
      every spreading factor setSpreadingFactor writes (6..12) gives a rate
      of at least 1: 7800 div 4096 is 1. */
  lemma LdoDefinedForDriverCodes(bwCode: int, sf: nat)
    requires 0 <= bwCode <= 9 && 6 <= sf <= 12
    ensures LdoDefined(bwCode, sf)
    ensures SymbolRate(BandwidthHz(bwCode), sf) >= 1
  {
    Pow2Monotone(sf, 12);
    assert Pow2(12) == 4096 by {
      assert Pow2(4) == 16;
      assert Pow2(8) == 256;
    }
    assert BandwidthHz(bwCode) >= 7800;
    QuotientAtLeastOne(BandwidthHz(bwCode), Pow2(sf));
  }

  lemma QuotientAtLeastOne(x: int, p: int)
    requires x >= p > 0
    ensures x / p >= 1
  {
  }

  /** REG_MODEM_CONFIG_3 as setLdoFlag leaves it, given the two modem
      configuration registers it reads the bandwidth and spreading factor
      from: bit 3 holds the decision, the other bits are kept. */
  function Config3WithLdo(config1: byte, config2: byte, config3: byte): (r: byte)
    requires LdoDefined(HighNibble(config1), HighNibble(config2))
    ensures Bit3(r) == LdoOn(BandwidthHz(HighNibble(config1)), HighNibble(config2))
    ensures r % 8 == config3 % 8 && HighNibble(r) == HighNibble(config3)
  {
    WithBit3(config3, LdoOn(BandwidthHz(HighNibble(config1)), HighNibble(config2)))
  }

  lemma LdoExamples()
    ensures SymbolRate(125000, 11) == 61 && SymbolDuration(125000, 11) == 16 && !LdoOn(125000, 11)
    ensures SymbolRate(125000, 12) == 30 && SymbolDuration(125000, 12) == 33 && LdoOn(125000, 12)
    ensures SymbolDuration(125000, 9) == 4 && !LdoOn(125000, 9)
  {
    assert Pow2(9) == 512 by {
      assert Pow2(4) == 16;
      assert Pow2(8) == 256;
    }
    assert Pow2(11) == 2048;
    assert Pow2(12) == 4096;
  }

  /** The exact criterion the integer rule approximates: one symbol,
      2^sf / bandwidth seconds, lasts more than 16 ms. */
  predicate SymbolLongerThan16ms(bandwidthHz: int, sf: nat) {
    1000 * Pow2(sf) > 16 * bandwidthHz
  }

  /** The integer rule never turns the optimisation on for a symbol of 16 ms
      or less: whenever it sets the bit the exact criterion holds. */
  lemma LdoOnImpliesLongSymbol(bandwidthHz: int, sf: nat)
    requires SymbolRate(bandwidthHz, sf) > 0
    requires LdoOn(bandwidthHz, sf)
    ensures SymbolLongerThan16ms(bandwidthHz, sf)
  {
    var p, q := Pow2(sf), SymbolRate(bandwidthHz, sf);
    assert q <= 58;
    assert bandwidthHz < (q + 1) * p;
    MulMonotone(16 * (q + 1), 1000, p);
    assert 16 * ((q + 1) * p) == (16 * (q + 1)) * p;
  }

  /** The converse fails: at 125 kHz and spreading factor 11 a symbol lasts
      16.384 ms, but the truncated rate 61 gives 16 and the bit stays clear. */
  lemma LdoMissesSf11At125kHz()
    ensures SymbolLongerThan16ms(125000, 11)
    ensures !LdoOn(125000, 11)
  {
    LdoExamples();
  }

  // ---------------------------------------------------------------------
  // Preamble length, RSSI, IRQ flags

  /** The bytes setPreambleLength writes to REG_PREAMBLE_MSB and
      REG_PREAMBLE_LSB: the length shifted right by 8 (arithmetically) and
      by 0, each truncated to 8 bits. */
  function PreambleBytes(length: int): (b: seq<byte>)
    ensures |b| == 2
    ensures b[0] as int * 256 + b[1] as int == length % 0x1_0000
  {
    PreambleSplit(length);
    [ToByte(length / 256), ToByte(length)]
  }

  /** The two low bytes of an integer, as a two's-complement 16-bit value. */
  lemma PreambleSplit(length: int)
    ensures ((length / 256) % 256) * 256 + length % 256 == length % 0x1_0000
  {
    var q, r := length / 256, length % 256;
    var q2 := q % 256;
    assert length == q * 256 + r;
    assert q == (q / 256) * 256 + q2;
    assert length == (q / 256) * 0x1_0000 + (q2 * 256 + r);
    DivModUnique(length, 0x1_0000, q / 256, q2 * 256 + r);
  }

  /** The calibration offset packetRssi subtracts: 164 below 868 MHz, 157
      from 868 MHz on. */
  function RssiOffset(frequency: int): (offset: int)
    ensures offset == 157 || offset == 164
    ensures (offset == 157) <==> frequency >= 868000000
  {
    if frequency < 868000000 then 164 else 157
  }

  lemma RssiExamples()
    ensures RssiOffset(868500000) == 157
    ensures RssiOffset(868000000) == 157
    ensures RssiOffset(433000000) == 164
  {
  }

  /** Bit 6 of REG_IRQ_FLAGS, irqFlags & IRQ_RX_DONE_MASK. */
  predicate RxDone(irqFlags: byte): (done: bool)
    ensures done <==> irqFlags % 0x80 >= 0x40
  {
    DivModUnique(irqFlags, 0x40, irqFlags / 0x80 * 2 + irqFlags % 0x80 / 0x40, irqFlags % 0x40);
    irqFlags / 0x40 % 2 == 1
  }

  /** Bit 5 of REG_IRQ_FLAGS, irqFlags & IRQ_PAYLOAD_CRC_ERROR_MASK. */
  predicate CrcError(irqFlags: byte): (error: bool)
    ensures error <==> irqFlags % 0x40 >= 0x20
  {
    DivModUnique(irqFlags, 0x20, irqFlags / 0x40 * 2 + irqFlags % 0x40 / 0x20, irqFlags % 0x20);
    irqFlags / 0x20 % 2 == 1
  }

  /** parsePacket's test for a good packet: RX done set, CRC error clear. */
  predicate PacketReady(irqFlags: byte): (ready: bool)
    ensures ready <==> 0x40 <= irqFlags % 0x80 < 0x60
  {
    assert irqFlags % 0x40 == irqFlags % 0x80 % 0x40 by {
      DivModUnique(irqFlags, 0x40, irqFlags / 0x80 * 2 + irqFlags % 0x80 / 0x40, irqFlags % 0x80 % 0x40);
    }
    RxDone(irqFlags) && !CrcError(irqFlags)
  }
}
