/** The register-level driver of an SX1276-class LoRa transceiver. The chip
    is its 128-byte register file; every access of the driver is one
    two-byte exchange on the bus, recorded in the ghost `trace` so that the
    sequence of reads and writes of each operation can be stated. */
module LoRa {
  import opened Registers
  import opened RadioConfig

  class LoRaClass {
    /** The chip's register file, as the bus sees it. */
    var regs: RegisterFile
    /** The carrier frequency in Hz last passed to SetFrequency. */
    var frequency: int
    /** Bytes of the current packet consumed by Read. */
    var packetIndex: int
    /** Whether the last ParsePacket selected implicit-header mode. */
    var implicitHeaderMode: bool
    /** Every bus exchange so far, oldest first. */
    ghost var trace: seq<Transfer>

    /** The bytes of the current packet not yet read: the chip's received
        byte count less the cursor. Negative once the cursor has passed it. */
    function AvailableCount(): (n: int)
      reads this
      ensures n == 0 <==> packetIndex == regs[REG_RX_NB_BYTES]
      ensures n < 0 <==> packetIndex > regs[REG_RX_NB_BYTES]
    {
      regs[REG_RX_NB_BYTES] - packetIndex
    }

    /** A driver for the chip whose register file is `chip`, with the
        fields' initial values. */
    constructor (chip: RegisterFile)
      ensures regs == chip
      ensures frequency == 0 && packetIndex == 0 && !implicitHeaderMode
      ensures trace == []
    {
      regs := chip;
      frequency := 0;
      packetIndex := 0;
      implicitHeaderMode := false;
      trace := [];
    }

    // -------------------------------------------------------------------
    // Register bus

    /** The full-duplex exchange of a two-byte buffer with the chip: the
        chip takes buffer[0] as the address byte and buffer[1] as the data
        byte, and the data byte is replaced by the byte the chip shifts out,
        the addressed register's content before the exchange. What the
        chip shifts out during the address byte is not modelled. */
    method Exchange(buffer: array<byte>)
      requires buffer.Length == 2
      modifies buffer, this`regs, this`trace
      ensures trace == old(trace) + [Transfer(old(buffer[0]), old(buffer[1]))]
      ensures regs == Apply(old(regs), Transfer(old(buffer[0]), old(buffer[1])))
      ensures buffer[1] == Reply(old(regs), Transfer(old(buffer[0]), old(buffer[1])))
    {
      var t := Transfer(buffer[0], buffer[1]);
      var reply := regs[Target(t)];
      if IsWrite(t) {
        regs := regs[Target(t) := t.value];
      }
      buffer[1] := reply;
      trace := trace + [t];
    }

    /** One bus transaction: sends (address, value), returns the second
        byte received. */
    method SingleTransfer(address: byte, value: byte) returns (reply: byte)
      modifies this`regs, this`trace
      ensures trace == old(trace) + [Transfer(address, value)]
      ensures regs == Apply(old(regs), Transfer(address, value))
      ensures reply == Reply(old(regs), Transfer(address, value))
    {
      var buffer := new byte[2](_ => 0xFF);
      buffer[0] := address;
      buffer[1] := value;
      Exchange(buffer);
      reply := buffer[1];
    }

    method ReadRegister(address: byte) returns (value: byte)
      modifies this`regs, this`trace
      ensures value == old(regs[address % 0x80])
      ensures address < 0x80 ==> value == old(regs[address])
      ensures regs == old(regs)
      ensures trace == old(trace) + [ReadTransfer(address)]
    {
      value := SingleTransfer(address % 0x80, 0x00);
    }

    method WriteRegister(address: byte, value: byte)
      modifies this`regs, this`trace
      ensures regs == old(regs)[address % 0x80 := value]
      ensures address < 0x80 ==> regs == old(regs)[address := value]
      ensures trace == old(trace) + [WriteTransfer(address, value)]
    {
      var _ := SingleTransfer(address % 0x80 + 0x80, value);
    }

    // -------------------------------------------------------------------
    // Lifecycle

    /** Initialisation from the version check on. A chip that does not
        report version 0x12 gets no write and its version byte is returned;
        otherwise the radio is configured and 1 is returned, so a chip that
        reports 0x01 cannot be told apart from success. */
    method Begin(freq: int) returns (r: int)
      modifies this`regs, this`trace, this`frequency
      ensures 0 <= r <= 255
      ensures r == 1 <==> old(regs[REG_VERSION]) == EXPECTED_VERSION || old(regs[REG_VERSION]) == 0x01
      ensures old(regs[REG_VERSION]) != EXPECTED_VERSION ==>
                r == old(regs[REG_VERSION]) &&
                regs == old(regs) && frequency == old(frequency) &&
                trace == old(trace) + [ReadTransfer(REG_VERSION)]
      ensures old(regs[REG_VERSION]) == EXPECTED_VERSION ==>
                var f := FrfBytes(Frf(freq));
                var lna := WithLow2Set(old(regs[REG_LNA]));
                r == 1 && frequency == freq &&
                regs == old(regs)[REG_FRF_MSB := f[0]][REG_FRF_MID := f[1]][REG_FRF_LSB := f[2]]
                                         [REG_FIFO_TX_BASE_ADDR := 0][REG_FIFO_RX_BASE_ADDR := 0]
                                         [REG_LNA := lna][REG_MODEM_CONFIG_3 := 0x04][REG_PA_CONFIG := 0x8F]
                                         [REG_OP_MODE := 0x81] &&
                trace == old(trace) + [ReadTransfer(REG_VERSION)] + [WriteTransfer(REG_OP_MODE, 0x80)] +
                         [WriteTransfer(REG_FRF_MSB, f[0])] + [WriteTransfer(REG_FRF_MID, f[1])] +
                         [WriteTransfer(REG_FRF_LSB, f[2])] +
                         [WriteTransfer(REG_FIFO_TX_BASE_ADDR, 0)] + [WriteTransfer(REG_FIFO_RX_BASE_ADDR, 0)] +
                         [ReadTransfer(REG_LNA)] + [WriteTransfer(REG_LNA, lna)] +
                         [WriteTransfer(REG_MODEM_CONFIG_3, 0x04)] + [WriteTransfer(REG_PA_CONFIG, 0x8F)] +
                         [WriteTransfer(REG_OP_MODE, 0x81)]
    {
      var version := ReadRegister(REG_VERSION);
      if version != EXPECTED_VERSION {
        return version;
      }
      Sleep();
      SetFrequency(freq);
      WriteRegister(REG_FIFO_TX_BASE_ADDR, 0);
      WriteRegister(REG_FIFO_RX_BASE_ADDR, 0);
      var lna := ReadRegister(REG_LNA);
      WriteRegister(REG_LNA, WithLow2Set(lna));
      WriteRegister(REG_MODEM_CONFIG_3, 0x04);
      SetTxPower(17);
      Idle();
      PaConfigExamples();
      return 1;
    }

    /** Shutdown: the radio is put to sleep. */
    method End()
      modifies this`regs, this`trace
      ensures regs == old(regs)[REG_OP_MODE := LongRange(MODE_SLEEP)]
      ensures regs[REG_OP_MODE] == 0x80
      ensures trace == old(trace) + [WriteTransfer(REG_OP_MODE, 0x80)]
    {
      Sleep();
    }

    /** Standby, keeping the long-range bit. */
    method Idle()
      modifies this`regs, this`trace
      ensures regs == old(regs)[REG_OP_MODE := LongRange(MODE_STDBY)]
      ensures regs[REG_OP_MODE] >= MODE_LONG_RANGE_MODE && regs[REG_OP_MODE] % 8 == MODE_STDBY
      ensures trace == old(trace) + [WriteTransfer(REG_OP_MODE, 0x81)]
    {
      WriteRegister(REG_OP_MODE, LongRange(MODE_STDBY));
    }

    /** Sleep, keeping the long-range bit. */
    method Sleep()
      modifies this`regs, this`trace
      ensures regs == old(regs)[REG_OP_MODE := LongRange(MODE_SLEEP)]
      ensures regs[REG_OP_MODE] >= MODE_LONG_RANGE_MODE && regs[REG_OP_MODE] % 8 == MODE_SLEEP
      ensures trace == old(trace) + [WriteTransfer(REG_OP_MODE, 0x80)]
    {
      WriteRegister(REG_OP_MODE, LongRange(MODE_SLEEP));
    }

    // -------------------------------------------------------------------
    // Configuration setters

    /** Writes the clamped output power for the selected output pin. */
    method SetTxPower(level: int, outputPin: int := PA_OUTPUT_PA_BOOST_PIN)
      modifies this`regs, this`trace
      ensures regs == old(regs)[REG_PA_CONFIG := PaConfigValue(level, outputPin)]
      ensures UsesBoost(regs[REG_PA_CONFIG]) == (outputPin != PA_OUTPUT_RFO_PIN)
      ensures PowerOf(regs[REG_PA_CONFIG]) ==
                if outputPin == PA_OUTPUT_RFO_PIN then Clamp(level, 0, 14) else Clamp(level, 2, 17)
      ensures trace == old(trace) + [WriteTransfer(REG_PA_CONFIG, PaConfigValue(level, outputPin))]
    {
      var lvl := level;
      if outputPin == PA_OUTPUT_RFO_PIN {
        if lvl < 0 {
          lvl := 0;
        } else if lvl > 14 {
          lvl := 14;
        }
        WriteRegister(REG_PA_CONFIG, 0x70 + lvl);
      } else {
        if lvl < 2 {
          lvl := 2;
        } else if lvl > 17 {
          lvl := 17;
        }
        WriteRegister(REG_PA_CONFIG, PA_BOOST + (lvl - 2));
      }
      PaConfigRoundTrip(level, outputPin);
    }

    /** Records the frequency and writes its 24-bit frequency word, most
        significant byte first. */
    method SetFrequency(freq: int)
      modifies this`regs, this`trace, this`frequency
      ensures frequency == freq
      ensures var f := FrfBytes(Frf(freq));
              regs == old(regs)[REG_FRF_MSB := f[0]][REG_FRF_MID := f[1]][REG_FRF_LSB := f[2]] &&
              trace == old(trace) + [WriteTransfer(REG_FRF_MSB, f[0])] + [WriteTransfer(REG_FRF_MID, f[1])] +
                       [WriteTransfer(REG_FRF_LSB, f[2])]
      ensures 0 <= freq < 1024000000 ==>
                FrfFromBytes(regs[REG_FRF_MSB], regs[REG_FRF_MID], regs[REG_FRF_LSB]) == Frf(freq) &&
                Frf(freq) * FXOSC <= freq * FRF_SCALE < (Frf(freq) + 1) * FXOSC
    {
      frequency := freq;
      var frf := Frf(freq);
      WriteRegister(REG_FRF_MSB, ToByte(frf / 0x1_0000));
      WriteRegister(REG_FRF_MID, ToByte(frf / 0x100));
      WriteRegister(REG_FRF_LSB, ToByte(frf));
      if 0 <= freq < 1024000000 {
        FrequencyRoundTrip(freq);
      }
    }

    /** Clamps the spreading factor to [6, 12], writes the detection
        settings for it (the special pair for 6), replaces the
        spreading-factor nibble of REG_MODEM_CONFIG_2 and recomputes the
        low-data-rate-optimisation bit. The bandwidth code in the register
        must be one of the table's (otherwise the recomputation divides by
        zero). */
    method SetSpreadingFactor(sf: int)
      requires HighNibble(regs[REG_MODEM_CONFIG_1]) <= 9
      modifies this`regs, this`trace
      ensures LdoDefined(HighNibble(old(regs[REG_MODEM_CONFIG_1])), SpreadingFactorCode(sf))
      ensures var s := SpreadingFactorCode(sf);
              var config2 := WithHighNibble(old(regs[REG_MODEM_CONFIG_2]), s);
              var config3 := Config3WithLdo(old(regs[REG_MODEM_CONFIG_1]), config2, old(regs[REG_MODEM_CONFIG_3]));
              regs == old(regs)[REG_DETECTION_OPTIMIZE := if s == 6 then 0xC5 else 0xC3]
                                       [REG_DETECTION_THRESHOLD := if s == 6 then 0x0C else 0x0A]
                                       [REG_MODEM_CONFIG_2 := config2][REG_MODEM_CONFIG_3 := config3] &&
              trace == old(trace) + [WriteTransfer(REG_DETECTION_OPTIMIZE, if s == 6 then 0xC5 else 0xC3)] +
                       [WriteTransfer(REG_DETECTION_THRESHOLD, if s == 6 then 0x0C else 0x0A)] +
                       [ReadTransfer(REG_MODEM_CONFIG_2)] + [WriteTransfer(REG_MODEM_CONFIG_2, config2)] +
                       LdoFlagTrace(config3)
      ensures HighNibble(regs[REG_MODEM_CONFIG_2]) == Clamp(sf, 6, 12)
      ensures regs[REG_MODEM_CONFIG_2] % 16 == old(regs[REG_MODEM_CONFIG_2]) % 16
      ensures regs[REG_MODEM_CONFIG_1] == old(regs[REG_MODEM_CONFIG_1])
    {
      var s := sf;
      if s < 6 {
        s := 6;
      } else if s > 12 {
        s := 12;
      }
      if s == 6 {
        WriteRegister(REG_DETECTION_OPTIMIZE, 0xC5);
        WriteRegister(REG_DETECTION_THRESHOLD, 0x0C);
      } else {
        WriteRegister(REG_DETECTION_OPTIMIZE, 0xC3);
        WriteRegister(REG_DETECTION_THRESHOLD, 0x0A);
      }
      var config2 := ReadRegister(REG_MODEM_CONFIG_2);
      WriteRegister(REG_MODEM_CONFIG_2, WithHighNibble(config2, s));
      LdoDefinedForDriverCodes(HighNibble(regs[REG_MODEM_CONFIG_1]), s);
      SetLdoFlag();
    }

    /** Selects the bandwidth code for the request, replaces the bandwidth
        nibble of REG_MODEM_CONFIG_1 and recomputes the
        low-data-rate-optimisation bit. The spreading-factor code in the
        register must leave a positive symbol rate (otherwise the
        recomputation divides by zero). */
    method SetSignalBandwidth(sbw: int)
      requires LdoDefined(BandwidthCode(sbw), HighNibble(regs[REG_MODEM_CONFIG_2]))
      modifies this`regs, this`trace
      ensures var config1 := WithHighNibble(old(regs[REG_MODEM_CONFIG_1]), BandwidthCode(sbw));
              var config3 := Config3WithLdo(config1, old(regs[REG_MODEM_CONFIG_2]), old(regs[REG_MODEM_CONFIG_3]));
              regs == old(regs)[REG_MODEM_CONFIG_1 := config1][REG_MODEM_CONFIG_3 := config3] &&
              trace == old(trace) + [ReadTransfer(REG_MODEM_CONFIG_1)] + [WriteTransfer(REG_MODEM_CONFIG_1, config1)] +
                       LdoFlagTrace(config3)
      ensures regs[REG_MODEM_CONFIG_1] % 16 == old(regs[REG_MODEM_CONFIG_1]) % 16
      ensures sbw <= 500000 ==> BandwidthHz(HighNibble(regs[REG_MODEM_CONFIG_1])) >= sbw
      ensures forall j :: 0 <= j < HighNibble(regs[REG_MODEM_CONFIG_1]) ==> BANDWIDTHS[j] < sbw
    {
      var bw: byte;
      if sbw <= 7800 {
        bw := 0;
      } else if sbw <= 10400 {
        bw := 1;
      } else if sbw <= 15600 {
        bw := 2;
      } else if sbw <= 20800 {
        bw := 3;
      } else if sbw <= 31250 {
        bw := 4;
      } else if sbw <= 41700 {
        bw := 5;
      } else if sbw <= 62500 {
        bw := 6;
      } else if sbw <= 125000 {
        bw := 7;
      } else if sbw <= 250000 {
        bw := 8;
      } else {
        bw := 9;
      }
      var config1 := ReadRegister(REG_MODEM_CONFIG_1);
      WriteRegister(REG_MODEM_CONFIG_1, WithHighNibble(config1, bw));
      SetLdoFlag();
      BandwidthCodeIsSmallestSufficient(sbw);
    }

    /** Clamps the coding-rate denominator to [5, 8] and writes it, less 4,
        into bits 1-3 of REG_MODEM_CONFIG_1. */
    method SetCodingRate4(denominator: int)
      modifies this`regs, this`trace
      ensures var config1 := WithCodingRate(old(regs[REG_MODEM_CONFIG_1]), CodingRateCode(denominator));
              regs == old(regs)[REG_MODEM_CONFIG_1 := config1] &&
              trace == old(trace) + [ReadTransfer(REG_MODEM_CONFIG_1)] + [WriteTransfer(REG_MODEM_CONFIG_1, config1)]
      ensures CodingRateOf(regs[REG_MODEM_CONFIG_1]) == Clamp(denominator, 5, 8)
      ensures HighNibble(regs[REG_MODEM_CONFIG_1]) == HighNibble(old(regs[REG_MODEM_CONFIG_1]))
      ensures Bit0(regs[REG_MODEM_CONFIG_1]) == Bit0(old(regs[REG_MODEM_CONFIG_1]))
    {
      var d := denominator;
      if d < 5 {
        d := 5;
      } else if d > 8 {
        d := 8;
      }
      var cr := d - 4;
      var config1 := ReadRegister(REG_MODEM_CONFIG_1);
      WriteRegister(REG_MODEM_CONFIG_1, WithCodingRate(config1, cr));
    }

    /** Writes the preamble length as a big-endian 16-bit value. */
    method SetPreambleLength(length: int)
      modifies this`regs, this`trace
      ensures var b := PreambleBytes(length);
              regs == old(regs)[REG_PREAMBLE_MSB := b[0]][REG_PREAMBLE_LSB := b[1]] &&
              trace == old(trace) + [WriteTransfer(REG_PREAMBLE_MSB, b[0])] + [WriteTransfer(REG_PREAMBLE_LSB, b[1])]
      ensures regs[REG_PREAMBLE_MSB] as int * 256 + regs[REG_PREAMBLE_LSB] as int == length % 0x1_0000
    {
      WriteRegister(REG_PREAMBLE_MSB, ToByte(length / 256));
      WriteRegister(REG_PREAMBLE_LSB, ToByte(length));
    }

    /** Writes the sync word, truncated to a byte. */
    method SetSyncWord(sw: int)
      modifies this`regs, this`trace
      ensures regs == old(regs)[REG_SYNC_WORD := ToByte(sw)]
      ensures regs[REG_SYNC_WORD] == sw % 256
      ensures trace == old(trace) + [WriteTransfer(REG_SYNC_WORD, ToByte(sw))]
    {
      WriteRegister(REG_SYNC_WORD, ToByte(sw));
    }

    // -------------------------------------------------------------------
    // Derived and internal settings

    /** The bus exchanges of SetLdoFlag when it writes `config3`: the two
        getters' reads (taken in left-to-right order), then the
        read-modify-write of REG_MODEM_CONFIG_3. */
    static ghost function LdoFlagTrace(config3: byte): seq<Transfer> {
      [ReadTransfer(REG_MODEM_CONFIG_1), ReadTransfer(REG_MODEM_CONFIG_2),
       ReadTransfer(REG_MODEM_CONFIG_3), WriteTransfer(REG_MODEM_CONFIG_3, config3)]
    }

    /** Recomputes bit 3 of REG_MODEM_CONFIG_3 from the bandwidth and the
        spreading factor held in the registers. */
    method SetLdoFlag()
      requires LdoDefined(HighNibble(regs[REG_MODEM_CONFIG_1]), HighNibble(regs[REG_MODEM_CONFIG_2]))
      modifies this`regs, this`trace
      ensures regs == old(regs)[REG_MODEM_CONFIG_3 := Config3WithLdo(old(regs[REG_MODEM_CONFIG_1]),
                                          old(regs[REG_MODEM_CONFIG_2]), old(regs[REG_MODEM_CONFIG_3]))]
      ensures trace == old(trace) + LdoFlagTrace(regs[REG_MODEM_CONFIG_3])
    {
      var bw := GetSignalBandwidth();
      var sf := GetSpreadingFactor();
      var symbolDuration := SymbolDuration(bw, sf);
      var ldoOn := symbolDuration > 16;
      var config3 := ReadRegister(REG_MODEM_CONFIG_3);
      config3 := WithBit3(config3, ldoOn);
      WriteRegister(REG_MODEM_CONFIG_3, config3);
    }

    method ExplicitHeaderMode()
      modifies this`regs, this`trace, this`implicitHeaderMode
      ensures !implicitHeaderMode
      ensures var config1 := WithBit0(old(regs[REG_MODEM_CONFIG_1]), false);
              regs == old(regs)[REG_MODEM_CONFIG_1 := config1] &&
              trace == old(trace) + [ReadTransfer(REG_MODEM_CONFIG_1)] + [WriteTransfer(REG_MODEM_CONFIG_1, config1)]
      ensures !Bit0(regs[REG_MODEM_CONFIG_1])
      ensures regs[REG_MODEM_CONFIG_1] / 2 == old(regs[REG_MODEM_CONFIG_1]) / 2
    {
      implicitHeaderMode := false;
      var config1 := ReadRegister(REG_MODEM_CONFIG_1);
      WriteRegister(REG_MODEM_CONFIG_1, WithBit0(config1, false));
    }

    method ImplicitHeaderMode()
      modifies this`regs, this`trace, this`implicitHeaderMode
      ensures implicitHeaderMode
      ensures var config1 := WithBit0(old(regs[REG_MODEM_CONFIG_1]), true);
              regs == old(regs)[REG_MODEM_CONFIG_1 := config1] &&
              trace == old(trace) + [ReadTransfer(REG_MODEM_CONFIG_1)] + [WriteTransfer(REG_MODEM_CONFIG_1, config1)]
      ensures Bit0(regs[REG_MODEM_CONFIG_1])
      ensures regs[REG_MODEM_CONFIG_1] / 2 == old(regs[REG_MODEM_CONFIG_1]) / 2
    {
      implicitHeaderMode := true;
      var config1 := ReadRegister(REG_MODEM_CONFIG_1);
      WriteRegister(REG_MODEM_CONFIG_1, WithBit0(config1, true));
    }

    /** The spreading-factor code held in REG_MODEM_CONFIG_2. */
    method GetSpreadingFactor() returns (sf: nat)
      modifies this`regs, this`trace
      ensures sf <= 15 && sf == HighNibble(regs[REG_MODEM_CONFIG_2])
      ensures regs == old(regs)
      ensures trace == old(trace) + [ReadTransfer(REG_MODEM_CONFIG_2)]
    {
      var config2 := ReadRegister(REG_MODEM_CONFIG_2);
      sf := HighNibble(config2);
    }

    /** The bandwidth in Hz the code in REG_MODEM_CONFIG_1 selects; 0 for a
        code outside the table. */
    method GetSignalBandwidth() returns (hz: int)
      modifies this`regs, this`trace
      ensures hz == BandwidthHz(HighNibble(regs[REG_MODEM_CONFIG_1]))
      ensures regs == old(regs)
      ensures trace == old(trace) + [ReadTransfer(REG_MODEM_CONFIG_1)]
    {
      var config1 := ReadRegister(REG_MODEM_CONFIG_1);
      var bw := HighNibble(config1);
      match bw
      case 0 => hz := 7800;
      case 1 => hz := 10400;
      case 2 => hz := 15600;
      case 3 => hz := 20800;
      case 4 => hz := 31250;
      case 5 => hz := 41700;
      case 6 => hz := 62500;
      case 7 => hz := 125000;
      case 8 => hz := 250000;
      case 9 => hz := 500000;
      case _ => hz := 0;
    }

    // -------------------------------------------------------------------
    // Packet reception

    /** The register file once ParsePacket has chosen the header mode
        (bit 0 of REG_MODEM_CONFIG_1, and for an implicit header the payload
        length size & 0xff) and written the IRQ flags back unchanged. */
    static function HeaderStaged(r: RegisterFile, size: int): (staged: RegisterFile)
      ensures Bit0(staged[REG_MODEM_CONFIG_1]) == (size > 0)
      ensures size > 0 ==> staged[REG_PAYLOAD_LENGTH] == size % 256
    {
      var config1 := WithBit0(r[REG_MODEM_CONFIG_1], size > 0);
      if size > 0 then r[REG_MODEM_CONFIG_1 := config1][REG_PAYLOAD_LENGTH := ToByte(size)]
      else r[REG_MODEM_CONFIG_1 := config1]
    }

    /** `prior` followed by the bus exchanges ParsePacket makes before it
        tests the flags: the IRQ snapshot, the header-mode
        read-modify-write, the payload length for an implicit header, and
        the write-back of the snapshot. */
    static ghost function HeaderTrace(prior: seq<Transfer>, r: RegisterFile, size: int): seq<Transfer>
    {
      var config1 := WithBit0(r[REG_MODEM_CONFIG_1], size > 0);
      if size > 0 then
        prior + [ReadTransfer(REG_IRQ_FLAGS)] + [ReadTransfer(REG_MODEM_CONFIG_1)] +
        [WriteTransfer(REG_MODEM_CONFIG_1, config1)] + [WriteTransfer(REG_PAYLOAD_LENGTH, ToByte(size))] +
        [WriteTransfer(REG_IRQ_FLAGS, r[REG_IRQ_FLAGS])]
      else
        prior + [ReadTransfer(REG_IRQ_FLAGS)] + [ReadTransfer(REG_MODEM_CONFIG_1)] +
        [WriteTransfer(REG_MODEM_CONFIG_1, config1)] + [WriteTransfer(REG_IRQ_FLAGS, r[REG_IRQ_FLAGS])]
    }

    /** One poll of the receiver. The IRQ flags are snapshotted and written
        back; the header mode follows `size`. A packet that arrived with a
        good CRC is announced by its length, the cursor is reset, the FIFO
        pointer moved to it and the chip put in standby; otherwise 0 is
        returned and, unless it is already there, the chip is armed for
        single reception. */
    method ParsePacket(size: int := 0) returns (packetLength: int)
      modifies this`regs, this`trace, this`implicitHeaderMode, this`packetIndex
      ensures 0 <= packetLength <= 255
      ensures implicitHeaderMode == (size > 0)
      ensures PacketReady(old(regs[REG_IRQ_FLAGS])) ==>
                var staged := HeaderStaged(old(regs), size);
                packetIndex == 0 &&
                packetLength == (if size > 0 then size % 256 else old(regs[REG_RX_NB_BYTES])) &&
                regs == staged[REG_FIFO_ADDR_PTR := staged[REG_FIFO_RX_CURRENT_ADDR]][REG_OP_MODE := LongRange(MODE_STDBY)] &&
                trace == HeaderTrace(old(trace), old(regs), size) +
                         [ReadTransfer(if size > 0 then REG_PAYLOAD_LENGTH else REG_RX_NB_BYTES)] +
                         [ReadTransfer(REG_FIFO_RX_CURRENT_ADDR)] +
                         [WriteTransfer(REG_FIFO_ADDR_PTR, staged[REG_FIFO_RX_CURRENT_ADDR])] +
                         [WriteTransfer(REG_OP_MODE, LongRange(MODE_STDBY))]
      ensures !PacketReady(old(regs[REG_IRQ_FLAGS])) ==>
                var staged := HeaderStaged(old(regs), size);
                var armed := LongRange(MODE_RX_SINGLE);
                packetIndex == old(packetIndex) && packetLength == 0 &&
                regs == (if staged[REG_OP_MODE] != armed then staged[REG_FIFO_ADDR_PTR := 0][REG_OP_MODE := armed]
                         else staged) &&
                trace == (if staged[REG_OP_MODE] != armed
                          then HeaderTrace(old(trace), old(regs), size) + [ReadTransfer(REG_OP_MODE)] +
                               [WriteTransfer(REG_FIFO_ADDR_PTR, 0)] + [WriteTransfer(REG_OP_MODE, armed)]
                          else HeaderTrace(old(trace), old(regs), size) + [ReadTransfer(REG_OP_MODE)])
    {
      packetLength := 0;
      var irqFlags := ReadRegister(REG_IRQ_FLAGS);
      if size > 0 {
        ImplicitHeaderMode();
        WriteRegister(REG_PAYLOAD_LENGTH, ToByte(size));
      } else {
        ExplicitHeaderMode();
      }
      WriteRegister(REG_IRQ_FLAGS, irqFlags);
      assert regs == HeaderStaged(old(regs), size);
      assert trace == HeaderTrace(old(trace), old(regs), size);
      if RxDone(irqFlags) && !CrcError(irqFlags) {
        packetIndex := 0;
        var length: byte;
        if implicitHeaderMode {
          length := ReadRegister(REG_PAYLOAD_LENGTH);
        } else {
          length := ReadRegister(REG_RX_NB_BYTES);
        }
        packetLength := length;
        var current := ReadRegister(REG_FIFO_RX_CURRENT_ADDR);
        WriteRegister(REG_FIFO_ADDR_PTR, current);
        Idle();
      } else {
        var mode := ReadRegister(REG_OP_MODE);
        if mode != LongRange(MODE_RX_SINGLE) {
          WriteRegister(REG_FIFO_ADDR_PTR, 0);
          WriteRegister(REG_OP_MODE, LongRange(MODE_RX_SINGLE));
        }
      }
    }

    /** The received byte count less the cursor, read live. */
    method Available() returns (n: int)
      modifies this`regs, this`trace
      ensures n == old(AvailableCount())
      ensures regs == old(regs)
      ensures trace == old(trace) + [ReadTransfer(REG_RX_NB_BYTES)]
    {
      var count := ReadRegister(REG_RX_NB_BYTES);
      n := count - packetIndex;
    }

    /** The next byte of the packet from the FIFO, or -1 when exactly
        nothing is available; a negative count still reads. */
    method Read() returns (b: int)
      modifies this`regs, this`trace, this`packetIndex
      ensures -1 <= b <= 255
      ensures regs == old(regs)
      ensures old(AvailableCount()) == 0 ==>
                b == -1 && packetIndex == old(packetIndex) &&
                trace == old(trace) + [ReadTransfer(REG_RX_NB_BYTES)]
      ensures old(AvailableCount()) != 0 ==>
                b == old(regs[REG_FIFO]) && packetIndex == old(packetIndex) + 1 &&
                AvailableCount() == old(AvailableCount()) - 1 &&
                trace == old(trace) + [ReadTransfer(REG_RX_NB_BYTES)] + [ReadTransfer(REG_FIFO)]
    {
      var n := Available();
      if n == 0 {
        return -1;
      }
      packetIndex := packetIndex + 1;
      var data := ReadRegister(REG_FIFO);
      b := data;
    }

    /** The raw RSSI of the last packet less the offset for the band the
        configured frequency lies in. */
    method PacketRssi() returns (rssi: int)
      modifies this`regs, this`trace
      ensures rssi == old(regs[REG_PKT_RSSI_VALUE]) - RssiOffset(frequency)
      ensures -164 <= rssi <= 98
      ensures regs == old(regs)
      ensures trace == old(trace) + [ReadTransfer(REG_PKT_RSSI_VALUE)]
    {
      var raw := ReadRegister(REG_PKT_RSSI_VALUE);
      rssi := raw as int - (if frequency < 868000000 then 164 else 157);
    }
  }
}
