# SX1276 LoRa driver: a register-level model

This project models `LoRaClass`, the driver for an SX1276-class LoRa
transceiver on a Raspberry Pi. The driver does everything through two-byte
exchanges on the SPI bus. The first byte is the register address, with bit 7
set for a write. The second byte is the data for a write, or 0x00 for a read,
in which case the chip answers with the register's content.

The model has four modules:

- `Registers`: the register map, the mode constants and the bus transaction
  (`Transfer`). It also defines how one exchange acts on the chip's 128-byte
  register file (`Apply`) and what the chip answers (`Reply`).
- `RadioConfig`: every value the driver computes before writing it. This
  covers clamping, the PA_CONFIG byte, the 24-bit frequency word, the
  bandwidth table, the spreading-factor and coding-rate fields, the
  low-data-rate-optimisation (LDO) decision, the preamble split, the RSSI
  offset and the IRQ flag tests. The lemmas about these values live here too.
- `LoRa`: the class `LoRaClass`. Its fields are the register file as the bus
  sees it, `frequency`, `packetIndex`, `implicitHeaderMode`, and a ghost
  `trace` of every bus exchange. Every method of the driver except
  `setPins` is a method here. Each method states the new register file and the
  exact exchanges it makes, plus the property the driver promises.
- `BitMasks`: the C mask expressions of the driver (`& 0x0f`, `| (bw << 4)`,
  `bitWrite`, …) on `bv8` (`bv64` and `bv32` for `1L << sf`), each shown equal to the arithmetic function the
  model computes with. One expression, `(reg >> 1) & 0x07`, is not in the
  driver: it reads back the coding-rate field that `setCodingRate4` writes,
  and the model uses it to state what that setter achieves.

Bytes are integers in 0..255. A C conversion to `uint8_t` is `ToByte`
(modulo 256). The 64-bit arithmetic of `setFrequency` is written out modulo
2^64.

On one point the model follows the code against the datasheet rule its
comment cites. Section 4.1.1.6 of the SX1276 datasheet makes the LDO bit
mandatory when one symbol lasts longer than 16 ms. `setLdoFlag` instead
computes `1000 / (bw / 2^sf)` in integer arithmetic. At 125 kHz and
spreading factor 11 a symbol lasts 16.384 ms, but the code computes 16 and
leaves the bit clear. `LdoOn` is the code's rule:

- `LdoOnImpliesLongSymbol` proves the rule never sets the bit wrongly.
- `LdoMissesSf11At125kHz` exhibits the case it misses.

The driver's methods use the code's rule; the row under "## Findings"
records the discrepancy.

## Model

| member | source | states |
|---|---|---|
| Registers.LongRange | LoRa.cpp:35-41 | the operating-mode byte has the long-range bit set and carries the requested mode in bits 0-2 |
| Registers.TransferEncoding | LoRa.cpp:368-376 | a read exchange is never a write and sends 0x00; a write exchange carries its value; both address the same register, the given one when it is below 0x80 |
| Registers.Apply | LoRa.cpp:378-393 | a write exchange stores its data byte in the addressed register; every other register, and the whole file on a read, is unchanged |
| Registers.Target | LoRa.cpp:370 | the addressed register is below 0x80 |
| Registers.ToByte | LoRa.cpp:168-170 | the uint8_t conversion: the result is a byte congruent to the integer modulo 256 |
| Registers.ReadTransfer | LoRa.cpp:370 | a read exchange is not a write, addresses the register address & 0x7f and sends 0x00 |
| Registers.WriteTransfer | LoRa.cpp:375 | a write exchange is a write, addresses the register address & 0x7f and carries the value |
| Registers.Reply | LoRa.cpp:392 | the byte returned by a read is the addressed register's content, which the read leaves in place |
| LoRa.LoRaClass.constructor | LoRa.cpp:55 | frequency 0, cursor 0, explicit header mode, no bus exchange yet, over the given register file |
| LoRa.LoRaClass.AvailableCount | LoRa.cpp:338 | nothing is left exactly when the cursor equals the received byte count, and the count is negative exactly when the cursor has passed it |
| LoRa.LoRaClass.Exchange | LoRa.cpp:388 | the chip applies the transfer to its registers; the data byte of the buffer is replaced by the addressed register's old content; the exchange is appended to the trace |
| LoRa.LoRaClass.SingleTransfer | LoRa.cpp:378-393 | one exchange of (address, value); returns the old content of the addressed register |
| LoRa.LoRaClass.ReadRegister | LoRa.cpp:368-371 | returns the register's content (address & 0x7f), leaves every register unchanged, and makes exactly one read exchange |
| LoRa.LoRaClass.WriteRegister | LoRa.cpp:373-376 | stores the value in exactly that register, and makes exactly one exchange with bit 7 of the address set |
| LoRa.LoRaClass.Begin | LoRa.cpp:90-119 | a chip not reporting version 0x12 gets no write and its version is returned; otherwise the radio is put to sleep, tuned, given base addresses 0, LNA boost, auto AGC and 17 dBm on PA_BOOST, and put in standby; returns 1 exactly when the version is 0x12 or 0x01 |
| LoRa.LoRaClass.End | LoRa.cpp:122-128 | the chip is left in long-range sleep (OP_MODE 0x80); nothing else changes |
| LoRa.LoRaClass.Idle | LoRa.cpp:358-361 | OP_MODE becomes long-range standby; nothing else changes |
| LoRa.LoRaClass.Sleep | LoRa.cpp:363-366 | OP_MODE becomes long-range sleep; nothing else changes |
| LoRa.LoRaClass.SetTxPower | LoRa.cpp:130-160 | PA_CONFIG selects the PA_BOOST pin exactly when the RFO pin was not asked for, and encodes the level clamped to [0,14] (RFO) or [2,17] (PA_BOOST) |
| LoRa.LoRaClass.SetFrequency | LoRa.cpp:162-171 | records the frequency and writes the frequency word's three bytes MSB first; below 1.024 GHz the three registers hold the word exactly, the largest multiple of 32 MHz/2^19 not above the frequency |
| LoRa.LoRaClass.SetSpreadingFactor | LoRa.cpp:173-197 | writes the detection pair for SF6 or for the others; the spreading-factor nibble becomes the clamped request with the low nibble kept; the LDO bit is recomputed, which is always defined for a table bandwidth |
| LoRa.LoRaClass.SetSignalBandwidth | LoRa.cpp:199-246 | the bandwidth nibble becomes the smallest table bandwidth covering the request (or 500 kHz); the coding rate and header bit are kept; the LDO bit is recomputed |
| LoRa.LoRaClass.SetCodingRate4 | LoRa.cpp:248-262 | the coding-rate field read back is the denominator clamped to [5,8]; the bandwidth and header bit are kept |
| LoRa.LoRaClass.SetPreambleLength | LoRa.cpp:264-268 | MSB·256 + LSB equals the length modulo 2^16 |
| LoRa.LoRaClass.SetSyncWord | LoRa.cpp:270-273 | the sync-word register holds the value modulo 256 |
| LoRa.LoRaClass.SetLdoFlag | LoRa.cpp:395-410 | bit 3 of MODEM_CONFIG_3 is set to the LDO decision for the bandwidth and spreading factor in the registers; its other bits are kept; the exchanges are the two getter reads, then the read-modify-write |
| LoRa.LoRaClass.ExplicitHeaderMode | LoRa.cpp:412-417 | clears the header flag and bit 0 of MODEM_CONFIG_1, keeping bits 1-7 |
| LoRa.LoRaClass.ImplicitHeaderMode | LoRa.cpp:419-424 | sets the header flag and bit 0 of MODEM_CONFIG_1, keeping bits 1-7 |
| LoRa.LoRaClass.GetSpreadingFactor | LoRa.cpp:426-429 | returns the high nibble of MODEM_CONFIG_2 (at most 15) and changes no register |
| LoRa.LoRaClass.GetSignalBandwidth | LoRa.cpp:431-459 | returns the table bandwidth of MODEM_CONFIG_1's high nibble, 0 outside the table, and changes no register |
| LoRa.LoRaClass.HeaderStaged | LoRa.cpp:287-299 | after the header step bit 0 of MODEM_CONFIG_1 says whether size > 0, and an implicit header stores size & 0xff as the payload length |
| LoRa.LoRaClass.ParsePacket | LoRa.cpp:282-334 | the header mode follows size and the IRQ flags are written back; a good packet (RX done, no CRC error) resets the cursor, returns its length (size & 0xff, or RX_NB_BYTES), moves the FIFO pointer to the current RX address and goes to standby; otherwise returns 0 and arms single RX unless already armed |
| LoRa.LoRaClass.Available | LoRa.cpp:336-339 | returns the received byte count less the cursor, changing no register |
| LoRa.LoRaClass.Read | LoRa.cpp:341-351 | with nothing available returns -1 and keeps the cursor; otherwise returns the FIFO byte and advances the cursor, so one byte fewer is available |
| LoRa.LoRaClass.PacketRssi | LoRa.cpp:353-356 | the raw RSSI less 164 below 868 MHz or 157 from 868 MHz on, within [-164, 98] |
| RadioConfig.HighNibble | LoRa.cpp:428 | x >> 4 is below 16 and, with the low nibble, rebuilds x |
| RadioConfig.WithHighNibble | LoRa.cpp:195 | the high nibble becomes n and the low nibble is kept |
| RadioConfig.WithCodingRate | LoRa.cpp:261 | the coding-rate field becomes cr; the high nibble and bit 0 are kept |
| RadioConfig.WithBit0 | LoRa.cpp:416 | bit 0 is written and bits 1-7 kept |
| RadioConfig.WithBit3 | LoRa.cpp:53 | bitWrite of bit 3: bit 3 is written, bits 0-2 and the high nibble are kept |
| RadioConfig.WithLow2Set | LoRa.cpp:108 | x \| 0x03 sets bits 0 and 1 and keeps bits 2-7 |
| RadioConfig.Clamp | LoRa.cpp:135-156 | the result lies in [lo, hi], equals x inside it, and is the nearest such value to x |
| RadioConfig.PaConfigValue | LoRa.cpp:130-160 | the RFO byte lies in 0x70..0x7E and the PA_BOOST byte in 0x80..0x8F |
| RadioConfig.PaConfigRoundTrip | LoRa.cpp:130-160 | the PA_CONFIG byte decodes back to the pin choice and the clamped level |
| RadioConfig.PaConfigExamples | LoRa.cpp:113-114 | 17 dBm on PA_BOOST gives 0x8F, the value Begin writes |
| RadioConfig.Frf | LoRa.cpp:166 | the frequency word is below 2^64 |
| RadioConfig.FrfFromBytes | LoRa.cpp:168-170 | the three registers assemble to a 24-bit word |
| RadioConfig.FrequencyRoundTrip | LoRa.cpp:162-171 | below 1.024 GHz the word fits 24 bits, its three bytes rebuild it, and it is the floor of frequency·2^19/32 MHz |
| RadioConfig.FrfBytes | LoRa.cpp:168-170 | three bytes, whose big-endian value is the word whenever it fits in 24 bits |
| RadioConfig.ByteSplit | LoRa.cpp:168-170 | any 24-bit number is rebuilt from its three shifted and truncated bytes |
| RadioConfig.BandwidthCode | LoRa.cpp:203-242 | the selected code is at most 9 |
| RadioConfig.BandwidthHz | LoRa.cpp:434-458 | codes 0-9 decode through the bandwidth table, all others to 0 |
| RadioConfig.BandwidthCodeIsSmallestSufficient | LoRa.cpp:199-246 | the selected code is the first whose bandwidth is at least the request; up to 500 kHz the decoded bandwidth covers the request |
| RadioConfig.BandwidthRoundTrip | LoRa.cpp:199-246 | requesting a table bandwidth selects its own code, so setter and getter invert each other |
| RadioConfig.BandwidthExamples | LoRa.cpp:203-242 | 125 kHz selects code 7; 250 001 Hz and 1 MHz select 9; 0 Hz selects 0 |
| RadioConfig.SpreadingFactorCode | LoRa.cpp:175-182 | a request below 6 gives 6, above 12 gives 12, and one in [6, 12] is kept |
| RadioConfig.CodingRateCode | LoRa.cpp:250-259 | a denominator below 5 gives code 1, above 8 gives 4, and one in [5, 8] gives the denominator less 4 |
| RadioConfig.ClampCodeExamples | LoRa.cpp:175-182 | spreading factors 3, 20 and 9 give 6, 12 and 9; denominators 0, 10 and 7 give codes 1, 4 and 3 |
| RadioConfig.BandwidthKeepsOtherFields | LoRa.cpp:244 | writing the bandwidth keeps the coding rate and the header bit |
| RadioConfig.LowNibbleFields | LoRa.cpp:261 | the coding-rate field and bit 0 depend on the low nibble alone |
| RadioConfig.CodingRateKeepsOtherFields | LoRa.cpp:261 | writing the coding rate keeps bandwidth and header bit, and reads back the clamped denominator |
| RadioConfig.HeaderModeKeepsOtherFields | LoRa.cpp:412-424 | writing the header bit keeps bandwidth and coding rate |
| RadioConfig.Pow2 | LoRa.cpp:398 | 1L << sf, at least 1 |
| RadioConfig.Pow2Monotone | LoRa.cpp:398 | 2^m ≤ 2^n for m ≤ n |
| RadioConfig.SymbolRate | LoRa.cpp:398 | for a non-negative bandwidth, the largest number of 2^sf-chip symbols per second that fits in it (floor division) |
| RadioConfig.SymbolDuration | LoRa.cpp:398 | for a positive rate, the floor of 1000 divided by the rate, in whole milliseconds |
| RadioConfig.LdoOn | LoRa.cpp:401-405 | the integer rule turns the optimisation on exactly when the truncated symbol rate is at most 58 per second |
| RadioConfig.DurationThreshold | LoRa.cpp:402 | 1000 div q exceeds 16 exactly for the rates 1 to 58 |
| RadioConfig.LdoDefinedForDriverCodes | LoRa.cpp:398 | for every bandwidth code 0-9 and spreading factor 6-12 the symbol rate is at least 1, so setLdoFlag never divides by zero after the driver's own setters |
| RadioConfig.Config3WithLdo | LoRa.cpp:395-410 | bit 3 holds the LDO decision for the registers' bandwidth and spreading factor; all other bits are kept |
| RadioConfig.LdoExamples | LoRa.cpp:398-405 | at 125 kHz the rule gives durations 16 (SF11, off), 33 (SF12, on) and 4 (SF9, off) |
| RadioConfig.LdoOnImpliesLongSymbol | LoRa.cpp:397-405 | whenever the integer rule sets the bit, a symbol really lasts more than 16 ms |
| RadioConfig.LdoMissesSf11At125kHz | LoRa.cpp:397-405 | at 125 kHz and SF11 a symbol lasts more than 16 ms, yet the integer rule leaves the bit clear |
| RadioConfig.PreambleBytes | LoRa.cpp:264-268 | two bytes whose big-endian value is the length modulo 2^16 |
| RadioConfig.PreambleSplit | LoRa.cpp:266-267 | (length >> 8) & 0xff and length & 0xff rebuild the length modulo 2^16 |
| RadioConfig.RssiOffset | LoRa.cpp:355 | the offset is 157 exactly from 868 MHz on and 164 below |
| RadioConfig.RssiExamples | LoRa.cpp:355 | 868 MHz and 868.5 MHz use 157; 433 MHz uses 164 |
| RadioConfig.RxDone | LoRa.cpp:301 | the RX-done flag is set exactly when the flags modulo 0x80 are at least 0x40 (bit 6) |
| RadioConfig.CrcError | LoRa.cpp:301 | the CRC-error flag is set exactly when the flags modulo 0x40 are at least 0x20 (bit 5) |
| RadioConfig.PacketReady | LoRa.cpp:301 | a good packet is signalled exactly when bits 6 and 5 read 1 and 0, i.e. the flags modulo 0x80 lie in [0x40, 0x60) |
| BitMasks.AddressMasks | LoRa.cpp:370-375 | address & 0x7f and address \| 0x80 are the read and write address bytes the model sends |
| BitMasks.LongRangeMask | LoRa.cpp:360-365 | MODE_LONG_RANGE_MODE \| mode equals LongRange(mode) |
| BitMasks.HighNibbleMask | LoRa.cpp:428-433 | reg >> 4 equals HighNibble |
| BitMasks.BandwidthMask | LoRa.cpp:244 | (reg & 0x0f) \| (bw << 4) equals WithHighNibble |
| BitMasks.SpreadingFactorMask | LoRa.cpp:195 | (reg & 0x0f) \| ((sf << 4) & 0xf0) equals WithHighNibble |
| BitMasks.CodingRateFieldMask | LoRa.cpp:261 | (reg >> 1) & 0x07, the read-back of the field this line writes, equals CodingRateField |
| BitMasks.CodingRateMask | LoRa.cpp:261 | (reg & 0xf1) \| (cr << 1) equals WithCodingRate |
| BitMasks.HeaderBitMasks | LoRa.cpp:416-423 | reg \| 0x01 and reg & 0xfe equal WithBit0 with true and false |
| BitMasks.BitWriteMask | LoRa.cpp:53 | the bitWrite macro on bit 3 equals WithBit3 |
| BitMasks.LnaBoostMask | LoRa.cpp:108 | reg \| 0x03 equals WithLow2Set |
| BitMasks.PaConfigMasks | LoRa.cpp:144-158 | 0x70 \| level and PA_BOOST \| (level - 2) are additions for the clamped levels |
| BitMasks.ShiftLeftLong | LoRa.cpp:398 | 1L << sf equals Pow2(sf) for every 4-bit spreading-factor code where long is 64 bits wide |
| BitMasks.ShiftLeftLong32 | LoRa.cpp:398 | the same where long is 32 bits wide, so the value does not depend on the width of long |
| BitMasks.IrqMasks | LoRa.cpp:301 | the RX-done and CRC-error mask tests equal RxDone and CrcError |

## Left out

- GPIO, reset pulses, SPI setup and delays of `begin` (LoRa.cpp:62-88), the chip-select toggling of `singleTransfer`, and the constructor's `wiringPiSetup`: hardware I/O. The constructor models only the field initialisation.
- `setPins` and the `_ss`, `_reset`, `_dio0`, `_spiFd` and `_onReceive` fields: pin numbers and handles used only by that I/O.
- The application in main.cpp: a caller of the driver, not part of it. From LoRa.h only the default arguments are taken (`size = 0` for `parsePacket`, the PA_BOOST pin for `setTxPower`).
- Chip-internal register behaviour: the write-1-to-clear IRQ flags, FIFO pointer auto-increment, the receiver filling RX_NB_BYTES, RSSI and FIFO. Registers change only through the driver's writes, so chip-driven registers hold whatever value the register file was given. In particular the write-back in `ParsePacket` does not clear the flags, so a second `ParsePacket` on the model reports the same packet again, where the chip would report none.
- What the chip shifts out during the address byte of an exchange: the driver never uses it.
- C `int` overflow of `packetIndex` and of the `int` and `long` arguments (sync word, preamble length, bandwidth request): integers are unbounded. Only the `uint8_t` and `uint64_t` conversions the driver makes are modelled.
- The order in which C evaluates the two getter calls in `setLdoFlag`'s expression is unspecified; the trace takes the bandwidth read first.
- LoRa.LoRaClass.SetSpreadingFactor: requires a bandwidth code of at most 9 in MODEM_CONFIG_1. With any other code `setLdoFlag` divides by zero, which C leaves undefined.
- LoRa.LoRaClass.SetSignalBandwidth: requires the spreading-factor code already in MODEM_CONFIG_2 to give a positive symbol rate. Some codes above 12 make `setLdoFlag` divide by zero, for example 7.8 kHz with code 13.
- LoRa.LoRaClass.SetLdoFlag: requires a positive symbol rate, for the same reason.
- The unused defines (`MODE_TX`, `MODE_RX_CONTINUOUS`, `IRQ_TX_DONE_MASK`, `MAX_PKT_LENGTH`, the SNR, frequency-error, RSSI-wideband and DIO-mapping registers) have no behaviour in this driver and are not modelled.

## Findings

| source | as written | input that shows it | evidently intended | confidence | as-written member | corrected member |
|---|---|---|---|---|---|---|
| LoRa.cpp:398-405 | the symbol duration is 1000 / (bw / 2^sf) in integer division, and the bit is set when it exceeds 16 | 125 kHz, spreading factor 11: a symbol lasts 16.384 ms, but 125000 / 2048 = 61 and 1000 / 61 = 16, so the bit stays clear | the bit is set whenever a symbol lasts more than 16 ms (section 4.1.1.6 of the SX1276 datasheet, cited by the comment on line 400): 1000 · 2^sf > 16 · bw | not executed | RadioConfig.LdoMissesSf11At125kHz | RadioConfig.LdoOnImpliesLongSymbol |
