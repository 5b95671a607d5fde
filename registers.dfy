/** The SX1276 register map the driver uses, its operating-mode and IRQ bit
    patterns, and the two-byte bus transaction through which every register
    access travels. Bytes are numbers in 0..255; the bit operations of the
    driver are arithmetic functions here and in RadioConfig, each shown equal
    to its C mask expression in BitMasks. */
module Registers {

  /** An 8-bit value, as uint8_t holds it. */
  type byte = x: int | 0 <= x < 256

  /** Number of addressable 8-bit registers: the address byte carries seven
      address bits, the eighth selects read (0) or write (1). */
  const REGISTER_COUNT := 128

  /** The chip's register file: one byte per address. */
  type RegisterFile = file: seq<byte> | |file| == REGISTER_COUNT witness seq(REGISTER_COUNT, _ => 0)

  // Register addresses.
  const REG_FIFO: byte := 0x00
  const REG_OP_MODE: byte := 0x01
  const REG_FRF_MSB: byte := 0x06
  const REG_FRF_MID: byte := 0x07
  const REG_FRF_LSB: byte := 0x08
  const REG_PA_CONFIG: byte := 0x09
  const REG_LNA: byte := 0x0c
  const REG_FIFO_ADDR_PTR: byte := 0x0d
  const REG_FIFO_TX_BASE_ADDR: byte := 0x0e
  const REG_FIFO_RX_BASE_ADDR: byte := 0x0f
  const REG_FIFO_RX_CURRENT_ADDR: byte := 0x10
  const REG_IRQ_FLAGS: byte := 0x12
  const REG_RX_NB_BYTES: byte := 0x13
  const REG_PKT_RSSI_VALUE: byte := 0x1a
  const REG_MODEM_CONFIG_1: byte := 0x1d
  const REG_MODEM_CONFIG_2: byte := 0x1e
  const REG_PREAMBLE_MSB: byte := 0x20
  const REG_PREAMBLE_LSB: byte := 0x21
  const REG_PAYLOAD_LENGTH: byte := 0x22
  const REG_MODEM_CONFIG_3: byte := 0x26
  const REG_DETECTION_OPTIMIZE: byte := 0x31
  const REG_DETECTION_THRESHOLD: byte := 0x37
  const REG_SYNC_WORD: byte := 0x39
  const REG_VERSION: byte := 0x42

  // Operating modes; LoRa operation needs the long-range bit in every mode.
  const MODE_LONG_RANGE_MODE: byte := 0x80
  const MODE_SLEEP: byte := 0x00
  const MODE_STDBY: byte := 0x01
  const MODE_RX_SINGLE: byte := 0x06

  /** MODE_LONG_RANGE_MODE | mode, for a mode in the low three bits. */
  function LongRange(mode: byte): (op: byte)
    requires mode < 8
    ensures op >= MODE_LONG_RANGE_MODE && op % 8 == mode
  {
    MODE_LONG_RANGE_MODE + mode
  }

  // Power-amplifier selection bit and IRQ flag masks.
  const PA_BOOST: byte := 0x80
  const IRQ_PAYLOAD_CRC_ERROR_MASK: byte := 0x20
  const IRQ_RX_DONE_MASK: byte := 0x40

  /** Output-pin selectors of setTxPower; PA_BOOST is the default. */
  const PA_OUTPUT_RFO_PIN := 0
  const PA_OUTPUT_PA_BOOST_PIN := 1

  /** The silicon revision an SX1276 reports in REG_VERSION. */
  const EXPECTED_VERSION: byte := 0x12

  /** The byte a C integer becomes when converted to uint8_t: its value
      modulo 256. */
  function ToByte(x: int): (b: byte)
    ensures (x - b) % 256 == 0
  {
    x % 256
  }

  /** One full-duplex exchange on the bus: the address byte (bit 7 set for a
      write) followed by the data byte. */
  datatype Transfer = Transfer(address: byte, value: byte)

  /** Bit 7 of the address byte selects a write. */
  predicate IsWrite(t: Transfer) {
    t.address >= 0x80
  }

  /** The register a transfer addresses: the address byte & 0x7F. */
  function Target(t: Transfer): (reg: byte)
    ensures reg < 0x80
  {
    t.address % 0x80
  }

  /** The exchange readRegister sends: address & 0x7F, data 0x00. */
  function ReadTransfer(reg: byte): (t: Transfer)
    ensures !IsWrite(t) && Target(t) == reg % 0x80 && t.value == 0x00
  {
    Transfer(reg % 0x80, 0x00)
  }

  /** The exchange writeRegister sends: address | 0x80, then the value. */
  function WriteTransfer(reg: byte, value: byte): (t: Transfer)
    ensures IsWrite(t) && Target(t) == reg % 0x80 && t.value == value
  {
    Transfer(reg % 0x80 + 0x80, value)
  }

  /** A read is never taken for a write and sends 0x00; a write is taken
      for one and carries its value; both address the register they were
      given when it is below 0x80, as all of the driver's are. */
  lemma TransferEncoding(reg: byte, value: byte)
    ensures !IsWrite(ReadTransfer(reg)) && ReadTransfer(reg).value == 0
    ensures IsWrite(WriteTransfer(reg, value)) && WriteTransfer(reg, value).value == value
    ensures Target(ReadTransfer(reg)) == Target(WriteTransfer(reg, value))
    ensures reg < 0x80 ==> Target(ReadTransfer(reg)) == reg
  {
  }

  /** The chip's register file after it has taken part in `t`: a write
      stores the data byte in the addressed register; a read changes nothing.
      Chip-driven registers (IRQ flags, FIFO, byte counts, RSSI, version)
      are not updated here: their values are whatever the file holds. */
  function Apply(file: RegisterFile, t: Transfer): (after: RegisterFile)
    ensures IsWrite(t) ==> after[Target(t)] == t.value
    ensures forall i :: 0 <= i < REGISTER_COUNT && (i != Target(t) || !IsWrite(t)) ==> after[i] == file[i]
  {
    if IsWrite(t) then file[Target(t) := t.value] else file
  }

  /** The byte the chip shifts out during the data byte of `t`: the content
      of the addressed register before the exchange. */
  function Reply(file: RegisterFile, t: Transfer): (reply: byte)
    ensures !IsWrite(t) ==> reply == Apply(file, t)[Target(t)]
  {
    file[Target(t)]
  }
}
