/**
 * The SHT21 driver (drivers/sht21/sht21.c): one command byte per
 * operation, a 3-byte frame [MSB, LSB, CRC] checked with the CRC-8 from
 * 0x00 when the descriptor asks for it, the two low status bits masked off,
 * and the result stored in the descriptor.
 */
module Sht21 {
  import opened Periph
  import opened CInt
  import Crc8

  /** The values of a `uint8_t`, the return type of most of the driver's functions. */
  type uint8 = x: int | 0 <= x < TWO_8

  // Return codes (sht21.h); SHT21_ERROR read back as a uint8_t is 255.
  const SHT21_OK: int := 0
  const SHT21_ERROR: int := -1

  // Command bytes and masks (sht21_regs.h).
  const SHT21_MASK_END_OF_BAT: bv8 := 0x40
  const SHT21_CMD_SETTINGS_READ: bv8 := 0xE7
  const SHT21_CMD_SETTINGS_WRITE: bv8 := 0xE6
  const SHT21_CMD_RESET: bv8 := 0xFE
  const SHT21_CMD_TEMP: bv8 := 0xE3
  const SHT21_CMD_HUMIDITY: bv8 := 0xE5

  /** Initial register value of the SHT21 checksum. */
  const CRC_INIT: bv8 := 0x00

  /** `sht21_crc_type_t`. */
  datatype CrcMode = CrcDisabled | CrcEnabled

  /** `sht21_values_t`: the last readings (degrees Celsius, percent) and settings byte. */
  datatype Values = Values(temp: real, relHumidity: real, readSettings: bv8)

  /** `sht21_params_t`. */
  datatype Params = Params(bus: Bus, addr: bv8, crc: CrcMode, setSettings: bv8)

  /** `sht21_t`: the device descriptor. */
  class Device {
    var bus: Bus
    var addr: bv8
    var values: Values
    var crc: CrcMode
    var setSettings: bv8

    /** Storage for a descriptor, holding whatever it was declared with. */
    constructor (bus: Bus, addr: bv8, values: Values, crc: CrcMode, setSettings: bv8)
      ensures this.bus == bus && this.addr == addr && this.values == values
      ensures this.crc == crc && this.setSettings == setSettings
    {
      this.bus, this.addr, this.values := bus, addr, values;
      this.crc, this.setSettings := crc, setSettings;
    }
  }

  /** The only commands `sht21_measure` accepts. */
  predicate ValidCommand(cmd: bv8) {
    cmd == SHT21_CMD_TEMP || cmd == SHT21_CMD_HUMIDITY
  }

  /** The frame's third byte is the CRC of its first two. */
  predicate FrameValid(received: seq<bv8>)
    requires |received| == 3
  {
    Crc8.Crc(CRC_INIT, received[..2]) == received[2]
  }

  /**
   * `_check_crc`: the CRC-8 from 0x00 over exactly the first two bytes,
   * turned into a flag that is 0 when it matches `rightCrc` and 1 otherwise.
   */
  method CheckCrc(recValues: array<bv8>, rightCrc: bv8) returns (r: uint8)
    requires 2 <= recValues.Length
    ensures r <= 1
    ensures r == 0 <==> Crc8.Crc(CRC_INIT, recValues[..2]) == rightCrc
  {
    var crc: bv8 := 0x00;
    var currentByte := 0;
    while currentByte < 2
      invariant 0 <= currentByte <= 2
      invariant crc == Crc8.Crc(CRC_INIT, recValues[..currentByte])
    {
      assert recValues[..currentByte + 1][..currentByte] == recValues[..currentByte];
      ghost var start := crc ^ recValues[currentByte];
      crc := crc ^ recValues[currentByte];
      var bit := 8;
      while bit > 0
        invariant 0 <= bit <= 8
        invariant crc == Crc8.ShiftN(start, 8 - bit)
      {
        if crc & 0x80 != 0 {
          crc := (crc << 1) ^ Crc8.POLYNOMIAL;
        } else {
          crc := crc << 1;
        }
        bit := bit - 1;
      }
      currentByte := currentByte + 1;
    }
    r := if crc == rightCrc then 0 else 1;
  }

  /**
   * `value & 0xfffc`: the 16-bit word with its two low (status) bits
   * cleared. Bits 0 and 1 of a non-negative number are its remainder modulo
   * 4, so clearing them subtracts that remainder; the result is the largest
   * multiple of 4 not above `value`. (The bit-vector form of this identity
   * is left unproved: the conversion between `bv16` and `int` it needs is
   * beyond the solver's budget here.)
   */
  function Masked(value: uint16): (m: uint16)
    ensures m % 4 == 0 && m <= value < m + 4
  {
    value - value % 4
  }

  /**
   * The temperature `sht21_measure` stores, in degrees Celsius, over the
   * reals (the driver computes it in `float`).
   */
  function TemperatureC(value: uint16): (t: real)
    ensures -46.85 <= t < 128.87
  {
    (Masked(value) as real / 65536.0) * 175.72 - 46.85
  }

  /** The relative humidity `sht21_measure` stores, in percent, over the reals. */
  function RelHumidityPct(value: uint16): (h: real)
    ensures -6.0 <= h < 119.0
  {
    (Masked(value) as real / 65536.0) * 125.0 - 6.0
  }

  /** Readings that differ only in their status bits convert alike: 0x0003 converts as 0x0000. */
  lemma StatusBitsIgnored(a: uint16, b: uint16)
    requires a / 4 == b / 4
    ensures TemperatureC(a) == TemperatureC(b) && RelHumidityPct(a) == RelHumidityPct(b)
  {
  }

  /** A larger reading never converts to a smaller temperature or humidity. */
  lemma ConversionMonotone(a: uint16, b: uint16)
    requires a <= b
    ensures TemperatureC(a) <= TemperatureC(b) && RelHumidityPct(a) <= RelHumidityPct(b)
  {
    assert Masked(a) <= Masked(b);
  }

  /**
   * The descriptor's values after a measurement with `cmd` that passed:
   * a temperature command replaces only the temperature, a humidity
   * command only the humidity.
   */
  function StoreReading(values: Values, cmd: bv8, value: uint16): (v: Values)
    requires ValidCommand(cmd)
    ensures v.readSettings == values.readSettings
    ensures cmd == SHT21_CMD_TEMP ==> v.temp == TemperatureC(value) && v.relHumidity == values.relHumidity
    ensures cmd == SHT21_CMD_HUMIDITY ==> v.relHumidity == RelHumidityPct(value) && v.temp == values.temp
  {
    if cmd == SHT21_CMD_TEMP then values.(temp := TemperatureC(value))
    else values.(relHumidity := RelHumidityPct(value))
  }

  /**
   * A temperature and a humidity measurement that both pass fill both
   * readings, in either order, and nothing else.
   */
  lemma BothReadings(values: Values, rawTemp: uint16, rawHumidity: uint16)
    ensures StoreReading(StoreReading(values, SHT21_CMD_TEMP, rawTemp), SHT21_CMD_HUMIDITY, rawHumidity)
            == StoreReading(StoreReading(values, SHT21_CMD_HUMIDITY, rawHumidity), SHT21_CMD_TEMP, rawTemp)
            == values.(temp := TemperatureC(rawTemp), relHumidity := RelHumidityPct(rawHumidity))
  {
  }

  /**
   * The checksum gate of `sht21_measure`: with checking disabled every
   * frame passes; with it enabled, exactly the frames whose third byte is
   * the CRC of the first two.
   */
  method FrameAccepted(crc: CrcMode, received: array<bv8>) returns (accepted: bool)
    requires received.Length == 3
    ensures accepted <==> crc == CrcDisabled || FrameValid(received[..])
  {
    accepted := true;
    if crc != CrcDisabled {
      var failed := CheckCrc(received, received[2]);
      assert received[..2] == received[..][..2];
      accepted := failed == 0;
    }
  }

  /**
   * `sht21_measure`: reject any command other than 0xE3 and 0xE5 before
   * touching the bus; otherwise read three bytes of register `cmd` between
   * one acquire and one release, check the checksum only when the
   * descriptor enables it, and store the converted reading. The count the
   * bus reports is not looked at.
   */
  method Measure(dev: Device, cmd: bv8) returns (ret: uint8, ghost received: seq<bv8>)
    modifies dev`values, dev.bus
    ensures !ValidCommand(cmd) ==>
              ret == Uint8(SHT21_ERROR) && dev.values == old(dev.values) && dev.bus.trace == old(dev.bus.trace)
    ensures ValidCommand(cmd) ==>
              |received| == 3 &&
              dev.bus.trace == old(dev.bus.trace) + [Event.Acquire, Event.ReadRegs(dev.addr, cmd, received), Event.Release]
    ensures ValidCommand(cmd) && dev.crc == CrcEnabled && !FrameValid(received) ==>
              ret == Uint8(SHT21_ERROR) && dev.values == old(dev.values)
    ensures ValidCommand(cmd) && (dev.crc == CrcDisabled || FrameValid(received)) ==>
              ret == SHT21_OK && dev.values == StoreReading(old(dev.values), cmd, Word(received[0], received[1]))
  {
    received := [];
    if !(cmd == SHT21_CMD_TEMP || cmd == SHT21_CMD_HUMIDITY) {
      ret := Uint8(SHT21_ERROR);
      return;
    }
    var bus := dev.bus;
    var buf := new bv8[3];
    ghost var before := bus.trace;
    bus.Acquire();
    var count := bus.ReadRegs(dev.addr, cmd, buf, 3);  // a short read is not noticed
    bus.Release();
    received := buf[..];
    assert buf[..3] == received;
    assert bus.trace == before + [Event.Acquire, Event.ReadRegs(dev.addr, cmd, received), Event.Release];
    var accepted := FrameAccepted(dev.crc, buf);
    if !accepted {
      ret := Uint8(SHT21_ERROR);
      return;
    }
    var value := Word(buf[0], buf[1]);
    assert value == Word(received[0], received[1]);
    dev.values := StoreReading(dev.values, cmd, value);
    ret := SHT21_OK;
  }

  /**
   * Two frames that differ only in the two low bits of their second byte
   * store the same reading: the status bits are not part of the value.
   */
  lemma StatusBitsOfFrame(msb: bv8, lsb1: bv8, lsb2: bv8, values: Values, cmd: bv8)
    requires ValidCommand(cmd)
    requires lsb1 as int / 4 == lsb2 as int / 4
    ensures StoreReading(values, cmd, Word(msb, lsb1)) == StoreReading(values, cmd, Word(msb, lsb2))
  {
    WordQuarter(msb, lsb1);
    WordQuarter(msb, lsb2);
    StatusBitsIgnored(Word(msb, lsb1), Word(msb, lsb2));
  }

  /** The two low bits of a word are the two low bits of its low byte. */
  lemma WordQuarter(msb: bv8, lsb: bv8)
    ensures Word(msb, lsb) / 4 == msb as int * 64 + lsb as int / 4
  {
  }

  /**
   * With the checksum enabled, two frames that differ only in their second
   * byte cannot both pass: the CRC catches any change confined to one byte.
   */
  lemma FrameCrcSeparates(msb: bv8, lsb1: bv8, lsb2: bv8, crc: bv8)
    requires lsb1 != lsb2
    ensures !(FrameValid([msb, lsb1, crc]) && FrameValid([msb, lsb2, crc]))
  {
    Crc8.DetectsSingleByteError(CRC_INIT, [msb], lsb1, lsb2, []);
    assert [msb, lsb1, crc][..2] == [msb] + [lsb1] + [];
    assert [msb, lsb2, crc][..2] == [msb] + [lsb2] + [];
  }

  /** A temperature frame [0x66, 0x00, 0x0F] passes the check and stores the reading of 0x6600. */
  lemma TemperatureFrameExample(values: Values)
    ensures FrameValid([0x66, 0x00, 0x0F])
    ensures StoreReading(values, SHT21_CMD_TEMP, Word(0x66, 0x00)) == values.(temp := TemperatureC(0x6600))
  {
    assert [0x66, 0x00, 0x0F][..2] == [0x66, 0x00];
    assert [0x66, 0x00][..1] == [0x66];
    assert [0x66][..0] == [];
  }

  /**
   * `sht21_init`: copy the parameters into the descriptor (its values are
   * left alone), then initialise the bus between one acquire and one release.
   * The result of the bus initialisation is kept in an `int8_t`.
   */
  method Init(dev: Device, params: Params) returns (ret: uint8, ghost initResult: int)
    modifies dev`bus, dev`addr, dev`crc, dev`setSettings, params.bus
    ensures dev.bus == params.bus && dev.addr == params.addr
    ensures dev.crc == params.crc && dev.setSettings == params.setSettings
    ensures params.bus.trace == old(params.bus.trace) + [Event.Acquire, Event.InitMaster(Fast), Event.Release]
    ensures ret == (if Int8(initResult) == 0 then SHT21_OK else Uint8(SHT21_ERROR))
  {
    dev.bus := params.bus;
    dev.addr := params.addr;
    dev.crc := params.crc;
    dev.setSettings := params.setSettings;
    dev.bus.Acquire();
    var result := dev.bus.InitMaster(Fast);
    var error := Int8(result);
    dev.bus.Release();
    initResult := result;
    ret := if error == 0 then SHT21_OK else Uint8(SHT21_ERROR);
  }

  /**
   * `sht21_reset`: send 0xFE between one acquire and one release; the count
   * is kept in an `int8_t` and the result returned as one.
   */
  method Reset(dev: Device) returns (ret: int, ghost count: int)
    modifies dev.bus
    ensures dev.bus.trace == old(dev.bus.trace) + [Event.Acquire, Event.WriteByte(dev.addr, SHT21_CMD_RESET), Event.Release]
    ensures ret == (if Int8(count) == 1 then SHT21_OK else SHT21_ERROR)
  {
    dev.bus.Acquire();
    var n := dev.bus.WriteByte(dev.addr, SHT21_CMD_RESET);
    var check := Int8(n);
    dev.bus.Release();
    count := n;
    ret := if check == 1 then SHT21_OK else SHT21_ERROR;
  }

  /**
   * `sht21_read_settings`: read register 0xE7 into `values.readSettings`
   * between one acquire and one release; the count is kept in a `uint8_t`.
   */
  method ReadSettings(dev: Device) returns (ret: uint8, ghost count: int)
    modifies dev`values, dev.bus
    ensures dev.bus.trace
            == old(dev.bus.trace) + [Event.Acquire, Event.ReadReg(dev.addr, SHT21_CMD_SETTINGS_READ, dev.values.readSettings),
                                     Event.Release]
    ensures dev.values == old(dev.values).(readSettings := dev.values.readSettings)
    ensures ret == (if Uint8(count) == 1 then SHT21_OK else Uint8(SHT21_ERROR))
  {
    dev.bus.Acquire();
    var n, settings := dev.bus.ReadReg(dev.addr, SHT21_CMD_SETTINGS_READ);
    dev.values := dev.values.(readSettings := settings);
    var check := Uint8(n);
    dev.bus.Release();
    count := n;
    ret := if check == 1 then SHT21_OK else Uint8(SHT21_ERROR);
  }

  /**
   * `sht21_write_settings`: write `setting` to register 0xE6 between one
   * acquire and one release; the count is kept in a `uint8_t`.
   */
  method WriteSettings(dev: Device, setting: bv8) returns (ret: uint8, ghost count: int)
    modifies dev.bus
    ensures dev.bus.trace
            == old(dev.bus.trace) + [Event.Acquire, Event.WriteReg(dev.addr, SHT21_CMD_SETTINGS_WRITE, setting), Event.Release]
    ensures ret == (if Uint8(count) == 1 then SHT21_OK else Uint8(SHT21_ERROR))
  {
    dev.bus.Acquire();
    var n := dev.bus.WriteReg(dev.addr, SHT21_CMD_SETTINGS_WRITE, setting);
    var check := Uint8(n);
    dev.bus.Release();
    count := n;
    ret := if check == 1 then SHT21_OK else Uint8(SHT21_ERROR);
  }

  /** A transport count passes the drivers' `check == 1` test exactly when it is 1 modulo 256. */
  lemma CountCheck(n: int)
    ensures Int8(n) == 1 <==> n % 256 == 1
    ensures Uint8(n) == 1 <==> n % 256 == 1
  {
  }

  /**
   * The end-of-battery bit as `sht21_is_end_of_battery` extracts it: bit 6
   * of the code `sht21_read_settings` returned, shifted down.
   */
  function EndOfBatteryBit(code: uint8): (bit: uint8)
    ensures bit <= 1
  {
    (((code as bv8) & SHT21_MASK_END_OF_BAT) >> 6) as int
  }

  /**
   * The end-of-battery flag the header documents: bit 6 of the settings
   * byte, set when the supply is below 2.25 V.
   */
  predicate BatteryLow(settings: bv8) {
    settings & SHT21_MASK_END_OF_BAT != 0
  }

  /**
   * Extracting bit 6 from the read's return code gives 0 after a good read
   * and 1 after a failed one: the settings byte plays no part.
   */
  lemma EndOfBatteryFromCode()
    ensures EndOfBatteryBit(SHT21_OK) == 0
    ensures EndOfBatteryBit(Uint8(SHT21_ERROR)) == 1
  {
  }

  /**
   * `sht21_is_end_of_battery`: reads the settings, then masks the read's
   * return code rather than the settings byte, so it reports 1 exactly when
   * the read failed, whether or not the byte read says the battery is low.
   */
  method IsEndOfBattery(dev: Device) returns (ret: uint8, ghost count: int)
    modifies dev`values, dev.bus
    ensures dev.bus.trace
            == old(dev.bus.trace) + [Event.Acquire, Event.ReadReg(dev.addr, SHT21_CMD_SETTINGS_READ, dev.values.readSettings),
                                     Event.Release]
    ensures dev.values == old(dev.values).(readSettings := dev.values.readSettings)
    ensures ret == (if Uint8(count) == 1 then 0 else 1)
    ensures Uint8(count) == 1 && BatteryLow(dev.values.readSettings) ==> ret == 0
  {
    var code;
    code, count := ReadSettings(dev);
    EndOfBatteryFromCode();
    ret := EndOfBatteryBit(code);
    if Uint8(count) == 1 {
      assert code == SHT21_OK;
      assert ret == 0;
    } else {
      assert code == Uint8(SHT21_ERROR);
      assert ret == 1;
    }
  }

  /** Every bus operation of the driver is one transfer between one acquire and one release. */
  lemma TransactionBracketed(e: Event)
    requires !(e.Acquire? || e.Release? || e.Sleep?)
    ensures Bracketed([Event.Acquire, e, Event.Release])
    ensures Occurrences([Event.Acquire, e, Event.Release], Event.Acquire, 0) == 1
    ensures Occurrences([Event.Acquire, e, Event.Release], Event.Release, 0) == 1
  {
    var t := [Event.Acquire, e, Event.Release];
    assert BracketedFrom(true, t, 2);
    assert Occurrences(t, Event.Acquire, 3) == 0 && Occurrences(t, Event.Release, 3) == 0;
    assert Occurrences(t, Event.Acquire, 2) == 0 && Occurrences(t, Event.Release, 2) == 1;
    assert Occurrences(t, Event.Acquire, 1) == 0 && Occurrences(t, Event.Release, 1) == 1;
  }
}
