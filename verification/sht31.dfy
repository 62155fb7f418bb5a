/**
 * The SHT31 driver (drivers/sht31/sht31.c): a 2-byte measurement command,
 * a 6-byte frame [T_MSB, T_LSB, T_CRC, RH_MSB, RH_LSB, RH_CRC] checked with
 * the CRC-8 from 0xFF, and integer conversion to thousandths of a degree
 * and hundredths of a percent.
 */
module Sht31 {
  import opened Periph
  import opened CInt
  import Crc8

  // Driver return codes (the enum in sht31.h: consecutive from 0).
  const SHT31_OK: int := 0
  const SHT31_ERR_NOI2C: int := 1
  const SHT31_ERR_NODEV: int := 2
  const SHT31_ERR_I2C: int := 3
  const SHT31_ERR_CRC_T: int := 4
  const SHT31_ERR_CRC_RH: int := 5

  // Command bytes (sht31_internals.h).
  const SHT31_MEAS_HR_A: bv8 := 0x24
  const SHT31_MEAS_HR_B: bv8 := 0x00
  const SHT31_SOFTRESET_A: bv8 := 0x30
  const SHT31_SOFTRESET_B: bv8 := 0xA2

  /** Initial register value of the SHT31 checksum. */
  const CRC_INIT: bv8 := 0xFF

  /** Delays, in microseconds, after a measurement and after a soft reset. */
  const MEASURE_DELAY_US: nat := 15_000
  const RESET_DELAY_US: nat := 10_000

  /** `sht31_params_t`: the bus and the sensor's address on it. */
  datatype Params = Params(i2cDev: Bus, address: bv8)

  /** `sht31_t`: the device descriptor, a copy of its parameters. */
  class Device {
    var params: Params

    /** Storage for a descriptor, holding whatever it was declared with. */
    constructor (params: Params)
      ensures this.params == params
    {
      this.params := params;
    }
  }

  /** The two-byte field at `at` of a frame carries a matching checksum byte after it. */
  predicate FieldValid(frame: seq<bv8>, at: nat)
    requires at + 3 <= |frame|
  {
    frame[at + 2] == Crc8.Crc(CRC_INIT, frame[at..at + 2])
  }

  /** What `_do_measure` does on the bus, in order, when the sensor sends `frame`. */
  function MeasureEvents(addr: bv8, commandA: bv8, commandB: bv8, frame: seq<bv8>): seq<Event> {
    [Event.Acquire, Event.WriteBytes(addr, [commandA, commandB]), Event.ReadBytes(addr, frame),
     Event.Release, Event.Sleep(MEASURE_DELAY_US)]
  }

  /** What `sht31_reset` does on the bus; `written` tells whether the write was complete. */
  function ResetEvents(addr: bv8, written: bool): seq<Event> {
    if written then [Event.WriteBytes(addr, [SHT31_SOFTRESET_A, SHT31_SOFTRESET_B]), Event.Sleep(RESET_DELAY_US)]
    else [Event.WriteBytes(addr, [SHT31_SOFTRESET_A, SHT31_SOFTRESET_B]), Event.Release]
  }

  /**
   * `_check_crc`: the CRC-8 of `data[..len]` from 0xFF, computed bit by bit
   * as the driver does. The requires are what the pointer loop needs to stay
   * inside the buffer and to end.
   */
  method CheckCrc(data: array<bv8>, len: int) returns (crc: bv8)
    requires 0 <= len <= data.Length
    ensures crc == Crc8.Crc(CRC_INIT, data[..len])
    ensures len == 0 ==> crc == 0xFF
  {
    crc := 0xFF;
    var p := 0;  // the position the data pointer has reached
    var j := len;
    while j != 0
      invariant 0 <= j <= len && p == len - j
      invariant crc == Crc8.Crc(CRC_INIT, data[..p])
    {
      assert data[..p + 1][..p] == data[..p];
      ghost var start := crc ^ data[p];
      crc := crc ^ data[p];
      p := p + 1;
      var i := 8;
      while i != 0
        invariant 0 <= i <= 8
        invariant crc == Crc8.ShiftN(start, 8 - i)
      {
        if crc & 0x80 != 0 {
          crc := (crc << 1) ^ Crc8.POLYNOMIAL;
        } else {
          crc := crc << 1;
        }
        i := i - 1;
      }
      j := j - 1;
    }
  }

  /**
   * `_do_measure`: send the command, read the six-byte frame, release the
   * bus, wait, then check the temperature field and, only if it passes, the
   * humidity field. `temperatureIn` and `relHumidityIn` are what the two
   * out-pointers held before the call; the results are what they hold after.
   * The counts the bus reports are not looked at: what is returned depends
   * on the frame alone.
   */
  method DoMeasure(dev: Device, commandA: bv8, commandB: bv8, temperatureIn: uint16, relHumidityIn: uint16)
    returns (ret: int, temperature: uint16, relHumidity: uint16, ghost frame: seq<bv8>)
    modifies dev.params.i2cDev
    ensures |frame| == 6
    ensures dev.params.i2cDev.trace
            == old(dev.params.i2cDev.trace) + MeasureEvents(dev.params.address, commandA, commandB, frame)
    ensures ret == SHT31_OK || ret == -SHT31_ERR_CRC_T || ret == -SHT31_ERR_CRC_RH
    ensures !FieldValid(frame, 0) ==>
              ret == -SHT31_ERR_CRC_T && temperature == temperatureIn && relHumidity == relHumidityIn
    ensures FieldValid(frame, 0) && !FieldValid(frame, 3) ==>
              ret == -SHT31_ERR_CRC_RH && temperature == Word(frame[0], frame[1]) && relHumidity == relHumidityIn
    ensures FieldValid(frame, 0) && FieldValid(frame, 3) ==>
              ret == SHT31_OK && temperature == Word(frame[0], frame[1]) && relHumidity == Word(frame[3], frame[4])
  {
    var bus := dev.params.i2cDev;
    var addr := dev.params.address;
    var result := new bv8[6];
    var out := new bv8[2];
    out[0], out[1] := commandA, commandB;
    ghost var before := bus.trace;

    bus.Acquire();
    var written := bus.WriteBytes(addr, out, 2);  // a short write is only logged
    var read := bus.ReadBytes(addr, result, 6);   // so is a short read
    bus.Release();
    bus.Sleep(MEASURE_DELAY_US);
    frame := result[..];
    assert out[..2] == [commandA, commandB];
    assert result[..6] == frame;
    assert bus.trace == before + MeasureEvents(addr, commandA, commandB, frame);

    temperature, relHumidity := temperatureIn, relHumidityIn;
    var temp := Word(result[0], result[1]);
    var crcT := CheckCrc(result, 2);
    assert result[..2] == frame[0..2];
    assert FieldValid(frame, 0) <==> result[2] == crcT;
    if result[2] != crcT {
      ret := -SHT31_ERR_CRC_T;
      return;
    }
    temperature := temp;

    var humidity := Word(result[3], result[4]);
    out[0], out[1] := result[3], result[4];
    var crcRH := CheckCrc(out, 2);
    assert out[..2] == frame[3..5];
    assert FieldValid(frame, 3) <==> result[5] == crcRH;
    if result[5] != crcRH {
      ret := -SHT31_ERR_CRC_RH;
      return;
    }
    relHumidity := humidity;
    ret := SHT31_OK;
  }

  /**
   * The callers' guards compare `_do_measure`'s result with the positive
   * codes, which it never returns: every guard passes, on every path.
   */
  lemma MeasureCodes(ret: int)
    requires ret == SHT31_OK || ret == -SHT31_ERR_CRC_T || ret == -SHT31_ERR_CRC_RH
    ensures ret != SHT31_ERR_CRC_T && ret != SHT31_ERR_CRC_RH
  {
  }

  /**
   * `sht31_reset`: writes the soft-reset command without acquiring the bus,
   * and releases the bus when the write comes up short.
   */
  method Reset(dev: Device) returns (ret: int, ghost written: int)
    modifies dev.params.i2cDev
    ensures dev.params.i2cDev.trace == old(dev.params.i2cDev.trace) + ResetEvents(dev.params.address, written == 2)
    ensures ret == (if written == 2 then SHT31_OK else SHT31_ERR_I2C)
  {
    var bus := dev.params.i2cDev;
    var out := new bv8[2];
    out[0], out[1] := SHT31_SOFTRESET_A, SHT31_SOFTRESET_B;
    var count := bus.WriteBytes(dev.params.address, out, 2);
    written := count;
    assert out[..2] == [SHT31_SOFTRESET_A, SHT31_SOFTRESET_B];
    if count != 2 {
      bus.Release();
      ret := SHT31_ERR_I2C;
      return;
    }
    bus.Sleep(RESET_DELAY_US);
    ret := SHT31_OK;
  }

  /**
   * Neither path of `sht31_reset` is bracketed: it writes on a bus it never
   * acquired, and on the error path it releases that bus, so the release
   * outnumbers the acquires.
   */
  lemma ResetNotBracketed(addr: bv8, written: bool)
    ensures !Bracketed(ResetEvents(addr, written))
    ensures !written ==>
              Occurrences(ResetEvents(addr, written), Event.Release, 0)
              == Occurrences(ResetEvents(addr, written), Event.Acquire, 0) + 1
  {
    var t := ResetEvents(addr, written);
    assert Occurrences(t, Event.Release, 2) == 0 && Occurrences(t, Event.Acquire, 2) == 0;
  }

  /** What `sht31_init` does on the bus; the flags tell which step succeeded. */
  function InitEvents(addr: bv8, initOk: bool, written: bool): seq<Event> {
    if !initOk then [Event.Acquire, Event.InitMaster(Normal), Event.Release]
    else if !written then
      [Event.Acquire, Event.InitMaster(Normal), Event.WriteBytes(addr, [SHT31_SOFTRESET_A, SHT31_SOFTRESET_B]),
       Event.Release]
    else
      [Event.Acquire, Event.InitMaster(Normal), Event.WriteBytes(addr, [SHT31_SOFTRESET_A, SHT31_SOFTRESET_B]),
       Event.Release, Event.Sleep(RESET_DELAY_US)]
  }

  /** Every path of `sht31_init` acquires the bus once and releases it once. */
  lemma InitBracketed(addr: bv8, initOk: bool, written: bool)
    ensures Bracketed(InitEvents(addr, initOk, written))
  {
    var t := InitEvents(addr, initOk, written);
    if !initOk {
      assert BracketedFrom(true, t, 2);
    } else if !written {
      assert BracketedFrom(true, t, 2);
    } else {
      assert BracketedFrom(false, t, 4);
      assert BracketedFrom(true, t, 2);
    }
  }

  /** `_do_measure` acquires the bus exactly once and releases it exactly once, in that order. */
  lemma MeasureBracketed(addr: bv8, commandA: bv8, commandB: bv8, frame: seq<bv8>)
    ensures Bracketed(MeasureEvents(addr, commandA, commandB, frame))
    ensures Occurrences(MeasureEvents(addr, commandA, commandB, frame), Event.Acquire, 0) == 1
    ensures Occurrences(MeasureEvents(addr, commandA, commandB, frame), Event.Release, 0) == 1
  {
    var t := MeasureEvents(addr, commandA, commandB, frame);
    assert BracketedFrom(false, t, 4);
    assert BracketedFrom(true, t, 2);
    assert Occurrences(t, Event.Acquire, 4) == 0 && Occurrences(t, Event.Release, 4) == 0;
    assert Occurrences(t, Event.Acquire, 3) == 0 && Occurrences(t, Event.Release, 3) == 1;
    assert Occurrences(t, Event.Acquire, 1) == 0 && Occurrences(t, Event.Release, 1) == 1;
  }

  /**
   * In `_do_measure` the only delay is the last event: it comes after the
   * frame has been read, not between the command and the read.
   */
  lemma MeasureDelayAfterRead(addr: bv8, commandA: bv8, commandB: bv8, frame: seq<bv8>)
    ensures var t := MeasureEvents(addr, commandA, commandB, frame);
            t[1].WriteBytes? && t[2].ReadBytes? && t[4].Sleep? && !t[1].Sleep? && !t[2].Sleep? && !t[3].Sleep?
  {
  }

  /**
   * `sht31_init`: copy the parameters into the descriptor, then initialise
   * the bus and soft-reset the sensor while holding it. A failed bus
   * initialisation returns the negated code, a short write the positive one.
   */
  method Init(dev: Device, params: Params) returns (ret: int, ghost initResult: int, ghost written: int)
    modifies dev, params.i2cDev
    ensures dev.params == params
    ensures params.i2cDev.trace == old(params.i2cDev.trace) + InitEvents(params.address, initResult == 0, written == 2)
    ensures ret == (if initResult != 0 then -SHT31_ERR_NOI2C
                    else if written != 2 then SHT31_ERR_I2C
                    else SHT31_OK)
  {
    dev.params := params;
    var bus := dev.params.i2cDev;
    bus.Acquire();
    var error := bus.InitMaster(Normal);
    initResult, written := error, 0;
    if error != 0 {
      bus.Release();
      ret := -SHT31_ERR_NOI2C;
      return;
    }
    var out := new bv8[2];
    out[0], out[1] := SHT31_SOFTRESET_A, SHT31_SOFTRESET_B;
    var count := bus.WriteBytes(dev.params.address, out, 2);
    written := count;
    assert out[..2] == [SHT31_SOFTRESET_A, SHT31_SOFTRESET_B];
    if count != 2 {
      bus.Release();
      ret := SHT31_ERR_I2C;
      return;
    }
    bus.Release();
    bus.Sleep(RESET_DELAY_US);
    ret := SHT31_OK;
  }

  /**
   * The humidity arithmetic of `sht31_get_relative_humidity` and
   * `sht31_get_both`: `h = raw; h *= 10000; h /= 0xFFFF;` on an `int32_t`,
   * in hundredths of a percent.
   */
  function HumidityX100(raw: uint16): (h: int)
    ensures 0 <= h <= 10000
  {
    CDiv(Int32(raw * 10000), 0xFFFF)
  }

  /** The product never leaves `int32_t`, so the result is the exact formula's. */
  lemma HumidityNoOverflow(raw: uint16)
    ensures -TWO_31 <= raw * 10000 < TWO_31
    ensures HumidityX100(raw) == raw * 10000 / 0xFFFF
  {
  }

  lemma HumidityEndpoints()
    ensures HumidityX100(0) == 0 && HumidityX100(0xFFFF) == 10000
  {
  }

  /** A larger raw reading never gives a smaller humidity. */
  lemma HumidityMonotone(a: uint16, b: uint16)
    requires a <= b
    ensures HumidityX100(a) <= HumidityX100(b)
  {
    HumidityNoOverflow(a);
    HumidityNoOverflow(b);
    DivMonotone(a * 10000, b * 10000);
  }

  /** Division by the full scale 0xFFFF is monotone. */
  lemma DivMonotone(x: int, y: int)
    requires 0 <= x <= y
    ensures x / 0xFFFF <= y / 0xFFFF
  {
  }

  /**
   * The temperature arithmetic of `sht31_get_temperature` and
   * `sht31_get_both`: `t = raw; t *= 175000; t /= 0xffff; t = -45000 + t;`
   * on an `int32_t`, in thousandths of a degree. Because the product wraps,
   * the result never exceeds -12232, whatever the reading.
   */
  function TemperatureX1000(raw: uint16): (t: int)
    ensures -77768 <= t <= -12232
  {
    var q := CDiv(Int32(raw * 175000), 0xFFFF);
    assert -32768 <= q <= 32768 by {
      var p := Int32(raw * 175000);
      if p >= 0 {
        DivMonotone(p, TWO_31 - 1);
      } else {
        DivMonotone(-p, TWO_31);
      }
    }
    Int32(-45000 + q)
  }

  /** The data sheet's temperature formula in unbounded arithmetic, thousandths of a degree. */
  function ExactTemperatureX1000(raw: uint16): (t: int)
    ensures -45000 <= t <= 130000
  {
    DivMonotone(raw * 175000, 0xFFFF * 175000);
    -45000 + raw * 175000 / 0xFFFF
  }

  /** The product `raw * 175000` fits in an `int32_t` exactly when raw is at most 12271. */
  lemma TemperatureProductFits(raw: uint16)
    ensures -TWO_31 <= raw * 175000 < TWO_31 <==> raw <= 12271
  {
  }

  /**
   * The driver's temperature agrees with the data sheet's formula exactly
   * for the readings whose product does not overflow, and for no other.
   */
  lemma TemperatureExactIff(raw: uint16)
    ensures TemperatureX1000(raw) == ExactTemperatureX1000(raw) <==> raw <= 12271
  {
    TemperatureProductFits(raw);
    if raw > 12271 {
      DivMonotone(12272 * 175000, raw * 175000);
    }
  }

  lemma ExactTemperatureEndpoints()
    ensures ExactTemperatureX1000(0) == -45000 && ExactTemperatureX1000(0xFFFF) == 130000
  {
  }

  lemma ExactTemperatureMonotone(a: uint16, b: uint16)
    requires a <= b
    ensures ExactTemperatureX1000(a) <= ExactTemperatureX1000(b)
  {
    DivMonotone(a * 175000, b * 175000);
  }

  /** The `uint16_t` return reduces the signed result modulo 2^16: raw 0 gives -45000, returned as 20536. */
  lemma TemperatureReturnAtZero()
    ensures TemperatureX1000(0) == -45000 && Uint16(TemperatureX1000(0)) == 20536
  {
  }

  /**
   * `sht31_get_relative_humidity`. Its guard compares `_do_measure`'s
   * negated code with the positive `SHT31_ERR_CRC_RH`, so the conversion
   * always runs: on `rawHumidity`, which is the frame's humidity word when
   * both checksums pass and otherwise whatever the uninitialised local held.
   */
  method GetRelativeHumidity(dev: Device) returns (humidity: uint16, ghost frame: seq<bv8>, ghost rawHumidity: uint16)
    modifies dev.params.i2cDev
    ensures |frame| == 6
    ensures dev.params.i2cDev.trace
            == old(dev.params.i2cDev.trace) + MeasureEvents(dev.params.address, SHT31_MEAS_HR_A, SHT31_MEAS_HR_B, frame)
    ensures humidity == HumidityX100(rawHumidity) && humidity <= 10000
    ensures FieldValid(frame, 0) && FieldValid(frame, 3) ==> rawHumidity == Word(frame[3], frame[4])
  {
    var rawTemp: uint16 := *;  // uninitialised locals
    var rawHum: uint16 := *;
    var h := -1;
    var result;
    result, rawTemp, rawHum, frame := DoMeasure(dev, SHT31_MEAS_HR_A, SHT31_MEAS_HR_B, rawTemp, rawHum);
    MeasureCodes(result);
    if result != SHT31_ERR_CRC_RH {
      h := HumidityX100(rawHum);
    }
    humidity := Uint16(h);
    rawHumidity := rawHum;
  }

  /**
   * `sht31_get_temperature`. Its guard compares with the positive
   * `SHT31_ERR_CRC_T`, so the conversion always runs: on `rawTemperature`,
   * which is the frame's temperature word when its checksum passes and
   * otherwise whatever the uninitialised local held.
   */
  method GetTemperature(dev: Device) returns (temperature: uint16, ghost frame: seq<bv8>, ghost rawTemperature: uint16)
    modifies dev.params.i2cDev
    ensures |frame| == 6
    ensures dev.params.i2cDev.trace
            == old(dev.params.i2cDev.trace) + MeasureEvents(dev.params.address, SHT31_MEAS_HR_A, SHT31_MEAS_HR_B, frame)
    ensures temperature == Uint16(TemperatureX1000(rawTemperature))
    ensures FieldValid(frame, 0) ==> rawTemperature == Word(frame[0], frame[1])
  {
    var rawTemp: uint16 := *;  // uninitialised locals
    var rawHum: uint16 := *;
    var t := -100;
    var result;
    result, rawTemp, rawHum, frame := DoMeasure(dev, SHT31_MEAS_HR_A, SHT31_MEAS_HR_B, rawTemp, rawHum);
    MeasureCodes(result);
    if result != SHT31_ERR_CRC_T {
      t := TemperatureX1000(rawTemp);
    }
    temperature := Uint16(t);
    rawTemperature := rawTemp;
  }

  /**
   * `sht31_get_both`: both out-parameters are written on every path, since
   * neither guard can fire; `temperatureIn` and `humidityIn` (what they held
   * before) never survive.
   */
  method GetBoth(dev: Device, temperatureIn: uint16, humidityIn: uint16)
    returns (temperature: uint16, humidity: uint16, ghost frame: seq<bv8>,
             ghost rawTemperature: uint16, ghost rawHumidity: uint16)
    modifies dev.params.i2cDev
    ensures |frame| == 6
    ensures dev.params.i2cDev.trace
            == old(dev.params.i2cDev.trace) + MeasureEvents(dev.params.address, SHT31_MEAS_HR_A, SHT31_MEAS_HR_B, frame)
    ensures temperature == Uint16(TemperatureX1000(rawTemperature))
    ensures humidity == HumidityX100(rawHumidity)
    ensures FieldValid(frame, 0) ==> rawTemperature == Word(frame[0], frame[1])
    ensures FieldValid(frame, 0) && FieldValid(frame, 3) ==> rawHumidity == Word(frame[3], frame[4])
  {
    temperature, humidity := temperatureIn, humidityIn;
    var rawTemp: uint16 := *;  // uninitialised locals
    var rawHum: uint16 := *;
    var t := -100;
    var h := -1;
    var result;
    result, rawTemp, rawHum, frame := DoMeasure(dev, SHT31_MEAS_HR_A, SHT31_MEAS_HR_B, rawTemp, rawHum);
    MeasureCodes(result);
    if result != SHT31_ERR_CRC_T {
      t := TemperatureX1000(rawTemp);
      temperature := Uint16(t);
    }
    if result != SHT31_ERR_CRC_RH {
      h := HumidityX100(rawHum);
      humidity := Uint16(h);
    }
    rawTemperature, rawHumidity := rawTemp, rawHum;
  }
}
