# Sensirion SHT31 and SHT21 drivers in Dafny

This project models the two Sensirion humidity and temperature sensor drivers of the RIOT operating system:

- `drivers/sht31/sht31.c`;
- `drivers/sht21/sht21.c`.

It proves properties of that model.

Both drivers talk to their sensor over I2C and check each reading with the same bit-serial CRC-8. The polynomial is x^8 + x^5 + x^4 + 1 (0x31), most significant bit first.

- The SHT31 driver sends a two-byte measurement command and reads a six-byte frame of temperature and humidity, each field with its own checksum (register starting at 0xFF). It converts the raw words with `int32_t` fixed-point arithmetic, to thousandths of a degree and hundredths of a percent.
- The SHT21 driver sends a one-byte command and reads a three-byte frame. It checks the checksum (register starting at 0x00) only when the descriptor asks for it. It clears the two status bits, and stores the converted `float` reading in its descriptor. It also reads and writes the settings register, resets the sensor, and reports an end-of-battery flag.

The files:

- `cint.dfy` (module `CInt`): the C integer conversions the drivers rely on, written out. These are truncation to `uint8_t`, `int8_t` and `uint16_t`, `int32_t` wrap-around, C's truncating division, and the big-endian 16-bit word of two bytes.
- `crc8.dfy` (module `Crc8`): the CRC as a recursive function, a left fold of "XOR the byte in, then eight shift steps". Lemmas about it cover concatenation, injectivity, single-byte error detection, the residue, the relation between the two initial values, and the check value 0xBEEF ↦ 0x92.
- `periph.dfy` (module `Periph`): the I2C bus as a class.
  - Each call appends an event to a ghost `trace`.
  - Each count or byte the hardware would produce is an arbitrary value.
  - `BracketedFrom` says when a trace acquires and releases the bus properly.
- `sht31.dfy` (module `Sht31`) and `sht21.dfy` (module `Sht21`): the drivers.
  - Each descriptor is a class.
  - Each CRC loop is a method proved equal to `Crc8.Crc`.
  - Each driver function is a method whose contract states its bus trace, its return code and what it writes.
  - The conversions are pure functions.

Several behaviours of the code are modelled as written and stated as lemmas:

- **Negated return codes.** `_do_measure` returns negated codes (`-4`, `-5`), but its callers compare against the positive ones. Their guards therefore never fire, and a conversion runs on the uninitialised local even after a checksum failure. See `Sht31.MeasureCodes` and the three getters.
- **Temperature overflow.** The temperature product `raw * 175000` overflows `int32_t` for every reading above 12271. The driver's result never exceeds -12.232 °C. See `Sht31.TemperatureX1000` and `Sht31.TemperatureExactIff`.
- **Reset releases without acquiring.** `sht31_reset` writes on a bus it never acquired, and on its error path releases it. See `Sht31.ResetNotBracketed`.
- **Positive error codes.** `sht31_init` and `sht31_reset` return the positive `SHT31_ERR_I2C` (3) when the reset write is short (`drivers/sht31/sht31.c:127,158`). The header documents negated codes for `sht31_init` (`drivers/include/sht31.h:63-66`) and SHT21 codes for `sht31_reset` (`drivers/include/sht31.h:103-104`). Only the failed bus initialisation of `sht31_init` returns a negated code (-1). See `Sht31.Init` and `Sht31.Reset`.
- **Delay after the read.** The 15 ms delay in `_do_measure` comes after the frame has been read. See `Sht31.MeasureDelayAfterRead`.
- **Counts ignored.** The transfer counts are ignored by `_do_measure` and `sht21_measure`: their results depend on the received bytes alone.
- **End-of-battery flag.** `sht21_is_end_of_battery` masks bit 6 of `sht21_read_settings`'s return code, not of the settings byte. It reports 1 exactly when the read failed, whatever the sensor's supply voltage. See `Sht21.IsEndOfBattery`.

## Model

| member | source | states |
|---|---|---|
| CInt.Uint8 | drivers/sht21/sht21.c:110 | the `uint8_t` a count is stored in is the count's residue modulo 256, in [0, 255] |
| CInt.Int8 | drivers/sht21/sht21.c:59 | the `int8_t` a result is stored in is the two's-complement residue modulo 256, in [-128, 127] |
| CInt.Uint16 | drivers/sht31/sht31.c:211 | the `uint16_t` return is the residue of the `int32_t` value modulo 65536 |
| CInt.Int32 | drivers/sht31/sht31.c:205-208 | an `int32_t` computation yields a value in [-2^31, 2^31) congruent to the exact one, and equal to it when the exact one fits |
| CInt.CDiv | drivers/sht31/sht31.c:207 | C division discards the fractional part: the remainder `a - q * b` has the dividend's sign and is smaller than the divisor |
| CInt.CDivOdd | drivers/sht31/sht31.c:207 | truncation is symmetric: negating the dividend negates the quotient |
| CInt.Word | drivers/sht31/sht31.c:85-87 | assembling MSB and LSB gives a value in [0, 65535] |
| CInt.WordIsShiftOr | drivers/sht31/sht31.c:85-87 | the arithmetic word equals the C expression, the MSB shifted left by 8 ORed with the LSB, on 16 bits |
| CInt.WordBytes | drivers/sht31/sht31.c:85-87 | the assembled word's high byte is the MSB and its low byte the LSB, so nothing is lost |
| Crc8.CrcAppend | drivers/sht31/sht31.c:40-51 | the CRC of a concatenation continues from the CRC of the first part, i.e. the loop is a left fold |
| Crc8.CrcCons | drivers/sht31/sht31.c:40-51 | the first byte is consumed first: CRC of `b :: rest` continues from one byte step on `b` |
| Crc8.ShiftInjective | drivers/sht31/sht31.c:44-49 | one shift step (shift left, XOR 0x31 when bit 7 was set) is a bijection on bytes |
| Crc8.ShiftNInjective | drivers/sht31/sht31.c:43-50 | any number of shift steps is injective |
| Crc8.CrcByteInjective | drivers/sht31/sht31.c:41-50 | for a fixed input byte, different register values give different results |
| Crc8.CrcByteInjectiveInByte | drivers/sht31/sht31.c:41-50 | for a fixed register, different input bytes give different results |
| Crc8.CrcRegisterInjective | drivers/sht31/sht31.c:40-51 | two different register values stay different over any common sequence of bytes |
| Crc8.DetectsSingleByteError | drivers/sht31/sht31.c:89-92 | data that differs from the sent data in exactly one byte, anywhere, never has the sent checksum |
| Crc8.ShiftNZero | drivers/sht31/sht31.c:43-50 | shifting a zero register leaves it zero |
| Crc8.CrcResidue | drivers/sht31/sht31.c:40-51 | data followed by its own CRC leaves a zero register |
| Crc8.InitialValueAbsorbed | drivers/sht21/sht21.c:31-45 | the SHT31 CRC from 0xFF equals the SHT21 CRC from 0x00 with the first byte inverted |
| Crc8.CheckValue | drivers/sht31/sht31.c:35-54 | the CRC from 0xFF of 0xBE 0xEF is 0x92 |
| Periph.BracketedBalanced | drivers/sht31/sht31.c:70-80 | in a properly bracketed trace, releases equal acquires (plus one when the bus was held at the start) |
| Sht31.CheckCrc | drivers/sht31/sht31.c:35-54 | the pointer loop computes exactly the CRC-8 from 0xFF of `data[..len]`, and 0xFF when `len` is 0 |
| Sht31.DoMeasure | drivers/sht31/sht31.c:60-112 | trace: acquire, write `{command_a, command_b}`, read 6 bytes, release, then the delay. A bad temperature CRC returns -4 and writes neither output. A bad humidity CRC returns -5 with only the temperature word written. Otherwise it returns 0 with both words; the result does not depend on the counts. It returns only 0, -4 or -5 |
| Sht31.MeasureCodes | drivers/sht31/sht31.c:184 | none of the codes `_do_measure` can return (0, -4, -5) is the positive `SHT31_ERR_CRC_T` (4) or `SHT31_ERR_CRC_RH` (5) the getters' guards compare with, so every guard passes |
| Sht31.MeasureBracketed | drivers/sht31/sht31.c:70-80 | `_do_measure` acquires exactly once and releases exactly once, properly nested |
| Sht31.MeasureDelayAfterRead | drivers/sht31/sht31.c:76-83 | the only delay comes after the read, not between the command write and the read |
| Sht31.Reset | drivers/sht31/sht31.c:118-133 | writes `{0x30, 0xA2}` without acquiring. A complete write is followed by the 10 ms delay and returns 0. Otherwise it releases and returns the positive `SHT31_ERR_I2C` |
| Sht31.ResetNotBracketed | drivers/sht31/sht31.c:118-133 | neither path of `sht31_reset` is properly bracketed; on the error path the releases outnumber the acquires by one |
| Sht31.Init | drivers/sht31/sht31.c:136-170 | the descriptor holds `params`. A failed bus init releases and returns -1. A short reset write releases and returns +3. Otherwise it releases, waits 10 ms and returns 0 |
| Sht31.InitBracketed | drivers/sht31/sht31.c:142-161 | all three paths of `sht31_init` acquire once and release once, properly nested |
| Sht31.HumidityX100 | drivers/sht31/sht31.c:186-188 | the humidity lies in [0, 10000] hundredths of a percent for every raw reading |
| Sht31.HumidityNoOverflow | drivers/sht31/sht31.c:186-188 | `raw * 10000` never leaves `int32_t`, so the driver's humidity is exactly `raw * 10000 / 0xFFFF` |
| Sht31.HumidityEndpoints | drivers/sht31/sht31.c:186-188 | raw 0 gives 0 and raw 0xFFFF gives 10000 |
| Sht31.HumidityMonotone | drivers/sht31/sht31.c:186-188 | the humidity is non-decreasing in the raw reading |
| Sht31.TemperatureX1000 | drivers/sht31/sht31.c:205-208 | because the product wraps, the driver's temperature lies in [-77768, -12232] thousandths of a degree for every reading |
| Sht31.ExactTemperatureX1000 | drivers/sht31/sht31.c:204-208 | the intended formula without overflow ranges over [-45000, 130000] |
| Sht31.TemperatureProductFits | drivers/sht31/sht31.c:205-206 | `raw * 175000` fits in `int32_t` if and only if raw ≤ 12271 |
| Sht31.TemperatureExactIff | drivers/sht31/sht31.c:205-208 | the driver's temperature equals the intended formula if and only if raw ≤ 12271 |
| Sht31.ExactTemperatureEndpoints | drivers/sht31/sht31.c:204-208 | the intended formula maps raw 0 to -45000 and 0xFFFF to 130000 |
| Sht31.ExactTemperatureMonotone | drivers/sht31/sht31.c:204-208 | the intended formula is non-decreasing in raw |
| Sht31.TemperatureReturnAtZero | drivers/sht31/sht31.c:211 | raw 0 gives -45000, which the `uint16_t` return turns into 20536 |
| Sht31.GetRelativeHumidity | drivers/sht31/sht31.c:173-192 | one measurement trace. The conversion always runs, on the frame's humidity word when both checksums pass and on an arbitrary word otherwise; the result is at most 10000 |
| Sht31.GetTemperature | drivers/sht31/sht31.c:194-212 | one measurement trace. The conversion always runs, on the frame's temperature word when its checksum passes and on an arbitrary word otherwise |
| Sht31.GetBoth | drivers/sht31/sht31.c:214-242 | both out-parameters are overwritten on every path; their earlier contents never survive |
| Sht21.CheckCrc | drivers/sht21/sht21.c:29-47 | the nested loop computes the CRC-8 from 0x00 of exactly the first two bytes; the flag is 0 if and only if that equals `right_crc`, and 1 otherwise |
| Sht21.Masked | drivers/sht21/sht21.c:87 | `value & 0xfffc` is a multiple of 4 within 3 below `value` |
| Sht21.TemperatureC | drivers/sht21/sht21.c:87 | the stored temperature lies in [-46.85, 128.87) °C |
| Sht21.RelHumidityPct | drivers/sht21/sht21.c:90 | the stored humidity lies in [-6, 119) % |
| Sht21.StatusBitsIgnored | drivers/sht21/sht21.c:87-90 | readings that differ only in the two status bits convert to the same temperature and humidity |
| Sht21.ConversionMonotone | drivers/sht21/sht21.c:87-90 | both conversions are non-decreasing in the reading |
| Sht21.StoreReading | drivers/sht21/sht21.c:86-91 | a temperature command replaces only `temp`, a humidity command only `rel_humidity`; `read_settings` is untouched |
| Sht21.BothReadings | drivers/sht21/sht21.c:86-91 | a passing temperature measurement and a passing humidity measurement fill both readings, in either order |
| Sht21.FrameAccepted | drivers/sht21/sht21.c:77-83 | the checksum gate passes every frame when checking is disabled and, when enabled, exactly the frames whose third byte is the CRC of the first two |
| Sht21.Measure | drivers/sht21/sht21.c:64-94 | a command other than 0xE3/0xE5 returns 255 with no bus event and no change. Otherwise: acquire, read 3 bytes of register `cmd`, release. With CRC enabled, a failing frame returns 255 and leaves `values`; otherwise it returns 0 and stores the reading. The count is ignored |
| Sht21.StatusBitsOfFrame | drivers/sht21/sht21.c:85-90 | frames differing only in the two low bits of `received[1]` store the same values |
| Sht21.FrameCrcSeparates | drivers/sht21/sht21.c:77-83 | with CRC enabled, two frames that differ only in `received[1]` cannot both pass |
| Sht21.TemperatureFrameExample | drivers/sht21/sht21.c:77-88 | the frame 0x66 0x00 0x0F passes the check and stores the temperature of 0x6600 |
| Sht21.Init | drivers/sht21/sht21.c:49-62 | copies bus, address, CRC mode and settings byte; acquire, bus init at fast speed, release; returns 0 exactly when the init result, as `int8_t`, is 0, and 255 otherwise |
| Sht21.Reset | drivers/sht21/sht21.c:96-104 | acquire, write 0xFE, release; returns 0 exactly when the count, as `int8_t`, is 1, and -1 otherwise |
| Sht21.ReadSettings | drivers/sht21/sht21.c:106-114 | acquire, read register 0xE7 into `read_settings` (no other value changes), release; returns 0 exactly when the count, as `uint8_t`, is 1, and 255 otherwise |
| Sht21.WriteSettings | drivers/sht21/sht21.c:116-124 | acquire, write the setting to register 0xE6, release; returns 0 exactly when the count, as `uint8_t`, is 1, and 255 otherwise |
| Sht21.CountCheck | drivers/sht21/sht21.c:100-103 | the `check == 1` test passes exactly for counts that are 1 modulo 256 |
| Sht21.TransactionBracketed | drivers/sht21/sht21.c:106-114 | each single-transfer SHT21 operation acquires once and releases once, properly nested |
| Sht21.EndOfBatteryBit | drivers/sht21/sht21.c:128 | masking bit 6 of a `uint8_t` and shifting it down gives 0 or 1 |
| Sht21.EndOfBatteryFromCode | drivers/sht21/sht21.c:126-129 | the extracted bit is 0 for the success code and 1 for the error code (255) |
| Sht21.IsEndOfBattery | drivers/sht21/sht21.c:126-129 | performs one settings read and returns 1 exactly when that read failed. After a good read it returns 0 even when the byte read has the end-of-battery bit set, contrary to the promise in `drivers/include/sht21.h:119-127` |

## Left out

- The I2C transport (`i2c_acquire`, `i2c_release`, `i2c_init_master`, `i2c_read_bytes`, `i2c_write_bytes`, `i2c_read_regs`, `i2c_read_reg`, `i2c_write_reg`, `i2c_write_byte`) is not part of this model. It is not shown, so each call is an event on the bus's ghost trace and returns arbitrary counts and bytes. A short read leaves bytes of the buffer unspecified in C; the model makes every received byte arbitrary, which covers both.
- `xtimer_usleep` is recorded as a `Sleep` event on the bus trace, so that only its position relative to the transfers is modelled, not time.
- Bus sharing between threads, and what `i2c_acquire` does under contention, are not modelled. Only the order of acquire and release within one call is.
- `DEBUG` output and the `printf` in `sht31_init` are left out; they have no effect on results.
- The LSM9DS0 and BME680 headers, the board parameter headers and the two test programs contain no driver logic and are not part of this model. The SHT31 address 0x44 and the SHT21 defaults appear only as parameters.
- `sht31_t` holds an `i2c_t` bus index; the model holds the `Bus` object it designates. Two descriptors on the same bus share one trace.
- The settings byte `set_settings` is copied by `sht21_init` but never used by the driver, and the model does likewise.
- The sensor's own behaviour (what a reset or a settings write does inside the chip) is outside the driver. So no property relates a settings write to a later read.
- Out-pointers are modelled as values: `Sht31.DoMeasure` and `Sht31.GetBoth` take what the pointed-to variables held before the call and return what they hold after.
- Sht21.TemperatureC: computed over exact reals, not IEEE single precision, so rounding of the `float` arithmetic is not modelled.
- Sht21.RelHumidityPct: computed over exact reals, not IEEE single precision, so rounding of the `float` arithmetic is not modelled.
- Sht31.TemperatureX1000: signed overflow is undefined in C. The model takes the two's-complement wrap-around of the usual targets.
- Sht31.CheckCrc: requires `0 <= len`. With a negative `len` the C loop would count down through the whole `int` range; the driver only ever passes 2.
- Sht21.CheckCrc: requires a buffer of at least two bytes, which the C function reads without checking.
