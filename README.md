# BH1750 ambient-light sensor driver, modelled in Dafny

This project models the Python `BH1750` driver in `main.py` and the brightness
banding done by its `main()` loop. The driver runs on a Raspberry Pi. It selects
the sensor's 7-bit I2C address with a GPIO pin and opens a pigpio I2C channel
there. It sends the sensor's one-byte mode and power instructions and turns a
two-byte reading into lux.

Modules:

- `Wrappers` (`wrappers.dfy`): `Option`.
- `Bytes` (`bytes.dfy`): the `byte` type and the big-endian value of a byte
  sequence. `BigEndian` is the left fold that the driver's loop computes, and
  `WeightedSum` is the positional sum Σ s[i]·256^(n-1-i). `ToBigEndian` is its
  inverse, and `Lux` is the scale to lux, kept exact as `raw / 1.2` over `real`.
- `Transport` (`transport.dfy`): class `Pi` is a fake of the pigpio connection
  object that the source keeps in the global `gpio`. The driver is given one
  instead. It records every call in `trace`, keeps the open channels in `open`,
  hands out handles 0, 1, 2, … in that order, and answers reads from `rx`, the
  bytes the device has ready. `i2c_write_byte`, `i2c_close` and
  `i2c_read_byte` on a handle that is not open fail, as pigpio raises there.
  The driver reports such a failure as `ok == false` or `None`.
  `i2c_read_device` does not raise. When the read fails, it returns a negative
  count and empty data, and the driver goes on to convert that empty data.
- `Sensor` (`sensor.dfy`): the address function, the instruction set with its
  opcodes, and class `BH1750`. The class has fields `addrPin` (`addr_pin`),
  `addrHigh` (`_address`) and `handle` (`i2c_handle`). `Valid()` says the sensor
  owns an open channel on bus 1 at the address its pin level selects.
- `App` (`app.dfy`): the band classification from `main()`, one pass of its
  polling loop, and scenario methods. The scenarios run a sensor's life on a
  fresh transport: construction, reconfiguration and teardown.

Three points about how the code behaves where it is easy to assume otherwise:

- `@address.setter def address_set` makes `address_set` a live property whose
  setter reconfigures the sensor, while `address` stays read-only.
  `BH1750.SetAddress` models that setter.
- `__init__` has no cleanup of its own. If `continuous_h_mode()` (main.py:34)
  raised after `i2c_open` had set `i2c_handle`, the half-built object's
  `__del__` (main.py:36-42) would still close a non-zero handle when collected.
  If `i2c_open` itself raised, `__del__` finds no `i2c_handle`, and its bare
  `except` swallows the error. In the model the constructor cannot fail: the
  fake's `set_mode`, `write` and `i2c_open` always succeed, and the command
  after a fresh open always finds the handle open.
- When `i2c_close` raises in `address_set` (main.py:52-54), the pin level and
  `_address` are already changed and the old handle is kept. That is what
  `SetAddress` states for `ok == false`.

## Model

| member | source | states |
|---|---|---|
| `Sensor.Address` | main.py:44-47 | the effective address is a 7-bit value; it is 0x5C exactly when the select level is high and 0x23 exactly when it is low |
| `Sensor.AddressSelection` | main.py:22-23 | the two levels and the two addresses are in one-to-one correspondence; every other address has no level |
| `Sensor.OpcodeRoundTrip` | main.py:68-94 | `Opcode` gives the nine bytes of the mode and power methods; each instruction's byte decodes back to that instruction and to nothing else (both directions) |
| `Sensor.OpcodeInjective` | main.py:68-94 | the nine instruction bytes are pairwise distinct |
| `Sensor.BH1750.constructor` | main.py:25-34 | in this order: sets the pin to output, writes the requested level, opens one new channel on bus 1 at the selected address, writes 0x10 to it; the new handle is the only change to the open set, and the object is `Valid()` |
| `Sensor.BH1750.SetAddress` | main.py:49-55 | writes the new level, then closes the old handle, then opens one new channel at the new address, and sends no instruction; afterwards the old handle is gone and only the new one was added, and if the old one was the only open channel the new one is; if the close fails, the open does not happen and the level has already changed |
| `Sensor.BH1750.Teardown` | main.py:36-42 | as written: closes the handle only when it is non-zero, ignores a failed close, and otherwise changes nothing |
| `Sensor.BH1750.Release` | main.py:36-42 | corrected teardown: always closes the handle, which is no longer open afterwards |
| `Sensor.BH1750.SendCommand` | main.py:58-59 | appends exactly one byte write to the current handle; it succeeds exactly when the handle is open, so always on a `Valid()` sensor, which stays `Valid()` |
| `Sensor.BH1750.ReadData` | main.py:62-66 | takes the single-byte read exactly when count is 1 and otherwise makes one block read of exactly `count` bytes; returns the bytes the device had ready and consumes them, or, when the handle is closed or the bytes are missing, a failed single-byte read or a block read with a negative count and empty data |
| `Sensor.BH1750.PowerOff` | main.py:68-69 | appends exactly one write of 0x00, nothing else changes; on a `Valid()` sensor it succeeds and the sensor stays `Valid()` |
| `Sensor.BH1750.PowerOn` | main.py:71-72 | appends exactly one write of 0x01, nothing else changes; on a `Valid()` sensor it succeeds and the sensor stays `Valid()` |
| `Sensor.BH1750.Reset` | main.py:74-76 | writes 0x01 and then 0x07 as two separate writes; if power-on fails, the reset byte is not sent; on a `Valid()` sensor both succeed and it stays `Valid()` |
| `Sensor.BH1750.ContinuousHMode` | main.py:78-79 | appends exactly one write of 0x10, nothing else changes; on a `Valid()` sensor it succeeds and the sensor stays `Valid()` |
| `Sensor.BH1750.ContinuousHMode2` | main.py:81-82 | appends exactly one write of 0x11, nothing else changes; on a `Valid()` sensor it succeeds and the sensor stays `Valid()` |
| `Sensor.BH1750.ContinuousLMode` | main.py:84-85 | appends exactly one write of 0x13, nothing else changes; on a `Valid()` sensor it succeeds and the sensor stays `Valid()` |
| `Sensor.BH1750.OneTimeHMode` | main.py:87-88 | appends exactly one write of 0x20, nothing else changes; on a `Valid()` sensor it succeeds and the sensor stays `Valid()` |
| `Sensor.BH1750.OneTimeHMode2` | main.py:90-91 | appends exactly one write of 0x21, nothing else changes; on a `Valid()` sensor it succeeds and the sensor stays `Valid()` |
| `Sensor.BH1750.OneTimeLMode` | main.py:93-94 | appends exactly one write of 0x23, nothing else changes; on a `Valid()` sensor it succeeds and the sensor stays `Valid()` |
| `Sensor.BH1750.ConvertToNumber` | main.py:97-102 | the shift-and-add loop yields Σ data[i]·256^(n-1-i), scaled by 1/1.2; the count argument plays no part |
| `Sensor.BH1750.GetBrightness` | main.py:105-107 | makes one two-byte block read and returns (hi·256 + lo)/1.2 lux for the two bytes the device had ready; gives 0 lux, consuming nothing, when the read fails, because the conversion of empty data is 0 |
| `Bytes.BigEndianIsWeightedSum` | main.py:98-101 | the accumulator's left fold (`BigEndian`) equals the positional big-endian sum for every byte sequence |
| `Bytes.BigEndianBound` | main.py:98-101 | an n-byte value is below 256^n |
| `Bytes.TwoBytes` | main.py:107 | two bytes decode as hi·256 + lo, in 0..65535 |
| `Bytes.DecodeEncode` | main.py:98-102 | decoding the n-byte big-endian encoding of a value below 256^n gives the value back |
| `Bytes.EncodeDecode` | main.py:98-102 | encoding the decoded value in as many bytes gives the original bytes back |
| `Bytes.LuxRange` | main.py:102 | `Lux` is the division by 1.2; the register range 0..65535 maps, in order, into 0..54612.5 lux (the endpoints are reached, see `Bytes.LuxExamples`) |
| `Bytes.LuxExamples` | main.py:102 | bytes 01 00 give 640/3 lux, 00 00 give 0 lux, FF FF give 54612.5 lux |
| `App.Classify` | main.py:117-126 | every value falls in exactly one band: at most 10 too dark, (10,25] dark, (25,45] medium, (45,60] bright, above 60 too bright (each iff) |
| `App.ClassifyMonotone` | main.py:117-126 | a brighter value never gets a darker band |
| `App.LabelsDistinct` | main.py:118-126 | `Label` gives the five printed strings; the five printed labels are pairwise distinct |
| `App.ClassifyBoundaries` | main.py:117-125 | 10 is too dark, 10.0001 dark, 25 dark, 45 medium, 60 bright, 60.0001 too bright |
| `App.ClassifyRaw` | main.py:102-126 | in raw register units the bands end at 12, 30, 54 and 72, each boundary in both directions |
| `App.PollOnce` | main.py:115-126 | one poll makes one two-byte read and yields the label of the band of its big-endian value in lux, or "too dark" when the read fails, because the failed read gives 0 lux; the two bytes are consumed on success and nothing on failure |
| `App.MainTeardownLeaks` | main.py:111 | the sensor `main()` builds on a fresh transport gets handle 0, and the as-written teardown leaves it open |
| `App.MainReleaseCloses` | main.py:111 | the same sensor released with the corrected teardown leaves no channel open |
| `App.ReconfigureKeepsOneChannel` | main.py:50-55 | after construction and a change of address, exactly one channel is open, it is the sensor's handle (handle 1), and it targets the new address 0x5C |

## Findings

| source | as written | input that shows it | evidently intended | confidence | as-written member | corrected member |
|---|---|---|---|---|---|---|
| main.py:39-40 | `if self.i2c_handle:` closes the channel only when the handle is truthy, that is non-zero | pigpio handles start at 0: the first channel opened on a fresh daemon, such as the one `BH1750(17, False)` opens in `main()`, gets handle 0, and teardown skips the close. pigpio reuses the lowest free slot, so after `address_set` closes handle 0 the new channel is handle 0 again and the leak survives a reconfiguration; the fake numbers handles in order and so does not show this second case | close the handle whenever one was obtained (`is not None`) | medium, not executed | `Sensor.BH1750.Teardown`, shown by `App.MainTeardownLeaks` | `Sensor.BH1750.Release`, shown by `App.MainReleaseCloses` |

## Left out

- Starting the pigpio daemon with `subprocess` (main.py:10) and the global connection `gpio = pigpio.pi()` (main.py:13). These are process plumbing. The connection is the injected `Transport.Pi`.
- The pigpio daemon itself. The fake's rules are this model's choices: handles are numbered in order and never reused, opening never fails, and a failed block read reports the count -1. pigpio's own allocation and error codes are not part of this model.
- `Sensor.BH1750.SendCommand`, the eight single-byte instruction methods (`PowerOff`, `PowerOn`, `ContinuousHMode`, `ContinuousHMode2`, `ContinuousLMode`, `OneTimeHMode`, `OneTimeHMode2`, `OneTimeLMode`), `Reset` and the constructor: a bus error on an open handle is not modelled. pigpio also raises when a transfer fails on an open handle, for example when the device does not acknowledge. The fake's `i2c_write_byte`, `i2c_read_byte` and `i2c_close` fail only on a handle that is not open, so `ok == (handle in pi.open)` is a property of the fake. The case where `continuous_h_mode()` raises at main.py:34 after `i2c_open` cannot arise. In the code, `__del__` would then close the non-zero handle or leak handle 0.
- Failure of `set_mode`, `write` and `i2c_open`. The fake never fails them, so the constructor and the open inside `SetAddress` always succeed.
- `time.sleep` (main.py:106, 128). It is timing only.
- Floating point. Lux is the exact rational `raw / 1.2`, and banding is over `real`, so IEEE rounding near a band boundary is not modelled.
- The endless polling loop, `print`, the `try`/`except` around `main()`, `gc.collect()` and `gpio.stop()` (main.py:110-137). Only one pass of the loop (`App.PollOnce`) and the teardown at exit (the `App.Main…` scenarios) are modelled.
- When the garbage collector runs `__del__`. Teardown is the explicit method `Teardown`. The case of `__del__` on an object whose `__init__` raised before `i2c_handle` was set cannot arise, because construction cannot fail in the model.
- `_read_data(1)` followed by `convert_to_number(*…)`. Unpacking a single integer would raise a `TypeError`, but `get_brightness` only ever reads 2 bytes.
