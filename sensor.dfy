/**
 * The BH1750 ambient-light sensor driver: address selection, the command
 * set, the channel-handle lifecycle and the conversion of a raw reading.
 */
module Sensor {
  import opened Bytes
  import opened Wrappers
  import opened Transport

  /** 7-bit address with the address pin low: 0b0100011. */
  const LowAddr: int := 0x23
  /** 7-bit address with the address pin high: 0b1011100. */
  const HighAddr: int := 0x5C

  /** The effective address for a level of the address-select pin. */
  function Address(high: bool): (a: int)
    ensures 0 <= a < 128
    ensures a == HighAddr <==> high
    ensures a == LowAddr <==> !high
  {
    if high then HighAddr else LowAddr
  }

  /** The pin level that yields address `a`, if any does. */
  function SelectorOf(a: int): (r: Option<bool>)
  {
    if a == HighAddr then Some(true) else if a == LowAddr then Some(false) else None
  }

  /** Address selection is a bijection between the two levels and the two addresses. */
  lemma AddressSelection(high: bool, a: int)
    ensures SelectorOf(Address(high)) == Some(high)
    ensures SelectorOf(a) == Some(high) <==> Address(high) == a
    ensures SelectorOf(a) == None <==> a != LowAddr && a != HighAddr
  {
  }

  /** The sensor's one-byte instructions the driver sends. */
  datatype Command =
    | PowerDown | PowerOn | ResetRegister
    | ContinuousH | ContinuousH2 | ContinuousL
    | OneTimeH | OneTimeH2 | OneTimeL

  /** The byte on the wire for each instruction. */
  function Opcode(c: Command): byte
  {
    match c
    case PowerDown => 0x00
    case PowerOn => 0x01
    case ResetRegister => 0x07
    case ContinuousH => 0x10
    case ContinuousH2 => 0x11
    case ContinuousL => 0x13
    case OneTimeH => 0x20
    case OneTimeH2 => 0x21
    case OneTimeL => 0x23
  }

  /** The instruction a byte encodes, if any. */
  function CommandOf(b: byte): Option<Command>
  {
    if b == 0x00 then Some(PowerDown)
    else if b == 0x01 then Some(PowerOn)
    else if b == 0x07 then Some(ResetRegister)
    else if b == 0x10 then Some(ContinuousH)
    else if b == 0x11 then Some(ContinuousH2)
    else if b == 0x13 then Some(ContinuousL)
    else if b == 0x20 then Some(OneTimeH)
    else if b == 0x21 then Some(OneTimeH2)
    else if b == 0x23 then Some(OneTimeL)
    else None
  }

  /** The encoding is one-to-one and `CommandOf` reads it back, in both directions. */
  lemma OpcodeRoundTrip(c: Command, b: byte)
    ensures CommandOf(Opcode(c)) == Some(c)
    ensures CommandOf(b) == Some(c) <==> Opcode(c) == b
  {
  }

  /** Distinct instructions have distinct bytes. */
  lemma OpcodeInjective(c: Command, d: Command)
    ensures Opcode(c) == Opcode(d) ==> c == d
  {
    OpcodeRoundTrip(c, Opcode(d));
  }

  /** What `_read_data` hands back: one byte, or the (count, data) pair of a block read. */
  datatype Reply = Byte(value: byte) | Block(count: int, data: seq<byte>)

  class BH1750 {
    /** The transport, injected instead of the module-level `gpio` global. */
    const pi: Pi
    /** `addr_pin`: the GPIO driving the sensor's address-select line. */
    const addrPin: int
    /** `_address`: the level of the address-select line. */
    var addrHigh: bool
    /** `i2c_handle`: the channel this sensor talks through. */
    var handle: nat

    /** The sensor owns an open channel to the address its pin level selects. */
    ghost predicate Valid()
      reads this, pi
    {
      pi.Valid() && handle in pi.open && pi.open[handle] == Channel(I2cBus, Address(addrHigh), 0)
    }

    /**
     * `__init__`: pin to output, pin to the requested level, open one channel
     * on bus 1 at the selected address, then continuous high-resolution mode.
     */
    constructor (pi: Pi, addrPin: int, addr: bool)
      requires pi.Valid()
      modifies pi
      ensures this.pi == pi && this.addrPin == addrPin && addrHigh == addr
      ensures handle == old(pi.next) && handle !in old(pi.open) && pi.next == old(pi.next) + 1
      ensures pi.open == old(pi.open)[handle := Channel(I2cBus, Address(addr), 0)]
      ensures pi.trace == old(pi.trace) + [SetModeOutput(addrPin), WritePin(addrPin, addr),
                                           Opened(I2cBus, Address(addr), 0, handle), WroteByte(handle, 0x10)]
      ensures pi.rx == old(pi.rx)
      ensures Valid()
    {
      this.pi := pi;
      this.addrPin := addrPin;
      pi.SetMode(addrPin);
      pi.Write(addrPin, addr);
      this.addrHigh := addr;
      var h := pi.I2cOpen(I2cBus, Address(addr), 0);
      this.handle := h;
      new;
      var _ := ContinuousHMode();
    }

    /**
     * `__del__`: closes the handle only when it is truthy (non-zero), and
     * ignores a failed close.
     */
    method Teardown()
      modifies pi`trace, pi`open
      ensures handle != 0 ==> pi.trace == old(pi.trace) + [Closed(handle)] && pi.open == old(pi.open) - {handle}
      ensures handle == 0 ==> pi.trace == old(pi.trace) && pi.open == old(pi.open)
    {
      if handle != 0 {
        var _ := pi.I2cClose(handle);
      }
    }

    /** Teardown as intended: the handle is closed whatever its number. */
    method Release()
      modifies pi`trace, pi`open
      ensures pi.trace == old(pi.trace) + [Closed(handle)]
      ensures pi.open == old(pi.open) - {handle}
      ensures handle !in pi.open
    {
      var _ := pi.I2cClose(handle);
    }

    /**
     * `address_set`: drive the pin to the new level, record it, close the old
     * channel, then open a new one at the new address. No mode command follows.
     * A failing close ends the operation, with the pin and level already changed.
     */
    method SetAddress(addr: bool) returns (ok: bool)
      requires pi.Valid()
      modifies this`addrHigh, this`handle, pi`trace, pi`open, pi`next
      ensures pi.Valid() && addrHigh == addr
      ensures ok == (old(handle) in old(pi.open))
      ensures ok ==> handle == old(pi.next) && handle !in old(pi.open) && pi.next == old(pi.next) + 1
      ensures ok ==> pi.open == (old(pi.open) - {old(handle)})[handle := Channel(I2cBus, Address(addr), 0)]
      ensures ok ==> pi.trace == old(pi.trace) + [WritePin(addrPin, addr), Closed(old(handle)),
                                                  Opened(I2cBus, Address(addr), 0, handle)]
      ensures ok ==> Valid()
      ensures ok && old(pi.open.Keys) == {old(handle)} ==> pi.open.Keys == {handle}
      ensures !ok ==> handle == old(handle) && pi.open == old(pi.open) && pi.next == old(pi.next)
      ensures !ok ==> pi.trace == old(pi.trace) + [WritePin(addrPin, addr), Closed(old(handle))]
    {
      pi.Write(addrPin, addr);
      addrHigh := addr;
      ok := pi.I2cClose(handle);
      if !ok {
        return;
      }
      handle := pi.I2cOpen(I2cBus, Address(addrHigh), 0);
    }

    /** `_send_command`: one byte to the current handle. */
    method SendCommand(data: byte) returns (ok: bool)
      modifies pi`trace
      ensures ok == (handle in pi.open)
      ensures old(Valid()) ==> ok && Valid()
      ensures pi.trace == old(pi.trace) + [WroteByte(handle, data)]
    {
      ok := pi.I2cWriteByte(handle, data);
    }

    /**
     * `_read_data`: a single-byte read exactly when `count == 1`, otherwise
     * one block read of `count` bytes. The single-byte read fails (pigpio
     * raises); the block read never does, reporting a negative count instead.
     */
    method ReadData(count: int) returns (r: Option<Reply>)
      modifies pi`trace, pi`rx
      ensures count == 1 ==> pi.trace == old(pi.trace) + [ReadOneByte(handle)]
      ensures count == 1 && handle in pi.open && |old(pi.rx)| >= 1 ==>
        r == Some(Byte(old(pi.rx)[0])) && pi.rx == old(pi.rx)[1..]
      ensures count == 1 && !(handle in pi.open && |old(pi.rx)| >= 1) ==> r == None && pi.rx == old(pi.rx)
      ensures count != 1 ==> pi.trace == old(pi.trace) + [ReadBlock(handle, count)]
      ensures count != 1 && handle in pi.open && 1 <= count <= |old(pi.rx)| ==>
        r == Some(Block(count, old(pi.rx)[..count])) && pi.rx == old(pi.rx)[count..]
      ensures count != 1 && !(handle in pi.open && 1 <= count <= |old(pi.rx)|) ==>
        r.Some? && r.value.Block? && r.value.count < 0 && r.value.data == [] && pi.rx == old(pi.rx)
    {
      if count == 1 {
        var b := pi.I2cReadByte(handle);
        r := if b.Some? then Some(Byte(b.value)) else None;
      } else {
        var d := pi.I2cReadDevice(handle, count);
        r := Some(Block(d.0, d.1));
      }
    }

    /** `power_off`: 0x00. */
    method PowerOff() returns (ok: bool)
      modifies pi`trace
      ensures ok == (handle in pi.open)
      ensures old(Valid()) ==> ok && Valid()
      ensures pi.trace == old(pi.trace) + [WroteByte(handle, 0x00)]
    {
      ok := SendCommand(Opcode(PowerDown));
    }

    /** `power_on`: 0x01. */
    method PowerOn() returns (ok: bool)
      modifies pi`trace
      ensures ok == (handle in pi.open)
      ensures old(Valid()) ==> ok && Valid()
      ensures pi.trace == old(pi.trace) + [WroteByte(handle, 0x01)]
    {
      ok := SendCommand(Opcode(Command.PowerOn));
    }

    /** `reset`: power on (0x01), then the reset byte (0x07) unless power-on failed. */
    method Reset() returns (ok: bool)
      modifies pi`trace
      ensures ok == (handle in pi.open)
      ensures old(Valid()) ==> ok && Valid()
      ensures ok ==> pi.trace == old(pi.trace) + [WroteByte(handle, 0x01), WroteByte(handle, 0x07)]
      ensures !ok ==> pi.trace == old(pi.trace) + [WroteByte(handle, 0x01)]
    {
      ok := PowerOn();
      if ok {
        ok := SendCommand(Opcode(ResetRegister));
      }
    }

    /** `continuous_h_mode`: 0x10. */
    method ContinuousHMode() returns (ok: bool)
      modifies pi`trace
      ensures ok == (handle in pi.open)
      ensures old(Valid()) ==> ok && Valid()
      ensures pi.trace == old(pi.trace) + [WroteByte(handle, 0x10)]
    {
      ok := SendCommand(Opcode(ContinuousH));
    }

    /** `continuous_h_mode2`: 0x11. */
    method ContinuousHMode2() returns (ok: bool)
      modifies pi`trace
      ensures ok == (handle in pi.open)
      ensures old(Valid()) ==> ok && Valid()
      ensures pi.trace == old(pi.trace) + [WroteByte(handle, 0x11)]
    {
      ok := SendCommand(Opcode(ContinuousH2));
    }

    /** `continuous_l_mode`: 0x13. */
    method ContinuousLMode() returns (ok: bool)
      modifies pi`trace
      ensures ok == (handle in pi.open)
      ensures old(Valid()) ==> ok && Valid()
      ensures pi.trace == old(pi.trace) + [WroteByte(handle, 0x13)]
    {
      ok := SendCommand(Opcode(ContinuousL));
    }

    /** `one_time_h_mode`: 0x20. */
    method OneTimeHMode() returns (ok: bool)
      modifies pi`trace
      ensures ok == (handle in pi.open)
      ensures old(Valid()) ==> ok && Valid()
      ensures pi.trace == old(pi.trace) + [WroteByte(handle, 0x20)]
    {
      ok := SendCommand(Opcode(OneTimeH));
    }

    /** `one_time_h_mode2`: 0x21. */
    method OneTimeHMode2() returns (ok: bool)
      modifies pi`trace
      ensures ok == (handle in pi.open)
      ensures old(Valid()) ==> ok && Valid()
      ensures pi.trace == old(pi.trace) + [WroteByte(handle, 0x21)]
    {
      ok := SendCommand(Opcode(OneTimeH2));
    }

    /** `one_time_l_mode`: 0x23. */
    method OneTimeLMode() returns (ok: bool)
      modifies pi`trace
      ensures ok == (handle in pi.open)
      ensures old(Valid()) ==> ok && Valid()
      ensures pi.trace == old(pi.trace) + [WroteByte(handle, 0x23)]
    {
      ok := SendCommand(Opcode(OneTimeL));
    }

    /**
     * `convert_to_number`: shift-and-add over the bytes, then drop the last
     * shift and scale to lux. The count argument plays no part.
     */
    method ConvertToNumber(count: int, data: seq<byte>) returns (lux: real)
      ensures lux == Lux(WeightedSum(data))
    {
      var brightness := 0;
      for i := 0 to |data|
        invariant brightness == BigEndian(data[..i]) * 256
      {
        assert data[..i + 1][..i] == data[..i];
        brightness := brightness + data[i] as int;
        brightness := brightness * 256;  // `<<= 8` on an unbounded integer
      }
      assert data[..|data|] == data;
      BigEndianIsWeightedSum(data);
      lux := Lux(brightness / 256);  // `>> 8` on a non-negative integer
    }

    /**
     * `get_brightness`: one two-byte block read, decoded big-endian and scaled
     * to lux. A failed read hands empty data to the conversion, which gives
     * 0 lux. The settling sleep before it is timing only.
     */
    method GetBrightness() returns (lux: real)
      modifies pi`trace, pi`rx
      ensures pi.trace == old(pi.trace) + [ReadBlock(handle, 2)]
      ensures handle in pi.open && |old(pi.rx)| >= 2 ==>
        lux == Lux(old(pi.rx)[0] as int * 256 + old(pi.rx)[1] as int) && pi.rx == old(pi.rx)[2..]
      ensures !(handle in pi.open && |old(pi.rx)| >= 2) ==> lux == 0.0 && pi.rx == old(pi.rx)
    {
      var r := ReadData(2);
      var data := r.value.data;
      lux := ConvertToNumber(r.value.count, data);
      if |data| == 2 {
        assert data == [data[0], data[1]];
        BigEndianIsWeightedSum(data);
        TwoBytes(data[0], data[1]);
      }
    }
  }
}
