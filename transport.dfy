/**
 * The bus/GPIO capability the driver consumes, as a fake that records every
 * call in order and keeps the set of open I2C channels. It stands in for the
 * global pigpio connection object (main.py:13).
 */
module Transport {
  import opened Bytes
  import opened Wrappers

  /** The I2C bus the driver always opens (main.py:33, 55). */
  const I2cBus: int := 1

  /** The error code the fake's block read reports; pigpio's codes are negative. */
  const ReadError: int := -1

  /** What an open handle is connected to. */
  datatype Channel = Channel(bus: int, addr: int, flags: int)

  /** One call made on the transport, in the order made. */
  datatype Event =
    | SetModeOutput(pin: int)
    | WritePin(pin: int, level: bool)
    | Opened(bus: int, addr: int, flags: int, handle: nat)
    | Closed(handle: nat)
    | WroteByte(handle: nat, b: byte)
    | ReadOneByte(handle: nat)
    | ReadBlock(handle: nat, count: int)

  class Pi {
    /** Every call made so far. */
    var trace: seq<Event>
    /** The open I2C channels, by handle. */
    var open: map<nat, Channel>
    /** The handle the next open returns. */
    var next: nat
    /** Bytes the device has ready to be read. */
    var rx: seq<byte>

    /** Every open handle was handed out earlier. */
    ghost predicate Valid()
      reads this
    {
      forall h :: h in open ==> h < next
    }

    /** A fresh connection: nothing called, nothing open, first handle 0. */
    constructor (rx: seq<byte>)
      ensures Valid()
      ensures trace == [] && open == map[] && next == 0 && this.rx == rx
    {
      trace := [];
      open := map[];
      next := 0;
      this.rx := rx;
    }

    /** `set_mode(pin, OUTPUT)`. */
    method SetMode(pin: int)
      modifies this`trace
      ensures trace == old(trace) + [SetModeOutput(pin)]
    {
      trace := trace + [SetModeOutput(pin)];
    }

    /** `write(pin, level)`. */
    method Write(pin: int, level: bool)
      modifies this`trace
      ensures trace == old(trace) + [WritePin(pin, level)]
    {
      trace := trace + [WritePin(pin, level)];
    }

    /** `i2c_open(bus, addr, flags)`: returns a handle never open before. */
    method I2cOpen(bus: int, addr: int, flags: int) returns (h: nat)
      requires Valid()
      modifies this`trace, this`open, this`next
      ensures Valid()
      ensures h == old(next) && h !in old(open) && next == h + 1
      ensures open == old(open)[h := Channel(bus, addr, flags)]
      ensures trace == old(trace) + [Opened(bus, addr, flags, h)]
    {
      h := next;
      next := next + 1;
      open := open[h := Channel(bus, addr, flags)];
      trace := trace + [Opened(bus, addr, flags, h)];
    }

    /** `i2c_close(h)`: fails on a handle that is not open. */
    method I2cClose(h: nat) returns (ok: bool)
      modifies this`trace, this`open
      ensures ok == (h in old(open))
      ensures open == old(open) - {h}
      ensures trace == old(trace) + [Closed(h)]
    {
      ok := h in open;
      open := open - {h};
      trace := trace + [Closed(h)];
    }

    /** `i2c_write_byte(h, b)`: fails on a handle that is not open. */
    method I2cWriteByte(h: nat, b: byte) returns (ok: bool)
      modifies this`trace
      ensures ok == (h in open)
      ensures trace == old(trace) + [WroteByte(h, b)]
    {
      ok := h in open;
      trace := trace + [WroteByte(h, b)];
    }

    /** `i2c_read_byte(h)`: the next byte the device has, if the handle is open and there is one. */
    method I2cReadByte(h: nat) returns (r: Option<byte>)
      modifies this`trace, this`rx
      ensures trace == old(trace) + [ReadOneByte(h)]
      ensures h in open && |old(rx)| >= 1 ==> r == Some(old(rx)[0]) && rx == old(rx)[1..]
      ensures !(h in open && |old(rx)| >= 1) ==> r == None && rx == old(rx)
    {
      trace := trace + [ReadOneByte(h)];
      if h in open && |rx| >= 1 {
        r := Some(rx[0]);
        rx := rx[1..];
      } else {
        r := None;
      }
    }

    /**
     * `i2c_read_device(h, count)`: the pair (bytes read, data). It does not
     * raise: when the handle is not open or the device lacks `count` (at
     * least one) bytes, the count is a negative error code and the data empty.
     */
    method I2cReadDevice(h: nat, count: int) returns (r: (int, seq<byte>))
      modifies this`trace, this`rx
      ensures trace == old(trace) + [ReadBlock(h, count)]
      ensures h in open && 1 <= count <= |old(rx)| ==>
        r == (count, old(rx)[..count]) && rx == old(rx)[count..]
      ensures !(h in open && 1 <= count <= |old(rx)|) ==> r.0 < 0 && r.1 == [] && rx == old(rx)
    {
      trace := trace + [ReadBlock(h, count)];
      if h in open && 1 <= count <= |rx| {
        r := (count, rx[..count]);
        rx := rx[count..];
      } else {
        r := (ReadError, []);
      }
    }
  }
}
