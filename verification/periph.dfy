/**
 * The I2C peripheral layer the drivers call, seen from outside: each call
 * is logged as an event on the bus it uses, and every count or byte the
 * hardware would produce is an arbitrary value. The delays the drivers
 * insert (`xtimer_usleep`) are logged on the same bus so that their order
 * relative to the transfers is visible.
 */
module Periph {

  /** The clock speed passed to `i2c_init_master`. */
  datatype Speed = Normal | Fast

  /** One observable step of a driver. */
  datatype Event =
    | Acquire
    | Release
    | InitMaster(speed: Speed)
    | WriteBytes(addr: bv8, data: seq<bv8>)
    | ReadBytes(addr: bv8, data: seq<bv8>)
    | ReadRegs(addr: bv8, reg: bv8, data: seq<bv8>)
    | WriteByte(addr: bv8, value: bv8)
    | ReadReg(addr: bv8, reg: bv8, value: bv8)
    | WriteReg(addr: bv8, reg: bv8, value: bv8)
    | Sleep(us: nat)

  /**
   * The events of `t` from position `i` on can run from a state in which the
   * bus is held (`held`) or free, and end with the bus free: acquire only a
   * free bus, release only a held one, transfer only while holding it.
   * Delays may come at any point.
   */
  predicate BracketedFrom(held: bool, t: seq<Event>, i: nat)
    requires i <= |t|
    decreases |t| - i
  {
    if i == |t| then !held
    else if t[i].Acquire? then !held && BracketedFrom(true, t, i + 1)
    else if t[i].Release? then held && BracketedFrom(false, t, i + 1)
    else if t[i].Sleep? then BracketedFrom(held, t, i + 1)
    else held && BracketedFrom(held, t, i + 1)
  }

  /** A driver call's events are properly bracketed by acquire and release. */
  predicate Bracketed(t: seq<Event>) {
    BracketedFrom(false, t, 0)
  }

  /** Number of occurrences of `e` in `t` from position `i` on. */
  function Occurrences(t: seq<Event>, e: Event, i: nat): nat
    requires i <= |t|
    decreases |t| - i
  {
    if i == |t| then 0 else (if t[i] == e then 1 else 0) + Occurrences(t, e, i + 1)
  }

  /** In a bracketed run, acquires and releases balance (counting an initial hold). */
  lemma {:induction false} BracketedBalanced(held: bool, t: seq<Event>, i: nat)
    requires i <= |t| && BracketedFrom(held, t, i)
    ensures Occurrences(t, Event.Release, i) == Occurrences(t, Event.Acquire, i) + (if held then 1 else 0)
    decreases |t| - i
  {
    if i < |t| {
      var next := if t[i].Acquire? then true else if t[i].Release? then false else held;
      BracketedBalanced(next, t, i + 1);
    }
  }

  /** An I2C bus as the drivers see it, with the log of what was done on it. */
  class Bus {
    /** Every event on this bus, oldest first. */
    ghost var trace: seq<Event>

    constructor ()
      ensures trace == []
    {
      trace := [];
    }

    /** `i2c_acquire`. */
    method Acquire()
      modifies this
      ensures trace == old(trace) + [Event.Acquire]
    {
      trace := trace + [Event.Acquire];
    }

    /** `i2c_release`. */
    method Release()
      modifies this
      ensures trace == old(trace) + [Event.Release]
    {
      trace := trace + [Event.Release];
    }

    /** `i2c_init_master`: 0 on success, any other value on failure. */
    method InitMaster(speed: Speed) returns (result: int)
      modifies this
      ensures trace == old(trace) + [Event.InitMaster(speed)]
    {
      result := *;
      trace := trace + [Event.InitMaster(speed)];
    }

    /** `i2c_write_bytes`: sends `data[..len]`; the count it reports is arbitrary. */
    method WriteBytes(addr: bv8, data: array<bv8>, len: nat) returns (count: int)
      requires len <= data.Length
      modifies this
      ensures trace == old(trace) + [Event.WriteBytes(addr, data[..len])]
    {
      count := *;
      trace := trace + [Event.WriteBytes(addr, data[..len])];
    }

    /** Fills `buf[..len]` with arbitrary bytes and leaves the rest of `buf` alone. */
    method Receive(buf: array<bv8>, len: nat)
      requires len <= buf.Length
      modifies buf
      ensures buf[len..] == old(buf[len..])
    {
      var i := 0;
      while i < len
        invariant i <= len
        invariant buf[len..] == old(buf[len..])
      {
        var b: bv8 := *;
        buf[i] := b;
        i := i + 1;
      }
    }

    /**
     * `i2c_read_bytes`: fills `buf[..len]`; whatever the count it reports,
     * the bytes it leaves there are arbitrary, and they are logged.
     */
    method ReadBytes(addr: bv8, buf: array<bv8>, len: nat) returns (count: int)
      requires len <= buf.Length
      modifies this, buf
      ensures buf[len..] == old(buf[len..])
      ensures trace == old(trace) + [Event.ReadBytes(addr, buf[..len])]
    {
      Receive(buf, len);
      count := *;
      trace := trace + [Event.ReadBytes(addr, buf[..len])];
    }

    /** `i2c_read_regs`: reads `len` bytes of register `reg` into `buf`. */
    method ReadRegs(addr: bv8, reg: bv8, buf: array<bv8>, len: nat) returns (count: int)
      requires len <= buf.Length
      modifies this, buf
      ensures buf[len..] == old(buf[len..])
      ensures trace == old(trace) + [Event.ReadRegs(addr, reg, buf[..len])]
    {
      Receive(buf, len);
      count := *;
      trace := trace + [Event.ReadRegs(addr, reg, buf[..len])];
    }

    /** `i2c_write_byte`. */
    method WriteByte(addr: bv8, value: bv8) returns (count: int)
      modifies this
      ensures trace == old(trace) + [Event.WriteByte(addr, value)]
    {
      count := *;
      trace := trace + [Event.WriteByte(addr, value)];
    }

    /** `i2c_read_reg`: the byte it stores through its pointer is `value`. */
    method ReadReg(addr: bv8, reg: bv8) returns (count: int, value: bv8)
      modifies this
      ensures trace == old(trace) + [Event.ReadReg(addr, reg, value)]
    {
      count := *;
      value := *;
      trace := trace + [Event.ReadReg(addr, reg, value)];
    }

    /** `i2c_write_reg`. */
    method WriteReg(addr: bv8, reg: bv8, value: bv8) returns (count: int)
      modifies this
      ensures trace == old(trace) + [Event.WriteReg(addr, reg, value)]
    {
      count := *;
      trace := trace + [Event.WriteReg(addr, reg, value)];
    }

    /** `xtimer_usleep`, logged on the bus of the transaction it belongs to. */
    method Sleep(us: nat)
      modifies this
      ensures trace == old(trace) + [Event.Sleep(us)]
    {
      trace := trace + [Event.Sleep(us)];
    }
  }
}
