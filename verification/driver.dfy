/**
 * The `pzem` driver class of pzemTest.py: a PZEM-016 instrument at 9600 baud
 * and 0.3 s, the full-block read `getData` with its five tries, the two-word
 * reads `getCurrent`, `getPower` and `getEnergy`, and `getAlarmStatus`.
 */
module Driver {
  import opened Wrappers
  import opened Registers
  import opened Modbus
  import opened LineProtocol
  import Monitor

  /** Tries `getData` makes before it gives up. */
  const DataTries: nat := 5

  const DriverBaudrate: nat := 9600
  /** The serial timeout, 0.3 s. */
  const DriverTimeoutMs: nat := 300

  /** The full read `getData` sends: `read_registers(0, 10, 4)`, registers 0 to 9. */
  function DataRead(slave: nat, port: Port): Request
  {
    Request(port, slave, 0, 10, 4)
  }

  /**
   * The seven entries `getData` returns for a block of registers 0..9:
   * V, A, W, Wh, Hz, PF and the alarm flag, each in its register unit.
   */
  function Readings(b: Block): (vs: seq<Value>)
    requires |b| == 10
    ensures |vs| == 7
  {
    var m := Decode(b);
    [Value(m.voltage, 1), Value(m.current, 3), Value(m.power, 1), Value(m.energy, 0),
     Value(m.frequency, 1), Value(m.powerFactor, 2), Value(AlarmFlag(b[9]), 0)]
  }

  /**
   * The entries in register terms, the two-word ones combined as
   * `low + high * 65536`; the alarm entry is 1 iff register 9 is non-zero.
   */
  lemma ReadingsByRegisters(b: Block)
    requires |b| == 10
    ensures var vs := Readings(b);
            vs[0] == Value(b[0], 1)
            && vs[1] == Value(b[1] + b[2] * WordSpan, 3)
            && vs[2] == Value(b[3] + b[4] * WordSpan, 1)
            && vs[3] == Value(b[5] + b[6] * WordSpan, 0)
            && vs[4] == Value(b[7], 1)
            && vs[5] == Value(b[8], 2)
            && vs[6] == Value(if b[9] > 0 then 1 else 0, 0)
  {
    ShiftFormMatchesProductForm(b[1], b[2]);
    ShiftFormMatchesProductForm(b[3], b[4]);
    ShiftFormMatchesProductForm(b[5], b[6]);
  }

  /** `getData` against the line, its first try being the `from`-th read: the entries, or None after five failures. */
  function GetDataSpec(script: seq<Reply>, from: nat): (r: Option<seq<Value>>)
    ensures r.Some? ==> |r.value| == 7
  {
    var a := Attempts(script, from, 10, DataTries);
    if a.data.Some? then Some(Readings(a.data.value)) else None
  }

  /**
   * `getData` stops at the first try that succeeds and returns that block's
   * entries; when all five tries fail it returns no data instead of raising.
   */
  lemma GetDataFirstSuccess(script: seq<Reply>, from: nat, j: nat)
    requires from <= j < from + DataTries && AnswerAt(script, j, 10).Some?
    requires forall k :: from <= k < j ==> AnswerAt(script, k, 10).None?
    ensures GetDataSpec(script, from) == Some(Readings(AnswerAt(script, j, 10).value))
    ensures Attempts(script, from, 10, DataTries).calls == j - from + 1
  {
    AttemptsFindsFirstSuccess(script, from, 10, DataTries, j);
  }

  lemma GetDataGivesUp(script: seq<Reply>, from: nat)
    requires forall k :: from <= k < from + DataTries ==> AnswerAt(script, k, 10).None?
    ensures GetDataSpec(script, from).None?
    ensures Attempts(script, from, 10, DataTries).calls == DataTries
  {
    AttemptsExhausted(script, from, 10, DataTries);
  }

  /**
   * `getData` and `read_meter` in pzem.py decode a block alike: the V, A, W,
   * Wh and PF entries of `getData` are the five entries `read_meter` emits
   * for the block's first nine registers.
   */
  lemma ReadingsAgreeWithMeterRead(b: Block)
    requires |b| == 10
    ensures var vs := Readings(b);
            [vs[0], vs[1], vs[2], vs[3], vs[5]] == Monitor.Emit(Decode(b[..9]))
  {
    DecodeReadsNineRegisters(b, b[..9]);
  }

  /** A `pzem` instance: a `minimalmodbus.Instrument` on one port and slave address. */
  class Pzem {
    const inst: Instrument

    /**
     * `pzem(serialPort, slaveAddress)`: the instrument, then a 0.3 s timeout
     * and 9600 baud; the slave address is 1 unless given.
     */
    constructor (port: Port, bus: Bus, slave: nat := 1)
      ensures inst.slave == slave && inst.bus == bus
      ensures inst.serial == Serial(port, Some(DriverBaudrate), Some(DriverTimeoutMs))
    {
      inst := new Instrument(port, slave, bus);
      new;
      inst.serial := inst.serial.(timeoutMs := Some(DriverTimeoutMs));
      inst.serial := inst.serial.(baudrate := Some(DriverBaudrate));
    }

    /** `getData`: up to five tries of the full read; None stands for `False`. */
    method GetData() returns (data: Option<seq<Value>>)
      modifies inst.bus
      ensures data == GetDataSpec(inst.bus.script, |old(inst.bus.log)|)
      ensures inst.bus.log
              == old(inst.bus.log)
                 + Repeat(DataRead(inst.slave, inst.serial.port), Attempts(inst.bus.script, |old(inst.bus.log)|, 10, DataTries).calls)
    {
      var block := inst.ReadRetrying(0, 10, 4, DataTries);
      if block.Some? {
        var b := block.value;
        ShiftFormMatchesProductForm(b[1], b[2]);
        ShiftFormMatchesProductForm(b[3], b[4]);
        ShiftFormMatchesProductForm(b[5], b[6]);
        data := Some([Value(b[0], 1), Value(b[1] + b[2] * WordSpan, 3), Value(b[3] + b[4] * WordSpan, 1),
                      Value(b[5] + b[6] * WordSpan, 0), Value(b[7], 1), Value(b[8], 2),
                      Value(if b[9] > 0 then 1 else 0, 0)]);
      } else {
        data := None;
      }
    }

    /**
     * The two-word read behind `getCurrent`, `getPower` and `getEnergy`:
     * registers `start` and `start + 1`, low word first, as a value with
     * `places` decimals; None stands for the exception the read raises.
     */
    method ReadLong(start: nat, places: nat) returns (v: Option<Value>)
      modifies inst.bus
      ensures var r := AnswerAt(inst.bus.script, |old(inst.bus.log)|, 2);
              (v.Some? <==> r.Some?)
              && (v.Some? ==> v.value.places == places && 0 <= v.value.units < LongSpan
                              && Split(v.value.units) == (r.value[0], r.value[1]))
      ensures inst.bus.log == old(inst.bus.log) + [Request(inst.serial.port, inst.slave, start, 2, 4)]
    {
      var data := inst.ReadRegisters(start, 2, 4);
      if data.Some? {
        ShiftFormMatchesProductForm(data.value[0], data.value[1]);
        v := Some(Value(data.value[0] + data.value[1] * WordSpan, places));
      } else {
        v := None;
      }
    }

    /** `getCurrent`: registers 1 and 2, in milliamps. */
    method GetCurrent() returns (amps: Option<Value>)
      modifies inst.bus
      ensures var r := AnswerAt(inst.bus.script, |old(inst.bus.log)|, 2);
              amps == if r.Some? then Some(Value(Combine(r.value[0], r.value[1]), 3)) else None
      ensures inst.bus.log == old(inst.bus.log) + [Request(inst.serial.port, inst.slave, 1, 2, 4)]
    {
      amps := ReadLong(1, 3);
    }

    /** `getPower`: registers 3 and 4, in tenths of a watt. */
    method GetPower() returns (watts: Option<Value>)
      modifies inst.bus
      ensures var r := AnswerAt(inst.bus.script, |old(inst.bus.log)|, 2);
              watts == if r.Some? then Some(Value(Combine(r.value[0], r.value[1]), 1)) else None
      ensures inst.bus.log == old(inst.bus.log) + [Request(inst.serial.port, inst.slave, 3, 2, 4)]
    {
      watts := ReadLong(3, 1);
    }

    /** `getEnergy`: registers 5 and 6, in watt-hours. */
    method GetEnergy() returns (energy: Option<Value>)
      modifies inst.bus
      ensures var r := AnswerAt(inst.bus.script, |old(inst.bus.log)|, 2);
              energy == if r.Some? then Some(Value(Combine(r.value[0], r.value[1]), 0)) else None
      ensures inst.bus.log == old(inst.bus.log) + [Request(inst.serial.port, inst.slave, 5, 2, 4)]
    {
      energy := ReadLong(5, 0);
    }

    /** `getAlarmStatus`: register 9 alone; 1 iff it reads 0xFFFF. */
    method GetAlarmStatus() returns (status: Option<nat>)
      modifies inst.bus
      ensures var r := AnswerAt(inst.bus.script, |old(inst.bus.log)|, 1);
              status == if r.Some? then Some(AlarmStatus(r.value[0])) else None
      ensures inst.bus.log == old(inst.bus.log) + [Request(inst.serial.port, inst.slave, 9, 1, 4)]
    {
      var data := inst.ReadRegisters(9, 1, 4);
      if data.Some? {
        status := Some(if data.value[0] == 65535 then 1 else 0);
      } else {
        status := None;
      }
    }
  }
}
