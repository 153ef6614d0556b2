/**
 * The external Modbus-RTU client as the core sees it: an instrument bound to
 * a slave address and a serial port that issues `read_registers(start, count,
 * functionCode)`, which either returns the registers or raises. The serial
 * line is an oracle: a script of the replies the next reads meet, and a log
 * of the reads issued so far.
 */
module Modbus {
  import opened Wrappers
  import opened Registers

  type Port = string

  /** The registers one read returns. */
  type Block = seq<Word>

  /** One `read_registers(start, count, functionCode)` sent to `slave` on `port`. */
  datatype Request = Request(port: Port, slave: nat, start: nat, count: nat, functionCode: nat)

  /** What the line gives the next read: registers, or None when the client raises. */
  type Reply = Option<Block>

  /**
   * The outcome of the k-th read (from 0) on the line when it asks for
   * `count` registers: the k-th scripted reply when it holds exactly `count`
   * registers. A read past the end of the script, a missing reply or one of
   * another length is a communication error (the client raises on a
   * response of the wrong size).
   */
  function AnswerAt(script: seq<Reply>, k: nat, count: nat): (r: Option<Block>)
    ensures r.Some? ==> |r.value| == count
    ensures r.Some? <==> k < |script| && script[k].Some? && |script[k].value| == count
  {
    if k < |script| && script[k].Some? && |script[k].value| == count then script[k] else None
  }

  /**
   * The serial line and the meters behind it, seen from the client. The
   * replies are fixed in advance; the k-th read ever issued meets the k-th
   * of them, so the number of reads logged is where the next read stands.
   */
  class Bus {
    /** The replies the reads meet, in order. */
    const script: seq<Reply>
    /** The reads issued so far, in order. */
    var log: seq<Request>

    constructor (script: seq<Reply>)
      ensures this.script == script && log == []
    {
      this.script := script;
      log := [];
    }

    method Read(req: Request) returns (r: Option<Block>)
      modifies this
      ensures r == AnswerAt(script, |old(log)|, req.count)
      ensures log == old(log) + [req]
    {
      r := AnswerAt(script, |log|, req.count);
      log := log + [req];
    }
  }

  /** The registers a bounded series of reads obtained (None if every read failed) and how many reads it made (`calls`). */
  datatype Attempted = Attempted(data: Option<Block>, calls: nat)

  /**
   * Up to `limit` reads of `count` registers, the first of them the `from`-th
   * read on the line, stopping at the first that succeeds: its registers (or
   * None when all fail) and the number of reads made.
   */
  function Attempts(script: seq<Reply>, from: nat, count: nat, limit: nat): (res: Attempted)
    ensures res.calls <= limit
    ensures res.data.Some? ==> 1 <= res.calls && |res.data.value| == count
    ensures res.data.None? ==> res.calls == limit
    decreases limit
  {
    if limit == 0 then Attempted(None, 0)
    else if AnswerAt(script, from, count).Some? then Attempted(AnswerAt(script, from, count), 1)
    else
      var later := Attempts(script, from + 1, count, limit - 1);
      Attempted(later.data, later.calls + 1)
  }

  /**
   * Attempts stops at the first success: every read before the last one
   * failed, and on success the result is the last read's registers; on
   * failure every one of the `limit` reads failed.
   */
  lemma {:induction false} AttemptsStopAtFirstSuccess(script: seq<Reply>, from: nat, count: nat, limit: nat)
    ensures var a := Attempts(script, from, count, limit);
            (forall k :: from <= k < from + a.calls - 1 ==> AnswerAt(script, k, count).None?)
            && (a.data.Some? ==> a.data == AnswerAt(script, from + a.calls - 1, count))
            && (a.data.None? ==> forall k :: from <= k < from + limit ==> AnswerAt(script, k, count).None?)
    decreases limit
  {
    if limit > 0 && AnswerAt(script, from, count).None? {
      AttemptsStopAtFirstSuccess(script, from + 1, count, limit - 1);
    }
  }

  /** Conversely, the first successful read within the limit is the one Attempts stops at. */
  lemma AttemptsFindsFirstSuccess(script: seq<Reply>, from: nat, count: nat, limit: nat, j: nat)
    requires from <= j < from + limit && AnswerAt(script, j, count).Some?
    requires forall k :: from <= k < j ==> AnswerAt(script, k, count).None?
    ensures Attempts(script, from, count, limit) == Attempted(AnswerAt(script, j, count), j - from + 1)
  {
    AttemptsStopAtFirstSuccess(script, from, count, limit);
  }

  /** When every one of the `limit` reads fails, Attempts makes them all and returns None. */
  lemma AttemptsExhausted(script: seq<Reply>, from: nat, count: nat, limit: nat)
    requires forall k :: from <= k < from + limit ==> AnswerAt(script, k, count).None?
    ensures Attempts(script, from, count, limit) == Attempted(None, limit)
  {
    AttemptsStopAtFirstSuccess(script, from, count, limit);
  }

  /** `n` copies of one request. */
  function Repeat(req: Request, n: nat): (reqs: seq<Request>)
    ensures |reqs| == n && forall i :: 0 <= i < n ==> reqs[i] == req
  {
    if n == 0 then [] else Repeat(req, n - 1) + [req]
  }

  /**
   * The settings of an instrument's serial port: its device name, and the
   * baud rate and timeout, None while the client library's default applies.
   */
  datatype Serial = Serial(port: Port, baudrate: Option<nat>, timeoutMs: Option<nat>)

  /** A `minimalmodbus.Instrument`: a fixed slave address on a serial port the program may reconfigure. */
  class Instrument {
    const slave: nat
    const bus: Bus
    var serial: Serial

    constructor (port: Port, slave: nat, bus: Bus)
      ensures serial == Serial(port, None, None) && this.slave == slave && this.bus == bus
    {
      this.slave := slave;
      this.bus := bus;
      serial := Serial(port, None, None);
    }

    /** `read_registers(start, count, functionCode)`; None stands for the exception it raises. */
    method ReadRegisters(start: nat, count: nat, functionCode: nat) returns (r: Option<Block>)
      modifies bus
      ensures r == AnswerAt(bus.script, |old(bus.log)|, count)
      ensures bus.log == old(bus.log) + [Request(serial.port, slave, start, count, functionCode)]
    {
      r := bus.Read(Request(serial.port, slave, start, count, functionCode));
    }

    /**
     * The retry loop around a read: `for i in range(tries)`, leaving the loop
     * at the first read that does not raise; None when every try raised.
     */
    method ReadRetrying(start: nat, count: nat, functionCode: nat, tries: nat) returns (data: Option<Block>)
      modifies bus
      ensures var a := Attempts(bus.script, |old(bus.log)|, count, tries);
              data == a.data && bus.log == old(bus.log) + Repeat(Request(serial.port, slave, start, count, functionCode), a.calls)
    {
      ghost var req := Request(serial.port, slave, start, count, functionCode);
      ghost var from := |bus.log|;
      data := None;
      var i := 0;
      while i < tries
        invariant 0 <= i <= tries && data.None?
        invariant bus.log == old(bus.log) + Repeat(req, i)
        invariant Attempts(bus.script, from, count, tries)
               == Attempted(Attempts(bus.script, from + i, count, tries - i).data, Attempts(bus.script, from + i, count, tries - i).calls + i)
      {
        var reply := ReadRegisters(start, count, functionCode);
        i := i + 1;
        if reply.Some? {
          data := reply;
          break;
        }
      }
    }
  }
}
