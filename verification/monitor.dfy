/**
 * The house power monitor (pzem.py): three PZEM-016 meters (main phase A,
 * main phase B, generator) behind USB serial ports, port discovery at start-up,
 * the utility/generator mode, the per-cycle meter read and the line-protocol
 * body posted to InfluxDB.
 */
module Monitor {
  import opened Wrappers
  import opened Registers
  import opened Modbus
  import opened LineProtocol

  /** The port names the OS gives the first three USB serial adapters. */
  const UsbPorts: seq<Port> := ["/dev/ttyUSB0", "/dev/ttyUSB1", "/dev/ttyUSB2"]

  const MainASlave: nat := 4
  const MainBSlave: nat := 5
  const GenSlave: nat := 6

  const Baudrate: nat := 9600
  /** The serial timeout, 0.2 s. */
  const TimeoutMs: nat := 200

  /** Tries per meter read in one polling cycle. */
  const ReadTries: nat := 3

  /** Generator current above this many milliamps (0.3 A) means the house runs on the generator. */
  const GenThresholdMilliamps: nat := 300

  const MainAMissing: string := "RPi cannot communicate with pzMainA, slaveAddress 4"
  const MainBMissing: string := "RPi cannot communicate with pzMainB, slaveAddress 5"
  const GenMissing: string := "RPi cannot communicate with pzGen, slaveAddress 6"

  const GenFields: seq<string> := ["GEN_VOLT", "GEN_AMPS", "GEN_WATT", "GEN_WHRS", "GEN_PZPF", "T_cpu"]
  const UtilityFields: seq<string> := [
    "MAIN-A_VOLT", "MAIN-A_AMPS", "MAIN-A_WATT", "MAIN-A_WHRS", "MAIN-A_PZPF",
    "MAIN-B_VOLT", "MAIN-B_AMPS", "MAIN-B_WATT", "MAIN-B_WHRS", "MAIN-B_PZPF", "T_cpu"]

  // ---------------------------------------------------------------------
  // Port discovery

  /** The probe `find_port` sends: `read_registers(1, 2, 4)`, the current registers. */
  function Probe(slave: nat, port: Port): Request
  {
    Request(port, slave, 1, 2, 4)
  }

  /** One probe per port, in order. */
  function Probes(slave: nat, ports: seq<Port>): (reqs: seq<Request>)
    ensures |reqs| == |ports| && forall i :: 0 <= i < |ports| ==> reqs[i] == Probe(slave, ports[i])
  {
    seq(|ports|, i requires 0 <= i < |ports| => Probe(slave, ports[i]))
  }

  lemma ProbesStep(slave: nat, ports: seq<Port>, i: nat)
    requires i < |ports|
    ensures Probes(slave, ports[..i + 1]) == Probes(slave, ports[..i]) + [Probe(slave, ports[i])]
  {
    assert ports[..i + 1] == ports[..i] + [ports[i]];
  }

  /** What `find_port` returns, and how many candidates it probed. */
  datatype Search = Search(found: Option<Port>, probes: nat)

  /** `find_port` over the candidate list, its first probe being the `from`-th read on the line. */
  function FindPortSpec(script: seq<Reply>, from: nat, ports: seq<Port>): (r: Search)
    ensures r.probes <= |ports| && (|ports| > 0 ==> r.probes >= 1)
    ensures r.found.None? ==> r.probes == |ports|
    ensures r.found.Some? ==> 1 <= r.probes && r.found.value == ports[r.probes - 1]
  {
    var a := Attempts(script, from, 2, |ports|);
    Search(if a.data.Some? then Some(ports[a.calls - 1]) else None, a.calls)
  }

  /**
   * `find_port` returns the first candidate, in list order, whose probe
   * succeeds, after probing exactly the candidates up to it; when no probe
   * succeeds it probes every candidate and returns None.
   */
  lemma FindPortFirstSuccess(script: seq<Reply>, from: nat, ports: seq<Port>)
    ensures var r := FindPortSpec(script, from, ports);
            (forall k :: from <= k < from + r.probes - 1 ==> AnswerAt(script, k, 2).None?)
            && (r.found.Some? <==> r.probes >= 1 && AnswerAt(script, from + r.probes - 1, 2).Some?)
            && (r.found.Some? ==> r.found.value == ports[r.probes - 1])
            && (r.found.None? ==> forall k :: from <= k < from + |ports| ==> AnswerAt(script, k, 2).None?)
  {
    AttemptsStopAtFirstSuccess(script, from, 2, |ports|);
  }

  /**
   * With the candidate list of pzem.py: a meter answering only on the second
   * candidate is found there, after two probes; the third is never probed.
   */
  lemma FindPortSecondCandidate(script: seq<Reply>, from: nat)
    requires AnswerAt(script, from, 2).None? && AnswerAt(script, from + 1, 2).Some?
    ensures FindPortSpec(script, from, UsbPorts) == Search(Some("/dev/ttyUSB1"), 2)
  {
    AttemptsFindsFirstSuccess(script, from, 2, |UsbPorts|, from + 1);
  }

  /** The three searches `set_RPi_ports` makes; one that is never made is `Search(None, 0)`. */
  datatype Setup = Setup(a: Search, b: Search, g: Search)

  const NotSearched: Search := Search(None, 0)

  /**
   * `set_RPi_ports`, its first probe being the `from`-th read on the line:
   * main A, main B and the generator are searched for in that order over
   * the three candidate ports, and the first meter not found ends the search.
   */
  function SetPortsSpec(script: seq<Reply>, from: nat): (r: Setup)
    ensures Bounded(r) && r.a.probes >= 1
    ensures r.b.probes >= 1 <==> r.a.found.Some?
    ensures r.g.probes >= 1 <==> r.a.found.Some? && r.b.found.Some?
  {
    var a := FindPortSpec(script, from, UsbPorts);
    if a.found.None? then Setup(a, NotSearched, NotSearched)
    else
      var b := FindPortSpec(script, from + a.probes, UsbPorts);
      if b.found.None? then Setup(a, b, NotSearched)
      else Setup(a, b, FindPortSpec(script, from + a.probes + b.probes, UsbPorts))
  }

  /** The message `set_RPi_ports` exits with: the first meter not found, if any. */
  function ExitMessage(r: Setup): (exit: Option<string>)
    ensures exit.None? <==> r.a.found.Some? && r.b.found.Some? && r.g.found.Some?
  {
    if r.a.found.None? then Some(MainAMissing)
    else if r.b.found.None? then Some(MainBMissing)
    else if r.g.found.None? then Some(GenMissing)
    else None
  }

  /** Each search probes at most the three candidates. */
  predicate Bounded(r: Setup)
  {
    r.a.probes <= |UsbPorts| && r.b.probes <= |UsbPorts| && r.g.probes <= |UsbPorts|
  }

  /** The number of probes `set_RPi_ports` sends. */
  function TotalProbes(r: Setup): nat
  {
    r.a.probes + r.b.probes + r.g.probes
  }

  /** The read log after `set_RPi_ports`: main A's probes, then main B's, then the generator's. */
  function ProbeLog(log: seq<Request>, r: Setup): (l: seq<Request>)
    requires Bounded(r)
    ensures |l| == |log| + TotalProbes(r)
  {
    log + Probes(MainASlave, UsbPorts[..r.a.probes]) + Probes(MainBSlave, UsbPorts[..r.b.probes])
    + Probes(GenSlave, UsbPorts[..r.g.probes])
  }

  /**
   * A missing meter is reported by its own message, and the meters after it
   * are not probed.
   */
  lemma SetPortsStopsAtMissing(script: seq<Reply>, from: nat)
    ensures var r := SetPortsSpec(script, from);
            (r.a.found.None? ==> ExitMessage(r) == Some(MainAMissing) && r.b.probes == 0 && r.g.probes == 0)
            && (r.a.found.Some? && r.b.found.None? ==> ExitMessage(r) == Some(MainBMissing) && r.g.probes == 0)
            && (r.a.found.Some? && r.b.found.Some? && r.g.found.None? ==> ExitMessage(r) == Some(GenMissing))
  {
  }

  /**
   * When start-up succeeds, each meter is bound to a candidate port on which
   * its probe was answered, after at most nine probes in all.
   */
  lemma SetPortsBindsAnsweringPorts(script: seq<Reply>, from: nat)
    requires ExitMessage(SetPortsSpec(script, from)).None?
    ensures var r := SetPortsSpec(script, from);
            AnswerAt(script, from + r.a.probes - 1, 2).Some?
            && AnswerAt(script, from + r.a.probes + r.b.probes - 1, 2).Some?
            && AnswerAt(script, from + r.a.probes + r.b.probes + r.g.probes - 1, 2).Some?
            && r.a.probes + r.b.probes + r.g.probes <= 9
  {
    var r := SetPortsSpec(script, from);
    FindPortFirstSuccess(script, from, UsbPorts);
    FindPortFirstSuccess(script, from + r.a.probes, UsbPorts);
    FindPortFirstSuccess(script, from + r.a.probes + r.b.probes, UsbPorts);
  }

  // ---------------------------------------------------------------------
  // Source selection

  /**
   * The mode `test_if_using_gen` picks from the generator probe: generator
   * iff the read succeeded and the current exceeds 0.3 A, that is, in
   * register terms, iff the high word of the current is non-zero or the low
   * word exceeds 300.
   */
  function GenMode(probe: Option<Block>): (g: bool)
    requires probe.Some? ==> |probe.value| == 2
    ensures g <==> probe.Some? && (probe.value[1] > 0 || probe.value[0] > GenThresholdMilliamps)
  {
    if probe.Some? then
      ShiftFormMatchesProductForm(probe.value[0], probe.value[1]);
      Combine(probe.value[0], probe.value[1]) > GenThresholdMilliamps
    else false
  }

  // ---------------------------------------------------------------------
  // One polling cycle

  /** The five entries `read_meter` emits for one meter: V, A, W, Wh, PF; the frequency is dropped. */
  function Emit(m: Measurement): (vs: seq<Value>)
    ensures |vs| == 5
  {
    [Value(m.voltage, 1), Value(m.current, 3), Value(m.power, 1), Value(m.energy, 0), Value(m.powerFactor, 2)]
  }

  /** The read `read_meter` sends each meter: `read_registers(0, 9, 4)`, registers 0 to 8. */
  function MeterRead(slave: nat, port: Port): Request
  {
    Request(port, slave, 0, 9, 4)
  }

  /** The CPU temperature entry, in tenths of a degree. */
  function TempValue(tcpu: int): Value
  {
    Value(tcpu, 1)
  }

  /** What `read_meter` returns (None when a meter read fails) and the reads it issues, in order. */
  datatype Cycle = Cycle(batch: Option<seq<Value>>, issued: seq<Request>)

  /**
   * `read_meter` for the mode, the meters' ports and the CPU temperature,
   * its first read being the `from`-th on the line: 6 entries in generator
   * mode, 11 in utility mode, the temperature last.
   */
  function ReadMeterSpec(usingGen: bool, script: seq<Reply>, from: nat, portA: Port, portB: Port, portG: Port, tcpu: int)
    : (r: Cycle)
    ensures r.batch.Some? ==> |r.batch.value| == |Fields(usingGen)|
    ensures r.batch.Some? ==> r.batch.value[|r.batch.value| - 1] == TempValue(tcpu)
  {
    if usingGen then
      var g := Attempts(script, from, 9, ReadTries);
      Cycle(if g.data.Some? then Some(Emit(Decode(g.data.value)) + [TempValue(tcpu)]) else None,
            Repeat(MeterRead(GenSlave, portG), g.calls))
    else
      var a := Attempts(script, from, 9, ReadTries);
      if a.data.None? then Cycle(None, Repeat(MeterRead(MainASlave, portA), a.calls))
      else
        var b := Attempts(script, from + a.calls, 9, ReadTries);
        Cycle(if b.data.Some? then Some(Emit(Decode(a.data.value)) + Emit(Decode(b.data.value)) + [TempValue(tcpu)])
              else None,
              Repeat(MeterRead(MainASlave, portA), a.calls) + Repeat(MeterRead(MainBSlave, portB), b.calls))
  }

  /**
   * Each meter is read at most three times per cycle, and only the meters
   * of the current mode are read: the generator alone in generator mode;
   * in utility mode main A's reads first and then main B's.
   */
  lemma ReadMeterReads(usingGen: bool, script: seq<Reply>, from: nat, portA: Port, portB: Port, portG: Port, tcpu: int)
    ensures var r := ReadMeterSpec(usingGen, script, from, portA, portB, portG, tcpu);
            |r.issued| <= (if usingGen then ReadTries else 2 * ReadTries)
            && (usingGen ==> forall i :: 0 <= i < |r.issued| ==> r.issued[i] == MeterRead(GenSlave, portG))
            && (!usingGen ==> forall i :: 0 <= i < |r.issued| ==>
                  r.issued[i] in {MeterRead(MainASlave, portA), MeterRead(MainBSlave, portB)})
    ensures var r := ReadMeterSpec(usingGen, script, from, portA, portB, portG, tcpu);
            usingGen ==> exists k: nat :: k <= ReadTries && r.issued == Repeat(MeterRead(GenSlave, portG), k)
    ensures var r := ReadMeterSpec(usingGen, script, from, portA, portB, portG, tcpu);
            !usingGen ==> exists ka: nat, kb: nat :: ka <= ReadTries && kb <= ReadTries
                                         && r.issued == Repeat(MeterRead(MainASlave, portA), ka) + Repeat(MeterRead(MainBSlave, portB), kb)
  {
    var r := ReadMeterSpec(usingGen, script, from, portA, portB, portG, tcpu);
    var a := Attempts(script, from, 9, ReadTries);
    var ma, mb := MeterRead(MainASlave, portA), MeterRead(MainBSlave, portB);
    if usingGen {
      assert r.issued == Repeat(MeterRead(GenSlave, portG), a.calls);
    } else if a.data.None? {
      assert Repeat(mb, 0) == [];
      assert r.issued == Repeat(ma, a.calls) + Repeat(mb, 0);
    } else {
      var b := Attempts(script, from + a.calls, 9, ReadTries);
      assert r.issued == Repeat(ma, a.calls) + Repeat(mb, b.calls);
    }
  }

  /**
   * Utility mode is all or nothing: a batch exists iff the main-A read and
   * then the main-B read both succeed, and it starts with main A's five
   * entries. When all three main-A tries fail, nothing is returned and
   * main B is not read at all.
   */
  lemma ReadMeterUtilityAllOrNothing(script: seq<Reply>, from: nat, portA: Port, portB: Port, portG: Port, tcpu: int)
    ensures var r := ReadMeterSpec(false, script, from, portA, portB, portG, tcpu);
            var a := Attempts(script, from, 9, ReadTries);
            (r.batch.Some? <==> a.data.Some? && Attempts(script, from + a.calls, 9, ReadTries).data.Some?)
            && (r.batch.Some? ==> r.batch.value[..5] == Emit(Decode(a.data.value)))
    ensures (forall k :: from <= k < from + ReadTries ==> AnswerAt(script, k, 9).None?) ==>
            ReadMeterSpec(false, script, from, portA, portB, portG, tcpu)
            == Cycle(None, [MeterRead(MainASlave, portA), MeterRead(MainASlave, portA), MeterRead(MainASlave, portA)])
  {
    var a := Attempts(script, from, 9, ReadTries);
    if a.data.Some? {
      var b := Attempts(script, from + a.calls, 9, ReadTries);
      if b.data.Some? {
        var ea := Emit(Decode(a.data.value));
        assert (ea + Emit(Decode(b.data.value)) + [TempValue(tcpu)])[..5] == ea;
      }
    }
    if forall k :: from <= k < from + ReadTries ==> AnswerAt(script, k, 9).None? {
      AttemptsStopAtFirstSuccess(script, from, 9, ReadTries);
      var m := MeterRead(MainASlave, portA);
      assert Repeat(m, 3) == [m, m, m];
    }
  }

  /**
   * Bounded retry as `read_meter` sees it: a meter that fails twice and then
   * answers yields its decoded registers after exactly three reads; three
   * failures yield no batch.
   */
  lemma ReadMeterRetries(script: seq<Reply>, from: nat, portA: Port, portB: Port, portG: Port, tcpu: int, b: Block)
    requires |b| == 9
    requires AnswerAt(script, from, 9).None? && AnswerAt(script, from + 1, 9).None?
    ensures AnswerAt(script, from + 2, 9) == Some(b) ==>
            ReadMeterSpec(true, script, from, portA, portB, portG, tcpu)
            == Cycle(Some(Emit(Decode(b)) + [TempValue(tcpu)]), Repeat(MeterRead(GenSlave, portG), 3))
    ensures AnswerAt(script, from + 2, 9).None? ==>
            ReadMeterSpec(true, script, from, portA, portB, portG, tcpu).batch.None?
  {
    if AnswerAt(script, from + 2, 9) == Some(b) {
      AttemptsFindsFirstSuccess(script, from, 9, ReadTries, from + 2);
    } else {
      AttemptsStopAtFirstSuccess(script, from, 9, ReadTries);
    }
  }

  /** The field names `post_data` uses for the mode. */
  function Fields(usingGen: bool): (fs: seq<string>)
    ensures |fs| == if usingGen then 6 else 11
    ensures fs[|fs| - 1] == "T_cpu"
  {
    if usingGen then GenFields else UtilityFields
  }

  /** The text of each entry. */
  function Texts(vs: seq<Value>): (ts: seq<string>)
    ensures |ts| == |vs| && forall i :: 0 <= i < |vs| ==> ts[i] == Render(vs[i])
  {
    seq(|vs|, i requires 0 <= i < |vs| => Render(vs[i]))
  }

  /** The body `post_data` posts (None: nothing is posted) and the reads it issues. */
  datatype Post = Post(body: Option<string>, issued: seq<Request>)

  /**
   * `post_data` against the line: it reads only through `read_meter`, posts
   * exactly when `read_meter` returns a batch, and a posted body has one
   * `ALL_SENSORS <field>=` line per field of the mode and no other line.
   */
  function PostDataSpec(usingGen: bool, script: seq<Reply>, from: nat, portA: Port, portB: Port, portG: Port, tcpu: int)
    : (p: Post)
    ensures p.issued == ReadMeterSpec(usingGen, script, from, portA, portB, portG, tcpu).issued
    ensures p.body.Some? <==> ReadMeterSpec(usingGen, script, from, portA, portB, portG, tcpu).batch.Some?
    ensures p.body.Some? ==> PostedFor(p.body.value, Fields(usingGen))
    ensures |p.issued| <= 2 * ReadTries
  {
    var r := ReadMeterSpec(usingGen, script, from, portA, portB, portG, tcpu);
    ReadMeterReads(usingGen, script, from, portA, portB, portG, tcpu);
    if r.batch.Some? then
      FieldsHaveNoNewline(usingGen);
      BatchBody(Fields(usingGen), r.batch.value);
      Post(Some(Body(Fields(usingGen), Texts(r.batch.value))), r.issued)
    else Post(None, r.issued)
  }

  /** No field name holds a newline. */
  lemma FieldsHaveNoNewline(usingGen: bool)
    ensures forall i :: 0 <= i < |Fields(usingGen)| ==> '\n' !in Fields(usingGen)[i]
  {
  }

  /** The body has one line per field, the j-th line starting `ALL_SENSORS <fields[j]>=`. */
  predicate PostedFor(body: string, fields: seq<string>)
  {
    var lines := SplitLines(body);
    |lines| == |fields|
    && forall j :: 0 <= j < |fields| ==> MeasurementName + " " + fields[j] + "=" <= lines[j]
  }

  /**
   * A posted body has exactly one line `ALL_SENSORS <field>=<value>` per
   * field of the current mode, the j-th field with the j-th entry of the
   * batch, and no other line; nothing is posted when `read_meter` returns
   * nothing.
   */
  lemma PostDataLines(usingGen: bool, script: seq<Reply>, from: nat, portA: Port, portB: Port, portG: Port, tcpu: int)
    ensures var p := PostDataSpec(usingGen, script, from, portA, portB, portG, tcpu);
            var r := ReadMeterSpec(usingGen, script, from, portA, portB, portG, tcpu);
            p.issued == r.issued
            && (p.body.Some? <==> r.batch.Some?)
            && (p.body.Some? ==>
                  var lines := SplitLines(p.body.value);
                  |lines| == |Fields(usingGen)|
                  && (forall j :: 0 <= j < |lines| ==>
                        lines[j] == MeasurementName + " " + Fields(usingGen)[j] + "=" + Render(r.batch.value[j]))
                  && PostedFor(p.body.value, Fields(usingGen)))
  {
    var r := ReadMeterSpec(usingGen, script, from, portA, portB, portG, tcpu);
    if r.batch.Some? {
      FieldsHaveNoNewline(usingGen);
      BatchBody(Fields(usingGen), r.batch.value);
    }
  }

  /** The body for a batch: one line `ALL_SENSORS <field>=<entry>` per field, in order. */
  lemma BatchBody(fs: seq<string>, vs: seq<Value>)
    requires |fs| == |vs| >= 1 && forall i :: 0 <= i < |fs| ==> '\n' !in fs[i]
    ensures var lines := SplitLines(Body(fs, Texts(vs)));
            |lines| == |fs|
            && (forall j :: 0 <= j < |fs| ==> lines[j] == MeasurementName + " " + fs[j] + "=" + Render(vs[j]))
            && PostedFor(Body(fs, Texts(vs)), fs)
  {
    var ts := Texts(vs);
    forall i | 0 <= i < |ts|
      ensures '\n' !in ts[i]
    {
      RenderIsNumeral(vs[i]);
    }
    assert NoNewlines(fs, ts);
    var lines := SplitLines(Body(fs, ts));
    forall j | 0 <= j < |fs|
      ensures MeasurementName + " " + fs[j] + "=" <= lines[j]
    {
      assert lines[j] == (MeasurementName + " " + fs[j] + "=") + ts[j];
    }
  }

  /** What the polling loop posted, cycle by cycle, and the log of the line once it is done. */
  datatype Polled = Polled(posted: seq<Option<string>>, log: seq<Request>)

  /**
   * Successive cycles, one per CPU temperature, on a line whose log so far is
   * `log` and after the bodies `posted`: each cycle's first read is the next
   * one on the line, so each cycle starts where the previous one stopped.
   * `cycle(at, t)` is a cycle whose first read is the `at`-th, with
   * temperature `t`.
   */
  function Polling(cycle: (nat, int) -> Post, log: seq<Request>, posted: seq<Option<string>>, temps: seq<int>): (r: Polled)
    ensures |r.posted| == |posted| + |temps|
    decreases |temps|
  {
    if temps == [] then Polled(posted, log)
    else
      var p := cycle(|log|, temps[0]);
      Polling(cycle, log + p.issued, posted + [p.body], temps[1..])
  }

  /** The cycle of the polling loop of `main`: one `post_data` with the meters' ports. */
  function PostCycle(usingGen: bool, script: seq<Reply>, portA: Port, portB: Port, portG: Port): (nat, int) -> Post
  {
    (at: nat, t: int) => PostDataSpec(usingGen, script, at, portA, portB, portG, t)
  }

  /** The `c`-th cycle runs on the line as the earlier ones left it, and its body is posted next. */
  lemma PollingStep(cycle: (nat, int) -> Post, log: seq<Request>, posted: seq<Option<string>>, temps: seq<int>, c: nat)
    requires c < |temps|
    ensures var p := cycle(|log|, temps[c]);
            Polling(cycle, log, posted, temps[c..]) == Polling(cycle, log + p.issued, posted + [p.body], temps[c + 1..])
  {
    assert temps[c..][1..] == temps[c + 1..];
  }

  /** When every cycle posts only bodies for the given fields, so does the whole loop. */
  lemma {:induction false} PollingPosts(cycle: (nat, int) -> Post, log: seq<Request>, posted: seq<Option<string>>, temps: seq<int>, fields: seq<string>)
    requires forall at, t :: cycle(at, t).body.Some? ==> PostedFor(cycle(at, t).body.value, fields)
    requires forall i :: 0 <= i < |posted| && posted[i].Some? ==> PostedFor(posted[i].value, fields)
    ensures var r := Polling(cycle, log, posted, temps);
            forall i :: 0 <= i < |r.posted| && r.posted[i].Some? ==> PostedFor(r.posted[i].value, fields)
    decreases |temps|
  {
    if temps != [] {
      var at: nat, t := |log|, temps[0];
      assert cycle(at, t).body.Some? ==> PostedFor(cycle(at, t).body.value, fields);
      var p := cycle(at, t);
      var more := posted + [p.body];
      forall i | 0 <= i < |more| && more[i].Some?
        ensures PostedFor(more[i].value, fields)
      {
        if i < |posted| {
          assert more[i] == posted[i];
        } else {
          assert more[i] == p.body;
        }
      }
      PollingPosts(cycle, log + p.issued, more, temps[1..], fields);
      assert var r := Polling(cycle, log + p.issued, more, temps[1..]);
             forall i :: 0 <= i < |r.posted| && r.posted[i].Some? ==> PostedFor(r.posted[i].value, fields);
      assert Polling(cycle, log, posted, temps) == Polling(cycle, log + p.issued, more, temps[1..]);
    }
  }

  /** Every body the polling loop of `main` posts carries the field set of the one mode. */
  lemma PollPostsForMode(usingGen: bool, script: seq<Reply>, log: seq<Request>, portA: Port, portB: Port, portG: Port, temps: seq<int>)
    ensures var r := Polling(PostCycle(usingGen, script, portA, portB, portG), log, [], temps);
            forall i :: 0 <= i < |temps| && r.posted[i].Some? ==> PostedFor(r.posted[i].value, Fields(usingGen))
  {
    PollingPosts(PostCycle(usingGen, script, portA, portB, portG), log, [], temps, Fields(usingGen));
  }

  // ---------------------------------------------------------------------
  // The program state

  /** The three module-level instruments of pzem.py and its `usingGen` flag. */
  class Meters {
    const bus: Bus
    const mainA: Instrument
    const mainB: Instrument
    const gen: Instrument
    /** True: generator power; false: utility power. */
    var usingGen: bool

    ghost predicate Valid()
    {
      mainA.bus == bus && mainB.bus == bus && gen.bus == bus
      && mainA != mainB && mainA != gen && mainB != gen
      && mainA.slave == MainASlave && mainB.slave == MainBSlave && gen.slave == GenSlave
    }

    /** The module-level initialisation: the instruments on their first ports, generator mode. */
    constructor (bus: Bus)
      ensures Valid() && this.bus == bus && usingGen
      ensures fresh(mainA) && fresh(mainB) && fresh(gen)
      ensures mainA.serial == Serial(UsbPorts[1], None, None)
      ensures mainB.serial == Serial(UsbPorts[2], None, None)
      ensures gen.serial == Serial(UsbPorts[0], None, None)
    {
      this.bus := bus;
      mainA := new Instrument(UsbPorts[1], MainASlave, bus);
      mainB := new Instrument(UsbPorts[2], MainBSlave, bus);
      gen := new Instrument(UsbPorts[0], GenSlave, bus);
      usingGen := true;
    }

    /**
     * `set_RPi_ports`: configures and locates main A, main B and the
     * generator, in that order; a meter it does not reach is left as it was.
     */
    method SetRPiPorts() returns (exit: Option<string>)
      requires Valid()
      modifies mainA, mainB, gen, bus
      ensures Valid()
      ensures exit == ExitMessage(SetPortsSpec(bus.script, |old(bus.log)|))
      ensures bus.log == ProbeLog(old(bus.log), SetPortsSpec(bus.script, |old(bus.log)|))
      ensures mainA.serial == Settled(SetPortsSpec(bus.script, |old(bus.log)|).a, old(mainA.serial))
      ensures mainB.serial == Settled(SetPortsSpec(bus.script, |old(bus.log)|).b, old(mainB.serial))
      ensures gen.serial == Settled(SetPortsSpec(bus.script, |old(bus.log)|).g, old(gen.serial))
    {
      ghost var r := SetPortsSpec(bus.script, |bus.log|);
      var p, search := Locate(mainA);
      assert search == r.a;
      if p.None? {
        exit := Some(MainAMissing);
      } else {
        p, search := Locate(mainB);
        assert search == r.b;
        if p.None? {
          exit := Some(MainBMissing);
        } else {
          p, search := Locate(gen);
          assert search == r.g;
          if p.None? {
            exit := Some(GenMissing);
          } else {
            exit := None;
          }
        }
      }
    }

    /** `test_if_using_gen`: forces utility mode, then generator mode iff the generator's current probe reads above 0.3 A. */
    method TestIfUsingGen() returns (result: bool)
      requires Valid()
      modifies this, bus
      ensures Valid()
      ensures usingGen == GenMode(AnswerAt(bus.script, |old(bus.log)|, 2)) && result == usingGen
      ensures bus.log == old(bus.log) + [Probe(GenSlave, gen.serial.port)]
    {
      usingGen := false;
      var data := gen.ReadRegisters(1, 2, 4);
      if data.Some? {
        var d := Combine(data.value[0], data.value[1]);
        if d > GenThresholdMilliamps {
          usingGen := true;
        }
      }
      result := usingGen;
    }

    /** `read_meter`: the batch for the current mode, with the CPU temperature appended. */
    method ReadMeter(tcpu: int) returns (data: Option<seq<Value>>)
      requires Valid()
      modifies bus
      ensures var r := ReadMeterSpec(usingGen, bus.script, |old(bus.log)|, mainA.serial.port, mainB.serial.port, gen.serial.port, tcpu);
              data == r.batch && bus.log == old(bus.log) + r.issued
    {
      if usingGen {
        var block := gen.ReadRetrying(0, 9, 4, ReadTries);
        if block.Some? {
          return Some(Emit(Decode(block.value)) + [TempValue(tcpu)]);
        }
        return None;
      } else {
        var blockA := mainA.ReadRetrying(0, 9, 4, ReadTries);
        if blockA.None? {
          return None;
        }
        var blockB := mainB.ReadRetrying(0, 9, 4, ReadTries);
        if blockB.Some? {
          return Some(Emit(Decode(blockA.value)) + Emit(Decode(blockB.value)) + [TempValue(tcpu)]);
        }
        return None;
      }
    }

    /**
     * `post_data` without the HTTP request: the body it posts, built one line
     * per field, or None when `read_meter` returned nothing.
     */
    method PostData(tcpu: int) returns (posted: Option<string>)
      requires Valid()
      modifies bus
      ensures var p := PostDataSpec(usingGen, bus.script, |old(bus.log)|, mainA.serial.port, mainB.serial.port, gen.serial.port, tcpu);
              posted == p.body && bus.log == old(bus.log) + p.issued
    {
      var field := if usingGen then GenFields else UtilityFields;
      var data := ReadMeter(tcpu);
      posted := None;
      if data.Some? {
        var pData := FormatBody(field, data.value);
        posted := Some(pData);
      }
    }

    /**
     * The polling loop of `main` after start-up, one cycle per CPU
     * temperature reading: the mode never changes, so every body posted
     * carries the field set of that one mode.
     */
    method Poll(temps: seq<int>) returns (posted: seq<Option<string>>)
      requires Valid()
      modifies bus
      ensures usingGen == old(usingGen) && |posted| == |temps|
      ensures var s := Polling(PostCycle(usingGen, bus.script, mainA.serial.port, mainB.serial.port, gen.serial.port), old(bus.log), [], temps);
              posted == s.posted && bus.log == s.log
      ensures forall i :: 0 <= i < |posted| && posted[i].Some? ==> PostedFor(posted[i].value, Fields(usingGen))
    {
      ghost var start := bus.log;
      ghost var portA, portB, portG := mainA.serial.port, mainB.serial.port, gen.serial.port;
      ghost var cycle := PostCycle(usingGen, bus.script, portA, portB, portG);
      posted := [];
      for c := 0 to |temps|
        invariant Polling(cycle, bus.log, posted, temps[c..]) == Polling(cycle, start, [], temps)
      {
        ghost var before := bus.log;
        var body := PostData(temps[c]);
        PollingStep(cycle, before, posted, temps, c);
        posted := posted + [body];
      }
      assert temps[|temps|..] == [];
      PollPostsForMode(usingGen, bus.script, start, portA, portB, portG, temps);
    }

    /** `main` up to its polling loop: port discovery, then the mode; an exit message stops it. */
    method Startup() returns (exit: Option<string>)
      requires Valid()
      modifies this, mainA, mainB, gen, bus
      ensures Valid()
      ensures exit == ExitMessage(SetPortsSpec(bus.script, |old(bus.log)|))
      ensures exit.Some? ==>
                usingGen == old(usingGen) && bus.log == ProbeLog(old(bus.log), SetPortsSpec(bus.script, |old(bus.log)|))
      ensures mainA.serial == Settled(SetPortsSpec(bus.script, |old(bus.log)|).a, old(mainA.serial))
      ensures mainB.serial == Settled(SetPortsSpec(bus.script, |old(bus.log)|).b, old(mainB.serial))
      ensures gen.serial == Settled(SetPortsSpec(bus.script, |old(bus.log)|).g, old(gen.serial))
      ensures exit.None? ==>
                bus.log == ProbeLog(old(bus.log), SetPortsSpec(bus.script, |old(bus.log)|)) + [Probe(GenSlave, gen.serial.port)]
                && usingGen == GenMode(AnswerAt(bus.script, |old(bus.log)| + TotalProbes(SetPortsSpec(bus.script, |old(bus.log)|)), 2))
    {
      ghost var r := SetPortsSpec(bus.script, |bus.log|);
      exit := SetRPiPorts();
      ghost var settled := (mainA.serial, mainB.serial, gen.serial);
      assert settled == (Settled(r.a, old(mainA.serial)), Settled(r.b, old(mainB.serial)), Settled(r.g, old(gen.serial)));
      if exit.None? {
        var _ := TestIfUsingGen();
      }
    }
  }

  /**
   * A meter's serial settings after its stanza of `set_RPi_ports`: when it
   * was searched for, 9600 baud, 0.2 s and the last port probed (the port
   * found, or the last candidate when none answered); otherwise unchanged.
   */
  function Settled(search: Search, before: Serial): (after: Serial)
    requires search.probes <= |UsbPorts|
    ensures search.probes >= 1 ==> after.port in UsbPorts
  {
    if search.probes == 0 then before else Serial(UsbPorts[search.probes - 1], Some(Baudrate), Some(TimeoutMs))
  }

  /**
   * The loop of `post_data` that formats the batch: one
   * `ALL_SENSORS <field>=<entry>` line per field, joined with newlines.
   */
  method FormatBody(field: seq<string>, data: seq<Value>) returns (pData: string)
    requires |field| == |data|
    ensures pData == Body(field, Texts(data))
  {
    var pzemData: seq<string> := [];
    for i := 0 to |field|
      invariant |pzemData| == i
      invariant forall j :: 0 <= j < i ==> pzemData[j] == Line(field[j], Render(data[j]))
    {
      pzemData := pzemData + [Line(field[i], Render(data[i]))];
    }
    JoinedIsBody(field, data, pzemData);
    pData := Join(pzemData);
  }

  /** The lines FormatBody builds, joined, are the body. */
  lemma JoinedIsBody(fields: seq<string>, data: seq<Value>, lines: seq<string>)
    requires |fields| == |data| == |lines|
    requires forall j :: 0 <= j < |lines| ==> lines[j] == Line(fields[j], Render(data[j]))
    ensures Join(lines) == Body(fields, Texts(data))
  {
    assert lines == Lines(fields, Texts(data));
  }

  /**
   * One stanza of `set_RPi_ports`: the meter is set to 9600 baud and 0.2 s,
   * searched for with `find_port`, and bound to the port found. (In the
   * source the binding follows the exit check; a meter not found ends the
   * program, so the order makes no difference.)
   */
  method Locate(meter: Instrument) returns (found: Option<Port>, ghost search: Search)
    modifies meter, meter.bus
    ensures search == FindPortSpec(meter.bus.script, |old(meter.bus.log)|, UsbPorts) && found == search.found
    ensures meter.bus.log == old(meter.bus.log) + Probes(meter.slave, UsbPorts[..search.probes])
    ensures meter.serial == Settled(search, old(meter.serial))
  {
    search := FindPortSpec(meter.bus.script, |meter.bus.log|, UsbPorts);
    meter.serial := meter.serial.(baudrate := Some(Baudrate));
    meter.serial := meter.serial.(timeoutMs := Some(TimeoutMs));
    found := FindPort(meter, UsbPorts);
    if found.Some? {
      meter.serial := meter.serial.(port := found.value);
    }
  }

  /**
   * `find_port`: binds each candidate port to the meter in turn and probes
   * it; returns the first port that answers, else None with the meter left
   * on the last candidate.
   */
  method FindPort(meter: Instrument, ports: seq<Port>) returns (found: Option<Port>)
    modifies meter, meter.bus
    ensures var r := FindPortSpec(meter.bus.script, |old(meter.bus.log)|, ports);
            found == r.found
            && meter.bus.log == old(meter.bus.log) + Probes(meter.slave, ports[..r.probes])
            && meter.serial == old(meter.serial).(port := if r.probes == 0 then old(meter.serial.port) else ports[r.probes - 1])
  {
    ghost var from := |meter.bus.log|;
    var i := 0;
    while i < |ports|
      invariant 0 <= i <= |ports|
      invariant meter.bus.log == old(meter.bus.log) + Probes(meter.slave, ports[..i])
      invariant meter.serial == old(meter.serial).(port := if i == 0 then old(meter.serial.port) else ports[i - 1])
      invariant forall k :: from <= k < from + i ==> AnswerAt(meter.bus.script, k, 2).None?
    {
      meter.serial := meter.serial.(port := ports[i]);
      var data := meter.ReadRegisters(1, 2, 4);
      ProbesStep(meter.slave, ports, i);
      if data.Some? {
        AttemptsFindsFirstSuccess(meter.bus.script, from, 2, |ports|, from + i);
        return Some(ports[i]);
      }
      i := i + 1;
    }
    AttemptsExhausted(meter.bus.script, from, 2, |ports|);
    return None;
  }
}
