# House power monitor: a Dafny model of its acquisition and selection core

The monitor watches a house supplied either by the utility company or by a
portable generator. Three PZEM-016 energy meters sit behind USB serial
adapters on a Raspberry Pi: main phase A (Modbus slave 4), main phase B
(slave 5) and the generator (slave 6). At start-up `pzem.py` does two things.
First, it finds which adapter each meter answers on, trying
`/dev/ttyUSB0..2` in order and exiting with a message when a meter cannot be
reached. Then it decides once whether the house runs on the generator:
the generator draws more than 0.3 A. In every polling cycle it reads the
meters of that mode, up to three tries each. It then posts one InfluxDB
line-protocol body, `ALL_SENSORS <field>=<value>` per line. The `pzem`
driver class of `pzemTest.py` reads the same register map: a ten-register
`getData` with five tries, the two-word reads `getCurrent`, `getPower` and
`getEnergy`, and `getAlarmStatus`.

The project is organised as follows:

- `registers.dfy` (module `Registers`) holds the input-register map. Every
  quantity stays an integer in its register unit: decivolts, milliamps,
  deciwatts, Wh, decihertz and hundredths of power factor. The module covers
  the `low + (high << 16)` combination, its inverse, the decode of a block,
  and the two alarm tests.
- `modbus.dfy` (module `Modbus`) models the Modbus client as a serial line
  (`Bus`) that holds the replies its reads will meet, fixed in advance.
  - The k-th read ever issued meets the k-th reply.
  - A missing reply, or one of the wrong length, is the exception the
    client raises.
  - The line logs every request: port, slave, start register, count and
    function code.
  - `Instrument` is a `minimalmodbus.Instrument`: a fixed slave, and serial
    settings the program reassigns. `Attempts` specifies a bounded retry
    that stops at the first success.
- `lineprotocol.dfy` (module `LineProtocol`) covers two things. One is the
  text a fixed-point value is printed as: digits, a point, trailing zeros
  dropped, and an integer when it has no places. The other is the body:
  lines joined by a single newline, and splitting it back into lines.
- `monitor.dfy` (module `Monitor`) covers `pzem.py`:
  - the class `Meters`, holding the three instruments and the `usingGen`
    flag;
  - `find_port`, `set_RPi_ports`, `test_if_using_gen`, `read_meter` and
    `post_data` without its HTTP request;
  - `main` up to its polling loop, and the polling loop over a finite list
    of CPU temperatures.
- `driver.dfy` (module `Driver`) covers the `pzem` class of `pzemTest.py`.
- `wrappers.dfy` holds `Option`.

Each imperative operation is a method proved against a specification
function over the scripted replies. Examples are `FindPortSpec`,
`SetPortsSpec`, `ReadMeterSpec`, `PostDataSpec` and `GetDataSpec`. The
properties the program relies on are lemmas about those functions.

The model follows the code where a looser reading of the program would
differ. Utility mode has no partial success: `read_meter` returns nothing
when main A fails, and main B is then not read; it also returns nothing when
main B fails. And the retry count is not uniform: `read_meter` makes three
tries per meter, `getData` five.

## Model

| member | source | states |
|---|---|---|
| Registers.Combine | pzem.py:155-157 | `low + (high << 16)` is below 2^32; taken mod 65536 it gives the low word back, and divided by 65536 the high word |
| Registers.ShiftLeft | pzem.py:155 | Python's `x << n` on a non-negative integer is `x` times 2^n |
| Registers.ShiftFormMatchesProductForm | pzemTest.py:55-57 | the `low + high*65536` form of pzemTest.py equals pzem.py's `<<16` form for every register pair |
| Registers.Split | pzem.py:26-31 | splitting a 32-bit quantity into its low and high registers recomposes it as `low + high*65536` |
| Registers.SplitCombine | pzem.py:26-31 | splitting a combined value gives back the two registers |
| Registers.CombineSplit | pzem.py:26-31 | combining the two halves of any 32-bit value gives the value back |
| Registers.CombineInjective | pzem.py:26-31 | distinct register pairs never combine to the same value |
| Registers.Decode | pzem.py:153-158 | voltage is reg0, frequency reg7 and PF reg8; current, power and energy are 32-bit values whose registers are (1,2), (3,4) and (5,6) |
| Registers.DecodeReadsNineRegisters | pzemTest.py:46-59 | the decode depends only on registers 0..8, so the ten-register block of `getData` decodes like its nine-register prefix |
| Registers.DecodeInjective | pzem.py:153-158 | two blocks decode alike only if their first nine registers agree: no register is lost |
| Registers.AlarmFlag | pzemTest.py:60 | the alarm entry is 1 iff register 9 is non-zero, else 0 |
| Registers.AlarmStatus | pzemTest.py:108 | the alarm status is 1 iff register 9 is 65535, else 0 |
| Registers.AlarmTestsAgree | pzem.py:34 | the two alarm tests agree exactly on the documented values 0x0000 and 0xFFFF |
| Modbus.AnswerAt | pzem.py:113 | a read succeeds iff its scripted reply exists and holds exactly the registers asked for; it then returns that many registers |
| Modbus.Bus.Read | pzem.py:113 | a read meets the reply at its position on the line, and is logged |
| Modbus.Attempts | pzem.py:146-151 | at most `limit` reads; a success comes after at least one read with the requested size; failure means all `limit` reads were made |
| Modbus.AttemptsStopAtFirstSuccess | pzem.py:146-151 | every read before the last failed; on success the result is the last read's registers; on failure every one of the reads failed |
| Modbus.AttemptsFindsFirstSuccess | pzem.py:146-151 | conversely, the first successful read within the limit is the one the retry stops at, after exactly that many reads |
| Modbus.AttemptsExhausted | pzem.py:146-152 | when all reads fail, the retry makes all of them and returns None instead of raising |
| Modbus.Instrument.constructor | pzem.py:71-73 | an instrument on its port and slave, with the library's default baud rate and timeout |
| Modbus.Instrument.ReadRegisters | pzem.py:113 | `read_registers(start, count, fc)` on the instrument's current port and slave: the reply at the line's position, one request logged |
| Modbus.Instrument.ReadRetrying | pzem.py:146-151 | the `for i in range(tries)` loop with `break`: returns what `Attempts` returns and logs exactly `calls` identical requests |
| LineProtocol.Render | pzem.py:222 | the text of a value is never empty and starts with `-` exactly when the value is negative |
| LineProtocol.RenderIsNumeral | pzem.py:222 | a formatted value is non-empty and made of digits, a sign and a point; it has a point iff it has decimal places, so it never holds a newline |
| LineProtocol.RenderReadBack | pzem.py:154-158 | for every value, negative ones included: the text is a `-` iff negative, the integer digits, then a point and the fraction digits iff it has places; reading the sign and digits back gives the same number |
| LineProtocol.MagnitudeReadBack | pzem.py:154-158 | the integer and fraction digits written for a non-negative quantity with decimal places read back as that quantity |
| LineProtocol.DigitsRoundTrip | pzem.py:157 | the decimal text of an integer reads back as that integer |
| LineProtocol.PaddedRoundTrip | pzem.py:154-158 | the zero-padded fraction digits read back as the remainder |
| LineProtocol.StripZerosScale | pzem.py:154-158 | dropping trailing zeros divides the denoted fraction by a power of ten |
| LineProtocol.Line | pzem.py:222 | a line starts with `ALL_SENSORS ` and holds no newline iff neither its field nor its text does |
| LineProtocol.Join | pzem.py:223 | joining no lines gives the empty text, one line gives that line, and more lines start with the first |
| LineProtocol.Lines | pzem.py:218-222 | one `ALL_SENSORS <field>=<text>` line per field, the i-th line with the i-th field and text |
| LineProtocol.SplitJoin | pzem.py:223 | newline-free lines joined with `'\n'` split back into exactly those lines |
| LineProtocol.Body | pzem.py:218-223 | for at least one field, and fields and texts free of newlines, splitting the body gives back exactly one `ALL_SENSORS <field>=<text>` line per field, in order: no trailing newline, no empty line |
| Monitor.Probes | pzem.py:110-113 | one probe `read_registers(1,2,4)` per candidate port, in order |
| Monitor.FindPortSpec | pzem.py:109-117 | at most one probe per candidate; None only after probing all of them; a port found is the candidate last probed |
| Monitor.FindPortFirstSuccess | pzem.py:109-117 | the port returned is the first candidate whose probe succeeds; every earlier probe failed; no later candidate is probed; None iff every probe failed |
| Monitor.FindPortSecondCandidate | pzem.py:65 | with `/dev/ttyUSB0..2`, a meter answering only on the second port is found there after exactly two probes |
| Monitor.SetPortsSpec | pzem.py:85-105 | main A is always searched; main B is searched iff main A was found; the generator is searched iff both mains were found |
| Monitor.ExitMessage | pzem.py:89-104 | there is an exit message iff some meter was not found |
| Monitor.ProbeLog | pzem.py:88-102 | the probes are main A's, then main B's, then the generator's, as many as each search made |
| Monitor.SetPortsStopsAtMissing | pzem.py:89-104 | the first meter not found, in the order A, B, generator, is the one named with its slave address; no later meter is probed |
| Monitor.SetPortsBindsAnsweringPorts | pzem.py:85-105 | after a successful start-up each meter's last probe was answered, and at most nine probes were sent |
| Monitor.Settled | pzem.py:86-105 | a meter that was searched ends on a candidate port; one never reached keeps its settings |
| Monitor.FindPort | pzem.py:109-117 | the loop binds each candidate to the meter in turn and probes it; result, probes logged and the port left bound are those of `FindPortSpec`, with a found port or the last candidate bound |
| Monitor.Locate | pzem.py:86-91 | one stanza of `set_RPi_ports`: 9600 baud, 0.2 s, `find_port`, then the port found is bound |
| Monitor.Meters.constructor | pzem.py:71-75 | main A on ttyUSB1, main B on ttyUSB2, generator on ttyUSB0, each with the library's default settings; generator mode |
| Monitor.Meters.SetRPiPorts | pzem.py:85-105 | the exit message, the probes sent and each meter's final serial settings are those `SetPortsSpec` prescribes |
| Monitor.GenMode | pzem.py:126-134 | generator mode iff the generator probe succeeded and its current exceeds 300 mA, that is reg1 > 0 or reg0 > 300 |
| Monitor.Meters.TestIfUsingGen | pzem.py:121-135 | `usingGen` is set from the one generator probe: a failed read or a current ≤ 0.3 A gives utility mode |
| Monitor.Emit | pzem.py:153-158 | five entries per meter, V, A, W, Wh, PF; the frequency register is not emitted |
| Monitor.ReadMeterSpec | pzem.py:139-195 | a batch has 6 entries in generator mode and 11 in utility mode, the CPU temperature last |
| Monitor.ReadMeterReads | pzem.py:145-187 | the reads issued are k ≤ 3 reads of the generator in generator mode; in utility mode ka ≤ 3 reads of main A followed by kb ≤ 3 reads of main B, and nothing else |
| Monitor.ReadMeterUtilityAllOrNothing | pzem.py:163-195 | in utility mode there is a batch iff main A and then main B are read; it starts with main A's five entries; when main A fails three times, main B is never read |
| Monitor.ReadMeterRetries | pzem.py:146-160 | a meter failing twice then answering yields its decoded entries after three reads; three failures yield no batch |
| Monitor.Meters.ReadMeter | pzem.py:139-195 | the batch and the reads issued are those of `ReadMeterSpec` for the current mode and ports; the mode is not changed |
| Monitor.Fields | pzem.py:207-211 | 6 field names in generator mode, 11 in utility mode, `T_cpu` last |
| Monitor.Texts | pzem.py:222 | the i-th text is the formatted i-th entry |
| Monitor.FieldsHaveNoNewline | pzem.py:208-211 | no field name holds a newline |
| Monitor.PostDataSpec | pzem.py:200-223 | `post_data` issues exactly `read_meter`'s reads, at most six; there is a body iff `read_meter` returned a batch, and it has one `ALL_SENSORS <field>=` line per field of the mode and no other line |
| Monitor.PostDataLines | pzem.py:213-223 | a body exists iff `read_meter` returned a batch; it has exactly one line per field of the mode, `ALL_SENSORS <field[j]>=<data[j]>`, and no other line |
| Monitor.BatchBody | pzem.py:216-223 | for a batch as long as the field list, the body's lines are the field/entry lines in order |
| Monitor.FormatBody | pzem.py:218-223 | the append loop builds exactly the newline-joined lines for the fields and the formatted entries |
| Monitor.Meters.PostData | pzem.py:200-223 | posts the body `PostDataSpec` prescribes, or nothing when `read_meter` returns nothing |
| Monitor.Polling | pzem.py:273-275 | one outcome per cycle, after those already posted |
| Monitor.PollingStep | pzem.py:273-275 | the next cycle runs on the line as the earlier cycles left it: its first read is the one after theirs, and its body is posted after theirs |
| Monitor.PollingPosts | pzem.py:273-274 | when every cycle posts only bodies for a field set, so does the whole loop |
| Monitor.PollPostsForMode | pzem.py:273-274 | every body the polling loop posts carries the field set of its one mode |
| Monitor.Meters.Poll | pzem.py:273-275 | the bodies posted and the reads logged are those of successive `post_data` cycles, each starting on the line where the previous one stopped; the mode never changes, and every body posted carries the field set of that one mode |
| Monitor.Meters.Startup | pzem.py:263-271 | each meter's serial settings are those the discovery settles; an exit message stops start-up with the mode untouched; otherwise the mode comes from the generator probe that follows the discovery probes |
| Driver.Readings | pzemTest.py:53-60 | seven entries for a ten-register block |
| Driver.ReadingsByRegisters | pzemTest.py:53-60 | V = reg0, A = reg1 + reg2·65536, W = reg3 + reg4·65536, Wh = reg5 + reg6·65536, Hz = reg7, PF = reg8, and the alarm is 1 iff reg9 > 0, in that order |
| Driver.ReadingsAgreeWithMeterRead | pzemTest.py:53-59 | `getData`'s V, A, W, Wh and PF are exactly the five entries `read_meter` emits for the same registers |
| Driver.GetDataSpec | pzemTest.py:44-62 | on success seven entries |
| Driver.GetDataFirstSuccess | pzemTest.py:44-51 | `getData` stops at the first try that succeeds, within five, and returns that block's entries |
| Driver.GetDataGivesUp | pzemTest.py:52-62 | when all five tries fail, `getData` makes exactly five reads and returns no data (`False`) instead of raising |
| Driver.Pzem.constructor | pzemTest.py:29-36 | the instrument on its port and slave, the slave address 1 unless given, with a 0.3 s timeout and 9600 baud |
| Driver.Pzem.GetData | pzemTest.py:40-62 | returns `GetDataSpec`'s result and logs as many `read_registers(0,10,4)` requests as tries made |
| Driver.Pzem.ReadLong | pzemTest.py:75-76 | a two-word read succeeds iff the read does; the value is the 32-bit quantity whose low and high registers are the two read |
| Driver.Pzem.GetCurrent | pzemTest.py:70-76 | registers 1 and 2 combined low word first, in milliamps, or the exception |
| Driver.Pzem.GetPower | pzemTest.py:78-84 | registers 3 and 4 combined low word first, in tenths of a watt, or the exception |
| Driver.Pzem.GetEnergy | pzemTest.py:86-92 | registers 5 and 6 combined low word first, in watt-hours, or the exception |
| Driver.Pzem.GetAlarmStatus | pzemTest.py:105-108 | 1 iff register 9 reads 65535, else 0, or the exception |

## Left out

- The HTTP post to InfluxDB and its `except` handler (pzem.py:230-234) are
  network I/O. That handler prints `e`, which is unbound when the post
  raises. `PostData` returns the body it would post.
- `sleep` and the endless `while True` of `main` are left out. `Poll` runs
  one cycle per CPU temperature it is given.
- The CPU temperature (gpiozero's `CPUTemperature`) is an input, an integer
  in tenths of a degree.
- The Modbus wire protocol (framing, CRC, timing) is replaced by the scripted
  line. The serial baud rate and timeout are recorded as settings and have no
  effect.
- Floating point: each quantity is an exact fixed-point integer in its
  register unit. Python's `round(x * 0.1, 1)` and similar calls are taken to
  give that exact decimal. `str` of a float is modelled for these values
  only: there is no exponent notation and no negative zero.
- `pzems_reset` and `setSlaveAddress` in pzem.py are left out. So are
  `setAlarmThreshold`, `setZeroEnergy`, `setSlaveAddress` and
  `getSlaveAddress` in pzemTest.py. They are device write commands and are
  not part of the acquisition path.
- `getVoltage`, `getFrequency`, `getPowerFactor` and `getAlarmThreshold`
  are left out. Their scaling happens inside the client library's
  `read_register`.
- Driver.Pzem.GetAlarmStatus: `read_register(9, 0, 4)` is modelled as a
  one-register read. Its decimal-count argument is 0, so it does no scaling.
- The `print` calls, including the exception `getData` prints before each
  retry, are left out. The `pzem` constructor's `except` branch is also left
  out: it prints the exception and leaves the instance as far as it got.
- ib.py and the `__main__` block of pzemTest.py are scripts with no logic of
  their own. ib.py runs shell commands, and the block is a one-off device
  test.
- The client library's default baud rate and timeout are left out. They show
  as `None` in `Serial` until the program sets them.
