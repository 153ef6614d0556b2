/**
 * The PZEM-016 input-register map (function code 4) and its decoding into
 * measurements. Every quantity stays an integer in the register's own unit:
 * decivolts, milliamps, deciwatts, watt-hours, decihertz and hundredths of
 * power factor.
 */
module Registers {

  /** One unsigned 16-bit register. */
  type Word = x: int | 0 <= x < 0x1_0000

  const WordSpan: nat := 0x1_0000
  const LongSpan: nat := 0x1_0000_0000

  function Pow2(n: nat): (p: nat)
    ensures p > 0
  {
    if n == 0 then 1 else 2 * Pow2(n - 1)
  }

  /** Python's `x << n` on a non-negative integer: n doublings, that is, a scaling by 2^n. */
  function ShiftLeft(x: nat, n: nat): (r: nat)
    ensures r == x * Pow2(n)
  {
    if n == 0 then x else 2 * ShiftLeft(x, n - 1)
  }

  lemma Pow2Of16()
    ensures Pow2(16) == WordSpan
  {
    assert Pow2(4) == 16;
    assert Pow2(8) == 16 * Pow2(4) by {
      assert Pow2(8) == 2 * Pow2(7) == 4 * Pow2(6) == 8 * Pow2(5) == 16 * Pow2(4);
    }
    assert Pow2(12) == 16 * Pow2(8) by {
      assert Pow2(12) == 2 * Pow2(11) == 4 * Pow2(10) == 8 * Pow2(9) == 16 * Pow2(8);
    }
    assert Pow2(16) == 16 * Pow2(12) by {
      assert Pow2(16) == 2 * Pow2(15) == 4 * Pow2(14) == 8 * Pow2(13) == 16 * Pow2(12);
    }
  }

  /** A 32-bit quantity held in two registers, low word first, as pzem.py writes it: `low + (high << 16)`. */
  function Combine(low: Word, high: Word): (v: nat)
    ensures v < LongSpan
    ensures v % WordSpan == low && v / WordSpan == high
  {
    Pow2Of16();
    low + ShiftLeft(high, 16)
  }

  /** The same combination as pzemTest.py writes it: `low + high * 65536`. */
  lemma ShiftFormMatchesProductForm(low: Word, high: Word)
    ensures Combine(low, high) == low + high * WordSpan
  {
    Pow2Of16();
  }

  /** The inverse of Combine: the low and high registers of a 32-bit value. */
  function Split(v: nat): (words: (Word, Word))
    requires v < LongSpan
    ensures words.0 + words.1 * WordSpan == v
  {
    (v % WordSpan, v / WordSpan)
  }

  lemma SplitCombine(low: Word, high: Word)
    ensures Split(Combine(low, high)) == (low, high)
  {
  }

  lemma CombineSplit(v: nat)
    requires v < LongSpan
    ensures Combine(Split(v).0, Split(v).1) == v
  {
    ShiftFormMatchesProductForm(Split(v).0, Split(v).1);
  }

  /** Any two distinct register pairs give distinct combined values. */
  lemma CombineInjective(l1: Word, h1: Word, l2: Word, h2: Word)
    requires Combine(l1, h1) == Combine(l2, h2)
    ensures l1 == l2 && h1 == h2
  {
    SplitCombine(l1, h1);
    SplitCombine(l2, h2);
  }

  /** The decoded contents of registers 0..8 (registers 0..9 on the extended read). */
  datatype Measurement = Measurement(
    voltage: nat,      // 0.1 V
    current: nat,      // 0.001 A
    power: nat,        // 0.1 W
    energy: nat,       // 1 Wh
    frequency: nat,    // 0.1 Hz
    powerFactor: nat)  // 0.01

  /** Decodes a block read from register 0 with at least 9 registers. */
  function Decode(b: seq<Word>): (m: Measurement)
    requires |b| >= 9
    ensures m.voltage == b[0] && m.frequency == b[7] && m.powerFactor == b[8]
    ensures m.current < LongSpan && Split(m.current) == (b[1], b[2])
    ensures m.power < LongSpan && Split(m.power) == (b[3], b[4])
    ensures m.energy < LongSpan && Split(m.energy) == (b[5], b[6])
  {
    Measurement(b[0], Combine(b[1], b[2]), Combine(b[3], b[4]), Combine(b[5], b[6]), b[7], b[8])
  }

  /** Decoding looks at registers 0..8 only: what follows does not change it. */
  lemma DecodeReadsNineRegisters(b: seq<Word>, c: seq<Word>)
    requires |b| >= 9 && |c| >= 9 && b[..9] == c[..9]
    ensures Decode(b) == Decode(c)
  {
    assert forall i :: 0 <= i < 9 ==> b[i] == b[..9][i] == c[..9][i] == c[i];
  }

  /** Two blocks decode to the same measurement only if their first nine registers agree. */
  lemma DecodeInjective(b: seq<Word>, c: seq<Word>)
    requires |b| >= 9 && |c| >= 9 && Decode(b) == Decode(c)
    ensures b[..9] == c[..9]
  {
    CombineInjective(b[1], b[2], c[1], c[2]);
    CombineInjective(b[3], b[4], c[3], c[4]);
    CombineInjective(b[5], b[6], c[5], c[6]);
    assert forall i :: 0 <= i < 9 ==> b[..9][i] == b[i] == c[i] == c[..9][i];
  }

  /** Alarm entry of `getData`: register 9 is non-zero. */
  function AlarmFlag(reg9: Word): (a: nat)
    ensures a <= 1 && (a == 1 <==> reg9 != 0)
  {
    if reg9 > 0 then 1 else 0
  }

  /** Result of `getAlarmStatus`: register 9 is 0xFFFF. */
  function AlarmStatus(reg9: Word): (a: nat)
    ensures a <= 1 && (a == 1 <==> reg9 == 0xFFFF)
  {
    if reg9 == 0xFFFF then 1 else 0
  }

  /**
   * The two alarm tests agree exactly on the two values the register map
   * documents (0x0000 and 0xFFFF) and disagree on every other value.
   */
  lemma AlarmTestsAgree(reg9: Word)
    ensures AlarmFlag(reg9) == AlarmStatus(reg9) <==> reg9 == 0 || reg9 == 0xFFFF
  {
  }
}
