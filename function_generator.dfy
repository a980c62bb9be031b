/** Model of the waveform-generator engine (main/function_generator.c).

    A fast timer callback steps through one of four 128-entry lookup tables
    and writes each sample, scaled by the amplitude, to a PWM compare
    register; a 10 ms polling pass debounces four push buttons and adjusts
    the step divisor (frequency), the amplitude and the selected waveform,
    refreshing the frequency shown on the character display.

    The program's globals and the static locals of debounce_gpio and
    handle_gpio_input become the fields of one FunctionGenerator object. */
module FunctionGenerator {
  import Lcd
  import Format

  type uint8 = x: int | 0 <= x < 0x100
  type uint16 = x: int | 0 <= x < 0x1_0000
  type uint32 = x: int | 0 <= x < 0x1_0000_0000

  const PWM_TIMER_PERIOD_TICKS: int := 400
  const SIGNAL_TIMER_RESOLUTION: int := 20_000_000
  const SIGNAL_TIMER_PERIOD_TICKS: int := 150
  /** Tick rate of the stepper, in Hz (integer division: 133333). */
  const SIGNAL_TIMER_FREQUENCY: nat := SIGNAL_TIMER_RESOLUTION / SIGNAL_TIMER_PERIOD_TICKS
  const TABLE_RESOLUTION: int := 128
  /** Half the PWM period: the midline of every waveform. */
  const W: int := PWM_TIMER_PERIOD_TICKS / 2

  /** Waveform selector values (waveform_t). */
  const SINE: int := 0
  const SQUARE: int := 1
  const SAWTOOTH: int := 2
  const TRIANGULAR: int := 3

  const MAX_CYCLES_TO_POP: int := 200
  const MIN_AMPLITUDE: real := 0.01
  const AMPLITUDE_STEP: real := 0.01

  const DEBOUNCE_DELAY_MS: int := 50
  /** The debounce window in microseconds. */
  const DEBOUNCE_WINDOW: int := 1000 * DEBOUNCE_DELAY_MS
  /** Size of debounce_gpio's per-pin timestamp table (GPIO 0..48). */
  const GPIO_NUM_MAX: int := 49

  /** The four buttons, in the order handle_gpio_input polls them:
      14 = slower (larger divisor), 21 = faster, 48 = louder, 47 = quieter;
      47 and 48 together = next waveform. */
  const PINS: seq<int> := [14, 21, 48, 47]
  const IO_14: int := 0
  const IO_21: int := 1
  const IO_48: int := 2
  const IO_47: int := 3

  // ---------------------------------------------------------------------
  // Lookup tables (populate_tables)

  /** square_table[i]: full scale while the sine sample is above the midline. */
  function SquareAt(sine: int): (v: int)
    ensures v == 0 || v == 2 * W
    ensures v == 2 * W <==> sine > W
  {
    var sign := if sine > W then 1 else 0;
    2 * W * sign
  }

  /** sawtooth_table[i]. */
  function SawtoothAt(i: int): (v: int)
    requires 0 <= i < TABLE_RESOLUTION
    ensures 0 <= v < 2 * W
  {
    2 * W * i / TABLE_RESOLUTION
  }

  /** triangular_table[i]. */
  function TriangularAt(i: int): (v: int)
    requires 0 <= i < TABLE_RESOLUTION
    ensures 0 <= v <= 2 * W
  {
    2 * W * (if i < TABLE_RESOLUTION / 2 then i else TABLE_RESOLUTION - i) / (TABLE_RESOLUTION / 2)
  }

  /** The sawtooth starts at 0 and never decreases across the cycle. */
  lemma SawtoothRamp(i: int, j: int)
    requires 0 <= i <= j < TABLE_RESOLUTION
    ensures SawtoothAt(0) == 0
    ensures SawtoothAt(i) <= SawtoothAt(j)
  {
    assert 2 * W * i <= 2 * W * j;
  }

  /** The triangle is 0 at the start, full scale in the middle, and
      symmetric about the middle. */
  lemma TriangleShape(i: int)
    requires 0 < i < TABLE_RESOLUTION / 2
    ensures TriangularAt(0) == 0 && TriangularAt(TABLE_RESOLUTION / 2) == 2 * W
    ensures TriangularAt(i) == TriangularAt(TABLE_RESOLUTION - i)
    ensures TriangularAt(i - 1) <= TriangularAt(i)
  {
  }

  // ---------------------------------------------------------------------
  // Frequency (counts2frequency)

  /** The ticks in one table period, TABLE_RESOLUTION * c2p, as the uint32_t
      product the source computes: the product wraps, so only the divisor's
      low 25 bits count, and the product is 0 -- a division by zero in
      counts2frequency -- exactly when those bits are all 0. */
  function PeriodTicks(c2p: uint32): (r: uint32)
    ensures r == TABLE_RESOLUTION * (c2p % 0x200_0000)
  {
    WrapProduct(c2p);
    (TABLE_RESOLUTION * c2p) % 0x1_0000_0000
  }

  /** Multiplying by 2^7 and keeping 32 bits keeps the low 25 bits of c. */
  lemma WrapProduct(c: nat)
    ensures (TABLE_RESOLUTION * c) % 0x1_0000_0000 == TABLE_RESOLUTION * (c % 0x200_0000)
  {
    var a, b := c / 0x200_0000, c % 0x200_0000;
    assert c == a * 0x200_0000 + b;
    assert TABLE_RESOLUTION * c == a * 0x1_0000_0000 + TABLE_RESOLUTION * b;
    assert 0 <= TABLE_RESOLUTION * b < 0x1_0000_0000;
  }

  /** The output frequency in Hz for a divisor: the tick rate over the
      ticks in one table period, in unsigned 32-bit integer arithmetic
      (the quotient is converted to float exactly, being below 2^24). It is
      the largest whole number of table periods per second: f periods fit
      in the tick rate, f + 1 do not. */
  function Counts2Frequency(c2p: uint32): (f: nat)
    requires PeriodTicks(c2p) != 0
    ensures f * PeriodTicks(c2p) <= SIGNAL_TIMER_FREQUENCY < (f + 1) * PeriodTicks(c2p)
  {
    QuotientBounds(SIGNAL_TIMER_FREQUENCY, PeriodTicks(c2p));
    SIGNAL_TIMER_FREQUENCY / PeriodTicks(c2p)
  }

  /** In the divisor's range the product does not wrap. */
  lemma PeriodTicksInRange(c2p: int)
    requires 1 <= c2p <= MAX_CYCLES_TO_POP
    ensures PeriodTicks(c2p) == TABLE_RESOLUTION * c2p
  {
    assert c2p % 0x200_0000 == c2p;
  }

  /** Integer division rounds down: the quotient times the divisor is at
      most the dividend, and one more times the divisor exceeds it. */
  lemma QuotientBounds(n: nat, d: int)
    requires d > 0
    ensures 0 <= n / d
    ensures (n / d) * d <= n < (n / d + 1) * d
  {
    var q, r := n / d, n % d;
    assert n == q * d + r;
    assert (q + 1) * d == q * d + d;
  }

  lemma MulLeft(a: int, b: int, c: int)
    requires 0 <= a && b <= c
    ensures a * b <= a * c
  {
  }

  lemma LessByFactor(x: int, y: int, d: int)
    requires d > 0 && x * d < y * d
    ensures x < y
  {
    if x >= y {
      MulLeft(d, y, x);
      assert false;
    }
  }

  /** At the ends of the divisor's range the frequency is 1041 Hz and 5 Hz. */
  lemma FrequencyEndpoints()
    ensures Counts2Frequency(1) == 1041 && Counts2Frequency(MAX_CYCLES_TO_POP) == 5
  {
    assert SIGNAL_TIMER_FREQUENCY == 133333;
    PeriodTicksInRange(1);
    PeriodTicksInRange(MAX_CYCLES_TO_POP);
  }

  /** The frequency never rises as the divisor grows. */
  lemma FrequencyMonotone(c1: int, c2: int)
    requires 1 <= c1 <= c2 <= MAX_CYCLES_TO_POP
    ensures Counts2Frequency(c2) <= Counts2Frequency(c1)
  {
    PeriodTicksInRange(c1);
    PeriodTicksInRange(c2);
    var f1, f2 := Counts2Frequency(c1), Counts2Frequency(c2);
    var d1, d2 := PeriodTicks(c1), PeriodTicks(c2);
    assert d1 <= d2;
    assert f2 * d2 <= SIGNAL_TIMER_FREQUENCY < (f1 + 1) * d1;
    MulLeft(f2, d1, d2);
    LessByFactor(f2, f1 + 1, d1);
  }

  // ---------------------------------------------------------------------
  // The tick stepper (on_full_callback)

  /** The stepper's counters and the number of compare values written so far. */
  datatype Stepper = Stepper(counter: int, index: int, pops: nat)

  predicate InRange(s: Stepper)
  {
    0 <= s.counter < 0x100 && 0 <= s.index < 0x1_0000
  }

  /** One timer tick. cycles_counter is a uint8_t and wraps at 256. */
  function Tick(s: Stepper, cyclesToPop: int): (r: Stepper)
    requires InRange(s)
    ensures InRange(r)
    ensures r.pops == s.pops || r.pops == s.pops + 1
    ensures r.pops == s.pops + 1 <==> (s.counter + 1) % 0x100 >= cyclesToPop
    ensures r.pops == s.pops + 1 ==> r.counter == 0 && r.index == (s.index + 1) % TABLE_RESOLUTION
    ensures r.pops == s.pops ==> r.counter == (s.counter + 1) % 0x100 && r.index == s.index
    ensures 1 <= cyclesToPop <= MAX_CYCLES_TO_POP && s.counter < MAX_CYCLES_TO_POP ==> r.counter < cyclesToPop
  {
    var counter := (s.counter + 1) % 0x100;
    if counter >= cyclesToPop then Stepper(0, (s.index + 1) % TABLE_RESOLUTION, s.pops + 1)
    else Stepper(counter, s.index, s.pops)
  }

  /** n ticks in a row. */
  function Run(s: Stepper, cyclesToPop: int, n: nat): (r: Stepper)
    requires InRange(s)
    ensures InRange(r)
    ensures s.pops <= r.pops <= s.pops + n
    decreases n
  {
    if n == 0 then s else Run(Tick(s, cyclesToPop), cyclesToPop, n - 1)
  }

  lemma {:induction false} RunSplit(s: Stepper, cyclesToPop: int, a: nat, b: nat)
    requires InRange(s)
    ensures Run(s, cyclesToPop, a + b) == Run(Run(s, cyclesToPop, a), cyclesToPop, b)
    decreases a
  {
    if a > 0 {
      RunSplit(Tick(s, cyclesToPop), cyclesToPop, a - 1, b);
    }
  }

  /** Below the divisor the ticks only count. */
  lemma {:induction false} RunCounts(c: int, index: int, pops: nat, cyclesToPop: int, k: nat)
    requires 0 <= c && c + k < cyclesToPop <= MAX_CYCLES_TO_POP && 0 <= index < TABLE_RESOLUTION
    ensures Run(Stepper(c, index, pops), cyclesToPop, k) == Stepper(c + k, index, pops)
    decreases k
  {
    if k > 0 {
      assert Tick(Stepper(c, index, pops), cyclesToPop) == Stepper(c + 1, index, pops);
      RunCounts(c + 1, index, pops, cyclesToPop, k - 1);
    }
  }

  /** From a reset counter, exactly cyclesToPop ticks advance the table by
      one entry and write exactly one compare value. */
  lemma {:induction false} RunOneStep(index: int, pops: nat, cyclesToPop: int)
    requires 1 <= cyclesToPop <= MAX_CYCLES_TO_POP && 0 <= index < TABLE_RESOLUTION
    ensures Run(Stepper(0, index, pops), cyclesToPop, cyclesToPop)
         == Stepper(0, (index + 1) % TABLE_RESOLUTION, pops + 1)
  {
    var s := Stepper(0, index, pops);
    var t := Stepper(cyclesToPop - 1, index, pops);
    RunCounts(0, index, pops, cyclesToPop, cyclesToPop - 1);
    RunSplit(s, cyclesToPop, cyclesToPop - 1, 1);
    RunOnce(t, cyclesToPop);
    TickAtDivisor(index, pops, cyclesToPop);
  }

  lemma RunOnce(s: Stepper, cyclesToPop: int)
    requires InRange(s)
    ensures Run(s, cyclesToPop, 1) == Tick(s, cyclesToPop)
  {
  }

  /** The tick that brings the counter up to the divisor writes a value. */
  lemma TickAtDivisor(index: int, pops: nat, cyclesToPop: int)
    requires 1 <= cyclesToPop <= MAX_CYCLES_TO_POP && 0 <= index < TABLE_RESOLUTION
    ensures Tick(Stepper(cyclesToPop - 1, index, pops), cyclesToPop)
         == Stepper(0, (index + 1) % TABLE_RESOLUTION, pops + 1)
  {
  }

  /** k periods of the divisor advance the table by k entries, with one
      write each. */
  lemma {:induction false} RunSteps(index: int, pops: nat, cyclesToPop: int, k: nat)
    requires 1 <= cyclesToPop <= MAX_CYCLES_TO_POP && 0 <= index < TABLE_RESOLUTION
    ensures Run(Stepper(0, index, pops), cyclesToPop, k * cyclesToPop)
         == Stepper(0, (index + k) % TABLE_RESOLUTION, pops + k)
  {
    if k > 0 {
      var s0 := Stepper(0, index, pops);
      var n := (k - 1) * cyclesToPop;
      var mid := (index + k - 1) % TABLE_RESOLUTION;
      NextPeriod(k, cyclesToPop);
      RunSteps(index, pops, cyclesToPop, k - 1);
      var m := Run(s0, cyclesToPop, n);
      assert m == Stepper(0, mid, pops + k - 1);
      RunSplit(s0, cyclesToPop, n, cyclesToPop);
      assert Run(s0, cyclesToPop, k * cyclesToPop) == Run(m, cyclesToPop, cyclesToPop);
      RunOneStep(mid, pops + k - 1, cyclesToPop);
      NextEntry(index, k);
      assert Run(m, cyclesToPop, cyclesToPop) == Stepper(0, (index + k) % TABLE_RESOLUTION, pops + k);
    }
  }

  lemma NextPeriod(k: int, c: int)
    requires k >= 1 && c >= 1
    ensures (k - 1) * c >= 0 && k * c == (k - 1) * c + c
  {
  }

  lemma NextEntry(index: int, k: int)
    ensures ((index + k - 1) % TABLE_RESOLUTION + 1) % TABLE_RESOLUTION == (index + k) % TABLE_RESOLUTION
  {
  }

  /** The output period: after TABLE_RESOLUTION * cyclesToPop ticks the
      stepper is back where it started, having written one value per table
      entry -- the tick rate over this count is Counts2Frequency. */
  lemma OutputPeriod(index: int, pops: nat, cyclesToPop: int)
    requires 1 <= cyclesToPop <= MAX_CYCLES_TO_POP && 0 <= index < TABLE_RESOLUTION
    ensures Run(Stepper(0, index, pops), cyclesToPop, TABLE_RESOLUTION * cyclesToPop)
         == Stepper(0, index, pops + TABLE_RESOLUTION)
  {
    RunSteps(index, pops, cyclesToPop, TABLE_RESOLUTION);
    FullCycle(index);
  }

  lemma FullCycle(index: int)
    requires 0 <= index < TABLE_RESOLUTION
    ensures (index + TABLE_RESOLUTION) % TABLE_RESOLUTION == index
  {
  }

  // ---------------------------------------------------------------------
  // The debouncer (debounce_gpio)

  /** One poll of one button: the raw level and the value of
      esp_timer_get_time (microseconds) at that moment. */
  datatype Sample = Sample(level: bool, time: int)

  /** esp_timer_get_time's 64-bit value stored in a uint32_t: its low 32
      bits, equal to the time itself only during the first 2^32 us. */
  function Now32(time: int): (r: uint32)
    ensures 0 <= time < 0x1_0000_0000 ==> r == time
    ensures (time - r) % 0x1_0000_0000 == 0
  {
    time % 0x1_0000_0000
  }

  /** Microseconds since `last`, in unsigned 32-bit arithmetic: a `now`
      below `last` means the clock wrapped in between. */
  function Elapsed(now: uint32, last: uint32): (r: uint32)
    ensures last <= now ==> r == now - last
    ensures now < last ==> r == now - last + 0x1_0000_0000
  {
    (now - last) % 0x1_0000_0000
  }

  /** Less than 2^32 us apart, the truncated clock measures the true
      elapsed time, whether or not it wrapped in between. */
  lemma ElapsedOfTimes(before: int, after: int)
    requires 0 <= before <= after < before + 0x1_0000_0000
    ensures Elapsed(Now32(after), Now32(before)) == after - before
  {
    var q, r := before / 0x1_0000_0000, before % 0x1_0000_0000;
    var d := after - before;
    assert before == q * 0x1_0000_0000 + r;
    if r + d < 0x1_0000_0000 {
      assert after == q * 0x1_0000_0000 + (r + d);
      assert Now32(after) == r + d;
    } else {
      assert after == (q + 1) * 0x1_0000_0000 + (r + d - 0x1_0000_0000);
      assert Now32(after) == r + d - 0x1_0000_0000;
    }
  }

  /** debounce_gpio's test: the level changed and strictly more than the
      window has passed since the last accepted change on that pin. */
  function Accepts(level: bool, lastState: bool, now: uint32, lastTime: uint32): (accepted: bool)
    ensures level == lastState ==> !accepted
    ensures level != lastState && lastTime <= now ==> (accepted <==> now - lastTime > DEBOUNCE_WINDOW)
  {
    level != lastState && Elapsed(now, lastTime) > DEBOUNCE_WINDOW
  }

  /** The per-pin debounce state as a value: the last accepted level and time. */
  datatype Channel = Channel(lastState: bool, lastTime: uint32)

  /** Feeds samples of one pin to the debouncer; yields the final state and
      the number of accepted transitions. Every accepted transition flips
      the level, so the final level is the first one flipped once per
      transition, and without a transition the state is untouched. */
  function DebounceRun(ch: Channel, samples: seq<Sample>): (r: (Channel, nat))
    ensures r.1 <= |samples|
    ensures r.1 == 0 ==> r.0 == ch
    ensures r.0.lastState == (ch.lastState != (r.1 % 2 == 1))
    decreases |samples|
  {
    if samples == [] then (ch, 0)
    else
      var now := Now32(samples[0].time);
      if Accepts(samples[0].level, ch.lastState, now, ch.lastTime) then
        var rest := DebounceRun(Channel(samples[0].level, now), samples[1..]);
        (rest.0, rest.1 + 1)
      else DebounceRun(ch, samples[1..])
  }

  /** For a changed level, an elapsed time of exactly the window is still
      rejected and one microsecond more is accepted -- at any time, also
      when the 32-bit clock wraps in between. */
  lemma WindowIsStrict(level: bool, lastState: bool, last: int)
    requires level != lastState && 0 <= last
    ensures !Accepts(level, lastState, Now32(last + DEBOUNCE_WINDOW), Now32(last))
    ensures Accepts(level, lastState, Now32(last + DEBOUNCE_WINDOW + 1), Now32(last))
  {
    ElapsedOfTimes(last, last + DEBOUNCE_WINDOW);
    ElapsedOfTimes(last, last + DEBOUNCE_WINDOW + 1);
  }

  /** Within the window after an accepted change at time `t` nothing is
      accepted and the state does not move, whatever the uptime. */
  lemma {:induction false} QuietWithinWindow(ch: Channel, samples: seq<Sample>, t: int)
    requires 0 <= t && ch.lastTime == Now32(t)
    requires forall k :: 0 <= k < |samples| ==> t <= samples[k].time <= t + DEBOUNCE_WINDOW
    ensures DebounceRun(ch, samples) == (ch, 0)
  {
    if samples != [] {
      ElapsedOfTimes(t, samples[0].time);
      QuietWithinWindow(ch, samples[1..], t);
    }
  }

  /** However a button bounces, polls spread over one window, with time not
      running backwards, yield at most one transition, whatever the uptime. */
  lemma {:induction false} AtMostOneTransitionPerWindow(ch: Channel, samples: seq<Sample>, t0: int)
    requires 0 <= t0
    requires forall k :: 0 <= k < |samples| ==> t0 <= samples[k].time <= t0 + DEBOUNCE_WINDOW
    requires forall i, j :: 0 <= i <= j < |samples| ==> samples[i].time <= samples[j].time
    ensures DebounceRun(ch, samples).1 <= 1
  {
    if samples != [] {
      var now := Now32(samples[0].time);
      if Accepts(samples[0].level, ch.lastState, now, ch.lastTime) {
        var rest := samples[1..];
        assert forall k :: 0 <= k < |rest| ==> rest[k] == samples[k + 1] && samples[0].time <= samples[k + 1].time;
        QuietWithinWindow(Channel(samples[0].level, now), rest, samples[0].time);
      } else {
        AtMostOneTransitionPerWindow(ch, samples[1..], t0);
      }
    }
  }

  /** A press at t, a bounce back 10 ms later and a real release 60 ms after
      the press give exactly two transitions: the bounce is suppressed. */
  lemma BounceIsSuppressed(t: int)
    requires 0 <= t && t + 60_000 < 0x1_0000_0000
    requires t > DEBOUNCE_WINDOW
    ensures DebounceRun(Channel(false, 0), [Sample(true, t), Sample(false, t + 10_000), Sample(false, t + 60_000)])
         == (Channel(false, t + 60_000), 2)
  {
    var s := [Sample(true, t), Sample(false, t + 10_000), Sample(false, t + 60_000)];
    assert Now32(t) == t && Now32(t + 10_000) == t + 10_000 && Now32(t + 60_000) == t + 60_000;
    var pressed := Channel(true, t);
    assert DebounceRun(Channel(false, t + 60_000), []) == (Channel(false, t + 60_000), 0);
    assert DebounceRun(pressed, [Sample(false, t + 60_000)]) == (Channel(false, t + 60_000), 1);
    assert DebounceRun(pressed, [Sample(false, t + 10_000), Sample(false, t + 60_000)])
        == DebounceRun(pressed, [Sample(false, t + 60_000)]);
  }

  // ---------------------------------------------------------------------
  // The control pass (handle_gpio_input)

  /** Button 21: one step faster, the divisor floored at 1. */
  function DecreaseCyclesToPop(c: int): (r: int)
    ensures r >= 1
    ensures c >= 2 ==> r == c - 1
    ensures c <= 2 ==> r == 1
  {
    if c - 1 > 1 then c - 1 else 1
  }

  /** Button 14: one step slower, the divisor capped at 200. */
  function IncreaseCyclesToPop(c: int): (r: int)
    ensures r <= MAX_CYCLES_TO_POP
    ensures c <= MAX_CYCLES_TO_POP - 1 ==> r == c + 1
    ensures c >= MAX_CYCLES_TO_POP - 1 ==> r == MAX_CYCLES_TO_POP
  {
    if c + 1 < MAX_CYCLES_TO_POP then c + 1 else MAX_CYCLES_TO_POP
  }

  /** Button 48: amplitude up one step, capped at 1.0. */
  function IncreaseAmplitude(a: real): (r: real)
    ensures r <= 1.0
    ensures a <= 1.0 - AMPLITUDE_STEP ==> r == a + AMPLITUDE_STEP || r == 1.0
    ensures r >= a || r == 1.0
  {
    if a + AMPLITUDE_STEP < 1.0 then a + AMPLITUDE_STEP else 1.0
  }

  /** Button 47: amplitude down one step, floored at 0.01. */
  function DecreaseAmplitude(a: real): (r: real)
    ensures r >= MIN_AMPLITUDE
    ensures r <= a || r == MIN_AMPLITUDE
    ensures a - AMPLITUDE_STEP >= MIN_AMPLITUDE ==> r == a - AMPLITUDE_STEP
  {
    if a - AMPLITUDE_STEP > MIN_AMPLITUDE then a - AMPLITUDE_STEP else MIN_AMPLITUDE
  }

  /** Buttons 47 and 48 together: the next waveform in the cycle
      sine, square, sawtooth, triangular, sine. */
  function NextWaveform(w: int): (r: int)
    ensures 0 <= r < 4
  {
    (w + 1) % 4
  }

  function Repeat(f: int -> int, x: int, n: nat): int
    decreases n
  {
    if n == 0 then x else Repeat(f, f(x), n - 1)
  }

  function RepeatReal(f: real -> real, x: real, n: nat): real
    decreases n
  {
    if n == 0 then x else RepeatReal(f, f(x), n - 1)
  }

  /** Holding button 21 for n passes: the divisor drops by n, but not below 1. */
  lemma {:induction false} RepeatDecreaseCyclesToPop(c: int, n: nat)
    requires c >= 1
    ensures Repeat(DecreaseCyclesToPop, c, n) == if c - n > 1 then c - n else 1
    decreases n
  {
    if n > 0 {
      RepeatDecreaseCyclesToPop(DecreaseCyclesToPop(c), n - 1);
    }
  }

  /** Holding button 14 for n passes: the divisor grows by n, but not above 200. */
  lemma {:induction false} RepeatIncreaseCyclesToPop(c: int, n: nat)
    requires c <= MAX_CYCLES_TO_POP
    ensures Repeat(IncreaseCyclesToPop, c, n) == if c + n < MAX_CYCLES_TO_POP then c + n else MAX_CYCLES_TO_POP
    decreases n
  {
    if n > 0 {
      RepeatIncreaseCyclesToPop(IncreaseCyclesToPop(c), n - 1);
    }
  }

  /** Holding button 47 for n passes lowers the amplitude by n steps, but not
      below 0.01. */
  lemma {:induction false} RepeatDecreaseAmplitude(a: real, n: nat)
    requires a >= MIN_AMPLITUDE
    ensures RepeatReal(DecreaseAmplitude, a, n)
         == if a - n as real * AMPLITUDE_STEP > MIN_AMPLITUDE then a - n as real * AMPLITUDE_STEP else MIN_AMPLITUDE
    decreases n
  {
    if n > 0 {
      RepeatDecreaseAmplitude(DecreaseAmplitude(a), n - 1);
    }
  }

  /** Holding button 48 for n passes raises the amplitude by n steps, but
      not above 1.0. */
  lemma {:induction false} RepeatIncreaseAmplitude(a: real, n: nat)
    requires a <= 1.0
    ensures RepeatReal(IncreaseAmplitude, a, n)
         == if a + n as real * AMPLITUDE_STEP < 1.0 then a + n as real * AMPLITUDE_STEP else 1.0
    decreases n
  {
    if n > 0 {
      RepeatIncreaseAmplitude(IncreaseAmplitude(a), n - 1);
    }
  }

  /** From full amplitude, 120 decrements end at the floor 0.01; from the
      divisor 1, a decrement stays at 1. */
  lemma ClampExamples()
    ensures RepeatReal(DecreaseAmplitude, 1.0, 120) == MIN_AMPLITUDE
    ensures DecreaseCyclesToPop(1) == 1
  {
    RepeatDecreaseAmplitude(1.0, 120);
  }

  /** Four chord events bring the selector back; the first three visit
      square, sawtooth and triangular in that order. */
  lemma {:induction false} WaveformCycle(w: int)
    requires 0 <= w < 4
    ensures Repeat(NextWaveform, w, 4) == w
    ensures Repeat(NextWaveform, SINE, 1) == SQUARE
    ensures Repeat(NextWaveform, SINE, 2) == SAWTOOTH
    ensures Repeat(NextWaveform, SINE, 3) == TRIANGULAR
  {
    assert Repeat(NextWaveform, w, 4)
        == Repeat(NextWaveform, NextWaveform(NextWaveform(NextWaveform(NextWaveform(w)))), 0);
    assert Repeat(NextWaveform, SINE, 3) == Repeat(NextWaveform, 3, 0);
    assert Repeat(NextWaveform, SINE, 2) == Repeat(NextWaveform, 2, 0);
  }

  /** The parameters the control pass owns. */
  datatype Params = Params(cyclesToPop: int, amplitude: real, waveform: int)

  predicate ValidParams(p: Params)
  {
    1 <= p.cyclesToPop <= MAX_CYCLES_TO_POP && MIN_AMPLITUDE <= p.amplitude <= 1.0 && 0 <= p.waveform < 4
  }

  /** The divisor after a control pass: button 21's decrement first, then
      button 14's increment. */
  function AdjustCycles(c: int, io: seq<bool>): (r: int)
    requires |io| == 4
    ensures 1 <= c <= MAX_CYCLES_TO_POP ==> 1 <= r <= MAX_CYCLES_TO_POP
    ensures !io[IO_14] && !io[IO_21] ==> r == c
    ensures 1 <= c && io[IO_14] && !io[IO_21] ==> r == IncreaseCyclesToPop(c)
    ensures c <= MAX_CYCLES_TO_POP && io[IO_21] && !io[IO_14] ==> r == DecreaseCyclesToPop(c)
    ensures 2 <= c <= MAX_CYCLES_TO_POP && io[IO_14] && io[IO_21] ==> r == c
    ensures c <= 1 && io[IO_14] && io[IO_21] ==> r == 2
  {
    var c1 := if io[IO_21] then DecreaseCyclesToPop(c) else c;
    if io[IO_14] then IncreaseCyclesToPop(c1) else c1
  }

  /** The amplitude after a control pass: button 48's increment first, then
      button 47's decrement. */
  function AdjustAmplitude(a: real, io: seq<bool>): (r: real)
    requires |io| == 4
    ensures MIN_AMPLITUDE <= a <= 1.0 ==> MIN_AMPLITUDE <= r <= 1.0
    ensures !io[IO_48] && !io[IO_47] ==> r == a
    ensures io[IO_48] && !io[IO_47] ==> r == IncreaseAmplitude(a)
    ensures io[IO_47] && !io[IO_48] ==> r == DecreaseAmplitude(a)
    ensures MIN_AMPLITUDE + AMPLITUDE_STEP <= a + AMPLITUDE_STEP < 1.0 && io[IO_48] && io[IO_47] ==> r == a
  {
    var a1 := if io[IO_48] then IncreaseAmplitude(a) else a;
    if io[IO_47] then DecreaseAmplitude(a1) else a1
  }

  /** The adjustments of one control pass given the four toggle flags
      (indexed IO_14, IO_21, IO_48, IO_47): each parameter stays in its range,
      and the waveform advances exactly when 47 and 48 are both set. */
  function Adjust(p: Params, io: seq<bool>): (r: Params)
    requires |io| == 4
    ensures ValidParams(p) ==> ValidParams(r)
    ensures r.cyclesToPop == AdjustCycles(p.cyclesToPop, io)
    ensures r.amplitude == AdjustAmplitude(p.amplitude, io)
    ensures r.waveform == if io[IO_47] && io[IO_48] then NextWaveform(p.waveform) else p.waveform
  {
    var w := if io[IO_47] && io[IO_48] then NextWaveform(p.waveform) else p.waveform;
    Params(AdjustCycles(p.cyclesToPop, io), AdjustAmplitude(p.amplitude, io), w)
  }

  // ---------------------------------------------------------------------
  // The frequency shown on the display

  /** sprintf(freq_str, "Freq: %0.2f", counts2frequency(c2p)): the label,
      the digits of the frequency, then ".00". */
  function FreqText(f: nat): (t: seq<bv8>)
    ensures |t| == |FREQ_LABEL| + |Format.Decimal(f)| + 3
    ensures t[..|FREQ_LABEL|] == FREQ_LABEL
    ensures t[|FREQ_LABEL|..|t| - 3] == Format.Decimal(f)
    ensures t[|t| - 3..] == [Format.DOT, Format.ZERO, Format.ZERO]
  {
    SliceMiddle(FREQ_LABEL, Format.Decimal(f), [Format.DOT, Format.ZERO, Format.ZERO]);
    AppendAssociative(FREQ_LABEL, Format.Decimal(f), [Format.DOT, Format.ZERO, Format.ZERO]);
    FREQ_LABEL + Format.FixedTwo(f)
  }

  /** "Freq: " */
  const FREQ_LABEL: seq<bv8> := [0x46, 0x72, 0x65, 0x71, 0x3A, 0x20]

  lemma SliceMiddle<T>(a: seq<T>, b: seq<T>, c: seq<T>)
    ensures (a + (b + c))[|a|..|a| + |b|] == b
    ensures forall k :: |a| <= k < |a| + |b| ==> (a + (b + c))[k] == b[k - |a|]
    ensures forall k :: 0 <= k < |a| ==> (a + (b + c))[k] == a[k]
    ensures forall k :: |a| + |b| <= k < |a| + |b| + |c| ==> (a + (b + c))[k] == c[k - |a| - |b|]
  {
  }

  /** The text of any frequency has no NUL, is nine characters longer than
      its digits, and its digits read back as the frequency. */
  lemma FreqTextShape(f: nat)
    ensures 0 !in FreqText(f)
    ensures |FreqText(f)| == |Format.Decimal(f)| + 9
    ensures Format.ParseDecimal(FreqText(f)[6..|FreqText(f)| - 3]) == f
  {
    Format.DecimalRoundTrip(f);
    var d := Format.Decimal(f);
    SliceMiddle(FREQ_LABEL, d, [Format.DOT, Format.ZERO, Format.ZERO]);
  }

  /** For every divisor in range the text, with its terminator, fits
      freq_str[16]. */
  lemma FreqTextFits(c2p: int)
    requires 1 <= c2p <= MAX_CYCLES_TO_POP
    ensures 0 !in FreqText(Counts2Frequency(c2p))
    ensures |FreqText(Counts2Frequency(c2p))| + 1 <= 16
  {
    var f := Counts2Frequency(c2p);
    FrequencyEndpoints();
    FrequencyMonotone(1, c2p);
    assert Format.Power10(4) == 10000;
    Format.DecimalLength(f, 4);
    FreqTextShape(f);
  }

  /** The transactions one display refresh puts on the bus: clear, cursor
      home, then the frequency text. */
  function FrequencyFrames(c2p: int): seq<seq<bv8>>
    requires 1 <= c2p <= MAX_CYCLES_TO_POP
  {
    [Lcd.Frame(Lcd.CLEAR_DISPLAY, false), Lcd.Frame(Lcd.CursorCommand(0, 0), false)]
      + Lcd.Frames(FreqText(Counts2Frequency(c2p)), true)
  }

  /** A refresh is the clear command, the cursor-home command 0x80 and at
      most 15 character frames, from which the controller reads back exactly
      the frequency text. */
  lemma FrequencyFramesShape(c2p: int)
    requires 1 <= c2p <= MAX_CYCLES_TO_POP
    ensures var r := FrequencyFrames(c2p);
      && 2 < |r| <= 2 + 15
      && r[0] == Lcd.Frame(Lcd.CLEAR_DISPLAY, false) && r[1] == Lcd.Frame(0x80, false)
      && |Lcd.Bytes(r[2..])| % 4 == 0 && Lcd.Unframe(Lcd.Bytes(r[2..])) == FreqText(Counts2Frequency(c2p))
  {
    var text := FreqText(Counts2Frequency(c2p));
    FreqTextFits(c2p);
    RefreshFrames(text);
  }

  /** Clear, cursor home, then the characters of any text: the controller
      reads the text back from the character frames. */
  lemma RefreshFrames(text: seq<bv8>)
    ensures var r := [Lcd.Frame(Lcd.CLEAR_DISPLAY, false), Lcd.Frame(Lcd.CursorCommand(0, 0), false)]
                     + Lcd.Frames(text, true);
      && |r| == 2 + |text|
      && r[0] == Lcd.Frame(Lcd.CLEAR_DISPLAY, false) && r[1] == Lcd.Frame(0x80, false)
      && |Lcd.Bytes(r[2..])| % 4 == 0 && Lcd.Unframe(Lcd.Bytes(r[2..])) == text
  {
    var chars := Lcd.Frames(text, true);
    PrefixTwo(Lcd.Frame(Lcd.CLEAR_DISPLAY, false), Lcd.Frame(Lcd.CursorCommand(0, 0), false), chars);
    Lcd.FramesRoundTrip(text, true);
  }

  lemma PrefixTwo<T>(a: T, b: T, rest: seq<T>)
    ensures |[a, b] + rest| == 2 + |rest|
    ensures ([a, b] + rest)[0] == a && ([a, b] + rest)[1] == b && ([a, b] + rest)[2..] == rest
  {
  }

  lemma AppendAssociative<T>(a: seq<T>, b: seq<T>, c: seq<T>)
    ensures a + b + c == a + (b + c)
  {
  }

  lemma AppendTwo<T>(t: seq<T>, a: T, b: T, rest: seq<T>)
    ensures t + [a] + [b] + rest == t + ([a, b] + rest)
  {
  }

  /** Refreshes the frequency line of the display. */
  method ShowFrequency(lcd: Lcd.I2cDevice, c2p: int)
    requires 1 <= c2p <= MAX_CYCLES_TO_POP
    modifies lcd
    ensures lcd.transactions == old(lcd.transactions) + FrequencyFrames(c2p)
  {
    ghost var t0 := lcd.transactions;
    Lcd.Clear(lcd);
    var text := FreqText(Counts2Frequency(c2p));
    FreqTextFits(c2p);
    var freqStr := text + [0];
    Lcd.CStringTerminated(text);
    Lcd.PutCur(lcd, 0, 0);
    Lcd.SendString(lcd, freqStr);
    AppendTwo(t0, Lcd.Frame(Lcd.CLEAR_DISPLAY, false), Lcd.Frame(Lcd.CursorCommand(0, 0), false),
      Lcd.Frames(text, true));
  }

  /** The display traffic of one control pass: a refresh after the
      decrement (button 21) and one after the increment (button 14). */
  function ControlFrames(c2p: int, io: seq<bool>): seq<seq<bv8>>
    requires |io| == 4 && 1 <= c2p <= MAX_CYCLES_TO_POP
  {
    var c1 := if io[IO_21] then DecreaseCyclesToPop(c2p) else c2p;
    (if io[IO_21] then FrequencyFrames(c1) else [])
      + (if io[IO_14] then FrequencyFrames(IncreaseCyclesToPop(c1)) else [])
  }
  /** A control pass redraws the display only when button 14 or 21 is set,
      and its last refresh always shows the divisor the pass ends with. */
  lemma ControlFramesShowResult(c2p: int, io: seq<bool>)
    requires |io| == 4 && 1 <= c2p <= MAX_CYCLES_TO_POP
    ensures var r := ControlFrames(c2p, io);
      && (!io[IO_21] && !io[IO_14] ==> r == [])
      && (io[IO_21] != io[IO_14] ==> r == FrequencyFrames(AdjustCycles(c2p, io)))
      && (io[IO_21] && io[IO_14] ==>
            r == FrequencyFrames(DecreaseCyclesToPop(c2p)) + FrequencyFrames(AdjustCycles(c2p, io)))
  {
  }


  /** handle_gpio_input's debounce state as a value: the last accepted level
      and the toggle flag of each button, and last_time of every pin. */
  datatype Buttons = Buttons(levels: seq<bool>, toggles: seq<bool>, times: seq<uint32>)

  predicate WellShaped(b: Buttons)
  {
    |b.levels| == 4 && |b.toggles| == 4 && |b.times| == GPIO_NUM_MAX
  }

  /** Which of the four buttons the debouncer accepts in one pass. Each
      button has its own pin, so each sees its own previous timestamp. */
  function Accepted(b: Buttons, samples: seq<Sample>): (acc: seq<bool>)
    requires WellShaped(b) && |samples| == 4
    ensures |acc| == 4
  {
    seq(4, k requires 0 <= k < 4 =>
      Accepts(samples[k].level, b.levels[k], Now32(samples[k].time), b.times[PINS[k]]))
  }

  /** `if (debounce_gpio(pin, &last_io_level)) io_state = !io_state;` for
      button k: an accepted transition records the level and the time on the
      button's pin and flips its toggle; a rejected one changes nothing. */
  function PollOne(b: Buttons, k: int, sample: Sample): (r: Buttons)
    requires WellShaped(b) && 0 <= k < 4
    ensures WellShaped(r)
  {
    var now := Now32(sample.time);
    if Accepts(sample.level, b.levels[k], now, b.times[PINS[k]]) then
      Buttons(b.levels[k := sample.level], b.toggles[k := !b.toggles[k]], b.times[PINS[k] := now])
    else b
  }

  /** The four buttons polled in the order of handle_gpio_input. */
  function Poll(b: Buttons, samples: seq<Sample>): (r: Buttons)
    requires WellShaped(b) && |samples| == 4
    ensures WellShaped(r)
  {
    var b1 := PollOne(b, IO_14, samples[IO_14]);
    var b2 := PollOne(b1, IO_21, samples[IO_21]);
    var b3 := PollOne(b2, IO_48, samples[IO_48]);
    PollOne(b3, IO_47, samples[IO_47])
  }

  /** One button's poll touches only that button's entries and its pin. */
  lemma PollOneLocal(b: Buttons, k: int, sample: Sample)
    requires WellShaped(b) && 0 <= k < 4
    ensures var r, a := PollOne(b, k, sample), Accepts(sample.level, b.levels[k], Now32(sample.time), b.times[PINS[k]]);
      && r.toggles[k] == (b.toggles[k] != a)
      && r.levels[k] == (if a then sample.level else b.levels[k])
      && r.times[PINS[k]] == (if a then Now32(sample.time) else b.times[PINS[k]])
      && (forall j :: 0 <= j < 4 && j != k ==> r.toggles[j] == b.toggles[j] && r.levels[j] == b.levels[j])
      && (forall p :: 0 <= p < GPIO_NUM_MAX && p != PINS[k] ==> r.times[p] == b.times[p])
  {
  }

  /** The buttons do not interfere: every button's transition is judged on
      its own previous level and its own pin's time, an accepted one flips
      that button's toggle and records its level and time, and the time of
      every other pin is left alone. */
  lemma PollIndependent(b: Buttons, samples: seq<Sample>)
    requires WellShaped(b) && |samples| == 4
    ensures var r, acc := Poll(b, samples), Accepted(b, samples);
      && (forall k :: 0 <= k < 4 ==> Settled(b, r, samples, acc, k))
      && (forall p :: 0 <= p < GPIO_NUM_MAX && p !in PINS ==> r.times[p] == b.times[p])
  {
    var b1 := PollOne(b, IO_14, samples[IO_14]);
    var b2 := PollOne(b1, IO_21, samples[IO_21]);
    var b3 := PollOne(b2, IO_48, samples[IO_48]);
    PollOneLocal(b, IO_14, samples[IO_14]);
    PollOneLocal(b1, IO_21, samples[IO_21]);
    PollOneLocal(b2, IO_48, samples[IO_48]);
    PollOneLocal(b3, IO_47, samples[IO_47]);
    forall k | 0 <= k < 4
      ensures Settled(b, Poll(b, samples), samples, Accepted(b, samples), k)
    {
      PollSettled(b, samples, k);
    }
  }

  /** Button k's part of the state: its level, its toggle, its pin's time. */
  function EntryOf(b: Buttons, k: int): (bool, bool, uint32)
    requires WellShaped(b) && 0 <= k < 4
  {
    (b.levels[k], b.toggles[k], b.times[PINS[k]])
  }

  /** Polling button j leaves every other button's part alone. */
  lemma PollOneOther(b: Buttons, j: int, sample: Sample, k: int)
    requires WellShaped(b) && 0 <= j < 4 && 0 <= k < 4 && j != k
    ensures EntryOf(PollOne(b, j, sample), k) == EntryOf(b, k)
  {
    assert PINS[j] != PINS[k];
  }

  lemma PollSettled(b: Buttons, samples: seq<Sample>, k: int)
    requires WellShaped(b) && |samples| == 4 && 0 <= k < 4
    ensures Settled(b, Poll(b, samples), samples, Accepted(b, samples), k)
  {
    var acc := Accepted(b, samples);
    var b1 := PollOne(b, IO_14, samples[IO_14]);
    var b2 := PollOne(b1, IO_21, samples[IO_21]);
    var b3 := PollOne(b2, IO_48, samples[IO_48]);
    var r := PollOne(b3, IO_47, samples[IO_47]);
    assert acc[k] == Accepts(samples[k].level, b.levels[k], Now32(samples[k].time), b.times[PINS[k]]);
    // Button k meets its own poll in the state b left it in, and the polls
    // after it do not touch it.
    if k == IO_14 {
      PollOneLocal(b, IO_14, samples[IO_14]);
      PollOneOther(b1, IO_21, samples[IO_21], k);
      PollOneOther(b2, IO_48, samples[IO_48], k);
      PollOneOther(b3, IO_47, samples[IO_47], k);
    } else if k == IO_21 {
      PollOneOther(b, IO_14, samples[IO_14], k);
      PollOneLocal(b1, IO_21, samples[IO_21]);
      PollOneOther(b2, IO_48, samples[IO_48], k);
      PollOneOther(b3, IO_47, samples[IO_47], k);
    } else if k == IO_48 {
      PollOneOther(b, IO_14, samples[IO_14], k);
      PollOneOther(b1, IO_21, samples[IO_21], k);
      PollOneLocal(b2, IO_48, samples[IO_48]);
      PollOneOther(b3, IO_47, samples[IO_47], k);
    } else {
      PollOneOther(b, IO_14, samples[IO_14], k);
      PollOneOther(b1, IO_21, samples[IO_21], k);
      PollOneOther(b2, IO_48, samples[IO_48], k);
      PollOneLocal(b3, IO_47, samples[IO_47]);
    }
  }

  /** Button k ended a pass as its own acceptance decides. */
  predicate Settled(b: Buttons, r: Buttons, samples: seq<Sample>, acc: seq<bool>, k: int)
    requires WellShaped(b) && WellShaped(r) && |samples| == 4 && |acc| == 4 && 0 <= k < 4
  {
    && r.toggles[k] == (b.toggles[k] != acc[k])
    && r.levels[k] == (if acc[k] then samples[k].level else b.levels[k])
    && r.times[PINS[k]] == (if acc[k] then Now32(samples[k].time) else b.times[PINS[k]])
  }

  /** A compare-register write: the table sample and the amplitude it is
      scaled by. */
  datatype Emission = Emission(ticks: int, amplitude: real)

  // ---------------------------------------------------------------------
  // The engine's state

  class FunctionGenerator {
    const sineTable: array<uint16>
    const squareTable: array<uint16>
    const sawtoothTable: array<uint16>
    const triangularTable: array<uint16>
    /** selected_table: null until populate_tables runs. */
    var selectedTable: array?<uint16>

    var cyclesToPop: uint16
    var cyclesCounter: uint8
    var tableCounter: uint16
    var amplitude: real
    var comparatorTicks: uint32
    /** Every value written to the PWM compare register, in order. */
    ghost var compareLog: seq<Emission>

    /** debounce_gpio's static last_time[GPIO_NUM_MAX]. */
    const lastTime: array<uint32>
    /** handle_gpio_input's statics: the debounced level of each button and
        the toggle flag each accepted transition flips. */
    const lastIoLevel: array<bool>
    const ioState: array<bool>
    var selectedWaveform: uint8

    /** The display. */
    const lcd: Lcd.I2cDevice

    /** waveforms_table[w]. */
    function WaveformsTable(w: int): (t: array<uint16>)
      requires 0 <= w < 4
      ensures t == sineTable || t == squareTable || t == sawtoothTable || t == triangularTable
    {
      if w == SINE then sineTable else if w == SQUARE then squareTable
      else if w == SAWTOOTH then sawtoothTable else triangularTable
    }

    ghost predicate Valid()
      reads this
    {
      && sineTable.Length == TABLE_RESOLUTION && squareTable.Length == TABLE_RESOLUTION
      && sawtoothTable.Length == TABLE_RESOLUTION && triangularTable.Length == TABLE_RESOLUTION
      && sineTable != squareTable && sineTable != sawtoothTable && sineTable != triangularTable
      && squareTable != sawtoothTable && squareTable != triangularTable && sawtoothTable != triangularTable
      && lastTime.Length == GPIO_NUM_MAX && lastIoLevel.Length == 4 && ioState.Length == 4
      && lastIoLevel != ioState
      && ValidParams(Params(cyclesToPop, amplitude, selectedWaveform))
      && 0 <= cyclesCounter < MAX_CYCLES_TO_POP
      && 0 <= tableCounter < TABLE_RESOLUTION
      && (selectedTable == null || selectedTable == sineTable || selectedTable == squareTable
          || selectedTable == sawtoothTable || selectedTable == triangularTable)
    }

    /** The tables hold the formulas of populate_tables, the sine samples
        bounded by the PWM period. */
    ghost predicate TablesPopulated()
      reads sineTable, squareTable, sawtoothTable, triangularTable
    {
      && sineTable.Length == TABLE_RESOLUTION && squareTable.Length == TABLE_RESOLUTION
      && sawtoothTable.Length == TABLE_RESOLUTION && triangularTable.Length == TABLE_RESOLUTION
      && forall i :: 0 <= i < TABLE_RESOLUTION ==>
           && sineTable[i] <= 2 * W
           && squareTable[i] == SquareAt(sineTable[i])
           && sawtoothTable[i] == SawtoothAt(i)
           && triangularTable[i] == TriangularAt(i)
    }

    /** The state at boot: zeroed globals and statics with their initialisers. */
    constructor (lcd: Lcd.I2cDevice)
      ensures Valid()
      ensures fresh(sineTable) && fresh(squareTable) && fresh(sawtoothTable) && fresh(triangularTable)
      ensures fresh(lastTime) && fresh(lastIoLevel) && fresh(ioState)
      ensures selectedTable == null && selectedWaveform == SINE
      ensures cyclesToPop == 1 && cyclesCounter == 0 && tableCounter == 0 && amplitude == 1.0
      ensures comparatorTicks == 1 && compareLog == []
      ensures forall p :: 0 <= p < lastTime.Length ==> lastTime[p] == 0
      ensures forall k :: 0 <= k < 4 ==> !lastIoLevel[k] && !ioState[k]
      ensures this.lcd == lcd
    {
      sineTable := new uint16[TABLE_RESOLUTION](_ => 0);
      squareTable := new uint16[TABLE_RESOLUTION](_ => 0);
      sawtoothTable := new uint16[TABLE_RESOLUTION](_ => 0);
      triangularTable := new uint16[TABLE_RESOLUTION](_ => 0);
      selectedTable := null;
      cyclesToPop := 1;
      cyclesCounter := 0;
      tableCounter := 0;
      amplitude := 1.0;
      comparatorTicks := 1;
      compareLog := [];
      lastTime := new uint32[GPIO_NUM_MAX](_ => 0);
      lastIoLevel := new bool[4](_ => false);
      ioState := new bool[4](_ => false);
      selectedWaveform := SINE;
      this.lcd := lcd;
    }

    /** populate_tables: fills the four tables (the sine samples are given:
        their sin() computation is floating point) and selects the sine table
        whatever the selector holds. */
    method PopulateTables(sineSamples: seq<uint16>)
      requires Valid()
      requires |sineSamples| == TABLE_RESOLUTION
      requires forall i :: 0 <= i < |sineSamples| ==> sineSamples[i] <= 2 * W
      modifies this`selectedTable, sineTable, squareTable, sawtoothTable, triangularTable
      ensures Valid() && TablesPopulated()
      ensures sineTable[..] == sineSamples
      ensures selectedTable == sineTable
      ensures old(selectedWaveform) == SINE ==> selectedTable == WaveformsTable(selectedWaveform)
    {
      for i := 0 to TABLE_RESOLUTION
        invariant forall j :: 0 <= j < i ==>
          && sineTable[j] == sineSamples[j]
          && squareTable[j] == SquareAt(sineTable[j])
          && sawtoothTable[j] == SawtoothAt(j)
          && triangularTable[j] == TriangularAt(j)
      {
        sineTable[i] := sineSamples[i];
        squareTable[i] := SquareAt(sineTable[i]);
        sawtoothTable[i] := SawtoothAt(i);
        triangularTable[i] := TriangularAt(i);
      }
      selectedTable := sineTable;
    }

    /** on_full_callback: one tick of the signal timer. Returns the
        "a higher-priority task was woken" flag, always false. */
    method OnFullCallback() returns (taskWoken: bool)
      requires Valid() && selectedTable != null
      modifies this`cyclesCounter, this`tableCounter, this`comparatorTicks, this`compareLog
      ensures Valid() && !taskWoken
      ensures var t := Tick(Stepper(old(cyclesCounter), old(tableCounter), |old(compareLog)|), cyclesToPop);
              cyclesCounter == t.counter && tableCounter == t.index && |compareLog| == t.pops
      ensures cyclesCounter < cyclesToPop
      ensures compareLog[..|old(compareLog)|] == old(compareLog)
      ensures |compareLog| > |old(compareLog)| ==>
                comparatorTicks == selectedTable[tableCounter]
                && compareLog[|compareLog| - 1] == Emission(comparatorTicks, amplitude)
      ensures |compareLog| == |old(compareLog)| ==> comparatorTicks == old(comparatorTicks)
      ensures TablesPopulated() && |compareLog| > |old(compareLog)| ==> comparatorTicks <= PWM_TIMER_PERIOD_TICKS
    {
      cyclesCounter := (cyclesCounter + 1) % 0x100;
      if cyclesCounter >= cyclesToPop {
        tableCounter := (tableCounter + 1) % TABLE_RESOLUTION;
        comparatorTicks := selectedTable[tableCounter];
        compareLog := compareLog + [Emission(comparatorTicks, amplitude)];
        cyclesCounter := 0;
      }
      taskWoken := false;
    }

    /** debounce_gpio(pin, last_state): `level` is gpio_get_level(pin) and
        `now` esp_timer_get_time(); `lastState[slot]` is *last_state. */
    method DebounceGpio(pin: int, level: bool, now: int, lastState: array<bool>, slot: int) returns (accepted: bool)
      requires 0 <= pin < lastTime.Length && 0 <= slot < lastState.Length
      modifies lastTime, lastState
      ensures accepted == Accepts(level, old(lastState[slot]), Now32(now), old(lastTime[pin]))
      ensures lastState[..] == if accepted then old(lastState[..])[slot := level] else old(lastState[..])
      ensures lastTime[..] == if accepted then old(lastTime[..])[pin := Now32(now)] else old(lastTime[..])
    {
      var currentTime := Now32(now);
      var currentState := level;
      if currentState != lastState[slot] && Elapsed(currentTime, lastTime[pin]) > DEBOUNCE_WINDOW {
        lastState[slot] := currentState;
        lastTime[pin] := currentTime;
        return true;
      }
      return false;
    }

    /** The buttons' debounce state. */
    ghost function ButtonState(): Buttons
      reads this, lastIoLevel, ioState, lastTime
    {
      Buttons(lastIoLevel[..], ioState[..], lastTime[..])
    }

    /** One `if (debounce_gpio(pin, &last_io_level)) io_state = !io_state;`
        of handle_gpio_input, for button k. */
    method ToggleOnTransition(k: int, sample: Sample)
      requires lastTime.Length == GPIO_NUM_MAX && lastIoLevel.Length == 4 && ioState.Length == 4
      requires lastIoLevel != ioState && 0 <= k < 4
      modifies lastTime, lastIoLevel, ioState
      ensures ButtonState() == PollOne(old(ButtonState()), k, sample)
    {
      var accepted := DebounceGpio(PINS[k], sample.level, sample.time, lastIoLevel, k);
      if accepted {
        ioState[k] := !ioState[k];
      }
    }

    /** The debounce half of handle_gpio_input: the four buttons in order. */
    method PollButtons(samples: seq<Sample>)
      requires lastTime.Length == GPIO_NUM_MAX && lastIoLevel.Length == 4 && ioState.Length == 4
      requires lastIoLevel != ioState && |samples| == 4
      modifies lastTime, lastIoLevel, ioState
      ensures ButtonState() == Poll(old(ButtonState()), samples)
    {
      ToggleOnTransition(IO_14, samples[IO_14]);
      ToggleOnTransition(IO_21, samples[IO_21]);
      ToggleOnTransition(IO_48, samples[IO_48]);
      ToggleOnTransition(IO_47, samples[IO_47]);
    }

    /** The frequency half of a control pass: button 21 lowers the divisor
        and button 14 raises it, each followed by a refresh of the display. */
    method ChangeFrequency()
      requires 1 <= cyclesToPop <= MAX_CYCLES_TO_POP && ioState.Length == 4
      modifies this`cyclesToPop, lcd
      ensures 1 <= cyclesToPop <= MAX_CYCLES_TO_POP
      ensures cyclesToPop == AdjustCycles(old(cyclesToPop), ioState[..])
      ensures lcd.transactions == old(lcd.transactions) + ControlFrames(old(cyclesToPop), ioState[..])
    {
      ghost var t0, c0 := lcd.transactions, cyclesToPop;
      if ioState[IO_21] {
        cyclesToPop := DecreaseCyclesToPop(cyclesToPop);
        ShowFrequency(lcd, cyclesToPop);
      }
      ghost var slower := if ioState[IO_21] then FrequencyFrames(cyclesToPop) else [];
      assert lcd.transactions == t0 + slower;
      if ioState[IO_14] {
        cyclesToPop := IncreaseCyclesToPop(cyclesToPop);
        ShowFrequency(lcd, cyclesToPop);
      }
      ghost var faster := if ioState[IO_14] then FrequencyFrames(cyclesToPop) else [];
      assert lcd.transactions == t0 + slower + faster;
      assert ControlFrames(c0, ioState[..]) == slower + faster;
      AppendAssociative(t0, slower, faster);
    }

    /** The output half of a control pass: button 48 raises the amplitude,
        button 47 lowers it, and both together select the next waveform. */
    method ChangeOutput()
      requires Valid()
      modifies this`amplitude, this`selectedWaveform, this`selectedTable
      ensures Valid()
      ensures amplitude == AdjustAmplitude(old(amplitude), ioState[..])
      ensures selectedWaveform == if ioState[IO_47] && ioState[IO_48] then NextWaveform(old(selectedWaveform))
                                  else old(selectedWaveform)
      ensures selectedTable == if ioState[IO_47] && ioState[IO_48] then WaveformsTable(selectedWaveform)
                               else old(selectedTable)
    {
      if ioState[IO_48] {
        amplitude := IncreaseAmplitude(amplitude);
      }
      if ioState[IO_47] {
        amplitude := DecreaseAmplitude(amplitude);
      }
      if ioState[IO_47] && ioState[IO_48] {
        selectedWaveform := NextWaveform(selectedWaveform);
        selectedTable := WaveformsTable(selectedWaveform);
      }
    }

    /** handle_gpio_input: one control pass. `samples[k]` is what polling
        button k (pin PINS[k]) reads. */
    method HandleGpioInput(samples: seq<Sample>)
      requires Valid() && |samples| == 4
      modifies this`cyclesToPop, this`amplitude, this`selectedWaveform, this`selectedTable
      modifies lastTime, lastIoLevel, ioState, lcd
      ensures Valid()
      ensures ButtonState() == Poll(old(ButtonState()), samples)
      ensures Params(cyclesToPop, amplitude, selectedWaveform)
           == Adjust(Params(old(cyclesToPop), old(amplitude), old(selectedWaveform)), ioState[..])
      ensures selectedTable == if ioState[IO_47] && ioState[IO_48] then WaveformsTable(selectedWaveform)
                               else old(selectedTable)
      ensures lcd.transactions == old(lcd.transactions) + ControlFrames(old(cyclesToPop), ioState[..])
    {
      PollButtons(samples);
      ghost var io := ioState[..];
      ChangeFrequency();
      assert ioState[..] == io;
      ChangeOutput();
      assert ioState[..] == io;
    }
  }
}
