/**
 * What the firmware shows on its onboard LED, and the pauses between: the
 * heartbeat after each sample, the two pulses after each dump, and the blink
 * code of `error_loop`, which is the only error report a deployed logger has.
 */
module Signals {
  /** `onboard_led.on()`, `onboard_led.off()`, `sleep_ms(ms)` and `lightsleep(ms)`. */
  datatype Event = LedOn | LedOff | SleepMs(ms: nat) | LightSleepMs(ms: nat)

  /** `block` repeated `n` times: the body of a `for _ in range(n)` loop. */
  function Repeat(block: seq<Event>, n: nat): seq<Event>
  {
    if n == 0 then [] else Repeat(block, n - 1) + block
  }

  /** Number of times the LED is switched on. */
  function CountOn(events: seq<Event>): nat
  {
    if events == [] then 0 else CountOn(events[..|events| - 1]) + (if events[|events| - 1] == LedOn then 1 else 0)
  }

  lemma {:induction false} CountOnAppend(a: seq<Event>, b: seq<Event>)
    ensures CountOn(a + b) == CountOn(a) + CountOn(b)
    decreases |b|
  {
    if b == [] {
      assert a + b == a;
    } else {
      assert (a + b)[..|a + b| - 1] == a + b[..|b| - 1];
      CountOnAppend(a, b[..|b| - 1]);
    }
  }

  lemma {:induction false} CountOnWithoutLedOn(events: seq<Event>)
    requires LedOn !in events
    ensures CountOn(events) == 0
    decreases |events|
  {
    if events != [] {
      CountOnWithoutLedOn(events[..|events| - 1]);
    }
  }

  /** A block that switches the LED on once, first, then never again. */
  lemma LightsOnce(block: seq<Event>)
    requires 1 <= |block| && block[0] == LedOn && LedOn !in block[1..]
    ensures CountOn(block) == 1
  {
    CountOnWithoutLedOn(block[1..]);
    CountOnAppend([LedOn], block[1..]);
    assert [LedOn] + block[1..] == block;
    assert [LedOn][..0] == [];
  }

  /** A block repeated `n` times is `n` times as long and lights the LED `n` times as often. */
  lemma {:induction false} RepeatCounts(block: seq<Event>, n: nat)
    ensures |Repeat(block, n)| == n * |block|
    ensures CountOn(Repeat(block, n)) == n * CountOn(block)
  {
    if n > 0 {
      RepeatCounts(block, n - 1);
      CountOnAppend(Repeat(block, n - 1), block);
      assert n * |block| == (n - 1) * |block| + |block|;
      assert n * CountOn(block) == (n - 1) * CountOn(block) + CountOn(block);
    }
  }

  /** The heartbeat after each sample: on, 250 ms, off. */
  const HEARTBEAT: seq<Event> := [LedOn, SleepMs(250), LedOff]

  /** One pulse of the dump acknowledgement: on, 250 ms, off, 500 ms. */
  const FLUSH_PULSE: seq<Event> := [LedOn, SleepMs(250), LedOff, SleepMs(500)]

  /** One blink of an error code: on for one second, off for one second. */
  const ERROR_BLINK: seq<Event> := [LedOn, SleepMs(1000), LedOff, SleepMs(1000)]

  /** The pause that ends each cycle of an error code. */
  const ERROR_PAUSE_MS: nat := 5000

  /** One cycle of `error_loop(blink_count)`, which repeats it forever. */
  function BlinkCycle(blinkCount: nat): seq<Event>
  {
    Repeat(ERROR_BLINK, blinkCount) + [SleepMs(ERROR_PAUSE_MS)]
  }

  /** A cycle lights the LED exactly `blinkCount` times and ends with the five-second pause. */
  lemma BlinkCycleShowsCode(blinkCount: nat)
    ensures CountOn(BlinkCycle(blinkCount)) == blinkCount
    ensures |BlinkCycle(blinkCount)| == 4 * blinkCount + 1
    ensures BlinkCycle(blinkCount)[4 * blinkCount] == SleepMs(ERROR_PAUSE_MS)
  {
    LightsOnce(ERROR_BLINK);
    RepeatCounts(ERROR_BLINK, blinkCount);
    CountOnAppend(Repeat(ERROR_BLINK, blinkCount), [SleepMs(ERROR_PAUSE_MS)]);
    CountOnWithoutLedOn([SleepMs(ERROR_PAUSE_MS)]);
  }

  /** Different error codes blink differently, so an observer can tell them apart. */
  lemma BlinkCodesDistinct(a: nat, b: nat)
    requires a != b
    ensures BlinkCycle(a) != BlinkCycle(b)
  {
    BlinkCycleShowsCode(a);
    BlinkCycleShowsCode(b);
  }

  /** The acknowledgement of a dump: two pulses. */
  lemma FlushSignalPulsesTwice()
    ensures CountOn(Repeat(FLUSH_PULSE, 2)) == 2
  {
    LightsOnce(FLUSH_PULSE);
    RepeatCounts(FLUSH_PULSE, 2);
  }
}
