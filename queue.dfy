/**
 * What the main loop does with samples, as values: each cycle appends one
 * sample to `data_queue`, dumps the queue when it reaches
 * `_DATA_QUEUE_MAX_LEN` entries, and dumps it again on a manual request.
 * A `Flow` records the batches handed to `dump_to_storage` so far, oldest
 * first, and what is still queued.
 */
module SampleQueue {
  import opened Measurement

  /** `_DATA_QUEUE_MAX_LEN`. */
  const DATA_QUEUE_MAX_LEN: nat := 30

  /** The batches written so far, one after another. */
  function Flatten(batches: seq<seq<Sample>>): seq<Sample>
  {
    if batches == [] then [] else Flatten(batches[..|batches| - 1]) + batches[|batches| - 1]
  }

  datatype Flow = Flow(batches: seq<seq<Sample>>, queue: seq<Sample>)

  /** Every sample the flow holds, written or queued, in arrival order. */
  function Samples(f: Flow): seq<Sample>
  {
    Flatten(f.batches) + f.queue
  }

  /**
   * `dump_to_storage(data_queue)`: an empty queue is left alone; a non-empty
   * one becomes the next batch and the queue is cleared.
   */
  function Dump(f: Flow): (r: Flow)
    ensures r.queue == [] && Samples(r) == Samples(f)
    ensures f.queue == [] ==> r == f
    ensures f.queue != [] ==> r.batches == f.batches + [f.queue]
  {
    if f.queue == [] then f else Flow(f.batches + [f.queue], [])
  }

  /**
   * One pass of the main loop after a successful measurement of `s`: append,
   * dump when full, then dump again when a manual dump was requested.
   */
  function Cycle(f: Flow, s: Sample, manual: bool): (r: Flow)
    requires |f.queue| < DATA_QUEUE_MAX_LEN
    ensures Samples(r) == Samples(f) + [s]
    ensures |r.queue| < DATA_QUEUE_MAX_LEN
    ensures manual ==> r.queue == []
    ensures !manual && |f.queue| + 1 == DATA_QUEUE_MAX_LEN ==> r == Flow(f.batches + [f.queue + [s]], [])
    ensures !manual && |f.queue| + 1 < DATA_QUEUE_MAX_LEN ==> r == Flow(f.batches, f.queue + [s])
    ensures f.batches <= r.batches
    ensures forall i :: |f.batches| <= i < |r.batches| ==> 1 <= |r.batches[i]| <= DATA_QUEUE_MAX_LEN
  {
    var appended := Flow(f.batches, f.queue + [s]);
    var afterFull := if |appended.queue| == DATA_QUEUE_MAX_LEN then Dump(appended) else appended;
    if manual then Dump(afterFull) else afterFull
  }

  /**
   * A manual request writes what was queued together with the sample of the
   * same cycle, since the append comes before the sleep: with five queued,
   * the batch holds six. A next cycle without a request writes nothing.
   */
  lemma ManualDumpTakesCurrentSample(f: Flow, s: Sample, next: Sample)
    requires |f.queue| + 1 < DATA_QUEUE_MAX_LEN
    ensures Cycle(f, s, true) == Flow(f.batches + [f.queue + [s]], [])
    ensures Cycle(Cycle(f, s, true), next, false) == Flow(f.batches + [f.queue + [s]], [next])
  {
  }

  /** A cycle with a manual request is the same cycle without one, then a dump. */
  lemma CycleThenDump(f: Flow, s: Sample, manual: bool)
    requires |f.queue| < DATA_QUEUE_MAX_LEN
    ensures Cycle(f, s, manual) == if manual then Dump(Cycle(f, s, false)) else Cycle(f, s, false)
  {
  }

  /** What one cycle is given: the measured sample and whether a manual dump follows it. */
  datatype Input = Input(sample: Sample, manual: bool)

  function SamplesOf(inputs: seq<Input>): (samples: seq<Sample>)
    ensures |samples| == |inputs|
    ensures forall i :: 0 <= i < |inputs| ==> samples[i] == inputs[i].sample
  {
    if inputs == [] then [] else SamplesOf(inputs[..|inputs| - 1]) + [inputs[|inputs| - 1].sample]
  }

  /** The flow after a run of cycles from boot, when the queue starts empty. */
  function Run(inputs: seq<Input>): (r: Flow)
    ensures |r.queue| < DATA_QUEUE_MAX_LEN
  {
    if inputs == [] then Flow([], [])
    else
      var last := inputs[|inputs| - 1];
      Cycle(Run(inputs[..|inputs| - 1]), last.sample, last.manual)
  }

  /**
   * Nothing is lost or reordered: the batches written, followed by the queue,
   * are exactly the samples measured, in order; and every batch holds between
   * one and thirty samples.
   */
  lemma {:induction false} RunKeepsEverySample(inputs: seq<Input>)
    ensures Samples(Run(inputs)) == SamplesOf(inputs)
    ensures forall i :: 0 <= i < |Run(inputs).batches| ==> 1 <= |Run(inputs).batches[i]| <= DATA_QUEUE_MAX_LEN
  {
    if inputs != [] {
      RunKeepsEverySample(inputs[..|inputs| - 1]);
    }
  }

  /**
   * Without manual dumps the queue is written in blocks of exactly thirty, one
   * block per thirty cycles, and what is queued is the tail of the samples
   * since the last full block.
   */
  lemma {:induction false} TimerRunWritesBlocksOfThirty(inputs: seq<Input>)
    requires forall i :: 0 <= i < |inputs| ==> !inputs[i].manual
    ensures var r, n := Run(inputs), |inputs|;
      |r.batches| == n / DATA_QUEUE_MAX_LEN
      && (forall i :: 0 <= i < |r.batches| ==> |r.batches[i]| == DATA_QUEUE_MAX_LEN)
      && r.queue == SamplesOf(inputs)[n - n % DATA_QUEUE_MAX_LEN..]
  {
    if inputs != [] {
      var prefix := inputs[..|inputs| - 1];
      var n := |prefix|;
      TimerRunWritesBlocksOfThirty(prefix);
      var before := Run(prefix);
      var s := inputs[|inputs| - 1].sample;
      var r := Run(inputs);
      assert r == Cycle(before, s, false);
      assert SamplesOf(inputs) == SamplesOf(prefix) + [s];
      assert |before.queue| == n % DATA_QUEUE_MAX_LEN;
      ModuloStep(n);
      if n % DATA_QUEUE_MAX_LEN + 1 < DATA_QUEUE_MAX_LEN {
        assert r == Flow(before.batches, before.queue + [s]);
        assert SamplesOf(inputs)[n - n % DATA_QUEUE_MAX_LEN..] == SamplesOf(prefix)[n - n % DATA_QUEUE_MAX_LEN..] + [s];
      } else {
        assert r == Flow(before.batches + [before.queue + [s]], []);
        forall i | 0 <= i < |r.batches|
          ensures |r.batches[i]| == DATA_QUEUE_MAX_LEN
        {
          if i < |before.batches| {
            assert r.batches[i] == before.batches[i];
          }
        }
      }
    }
  }

  /** How `n % 30` and `n / 30` move when one more sample arrives. */
  lemma ModuloStep(n: nat)
    ensures n % DATA_QUEUE_MAX_LEN + 1 < DATA_QUEUE_MAX_LEN ==>
      (n + 1) % DATA_QUEUE_MAX_LEN == n % DATA_QUEUE_MAX_LEN + 1 && (n + 1) / DATA_QUEUE_MAX_LEN == n / DATA_QUEUE_MAX_LEN
    ensures n % DATA_QUEUE_MAX_LEN + 1 == DATA_QUEUE_MAX_LEN ==>
      (n + 1) % DATA_QUEUE_MAX_LEN == 0 && (n + 1) / DATA_QUEUE_MAX_LEN == n / DATA_QUEUE_MAX_LEN + 1
  {
    var q, m := n / DATA_QUEUE_MAX_LEN, n % DATA_QUEUE_MAX_LEN;
    assert n + 1 == DATA_QUEUE_MAX_LEN * q + (m + 1);
    if m + 1 == DATA_QUEUE_MAX_LEN {
      assert n + 1 == DATA_QUEUE_MAX_LEN * (q + 1);
    }
  }

  /** The thirtieth sample of a quiet run is the one that triggers the first dump. */
  lemma {:induction false} FirstDumpOnThirtiethSample(inputs: seq<Input>)
    requires forall i :: 0 <= i < |inputs| ==> !inputs[i].manual
    ensures |inputs| < DATA_QUEUE_MAX_LEN ==> Run(inputs).batches == []
    ensures |inputs| == DATA_QUEUE_MAX_LEN ==> Run(inputs) == Flow([SamplesOf(inputs)], [])
  {
    TimerRunWritesBlocksOfThirty(inputs);
    RunKeepsEverySample(inputs);
    var r := Run(inputs);
    if |inputs| == DATA_QUEUE_MAX_LEN {
      assert |r.batches| == 1 && r.queue == [];
      assert r.batches == [r.batches[0]];
      assert Flatten(r.batches) == Flatten([]) + r.batches[0];
      assert Samples(r) == r.batches[0];
      assert r == Flow([r.batches[0]], []);
    }
  }
}
