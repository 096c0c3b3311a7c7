/**
 * The logger itself: the globals both entry files keep (`data_queue`,
 * `current_data_file_path`, `data_file_write_count`, `measurement_count`,
 * `manual_data_dump_triggered`), the SD card and the LED, and the functions
 * and loops that change them. `src/boot.py` and `src/main.py` differ only in
 * how a manual dump is requested, so they share this class and each has its
 * own cycle method.
 */
module TankLogger {
  import opened Wrappers
  import opened SystemTime
  import opened Measurement
  import opened Csv
  import opened Storage
  import opened Signals
  import opened SampleQueue

  /** `_MEASURE_DELAY_SEC` and `_MEASURE_DELAY_MS`. */
  const MEASURE_DELAY_SEC: nat := 60
  const MEASURE_DELAY_MS: nat := MEASURE_DELAY_SEC * 1000

  /** The pause between setting the clock and scanning the sensors. */
  const BOOT_DELAY_MS: nat := 5000

  /**
   * How setting the clock ended. Only `src/boot.py` gives up on WiFi after
   * `_WIFI_CONNECT_ATTEMPTS` timeouts; `src/main.py` keeps trying forever.
   * `ConnectOrNtpFailed` is an `OSError` raised while connecting or while
   * querying NTP.
   */
  datatype TimeSync = Synced | ConnectAttemptsExhausted | ConnectOrNtpFailed

  /** Where boot ends: the main loop, an error loop with its blink count, a soft reset, or an escaped exception. */
  datatype BootOutcome = Running | ErrorHalt(blinkCount: nat) | SoftReset | BootCrashed

  /**
   * The boot gate: exhausted WiFi attempts blink 4 and an `OSError` while
   * connecting or querying NTP resets; then the sensor scan must find two addresses (else 1), the
   * diagnostic sample must be valid (else 2), and the measurements directory
   * must be reachable (else 3). The first failure decides.
   */
  function BootGate(sync: TimeSync, sensorCount: nat, diagnostic: MeasureResult, chdirSucceeded: bool): (outcome: BootOutcome)
    ensures outcome == ErrorHalt(4) <==> sync == ConnectAttemptsExhausted
    ensures outcome == SoftReset <==> sync == ConnectOrNtpFailed
    ensures outcome == ErrorHalt(1) <==> sync == Synced && sensorCount != 2
    ensures outcome == BootCrashed <==> sync == Synced && sensorCount == 2 && diagnostic.Raised?
    ensures outcome == ErrorHalt(2) <==>
      sync == Synced && sensorCount == 2 && diagnostic.Measured? && !IsValid(diagnostic.sample)
    ensures outcome == ErrorHalt(3) <==>
      sync == Synced && sensorCount == 2 && diagnostic.Measured? && IsValid(diagnostic.sample) && !chdirSucceeded
    ensures outcome == Running <==>
      sync == Synced && sensorCount == 2 && diagnostic.Measured? && IsValid(diagnostic.sample) && chdirSucceeded
    ensures outcome.ErrorHalt? ==> 1 <= outcome.blinkCount <= 4
  {
    match sync
    case ConnectAttemptsExhausted => ErrorHalt(4)
    case ConnectOrNtpFailed => SoftReset
    case Synced =>
      if sensorCount != 2 then ErrorHalt(1)
      else if diagnostic.Raised? then BootCrashed
      else if !IsValid(diagnostic.sample) then ErrorHalt(2)
      else if !chdirSucceeded then ErrorHalt(3)
      else Running
  }

  /** Each way of halting shows its own blink pattern, so the LED names the failure. */
  lemma HaltsAreDistinguishable(a: BootOutcome, b: BootOutcome)
    requires a.ErrorHalt? && b.ErrorHalt? && a != b
    ensures BlinkCycle(a.blinkCount) != BlinkCycle(b.blinkCount)
  {
    BlinkCodesDistinct(a.blinkCount, b.blinkCount);
  }

  /**
   * What the sensors and the clock give one measurement: whether
   * `dht_sensor.measure()` and `ds_sensors.convert_temp()` returned, the
   * clock, and the three reads.
   */
  datatype Reading = Reading(sensorsUpdated: bool, now: DateTime, air: ReadOutcome, water1: ReadOutcome, water2: ReadOutcome)

  /**
   * The result `take_measurement` computes from a reading. The sensor
   * updates run before the `try`, so any exception they raise, a
   * `OneWireError` included, escapes.
   */
  function MeasureReading(reading: Reading): (r: MeasureResult)
    ensures r.Raised? <==> !reading.sensorsUpdated || FirstFault(reading.air, reading.water1, reading.water2) == Some(OtherError)
  {
    if !reading.sensorsUpdated then Raised
    else Measure(FormatSystemTime(reading.now), reading.air, reading.water1, reading.water2)
  }

  /** Why `lightsleep` returned, as `wake_reason()` reports it in `src/boot.py`. */
  datatype WakeReason = TimerWake | PinWake

  /** How one pass of a main loop ended: on to the next, or an exception ended the program. */
  datatype CycleOutcome = Continued | Crashed

  /** What `take_measurement` gives for each reading of a run, in order. */
  function Results(readings: seq<Reading>): (results: seq<MeasureResult>)
    ensures |results| == |readings|
  {
    if readings == [] then []
    else Results(readings[..|readings| - 1]) + [MeasureReading(readings[|readings| - 1])]
  }

  lemma {:induction false} ResultsAt(readings: seq<Reading>, i: nat)
    requires i < |readings|
    ensures Results(readings)[i] == MeasureReading(readings[i])
  {
    var n := |readings| - 1;
    if i < n {
      ResultsAt(readings[..n], i);
      assert readings[..n][i] == readings[i];
    }
  }

  /** No measurement of the run raised. */
  predicate AllMeasured(results: seq<MeasureResult>)
  {
    forall i :: 0 <= i < |results| ==> results[i].Measured?
  }

  /** What the queue is given by a run whose measurements all succeeded: each sample and whether a manual dump follows it. */
  function Inputs(results: seq<MeasureResult>, manual: seq<bool>): (inputs: seq<Input>)
    requires |results| == |manual| && AllMeasured(results)
    ensures |inputs| == |results|
  {
    if results == [] then []
    else
      var n := |results| - 1;
      Inputs(results[..n], manual[..n]) + [Input(results[n].sample, manual[n])]
  }

  lemma {:induction false} InputsAt(results: seq<MeasureResult>, manual: seq<bool>, i: nat)
    requires |results| == |manual| && AllMeasured(results) && i < |results|
    ensures Inputs(results, manual)[i] == Input(results[i].sample, manual[i])
  {
    var n := |results| - 1;
    if i < n {
      InputsAt(results[..n], manual[..n], i);
    }
  }

  /** The cycles of `src/boot.py` that dump on request: those the button woke. */
  function PinWakeRequests(wakes: seq<WakeReason>): (manual: seq<bool>)
    ensures |manual| == |wakes|
  {
    if wakes == [] then [] else PinWakeRequests(wakes[..|wakes| - 1]) + [wakes[|wakes| - 1] == PinWake]
  }

  lemma {:induction false} PinWakeRequestsAt(wakes: seq<WakeReason>, i: nat)
    requires i < |wakes|
    ensures PinWakeRequests(wakes)[i] <==> wakes[i] == PinWake
  {
    var n := |wakes| - 1;
    if i < n {
      PinWakeRequestsAt(wakes[..n], i);
    }
  }

  /**
   * The cycles of `src/main.py` that dump on request: those with a press
   * before the check, and the first one also when the flag was already up
   * as the loop began (the handler is installed before boot).
   */
  function FlagRequests(presses: seq<bool>, flagUp: bool): (manual: seq<bool>)
    ensures |manual| == |presses|
  {
    if presses == [] then []
    else
      var n := |presses| - 1;
      FlagRequests(presses[..n], flagUp) + [presses[n] || (n == 0 && flagUp)]
  }

  lemma {:induction false} FlagRequestsAt(presses: seq<bool>, flagUp: bool, i: nat)
    requires i < |presses|
    ensures FlagRequests(presses, flagUp)[i] <==> presses[i] || (i == 0 && flagUp)
  {
    var n := |presses| - 1;
    if i < n {
      FlagRequestsAt(presses[..n], flagUp, i);
    }
  }

  /** What `dump_to_storage` carries from one call to the next: the card, `current_data_file_path` and `data_file_write_count`. */
  datatype DataLog = DataLog(card: FileSystem, path: string, writeCount: int)

  /** A consistent card whose current path names one of its files. */
  ghost predicate Usable(log: DataLog)
  {
    WellFormed(log.card) && Resolve(log.path) in log.card.files
  }

  /**
   * The data log after `dump_to_storage` has written each batch in turn: the
   * CSV lines of a batch go through `StoreLines`, and the write count is
   * reset by a rotation and then counts the write.
   */
  function WriteBatches(log: DataLog, batches: seq<seq<Sample>>, show: real -> string): (r: DataLog)
    requires Usable(log)
    ensures Usable(r)
  {
    if batches == [] then log
    else WriteBatch(WriteBatches(log, batches[..|batches| - 1], show), batches[|batches| - 1], show)
  }

  /** One call of `dump_to_storage` on a non-empty batch, as it changes the data log. */
  function WriteBatch(log: DataLog, batch: seq<Sample>, show: real -> string): (r: DataLog)
    requires Usable(log)
    ensures Usable(r)
  {
    var stored := StoreLines(log.card, log.path, CsvLines(batch, show));
    DataLog(stored.card, stored.path, if stored.rotated then 1 else log.writeCount + 1)
  }

  /** Writing two runs of batches one after the other is writing them together. */
  lemma {:induction false} WriteBatchesAppend(log: DataLog, a: seq<seq<Sample>>, b: seq<seq<Sample>>, show: real -> string)
    requires Usable(log)
    ensures WriteBatches(log, a + b, show) == WriteBatches(WriteBatches(log, a, show), b, show)
    decreases |b|
  {
    if b == [] {
      assert a + b == a;
    } else {
      assert (a + b)[..|a + b| - 1] == a + b[..|b| - 1];
      WriteBatchesAppend(log, a, b[..|b| - 1], show);
    }
  }

  /**
   * The write count counts the writes since the last rotation: it has grown
   * by the number of batches, or a rotation restarted it within them.
   */
  lemma {:induction false} WriteBatchesCount(log: DataLog, batches: seq<seq<Sample>>, show: real -> string)
    requires Usable(log)
    ensures var r := WriteBatches(log, batches, show);
      r.writeCount == log.writeCount + |batches| || 1 <= r.writeCount <= |batches|
  {
    if batches != [] {
      WriteBatchesCount(log, batches[..|batches| - 1], show);
    }
  }

  /** Two writes in a row, stated against the log before each, compose. */
  lemma WriteBatchesChain(log0: DataLog, log1: DataLog, log2: DataLog,
                          b0: seq<seq<Sample>>, b1: seq<seq<Sample>>, b2: seq<seq<Sample>>, show: real -> string)
    requires Usable(log0) && b0 <= b1 <= b2
    requires log1 == WriteBatches(log0, b1[|b0|..], show) && log2 == WriteBatches(log1, b2[|b1|..], show)
    ensures log2 == WriteBatches(log0, b2[|b0|..], show)
  {
    WriteBatchesAppend(log0, b1[|b0|..], b2[|b1|..], show);
    SlicesJoin(b0, b1, b2);
  }

  lemma SlicesJoin<T>(b0: seq<T>, b1: seq<T>, b2: seq<T>)
    requires b0 <= b1 <= b2
    ensures b1[|b0|..] + b2[|b1|..] == b2[|b0|..]
  {
  }

  lemma AppendAssociates<T>(a: seq<T>, b: seq<T>, c: seq<T>)
    ensures a + (b + c) == a + b + c
  {
  }

  /**
   * The LED and sleep events of one pass that queues a sample behind
   * `queued` others: the heartbeat, two pulses when the queue fills, the
   * sleep, and two pulses when a manual dump finds samples to write (a dump
   * of the full queue has left none).
   */
  function PassSignals(queued: nat, manual: bool, sleepMs: nat): seq<Event>
  {
    var full := queued + 1 == DATA_QUEUE_MAX_LEN;
    HEARTBEAT + (if full then Repeat(FLUSH_PULSE, 2) else []) + [LightSleepMs(sleepMs)]
    + (if manual && !full then Repeat(FLUSH_PULSE, 2) else [])
  }

  /** The events of a pass, added to what the LED did before it, one part at a time. */
  lemma PassSignalsParts(before: seq<Event>, queued: nat, manual: bool, sleepMs: nat)
    ensures var full := queued + 1 == DATA_QUEUE_MAX_LEN;
      before + PassSignals(queued, manual, sleepMs)
      == before + HEARTBEAT + (if full then Repeat(FLUSH_PULSE, 2) else []) + [LightSleepMs(sleepMs)]
         + (if manual && !full then Repeat(FLUSH_PULSE, 2) else [])
  {
  }

  /** A pass lights the LED once for its sample and twice for each batch it writes. */
  lemma PassSignalsCount(f: Flow, s: Sample, manual: bool, sleepMs: nat)
    requires |f.queue| < DATA_QUEUE_MAX_LEN
    ensures CountOn(PassSignals(|f.queue|, manual, sleepMs)) == 1 + 2 * (|Cycle(f, s, manual).batches| - |f.batches|)
  {
    var full := |f.queue| + 1 == DATA_QUEUE_MAX_LEN;
    var pulses := Repeat(FLUSH_PULSE, 2);
    var first: seq<Event> := if full then pulses else [];
    var second: seq<Event> := if manual && !full then pulses else [];
    var sleep := [LightSleepMs(sleepMs)];
    if full || manual {
      assert Cycle(f, s, manual) == Flow(f.batches + [f.queue + [s]], []);
    } else {
      assert Cycle(f, s, manual) == Flow(f.batches, f.queue + [s]);
    }
    FlushSignalPulsesTwice();
    LightsOnce(HEARTBEAT);
    CountOnWithoutLedOn(sleep);
    CountOnWithoutLedOn([]);
    CountOnAppend(HEARTBEAT, first);
    CountOnAppend(HEARTBEAT + first, sleep);
    CountOnAppend(HEARTBEAT + first + sleep, second);
  }

  /** The LED and sleep events of a run of passes from boot. */
  function RunSignals(inputs: seq<Input>, sleepMs: nat): seq<Event>
  {
    if inputs == [] then []
    else
      var n := |inputs| - 1;
      RunSignals(inputs[..n], sleepMs) + PassSignals(|Run(inputs[..n]).queue|, inputs[n].manual, sleepMs)
  }

  /** Over a run from boot, the LED lights once per sample and twice per batch written. */
  lemma {:induction false} RunSignalsCount(inputs: seq<Input>, sleepMs: nat)
    ensures CountOn(RunSignals(inputs, sleepMs)) == |inputs| + 2 * |Run(inputs).batches|
  {
    if inputs != [] {
      var n := |inputs| - 1;
      RunSignalsCount(inputs[..n], sleepMs);
      PassSignalsCount(Run(inputs[..n]), inputs[n].sample, inputs[n].manual, sleepMs);
      CountOnAppend(RunSignals(inputs[..n], sleepMs), PassSignals(|Run(inputs[..n]).queue|, inputs[n].manual, sleepMs));
    }
  }

  /** `data_queue`: a list that `dump_to_storage` clears through the reference it is handed. */
  class SampleList {
    var items: seq<Sample>

    constructor ()
      ensures items == []
    {
      items := [];
    }

    method Append(s: Sample)
      modifies this
      ensures items == old(items) + [s]
    {
      items := items + [s];
    }

    method Clear()
      modifies this
      ensures items == []
    {
      items := [];
    }
  }

  class Logger {
    /** How a float is written into a CSV line. */
    const show: real -> string
    const dataQueue: SampleList
    var currentDataFilePath: Option<string>
    var dataFileWriteCount: int
    var measurementCount: int
    var manualDataDumpTriggered: bool
    /** The measurements directory on the SD card. */
    var card: FileSystem
    /** Everything the onboard LED and the sleeps have done, in order. */
    var led: seq<Event>
    /** Every sample the main loop has queued, and every batch handed to `dump_to_storage`. */
    ghost var accepted: seq<Sample>
    ghost var batches: seq<seq<Sample>>

    /** After boot: the card is consistent and the current path names one of its files. */
    ghost predicate Ready()
      reads this
    {
      WellFormed(card) && currentDataFilePath.Some? && Resolve(currentDataFilePath.value) in card.files
    }

    /** The directory entry `current_data_file_path` opens. */
    function CurrentFile(): string
      reads this
      requires currentDataFilePath.Some?
    {
      Resolve(currentDataFilePath.value)
    }

    /** The data log as the globals hold it. */
    function Log(): DataLog
      reads this`card, this`currentDataFilePath, this`dataFileWriteCount
      requires currentDataFilePath.Some?
    {
      DataLog(card, currentDataFilePath.value, dataFileWriteCount)
    }

    /** The batches written so far, then the queue, are every sample queued, in order. */
    ghost predicate NothingLost()
      reads this, dataQueue
    {
      Samples(Flow(batches, dataQueue.items)) == accepted
    }

    /** The globals as the module leaves them before the main code runs. */
    constructor (show: real -> string, card: FileSystem)
      requires WellFormed(card)
      ensures this.show == show && this.card == card && led == []
      ensures currentDataFilePath == None && dataFileWriteCount == 0 && measurementCount == 0
      ensures !manualDataDumpTriggered
      ensures fresh(dataQueue) && dataQueue.items == []
      ensures accepted == [] && batches == [] && NothingLost()
    {
      this.show := show;
      this.card := card;
      dataQueue := new SampleList();
      currentDataFilePath := None;
      dataFileWriteCount := 0;
      measurementCount := 0;
      manualDataDumpTriggered := false;
      led := [];
      accepted := [];
      batches := [];
    }

    /**
     * `take_measurement`: update the sensors, stamp a new container, read
     * the three sensors and fill the fields only when all three reads
     * succeeded. A failed update escapes; in the reads, a 1-Wire error leaves
     * the sentinel in place and any other error escapes, before the counter
     * is touched. Otherwise the counter goes up by one exactly when asked.
     */
    method TakeMeasurement(incrementCounter: bool, reading: Reading) returns (r: MeasureResult)
      modifies this`measurementCount
      ensures r == MeasureReading(reading)
      ensures measurementCount == old(measurementCount) + (if incrementCounter && r.Measured? then 1 else 0)
    {
      if !reading.sensorsUpdated {
        return Raised;
      }
      var timestamp := FormatSystemTime(reading.now);
      var container := NewSample(timestamp, None, None, None);
      var air, water1, water2 := reading.air, reading.water1, reading.water2;
      if air.Read? && water1.Read? && water2.Read? {
        container := container.(airTemp1 := air.temperature,
                                waterTemp1 := water1.temperature,
                                waterTemp2 := water2.temperature);
      } else if FirstFault(air, water1, water2) == Some(OtherError) {
        return Raised;
      }
      if incrementCounter {
        measurementCount := measurementCount + 1;
      }
      r := Measured(container);
    }

    /**
     * `create_data_file`: asked to reuse and given a non-empty directory, it
     * returns the last entry and creates nothing; otherwise it opens the file
     * named by the entry count for writing, writes the header, and returns its
     * absolute path.
     */
    method CreateDataFile(checkLastFile: bool) returns (path: string)
      requires WellFormed(card)
      modifies this`card
      ensures WellFormed(card) && Resolve(path) in card.files
      ensures checkLastFile && old(card.listing) != [] ==>
        path == old(card.listing)[|old(card.listing)| - 1] && card == old(card)
      ensures !(checkLastFile && old(card.listing) != []) ==>
        path == DataFilePath(|old(card.listing)|) && card == NextDataFile(old(card))
        && card.files[DataFileName(|old(card.listing)|)] == [DATA_FILE_HEADER]
    {
      var count := CountDataFiles(card);
      if count > 0 && checkLastFile {
        path := card.listing[count - 1];
        ResolveEntryName(path);
        return;
      }
      path := DataFilePath(count);
      ResolveDataFilePath(count);
      card := NextDataFile(card);
    }

    /**
     * `dump_to_storage(data)`. An empty list: nothing at all happens. Otherwise
     * one CSV line per sample, in order; a current file of 2 MiB or more is
     * replaced by a new one (write count reset) before any line is written;
     * every line is appended to the current file and to no other; the write
     * count goes up by one; the list is cleared in place; the LED pulses twice.
     */
    method DumpToStorage(data: SampleList)
      requires Ready()
      modifies this`card, this`currentDataFilePath, this`dataFileWriteCount, this`led, this`batches, data
      ensures Ready()
      ensures Flow(batches, data.items) == Dump(Flow(old(batches), old(data.items)))
      ensures old(data.items) == [] ==> unchanged(this, data)
      ensures old(data.items) != [] ==>
        var stored := StoreLines(old(card), old(currentDataFilePath).value, CsvLines(old(data.items), show));
        card == stored.card && currentDataFilePath == Some(stored.path)
        && dataFileWriteCount == (if stored.rotated then 1 else old(dataFileWriteCount) + 1)
        && led == old(led) + Repeat(FLUSH_PULSE, 2)
      ensures measurementCount == old(measurementCount) && manualDataDumpTriggered == old(manualDataDumpTriggered)
      ensures accepted == old(accepted)
    {
      if data.items == [] {
        return;
      }
      var lines := CsvLinesOf(data.items);
      StoreBatch(lines);
      batches := batches + [data.items];
      data.Clear();
      FlashDumpSignal();
    }

    /**
     * The storage half of `dump_to_storage`: measure the current file, rotate
     * it when it holds 2 MiB or more (resetting the write count), append the
     * lines, count the write.
     */
    method StoreBatch(lines: seq<string>)
      requires Ready()
      modifies this`card, this`currentDataFilePath, this`dataFileWriteCount
      ensures Ready()
      ensures var stored := StoreLines(old(card), old(currentDataFilePath).value, lines);
        card == stored.card && currentDataFilePath == Some(stored.path)
        && dataFileWriteCount == (if stored.rotated then 1 else old(dataFileWriteCount) + 1)
    {
      var sizeB := FileSize(card, CurrentFile());
      if NeedsRotation(sizeB) {
        dataFileWriteCount := 0;
        var path := CreateDataFile(false);
        currentDataFilePath := Some(path);
      }
      AppendToFile(CurrentFile(), lines);
      dataFileWriteCount := dataFileWriteCount + 1;
    }

    /** The `_lines` loop of `dump_to_storage`: one CSV line per sample, in order. */
    method CsvLinesOf(samples: seq<Sample>) returns (lines: seq<string>)
      ensures lines == CsvLines(samples, show)
    {
      lines := [];
      var i := 0;
      while i < |samples|
        invariant 0 <= i <= |samples|
        invariant lines == CsvLines(samples[..i], show)
      {
        assert samples[..i + 1][..i] == samples[..i];
        lines := lines + [CsvLine(samples[i], show)];
        i := i + 1;
      }
      assert samples[..i] == samples;
    }

    /** The `open(current_data_file_path, 'a')` block: the lines, one `write` each, in order. */
    method AppendToFile(name: string, lines: seq<string>)
      requires name in card.files
      modifies this`card
      ensures card == AppendLines(old(card), name, lines)
    {
      var j := 0;
      while j < |lines|
        invariant 0 <= j <= |lines|
        invariant card == AppendLines(old(card), name, lines[..j])
      {
        AppendLinesSnoc(old(card), name, lines[..j], lines[j]);
        assert lines[..j + 1] == lines[..j] + [lines[j]];
        card := AppendLine(card, name, lines[j]);
        j := j + 1;
      }
      assert lines[..j] == lines;
    }

    /** The two LED pulses that end a dump. */
    method FlashDumpSignal()
      modifies this`led
      ensures led == old(led) + Repeat(FLUSH_PULSE, 2)
    {
      for k := 0 to 2
        invariant led == old(led) + Repeat(FLUSH_PULSE, k)
      {
        led := led + FLUSH_PULSE;
      }
    }

    /** `dump_to_storage_isr`: it only raises the flag. */
    method DumpToStorageIsr()
      modifies this`manualDataDumpTriggered
      ensures manualDataDumpTriggered
    {
      manualDataDumpTriggered := true;
    }

    /** One cycle of `error_loop(blink_count)`: the code blinked, then the long pause. */
    method ErrorLoop(blinkCount: nat)
      modifies this`led
      ensures led == old(led) + BlinkCycle(blinkCount)
    {
      for n := 0 to blinkCount
        invariant led == old(led) + Repeat(ERROR_BLINK, n)
      {
        led := led + ERROR_BLINK;
      }
      led := led + [SleepMs(ERROR_PAUSE_MS)];
    }

    /**
     * The main code of either entry file up to its `while True`: set the
     * clock, wait, check the sensors, take a diagnostic sample without
     * counting it, enter the measurements directory and pick the data file.
     * A failure ends in one cycle of the matching error loop.
     */
    method Boot(sync: TimeSync, sensorCount: nat, diagnostic: Reading, chdirSucceeded: bool) returns (outcome: BootOutcome)
      requires WellFormed(card)
      modifies this`led, this`card, this`currentDataFilePath, this`measurementCount
      ensures outcome == BootGate(sync, sensorCount, MeasureReading(diagnostic), chdirSucceeded)
      ensures outcome == ErrorHalt(4) ==> led == old(led) + BlinkCycle(4)
      ensures outcome.ErrorHalt? && outcome.blinkCount != 4 ==>
        led == old(led) + [SleepMs(BOOT_DELAY_MS)] + BlinkCycle(outcome.blinkCount)
      ensures outcome == SoftReset ==> led == old(led)
      ensures outcome == BootCrashed || outcome == Running ==> led == old(led) + [SleepMs(BOOT_DELAY_MS)]
      ensures outcome == Running ==> Ready()
      ensures outcome == Running && old(card.listing) != [] ==>
        card == old(card) && currentDataFilePath == Some(old(card.listing)[|old(card.listing)| - 1])
      ensures outcome == Running && old(card.listing) == [] ==>
        card == NextDataFile(old(card)) && currentDataFilePath == Some(DataFilePath(0))
      ensures outcome != Running ==> card == old(card) && currentDataFilePath == old(currentDataFilePath)
      ensures measurementCount == old(measurementCount)
    {
      match sync
      case ConnectAttemptsExhausted =>
        ErrorLoop(4);
        return ErrorHalt(4);
      case ConnectOrNtpFailed =>
        return SoftReset;
      case Synced =>
        led := led + [SleepMs(BOOT_DELAY_MS)];
        if sensorCount != 2 {
          ErrorLoop(1);
          return ErrorHalt(1);
        }
        var sample := TakeMeasurement(false, diagnostic);
        if sample.Raised? {
          return BootCrashed;
        }
        if !IsValid(sample.sample) {
          ErrorLoop(2);
          return ErrorHalt(2);
        }
        if !chdirSucceeded {
          ErrorLoop(3);
          return ErrorHalt(3);
        }
        var path := CreateDataFile(true);
        currentDataFilePath := Some(path);
        outcome := Running;
    }

    /**
     * `dump_to_storage(data_queue)` as the main loops call it: the new data
     * log is the old one after writing the batches this call added (none
     * for an empty queue), and a write ends with two pulses.
     */
    method DumpQueue()
      requires Ready() && NothingLost()
      modifies this`card, this`currentDataFilePath, this`dataFileWriteCount, this`led, this`batches, dataQueue
      ensures Ready() && NothingLost()
      ensures Flow(batches, dataQueue.items) == Dump(Flow(old(batches), old(dataQueue.items)))
      ensures old(batches) <= batches && Log() == WriteBatches(old(Log()), batches[|old(batches)|..], show)
      ensures led == old(led) + (if old(dataQueue.items) == [] then [] else Repeat(FLUSH_PULSE, 2))
    {
      ghost var items := dataQueue.items;
      DumpToStorage(dataQueue);
      if items == [] {
        assert batches[|old(batches)|..] == [];
      } else {
        assert batches[|old(batches)|..] == [items];
        assert [items][..0] == [];
      }
    }

    /** `data_queue.append(sample)` and the heartbeat that follows it. */
    method QueueSample(s: Sample)
      requires NothingLost()
      modifies this`accepted, this`led, dataQueue
      ensures dataQueue.items == old(dataQueue.items) + [s] && accepted == old(accepted) + [s]
      ensures led == old(led) + HEARTBEAT
      ensures NothingLost()
    {
      dataQueue.Append(s);
      accepted := accepted + [s];
      led := led + HEARTBEAT;
    }

    /**
     * One pass of the `while True` loop of `src/boot.py`: measure, queue,
     * heartbeat, dump when the queue holds thirty, sleep, and dump again when
     * the button woke the board. An exception from the measurement ends the
     * program with nothing changed.
     */
    method CycleOnPinWake(reading: Reading, wake: WakeReason) returns (outcome: CycleOutcome)
      requires Ready() && NothingLost() && |dataQueue.items| < DATA_QUEUE_MAX_LEN
      modifies this`measurementCount, this`card, this`currentDataFilePath, this`dataFileWriteCount, this`led, this`batches, this`accepted, dataQueue
      ensures Ready() && NothingLost() && |dataQueue.items| < DATA_QUEUE_MAX_LEN
      ensures outcome == Crashed <==> MeasureReading(reading).Raised?
      ensures outcome == Crashed ==> unchanged(this, dataQueue)
      ensures outcome == Continued ==>
        var s := MeasureReading(reading).sample;
        Flow(batches, dataQueue.items) == Cycle(Flow(old(batches), old(dataQueue.items)), s, wake == PinWake)
        && accepted == old(accepted) + [s]
        && measurementCount == old(measurementCount) + 1
        && old(batches) <= batches && Log() == WriteBatches(old(Log()), batches[|old(batches)|..], show)
        && led == old(led) + PassSignals(|old(dataQueue.items)|, wake == PinWake, MEASURE_DELAY_MS - 250)
    {
      var r := TakeMeasurement(true, reading);
      if r.Raised? {
        return Crashed;
      }
      QueueAndSleep(r.sample, wake == PinWake, MEASURE_DELAY_MS - 250);
      outcome := Continued;
    }

    /**
     * What a pass of `src/boot.py` does with a sample once it has one: queue
     * it, heartbeat, dump a full queue, sleep, and dump again on a manual
     * request.
     */
    method QueueAndSleep(s: Sample, manual: bool, sleepMs: nat)
      requires Ready() && NothingLost() && |dataQueue.items| < DATA_QUEUE_MAX_LEN
      modifies this`card, this`currentDataFilePath, this`dataFileWriteCount, this`led, this`batches, this`accepted, dataQueue
      ensures Ready() && NothingLost() && |dataQueue.items| < DATA_QUEUE_MAX_LEN
      ensures Flow(batches, dataQueue.items) == Cycle(Flow(old(batches), old(dataQueue.items)), s, manual)
      ensures accepted == old(accepted) + [s]
      ensures old(batches) <= batches && Log() == WriteBatches(old(Log()), batches[|old(batches)|..], show)
      ensures led == old(led) + PassSignals(|old(dataQueue.items)|, manual, sleepMs)
    {
      ghost var f0, log0, b0, led0 := Flow(batches, dataQueue.items), Log(), batches, led;
      var full := QueueAndDumpIfFull(s);
      ghost var log1, b1 := Log(), batches;
      ghost var first: seq<Event> := if full then Repeat(FLUSH_PULSE, 2) else [];
      led := led + [LightSleepMs(sleepMs)];
      if manual {
        DumpQueue();
      } else {
        assert batches[|b1|..] == [];
      }
      WriteBatchesChain(log0, log1, Log(), b0, b1, batches, show);
      CycleThenDump(f0, s, manual);
      ghost var second: seq<Event> := if manual && !full then Repeat(FLUSH_PULSE, 2) else [];
      assert led == led0 + HEARTBEAT + first + [LightSleepMs(sleepMs)] + second;
      PassSignalsParts(led0, |old(dataQueue.items)|, manual, sleepMs);
    }

    /**
     * The start of every pass after the measurement: queue the sample with
     * its heartbeat, and dump the queue when it has reached thirty entries.
     */
    method QueueAndDumpIfFull(s: Sample) returns (full: bool)
      requires Ready() && NothingLost() && |dataQueue.items| < DATA_QUEUE_MAX_LEN
      modifies this`card, this`currentDataFilePath, this`dataFileWriteCount, this`led, this`batches, this`accepted, dataQueue
      ensures Ready() && NothingLost()
      ensures full <==> |old(dataQueue.items)| + 1 == DATA_QUEUE_MAX_LEN
      ensures Flow(batches, dataQueue.items) == Cycle(Flow(old(batches), old(dataQueue.items)), s, false)
      ensures accepted == old(accepted) + [s]
      ensures old(batches) <= batches && Log() == WriteBatches(old(Log()), batches[|old(batches)|..], show)
      ensures led == old(led) + HEARTBEAT + (if full then Repeat(FLUSH_PULSE, 2) else [])
    {
      QueueSample(s);
      full := |dataQueue.items| == DATA_QUEUE_MAX_LEN;
      if full {
        DumpQueue();
      } else {
        assert batches[|old(batches)|..] == [];
      }
    }

    /**
     * One pass of the `while True` loop of `src/main.py`. The ISR may raise
     * the flag at any point before the check (`pressBeforeCheck`). A raised
     * flag dumps the queue and is then lowered; a press while that dump runs
     * (`pressDuringDump`) raises the flag only for it to be lowered right
     * after, so that press is lost.
     */
    method CycleOnIsrFlag(reading: Reading, pressBeforeCheck: bool, pressDuringDump: bool) returns (outcome: CycleOutcome)
      requires Ready() && NothingLost() && |dataQueue.items| < DATA_QUEUE_MAX_LEN
      modifies this`measurementCount, this`card, this`currentDataFilePath, this`dataFileWriteCount, this`led, this`batches, this`accepted, dataQueue, this`manualDataDumpTriggered
      ensures Ready() && NothingLost() && |dataQueue.items| < DATA_QUEUE_MAX_LEN
      ensures outcome == Crashed <==> MeasureReading(reading).Raised?
      ensures outcome == Crashed ==> unchanged(this, dataQueue)
      ensures outcome == Continued ==> !manualDataDumpTriggered
      ensures outcome == Continued ==>
        var s, manual := MeasureReading(reading).sample, old(manualDataDumpTriggered) || pressBeforeCheck;
        Flow(batches, dataQueue.items) == Cycle(Flow(old(batches), old(dataQueue.items)), s, manual)
        && accepted == old(accepted) + [s]
        && measurementCount == old(measurementCount) + 1
        && old(batches) <= batches && Log() == WriteBatches(old(Log()), batches[|old(batches)|..], show)
        && led == old(led) + PassSignals(|old(dataQueue.items)|, manual, MEASURE_DELAY_MS)
    {
      var r := TakeMeasurement(true, reading);
      if r.Raised? {
        return Crashed;
      }
      QueueAndCheckFlag(r.sample, pressBeforeCheck, pressDuringDump);
      outcome := Continued;
    }

    /**
     * What a pass of `src/main.py` does with a sample once it has one: queue
     * it, heartbeat, dump a full queue, sleep, then dump when the flag is up
     * and lower it.
     */
    method QueueAndCheckFlag(s: Sample, pressBeforeCheck: bool, pressDuringDump: bool)
      requires Ready() && NothingLost() && |dataQueue.items| < DATA_QUEUE_MAX_LEN
      modifies this`card, this`currentDataFilePath, this`dataFileWriteCount, this`led, this`batches, this`accepted, dataQueue, this`manualDataDumpTriggered
      ensures Ready() && NothingLost() && |dataQueue.items| < DATA_QUEUE_MAX_LEN
      ensures Flow(batches, dataQueue.items)
        == Cycle(Flow(old(batches), old(dataQueue.items)), s, old(manualDataDumpTriggered) || pressBeforeCheck)
      ensures accepted == old(accepted) + [s]
      ensures !manualDataDumpTriggered
      ensures old(batches) <= batches && Log() == WriteBatches(old(Log()), batches[|old(batches)|..], show)
      ensures led == old(led) + PassSignals(|old(dataQueue.items)|, old(manualDataDumpTriggered) || pressBeforeCheck, MEASURE_DELAY_MS)
    {
      ghost var f0, log0, b0, led0 := Flow(batches, dataQueue.items), Log(), batches, led;
      var full := QueueAndDumpIfFull(s);
      ghost var log1, b1 := Log(), batches;
      ghost var first: seq<Event> := if full then Repeat(FLUSH_PULSE, 2) else [];
      led := led + [LightSleepMs(MEASURE_DELAY_MS)];
      ghost var manual := manualDataDumpTriggered || pressBeforeCheck;
      CheckFlag(pressBeforeCheck, pressDuringDump);
      WriteBatchesChain(log0, log1, Log(), b0, b1, batches, show);
      CycleThenDump(f0, s, manual);
      ghost var second: seq<Event> := if manual && !full then Repeat(FLUSH_PULSE, 2) else [];
      assert led == led0 + HEARTBEAT + first + [LightSleepMs(MEASURE_DELAY_MS)] + second;
      PassSignalsParts(led0, |old(dataQueue.items)|, manual, MEASURE_DELAY_MS);
    }

    /**
     * The end of a pass of `src/main.py`: a press before the check raises
     * the flag; a raised flag dumps the queue and is lowered, which also
     * lowers it for a press made during that dump.
     */
    method CheckFlag(pressBeforeCheck: bool, pressDuringDump: bool)
      requires Ready() && NothingLost()
      modifies this`card, this`currentDataFilePath, this`dataFileWriteCount, this`led, this`batches, dataQueue, this`manualDataDumpTriggered
      ensures Ready() && NothingLost() && !manualDataDumpTriggered
      ensures var manual := old(manualDataDumpTriggered) || pressBeforeCheck;
        Flow(batches, dataQueue.items)
          == (if manual then Dump(Flow(old(batches), old(dataQueue.items))) else Flow(old(batches), old(dataQueue.items)))
        && led == old(led) + (if manual && old(dataQueue.items) != [] then Repeat(FLUSH_PULSE, 2) else [])
      ensures old(batches) <= batches && Log() == WriteBatches(old(Log()), batches[|old(batches)|..], show)
    {
      if pressBeforeCheck {
        DumpToStorageIsr();
      }
      WriteIfFlagged(pressDuringDump);
    }

    /**
     * The check itself: a raised flag writes the queue and is lowered, which
     * also lowers it for a press made during that write.
     */
    method WriteIfFlagged(pressDuringDump: bool)
      requires Ready() && NothingLost()
      modifies this`card, this`currentDataFilePath, this`dataFileWriteCount, this`led, this`batches, dataQueue, this`manualDataDumpTriggered
      ensures Ready() && NothingLost() && !manualDataDumpTriggered
      ensures Flow(batches, dataQueue.items)
        == (if old(manualDataDumpTriggered) then Dump(Flow(old(batches), old(dataQueue.items))) else Flow(old(batches), old(dataQueue.items)))
      ensures led == old(led) + (if old(manualDataDumpTriggered) && old(dataQueue.items) != [] then Repeat(FLUSH_PULSE, 2) else [])
      ensures old(batches) <= batches && Log() == WriteBatches(old(Log()), batches[|old(batches)|..], show)
    {
      if manualDataDumpTriggered {
        DumpQueue();
        if pressDuringDump {
          DumpToStorageIsr();
        }
        manualDataDumpTriggered := false;
      } else {
        assert batches[|old(batches)|..] == [];
      }
    }

    /**
     * The state after the first `n` passes of a run with the given manual
     * requests: every reading so far was measured, the batches and the queue
     * are the pure `Run` of those passes, the data log is `log0` after
     * writing the batches, and the LED shows the passes' events after `led0`.
     */
    ghost predicate RanPasses(readings: seq<Reading>, manual: seq<bool>, n: nat, log0: DataLog, led0: seq<Event>, sleepMs: nat)
      reads this, dataQueue
    {
      n <= |readings| == |manual| && AllMeasured(Results(readings[..n]))
      && currentDataFilePath.Some? && Usable(log0)
      && var inputs := Inputs(Results(readings[..n]), manual[..n]);
      Flow(batches, dataQueue.items) == Run(inputs)
      && Log() == WriteBatches(log0, batches, show)
      && led == led0 + RunSignals(inputs, sleepMs)
    }

    /**
     * The loop of `src/boot.py` from its first pass, over a finite run of
     * readings and wake reasons: it stops at the first reading whose
     * measurement raises. The passes so far are the pure `Run` of the samples
     * measured: the card, the current path and the write count are the data
     * log after writing its batches, the LED shows its events, and every
     * pass counted its measurement.
     */
    method RunOnPinWake(readings: seq<Reading>, wakes: seq<WakeReason>) returns (outcome: CycleOutcome, cycles: nat)
      requires |readings| == |wakes|
      requires Ready() && NothingLost() && batches == [] && dataQueue.items == []
      modifies this`measurementCount, this`card, this`currentDataFilePath, this`dataFileWriteCount, this`led, this`batches, this`accepted, dataQueue
      ensures Ready() && NothingLost()
      ensures cycles <= |readings| && AllMeasured(Results(readings[..cycles]))
      ensures outcome == Continued <==> cycles == |readings|
      ensures outcome == Crashed ==> MeasureReading(readings[cycles]).Raised?
      ensures var inputs := Inputs(Results(readings[..cycles]), PinWakeRequests(wakes)[..cycles]);
        Flow(batches, dataQueue.items) == Run(inputs)
        && Log() == WriteBatches(old(Log()), Run(inputs).batches, show)
        && led == old(led) + RunSignals(inputs, MEASURE_DELAY_MS - 250)
      ensures measurementCount == old(measurementCount) + cycles
    {
      ghost var manual := PinWakeRequests(wakes);
      ghost var log0, led0 := Log(), led;
      cycles := 0;
      outcome := Continued;
      assert Log() == WriteBatches(log0, [], show);
      while cycles < |readings|
        invariant Ready() && NothingLost()
        invariant RanPasses(readings, manual, cycles, log0, led0, MEASURE_DELAY_MS - 250)
        invariant measurementCount == old(measurementCount) + cycles
      {
        PinWakeRequestsAt(wakes, cycles);
        var result := PinWakeRunStep(readings, manual, cycles, log0, led0, readings[cycles], wakes[cycles]);
        if result == Crashed {
          outcome := Crashed;
          break;
        }
        cycles := cycles + 1;
      }
    }

    /** A pass of the loop of `src/boot.py`, stated against the run before it. */
    method PinWakeRunStep(ghost readings: seq<Reading>, ghost manual: seq<bool>, ghost n: nat,
                          ghost log0: DataLog, ghost led0: seq<Event>,
                          reading: Reading, wake: WakeReason)
      returns (outcome: CycleOutcome)
      requires n < |readings| == |manual| && reading == readings[n] && manual[n] == (wake == PinWake)
      requires Ready() && NothingLost() && RanPasses(readings, manual, n, log0, led0, MEASURE_DELAY_MS - 250)
      modifies this`measurementCount, this`card, this`currentDataFilePath, this`dataFileWriteCount, this`led, this`batches, this`accepted, dataQueue
      ensures Ready() && NothingLost()
      ensures outcome == Crashed ==> MeasureReading(reading).Raised? && unchanged(this, dataQueue)
      ensures outcome == Crashed ==> RanPasses(readings, manual, n, log0, led0, MEASURE_DELAY_MS - 250) && measurementCount == old(measurementCount)
      ensures outcome == Continued ==>
        RanPasses(readings, manual, n + 1, log0, led0, MEASURE_DELAY_MS - 250)
        && measurementCount == old(measurementCount) + 1
    {
      outcome := CycleOnPinWake(reading, wake);
      if outcome == Continued {
        NextInputs(readings, manual, n, MEASURE_DELAY_MS - 250);
        WriteBatchesChain(log0, old(Log()), Log(), [], old(batches), batches, show);
        AppendAssociates(led0, RunSignals(Inputs(Results(readings[..n]), manual[..n]), MEASURE_DELAY_MS - 250),
                         PassSignals(|old(dataQueue.items)|, manual[n], MEASURE_DELAY_MS - 250));
      }
    }

    /**
     * `RanPasses` for `src/main.py`, whose requests come from the presses and
     * the flag as the loop began; the flag is down once a pass completed.
     */
    ghost predicate IsrRanPasses(readings: seq<Reading>, presses: seq<bool>, flagUp: bool, n: nat, log0: DataLog, led0: seq<Event>)
      reads this, dataQueue
    {
      RanPasses(readings, FlagRequests(presses, flagUp), n, log0, led0, MEASURE_DELAY_MS)
      && manualDataDumpTriggered == (n == 0 && flagUp)
    }

    /**
     * The loop of `src/main.py` from its first pass, over a finite run of
     * readings and button presses; as for `src/boot.py`, and the flag is down
     * after every completed pass.
     */
    method RunOnIsrFlag(readings: seq<Reading>, pressBeforeCheck: seq<bool>, pressDuringDump: seq<bool>)
      returns (outcome: CycleOutcome, cycles: nat)
      requires |readings| == |pressBeforeCheck| == |pressDuringDump|
      requires Ready() && NothingLost() && batches == [] && dataQueue.items == []
      modifies this`measurementCount, this`card, this`currentDataFilePath, this`dataFileWriteCount, this`led, this`batches, this`accepted, dataQueue, this`manualDataDumpTriggered
      ensures Ready() && NothingLost() && (0 < cycles ==> !manualDataDumpTriggered)
      ensures cycles <= |readings| && AllMeasured(Results(readings[..cycles]))
      ensures outcome == Continued <==> cycles == |readings|
      ensures outcome == Crashed ==> MeasureReading(readings[cycles]).Raised?
      ensures var inputs := Inputs(Results(readings[..cycles]), FlagRequests(pressBeforeCheck, old(manualDataDumpTriggered))[..cycles]);
        Flow(batches, dataQueue.items) == Run(inputs)
        && Log() == WriteBatches(old(Log()), Run(inputs).batches, show)
        && led == old(led) + RunSignals(inputs, MEASURE_DELAY_MS)
      ensures measurementCount == old(measurementCount) + cycles
    {
      ghost var flagUp := manualDataDumpTriggered;
      ghost var log0, led0 := Log(), led;
      assert Log() == WriteBatches(log0, [], show);
      outcome, cycles := IsrPasses(readings, pressBeforeCheck, pressDuringDump, flagUp, log0, led0);
    }

    /** The passes of `RunOnIsrFlag`, stated through `IsrRanPasses`. */
    method IsrPasses(readings: seq<Reading>, pressBeforeCheck: seq<bool>, pressDuringDump: seq<bool>,
                     ghost flagUp: bool, ghost log0: DataLog, ghost led0: seq<Event>)
      returns (outcome: CycleOutcome, cycles: nat)
      requires |readings| == |pressBeforeCheck| == |pressDuringDump|
      requires Ready() && NothingLost() && IsrRanPasses(readings, pressBeforeCheck, flagUp, 0, log0, led0)
      modifies this`measurementCount, this`card, this`currentDataFilePath, this`dataFileWriteCount, this`led, this`batches, this`accepted, dataQueue, this`manualDataDumpTriggered
      ensures Ready() && NothingLost()
      ensures cycles <= |readings| && IsrRanPasses(readings, pressBeforeCheck, flagUp, cycles, log0, led0)
      ensures outcome == Continued <==> cycles == |readings|
      ensures outcome == Crashed ==> MeasureReading(readings[cycles]).Raised?
      ensures measurementCount == old(measurementCount) + cycles
    {
      cycles := 0;
      outcome := Continued;
      while cycles < |readings|
        invariant Ready() && NothingLost()
        invariant cycles <= |readings| && IsrRanPasses(readings, pressBeforeCheck, flagUp, cycles, log0, led0)
        invariant measurementCount == old(measurementCount) + cycles
      {
        var result := IsrRunStep(readings, pressBeforeCheck, flagUp, cycles, log0, led0, readings[cycles], pressDuringDump[cycles]);
        if result == Crashed {
          outcome := Crashed;
          break;
        }
        cycles := cycles + 1;
      }
    }

    /** A pass of the loop of `src/main.py`, stated against the run before it. */
    method IsrRunStep(ghost readings: seq<Reading>, presses: seq<bool>, ghost flagUp: bool, n: nat,
                      ghost log0: DataLog, ghost led0: seq<Event>,
                      reading: Reading, pressDuringDump: bool)
      returns (outcome: CycleOutcome)
      requires n < |readings| == |presses| && reading == readings[n]
      requires Ready() && NothingLost() && IsrRanPasses(readings, presses, flagUp, n, log0, led0)
      modifies this`measurementCount, this`card, this`currentDataFilePath, this`dataFileWriteCount, this`led, this`batches, this`accepted, dataQueue, this`manualDataDumpTriggered
      ensures Ready() && NothingLost()
      ensures outcome == Crashed ==> MeasureReading(reading).Raised? && unchanged(this, dataQueue)
      ensures outcome == Crashed ==> IsrRanPasses(readings, presses, flagUp, n, log0, led0) && measurementCount == old(measurementCount)
      ensures outcome == Continued ==>
        IsrRanPasses(readings, presses, flagUp, n + 1, log0, led0)
        && measurementCount == old(measurementCount) + 1
    {
      ghost var manual := FlagRequests(presses, flagUp);
      FlagRequestsAt(presses, flagUp, n);
      outcome := CycleOnIsrFlag(reading, presses[n], pressDuringDump);
      if outcome == Continued {
        NextInputs(readings, manual, n, MEASURE_DELAY_MS);
        WriteBatchesChain(log0, old(Log()), Log(), [], old(batches), batches, show);
        AppendAssociates(led0, RunSignals(Inputs(Results(readings[..n]), manual[..n]), MEASURE_DELAY_MS),
                         PassSignals(|old(dataQueue.items)|, manual[n], MEASURE_DELAY_MS));
      }
    }
  }

  /**
   * One more measured reading extends the inputs by one, so `Run` takes one
   * more `Cycle` and the run's events one more pass.
   */
  lemma NextInputs(readings: seq<Reading>, manual: seq<bool>, n: nat, sleepMs: nat)
    requires |readings| == |manual| && n < |readings|
    requires AllMeasured(Results(readings[..n])) && MeasureReading(readings[n]).Measured?
    ensures AllMeasured(Results(readings[..n + 1]))
    ensures var before, after := Inputs(Results(readings[..n]), manual[..n]), Inputs(Results(readings[..n + 1]), manual[..n + 1]);
      Run(after) == Cycle(Run(before), MeasureReading(readings[n]).sample, manual[n])
      && RunSignals(after, sleepMs) == RunSignals(before, sleepMs) + PassSignals(|Run(before).queue|, manual[n], sleepMs)
  {
    var before, after := Results(readings[..n]), Results(readings[..n + 1]);
    assert readings[..n + 1][..n] == readings[..n];
    assert after == before + [MeasureReading(readings[n])];
    assert manual[..n + 1][..n] == manual[..n];
    var inputs := Inputs(after, manual[..n + 1]);
    assert after[..n] == before;
    assert inputs[..n] == Inputs(before, manual[..n]);
  }
}
