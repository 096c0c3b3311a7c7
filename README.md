# Tank logger: a verified model of the sampling and storage loop

The tank logger is MicroPython firmware for an ESP32. It reads one air
temperature sensor and two water temperature sensors once a minute. Each
sample is stamped with the real-time clock. Samples are buffered in a queue
of at most thirty, and the queue is written as CSV lines to a data file on
an SD card. A data file is rotated once it reaches 2 MiB. A button asks for
an early write of the queue. The onboard LED acknowledges every sample and
every write, and shows a blink code when boot fails.

The firmware exists in two near-identical entry files:

- `src/boot.py` sleeps with `lightsleep` and learns about the button from
  the wake reason (`PIN_WAKE`).
- `src/main.py` has an interrupt handler that raises the
  `manual_data_dump_triggered` flag. The main loop checks the flag after
  sleeping and lowers it after the write.

This project models both files in Dafny:

- `text.dfy`: decimal rendering of integers (Python's `str(int)`), parsing
  it back, and splitting and joining on a separator.
- `system_time.dfy`: the clock tuple and `format_system_time`, with the
  proof that a timestamp can be read back into the six clock fields it
  shows.
- `measurement.dfy`: `MeasurementData`, `is_valid`, and how
  `take_measurement` builds a sample from three sensor reads.
- `csv.dfy`: the data line `dump_to_storage` writes for each sample.
- `storage.dfy`: the measurements directory, `count_data_files`,
  `create_data_file`, and the rotate-then-append storage step.
- `signals.dfy`: LED and sleep events, the two-pulse write acknowledgement,
  and one cycle of `error_loop`.
- `queue.dfy`: the queue as values. Each cycle appends, writes when full,
  and writes on a manual request. It proves that no sample is lost or
  reordered, and that a run without requests writes blocks of exactly
  thirty.
- `logger.dfy`: the firmware's globals as fields of the class
  `TankLogger.Logger`, with imperative methods for
  - `take_measurement`, `create_data_file` and `dump_to_storage`;
  - the interrupt handler and one `error_loop` cycle;
  - the boot sequence;
  - one pass and a finite run of each main loop, each proved equal to the
    value-level queue model.

Two behaviours of the code are easy to miss:

- A button press writes the queue together with the sample of the same
  pass: with five samples queued, the write holds six, because the new
  sample is queued before the sleep that precedes the check
  (`SampleQueue.ManualDumpTakesCurrentSample`).
- Blink code 4 exists only in `src/boot.py`. It is shown when WiFi connect
  attempts run out. An `OSError` while connecting or querying NTP soft-resets the board in both files.
  `src/main.py` retries WiFi forever.

## Model

| member | source | states |
|---|---|---|
| Measurement.OrInvalid | src/boot.py:244-249 | An omitted temperature becomes the sentinel -999999.0; a given one is kept. |
| Measurement.NewSample | src/boot.py:238-249 | The container keeps the timestamp, and each temperature is the given value or the sentinel. |
| Measurement.IsValidIffNoSentinel | src/boot.py:257-267 | `is_valid` (`Measurement.IsValid`) holds exactly when none of the three temperatures is the sentinel. |
| Measurement.NewSampleValidity | src/main.py:202-232 | A new container is valid exactly when all three temperatures were given and none of them is the sentinel. |
| Measurement.FirstFault | src/boot.py:351-355 | The reads stop at the first of air, water 1 and water 2 that fails; there is no fault exactly when all three succeed. |
| Measurement.Measure | src/boot.py:345-376 | Within the `try` block, only a non-1-Wire error escapes. Otherwise the timestamp is kept, and all three temperatures are stored when all reads succeed, else all three are the sentinel. |
| Measurement.MeasureAllOrNothing | src/boot.py:351-366 | A sample that was returned has either every reading or none: never a partial fill. |
| Measurement.OneWireErrorGivesInvalidSample | src/main.py:293-311 | Within the `try` block, a 1-Wire error on any channel is caught and yields an invalid sample. |
| Text.IntToStringRoundTrip | src/boot.py:633-635 | The decimal text of an integer parses back to that integer. |
| Text.IntToStringInjective | src/boot.py:413 | Different integers have different decimal texts. |
| Text.SplitJoin | src/boot.py:448 | Splitting fields joined with a separator they do not contain gives back the fields. |
| SystemTime.FormatSystemTimeRoundTrip | src/boot.py:617-635 | The timestamp built by `format_system_time` (`SystemTime.FormatSystemTime`) `month/day/year h:m:s` (from tuple positions 1, 2, 0, 4, 5, 6) holds no comma or newline, and reads back into exactly those six fields. |
| Csv.CsvLine | src/boot.py:448 | A data line ends with the newline. |
| Csv.ParseCsvLine | src/boot.py:448 | A data line read back gives the timestamp and the three rendered temperatures, and holds no other newline. |
| Csv.CsvLineInjective | src/boot.py:446-451 | Two samples that give the same line are the same sample, sentinel values included, when the float rendering tells apart the temperatures of the two samples. |
| Csv.CsvLines | src/boot.py:445-451 | A batch gives as many lines as it has samples. |
| Csv.CsvLinesAt | src/boot.py:445-451 | Line i is the line of sample i: one line per sample, in queue order. |
| Storage.CountDataFiles | src/main.py:333-342 | The count is the number of listed entries, which is the number of files in the directory. |
| Storage.DataFileNameInjective | src/boot.py:412-416 | Different entry counts give different `tank_measurements_<count>.csv` names. |
| Storage.RotationThreshold | src/boot.py:453-460 | The float megabyte test rotates exactly when the file holds at least 2 * 1024 * 1024 bytes. |
| Storage.WriteFile | src/boot.py:418-421 | Opening for writing creates the entry when absent and leaves the directory consistent. |
| Storage.AppendLine | src/boot.py:468-471 | Appending one line changes neither the listing nor the set of files. |
| Storage.AppendLines | src/boot.py:467-471 | Appending lines changes neither the listing nor the set of files. |
| Storage.AppendLinesEffect | src/boot.py:467-471 | The lines go, in order, at the end of that one file; every other file keeps its lines. |
| Storage.NextDataFile | src/boot.py:403-421 | Creating the count-named file keeps the directory consistent. |
| Storage.CreateKeepsIndicesBelowCount | src/boot.py:403-421 | On a directory whose data-file numbers are all below the entry count, the new name is fresh, is appended to the listing (see `Storage.WriteFile` below), holds only the header, and every other file is untouched. |
| Storage.RotationLeavesOldFileUntouched | src/boot.py:459-471 | After a rotation the batch follows a fresh header in the new file, and the old current file gets none of it. |
| Storage.RotationOntoExistingName | src/main.py:359-377 | When the count-named file already exists, opening it for writing truncates it and the entry count does not grow. |
| Storage.RotationOverwriteExample | src/boot.py:403-421 | A card holding only `tank_measurements_1.csv` is such a directory: its file is overwritten by the next rotation. |
| Storage.StoreLines | src/main.py:409-427 | Storing a batch leaves the directory consistent with the current path naming one of its files; the listing grows only by a rotation. |
| Storage.StoreLinesAppendsBatch | src/boot.py:453-471 | Rotation happens exactly at 2 MiB or more. After a rotation the batch follows a fresh header in the new count-named file; otherwise it follows the current file's lines. Every other file is unchanged. |
| Storage.StoreLinesSparesOldFile | src/boot.py:459-471 | On a directory whose data-file numbers are all below the entry count, a rotation adds exactly one entry and puts no line of the batch in the old file, and the invariant is kept. |
| Signals.RepeatCounts | src/boot.py:546-550 | A loop body repeated n times is n times as long and lights the LED n times as often. |
| Signals.BlinkCycleShowsCode | src/boot.py:533-552 | One error-loop cycle lights the LED exactly blink_count times and ends with the five-second pause. |
| Signals.BlinkCodesDistinct | src/main.py:486-505 | Different blink counts give different LED patterns. |
| Signals.FlushSignalPulsesTwice | src/boot.py:479-484 | The write acknowledgement lights the LED exactly twice. |
| SampleQueue.Dump | src/boot.py:436-477 | An empty queue is left alone; otherwise the queue becomes the next batch and is emptied, and no sample is lost. |
| SampleQueue.Cycle | src/boot.py:690-711 | One pass adds its sample to what is written or queued, keeps the queue below thirty, empties it on a manual request, writes exactly the full queue on the thirtieth sample, and otherwise only appends. |
| SampleQueue.ManualDumpTakesCurrentSample | src/boot.py:691-711 | A manual request writes the queued samples and the current one as one batch; a next pass without a request writes nothing. |
| SampleQueue.CycleThenDump | src/boot.py:707-711 | A pass with a request is the same pass without one, followed by a write of the queue. |
| SampleQueue.SamplesOf | src/boot.py:685-691 | The samples of a run, one per cycle, in order. |
| SampleQueue.Run | src/boot.py:680-711 | After any run from boot, the queue holds fewer than thirty samples. |
| SampleQueue.RunKeepsEverySample | src/main.py:653-682 | The batches written, then the queue, are exactly the samples measured, in order; every batch holds one to thirty samples. |
| SampleQueue.TimerRunWritesBlocksOfThirty | src/boot.py:698-701 | Without manual requests, n cycles write n / 30 batches of exactly thirty, and the queue holds the last n % 30 samples. |
| SampleQueue.FirstDumpOnThirtiethSample | src/boot.py:698-701 | Without manual requests, nothing is written before the thirtieth sample, and the thirtieth writes all thirty. |
| TankLogger.MeasureReading | src/boot.py:341-376 | `take_measurement` raises exactly when the sensor update before the `try` failed, or when the first failing read is not a 1-Wire error. |
| TankLogger.WriteBatches | src/boot.py:427-474 | Writing any sequence of batches in turn keeps the card consistent, with the current path naming one of its files. |
| TankLogger.WriteBatch | src/boot.py:436-474 | One `dump_to_storage` of a non-empty batch keeps the card consistent, with the current path naming one of its files. |
| TankLogger.WriteBatchesAppend | src/boot.py:427-474 | Writing the batches a and then the batches b leaves the same card, path and write count as writing a + b. |
| TankLogger.WriteBatchesCount | src/boot.py:459-474 | After any writes, the write count has grown by the number of batches, or a rotation within them restarted it, so it is between 1 and that number. |
| TankLogger.WriteBatchesChain | src/boot.py:699-711 | The writes of two successive steps of a pass compose into the write of every batch since the first step. |
| TankLogger.PassSignalsCount | src/boot.py:690-711 | One pass lights the LED once for its sample and twice for each batch it writes. |
| TankLogger.RunSignalsCount | src/boot.py:680-711 | Over a run from boot, the LED lights once per sample measured and twice per batch written. |
| TankLogger.BootGate | src/boot.py:642-677 | Each boot ending happens exactly under its condition: 4 for exhausted WiFi, a soft reset for an `OSError` while connecting or querying NTP, then 1 for a sensor count other than two, an escape, 2 for an invalid diagnostic sample, 3 for a failed `chdir`, else running. |
| TankLogger.HaltsAreDistinguishable | src/boot.py:653-674 | Two different boot halts show different LED patterns. |
| TankLogger.Results | src/boot.py:685 | A run gives one measurement result per reading. |
| TankLogger.ResultsAt | src/boot.py:685 | Result i is the measurement of reading i. |
| TankLogger.Inputs | src/boot.py:685-711 | A run whose measurements succeeded gives one queue input per cycle. |
| TankLogger.InputsAt | src/boot.py:685-711 | Input i is sample i together with the manual request of cycle i. |
| TankLogger.PinWakeRequests | src/boot.py:708 | One request flag per wake. |
| TankLogger.PinWakeRequestsAt | src/boot.py:708-711 | Cycle i writes on request exactly when the button woke the board. |
| TankLogger.FlagRequests | src/main.py:677 | One request flag per cycle. |
| TankLogger.FlagRequestsAt | src/main.py:600-601 | Cycle i writes on request exactly when the button was pressed before its check, or, for the first cycle, when the flag was already up at boot. |
| TankLogger.NextInputs | src/main.py:653-682 | One more successful measurement makes the run one `Cycle` longer, and its LED events one pass longer. |
| TankLogger.SampleList.constructor | src/boot.py:270 | `data_queue` starts empty. |
| TankLogger.SampleList.Append | src/boot.py:691 | Appending puts the sample at the end of the list. |
| TankLogger.SampleList.Clear | src/boot.py:477 | Clearing through the reference empties the list itself. |
| TankLogger.Logger.constructor | src/main.py:114-235 | The globals start as the module sets them: no current file, counters at zero, flag down, empty queue. |
| TankLogger.Logger.TakeMeasurement | src/boot.py:328-386 | A failed sensor update escapes before the `try`. Otherwise the result is the measurement of the clock and the three reads. The counter rises by one exactly when asked and no exception escaped. |
| TankLogger.Logger.CreateDataFile | src/boot.py:389-424 | Asked to reuse and given a non-empty listing, it returns the last entry and changes nothing. Otherwise it creates `tank_measurements_<count>.csv` holding only the header and returns its absolute path. |
| TankLogger.Logger.DumpToStorage | src/boot.py:427-484 | An empty list changes nothing. Otherwise the new card and path are those of storing the batch's CSV lines (rotation first). The write count is reset-then-incremented, the list is cleared in place and the LED pulses twice. |
| TankLogger.Logger.StoreBatch | src/main.py:409-430 | Measure, rotate at 2 MiB or more with the count reset, append, count the write: the result of `StoreLines`. |
| TankLogger.Logger.CsvLinesOf | src/boot.py:444-451 | The loop builds exactly one line per sample, in order. |
| TankLogger.Logger.AppendToFile | src/boot.py:467-471 | Writing the lines one by one appends them to that file in order. |
| TankLogger.Logger.FlashDumpSignal | src/boot.py:479-484 | The LED does two acknowledgement pulses. |
| TankLogger.Logger.DumpToStorageIsr | src/main.py:590-597 | The handler only raises the flag. |
| TankLogger.Logger.ErrorLoop | src/boot.py:533-552 | One cycle of the loop adds exactly the blink pattern of its count. |
| TankLogger.Logger.Boot | src/boot.py:642-677 | Boot ends as `BootGate` says, shows its blink code, takes the diagnostic sample without counting it, and picks the data file as `create_data_file(check_last_file=True)` does. |
| TankLogger.Logger.DumpQueue | src/boot.py:699-711 | Writing the queue is `Dump` of the flow and no sample is lost. The card, path and write count become the old data log after writing the new batch. The LED pulses twice exactly when the queue was not empty. |
| TankLogger.Logger.QueueSample | src/boot.py:690-696 | The sample goes at the end of the queue and of what was accepted, and the LED shows the heartbeat. |
| TankLogger.Logger.QueueAndDumpIfFull | src/boot.py:690-701 | Queueing and the full check are `Cycle` without a request. The heartbeat shows, and the write (two pulses) happens exactly on the thirtieth sample. The data log writes the new batch. |
| TankLogger.Logger.CycleOnPinWake | src/boot.py:680-711 | A pass crashes exactly when the measurement raises, and then changes nothing. Otherwise it is `Cycle` of the flow with a request exactly on a pin wake, and counts the measurement. The data log writes the pass's batches. The LED shows heartbeat, two pulses for a full write, the sleep, then two pulses for a requested write. |
| TankLogger.Logger.QueueAndSleep | src/boot.py:690-711 | Queue, heartbeat, write when full, sleep, write on request: `Cycle` of the flow. The data log writes its batches, and the LED shows that pass's events. |
| TankLogger.Logger.CycleOnIsrFlag | src/main.py:653-682 | As for the pin wake, with a request exactly when the flag was up or a press came before the check. The flag is down afterwards. |
| TankLogger.Logger.QueueAndCheckFlag | src/main.py:660-682 | Queue, heartbeat, write when full, sleep, write when the flag is up, lower it: `Cycle` of the flow. The data log writes its batches, and the LED shows that pass's events. |
| TankLogger.Logger.CheckFlag | src/main.py:676-682 | A press before the check raises the flag. A raised flag writes the queue (`Dump`, two pulses when it held samples) and is lowered, even after a press during that write. The data log writes the new batch. |
| TankLogger.Logger.WriteIfFlagged | src/main.py:676-682 | With the flag up, the queue is written (`Dump`, two pulses when it held samples) and the flag is lowered, even after a press during the write; with it down nothing changes. The data log writes the new batch. |
| TankLogger.Logger.RunOnPinWake | src/boot.py:680-711 | A run stops exactly at the first measurement that raises. What was written and queued is `Run` of the measured samples with the pin-wake requests. The card, path and write count are the boot-time data log after writing `Run`'s batches. The LED shows the run's events, and the counter grew by the passes completed. |
| TankLogger.Logger.PinWakeRunStep | src/boot.py:680-711 | One pass extends the run by one cycle, in flow, data log, LED and counter. Or it crashes, and nothing changes. |
| TankLogger.Logger.RunOnIsrFlag | src/main.py:653-682 | As for the pin wake, with the flag requests. The flag is down after every completed pass. |
| TankLogger.Logger.IsrPasses | src/main.py:653-682 | The passes stop exactly at the first measurement that raises, and after each one the flow, data log, LED and flag are those of the run so far; the counter grew by the passes completed. |
| TankLogger.Logger.IsrRunStep | src/main.py:653-682 | One pass extends the run by one cycle, in flow, data log, LED and counter, and lowers the flag. Or it crashes, and nothing changes. |

## Left out

- Hardware, drivers and I/O are not modelled: the sensors, the OLED display (`update_display`), SPI, the SD card driver, `mount`, `freq`, `gc` and `print_memory_usage`. The sensor update (`measure`, `convert_temp`), the three sensor reads and the clock are parameters of a `Reading`. A failed update escapes `take_measurement`, because it runs before the `try`. The SD card is the value `Storage.FileSystem`.
- `set_system_time` (WiFi, NTP, tick timeouts) is not modelled. Its outcome is the parameter `TimeSync` of `Logger.Boot`.
- `c2f`, `f2c`, `round` and the display's unit branch are floating-point code and are not modelled. A read carries the temperature already converted. Rendering a float in a CSV line is the parameter `show` of the logger.
- Python floats are Dafny `real`s. Equality with the sentinel is exact, as in the source.
- `Logger.ErrorLoop`: models one cycle of the blink loop, not the infinite repetition. `Logger.Boot` ends where the halt would begin.
- `Logger.RunOnPinWake` and `Logger.RunOnIsrFlag`: model finite runs of the `while True` loops from their first pass, because the loops never end.
- The interrupt is not modelled as preemption. A press is a per-cycle input: before the flag check, or during the manual write. A press during the manual write raises the flag, which is then lowered, so that press is lost.
- Sleep durations are recorded only as LED and sleep events.
- `Storage.IndicesBelowCount`: the proof that rotation spares the old file assumes every data-file number is below the entry count. The firmware keeps this itself. A card from which a lower-numbered file was removed breaks it, and `Storage.RotationOntoExistingName` states what then happens.
- Exceptions other than `OneWireError` in the reads of `take_measurement` reach a handler that divides strings with `/`. That handler raises `TypeError`, so the model treats such a failure, like a failed sensor update, as ending the program (`Raised`, `Crashed`).
- Failures of the storage calls (`stat`, `open`, `write`) are not modelled. The source does not guard them.
- `Storage.Bytes`: takes a file's size to be the number of characters of its lines, which holds when every byte is ASCII. The firmware writes only ASCII, but a data file reused at boot may hold bytes it did not write. Then `stat` reports more bytes than the model counts, and the 2 MiB rotation test in `Storage.StoreLines` may fire later in the model than on the card.
- `Storage.WriteFile`: places a newly created entry at the end of the listing. This is the model's assumption about `listdir` order. On FAT a new entry may take the directory slot of a deleted one, and then `listdir()[-1]` (src/boot.py:410, src/main.py:366) need not name the newest data file. The model does not claim the last entry is the highest-numbered file.
