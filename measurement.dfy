/**
 * One measurement of the tank: a timestamp, the air temperature and the two
 * water temperatures (`MeasurementData`), and how a measurement is assembled
 * from the three sensor reads (`take_measurement`, without its counter).
 *
 * Temperatures are the values the firmware stores, already converted to
 * Fahrenheit; an unreadable channel holds the sentinel -999999.0.
 */
module Measurement {
  import opened Wrappers

  /** `_INVALID_READING_VALUE`. */
  const INVALID_READING_VALUE: real := -999999.0

  datatype Sample = Sample(timestamp: string, airTemp1: real, waterTemp1: real, waterTemp2: real)

  /** The three temperature fields, in the order the firmware writes them. */
  function Temperatures(s: Sample): seq<real>
  {
    [s.airTemp1, s.waterTemp1, s.waterTemp2]
  }

  /** A temperature argument of the constructor: an omitted one becomes the sentinel. */
  function OrInvalid(t: Option<real>): (r: real)
    ensures t.Some? ==> r == t.value
    ensures t.None? ==> r == INVALID_READING_VALUE
  {
    if t.Some? then t.value else INVALID_READING_VALUE
  }

  /** `MeasurementData(timestamp, air, water1, water2)`, each temperature optional. */
  function NewSample(timestamp: string, air: Option<real>, water1: Option<real>, water2: Option<real>): (s: Sample)
    ensures s.timestamp == timestamp
    ensures Temperatures(s) == [OrInvalid(air), OrInvalid(water1), OrInvalid(water2)]
  {
    Sample(timestamp, OrInvalid(air), OrInvalid(water1), OrInvalid(water2))
  }

  /** `is_valid`: no temperature field holds the sentinel. */
  predicate IsValid(s: Sample)
  {
    s.airTemp1 != INVALID_READING_VALUE
    && s.waterTemp1 != INVALID_READING_VALUE
    && s.waterTemp2 != INVALID_READING_VALUE
  }

  lemma IsValidIffNoSentinel(s: Sample)
    ensures IsValid(s) <==> INVALID_READING_VALUE !in Temperatures(s)
  {
  }

  /** A freshly built sample is valid exactly when all three temperatures were given and none is the sentinel. */
  lemma NewSampleValidity(timestamp: string, air: Option<real>, water1: Option<real>, water2: Option<real>)
    ensures IsValid(NewSample(timestamp, air, water1, water2)) <==>
      (air.Some? && water1.Some? && water2.Some? &&
       INVALID_READING_VALUE !in [air.value, water1.value, water2.value])
  {
  }

  /** What one sensor read gives: a temperature, a 1-Wire bus error, or any other exception. */
  datatype ReadOutcome = Read(temperature: real) | OneWireError | OtherError

  /**
   * The outcome of `take_measurement`: a sample, or an exception leaving it.
   * The handler for exceptions other than `OneWireError` divides strings
   * with `/` and so itself raises `TypeError`: such a failure escapes.
   */
  datatype MeasureResult = Measured(sample: Sample) | Raised

  /**
   * The first of the air, water 1 and water 2 reads that did not give a
   * temperature, if any: the reads stop there.
   */
  function FirstFault(air: ReadOutcome, water1: ReadOutcome, water2: ReadOutcome): (f: Option<ReadOutcome>)
    ensures f.None? <==> air.Read? && water1.Read? && water2.Read?
    ensures f.Some? ==> !f.value.Read?
    ensures f.Some? ==> f.value == if !air.Read? then air else if !water1.Read? then water1 else water2
  {
    if !air.Read? then Some(air)
    else if !water1.Read? then Some(water1)
    else if !water2.Read? then Some(water2)
    else None
  }

  /**
   * The try block of `take_measurement`: the air sensor, then water sensors 1
   * and 2 are read; the container's fields are written only after all three
   * reads succeeded. A `OneWireError` is caught and leaves every field at the
   * sentinel; any other error escapes.
   */
  function Measure(timestamp: string, air: ReadOutcome, water1: ReadOutcome, water2: ReadOutcome): (r: MeasureResult)
    ensures r.Raised? <==> FirstFault(air, water1, water2) == Some(OtherError)
    ensures r.Measured? ==> r.sample.timestamp == timestamp
    ensures r.Measured? && air.Read? && water1.Read? && water2.Read? ==>
      Temperatures(r.sample) == [air.temperature, water1.temperature, water2.temperature]
    ensures r.Measured? && !(air.Read? && water1.Read? && water2.Read?) ==>
      Temperatures(r.sample) == [INVALID_READING_VALUE, INVALID_READING_VALUE, INVALID_READING_VALUE]
  {
    var container := NewSample(timestamp, None, None, None);
    match FirstFault(air, water1, water2)
    case Some(OtherError) => Raised
    case Some(_) => Measured(container)
    case None =>
      Measured(container.(airTemp1 := air.temperature,
                          waterTemp1 := water1.temperature,
                          waterTemp2 := water2.temperature))
  }

  /** All or nothing: a measured sample has either every reading or none. */
  lemma MeasureAllOrNothing(timestamp: string, air: ReadOutcome, water1: ReadOutcome, water2: ReadOutcome)
    requires Measure(timestamp, air, water1, water2).Measured?
    ensures var s := Measure(timestamp, air, water1, water2).sample;
      (s.airTemp1 == INVALID_READING_VALUE && s.waterTemp1 == INVALID_READING_VALUE && s.waterTemp2 == INVALID_READING_VALUE)
      || (air.Read? && water1.Read? && water2.Read?)
  {
  }

  /** A 1-Wire error on any channel yields an invalid sample, never a partial one. */
  lemma OneWireErrorGivesInvalidSample(timestamp: string, air: ReadOutcome, water1: ReadOutcome, water2: ReadOutcome)
    requires FirstFault(air, water1, water2) == Some(OneWireError)
    ensures Measure(timestamp, air, water1, water2).Measured?
    ensures !IsValid(Measure(timestamp, air, water1, water2).sample)
  {
  }
}
