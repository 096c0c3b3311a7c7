/**
 * The data lines `dump_to_storage` writes: one line per sample,
 * `timestamp,air,water1,water2` and a newline. Temperatures are written as
 * Python writes a float; that rendering is the parameter `show`, and a
 * sentinel temperature is written like any other value.
 */
module Csv {
  import opened Text
  import opened Measurement

  /** The f-string of `dump_to_storage` for one sample. */
  function CsvLine(s: Sample, show: real -> string): (line: string)
    ensures 1 <= |line| && line[|line| - 1] == '\n'
  {
    s.timestamp + "," + show(s.airTemp1) + "," + show(s.waterTemp1) + "," + show(s.waterTemp2) + "\n"
  }

  /** The four texts a line is made of. */
  function LineFields(s: Sample, show: real -> string): seq<string>
  {
    [s.timestamp, show(s.airTemp1), show(s.waterTemp1), show(s.waterTemp2)]
  }

  /** How a reader takes a data line apart: drop the newline, split on commas. */
  function ParseLine(line: string): seq<string>
    requires 1 <= |line|
  {
    Split(line[..|line| - 1], ',')
  }

  /** A float rendering that a CSV reader can take back apart. */
  ghost predicate PlainRendering(show: real -> string)
  {
    forall t :: ',' !in show(t) && '\n' !in show(t)
  }

  /**
   * Reading a line back gives the four fields the sample was written from,
   * and the line holds no newline but its last character.
   */
  lemma ParseCsvLine(s: Sample, show: real -> string)
    requires ',' !in s.timestamp && '\n' !in s.timestamp && PlainRendering(show)
    ensures ParseLine(CsvLine(s, show)) == LineFields(s, show)
    ensures var line := CsvLine(s, show); '\n' !in line[..|line| - 1]
  {
    var fields := LineFields(s, show);
    var line := CsvLine(s, show);
    assert fields[1..] == [fields[1], fields[2], fields[3]];
    assert fields[1..][1..] == [fields[2], fields[3]];
    assert fields[1..][1..][1..] == [fields[3]];
    assert Join(fields[1..][1..][1..], ',') == fields[3];
    assert Join(fields[1..][1..], ',') == fields[2] + [','] + fields[3];
    assert Join(fields[1..], ',') == fields[1] + [','] + (fields[2] + [','] + fields[3]);
    assert Join(fields, ',') == fields[0] + [','] + (fields[1] + [','] + (fields[2] + [','] + fields[3]));
    assert line[..|line| - 1] == Join(fields, ',');
    SplitJoin(fields, ',');
  }

  /**
   * Two samples written to the same line are the same sample, when the float
   * rendering tells their temperatures apart: the log keeps every field,
   * sentinel included.
   */
  lemma CsvLineInjective(s1: Sample, s2: Sample, show: real -> string)
    requires ',' !in s1.timestamp && '\n' !in s1.timestamp
    requires ',' !in s2.timestamp && '\n' !in s2.timestamp
    requires PlainRendering(show)
    requires forall a, b :: a in Temperatures(s1) && b in Temperatures(s2) && show(a) == show(b) ==> a == b
    requires CsvLine(s1, show) == CsvLine(s2, show)
    ensures s1 == s2
  {
    ParseCsvLine(s1, show);
    ParseCsvLine(s2, show);
    assert LineFields(s1, show) == LineFields(s2, show);
  }

  /** The `_lines` list built from a batch: one line per sample, in batch order. */
  function CsvLines(batch: seq<Sample>, show: real -> string): (lines: seq<string>)
    ensures |lines| == |batch|
  {
    if batch == [] then [] else CsvLines(batch[..|batch| - 1], show) + [CsvLine(batch[|batch| - 1], show)]
  }

  /** Line `i` of a batch's lines is the line of its sample `i`. */
  lemma {:induction false} CsvLinesAt(batch: seq<Sample>, show: real -> string, i: nat)
    requires i < |batch|
    ensures CsvLines(batch, show)[i] == CsvLine(batch[i], show)
  {
    var n := |batch| - 1;
    if i < n {
      CsvLinesAt(batch[..n], show, i);
    }
  }
}
