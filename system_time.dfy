/**
 * Timestamps of measurements. The firmware reads the real-time clock as
 * MicroPython's `RTC.datetime()` tuple and formats it with
 * `format_system_time`, which picks positions by index.
 */
module SystemTime {
  import opened Wrappers
  import opened Text

  /**
   * The tuple `RTC.datetime()` returns, position by position:
   * (year, month, day, weekday, hours, minutes, seconds, subseconds).
   */
  datatype DateTime = DateTime(year: int, month: int, day: int, weekday: int,
                               hours: int, minutes: int, seconds: int, subseconds: int)

  /** What a timestamp records, in the order the firmware prints it. */
  datatype Stamp = Stamp(month: int, day: int, year: int, hour: int, minute: int, second: int)

  /**
   * `format_system_time`: "month/day/year h:m:s" from tuple positions 1, 2, 0
   * and 4, 5, 6 (month, day, year, hours, minutes, seconds), each written with
   * `str(int)`, without zero padding.
   */
  function FormatSystemTime(t: DateTime): string
  {
    Interleave([t.month, t.day, t.year, t.hours, t.minutes, t.seconds], "// ::")
  }

  /**
   * A timestamp reads back into the six clock fields it was made from, and
   * holds no comma and no newline, so it fits in one CSV field.
   */
  lemma FormatSystemTimeRoundTrip(t: DateTime)
    ensures var stamp := FormatSystemTime(t);
      ',' !in stamp && '\n' !in stamp
      && ParseTimestamp(stamp) == Some(Stamp(t.month, t.day, t.year, t.hours, t.minutes, t.seconds))
  {
    InterleaveHalves(t.month, t.day, t.year, t.hours, t.minutes, t.seconds);
    FormatRoundTrip(t.month, t.day, t.year, t.hours, t.minutes, t.seconds);
  }

  /** `str` of each number, with `seps[i]` written between `nums[i]` and `nums[i + 1]`. */
  function Interleave(nums: seq<int>, seps: string): string
    requires |nums| == |seps| + 1
  {
    if seps == [] then IntToString(nums[0])
    else Interleave(nums[..|nums| - 1], seps[..|seps| - 1]) + [seps[|seps| - 1]] + IntToString(nums[|nums| - 1])
  }

  /** The six fields of a timestamp are its date half, a space, and its time half. */
  lemma InterleaveHalves(a: int, b: int, c: int, d: int, e: int, f: int)
    ensures Interleave([a, b, c, d, e, f], "// ::")
         == ThreeNumbers(a, b, c, '/') + " " + ThreeNumbers(d, e, f, ':')
  {
    var sa, sb, sc, sd, se, sf := IntToString(a), IntToString(b), IntToString(c), IntToString(d), IntToString(e), IntToString(f);
    assert [a, b][..1] == [a] && "/"[..0] == "";
    assert Interleave([a, b], "/") == sa + "/" + sb;
    assert [a, b, c][..2] == [a, b] && "//"[..1] == "/";
    assert Interleave([a, b, c], "//") == ThreeNumbers(a, b, c, '/');
    assert [a, b, c, d][..3] == [a, b, c] && "// "[..2] == "//";
    assert Interleave([a, b, c, d], "// ") == ThreeNumbers(a, b, c, '/') + " " + sd;
    assert [a, b, c, d, e][..4] == [a, b, c, d] && "// :"[..3] == "// ";
    assert Interleave([a, b, c, d, e], "// :") == ThreeNumbers(a, b, c, '/') + " " + sd + ":" + se;
    assert [a, b, c, d, e, f][..5] == [a, b, c, d, e] && "// ::"[..4] == "// :";
    assert Interleave([a, b, c, d, e, f], "// ::") == ThreeNumbers(a, b, c, '/') + " " + sd + ":" + se + ":" + sf;
  }

  /** Reads a timestamp back into its six numbers; `None` when it is not one. */
  function ParseTimestamp(stamp: string): Option<Stamp>
  {
    var halves := Split(stamp, ' ');
    if |halves| != 2 then None else ParseFields(Split(halves[0], '/'), Split(halves[1], ':'))
  }

  function ParseFields(date: seq<string>, time: seq<string>): Option<Stamp>
  {
    if |date| != 3 || |time| != 3 then None
    else
      var month, day, year := ParseInt(date[0]), ParseInt(date[1]), ParseInt(date[2]);
      var hour, minute, second := ParseInt(time[0]), ParseInt(time[1]), ParseInt(time[2]);
      if month.None? || day.None? || year.None? || hour.None? || minute.None? || second.None? then None
      else Some(Stamp(month.value, day.value, year.value, hour.value, minute.value, second.value))
  }

  /** `str(a) + sep + str(b) + sep + str(c)`, the two halves of a timestamp. */
  function ThreeNumbers(a: int, b: int, c: int, sep: char): string
  {
    IntToString(a) + [sep] + IntToString(b) + [sep] + IntToString(c)
  }

  /** Three numbers joined by `sep` split back into them, and hold no other separator. */
  lemma ThreeNumbersSplit(a: int, b: int, c: int, sep: char)
    requires !IsDigit(sep) && sep != '-'
    ensures Split(ThreeNumbers(a, b, c, sep), sep) == [IntToString(a), IntToString(b), IntToString(c)]
    ensures forall x :: !IsDigit(x) && x != '-' && x != sep ==> x !in ThreeNumbers(a, b, c, sep)
  {
    var parts := [IntToString(a), IntToString(b), IntToString(c)];
    forall i, x | 0 <= i < 3 && !IsDigit(x) && x != '-'
      ensures x !in parts[i]
    {
      var n := [a, b, c][i];
      IntToStringNumeric(n);
      assert parts[i] == IntToString(n);
      NumericTextExcludes(parts[i], x);
    }
    SplitJoin(parts, sep);
    assert parts[1..] == [parts[1], parts[2]];
    assert parts[1..][1..] == [parts[2]];
    assert Join(parts[1..][1..], sep) == parts[2];
    assert Join(parts[1..], sep) == parts[1] + [sep] + parts[2];
    assert Join(parts, sep) == parts[0] + [sep] + (parts[1] + [sep] + parts[2]);
    assert parts[0] + [sep] + parts[1] + [sep] + parts[2] == parts[0] + [sep] + (parts[1] + [sep] + parts[2]);
  }

  lemma FormatRoundTrip(month: int, day: int, year: int, hour: int, minute: int, second: int)
    ensures var stamp := ThreeNumbers(month, day, year, '/') + " " + ThreeNumbers(hour, minute, second, ':');
      ',' !in stamp && '\n' !in stamp &&
      ParseTimestamp(stamp) == Some(Stamp(month, day, year, hour, minute, second))
  {
    var date := ThreeNumbers(month, day, year, '/');
    var time := ThreeNumbers(hour, minute, second, ':');
    ThreeNumbersSplit(month, day, year, '/');
    ThreeNumbersSplit(hour, minute, second, ':');
    assert ' ' !in date && ',' !in date && '\n' !in date;
    assert ' ' !in time && ',' !in time && '\n' !in time;
    ParseHalves(date, time);
    FieldsRoundTrip(month, day, year, hour, minute, second);
  }

  lemma ParseHalves(date: string, time: string)
    requires ' ' !in date && ' ' !in time
    ensures ParseTimestamp(date + " " + time) == ParseFields(Split(date, '/'), Split(time, ':'))
  {
    SplitAfterPart(date, ' ', time);
    SplitWithoutSeparator(time, ' ');
    assert date + " " + time == date + [' '] + time;
  }

  lemma FieldsRoundTrip(month: int, day: int, year: int, hour: int, minute: int, second: int)
    ensures ParseFields([IntToString(month), IntToString(day), IntToString(year)],
                        [IntToString(hour), IntToString(minute), IntToString(second)])
         == Some(Stamp(month, day, year, hour, minute, second))
  {
    IntToStringRoundTrip(month);
    IntToStringRoundTrip(day);
    IntToStringRoundTrip(year);
    IntToStringRoundTrip(hour);
    IntToStringRoundTrip(minute);
    IntToStringRoundTrip(second);
  }
}
