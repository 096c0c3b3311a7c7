/**
 * The SD card as the firmware sees it: the measurements directory, whose
 * ordered listing is what `listdir` returns, and the lines of each file in
 * it. A file's size is the number of bytes of its lines (every character the
 * firmware writes is ASCII, one byte each).
 */
module Storage {
  import opened Text

  /** `_ROOT_DIR_PATH` and `_MEASUREMENTS_DIR_PATH`. */
  const ROOT_DIR_PATH: string := "/tank_data"
  const MEASUREMENTS_DIR_PATH: string := ROOT_DIR_PATH + "/measurements"

  /** `_DATA_FILE_NAME_PREFIX`, `_DATA_FILE_EXTENSION` and `_DATA_FILE_HEADER`. */
  const DATA_FILE_NAME_PREFIX: string := "tank_measurements_"
  const DATA_FILE_EXTENSION: string := ".csv"
  const DATA_FILE_HEADER: string := "timestamp,air_temp_1,water_temp_1,water_temp_2\n"

  /** `_DATA_FILE_MAX_SIZE_MB`, a float in megabytes of 1024 * 1024 bytes. */
  const DATA_FILE_MAX_SIZE_MB: real := 2.0

  /** The measurements directory: its listing in `listdir` order, and each entry's lines. */
  datatype FileSystem = FileSystem(listing: seq<string>, files: map<string, seq<string>>)

  /** The listing names each file once and nothing else; entry names hold no '/'. */
  ghost predicate WellFormed(fs: FileSystem)
  {
    (forall n :: n in fs.files <==> n in fs.listing)
    && (forall i, j :: 0 <= i < j < |fs.listing| ==> fs.listing[i] != fs.listing[j])
    && (forall n :: n in fs.files ==> '/' !in n)
  }

  /** `count_data_files`: the number of entries `listdir` returns. */
  function CountDataFiles(fs: FileSystem): (count: nat)
    requires WellFormed(fs)
    ensures count == |fs.files.Keys| && count == |fs.listing|
  {
    DistinctCardinality(fs.listing);
    assert fs.files.Keys == set n | n in fs.listing;
    |fs.listing|
  }

  lemma {:induction false} DistinctCardinality(s: seq<string>)
    requires forall i, j :: 0 <= i < j < |s| ==> s[i] != s[j]
    ensures |set n | n in s| == |s|
  {
    if s != [] {
      var init := s[..|s| - 1];
      DistinctCardinality(init);
      assert (set n | n in s) == (set n | n in init) + {s[|s| - 1]};
      assert s[|s| - 1] !in (set n | n in init);
    }
  }

  /** The file name `create_data_file` derives from a count of entries. */
  function DataFileName(count: nat): string
  {
    DATA_FILE_NAME_PREFIX + IntToString(count) + DATA_FILE_EXTENSION
  }

  /** The absolute path `create_data_file` returns for a new file. */
  function DataFilePath(count: nat): string
  {
    MEASUREMENTS_DIR_PATH + "/" + DataFileName(count)
  }

  /**
   * The directory entry a path opens. After boot the working directory is
   * the measurements directory, so a bare entry name (what boot reuses from
   * `listdir()`) and an absolute path into that directory name the same file.
   */
  function Resolve(path: string): string
  {
    var dir := MEASUREMENTS_DIR_PATH + "/";
    if |dir| <= |path| && path[..|dir|] == dir then path[|dir|..] else path
  }

  lemma DataFileNameHasNoSlash(count: nat)
    ensures '/' !in DataFileName(count)
  {
    IntToStringNumeric(count);
    NumericTextExcludes(IntToString(count), '/');
  }

  lemma ResolveDataFilePath(count: nat)
    ensures Resolve(DataFilePath(count)) == DataFileName(count)
  {
    var dir := MEASUREMENTS_DIR_PATH + "/";
    assert DataFilePath(count) == dir + DataFileName(count);
  }

  lemma ResolveEntryName(name: string)
    requires '/' !in name
    ensures Resolve(name) == name
  {
    var dir := MEASUREMENTS_DIR_PATH + "/";
    if |dir| <= |name| {
      assert name[..|dir|][0] == name[0] != dir[0];
    }
  }

  /** Different counts give different file names. */
  lemma DataFileNameInjective(a: nat, b: nat)
    requires DataFileName(a) == DataFileName(b)
    ensures a == b
  {
    var p, e := DATA_FILE_NAME_PREFIX, DATA_FILE_EXTENSION;
    var na, nb := DataFileName(a), DataFileName(b);
    assert na[|p|..|na| - |e|] == IntToString(a);
    assert nb[|p|..|nb| - |e|] == IntToString(b);
    IntToStringInjective(a, b);
  }

  /** Sum of the lengths of the lines: the size `stat` reports. */
  function Bytes(lines: seq<string>): nat
  {
    if lines == [] then 0 else Bytes(lines[..|lines| - 1]) + |lines[|lines| - 1]|
  }

  lemma {:induction false} BytesAppend(a: seq<string>, b: seq<string>)
    ensures Bytes(a + b) == Bytes(a) + Bytes(b)
    decreases |b|
  {
    if b == [] {
      assert a + b == a;
    } else {
      assert (a + b)[..|a + b| - 1] == a + b[..|b| - 1];
      BytesAppend(a, b[..|b| - 1]);
    }
  }

  function FileSize(fs: FileSystem, name: string): nat
    requires name in fs.files
  {
    Bytes(fs.files[name])
  }

  /** The size in megabytes, as the float division `size_b / (1_024 * 1_024)`. */
  function SizeInMb(bytes: nat): real
  {
    bytes as real / (1024 * 1024) as real
  }

  /** The rotation test of `dump_to_storage`. */
  predicate NeedsRotation(bytes: nat)
  {
    SizeInMb(bytes) >= DATA_FILE_MAX_SIZE_MB
  }

  /** The megabyte test is exactly "at least 2 MiB", with no rounding at the boundary. */
  lemma RotationThreshold(bytes: nat)
    ensures NeedsRotation(bytes) <==> bytes >= 2 * 1024 * 1024
  {
    var mib: real := (1024 * 1024) as real;
    assert SizeInMb(bytes) * mib == bytes as real;
  }

  /**
   * `open(name, 'w')` followed by writes: the entry is created when absent
   * (at the end of the listing) and its old content, if any, is replaced.
   */
  function WriteFile(fs: FileSystem, name: string, content: seq<string>): (r: FileSystem)
    requires WellFormed(fs) && '/' !in name
    ensures WellFormed(r) && name in r.files
  {
    var listing := if name in fs.files then fs.listing else fs.listing + [name];
    FileSystem(listing, fs.files[name := content])
  }

  /** `open(name, 'a')` and one `write`: the line goes at the end of that file only. */
  function AppendLine(fs: FileSystem, name: string, line: string): (r: FileSystem)
    requires name in fs.files
    ensures r.listing == fs.listing && r.files.Keys == fs.files.Keys
  {
    fs.(files := fs.files[name := fs.files[name] + [line]])
  }

  /** Appending lines one after another, in order. */
  function AppendLines(fs: FileSystem, name: string, lines: seq<string>): (r: FileSystem)
    requires name in fs.files
    ensures r.listing == fs.listing && r.files.Keys == fs.files.Keys
    decreases |lines|
  {
    if lines == [] then fs
    else AppendLines(AppendLine(fs, name, lines[0]), name, lines[1..])
  }

  /** Appending a batch adds it, in order, to the end of that one file and changes nothing else. */
  lemma {:induction false} AppendLinesEffect(fs: FileSystem, name: string, lines: seq<string>)
    requires name in fs.files
    ensures var r := AppendLines(fs, name, lines);
      r.files[name] == fs.files[name] + lines
      && (forall other :: other in fs.files && other != name ==> r.files[other] == fs.files[other])
      && (WellFormed(fs) ==> WellFormed(r))
    decreases |lines|
  {
    if lines != [] {
      var next := AppendLine(fs, name, lines[0]);
      AppendLinesEffect(next, name, lines[1..]);
      assert fs.files[name] + [lines[0]] + lines[1..] == fs.files[name] + lines;
    }
  }

  lemma {:induction false} AppendLinesSnoc(fs: FileSystem, name: string, lines: seq<string>, line: string)
    requires name in fs.files
    ensures AppendLines(fs, name, lines + [line]) == AppendLine(AppendLines(fs, name, lines), name, line)
    decreases |lines|
  {
    if lines == [] {
      assert AppendLines(AppendLine(fs, name, line), name, []) == AppendLine(fs, name, line);
    } else {
      assert (lines + [line])[1..] == lines[1..] + [line];
      AppendLinesSnoc(AppendLine(fs, name, lines[0]), name, lines[1..], line);
    }
  }

  /**
   * Every data file in the directory has an index below the entry count, so
   * the next count-named file is new. The firmware keeps this (see
   * `CreateKeepsIndicesBelowCount`); a card on which a lower-numbered file
   * was deleted may break it.
   */
  ghost predicate IndicesBelowCount(fs: FileSystem)
  {
    forall k: nat :: DataFileName(k) in fs.files ==> k < |fs.listing|
  }

  /** Appending lines changes no entry, so the index invariant survives it. */
  lemma AppendLinesKeepsIndicesBelowCount(fs: FileSystem, name: string, lines: seq<string>)
    requires name in fs.files && IndicesBelowCount(fs)
    ensures IndicesBelowCount(AppendLines(fs, name, lines))
  {
  }

  /** The file a new data file is created as, on the current directory. */
  function NextDataFile(fs: FileSystem): (r: FileSystem)
    requires WellFormed(fs)
    ensures WellFormed(r)
  {
    DataFileNameHasNoSlash(|fs.listing|);
    WriteFile(fs, DataFileName(|fs.listing|), [DATA_FILE_HEADER])
  }

  /**
   * Creating the count-named file on a directory that keeps the index
   * invariant adds one entry holding only the header, leaves every other
   * file as it was, and keeps the invariant.
   */
  lemma CreateKeepsIndicesBelowCount(fs: FileSystem)
    requires WellFormed(fs) && IndicesBelowCount(fs)
    ensures var name, r := DataFileName(|fs.listing|), NextDataFile(fs);
      name !in fs.files
      && r.listing == fs.listing + [name]
      && r.files[name] == [DATA_FILE_HEADER]
      && (forall other :: other in fs.files ==> r.files[other] == fs.files[other])
      && IndicesBelowCount(r)
  {
    var n := |fs.listing|;
    var r := NextDataFile(fs);
    forall k: nat | DataFileName(k) in r.files
      ensures k < |r.listing|
    {
      if DataFileName(k) == DataFileName(n) {
        DataFileNameInjective(k, n);
      }
    }
  }

  /**
   * Rotation keeps a batch out of the old file: on a directory that keeps
   * the index invariant, creating the next data file and appending the batch
   * to it leaves the file that was current untouched.
   */
  lemma RotationLeavesOldFileUntouched(fs: FileSystem, current: string, lines: seq<string>)
    requires WellFormed(fs) && IndicesBelowCount(fs) && current in fs.files
    ensures var name := DataFileName(|fs.listing|);
      var r := AppendLines(NextDataFile(fs), name, lines);
      name != current
      && r.files[current] == fs.files[current]
      && r.files[name] == [DATA_FILE_HEADER] + lines
      && |r.listing| == |fs.listing| + 1
  {
    CreateKeepsIndicesBelowCount(fs);
    AppendLinesEffect(NextDataFile(fs), DataFileName(|fs.listing|), lines);
  }

  /**
   * What rotation does when the count-named file already exists (a lower
   * numbered file was removed from the card): `open(..., 'w')` truncates that
   * file, the batch lands after a fresh header, and the entry count does not
   * grow, so the next rotation picks the same name again.
   */
  lemma RotationOntoExistingName(fs: FileSystem, lines: seq<string>)
    requires WellFormed(fs) && DataFileName(|fs.listing|) in fs.files
    ensures var name := DataFileName(|fs.listing|);
      var r := AppendLines(NextDataFile(fs), name, lines);
      r.files[name] == [DATA_FILE_HEADER] + lines
      && r.listing == fs.listing
      && DataFileName(|r.listing|) == name
  {
    AppendLinesEffect(NextDataFile(fs), DataFileName(|fs.listing|), lines);
  }

  /** Such a card exists: one file left, numbered 1, which the next rotation overwrites. */
  lemma RotationOverwriteExample(earlier: seq<string>, lines: seq<string>)
    ensures var fs := FileSystem([DataFileName(1)], map[DataFileName(1) := earlier]);
      WellFormed(fs) && DataFileName(|fs.listing|) in fs.files
      && AppendLines(NextDataFile(fs), DataFileName(1), lines).files[DataFileName(1)] == [DATA_FILE_HEADER] + lines
  {
    DataFileNameHasNoSlash(1);
    var fs := FileSystem([DataFileName(1)], map[DataFileName(1) := earlier]);
    RotationOntoExistingName(fs, lines);
  }

  /** Where a batch of lines ends up: the new card, the new current path, and whether the file was rotated. */
  datatype Stored = Stored(card: FileSystem, path: string, rotated: bool)

  /**
   * The storage half of `dump_to_storage` for a non-empty batch: measure the
   * current file, rotate to a new count-named file when it holds 2 MiB or
   * more, then append every line to the current file.
   */
  function StoreLines(fs: FileSystem, path: string, lines: seq<string>): (r: Stored)
    requires WellFormed(fs) && Resolve(path) in fs.files
    ensures WellFormed(r.card) && Resolve(r.path) in r.card.files
    ensures r.card.listing == (if r.rotated then NextDataFile(fs).listing else fs.listing)
  {
    if NeedsRotation(FileSize(fs, Resolve(path))) then
      var name := DataFileName(|fs.listing|);
      var created := NextDataFile(fs);
      ResolveDataFilePath(|fs.listing|);
      AppendLinesEffect(created, name, lines);
      Stored(AppendLines(created, name, lines), DataFilePath(|fs.listing|), true)
    else
      AppendLinesEffect(fs, Resolve(path), lines);
      Stored(AppendLines(fs, Resolve(path), lines), path, false)
  }

  /**
   * Rotation happens exactly at 2 MiB or more, and then the batch follows a
   * fresh header in the count-named file; otherwise it follows what the
   * current file held. Every other file keeps its lines.
   */
  lemma StoreLinesAppendsBatch(fs: FileSystem, path: string, lines: seq<string>)
    requires WellFormed(fs) && Resolve(path) in fs.files
    ensures var r := StoreLines(fs, path, lines);
      (r.rotated <==> FileSize(fs, Resolve(path)) >= 2 * 1024 * 1024)
      && (r.rotated ==> r.path == DataFilePath(|fs.listing|)
                        && r.card.files[DataFileName(|fs.listing|)] == [DATA_FILE_HEADER] + lines)
      && (!r.rotated ==> r.path == path && r.card.files[Resolve(path)] == fs.files[Resolve(path)] + lines)
      && (forall other :: other in fs.files && other != Resolve(r.path) ==> r.card.files[other] == fs.files[other])
  {
    RotationThreshold(FileSize(fs, Resolve(path)));
    var r := StoreLines(fs, path, lines);
    if r.rotated {
      var name := DataFileName(|fs.listing|);
      ResolveDataFilePath(|fs.listing|);
      AppendLinesEffect(NextDataFile(fs), name, lines);
    } else {
      AppendLinesEffect(fs, Resolve(path), lines);
    }
  }

  /**
   * On a card that keeps the index invariant, a rotation adds exactly one new
   * entry, puts no line of the batch into the file that was current, and the
   * invariant still holds afterwards.
   */
  lemma StoreLinesSparesOldFile(fs: FileSystem, path: string, lines: seq<string>)
    requires WellFormed(fs) && Resolve(path) in fs.files && IndicesBelowCount(fs)
    ensures var r := StoreLines(fs, path, lines);
      IndicesBelowCount(r.card)
      && (r.rotated ==> r.card.files[Resolve(path)] == fs.files[Resolve(path)]
                        && r.card.listing == fs.listing + [DataFileName(|fs.listing|)])
  {
    var r := StoreLines(fs, path, lines);
    if r.rotated {
      RotationLeavesOldFileUntouched(fs, Resolve(path), lines);
      CreateKeepsIndicesBelowCount(fs);
      AppendLinesKeepsIndicesBelowCount(NextDataFile(fs), DataFileName(|fs.listing|), lines);
    } else {
      AppendLinesKeepsIndicesBelowCount(fs, Resolve(path), lines);
    }
  }
}
