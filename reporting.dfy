/**
 `europy/lifecycle/reporting.py`: the single module-level report, `capture`, which records a
 `TestResult` in it, and `flush`, which writes the report to
 `.europy/reports/<DDMMYYYY_HHMMSS>_<title>/report.json`.
 */
module Reporting {
  import opened LifecycleResult
  import opened Paths

  /** A calendar date and time of day, as a `datetime` holds it. */
  datatype DateTime = DateTime(year: int, month: int, day: int, hour: int, minute: int, second: int)
  {
    predicate InRange()
    {
      && 1 <= year <= 9999 && 1 <= month <= 12 && 1 <= day <= 31
      && 0 <= hour < 24 && 0 <= minute < 60 && 0 <= second < 60
    }
  }

  /** The report's creation time; every field is within `datetime`'s ranges. */
  type Timestamp = t: DateTime | t.InRange() witness DateTime(1, 1, 1, 0, 0, 0)

  function Pow10(n: nat): (p: nat)
    ensures p >= 1
  {
    if n == 0 then 1 else 10 * Pow10(n - 1)
  }

  predicate IsDigit(c: char)
  {
    '0' <= c <= '9'
  }

  /** `n` written in decimal with exactly `width` digits, zero-padded on the left. */
  function Digits(n: nat, width: nat): (s: string)
    requires n < Pow10(width)
    ensures |s| == width
    ensures forall i :: 0 <= i < |s| ==> IsDigit(s[i])
  {
    if width == 0 then []
    else Digits(n / 10, width - 1) + [('0' as int + n % 10) as char]
  }

  /** The number a string of decimal digits denotes. */
  function DigitValue(s: string): int
  {
    if s == [] then 0 else 10 * DigitValue(s[..|s| - 1]) + (s[|s| - 1] as int - '0' as int)
  }

  /** Reading back the zero-padded digits gives the number that was written. */
  lemma {:induction false} DigitsRoundTrip(n: nat, width: nat)
    requires n < Pow10(width)
    ensures DigitValue(Digits(n, width)) == n
  {
    if width > 0 {
      var s := Digits(n, width);
      assert n / 10 < Pow10(width - 1);
      assert s[..|s| - 1] == Digits(n / 10, width - 1);
      DigitsRoundTrip(n / 10, width - 1);
    }
  }

  /** `timestamp.strftime('%d%m%Y_%H%M%S')`. */
  function DateStr(t: Timestamp): string
  {
    Digits(t.day, 2) + Digits(t.month, 2) + Digits(t.year, 4) + "_"
      + Digits(t.hour, 2) + Digits(t.minute, 2) + Digits(t.second, 2)
  }

  /** Reads a timestamp back from the first fifteen characters of a report folder name. */
  function ParseDateStr(s: string): DateTime
    requires |s| >= 15
  {
    DateTime(DigitValue(s[4..8]), DigitValue(s[2..4]), DigitValue(s[0..2]),
             DigitValue(s[9..11]), DigitValue(s[11..13]), DigitValue(s[13..15]))
  }

  /** `title.replace(' ', '_')`. */
  function Underscored(title: string): (r: string)
    ensures |r| == |title|
    ensures forall i :: 0 <= i < |title| ==> r[i] == (if title[i] == ' ' then '_' else title[i])
  {
    if title == [] then []
    else Underscored(title[..|title| - 1]) + [if title[|title| - 1] == ' ' then '_' else title[|title| - 1]]
  }

  /** The replacement leaves no space, changes nothing else, and is idempotent. */
  lemma UnderscoredSpaceFree(title: string)
    ensures ' ' !in Underscored(title)
    ensures Underscored(Underscored(title)) == Underscored(title)
    ensures ' ' !in title ==> Underscored(title) == title
  {
  }

  /** `a` and `b` differ at most where one holds a space and the other an underscore. */
  predicate SameUpToSpaces(a: string, b: string)
  {
    |a| == |b| && forall i :: 0 <= i < |a| ==> a[i] == b[i] || (a[i] in " _" && b[i] in " _")
  }

  /**
   Titles that differ only in spaces against underscores give the same folder name, and they
   are the only titles that do: the replacement identifies exactly those pairs.
   */
  lemma UnderscoredCollisions(a: string, b: string)
    ensures Underscored(a) == Underscored(b) <==> SameUpToSpaces(a, b)
  {
    var ua, ub := Underscored(a), Underscored(b);
    if SameUpToSpaces(a, b) {
      assert forall i :: 0 <= i < |ua| ==> ua[i] == ub[i];
    }
    if ua == ub {
      forall i | 0 <= i < |a| ensures a[i] == b[i] || (a[i] in " _" && b[i] in " _") {
        assert ua[i] == ub[i];
      }
    }
  }

  const RootReportDirectory: string := ".europy/reports"

  /** The last path segment of a report folder: `<DDMMYYYY_HHMMSS>_<title with '_' for ' '>`. */
  function FolderName(t: Timestamp, title: string): string
  {
    DateStr(t) + "_" + Underscored(title)
  }

  /** The folder `flush` writes to. */
  function ReportDirectory(t: Timestamp, title: string): string
  {
    Join(RootReportDirectory, FolderName(t, title))
  }

  /** The file `flush` writes. */
  function ReportFile(t: Timestamp, title: string): string
  {
    Join(ReportDirectory(t, title), "report.json")
  }

  /**
   A report folder name starts with the zero-padded timestamp, followed by an underscore, and
   the timestamp can be read back from it: reports created in different seconds never share a
   folder.
   */
  lemma FolderNameTimestamp(t: Timestamp, title: string)
    ensures |FolderName(t, title)| == 16 + |title|
    ensures forall i :: 0 <= i < 15 && i != 8 ==> IsDigit(FolderName(t, title)[i])
    ensures FolderName(t, title)[8] == '_' && FolderName(t, title)[15] == '_'
    ensures ParseDateStr(FolderName(t, title)) == t
  {
    var f := FolderName(t, title);
    var d, m, y := Digits(t.day, 2), Digits(t.month, 2), Digits(t.year, 4);
    var hh, mm, ss := Digits(t.hour, 2), Digits(t.minute, 2), Digits(t.second, 2);
    assert f == d + m + y + "_" + hh + mm + ss + "_" + Underscored(title);
    assert f[0..2] == d && f[2..4] == m && f[4..8] == y;
    assert f[9..11] == hh && f[11..13] == mm && f[13..15] == ss;
    DigitsRoundTrip(t.day, 2);
    DigitsRoundTrip(t.month, 2);
    DigitsRoundTrip(t.year, 4);
    DigitsRoundTrip(t.hour, 2);
    DigitsRoundTrip(t.minute, 2);
    DigitsRoundTrip(t.second, 2);
  }

  /** A report folder name contains no space. */
  lemma FolderNameSpaceFree(t: Timestamp, title: string)
    ensures ' ' !in FolderName(t, title)
  {
    var f := FolderName(t, title);
    FolderNameTimestamp(t, title);
    UnderscoredSpaceFree(title);
    forall i | 0 <= i < |f| ensures f[i] != ' ' {
      if i >= 16 {
        assert f[i] == Underscored(title)[i - 16];
      }
    }
  }

  /** The folder is `.europy/reports/` followed by the folder name, and holds no space anywhere. */
  lemma ReportDirectoryShape(t: Timestamp, title: string)
    ensures ReportDirectory(t, title) == RootReportDirectory + "/" + FolderName(t, title)
    ensures ' ' !in ReportDirectory(t, title)
    ensures ' ' !in AfterLast(ReportDirectory(t, title), '/')
  {
    var f := FolderName(t, title);
    FolderNameTimestamp(t, title);
    FolderNameSpaceFree(t, title);
    JoinRelative(RootReportDirectory, f);
    var dir := ReportDirectory(t, title);
    var root := RootReportDirectory + "/";
    assert ' ' !in root;
    forall i | 0 <= i < |dir| ensures dir[i] != ' ' {
      if i < |root| {
        assert dir[i] == root[i];
      } else {
        assert dir[i] == f[i - |root|];
      }
    }
  }

  /** The file `flush` writes lies inside the report folder and is always named `report.json`. */
  lemma ReportFileName(t: Timestamp, title: string)
    ensures ReportFile(t, title)[..|ReportDirectory(t, title)|] == ReportDirectory(t, title)
    ensures AfterLast(ReportFile(t, title), '/') == "report.json"
  {
    ReportDirectoryShape(t, title);
    JoinFileName(ReportDirectory(t, title), "report.json");
  }

  /**
   The part of the file system `flush` touches: the folders that exist and the text of each
   file.
   */
  datatype Disk = Disk(dirs: set<string>, files: map<string, string>)

  /**
   The report aggregator. The `Report` class itself is not part of this model; this is the
   least of it the core relies on: a creation timestamp fixed at construction, a details record
   whose title names the output folder, per-function parameter maps, figures and the result
   list, each changed only by its own capture method.
   */
  class Report {
    const timestamp: Timestamp
    var details: ModelDetails
    var parameters: map<string, map<string, Value>>
    var figures: seq<(Value, Value)>
    var results: seq<TestResult>

    constructor (timestamp: Timestamp, details: ModelDetails)
      ensures this.timestamp == timestamp && this.details == details
      ensures parameters == map[] && figures == [] && results == []
    {
      this.timestamp := timestamp;
      this.details := details;
      parameters := map[];
      figures := [];
      results := [];
    }

    /** Appends one result; nothing is removed or reordered. */
    method Capture(r: TestResult)
      modifies this
      ensures results == old(results) + [r]
      ensures details == old(details) && parameters == old(parameters) && figures == old(figures)
    {
      results := results + [r];
    }

    /** Replaces the details record wholesale. */
    method CaptureModelDetails(d: ModelDetails)
      modifies this
      ensures details == d
      ensures parameters == old(parameters) && figures == old(figures) && results == old(results)
    {
      details := d;
    }

    /** Sets the parameter map recorded for one function name; later calls win. */
    method CaptureParameters(funcName: string, params: map<string, Value>)
      modifies this
      ensures parameters == old(parameters)[funcName := params]
      ensures details == old(details) && figures == old(figures) && results == old(results)
    {
      parameters := parameters[funcName := params];
    }

    /** Appends one figure with its metadata. */
    method CaptureFigure(metadata: Value, figure: Value)
      modifies this
      ensures figures == old(figures) + [(metadata, figure)]
      ensures details == old(details) && parameters == old(parameters) && results == old(results)
    {
      figures := figures + [(metadata, figure)];
    }
  }

  /** The module-level state of `reporting.py`: the one report every capture goes to. */
  class ReportingModule {
    const report: Report

    /** Importing the module creates a fresh, empty report. */
    constructor (now: Timestamp, initialDetails: ModelDetails)
      ensures fresh(report)
      ensures report.timestamp == now && report.details == initialDetails
      ensures report.results == [] && report.parameters == map[] && report.figures == []
    {
      report := new Report(now, initialDetails);
    }

    /** `get_report`: always the same module-level instance, never a copy. */
    method GetReport() returns (r: Report)
      ensures r == report
    {
      r := report;
    }

    /**
     `capture`: builds the result from exactly its arguments, appends that result to the
     report once and returns it. `description` defaults to the empty string.
     */
    method Capture(key: Option<string>, labels: seq<LabelItem>, result: Value, description: Option<string> := Some(""))
      returns (r: TestResult)
      modifies report
      ensures r.key == key && r.labels == labels && r.result == result && r.description == description
      ensures report.results == old(report.results) + [r]
      ensures report.details == old(report.details)
      ensures report.parameters == old(report.parameters) && report.figures == old(report.figures)
    {
      r := TestResult(key, labels, result, description);
      report.Capture(r);
    }

    /**
     `flush`: creates the report folder when it does not exist yet, then opens `report.json` in
     it for writing, which empties it, and writes the report's serialised form. `serialised` is
     what `to_dictionaries` gives for the current report, or `None` when it raises; the file is
     then left empty and `ok` is false (the exception propagates). It changes no report field.
     */
    method Flush(disk: Disk, serialised: Option<string>) returns (after: Disk, created: bool, ok: bool)
      ensures created <==> ReportDirectory(report.timestamp, report.details.title) !in disk.dirs
      ensures ok <==> serialised.Some?
      ensures after.dirs == disk.dirs + {ReportDirectory(report.timestamp, report.details.title)}
      ensures after.files == disk.files[ReportFile(report.timestamp, report.details.title) :=
                                         if serialised.Some? then serialised.value else ""]
    {
      var dateStr := DateStr(report.timestamp);
      var title := Underscored(report.details.title);
      var reportDirectory := Join(RootReportDirectory, dateStr + "_" + title);
      after := disk;
      created := reportDirectory !in disk.dirs;
      if created {
        after := after.(dirs := after.dirs + {reportDirectory});
      }
      var filePath := Join(reportDirectory, "report.json");
      after := after.(files := after.files[filePath := ""]);
      match serialised {
        case None =>
          ok := false;
        case Some(text) =>
          after := after.(files := after.files[filePath := text]);
          ok := true;
      }
    }
  }

  /**
   Flushing twice with no capture in between: the second flush creates no folder and leaves the
   disk exactly as the first left it.
   */
  method FlushTwice(m: ReportingModule, disk: Disk, text: string) returns (first: Disk, second: Disk, createdAgain: bool)
    ensures !createdAgain
    ensures second == first
  {
    var c, ok;
    first, c, ok := m.Flush(disk, Some(text));
    second, createdAgain, ok := m.Flush(first, Some(text));
  }
}
