/**
 * The seven-day dataview block generator: choosing the end date and the
 * target file from the command line, the eight consecutive dates ending at
 * the end date, and the block of query lines appended to the file.
 */
module Dataview {
  import opened Wrappers
  import opened TextUtil
  import opened Calendar

  /** Why the script stops without appending anything: a usage error or the overflow of the date subtraction. */
  datatype ScriptError =
    | MissingArguments    // fewer than two argv entries
    | MissingFilePath     // an end date but no path after it
    | DateOutOfRange      // `end_date - timedelta(days=7)` falls before 1 January of year 1

  /** The end date and the file the block goes to. */
  datatype Request = Request(endDate: Date, filePath: string)

  /** What the script appends, and where. */
  datatype Append = Append(filePath: string, text: string)

  // ---------------------------------------------------------------------
  // os.path.join on POSIX
  // ---------------------------------------------------------------------

  /** One step of `os.path.join`: an absolute part restarts the path, otherwise a slash is added when needed. */
  function JoinStep(path: string, part: string): string
  {
    if StartsWith(part, "/") then part
    else if path == [] || EndsWith(path, "/") then path + part
    else path + "/" + part
  }

  /** `os.path.join(first, *rest)` */
  function JoinPath(first: string, rest: seq<string>): string
    decreases |rest|
  {
    if rest == [] then first else JoinPath(JoinStep(first, rest[0]), rest[1..])
  }

  /** A non-empty part that neither starts nor ends with a slash. */
  predicate PlainPart(s: string)
  {
    s != [] && s[0] != '/' && s[|s| - 1] != '/'
  }

  /** Each part preceded by a slash. */
  function SlashParts(parts: seq<string>): string
  {
    if parts == [] then "" else "/" + parts[0] + SlashParts(parts[1..])
  }

  lemma {:induction false} JoinPathSlashes(first: string, rest: seq<string>)
    requires PlainPart(first)
    requires forall i :: 0 <= i < |rest| ==> PlainPart(rest[i])
    ensures JoinPath(first, rest) == first + SlashParts(rest)
    decreases |rest|
  {
    if rest != [] {
      var next := first + "/" + rest[0];
      assert JoinStep(first, rest[0]) == next;
      JoinPathSlashes(next, rest[1..]);
      assert next + SlashParts(rest[1..]) == first + ("/" + rest[0] + SlashParts(rest[1..]));
    }
  }

  lemma {:induction false} JoinSlashes(first: string, rest: seq<string>)
    ensures Join([first] + rest, '/') == first + SlashParts(rest)
    decreases |rest|
  {
    if rest != [] {
      JoinSlashes(rest[0], rest[1..]);
      assert ([first] + rest)[1..] == [rest[0]] + rest[1..];
    }
  }

  /** Plain parts are joined with single slashes, in order. */
  lemma JoinPathPlain(first: string, rest: seq<string>)
    requires PlainPart(first)
    requires forall i :: 0 <= i < |rest| ==> PlainPart(rest[i])
    ensures JoinPath(first, rest) == Join([first] + rest, '/')
  {
    JoinPathSlashes(first, rest);
    JoinSlashes(first, rest);
  }

  // ---------------------------------------------------------------------
  // Mode selection (the argv checks of `main`)
  // ---------------------------------------------------------------------

  /** Date mode when the first argument parses as a date, otherwise today plus all arguments as the path. */
  function SelectMode(argv: seq<string>, today: Date): (r: Result<Request, ScriptError>)
    requires InRange(today)
    ensures r == Failure(MissingArguments) <==> |argv| < 2
    ensures r == Failure(MissingFilePath) <==> |argv| == 2 && ParseDate(argv[1]).Some?
    ensures r.Success? <==> |argv| >= 3 || (|argv| == 2 && ParseDate(argv[1]).None?)
    ensures r.Success? ==> InRange(r.value.endDate)
    ensures r.Success? && ParseDate(argv[1]).Some? ==>
      FormatDate(r.value.endDate) == argv[1] && r.value.filePath == JoinPath(argv[2], argv[3..])
    ensures r.Success? && ParseDate(argv[1]).None? ==>
      r.value.endDate == today && r.value.filePath == JoinPath(argv[1], argv[2..])
  {
    if |argv| < 2 then Failure(MissingArguments)
    else match ParseDate(argv[1])
      case Some(d) =>
        ParseSound(argv[1], d);
        if |argv| < 3 then Failure(MissingFilePath) else Success(Request(d, JoinPath(argv[2], argv[3..])))
      case None =>
        Success(Request(today, JoinPath(argv[1], argv[2..])))
  }

  // ---------------------------------------------------------------------
  // The eight dates
  // ---------------------------------------------------------------------

  /** `[start_date + timedelta(days=i) for i in range(8)]` with `start_date = end_date - timedelta(days=7)`. */
  function DateList(end: Date): (dates: seq<Date>)
    requires IsCalendarDate(end) && Ordinal(end) > 7
    ensures |dates| == 8
  {
    var start := AddDays(end, -7);
    seq(8, i requires 0 <= i < 8 => AddDays(start, i))
  }

  /**
   * The list starts seven days before the end date, ends at it, and steps
   * one day at a time, across month, year and leap-day boundaries; every
   * date stays a day Python can hold.
   */
  lemma DateListProperties(end: Date)
    requires InRange(end) && Ordinal(end) > 7
    ensures var dates := DateList(end);
      && dates[0] == AddDays(end, -7)
      && dates[7] == end
      && (forall i :: 0 <= i < 8 ==> InRange(dates[i]) && Ordinal(dates[i]) == Ordinal(end) - 7 + i)
      && (forall i :: 0 <= i < 7 ==> dates[i + 1] == NextDay(dates[i]))
  {
    var dates := DateList(end);
    forall i | 0 <= i < 8
      ensures InRange(dates[i]) && Ordinal(dates[i]) == Ordinal(end) - 7 + i
    {
      OrdinalYearMonotone(dates[i], end);
    }
    AddDaysUnique(AddDays(end, -7), 7, end);
    forall i | 0 <= i < 7
      ensures dates[i + 1] == NextDay(dates[i])
    {
      OrdinalInjective(dates[i + 1], NextDay(dates[i]));
    }
  }

  // ---------------------------------------------------------------------
  // The block
  // ---------------------------------------------------------------------

  const OpeningLines: seq<string> := ["```dataview", "TASK"]
  const ClosingLines: seq<string> := ["AND completion != null", "SORT completion ASC", "```"]

  function WhereLine(d: Date): string
    requires Formattable(d)
  {
    "WHERE completion = date(\"" + FormatDate(d) + "\")"
  }

  function OrLine(d: Date): string
    requires Formattable(d)
  {
    "OR completion = date(\"" + FormatDate(d) + "\")"
  }

  predicate AllFormattable(dates: seq<Date>)
  {
    forall i :: 0 <= i < |dates| ==> Formattable(dates[i])
  }

  /** `output_lines` built the way `main` builds it, one `append` at a time. */
  method DataviewLines(dates: seq<Date>) returns (lines: seq<string>)
    requires |dates| >= 1 && AllFormattable(dates)
    ensures |lines| == |dates| + 5
    ensures lines[..2] == OpeningLines
    ensures lines[2] == WhereLine(dates[0])
    ensures forall i :: 1 <= i < |dates| ==> lines[2 + i] == OrLine(dates[i])
    ensures lines[|dates| + 2..] == ClosingLines
  {
    lines := [];
    lines := lines + ["```dataview"];
    lines := lines + ["TASK"];
    var firstDate := FormatDate(dates[0]);
    lines := lines + ["WHERE completion = date(\"" + firstDate + "\")"];
    for k := 1 to |dates|
      invariant |lines| == k + 2
      invariant lines[..2] == OpeningLines && lines[2] == WhereLine(dates[0])
      invariant forall i :: 1 <= i < k ==> lines[2 + i] == OrLine(dates[i])
    {
      var dateStr := FormatDate(dates[k]);
      lines := lines + ["OR completion = date(\"" + dateStr + "\")"];
    }
    lines := lines + ["AND completion != null"];
    lines := lines + ["SORT completion ASC"];
    lines := lines + ["```"];
  }

  /** `"\n".join(output_lines) + "\n"` */
  function BlockText(lines: seq<string>): string
  {
    Join(lines, '\n') + "\n"
  }

  lemma FormatDateHasNoNewline(d: Date)
    requires Formattable(d)
    ensures '\n' !in FormatDate(d)
  {
    var s := FormatDate(d);
    assert AllDigits(s[..4]) && AllDigits(s[5..7]) && AllDigits(s[8..]) by { FormatShape(d); }
    forall i | 0 <= i < |s|
      ensures s[i] != '\n'
    {
      if i < 4 {
        assert s[i] == s[..4][i];
      } else if 4 < i < 7 {
        assert s[i] == s[5..7][i - 5];
      } else if 7 < i {
        assert s[i] == s[8..][i - 8];
      }
    }
  }

  /**
   * The appended text ends with a newline, holds one newline per line, and
   * splits back into exactly the lines that were built, followed by the
   * empty piece after the final newline.
   */
  lemma BlockTextLines(dates: seq<Date>, lines: seq<string>)
    requires |dates| >= 1 && AllFormattable(dates)
    requires |lines| == |dates| + 5
    requires lines[..2] == OpeningLines && lines[2] == WhereLine(dates[0])
    requires forall i :: 1 <= i < |dates| ==> lines[2 + i] == OrLine(dates[i])
    requires lines[|dates| + 2..] == ClosingLines
    ensures var text := BlockText(lines);
      && text[|text| - 1] == '\n'
      && Count(text, '\n') == |lines|
      && Split(text, '\n') == lines + [""]
  {
    forall i | 0 <= i < |lines|
      ensures '\n' !in lines[i]
    {
      if i < 2 {
        assert lines[i] == OpeningLines[i];
      } else if i == 2 {
        FormatDateHasNoNewline(dates[0]);
      } else if i < |dates| + 2 {
        FormatDateHasNoNewline(dates[i - 2]);
      } else {
        assert lines[i] == ClosingLines[i - |dates| - 2];
      }
    }
    var text := BlockText(lines);
    CountJoin(lines, '\n');
    CountAppend(Join(lines, '\n'), "\n", '\n');
    SplitJoin(lines + [""], '\n');
    JoinSnocEmpty(lines, '\n');
  }

  /** Joining with one more empty element appends one separator. */
  lemma {:induction false} JoinSnocEmpty(xs: seq<string>, sep: char)
    requires xs != []
    ensures Join(xs + [""], sep) == Join(xs, sep) + [sep]
  {
    if |xs| == 1 {
      assert xs + [""] == [xs[0], ""];
    } else {
      assert (xs + [""])[1..] == xs[1..] + [""];
      JoinSnocEmpty(xs[1..], sep);
    }
  }

  // ---------------------------------------------------------------------
  // main
  // ---------------------------------------------------------------------

  /**
   * `main` with the clock reading passed in and the file append returned:
   * the argument errors, the date-range error of the subtraction, or the
   * target path with the block text for the eight days ending at the end date.
   */
  method AppendDataviewBlock(argv: seq<string>, today: Date) returns (outcome: Result<Append, ScriptError>)
    requires InRange(today)
    ensures SelectMode(argv, today).Failure? ==> outcome == Failure(SelectMode(argv, today).error)
    ensures SelectMode(argv, today).Success? ==>
      var request := SelectMode(argv, today).value;
      if Ordinal(request.endDate) <= 7 then outcome == Failure(DateOutOfRange)
      else
        && outcome.Success?
        && outcome.value.filePath == request.filePath
        && (exists lines :: BlockOf(DateList(request.endDate), lines) && outcome.value.text == BlockText(lines))
        && Count(outcome.value.text, '\n') == 13
        && outcome.value.text[|outcome.value.text| - 1] == '\n'
  {
    var mode := SelectMode(argv, today);
    if mode.Failure? {
      return Failure(mode.error);
    }
    var request := mode.value;
    if Ordinal(request.endDate) <= 7 {
      return Failure(DateOutOfRange);
    }
    var dateList := DateList(request.endDate);
    DateListProperties(request.endDate);
    var outputLines := DataviewLines(dateList);
    BlockTextLines(dateList, outputLines);
    outcome := Success(Append(request.filePath, BlockText(outputLines)));
  }

  /** `lines` is the thirteen-line block for `dates`: opening, WHERE, one OR per later date, closing. */
  predicate BlockOf(dates: seq<Date>, lines: seq<string>)
  {
    && |dates| >= 1 && AllFormattable(dates)
    && |lines| == |dates| + 5
    && lines[..2] == OpeningLines && lines[2] == WhereLine(dates[0])
    && (forall i :: 1 <= i < |dates| ==> lines[2 + i] == OrLine(dates[i]))
    && lines[|dates| + 2..] == ClosingLines
  }
}
