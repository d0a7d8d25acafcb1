/** TestCompleteInputMetric: the conversion of one MHT archive into a JUnit
    report. The archive's entries are filtered into a directory of extracted
    files; `_root.js` must be among them; the test filter pattern is checked;
    the JSON payload is cut out of `_root.js`; and the report is written line
    by line from the suite summary and its records. */
module Converter {
  import opened Wrappers
  import opened JavaLang
  import opened Json
  import opened MyUtils
  import opened ProviderDocuments
  import opened Markup
  import LogItem

  // ---------------------------------------------------------------- extraction

  /** One entry of the MHT archive, as the archive reader hands it out. */
  datatype Entry = Entry(name: string, contentType: string, content: string)

  const CONTENT_TYPE_OCTETSTREAM: string := "application/octet-stream"
  const CONTENT_TYPE_PLAIN: string := "text/plain"
  const CONTENT_TYPE_JAVASCRIPT: string := "application/javascript"
  const ROOT_FILE: string := "_root.js"

  /** The entries extractFilesFromMHTFile copies out: text, script or binary
      content whose name starts with "_" or contains "test". */
  predicate IsSelected(e: Entry)
  {
    && (e.contentType == CONTENT_TYPE_PLAIN || e.contentType == CONTENT_TYPE_JAVASCRIPT ||
        e.contentType == CONTENT_TYPE_OCTETSTREAM)
    && (StartsWith(e.name, "_") || Contains(e.name, "test"))
  }

  /** The directory after the first n entries: each selected entry is written
      under its own name, replacing a file of that name. */
  function Extracted(entries: seq<Entry>, n: nat): Directory
    requires n <= |entries|
  {
    if n == 0 then map[]
    else
      var dir := Extracted(entries, n - 1);
      if IsSelected(entries[n - 1]) then dir[entries[n - 1].name := entries[n - 1].content] else dir
  }

  /** The last selected entry named `name` among the first n, or -1. */
  function LastSelected(entries: seq<Entry>, name: string, n: nat): (r: int)
    requires n <= |entries|
    ensures -1 <= r < n
    ensures r >= 0 ==> IsSelected(entries[r]) && entries[r].name == name
    ensures forall k :: r < k < n ==> !(IsSelected(entries[k]) && entries[k].name == name)
  {
    if n == 0 then -1
    else if IsSelected(entries[n - 1]) && entries[n - 1].name == name then n - 1
    else LastSelected(entries, name, n - 1)
  }

  /** The extraction loop: one file per selected entry, in archive order. */
  method ExtractFiles(entries: seq<Entry>) returns (dir: Directory)
    ensures dir == Extracted(entries, |entries|)
  {
    dir := map[];
    var i := 0;
    while i < |entries|
      invariant 0 <= i <= |entries|
      invariant dir == Extracted(entries, i)
    {
      var entry := entries[i];
      if IsSelected(entry) {
        dir := dir[entry.name := entry.content];
      }
      i := i + 1;
    }
  }

  // ---------------------------------------------------------------- filter pattern

  /** setTestFilterPattern: the pattern trimmed, "" for null. */
  function FilterPattern(pattern: Option<string>): (r: string)
    ensures pattern.None? ==> r == ""
    ensures pattern.Some? ==> r == Trim(pattern.value) && exists i :: TrimmedAt(pattern.value, r, i)
    ensures r == [] || (!IsTrimmed(r[0]) && !IsTrimmed(r[|r| - 1]))
    ensures Trim(r) == r
  {
    match pattern
    case None => ""
    case Some(p) => Trim(p)
  }

  function PatternMessage(pattern: string): string
  {
    "Invalid test filter pattern provided '" + pattern + "'. Start (^) and end ($) line pattern symbols are not allowed."
  }

  /** The anchor check of convert: a non-empty pattern may neither start
      with "^" nor end with "$". */
  function CheckFilterPattern(pattern: string): (r: Outcome<Exception>)
    ensures r.Fail? <==> pattern != [] && (pattern[0] == '^' || pattern[|pattern| - 1] == '$')
    ensures r.Fail? ==> r.error == ConversionException(PatternMessage(pattern))
  {
    if |pattern| > 0 && (StartsWith(pattern, "^") || EndsWith(pattern, "$")) then
      Fail(ConversionException(PatternMessage(pattern)))
    else Pass
  }

  // ---------------------------------------------------------------- the payload

  /** The JSON text of `_root.js`: what lies strictly between the first '('
      and the first ')', after its first ','. Without a '(' the text is taken
      from the start; a ')' that is missing or comes before the first '('
      makes String.substring throw. */
  function RootPayload(content: string): (r: Result<string, Exception>)
    ensures r.Success? <==> ')' in content && IndexOf(content, '(') < IndexOf(content, ')')
    ensures r.Failure? ==> r.error == StringIndexOutOfBoundsException
    ensures r.Success? ==> AfterFirstCommaOf(content[IndexOf(content, '(') + 1..IndexOf(content, ')')], r.value)
  {
    var inner :- Substring(content, IndexOf(content, '(') + 1, IndexOf(content, ')'));
    Success(AfterComma(inner))
  }

  /** The payload stops short of the first ')', so it holds none. */
  lemma RootPayloadHasNoCloser(content: string)
    ensures RootPayload(content).Success? ==> ')' !in RootPayload(content).value
  {
    if RootPayload(content).Success? {
      var start, end := IndexOf(content, '('), IndexOf(content, ')');
      BeforeFirstCloser(content, start + 1, end);
      SuffixLacks(content[start + 1..end], RootPayload(content).value, ')');
    }
  }

  /** No slice that ends at the first ')' holds one. */
  lemma BeforeFirstCloser(content: string, lo: int, end: int)
    requires end == IndexOf(content, ')') && 0 <= lo <= end
    ensures ')' !in content[lo..end]
  {
    forall k | lo <= k < end
      ensures content[k] != ')'
    {
      assert content[k] == content[..end][k];
    }
  }

  /** A character absent from s is absent from every suffix of s. */
  lemma SuffixLacks(s: string, t: string, c: char)
    requires EndsWith(s, t) && c !in s
    ensures c !in t
  {
    forall k | 0 <= k < |t|
      ensures t[k] != c
    {
      assert t[k] == s[|s| - |t| + k];
    }
  }

  // ---------------------------------------------------------------- the report

  /** The suite summary convertJson reads from the log tree. */
  datatype Suite = Suite(name: string, testCount: int, failures: int, timeStamp: string, duration: int, empty: bool)

  /** One record of the suite, with the state reported for it. */
  datatype ReportItem = ReportItem(record: LogItem.LogItem, state: int)

  /** A failed test: state 2 and type "Error". */
  predicate IsFailed(item: ReportItem)
  {
    item.state == 2 && item.record.itemType == "Error"
  }

  /** A skipped test: not failed, and a state outside 0..2. */
  predicate IsSkipped(item: ReportItem)
  {
    !IsFailed(item) && (item.state < 0 || item.state > 2)
  }

  /** The opening tag of one testcase: class, name and run time. */
  function CaseOpen(suiteName: string, item: ReportItem, cal: Calendar): seq<string>
  {
    ["<testcase",
     " classname=\"" + Escaped(suiteName) + "." + Escaped(item.record.name) + "\"",
     " name=\"" + Escaped(item.record.caption) + "\"",
     " time=\"" + ConvertMillis2DateTime(cal, Div(LogItem.TestRunTimeInMilliSec(item.record), 1000)) + "\"",
     ">\n"]
  }

  /** What a testcase holds: a failure with the record's message and info,
      a skipped marker, or nothing. */
  function CaseOutcome(item: ReportItem): seq<string>
  {
    if IsFailed(item) then
      ["<failure message=\"" + Escaped(item.record.message) + "\"></failure>\n", "<system-out><![CDATA[\n"]
      + (if item.record.info != "" then ["Additional Info:\n", Escaped(item.record.info)] else [])
      + ["\n]]></system-out>\n"]
    else if item.state < 0 || item.state > 2 then ["<skipped/>\n"]
    else []
  }

  /** The `fw.write` calls for one record. */
  function CaseLines(suiteName: string, item: ReportItem, cal: Calendar): seq<string>
  {
    CaseOpen(suiteName, item, cal) + CaseOutcome(item) + ["</testcase>\n"]
  }

  /** The writes for the records, in order. */
  function CasesLines(suiteName: string, items: seq<ReportItem>, cal: Calendar): seq<string>
  {
    if items == [] then []
    else CasesLines(suiteName, items[..|items| - 1], cal) + CaseLines(suiteName, items[|items| - 1], cal)
  }

  lemma CasesLinesStep(suiteName: string, items: seq<ReportItem>, i: nat, cal: Calendar)
    requires i < |items|
    ensures CasesLines(suiteName, items[..i + 1], cal) == CasesLines(suiteName, items[..i], cal) + CaseLines(suiteName, items[i], cal)
  {
    assert items[..i + 1][..i] == items[..i];
  }

  /** The opening tag of the suite, one write per attribute. */
  function SuiteHeader(suite: Suite, cal: Calendar): seq<string>
  {
    ["<testsuite",
     " name=\"" + Escaped(suite.name) + "\"",
     " tests=\"" + DecimalString(suite.testCount) + "\"",
     " failures=\"" + DecimalString(suite.failures) + "\"",
     " skipped=\"0\"",
     " timestamp=\"" + suite.timeStamp + "\"",
     " time=\"" + ConvertMillis2DateTime(cal, Div(suite.duration, 1000)) + "\"",
     ">\n"]
  }

  /** Everything convertJson writes once the root object has a name. */
  function ReportLines(rootName: string, suite: Suite, items: seq<ReportItem>, cal: Calendar): seq<string>
  {
    ["<testsuites name=\"" + rootName + "\">\n"]
    + (if suite.empty then [] else SuiteHeader(suite, cal) + CasesLines(suite.name, items, cal) + ["</testsuite>\n"])
    + ["</testsuites>\n"]
  }

  /** How a conversion ends, and the output file it leaves: None when the
      file is never opened. */
  datatype Report = Report(outcome: Outcome<Exception>, file: Option<seq<string>>)

  /** convertJson as a value. */
  function JsonReport(content: string, parse: Parser, suite: Suite, items: seq<ReportItem>, cal: Calendar): Report
  {
    match RootPayload(content)
    case Failure(e) => Report(Fail(e), None)
    case Success(raw) =>
      if Trim(raw) == [] then Report(Pass, None)
      else
        match ParseObject(parse, raw)
        case Failure(e) => Report(Fail(e), None)
        case Success(json) =>
          match GetString(json, "name")
          case Failure(e) => Report(Fail(e), Some([]))
          case Success(name) => Report(Pass, Some(ReportLines(name, suite, items, cal)))
  }

  function NoRootMessage(inputName: string): string
  {
    "Invalid TestComplete MHT file '" + inputName + "'. No '_root.js' found."
  }

  /** convert as a value, for an input file called inputName. */
  function Conversion(inputName: string, entries: seq<Entry>, pattern: string, parse: Parser,
                      suite: Suite, items: seq<ReportItem>, cal: Calendar): Report
  {
    var dir := Extracted(entries, |entries|);
    if ROOT_FILE !in dir then Report(Fail(ConversionException(NoRootMessage(inputName))), None)
    else if CheckFilterPattern(pattern).Fail? then Report(CheckFilterPattern(pattern), None)
    else JsonReport(dir[ROOT_FILE], parse, suite, items, cal)
  }

  // ---------------------------------------------------------------- the writer

  /** The output file: whether it has been opened, and the strings written to
      it, one per write. */
  class OutputFile {
    var created: bool
    var written: seq<string>

    constructor ()
      ensures !created && written == []
    {
      created, written := false, [];
    }

    /** `new FileWriter(outFile)`: the file is created, or emptied. */
    method Open()
      modifies this
      ensures created && written == []
    {
      created, written := true, [];
    }

    /** `fw.write(text)`. */
    method Write(text: string)
      modifies this
      ensures created == old(created) && written == old(written) + [text]
    {
      written := written + [text];
    }
  }

  /** A run of `fw.write` calls, one per string, in order. */
  method WriteLines(out: OutputFile, lines: seq<string>)
    modifies out
    ensures out.created == old(out.created) && out.written == old(out.written) + lines
  {
    var i := 0;
    while i < |lines|
      invariant 0 <= i <= |lines|
      invariant out.created == old(out.created) && out.written == old(out.written) + lines[..i]
    {
      assert lines[..i + 1] == lines[..i] + [lines[i]];
      out.Write(lines[i]);
      i := i + 1;
    }
    assert lines[..i] == lines;
  }

  /** The writes for one record: its attributes, then the failure block or
      the skipped marker, then the closing tag. */
  method WriteCase(out: OutputFile, suiteName: string, item: ReportItem, cal: Calendar)
    modifies out
    ensures out.created == old(out.created) && out.written == old(out.written) + CaseLines(suiteName, item, cal)
  {
    var suite, name, caption := HtmlEscape(suiteName), HtmlEscape(item.record.name), HtmlEscape(item.record.caption);
    var time := ConvertMillis2DateTime(cal, Div(LogItem.TestRunTimeInMilliSec(item.record), 1000));
    var open := ["<testcase",
                 " classname=\"" + suite + "." + name + "\"",
                 " name=\"" + caption + "\"",
                 " time=\"" + time + "\"",
                 ">\n"];
    assert open == CaseOpen(suiteName, item, cal);
    var body: seq<string> := [];
    if item.state == 2 && item.record.itemType == "Error" {
      var message := HtmlEscape(item.record.message);
      body := ["<failure message=\"" + message + "\"></failure>\n", "<system-out><![CDATA[\n"];
      if item.record.info != "" {
        var info := HtmlEscape(item.record.info);
        body := body + ["Additional Info:\n", info];
      }
      body := body + ["\n]]></system-out>\n"];
    } else if item.state < 0 || item.state > 2 {
      body := ["<skipped/>\n"];
    }
    assert body == CaseOutcome(item);
    WriteLines(out, open + body + ["</testcase>\n"]);
  }

  /** One testcase per record, in order. */
  method WriteCases(out: OutputFile, suiteName: string, items: seq<ReportItem>, cal: Calendar)
    modifies out
    ensures out.created == old(out.created) && out.written == old(out.written) + CasesLines(suiteName, items, cal)
  {
    var i := 0;
    while i < |items|
      invariant 0 <= i <= |items|
      invariant out.created == old(out.created)
      invariant out.written == old(out.written) + CasesLines(suiteName, items[..i], cal)
    {
      ghost var done, next := CasesLines(suiteName, items[..i], cal), CaseLines(suiteName, items[i], cal);
      WriteCase(out, suiteName, items[i], cal);
      assert out.written == old(out.written) + CasesLines(suiteName, items[..i + 1], cal) by {
        CasesLinesStep(suiteName, items, i, cal);
        AppendAssoc(old(out.written), done, next);
      }
      i := i + 1;
    }
    assert items[..i] == items;
  }

  /** The opening tag of the suite, one write per attribute. */
  method WriteSuiteHeader(out: OutputFile, suite: Suite, cal: Calendar)
    modifies out
    ensures out.created == old(out.created) && out.written == old(out.written) + SuiteHeader(suite, cal)
  {
    var name := HtmlEscape(suite.name);
    var tests, failures := DecimalString(suite.testCount), DecimalString(suite.failures);
    var time := ConvertMillis2DateTime(cal, Div(suite.duration, 1000));
    WriteLines(out, ["<testsuite",
                     " name=\"" + name + "\"",
                     " tests=\"" + tests + "\"",
                     " failures=\"" + failures + "\"",
                     " skipped=\"0\"",
                     " timestamp=\"" + suite.timeStamp + "\"",
                     " time=\"" + time + "\"",
                     ">\n"]);
  }

  lemma AppendAssoc(a: seq<string>, b: seq<string>, c: seq<string>)
    ensures (a + b) + c == a + (b + c)
  {
  }

  /** The suite element: its attributes, then one testcase per record. */
  method WriteSuite(out: OutputFile, suite: Suite, items: seq<ReportItem>, cal: Calendar)
    modifies out
    ensures out.created == old(out.created)
    ensures out.written == old(out.written) + (SuiteHeader(suite, cal) + CasesLines(suite.name, items, cal) + ["</testsuite>\n"])
  {
    ghost var header, cases := SuiteHeader(suite, cal), CasesLines(suite.name, items, cal);
    WriteSuiteHeader(out, suite, cal);
    WriteCases(out, suite.name, items, cal);
    out.Write("</testsuite>\n");
    AppendAssoc(old(out.written), header, cases);
    AppendAssoc(old(out.written), header + cases, ["</testsuite>\n"]);
  }

  /** convertJson: the payload of `_root.js` parsed, and the report written. */
  method ConvertJson(content: string, parse: Parser, suite: Suite, items: seq<ReportItem>, cal: Calendar, out: OutputFile)
    returns (r: Outcome<Exception>)
    modifies out
    ensures r == JsonReport(content, parse, suite, items, cal).outcome
    ensures JsonReport(content, parse, suite, items, cal).file.None? ==>
              out.created == old(out.created) && out.written == old(out.written)
    ensures JsonReport(content, parse, suite, items, cal).file.Some? ==>
              out.created && out.written == JsonReport(content, parse, suite, items, cal).file.value
  {
    var raw := RootPayload(content);
    if raw.Failure? {
      return Fail(raw.error);
    }
    if Trim(raw.value) == [] {
      return Pass;
    }
    var json := ParseObject(parse, raw.value);
    if json.Failure? {
      return Fail(json.error);
    }
    out.Open();
    var name := GetString(json.value, "name");
    if name.Failure? {
      return Fail(name.error);
    }
    WriteReport(out, name.value, suite, items, cal);
    return Pass;
  }

  /** The report proper: the root element named after the log, holding the
      suite unless the log is empty. */
  method WriteReport(out: OutputFile, rootName: string, suite: Suite, items: seq<ReportItem>, cal: Calendar)
    modifies out
    ensures out.created == old(out.created) && out.written == old(out.written) + ReportLines(rootName, suite, items, cal)
  {
    ghost var open := ["<testsuites name=\"" + rootName + "\">\n"];
    ghost var suiteLines := if suite.empty then [] else SuiteHeader(suite, cal) + CasesLines(suite.name, items, cal) + ["</testsuite>\n"];
    out.Write("<testsuites name=\"" + rootName + "\">\n");
    if !suite.empty {
      WriteSuite(out, suite, items, cal);
    } else {
      assert out.written == old(out.written) + open + suiteLines;
    }
    out.Write("</testsuites>\n");
    AppendAssoc(old(out.written), open, suiteLines);
    AppendAssoc(old(out.written), open + suiteLines, ["</testsuites>\n"]);
  }

  /** The converter, holding the test filter pattern it was configured with. */
  class InputMetric {
    var testFilterPattern: string

    constructor ()
      ensures testFilterPattern == ""
    {
      testFilterPattern := "";
    }

    /** setTestFilterPattern. */
    method SetTestFilterPattern(pattern: Option<string>)
      modifies this
      ensures testFilterPattern == FilterPattern(pattern)
    {
      if pattern.Some? {
        testFilterPattern := Trim(pattern.value);
      } else {
        testFilterPattern := "";
      }
    }

    /** convert: extract, find `_root.js`, check the pattern, write the
        report. */
    method Convert(inputName: string, entries: seq<Entry>, parse: Parser, suite: Suite, items: seq<ReportItem>,
                   cal: Calendar, out: OutputFile) returns (r: Outcome<Exception>)
      modifies out
      ensures r == Conversion(inputName, entries, testFilterPattern, parse, suite, items, cal).outcome
      ensures Conversion(inputName, entries, testFilterPattern, parse, suite, items, cal).file.None? ==>
                out.created == old(out.created) && out.written == old(out.written)
      ensures Conversion(inputName, entries, testFilterPattern, parse, suite, items, cal).file.Some? ==>
                out.created && out.written == Conversion(inputName, entries, testFilterPattern, parse, suite, items, cal).file.value
    {
      var dir := ExtractFiles(entries);
      if ROOT_FILE !in dir {
        return Fail(ConversionException(NoRootMessage(inputName)));
      }
      if |testFilterPattern| > 0 {
        if StartsWith(testFilterPattern, "^") || EndsWith(testFilterPattern, "$") {
          return Fail(ConversionException(PatternMessage(testFilterPattern)));
        }
      }
      r := ConvertJson(dir[ROOT_FILE], parse, suite, items, cal, out);
    }
  }

  // ---------------------------------------------------------------- extraction properties

  /** A file is extracted under a name exactly when some selected entry has
      that name, and it holds the content of the last such entry. */
  lemma {:induction false} LastSelectedEntryWins(entries: seq<Entry>, name: string, n: nat)
    requires n <= |entries|
    ensures name in Extracted(entries, n) <==> LastSelected(entries, name, n) >= 0
    ensures LastSelected(entries, name, n) >= 0 ==>
              Extracted(entries, n)[name] == entries[LastSelected(entries, name, n)].content
  {
    if n > 0 {
      LastSelectedEntryWins(entries, name, n - 1);
    }
  }

  /** An archive without a selected `_root.js` entry is rejected with the
      message naming the input file, and no report is opened. */
  lemma NoRootFileFails(inputName: string, entries: seq<Entry>, pattern: string, parse: Parser,
                        suite: Suite, items: seq<ReportItem>, cal: Calendar)
    requires forall k :: 0 <= k < |entries| ==> !(IsSelected(entries[k]) && entries[k].name == ROOT_FILE)
    ensures Conversion(inputName, entries, pattern, parse, suite, items, cal) ==
              Report(Fail(ConversionException(NoRootMessage(inputName))), None)
  {
    LastSelectedEntryWins(entries, ROOT_FILE, |entries|);
  }

  /** With an accepted pattern, the report is made from the content of the
      last selected `_root.js` entry. */
  lemma LastRootFileIsConverted(inputName: string, entries: seq<Entry>, pattern: string, parse: Parser,
                                suite: Suite, items: seq<ReportItem>, cal: Calendar, k: nat)
    requires k < |entries| && IsSelected(entries[k]) && entries[k].name == ROOT_FILE
    requires forall j :: k < j < |entries| ==> !(IsSelected(entries[j]) && entries[j].name == ROOT_FILE)
    requires CheckFilterPattern(pattern).Pass?
    ensures Conversion(inputName, entries, pattern, parse, suite, items, cal) ==
              JsonReport(entries[k].content, parse, suite, items, cal)
  {
    var dir := Extracted(entries, |entries|);
    LastSelectedEntryWins(entries, ROOT_FILE, |entries|);
    assert LastSelected(entries, ROOT_FILE, |entries|) == k;
    assert ROOT_FILE in dir && dir[ROOT_FILE] == entries[k].content;
  }

  /** The pattern is only checked, never applied: any two accepted patterns
      give the same report. */
  lemma FilterPatternDoesNotMatter(inputName: string, entries: seq<Entry>, p: string, q: string, parse: Parser,
                                   suite: Suite, items: seq<ReportItem>, cal: Calendar)
    requires CheckFilterPattern(p).Pass? && CheckFilterPattern(q).Pass?
    ensures Conversion(inputName, entries, p, parse, suite, items, cal) ==
              Conversion(inputName, entries, q, parse, suite, items, cal)
  {
  }

  /** A pattern anchored at either end fails the conversion of an archive
      that has a `_root.js`, before anything is written. */
  lemma AnchoredPatternFails(inputName: string, entries: seq<Entry>, pattern: string, parse: Parser,
                             suite: Suite, items: seq<ReportItem>, cal: Calendar, k: nat)
    requires k < |entries| && IsSelected(entries[k]) && entries[k].name == ROOT_FILE
    requires pattern != [] && (pattern[0] == '^' || pattern[|pattern| - 1] == '$')
    ensures Conversion(inputName, entries, pattern, parse, suite, items, cal) ==
              Report(Fail(ConversionException(PatternMessage(pattern))), None)
  {
    LastSelectedEntryWins(entries, ROOT_FILE, |entries|);
  }

  // ---------------------------------------------------------------- payload properties

  /** The JSONP shape `_root.js` is written in: a callee, then in parentheses
      an identifier, a comma and the JSON text; the text is recovered exactly,
      whatever follows the closing parenthesis. */
  lemma RootPayloadRoundTrip(callee: string, id: string, body: string, rest: string)
    requires '(' !in callee && ')' !in callee
    requires ')' !in id && ',' !in id
    requires ')' !in body
    ensures RootPayload(Wrapped(callee, id, body) + rest) == Success(body)
  {
    var inner := id + "," + body;
    var content := Wrapped(callee, id, body) + rest;
    assert content == callee + "(" + inner + ")" + rest;
    ParenthesesAt(content, callee, inner, rest);
    RootPayloadFromInner(content, inner);
    CommaSplit(id, body);
  }

  /** Without a comma, the whole text between the parentheses is taken. */
  lemma RootPayloadWithoutIdentifier(callee: string, body: string, rest: string)
    requires '(' !in callee && ')' !in callee
    requires ')' !in body && ',' !in body
    ensures RootPayload(callee + "(" + body + ")" + rest) == Success(body)
  {
    var content := callee + "(" + body + ")" + rest;
    ParenthesesAt(content, callee, body, rest);
    RootPayloadFromInner(content, body);
    assert body[IndexOf(body, ',') + 1..] == body;
  }

  /** Without any '(' the text is read from its start, as substring(0, end)
      does: an identifier and a comma, then the JSON text up to the first ')'. */
  lemma RootPayloadWithoutOpener(id: string, body: string, rest: string)
    requires '(' !in id && '(' !in body && '(' !in rest
    requires ')' !in id && ',' !in id && ')' !in body
    ensures RootPayload(id + "," + body + ")" + rest) == Success(body)
  {
    var inner := id + "," + body;
    var content := id + "," + body + ")" + rest;
    assert content == inner + ")" + rest;
    NoOpenerBefore(content, inner, rest);
    RootPayloadFromInner(content, inner);
    CommaSplit(id, body);
  }

  /** Once the slice between the parentheses is known, the payload is what
      follows its first comma. */
  lemma RootPayloadFromInner(content: string, inner: string)
    requires Substring(content, IndexOf(content, '(') + 1, IndexOf(content, ')')) == Success(inner)
    ensures RootPayload(content) == Success(AfterComma(inner))
  {
  }

  /** In callee + "(" + inner + ")" + rest, the first '(' and the first ')'
      enclose inner. */
  lemma ParenthesesAt(content: string, callee: string, inner: string, rest: string)
    requires content == callee + "(" + inner + ")" + rest
    requires '(' !in callee && ')' !in callee && ')' !in inner
    ensures Substring(content, IndexOf(content, '(') + 1, IndexOf(content, ')')) == Success(inner)
  {
    var close := |callee| + 1 + |inner|;
    assert content[..|callee|] == callee;
    IndexOfFirst(content, '(', |callee|);
    assert content[..close] == callee + "(" + inner;
    IndexOfFirst(content, ')', close);
    assert content[|callee| + 1..close] == inner;
  }

  /** In inner + ")" + rest with no '(' anywhere, the text before the first
      ')' is inner. */
  lemma NoOpenerBefore(content: string, inner: string, rest: string)
    requires content == inner + ")" + rest
    requires '(' !in inner && '(' !in rest && ')' !in inner
    ensures Substring(content, IndexOf(content, '(') + 1, IndexOf(content, ')')) == Success(inner)
  {
    assert '(' !in content;
    assert content[..|inner|] == inner;
    IndexOfFirst(content, ')', |inner|);
  }

  /** A blank payload is the empty log: the conversion succeeds and no
      report file is created. */
  lemma BlankPayloadWritesNothing(content: string, parse: Parser, suite: Suite, items: seq<ReportItem>, cal: Calendar)
    requires RootPayload(content).Success?
    requires forall k :: 0 <= k < |RootPayload(content).value| ==> IsTrimmed(RootPayload(content).value[k])
    ensures JsonReport(content, parse, suite, items, cal) == Report(Pass, None)
  {
  }

  // ---------------------------------------------------------------- report properties

  /** The number of written strings that begin with `prefix`. */
  function CountStarting(lines: seq<string>, prefix: string): (r: nat)
    ensures r <= |lines|
  {
    if lines == [] then 0
    else (if StartsWith(lines[0], prefix) then 1 else 0) + CountStarting(lines[1..], prefix)
  }

  lemma {:induction false} CountStartingAppend(a: seq<string>, b: seq<string>, prefix: string)
    ensures CountStarting(a + b, prefix) == CountStarting(a, prefix) + CountStarting(b, prefix)
  {
    if a == [] {
      assert a + b == b;
    } else {
      assert (a + b)[1..] == a[1..] + b;
      CountStartingAppend(a[1..], b, prefix);
    }
  }

  /** The number of failed records. */
  function FailedCount(items: seq<ReportItem>): (r: nat)
    ensures r <= |items|
  {
    if items == [] then 0
    else FailedCount(items[..|items| - 1]) + (if IsFailed(items[|items| - 1]) then 1 else 0)
  }

  /** The number of skipped records. */
  function SkippedCount(items: seq<ReportItem>): (r: nat)
    ensures r <= |items|
  {
    if items == [] then 0
    else SkippedCount(items[..|items| - 1]) + (if IsSkipped(items[|items| - 1]) then 1 else 0)
  }

  const TESTCASE: string := "<testcase"
  const FAILURE: string := "<failure"
  const SKIPPED: string := "<skipped"

  /** A written string that opens none of the three counted elements. */
  predicate OpensNone(s: string)
  {
    !StartsWith(s, TESTCASE) && !StartsWith(s, FAILURE) && !StartsWith(s, SKIPPED)
  }

  /** A string opens none of the elements when it differs from each name at
      some position. */
  lemma OpensNoneAt(s: string, i: nat, j: nat, l: nat)
    requires i < |TESTCASE| && (i < |s| ==> s[i] != TESTCASE[i])
    requires j < |FAILURE| && (j < |s| ==> s[j] != FAILURE[j])
    requires l < |SKIPPED| && (l < |s| ==> s[l] != SKIPPED[l])
    ensures OpensNone(s)
  {
  }

  lemma DiffersAt(s: string, prefix: string, i: nat)
    requires i < |prefix| && (i < |s| ==> s[i] != prefix[i])
    ensures !StartsWith(s, prefix)
  {
  }

  lemma {:induction false} CountStartingNone(lines: seq<string>)
    requires forall k :: 0 <= k < |lines| ==> OpensNone(lines[k])
    ensures CountStarting(lines, TESTCASE) == 0 && CountStarting(lines, FAILURE) == 0 && CountStarting(lines, SKIPPED) == 0
  {
    if lines != [] {
      CountStartingNone(lines[1..]);
    }
  }

  lemma CountStartingCons(x: string, rest: seq<string>, prefix: string)
    ensures CountStarting([x] + rest, prefix) == (if StartsWith(x, prefix) then 1 else 0) + CountStarting(rest, prefix)
  {
    assert ([x] + rest)[1..] == rest;
  }

  /** The three counts of a concatenation add up. */
  lemma CountsAppend(a: seq<string>, b: seq<string>)
    ensures CountStarting(a + b, TESTCASE) == CountStarting(a, TESTCASE) + CountStarting(b, TESTCASE)
    ensures CountStarting(a + b, FAILURE) == CountStarting(a, FAILURE) + CountStarting(b, FAILURE)
    ensures CountStarting(a + b, SKIPPED) == CountStarting(a, SKIPPED) + CountStarting(b, SKIPPED)
  {
    CountStartingAppend(a, b, TESTCASE);
    CountStartingAppend(a, b, FAILURE);
    CountStartingAppend(a, b, SKIPPED);
  }

  /** The attribute lines of a testcase start with a space or close the tag. */
  lemma CaseOpenShape(suiteName: string, item: ReportItem, cal: Calendar)
    ensures CaseOpen(suiteName, item, cal) == [TESTCASE] + CaseOpen(suiteName, item, cal)[1..]
    ensures forall k :: 1 <= k < |CaseOpen(suiteName, item, cal)| ==>
              CaseOpen(suiteName, item, cal)[k] != [] && CaseOpen(suiteName, item, cal)[k][0] in {' ', '>'}
  {
  }

  lemma CaseOpenCounts(suiteName: string, item: ReportItem, cal: Calendar)
    ensures CountStarting(CaseOpen(suiteName, item, cal), TESTCASE) == 1
    ensures CountStarting(CaseOpen(suiteName, item, cal), FAILURE) == 0
    ensures CountStarting(CaseOpen(suiteName, item, cal), SKIPPED) == 0
  {
    var lines := CaseOpen(suiteName, item, cal);
    CaseOpenShape(suiteName, item, cal);
    var rest := lines[1..];
    forall k | 0 <= k < |rest|
      ensures OpensNone(rest[k])
    {
      OpensNoneAt(rest[k], 0, 0, 0);
    }
    CountStartingNone(rest);
    CountStartingCons(TESTCASE, rest, TESTCASE);
    DiffersAt(TESTCASE, FAILURE, 1);
    DiffersAt(TESTCASE, SKIPPED, 1);
    CountStartingCons(TESTCASE, rest, FAILURE);
    CountStartingCons(TESTCASE, rest, SKIPPED);
  }

  /** The lines of a failure block after its first one. */
  function FailureTail(item: ReportItem): seq<string>
  {
    ["<system-out><![CDATA[\n"]
    + (if item.record.info != "" then ["Additional Info:\n", Escaped(item.record.info)] else [])
    + ["\n]]></system-out>\n"]
  }

  lemma FailureTailOpensNone(item: ReportItem)
    ensures forall k :: 0 <= k < |FailureTail(item)| ==> OpensNone(FailureTail(item)[k])
  {
    var lines := FailureTail(item);
    EscapedSafe(item.record.info);
    forall k | 0 <= k < |lines|
      ensures OpensNone(lines[k])
    {
      if k == 0 {
        OpensNoneAt(lines[k], 1, 1, 2);
      } else {
        OpensNoneAt(lines[k], 0, 0, 0);
      }
    }
  }

  lemma CaseOutcomeCounts(item: ReportItem)
    ensures CountStarting(CaseOutcome(item), TESTCASE) == 0
    ensures CountStarting(CaseOutcome(item), FAILURE) == (if IsFailed(item) then 1 else 0)
    ensures CountStarting(CaseOutcome(item), SKIPPED) == (if IsSkipped(item) then 1 else 0)
  {
    if IsFailed(item) {
      var first := "<failure message=\"" + Escaped(item.record.message) + "\"></failure>\n";
      assert CaseOutcome(item) == [first] + FailureTail(item);
      FailureTailOpensNone(item);
      CountStartingNone(FailureTail(item));
      assert first[..|FAILURE|] == FAILURE;
      DiffersAt(first, TESTCASE, 1);
      DiffersAt(first, SKIPPED, 1);
      CountStartingCons(first, FailureTail(item), TESTCASE);
      CountStartingCons(first, FailureTail(item), FAILURE);
      CountStartingCons(first, FailureTail(item), SKIPPED);
    } else if IsSkipped(item) {
      var marker := "<skipped/>\n";
      assert CaseOutcome(item) == [marker] + [];
      assert marker[..|SKIPPED|] == SKIPPED;
      DiffersAt(marker, TESTCASE, 1);
      DiffersAt(marker, FAILURE, 1);
      CountStartingCons(marker, [], TESTCASE);
      CountStartingCons(marker, [], FAILURE);
      CountStartingCons(marker, [], SKIPPED);
    }
  }

  lemma CaseCounts(suiteName: string, item: ReportItem, cal: Calendar)
    ensures CountStarting(CaseLines(suiteName, item, cal), TESTCASE) == 1
    ensures CountStarting(CaseLines(suiteName, item, cal), FAILURE) == (if IsFailed(item) then 1 else 0)
    ensures CountStarting(CaseLines(suiteName, item, cal), SKIPPED) == (if IsSkipped(item) then 1 else 0)
  {
    var open, outcome, close := CaseOpen(suiteName, item, cal), CaseOutcome(item), ["</testcase>\n"];
    CaseOpenCounts(suiteName, item, cal);
    CaseOutcomeCounts(item);
    OpensNoneAt(close[0], 1, 1, 1);
    CountStartingNone(close);
    CountsAppend(open, outcome);
    CountsAppend(open + outcome, close);
  }

  /** One testcase element per record; as many failure elements as failed
      records and as many skipped markers as skipped ones. */
  lemma {:induction false} CasesCounts(suiteName: string, items: seq<ReportItem>, cal: Calendar)
    ensures CountStarting(CasesLines(suiteName, items, cal), TESTCASE) == |items|
    ensures CountStarting(CasesLines(suiteName, items, cal), FAILURE) == FailedCount(items)
    ensures CountStarting(CasesLines(suiteName, items, cal), SKIPPED) == SkippedCount(items)
  {
    if items != [] {
      var init, last := items[..|items| - 1], items[|items| - 1];
      CasesCounts(suiteName, init, cal);
      CaseCounts(suiteName, last, cal);
      CountsAppend(CasesLines(suiteName, init, cal), CaseLines(suiteName, last, cal));
    }
  }

  lemma CasesLinesSnoc(suiteName: string, items: seq<ReportItem>, item: ReportItem, cal: Calendar)
    ensures CasesLines(suiteName, items + [item], cal) == CasesLines(suiteName, items, cal) + CaseLines(suiteName, item, cal)
  {
    assert (items + [item])[..|items|] == items;
  }

  /** The additional information block is written exactly for a failed record
      whose info is not empty. */
  lemma AdditionalInfoIffFailedWithInfo(suiteName: string, item: ReportItem, cal: Calendar)
    ensures "Additional Info:\n" in CaseLines(suiteName, item, cal) <==> IsFailed(item) && item.record.info != ""
  {
    var info := "Additional Info:\n";
    var open, outcome, close := CaseOpen(suiteName, item, cal), CaseOutcome(item), ["</testcase>\n"];
    CaseOpenShape(suiteName, item, cal);
    assert info !in open by {
      forall k | 0 <= k < |open|
        ensures open[k] != info
      {
        assert open[k][0] != info[0];
      }
    }
    if IsFailed(item) {
      var first := "<failure message=\"" + Escaped(item.record.message) + "\"></failure>\n";
      assert outcome == [first] + FailureTail(item);
      assert first[0] != info[0];
      if item.record.info == "" {
        assert FailureTail(item) == ["<system-out><![CDATA[\n", "\n]]></system-out>\n"];
      } else {
        assert FailureTail(item)[1] == info;
      }
    }
    assert CaseLines(suiteName, item, cal) == open + outcome + close;
  }

  /** The opening tag of the suite opens none of the counted elements. */
  lemma SuiteHeaderOpensNone(suite: Suite, cal: Calendar)
    ensures forall k :: 0 <= k < |SuiteHeader(suite, cal)| ==> OpensNone(SuiteHeader(suite, cal)[k])
  {
    var header := SuiteHeader(suite, cal);
    forall k | 0 <= k < |header|
      ensures OpensNone(header[k])
    {
      if k == 0 {
        OpensNoneAt(header[k], 5, 1, 1);
      } else {
        assert header[k][0] in {' ', '>'};
        OpensNoneAt(header[k], 0, 0, 0);
      }
    }
  }

  lemma SuiteCounts(suite: Suite, items: seq<ReportItem>, cal: Calendar)
    ensures var lines := SuiteHeader(suite, cal) + CasesLines(suite.name, items, cal) + ["</testsuite>\n"];
            && CountStarting(lines, TESTCASE) == |items|
            && CountStarting(lines, FAILURE) == FailedCount(items)
            && CountStarting(lines, SKIPPED) == SkippedCount(items)
  {
    var header, cases, close := SuiteHeader(suite, cal), CasesLines(suite.name, items, cal), ["</testsuite>\n"];
    SuiteHeaderOpensNone(suite, cal);
    CountStartingNone(header);
    OpensNoneAt(close[0], 1, 1, 1);
    CountStartingNone(close);
    CasesCounts(suite.name, items, cal);
    CountsAppend(header, cases);
    CountsAppend(header + cases, close);
  }

  /** The root element's tags open none of the counted elements. */
  lemma RootTagsCount(rootName: string)
    ensures var tags := ["<testsuites name=\"" + rootName + "\">\n", "</testsuites>\n"];
            CountStarting(tags, TESTCASE) == 0 && CountStarting(tags, FAILURE) == 0 && CountStarting(tags, SKIPPED) == 0
  {
    var open := "<testsuites name=\"" + rootName + "\">\n";
    assert open[..6] == "<tests";
    OpensNoneAt(open, 5, 1, 1);
    OpensNoneAt("</testsuites>\n", 1, 1, 1);
    CountStartingNone([open, "</testsuites>\n"]);
  }

  /** Wrapping lines that open none of the counted elements around others
      leaves the counts as they are. */
  lemma WrappedCounts(open: string, middle: seq<string>, close: string)
    requires CountStarting([open, close], TESTCASE) == 0 && CountStarting([open, close], FAILURE) == 0
    requires CountStarting([open, close], SKIPPED) == 0
    ensures CountStarting([open] + middle + [close], TESTCASE) == CountStarting(middle, TESTCASE)
    ensures CountStarting([open] + middle + [close], FAILURE) == CountStarting(middle, FAILURE)
    ensures CountStarting([open] + middle + [close], SKIPPED) == CountStarting(middle, SKIPPED)
  {
    assert [open, close] == [open] + [close];
    CountsAppend([open], [close]);
    CountsAppend([open], middle);
    CountsAppend([open] + middle, [close]);
  }

  /** The report of a non-empty log holds one testcase per record, one
      failure per failed record and one skipped marker per skipped record;
      that of an empty log holds none. */
  lemma ReportCounts(rootName: string, suite: Suite, items: seq<ReportItem>, cal: Calendar)
    ensures CountStarting(ReportLines(rootName, suite, items, cal), TESTCASE) == if suite.empty then 0 else |items|
    ensures CountStarting(ReportLines(rootName, suite, items, cal), FAILURE) == if suite.empty then 0 else FailedCount(items)
    ensures CountStarting(ReportLines(rootName, suite, items, cal), SKIPPED) == if suite.empty then 0 else SkippedCount(items)
  {
    var middle := if suite.empty then [] else SuiteHeader(suite, cal) + CasesLines(suite.name, items, cal) + ["</testsuite>\n"];
    assert ReportLines(rootName, suite, items, cal) == ["<testsuites name=\"" + rootName + "\">\n"] + middle + ["</testsuites>\n"];
    RootTagsCount(rootName);
    WrappedCounts("<testsuites name=\"" + rootName + "\">\n", middle, "</testsuites>\n");
    if !suite.empty {
      SuiteCounts(suite, items, cal);
    }
  }

  /** The frame of the report: it opens with the root element named by the
      unescaped root name and closes it last; an empty log gives exactly those
      two lines; otherwise the suite's skipped attribute is the literal "0". */
  lemma ReportFrame(rootName: string, suite: Suite, items: seq<ReportItem>, cal: Calendar)
    ensures var lines := ReportLines(rootName, suite, items, cal);
            && |lines| >= 2
            && lines[0] == "<testsuites name=\"" + rootName + "\">\n"
            && lines[|lines| - 1] == "</testsuites>\n"
            && (suite.empty <==> |lines| == 2)
            && (!suite.empty ==> lines[5] == " skipped=\"0\"")
  {
  }

  /** The attribute values of a testcase are the record's text put through
      htmlEscape. */
  lemma CaseAttributesEscaped(suiteName: string, item: ReportItem, cal: Calendar)
    ensures var lines := CaseLines(suiteName, item, cal);
            && lines[0] == TESTCASE
            && lines[1] == " classname=\"" + HtmlEscape(suiteName) + "." + HtmlEscape(item.record.name) + "\""
            && lines[2] == " name=\"" + HtmlEscape(item.record.caption) + "\""
            && (IsFailed(item) ==> lines[5] == "<failure message=\"" + HtmlEscape(item.record.message) + "\"></failure>\n")
            && (IsSkipped(item) ==> lines[5] == "<skipped/>\n")
            && (!IsFailed(item) && !IsSkipped(item) ==> lines[5] == "</testcase>\n" && |lines| == 6)
  {
    var lines := CaseLines(suiteName, item, cal);
    var open, rest := CaseOpen(suiteName, item, cal), CaseOutcome(item) + ["</testcase>\n"];
    assert lines == open + rest;
    assert |open| == 5 && lines[..5] == open && lines[5..] == rest;
  }
}
