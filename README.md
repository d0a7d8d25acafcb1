# TestComplete 11 MHT to JUnit conversion, modelled in Dafny

The model covers the core of the TestComplete 11 input metric for the Jenkins xUnit plugin. That core turns a
TestComplete MHT log archive into a JUnit report. The steps are:

1. pick the archive entries that carry the log (`_root.js` and the provider documents);
2. reject anchored test filter patterns;
3. unwrap the JSONP payload of `_root.js`;
4. read the log tree (`TCLog`), its test items (`TCLogTestItem`, `TCLogItem`) and the provider records
   (`TCLogProviderItem`) out of the provider documents;
5. convert TestComplete timestamps (`MyUtils`);
6. write `<testsuites>`, `<testsuite>` and `<testcase>` elements with HTML-escaped attributes.

Modules, one per part of the program:

| module | models |
|---|---|
| `Wrappers` | `Option`, `Result` and `Outcome`; Java's `null` and exceptions become values of these |
| `JavaLang` | the `String` methods, 32/64-bit integer truncation and Java's `/` and `%` |
| `Json` | JSON values and the org.json accessors used (`getString`, `getInt`, `optJSONArray`, ...) |
| `Markup` | `htmlEscape` and its inverse |
| `MyUtils` | the timestamp shapes and the two converters |
| `ProviderDocuments` | resolving a provider `href` to a file in the extracted directory; the provider loop shared by the constructors |
| `ProviderItem` | `TCLogProviderItem` |
| `TestItem` | `TCLogTestItem` |
| `LogItem` | `TCLogItem` |
| `LogTree` | `TCLog`: a class whose setters update its fields, and the recursive `setTCLog` that builds the tree |
| `Converter` | `TestCompleteInputMetric`: extraction, `convert` and `convertJson`, with the output file as a class that records each write |

Pure computations are functions. Each loop in the program is a method with a `while` loop, proved equal to the function
that specifies it. The lemmas state what the program promises about those functions.

What the model takes as parameters rather than computing:

- `Parser`: parsing JSON text (`new JSONObject(text)`), a function from text to an optional JSON value.
- `Calendar`: `SimpleDateFormat`, an uninterpreted record of a `parse` function and two formatting functions.
- The MHT archive: the sequence of `Entry(name, contentType, content)` that the MIME reader yields.
- The temporary directory: a map from file names to contents.
- The output file: the class `OutputFile`, which records whether it was opened and every string written to it.
- `Suite` and `ReportItem`: what `convertJson` reads from the `TCLog` summary object (name, counts, timestamp,
  duration, emptiness, and each item's record and state).

Where the documented behaviour and the code differ, the model follows the code. The one exception is the cast at TCLog.java:90: `LogTree.BuildNode`, `LogTree.TCLog.SetTCLog` and `LogTree.TCLog.Create` follow the corrected line, and the code as written is modelled beside them (see "## Findings"). The differences:

- A second archive entry with the same name overwrites the first. `createNewFile`'s result is ignored and the
  `FileOutputStream` truncates, so it is not an error. The last selected entry wins (`Converter.LastSelectedEntryWins`).
- The 12-hour pattern in `MyUtils` is the alternation `... PM|AM`. It matches a full timestamp only with " PM"; with
  " AM", no shape matches (`MyUtils.MorningTimestampsMatchNoShape`).
- `getInt` on a millisecond count above 2^31 keeps its low 32 bits, and Java's `%` keeps the sign of the dividend.
  So a real TestComplete start time prints ".-126" as its milliseconds (`ProviderItem.SampleStartTimeMillis`).

## Model

| member | source | states |
|---|---|---|
| Markup.EscapeIsPerCharacter | src/main/java/jenkins/plugins/xunit/tc11/TestCompleteInputMetric.java:330-332 | the five chained replaceAll calls (`&` first) equal escaping every character on its own: entities inserted by one step are never rewritten by a later one |
| Markup.HtmlEscape | src/main/java/jenkins/plugins/xunit/tc11/TestCompleteInputMetric.java:330-332 | htmlEscape turns each of `&`, `"`, `'`, `<`, `>` into `&amp;` `&quot;` `&#39;` `&lt;` `&gt;` and keeps every other character, one character at a time (the per-character reference Escaped) |
| Markup.EscapedIsSafe | src/main/java/jenkins/plugins/xunit/tc11/TestCompleteInputMetric.java:330-332 | the escaped text holds no raw `<`, `>`, `"` or `'`, and every `&` in it begins one of the five entities |
| Markup.PlainTextUnchanged | src/main/java/jenkins/plugins/xunit/tc11/TestCompleteInputMetric.java:331 | text with none of the five characters is returned unchanged |
| Markup.UnescapeEscape | src/main/java/jenkins/plugins/xunit/tc11/TestCompleteInputMetric.java:331 | replacing the entities back, `&amp;` last, recovers the original text exactly |
| Converter.LastSelected | src/main/java/jenkins/plugins/xunit/tc11/TestCompleteInputMetric.java:162-166 | the index of the last entry with the name that passes the selection test (content type text/plain, application/javascript or application/octet-stream, and a name starting with `_` or containing `test`), no later entry passing it; -1 when none does |
| Converter.IsSelected | src/main/java/jenkins/plugins/xunit/tc11/TestCompleteInputMetric.java:163-166 | an entry is copied when its content type is text, script or binary and its name starts with "_" or contains "test"; used by LastSelectedEntryWins |
| Converter.Extracted | src/main/java/jenkins/plugins/xunit/tc11/TestCompleteInputMetric.java:162-178 | the directory after the first entries, each selected entry replacing a file of its name; LastSelectedEntryWins characterises it |
| Converter.ExtractFiles | src/main/java/jenkins/plugins/xunit/tc11/TestCompleteInputMetric.java:162-178 | the extraction loop yields `Extracted`: one file per selected entry, in archive order, a later entry of the same name replacing the earlier file |
| Converter.LastSelectedEntryWins | src/main/java/jenkins/plugins/xunit/tc11/TestCompleteInputMetric.java:163-176 | a name is in the extracted directory iff some selected entry has it, and its content is that of the last such entry |
| Converter.FilterPattern | src/main/java/jenkins/plugins/xunit/tc11/TestCompleteInputMetric.java:115-117 | null becomes ""; otherwise the stored pattern is `pattern.trim()`: a slice of the input with only characters at or below the space cut from either end, starting and ending above the space, so trimming it again changes nothing |
| Converter.InputMetric.SetTestFilterPattern | src/main/java/jenkins/plugins/xunit/tc11/TestCompleteInputMetric.java:115-117 | the field becomes `pattern.trim()`, or "" for null (FilterPattern), and nothing else changes |
| Converter.CheckFilterPattern | src/main/java/jenkins/plugins/xunit/tc11/TestCompleteInputMetric.java:217-226 | fails iff the pattern is non-empty and starts with `^` or ends with `$`, with the ConversionException message quoting it |
| Converter.NoRootFileFails | src/main/java/jenkins/plugins/xunit/tc11/TestCompleteInputMetric.java:204-208 | an archive with no selected `_root.js` fails with the ConversionException naming the input file, and no report is opened |
| Converter.LastRootFileIsConverted | src/main/java/jenkins/plugins/xunit/tc11/TestCompleteInputMetric.java:204-233 | with an accepted pattern, the conversion is the report of the last selected `_root.js` entry's content |
| Converter.FilterPatternDoesNotMatter | src/main/java/jenkins/plugins/xunit/tc11/TestCompleteInputMetric.java:217-233 | any two accepted patterns give the same outcome and the same output: the pattern is checked but never reaches convertJson |
| Converter.AnchoredPatternFails | src/main/java/jenkins/plugins/xunit/tc11/TestCompleteInputMetric.java:217-226 | an anchored pattern fails the conversion of an archive that has `_root.js`, before anything is written |
| Converter.RootPayload | src/main/java/jenkins/plugins/xunit/tc11/TestCompleteInputMetric.java:253-257 | succeeds iff the text has a `)` and its first `(` (or none) comes before its first `)`, otherwise StringIndexOutOfBoundsException; the value is what follows the first `,` of the text strictly between them, or all of it without a comma |
| Converter.RootPayloadHasNoCloser | src/main/java/jenkins/plugins/xunit/tc11/TestCompleteInputMetric.java:253-257 | the payload never contains `)` |
| Converter.RootPayloadRoundTrip | src/main/java/jenkins/plugins/xunit/tc11/TestCompleteInputMetric.java:253-257 | unwrapping `callee(id,json)` followed by any text gives back `json` when `json` has no `)` |
| Converter.RootPayloadWithoutIdentifier | src/main/java/jenkins/plugins/xunit/tc11/TestCompleteInputMetric.java:257 | a slice without a comma is taken whole |
| Converter.RootPayloadWithoutOpener | src/main/java/jenkins/plugins/xunit/tc11/TestCompleteInputMetric.java:253-257 | without any `(` the slice starts at the beginning of the text |
| Converter.BlankPayloadWritesNothing | src/main/java/jenkins/plugins/xunit/tc11/TestCompleteInputMetric.java:265 | a payload of only characters at or below the space succeeds without opening the output file |
| Converter.OutputFile.Open | src/main/java/jenkins/plugins/xunit/tc11/TestCompleteInputMetric.java:271 | `new FileWriter(outFile)`: the file exists and is empty |
| Converter.OutputFile.Write | src/main/java/jenkins/plugins/xunit/tc11/TestCompleteInputMetric.java:273 | one `fw.write` appends exactly its string and nothing else changes |
| Converter.WriteSuiteHeader | src/main/java/jenkins/plugins/xunit/tc11/TestCompleteInputMetric.java:275-284 | appends the `<testsuite` opening: escaped suite name, test count, failures, `skipped="0"`, timestamp and duration |
| Converter.WriteCase | src/main/java/jenkins/plugins/xunit/tc11/TestCompleteInputMetric.java:286-307 | appends one record's testcase lines |
| Converter.WriteCases | src/main/java/jenkins/plugins/xunit/tc11/TestCompleteInputMetric.java:285-308 | the loop over the records appends their testcases in order |
| Converter.WriteSuite | src/main/java/jenkins/plugins/xunit/tc11/TestCompleteInputMetric.java:275-309 | appends the suite header, the testcases and `</testsuite>` |
| Converter.WriteReport | src/main/java/jenkins/plugins/xunit/tc11/TestCompleteInputMetric.java:273-311 | appends exactly `ReportLines`: the `<testsuites>` line with the root name unescaped, the suite unless the log is empty, and the closing line |
| Converter.ConvertJson | src/main/java/jenkins/plugins/xunit/tc11/TestCompleteInputMetric.java:248-322 | outcome and file are those of `JsonReport`: an unwrap or parse failure, or a blank payload, leaves the file untouched; a root without a string `name` fails after the file is created empty; otherwise the file holds exactly the report |
| Converter.InputMetric.Convert | src/main/java/jenkins/plugins/xunit/tc11/TestCompleteInputMetric.java:194-246 | outcome and file content are those of `Conversion`: extraction, the `_root.js` lookup, the pattern check, then convertJson |
| Converter.Conversion | src/main/java/jenkins/plugins/xunit/tc11/TestCompleteInputMetric.java:194-246 | convert as a value; NoRootFileFails, AnchoredPatternFails, LastRootFileIsConverted and FilterPatternDoesNotMatter state its outcomes |
| Converter.JsonReport | src/main/java/jenkins/plugins/xunit/tc11/TestCompleteInputMetric.java:248-322 | convertJson as a value; BlankPayloadWritesNothing and ReportCounts/ReportFrame state what it writes |
| Converter.SuiteHeader | src/main/java/jenkins/plugins/xunit/tc11/TestCompleteInputMetric.java:275-284 | the eight writes of the testsuite tag; SuiteHeaderOpensNone states that none of them opens a testcase, failure or skipped element |
| Converter.CaseLines | src/main/java/jenkins/plugins/xunit/tc11/TestCompleteInputMetric.java:286-307 | the writes of one testcase; CaseCounts and AdditionalInfoIffFailedWithInfo state what they hold |
| Converter.CasesLines | src/main/java/jenkins/plugins/xunit/tc11/TestCompleteInputMetric.java:285-308 | the writes of all testcases in order; CasesCounts counts their testcase, failure and skipped elements |
| Converter.ReportLines | src/main/java/jenkins/plugins/xunit/tc11/TestCompleteInputMetric.java:273-311 | everything written once the root has a name; ReportCounts and ReportFrame state its counts and frame |
| Converter.CaseCounts | src/main/java/jenkins/plugins/xunit/tc11/TestCompleteInputMetric.java:287-307 | a record's lines open exactly one `<testcase`, one `<failure` iff it failed (state 2 and type "Error") and one `<skipped/>` iff it did not fail and its state is below 0 or above 2 |
| Converter.CaseOutcomeCounts | src/main/java/jenkins/plugins/xunit/tc11/TestCompleteInputMetric.java:294-305 | the body of a testcase holds a failure iff the record failed and a skipped marker iff it is skipped, never both |
| Converter.CasesCounts | src/main/java/jenkins/plugins/xunit/tc11/TestCompleteInputMetric.java:285-308 | the records' lines open exactly one testcase per record, and count the failed and the skipped records |
| Converter.SuiteCounts | src/main/java/jenkins/plugins/xunit/tc11/TestCompleteInputMetric.java:275-309 | the suite's lines hold as many testcases, failures and skipped markers as the records |
| Converter.ReportCounts | src/main/java/jenkins/plugins/xunit/tc11/TestCompleteInputMetric.java:273-311 | the report holds one testcase per record and the failed and skipped counts of the records, or none at all when the log is empty |
| Converter.ReportFrame | src/main/java/jenkins/plugins/xunit/tc11/TestCompleteInputMetric.java:273-311 | the report starts with `<testsuites name="…">` and ends with `</testsuites>`, has only those two lines iff the log is empty, and otherwise writes `skipped="0"` as a literal |
| Converter.AdditionalInfoIffFailedWithInfo | src/main/java/jenkins/plugins/xunit/tc11/TestCompleteInputMetric.java:294-300 | "Additional Info:" is written iff the record failed and its info is non-empty |
| Converter.CaseAttributesEscaped | src/main/java/jenkins/plugins/xunit/tc11/TestCompleteInputMetric.java:287-307 | classname is escape(suite) + "." + escape(name), name is escape(caption), the failure message is escaped, and a passed record's testcase is closed right after its opening |
| MyUtils.Classify | src/main/java/jenkins/plugins/xunit/tc11/json/MyUtils.java:57-63 | the three shape checks in the program's order: 12-hour month-first iff the text is a slash stamp followed by " PM" or is exactly "AM"; day-first slash iff a slash stamp that is not the first; day-first dot iff a dot stamp matching neither before; none iff no shape matches |
| MyUtils.MatchesTwelveHour | src/main/java/jenkins/plugins/xunit/tc11/json/MyUtils.java:57 | the first expression, whose alternation binds loosest: a slash timestamp ending in " PM", or exactly "AM"; see MorningTimestampsMatchNoShape |
| MyUtils.MatchesDayFirstSlash | src/main/java/jenkins/plugins/xunit/tc11/json/MyUtils.java:59 | the second expression: a slash timestamp; ShapesAreExclusive shows it excludes the other two |
| MyUtils.MatchesDayFirstDot | src/main/java/jenkins/plugins/xunit/tc11/json/MyUtils.java:61 | the third expression: a dotted timestamp; ShapesAreExclusive shows it excludes the other two |
| MyUtils.ShapesAreExclusive | src/main/java/jenkins/plugins/xunit/tc11/json/MyUtils.java:57-63 | no text has two shapes, so the order of the checks never decides between two of them |
| MyUtils.ParsedMillis | src/main/java/jenkins/plugins/xunit/tc11/json/MyUtils.java:64-70 | a date is obtained exactly for non-empty text with a recognised shape that the shape's format parses, and it is that parse |
| MyUtils.ConvertTc2DateTime | src/main/java/jenkins/plugins/xunit/tc11/json/MyUtils.java:53-78 | "" for null, empty or unrecognised text and whenever ParsedMillis gives none (text its format cannot parse); otherwise the parsed date formatted |
| MyUtils.ConvertTcDateTime2MillSec | src/main/java/jenkins/plugins/xunit/tc11/json/MyUtils.java:85-109 | 0 for null, empty or unrecognised text and whenever ParsedMillis gives none (text its format cannot parse); otherwise the parsed epoch milliseconds |
| MyUtils.ConvertersAgree | src/main/java/jenkins/plugins/xunit/tc11/json/MyUtils.java:53-109 | both converters choose the same format: they fail together, and otherwise the string is the format of the milliseconds |
| MyUtils.MorningTimestampsMatchNoShape | src/main/java/jenkins/plugins/xunit/tc11/json/MyUtils.java:57 | a full slash timestamp ending in " AM" matches no shape and converts to "" and 0, while the same text ending in " PM" is read as 12-hour month-first |
| ProviderDocuments.FileNameOf | src/main/java/jenkins/plugins/xunit/tc11/json/TCLogItem.java:89-90 | no longer than the href, and the lower-cased href itself when it has no `/` |
| ProviderDocuments.FileNameOfPath | src/main/java/jenkins/plugins/xunit/tc11/json/TCLogItem.java:90 | the file name of `dirs/name` is `name` lower-cased |
| ProviderDocuments.Lookup | src/main/java/jenkins/plugins/xunit/tc11/json/TCLogItem.java:92-97 | an exact, case-sensitive match in the directory, or the ConversionException naming the missing file |
| ProviderDocuments.ProviderPayload | src/main/java/jenkins/plugins/xunit/tc11/json/TCLogItem.java:99-104 | succeeds iff the text is non-empty and its first `(` (the start when there is none) lies before its last character, otherwise StringIndexOutOfBoundsException; the value is what follows the first `,` between them |
| ProviderDocuments.ProviderPayloadOfWrapped | src/main/java/jenkins/plugins/xunit/tc11/json/TCLogItem.java:99-104 | unwrapping `callee(id,json)` gives back `json` |
| ProviderDocuments.ResolveDocument | src/main/java/jenkins/plugins/xunit/tc11/json/TCLogItem.java:88-105 | succeeds exactly when the lower-cased file name is among the extracted files, its payload can be cut out and parses as an object; a missing file fails with the message naming it; the document is that parse |
| ProviderDocuments.ProviderHref | src/main/java/jenkins/plugins/xunit/tc11/json/TCLogItem.java:87-89 | a null provider element throws NullPointerException; a present href must be a string; an absent one means no document |
| ProviderDocuments.ProviderDocument | src/main/java/jenkins/plugins/xunit/tc11/json/TCLogItem.java:87-105 | one provider's document: succeeds exactly when the href can be read and, when present, resolved; none when it has no href, otherwise the resolved document |
| ProviderDocuments.MissingFileFailsDocument | src/main/java/jenkins/plugins/xunit/tc11/json/TCLogItem.java:92-96 | a provider whose file is missing fails with the message naming the lower-cased file name |
| ProviderDocuments.Step | src/main/java/jenkins/plugins/xunit/tc11/json/TCLogItem.java:86-163 | one loop turn: a failure ends the loop, a provider without href is skipped, a document is applied |
| ProviderDocuments.ApplyDocuments | src/main/java/jenkins/plugins/xunit/tc11/json/TCLogItem.java:84-165 | the provider loop of both constructors: each document applied to the record in order, a provider without href skipped, the first failure ending the loop; its properties are the lemmas below |
| ProviderDocuments.ApplyDocumentsSucceeds | src/main/java/jenkins/plugins/xunit/tc11/json/TCLogItem.java:84-165 | when applying a document succeeds exactly on documents satisfying a condition, whatever the record so far, the loop succeeds exactly when every document was read and satisfies it |
| ProviderDocuments.ProvidersApplied | src/main/java/jenkins/plugins/xunit/tc11/json/TCLogItem.java:84-165 | the same for the documents of a provider list: success exactly when every provider is read into a document satisfying the condition |
| ProviderDocuments.ApplyDocumentsKeeps | src/main/java/jenkins/plugins/xunit/tc11/json/TCLogItem.java:84-165 | a part of the record that no single document changes is the same after the loop as before it |
| ProviderDocuments.EveryDocumentRead | src/main/java/jenkins/plugins/xunit/tc11/json/TCLogItem.java:86-163 | a loop that succeeded read every provider's document without error |
| ProviderDocuments.FirstFailureDecides | src/main/java/jenkins/plugins/xunit/tc11/json/TCLogItem.java:86-163 | the first provider that fails decides the loop's error |
| ProviderDocuments.LastDocumentWins | src/main/java/jenkins/plugins/xunit/tc11/json/TCLogItem.java:106-155 | a field that each document either sets or leaves alone ends with the value of the last document that sets it, or its starting value |
| ProviderItem.DetailsId | src/main/java/jenkins/plugins/xunit/tc11/json/TCLogProviderItem.java:67-69 | succeeds iff the first `('` plus two (1 when there is no `('`) is at most the first `')`, otherwise StringIndexOutOfBoundsException; the value is exactly the text between those two positions, and so ends just before the first `')` and follows the first `('` when it occurs |
| ProviderItem.DetailsIdOfLink | src/main/java/jenkins/plugins/xunit/tc11/json/TCLogProviderItem.java:59-69 | the Details anchor `prefix('id')suffix` yields `id` when neither prefix nor id holds a quote and id holds no `)` |
| ProviderItem.ProviderTime | src/main/java/jenkins/plugins/xunit/tc11/json/TCLogProviderItem.java:102-128 | "" iff the text is null, empty, unrecognised or unparsable; otherwise the date formatted to seconds followed by "." and the decimal of the millisecond part |
| ProviderItem.TimeField | src/main/java/jenkins/plugins/xunit/tc11/json/TCLogProviderItem.java:73-84 | "" when the key is absent; succeeds exactly when the key is absent or holds an object with a text "text" and a number "msec"; the value is the converted text with `getInt("msec") % 1000` (Java remainder of the 32-bit value) |
| ProviderItem.FromJson | src/main/java/jenkins/plugins/xunit/tc11/json/TCLogProviderItem.java:60-92 | a null object gives the all-null record with runTime 0; otherwise it succeeds exactly when Name is absent or a text, Details is absent or a text DetailsId reads, both time fields read and RunTime is absent or an object with a number msec; then name is Name or "", testItemId is the Details id or "", start and end times are the converted fields, runTime is RunTime.msec as an int or 0 |
| ProviderItem.ConvertedTimeEndsWithMillis | src/main/java/jenkins/plugins/xunit/tc11/json/TCLogProviderItem.java:75-119 | a non-empty converted time ends with "." and the decimal of msec % 1000 |
| ProviderItem.SampleStartTimeMillis | src/main/java/jenkins/plugins/xunit/tc11/json/TCLogProviderItem.java:47-75 | the sample StartTime msec 1484066920290 exceeds the int range: getInt keeps its low 32 bits and the time ends in ".-126" |
| TestItem.Header | src/main/java/jenkins/plugins/xunit/tc11/json/TCLogTestItem.java:64-82 | name, id and status are read or default to "", "" and 0; caption, message and type stay null; runTime 0; an empty provider list; a wrongly typed key fails |
| TestItem.ApplyDocument | src/main/java/jenkins/plugins/xunit/tc11/json/TCLogTestItem.java:104-134 | succeeds exactly when caption, items and the Message, Time.msec and TypeDescription of an object items[0] have the right kinds where present (DocumentReadable); caption becomes the document's caption or ""; with an object items[0], message, type and runTime become its Message, TypeDescription and Time.msec or "", "" and 0; otherwise they are kept; name, id, status and providers never change |
| TestItem.ApplyDocumentFields | src/main/java/jenkins/plugins/xunit/tc11/json/TCLogTestItem.java:104-134 | the field-by-field update equals `ApplyDocument` |
| TestItem.ReadProvider | src/main/java/jenkins/plugins/xunit/tc11/json/TCLogTestItem.java:86-140 | one loop turn equals `Step` on that provider's document |
| TestItem.ReadProviders | src/main/java/jenkins/plugins/xunit/tc11/json/TCLogTestItem.java:83-142 | the provider loop equals applying the documents in order |
| TestItem.NewTestItem | src/main/java/jenkins/plugins/xunit/tc11/json/TCLogTestItem.java:64-144 | the constructor equals `BuildTestItem`: the header fields, then the provider loop |
| TestItem.BuildTestItem | src/main/java/jenkins/plugins/xunit/tc11/json/TCLogTestItem.java:64-144 | a null node gives the Java defaults; otherwise name, id and status are the node's own and the providers list stays empty whatever the documents hold |
| TestItem.BuildTestItemSucceeds | src/main/java/jenkins/plugins/xunit/tc11/json/TCLogTestItem.java:64-144 | the constructor completes exactly when name, id and status have the right kinds and every provider reads into a readable document |
| TestItem.BuiltTestItemFoundEveryFile | src/main/java/jenkins/plugins/xunit/tc11/json/TCLogTestItem.java:86-96 | a constructed item had every provider element an object and every href's file in the directory |
| TestItem.MissingDocumentFails | src/main/java/jenkins/plugins/xunit/tc11/json/TCLogTestItem.java:91-95 | a missing file reached by the loop fails it with the message naming the file |
| TestItem.LastDocumentDecidesCaption | src/main/java/jenkins/plugins/xunit/tc11/json/TCLogTestItem.java:105-109 | every document sets caption, so the last document read decides it |
| TestItem.NoProvidersLeavesDefaults | src/main/java/jenkins/plugins/xunit/tc11/json/TCLogTestItem.java:82-83 | without providers, caption, message and type stay null and runTime 0 |
| LogItem.Header | src/main/java/jenkins/plugins/xunit/tc11/json/TCLogItem.java:63-83 | name, status and id are read or default to "", 0 and ""; every other field starts empty or 0; a wrongly typed key fails |
| LogItem.StackEntryOf | src/main/java/jenkins/plugins/xunit/tc11/json/TCLogItem.java:128-138 | Unit is UnitName or "", Line is the decimal text of the int LineNo, Test is Test; fails iff one of them has the wrong type or is missing |
| LogItem.CallStackAfterSucceeds | src/main/java/jenkins/plugins/xunit/tc11/json/TCLogItem.java:124-141 | the call-stack loop succeeds exactly when every frame object is readable (items that are not objects are skipped); the stack it returns extends the old one by at most one entry per item |
| LogItem.FrameItems | src/main/java/jenkins/plugins/xunit/tc11/json/TCLogItem.java:124-127 | the CallStack object's items array; a missing items array throws NullPointerException |
| LogItem.FirstMessage | src/main/java/jenkins/plugins/xunit/tc11/json/TCLogItem.java:114-117 | succeeds exactly when Message is absent or a text; message becomes Message when present; nothing else changes |
| LogItem.FirstInfo | src/main/java/jenkins/plugins/xunit/tc11/json/TCLogItem.java:118-123 | succeeds exactly when AdditionalInfo is absent or an object with a boolean isfilename and, when that is false, a text "text"; info becomes that text only when isfilename is false; nothing else changes |
| LogItem.FirstCallStack | src/main/java/jenkins/plugins/xunit/tc11/json/TCLogItem.java:124-141 | succeeds exactly when CallStack is absent or an object with an items array whose every object has a number LineNo, a text Test and no non-text UnitName; the call stack grows by those entries; nothing else changes |
| LogItem.FirstTime | src/main/java/jenkins/plugins/xunit/tc11/json/TCLogItem.java:142-149 | succeeds exactly when Time is absent or an object with a number msec and a text "text"; test time and its milliseconds become those, or "" and 0 without Time; nothing else changes |
| LogItem.FirstType | src/main/java/jenkins/plugins/xunit/tc11/json/TCLogItem.java:150-155 | succeeds exactly when TypeDescription is absent or a text; type becomes it or ""; nothing else changes |
| LogItem.ApplyFirstItem | src/main/java/jenkins/plugins/xunit/tc11/json/TCLogItem.java:112-156 | succeeds exactly when all five steps can read their keys (FirstItemReadable); items[0] then sets exactly message, info, call stack, test time and type as the five steps above |
| LogItem.ApplyDetails | src/main/java/jenkins/plugins/xunit/tc11/json/TCLogItem.java:105-157 | succeeds exactly when caption is absent or a text, items is absent or an array, and an object items[0] is readable; caption becomes the document's caption when present; an object items[0] is then applied; nothing else changes |
| LogItem.Stamp | src/main/java/jenkins/plugins/xunit/tc11/json/TCLogItem.java:196-199 | a time object gives its converted text and its long msec, and fails iff either is missing or mistyped |
| LogItem.ApplyTimes | src/main/java/jenkins/plugins/xunit/tc11/json/TCLogItem.java:196-209 | succeeds exactly when StartTime and EndTime are absent or objects with a text "text" and a number msec, and RunTime is absent or an object with a number msec; each present one replaces the stored value; nothing else changes |
| LogItem.ScanItemsSucceeds | src/main/java/jenkins/plugins/xunit/tc11/json/TCLogItem.java:191-211 | when one item's step succeeds exactly on objects satisfying a condition, the item loop succeeds exactly when every item is an object satisfying it (a non-object throws at `has`) |
| LogItem.ApplyTimingDocument | src/main/java/jenkins/plugins/xunit/tc11/json/TCLogItem.java:191-211 | a parent document without items leaves the record as it is; the document reads without an exception exactly when items is absent or an array of readable objects |
| LogItem.Details | src/main/java/jenkins/plugins/xunit/tc11/json/TCLogItem.java:63-165 | after the node's own providers, name, status and id are still the node's; without providers the record is the header |
| LogItem.DetailsSucceeds | src/main/java/jenkins/plugins/xunit/tc11/json/TCLogItem.java:63-165 | the node's own part succeeds exactly when its name, status and id have the right kinds and every own provider reads into a readable document |
| LogItem.BuildLogItem | src/main/java/jenkins/plugins/xunit/tc11/json/TCLogItem.java:63-227 | name, status and id of the record are the node's own whatever the documents hold; a failure of the own providers is the outcome |
| LogItem.BuildLogItemSucceeds | src/main/java/jenkins/plugins/xunit/tc11/json/TCLogItem.java:63-227 | the constructor completes exactly when the node's own part does and, when the parent has providers, they form an array whose every document reads as timing |
| LogItem.TestRunTimeInMilliSec | src/main/java/jenkins/plugins/xunit/tc11/json/TCLogItem.java:256-258 | returns the items[0] Time.msec field; RunTimeGetterIgnoresParent shows the parent never changes it |
| LogItem.TimeStamp | src/main/java/jenkins/plugins/xunit/tc11/json/TCLogItem.java:324-326 | returns the start time; WithoutParentProviders and ParentTimesFromLastItem state what it holds |
| LogItem.ReadMessage | src/main/java/jenkins/plugins/xunit/tc11/json/TCLogItem.java:114-117 | equals `FirstMessage` |
| LogItem.ReadInfo | src/main/java/jenkins/plugins/xunit/tc11/json/TCLogItem.java:118-123 | equals `FirstInfo` |
| LogItem.AddFrames | src/main/java/jenkins/plugins/xunit/tc11/json/TCLogItem.java:127-140 | the loop over call-stack items equals `CallStackAfter` |
| LogItem.ReadCallStack | src/main/java/jenkins/plugins/xunit/tc11/json/TCLogItem.java:124-141 | equals `FirstCallStack` |
| LogItem.ReadTime | src/main/java/jenkins/plugins/xunit/tc11/json/TCLogItem.java:142-149 | equals `FirstTime` |
| LogItem.ReadType | src/main/java/jenkins/plugins/xunit/tc11/json/TCLogItem.java:150-155 | equals `FirstType` |
| LogItem.ReadFirstItem | src/main/java/jenkins/plugins/xunit/tc11/json/TCLogItem.java:112-156 | equals `ApplyFirstItem` |
| LogItem.ReadDetails | src/main/java/jenkins/plugins/xunit/tc11/json/TCLogItem.java:105-157 | equals `ApplyDetails` |
| LogItem.ReadOwnProvider | src/main/java/jenkins/plugins/xunit/tc11/json/TCLogItem.java:86-163 | one loop turn equals `Step` with `ApplyDetails` |
| LogItem.ReadOwnProviders | src/main/java/jenkins/plugins/xunit/tc11/json/TCLogItem.java:84-165 | the loop over the node's providers equals applying their documents in order |
| LogItem.ReadTimes | src/main/java/jenkins/plugins/xunit/tc11/json/TCLogItem.java:191-211 | the loop over a parent document's items equals `Timing` |
| LogItem.ReadParentProvider | src/main/java/jenkins/plugins/xunit/tc11/json/TCLogItem.java:171-218 | one loop turn equals `Step` with `Timing` |
| LogItem.ReadParentProviders | src/main/java/jenkins/plugins/xunit/tc11/json/TCLogItem.java:169-219 | the loop over the parent's providers equals applying their documents in order |
| LogItem.NewLogItem | src/main/java/jenkins/plugins/xunit/tc11/json/TCLogItem.java:63-227 | the constructor equals `BuildLogItem` |
| LogItem.CallStackEntriesInOrder | src/main/java/jenkins/plugins/xunit/tc11/json/TCLogItem.java:127-140 | the call stack keeps its old entries and gains exactly one entry per object item, in order |
| LogItem.CallStackShift | src/main/java/jenkins/plugins/xunit/tc11/json/TCLogItem.java:124-140 | appending frames to a stack is the stack followed by the frames appended to an empty one |
| LogItem.CallStacksAccumulate | src/main/java/jenkins/plugins/xunit/tc11/json/TCLogItem.java:84-141 | after the provider loop the call stack is the concatenation of every document's items[0] frames, in provider order |
| LogItem.CaptionKeepsLastValue | src/main/java/jenkins/plugins/xunit/tc11/json/TCLogItem.java:106-108 | caption is that of the last document with a caption, or unchanged |
| LogItem.MessageKeepsLastValue | src/main/java/jenkins/plugins/xunit/tc11/json/TCLogItem.java:114-117 | message is that of the last document whose items[0] has Message, or unchanged |
| LogItem.InfoKeepsLastText | src/main/java/jenkins/plugins/xunit/tc11/json/TCLogItem.java:118-123 | info is the text of the last document whose items[0] has non-file AdditionalInfo, or unchanged |
| LogItem.TypeFollowsLastFirstItem | src/main/java/jenkins/plugins/xunit/tc11/json/TCLogItem.java:150-155 | type is that of the last document with an object items[0], "" when that one has no TypeDescription |
| LogItem.TestTimeFollowsLastFirstItem | src/main/java/jenkins/plugins/xunit/tc11/json/TCLogItem.java:142-149 | test time is that of the last document with an object items[0], 0 and "" when that one has no Time |
| LogItem.DetailsKeepTimes | src/main/java/jenkins/plugins/xunit/tc11/json/TCLogItem.java:84-165 | the node's own providers never touch start, end or run time |
| LogItem.TimingKeepsDetails | src/main/java/jenkins/plugins/xunit/tc11/json/TCLogItem.java:169-219 | the parent's providers change only start, end and run time |
| LogItem.TimingIsOneScan | src/main/java/jenkins/plugins/xunit/tc11/json/TCLogItem.java:169-210 | the parent loop is one scan over all items of all the parent's documents, in order |
| LogItem.ItemTimesLastWins | src/main/java/jenkins/plugins/xunit/tc11/json/TCLogItem.java:193-209 | start, end and run time come from the last item holding each of them, or are kept |
| LogItem.StartTimeLastWins | src/main/java/jenkins/plugins/xunit/tc11/json/TCLogItem.java:196-200 | start time comes from the last item with StartTime |
| LogItem.EndTimeLastWins | src/main/java/jenkins/plugins/xunit/tc11/json/TCLogItem.java:201-205 | end time comes from the last item with EndTime |
| LogItem.RunTimeLastWins | src/main/java/jenkins/plugins/xunit/tc11/json/TCLogItem.java:206-209 | run time comes from the last item with RunTime |
| LogItem.ParentTimesFromLastItem | src/main/java/jenkins/plugins/xunit/tc11/json/TCLogItem.java:169-219 | with parent providers, start, end and run time are those of the last item among all parent documents holding each, or unset and 0 |
| LogItem.WithoutParentProviders | src/main/java/jenkins/plugins/xunit/tc11/json/TCLogItem.java:220-224 | without a parent or its providers, start time is the raw test time text, its milliseconds its conversion, run time 0 and no end time |
| LogItem.RunTimeGetterIgnoresParent | src/main/java/jenkins/plugins/xunit/tc11/json/TCLogItem.java:256-258 | getTestRunTimeInMilliSec returns items[0].Time.msec from the node's own documents, whatever the parent holds |
| LogItem.MissingOwnFileFails | src/main/java/jenkins/plugins/xunit/tc11/json/TCLogItem.java:92-96 | a missing file among the node's providers fails construction with the message naming it |
| LogItem.MissingParentFileFails | src/main/java/jenkins/plugins/xunit/tc11/json/TCLogItem.java:177-181 | a missing file among the parent's providers fails construction with the message naming it |
| LogTree.ReadFields | src/main/java/jenkins/plugins/xunit/tc11/json/TCLog.java:37-61 | name, href and id default to "", status to 0 and schemaType to "none"; a wrongly typed key fails |
| LogTree.BuildNode | src/main/java/jenkins/plugins/xunit/tc11/json/TCLog.java:36-110 | the node value: its fields, one child per children element and one provider per providers element, no active provider, and empty iff it has no children |
| LogTree.SummaryIndex | src/main/java/jenkins/plugins/xunit/tc11/json/TCLog.java:87-96 | the last provider whose lower-cased name contains "summary", or -1 |
| LogTree.PerfCountersIndex | src/main/java/jenkins/plugins/xunit/tc11/json/TCLog.java:87-99 | the last provider with schemaType "aqds:table" whose lower-cased name contains "performance counters", or -1 |
| LogTree.ChildrenOnePerElement | src/main/java/jenkins/plugins/xunit/tc11/json/TCLog.java:62-74 | exactly one child per element, each the node built from that element, in order |
| LogTree.ProvidersOnePerElement | src/main/java/jenkins/plugins/xunit/tc11/json/TCLog.java:75-84 | exactly one provider per element, each the node built from that element, in order |
| LogTree.ChildrenOf | src/main/java/jenkins/plugins/xunit/tc11/json/TCLog.java:62-74 | the children of "children", none when absent; ChildrenOnePerElement states one child per element |
| LogTree.ProvidersOf | src/main/java/jenkins/plugins/xunit/tc11/json/TCLog.java:75-84 | the providers of "providers", none when absent; ProvidersOnePerElement states one provider per element |
| LogTree.BuildChildren | src/main/java/jenkins/plugins/xunit/tc11/json/TCLog.java:62-74 | the children of the first n elements, a non-object element throwing; BuildChildrenNext states each step |
| LogTree.BuildProviders | src/main/java/jenkins/plugins/xunit/tc11/json/TCLog.java:75-84 | the providers of the first n elements, a non-object element throwing; BuildProvidersNext states each step |
| LogTree.TCLog.IsEmpty | src/main/java/jenkins/plugins/xunit/tc11/json/TCLog.java:29-31 | returns the empty flag; EmptyIffNoChildren states that after setTCLog it holds exactly when there are no children |
| LogTree.EmptyIffNoChildren | src/main/java/jenkins/plugins/xunit/tc11/json/TCLog.java:109 | a node is empty iff its children key is absent or an empty array |
| LogTree.TCLog.Create | src/main/java/jenkins/plugins/xunit/tc11/json/TCLog.java:33-35 | `new TCLog(obj)` succeeds iff `BuildNode` does and then holds its value in fresh objects |
| LogTree.TCLog.SetTCLog | src/main/java/jenkins/plugins/xunit/tc11/json/TCLog.java:36-110 | succeeds iff `BuildNode` does, with its error otherwise; the object then holds `BuildNode`'s value whatever it held before, with every node below it fresh |
| LogTree.TCLog.SetTree | src/main/java/jenkins/plugins/xunit/tc11/json/TCLog.java:62-109 | the children and providers are built and attached, failing with `BuildNode`'s error |
| LogTree.TCLog.CreateChildren | src/main/java/jenkins/plugins/xunit/tc11/json/TCLog.java:62-74 | the children loop builds one fresh node per element, holding `BuildChildren`, or fails with its error |
| LogTree.TCLog.CreateProviders | src/main/java/jenkins/plugins/xunit/tc11/json/TCLog.java:75-84 | the providers loop builds one fresh node per element, holding `BuildProviders`, or fails with its error |
| LogTree.TCLog.Attach | src/main/java/jenkins/plugins/xunit/tc11/json/TCLog.java:85-109 | children and providers are the built nodes, activeProviderName is "" and empty is whether there are no children |
| LogTree.TCLog.ScanProviders | src/main/java/jenkins/plugins/xunit/tc11/json/TCLog.java:87-100 | the scan loop computes `SummaryIndex` and `PerfCountersIndex` |
| LogTree.TCLog.SetName | src/main/java/jenkins/plugins/xunit/tc11/json/TCLog.java:125-127 | sets the name; every other field is unchanged |
| LogTree.TCLog.SetStatus | src/main/java/jenkins/plugins/xunit/tc11/json/TCLog.java:133-135 | sets the status; every other field is unchanged |
| LogTree.TCLog.SetHref | src/main/java/jenkins/plugins/xunit/tc11/json/TCLog.java:141-143 | sets the href; every other field is unchanged |
| LogTree.TCLog.SetId | src/main/java/jenkins/plugins/xunit/tc11/json/TCLog.java:149-151 | sets the id; every other field is unchanged |
| LogTree.TCLog.SetSchemaType | src/main/java/jenkins/plugins/xunit/tc11/json/TCLog.java:157-159 | sets the schema type; every other field is unchanged |
| LogTree.TCLog.SetChildren | src/main/java/jenkins/plugins/xunit/tc11/json/TCLog.java:165-167 | replaces the children; every other field, the empty flag included, is unchanged |
| LogTree.TCLog.SetProviders | src/main/java/jenkins/plugins/xunit/tc11/json/TCLog.java:175-177 | replaces the providers; every other field is unchanged |
| LogTree.TCLog.SetActiveProviderName | src/main/java/jenkins/plugins/xunit/tc11/json/TCLog.java:183-185 | sets the active provider name; every other field is unchanged |
| LogTree.TCLog.AddChildren | src/main/java/jenkins/plugins/xunit/tc11/json/TCLog.java:187-189 | appends one child and leaves the empty flag, and so isEmpty, as it was |
| LogTree.SetTCLogAsWritten | src/main/java/jenkins/plugins/xunit/tc11/json/TCLog.java:90 | setTCLog as written never returns normally: it always throws |
| LogTree.CastAlwaysFails | src/main/java/jenkins/plugins/xunit/tc11/json/TCLog.java:90 | for every node that can be built, setTCLog as written throws ClassCastException |
| JavaLang.IndexOf | src/main/java/jenkins/plugins/xunit/tc11/TestCompleteInputMetric.java:253-254 | `indexOf(char)`: the first position of the character, or -1 iff it does not occur |
| JavaLang.StartsWith | src/main/java/jenkins/plugins/xunit/tc11/TestCompleteInputMetric.java:166 | `startsWith`: the prefix is a prefix of the text; CheckFilterPattern and IsSelected use it |
| JavaLang.EndsWith | src/main/java/jenkins/plugins/xunit/tc11/TestCompleteInputMetric.java:218 | `endsWith`: the suffix is the tail of the text; CheckFilterPattern uses it |
| JavaLang.Contains | src/main/java/jenkins/plugins/xunit/tc11/TestCompleteInputMetric.java:166 | `contains`: the text occurs at some position; IsSelected uses it |
| JavaLang.LastIndexOf | src/main/java/jenkins/plugins/xunit/tc11/json/TCLogItem.java:90 | `lastIndexOf`: a position of the character, -1 iff it does not occur |
| JavaLang.LastIndexOfLast | src/main/java/jenkins/plugins/xunit/tc11/json/TCLogItem.java:90 | no occurrence of the character follows the position lastIndexOf returns |
| JavaLang.IndexOfString | src/main/java/jenkins/plugins/xunit/tc11/json/TCLogProviderItem.java:69 | `indexOf(String)`: the first occurrence, or -1 iff there is none |
| JavaLang.Substring | src/main/java/jenkins/plugins/xunit/tc11/TestCompleteInputMetric.java:255 | `substring(begin, end)` succeeds iff 0 <= begin <= end <= length, and otherwise throws StringIndexOutOfBoundsException |
| JavaLang.Trim | src/main/java/jenkins/plugins/xunit/tc11/TestCompleteInputMetric.java:265 | `trim()` is empty iff every character is at or below the space; otherwise it starts and ends above the space; it is a slice of the input with only characters at or below the space before and after it; text already trimmed is unchanged |
| JavaLang.ToLower | src/main/java/jenkins/plugins/xunit/tc11/json/TCLogItem.java:90 | `toLowerCase` keeps the length |
| JavaLang.ToInt32 | src/main/java/jenkins/plugins/xunit/tc11/json/TCLogProviderItem.java:75 | `getInt` keeps the low 32 bits: the value in the int range congruent to the number, the number itself when it fits |
| JavaLang.ToInt64 | src/main/java/jenkins/plugins/xunit/tc11/json/TCLogItem.java:144 | `getLong` keeps the low 64 bits in the same way |
| JavaLang.Rem | src/main/java/jenkins/plugins/xunit/tc11/json/TCLogProviderItem.java:75 | Java's `%`: the remainder takes the sign of the dividend |
| JavaLang.Div | src/main/java/jenkins/plugins/xunit/tc11/TestCompleteInputMetric.java:291 | Java's `/` on a positive divisor: quotient times divisor plus Java's `%` is the dividend |
| JavaLang.DecimalString | src/main/java/jenkins/plugins/xunit/tc11/json/TCLogItem.java:136 | `Integer.toString`: a '-' exactly for negative numbers, then only digits |
| JavaLang.DigitsHaveValue | src/main/java/jenkins/plugins/xunit/tc11/json/TCLogItem.java:136 | the digits written for a natural number stand for that number |
| JavaLang.DecimalStringValue | src/main/java/jenkins/plugins/xunit/tc11/json/TCLogItem.java:136 | the numeral `Integer.toString` writes stands for n: the digits after the sign are the magnitude, and reading the numeral back gives n |
| JavaLang.DecimalStringInjective | src/main/java/jenkins/plugins/xunit/tc11/json/TCLogItem.java:136 | two numbers with the same decimal text are equal |
| Json.GetString | src/main/java/jenkins/plugins/xunit/tc11/json/TCLogItem.java:76 | `getString` succeeds iff the key holds a string, and otherwise throws JSONException |
| Json.GetInt | src/main/java/jenkins/plugins/xunit/tc11/json/TCLogItem.java:79 | `getInt` succeeds iff the key holds a number, giving its low 32 bits |
| Json.GetLong | src/main/java/jenkins/plugins/xunit/tc11/json/TCLogItem.java:144 | `getLong` succeeds iff the key holds a number, giving its low 64 bits |
| Json.GetBoolean | src/main/java/jenkins/plugins/xunit/tc11/json/TCLogItem.java:120 | `getBoolean` succeeds iff the key holds a boolean |
| Json.GetObject | src/main/java/jenkins/plugins/xunit/tc11/json/TCLogItem.java:119 | `getJSONObject` succeeds iff the key holds an object |
| Json.GetArray | src/main/java/jenkins/plugins/xunit/tc11/json/TCLogItem.java:85 | `getJSONArray` succeeds iff the key holds an array |
| Json.OptArray | src/main/java/jenkins/plugins/xunit/tc11/json/TCLogItem.java:126 | `optJSONArray` is the array, or null for anything else |
| Json.OptObject | src/main/java/jenkins/plugins/xunit/tc11/json/TCLogItem.java:87 | `optJSONObject(i)` is the object at i, or null out of range or for a non-object |
| Json.ParseObject | src/main/java/jenkins/plugins/xunit/tc11/json/TCLogItem.java:105 | `new JSONObject(text)` succeeds iff the text parses to an object |
| Converter.InputMetric.constructor | src/main/java/jenkins/plugins/xunit/tc11/TestCompleteInputMetric.java:98 | the filter pattern starts out empty |
| ProviderDocuments.AfterComma | src/main/java/jenkins/plugins/xunit/tc11/json/TCLogItem.java:104 | the text after the first `,`, or all of it when it has none |
| JavaLang.ToLowerAt | src/main/java/jenkins/plugins/xunit/tc11/json/TCLogItem.java:90 | each character is lowered on its own |
| LogTree.BuildNodeOutcome | src/main/java/jenkins/plugins/xunit/tc11/json/TCLog.java:36-110 | errors come in the program's order: the fields first, then the children, then the providers; success is the node with its fields, children and providers |
| LogTree.TCLog.ReadChildren | src/main/java/jenkins/plugins/xunit/tc11/json/TCLog.java:62-74 | the children key read and built into fresh nodes, or the error `ChildrenOf` gives |
| LogTree.TCLog.ReadProviders | src/main/java/jenkins/plugins/xunit/tc11/json/TCLog.java:75-84 | the providers key read and built into fresh nodes, or the error `ProvidersOf` gives |
| LogTree.TCLog.Finish | src/main/java/jenkins/plugins/xunit/tc11/json/TCLog.java:85-109 | attaching the built nodes and running the provider scan leave the object holding the node value, its footprint the object and the nodes below |

## Left out

- JavaLang.ToLower: only ASCII letters are lowered. Java lowers all of Unicode: with `Locale.ENGLISH` at src/main/java/jenkins/plugins/xunit/tc11/json/TCLogItem.java:90 and 175, and with the default locale at TCLogTestItem.java:89 and TCLog.java:93. So a file name with "Ä", or a Turkish-locale 'I', can be looked up differently in Java.
- Converter.ExtractFiles: `createNewFile` throws `IOException` for an entry name with a directory part whose directory does not exist; the model stores every selected name. Temporary-directory creation and deletion, and stream copying, are file-system I/O and are not modelled.
- Converter.ConvertJson: a failing `FileWriter`, a partial write and the `IOException` that is logged and swallowed (TestCompleteInputMetric.java:315-318) are not modelled. Neither is `readJSONFile` failing (lines 252 and 259-262); the root file's content is taken as read.
- Converter.Suite: `convertJson` (TestCompleteInputMetric.java:267-305) calls `new TCLog(jsonData, inputTempDir)`, `getTestCount`, `getFailures`, `getTimeStamp`, `duration` and `getTCLogItems` on a `TCLog`, and `getState` on a `TCLogItem`. None of these exists in the `json.TCLog` and `json.TCLogItem` classes imported at lines 56-57: `TCLog` has only the one-argument constructor `TCLog(JSONObject)`, and `TCLogItem` has no `getState`. Their values enter as the `Suite` and `ReportItem` inputs, so what that constructor would do or how it would fail is not modelled.
- ProviderDocuments.ResolveDocument: a provider file found among the extracted files is always read. The constructors catch read errors and rethrow them as `ConversionException("File '<name>' not found.")` for a `FileNotFoundException` and `ConversionException("File '<name>' can not be read.")` for any other `IOException`. This happens at TCLogItem.java:158-162 (own providers), TCLogItem.java:213-217 (parent providers) and TCLogTestItem.java:135-139. Those two failures are file-system I/O and are not modelled; the only read failure modelled is the "No entry" one for a name missing from the directory.
- Converter.InputMetric.Convert: the filter pattern is stored in a parameter map that nothing reads. That map, and the `Logger` call, are left out; the pattern check is modelled.
- Json.GetString, Json.GetInt, Json.GetLong, Json.GetBoolean: org.json's coercions are not modelled. Those are a number read from a string and a string read from any value. The model fails on a wrongly typed value instead.
- Json.ParseObject: the JSON grammar is the `Parser` parameter; duplicate keys and number precision are whatever it yields.
- MyUtils.Calendar: `SimpleDateFormat`'s parsing and formatting, its time zone and its leniency are uninterpreted functions.
- LogTree.TCLog.SetTree: the reordering by `ArrayUtil.splice` (TCLog.java:102-108) is not modelled. It reorders a local copy of the provider array, which is then dropped, so `providers_` keeps its order; only the `addChildren` call that hands the performance-counters provider to the first provider of that copy would change the tree. It is unreachable: the cast at line 90 always throws first (see Findings). `ArrayUtil` is not part of this model.
- LogTree.TCLog.SetChildren, LogTree.TCLog.SetProviders, LogTree.TCLog.AddChildren: they require that the node is not below its new children. So a tree made cyclic through the setters, which Java allows, is not modelled.
- LogTree.TCLog.SetStatus: `status_` is a boxed `Integer` that could be `null`; the model keeps an `int`, since `setTCLog` always stores a number.
- TestItem.NewTestItem: the `providerItem` parameter of the `TCLogTestItem` constructor is never read, so it is not modelled.
- The MHT/MIME reader (`MHTInputStream`) is not part of this model; its output is the `Entry` sequence.
- `TCLogTree`, XSD validation of the result, and the tool name and version getters are left out: they do not take part in the conversion.

## Findings

| source | as written | input that shows it | evidently intended | confidence | as-written member | corrected member |
|---|---|---|---|---|---|---|
| src/main/java/jenkins/plugins/xunit/tc11/json/TCLog.java:90 | `(TCLog[])this.getProviders().toArray()` casts the `Object[]` that `ArrayList.toArray()` returns, which throws `ClassCastException`, so `setTCLog` never completes | any object the tree can be built from, e.g. `{}` | a typed array, `toArray(new TCLog[0])`, so that the provider scan and reordering run | high, not executed | LogTree.SetTCLogAsWritten, LogTree.CastAlwaysFails | LogTree.BuildNode, LogTree.TCLog.SetTCLog |
