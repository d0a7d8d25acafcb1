/** The date-text conversions of MyUtils and the private copy in
    TCLogProviderItem. Each routes its input to one of three SimpleDateFormat
    patterns by the shape of the text, tested with String.matches against three
    regular expressions in a fixed order. The parsing and formatting themselves
    depend on the locale and the time zone and are left uninterpreted: they are
    the fields of a Calendar value passed in. */
module MyUtils {
  import opened Wrappers
  import opened JavaLang

  /** The three input patterns the text can be routed to. */
  datatype DateFormat =
    | MonthFirstTwelveHour  // MM/dd/yyyy hh:mm:ss aa
    | DayFirstSlash         // dd/MM/yyyy HH:mm:ss
    | DayFirstDot           // dd.MM.yyyy hh:mm:ss

  /** SimpleDateFormat in the running locale and time zone: `parse` reads a text
      in a pattern to epoch milliseconds (None for a ParseException),
      `formatMillis` renders epoch milliseconds as yyyy-MM-dd hh:mm:ss.SSS and
      `formatSeconds` as yyyy-MM-dd hh:mm:ss. */
  datatype Calendar = Calendar(
    parse: (DateFormat, string) -> Option<int>,
    formatMillis: int -> string,
    formatSeconds: int -> string)

  /** s matches [0-9]+ followed, for each separator of seps in turn, by that
      separator and [0-9]+. Separators are never digits. */
  predicate DigitGroups(s: string, seps: string)
    decreases |s|
  {
    && |s| > 0
    && IsDigit(s[0])
    && if |s| == 1 then seps == []
       else if IsDigit(s[1]) then DigitGroups(s[1..], seps)
       else seps != [] && s[1] == seps[0] && DigitGroups(s[2..], seps[1..])
  }

  /** The separators of [0-9]+/[0-9]+/[0-9]+ [0-9]+:[0-9]+:[0-9]+ */
  const SLASH_SEPARATORS: string := "// ::"
  /** The separators of [0-9]+\.[0-9]+\.[0-9]+ [0-9]+:[0-9]+:[0-9]+ */
  const DOT_SEPARATORS: string := ".. ::"

  /** String.matches with "[0-9]+/[0-9]+/[0-9]+ [0-9]+:[0-9]+:[0-9]+ PM|AM$".
      The alternation binds loosest, so the whole text must either be a slash
      timestamp followed by " PM", or be exactly "AM". */
  predicate MatchesTwelveHour(s: string)
  {
    || s == "AM"
    || (|s| >= 3 && s[|s| - 3..] == " PM" && DigitGroups(s[..|s| - 3], SLASH_SEPARATORS))
  }

  /** String.matches with "[0-9]+/[0-9]+/[0-9]+ [0-9]+:[0-9]+:[0-9]+$". */
  predicate MatchesDayFirstSlash(s: string)
  {
    DigitGroups(s, SLASH_SEPARATORS)
  }

  /** String.matches with "[0-9]+\\.[0-9]+\\.[0-9]+ [0-9]+:[0-9]+:[0-9]+$". */
  predicate MatchesDayFirstDot(s: string)
  {
    DigitGroups(s, DOT_SEPARATORS)
  }

  /** The shape routing shared by every converter: the first pattern whose
      expression matches the whole text, or None. */
  function Classify(s: string): (r: Option<DateFormat>)
    ensures r == Some(MonthFirstTwelveHour) <==> MatchesTwelveHour(s)
    ensures r == Some(DayFirstSlash) <==> MatchesDayFirstSlash(s) && !MatchesTwelveHour(s)
    ensures r == Some(DayFirstDot) <==> MatchesDayFirstDot(s) && !MatchesTwelveHour(s) && !MatchesDayFirstSlash(s)
    ensures r == None <==> !MatchesTwelveHour(s) && !MatchesDayFirstSlash(s) && !MatchesDayFirstDot(s)
  {
    if MatchesTwelveHour(s) then Some(MonthFirstTwelveHour)
    else if MatchesDayFirstSlash(s) then Some(DayFirstSlash)
    else if MatchesDayFirstDot(s) then Some(DayFirstDot)
    else None
  }

  /** The epoch milliseconds a text denotes, when it is non-null, non-empty,
      has one of the three shapes and parses in the pattern of that shape. */
  function ParsedMillis(cal: Calendar, input: Option<string>): (r: Option<int>)
    ensures r.Some? ==> input.Some? && input.value != "" && Classify(input.value).Some?
    ensures r.Some? ==> r == cal.parse(Classify(input.value).value, input.value)
    ensures input.Some? && input.value != "" && Classify(input.value).Some? ==>
              r == cal.parse(Classify(input.value).value, input.value)
  {
    if input.None? || input.value == "" then None
    else match Classify(input.value)
      case None => None
      case Some(f) => cal.parse(f, input.value)
  }

  /** MyUtils.convertTc2DateTime(String): the text re-rendered as
      yyyy-MM-dd hh:mm:ss.SSS, or "" when it cannot be read. */
  function ConvertTc2DateTime(cal: Calendar, input: Option<string>): (r: string)
    ensures input == None || input == Some("") ==> r == ""
    ensures input.Some? && Classify(input.value) == None ==> r == ""
    ensures ParsedMillis(cal, input).Some? ==> r == cal.formatMillis(ParsedMillis(cal, input).value)
    ensures ParsedMillis(cal, input).None? ==> r == ""
  {
    match ParsedMillis(cal, input)
    case None => ""
    case Some(ms) => cal.formatMillis(ms)
  }

  /** MyUtils.convertTcDateTime2MillSec: the epoch milliseconds of the text, or
      0 when it cannot be read. */
  function ConvertTcDateTime2MillSec(cal: Calendar, input: Option<string>): (r: int)
    ensures input == None || input == Some("") ==> r == 0
    ensures input.Some? && Classify(input.value) == None ==> r == 0
    ensures ParsedMillis(cal, input).Some? ==> r == ParsedMillis(cal, input).value
    ensures ParsedMillis(cal, input).None? ==> r == 0
  {
    match ParsedMillis(cal, input)
    case None => 0
    case Some(ms) => ms
  }

  /** MyUtils.convertTc2DateTime(long): epoch milliseconds as yyyy-MM-dd hh:mm:ss.SSS. */
  function ConvertMillis2DateTime(cal: Calendar, msec: int): string
  {
    cal.formatMillis(msec)
  }

  /** Every character of a text with the digit-group shape is a digit or one
      of the separators. */
  lemma {:induction false} DigitGroupsAlphabet(s: string, seps: string)
    requires DigitGroups(s, seps)
    ensures forall k :: 0 <= k < |s| ==> IsDigit(s[k]) || s[k] in seps
    decreases |s|
  {
    if |s| > 1 {
      if IsDigit(s[1]) {
        DigitGroupsAlphabet(s[1..], seps);
        assert forall k :: 1 <= k < |s| ==> s[k] == s[1..][k - 1];
      } else {
        DigitGroupsAlphabet(s[2..], seps[1..]);
        assert forall k :: 2 <= k < |s| ==> s[k] == s[2..][k - 2];
      }
    }
  }

  /** A text holding a character that is neither a digit nor a separator does
      not have the digit-group shape. */
  lemma ForeignCharacterBreaksShape(s: string, seps: string, k: int)
    requires 0 <= k < |s| && !IsDigit(s[k]) && s[k] !in seps
    ensures !DigitGroups(s, seps)
  {
    if DigitGroups(s, seps) {
      DigitGroupsAlphabet(s, seps);
    }
  }

  /** Two digit-group shapes that both match a text share their first separator. */
  lemma {:induction false} DigitGroupsFirstSeparator(s: string, seps1: string, seps2: string)
    requires DigitGroups(s, seps1) && DigitGroups(s, seps2)
    requires seps1 != [] && seps2 != []
    ensures seps1[0] == seps2[0]
    decreases |s|
  {
    if |s| > 1 && IsDigit(s[1]) {
      DigitGroupsFirstSeparator(s[1..], seps1, seps2);
    }
  }

  /** The three shapes exclude one another, so the order in which they are
      tested never changes which pattern a text is routed to. */
  lemma ShapesAreExclusive(s: string)
    ensures !(MatchesTwelveHour(s) && MatchesDayFirstSlash(s))
    ensures !(MatchesTwelveHour(s) && MatchesDayFirstDot(s))
    ensures !(MatchesDayFirstSlash(s) && MatchesDayFirstDot(s))
  {
    if MatchesTwelveHour(s) {
      ForeignCharacterBreaksShape(s, SLASH_SEPARATORS, |s| - 1);
      ForeignCharacterBreaksShape(s, DOT_SEPARATORS, |s| - 1);
    }
    if MatchesDayFirstSlash(s) && MatchesDayFirstDot(s) {
      DigitGroupsFirstSeparator(s, SLASH_SEPARATORS, DOT_SEPARATORS);
    }
  }

  /** A complete slash timestamp ending in " AM" matches none of the three
      expressions: both converters give their empty result for it, while the
      same text ending in " PM" is read as MM/dd/yyyy hh:mm:ss aa. */
  lemma MorningTimestampsMatchNoShape(stamp: string)
    requires DigitGroups(stamp, SLASH_SEPARATORS)
    ensures Classify(stamp + " AM") == None
    ensures Classify(stamp + " PM") == Some(MonthFirstTwelveHour)
    ensures forall cal :: ConvertTc2DateTime(cal, Some(stamp + " AM")) == ""
    ensures forall cal :: ConvertTcDateTime2MillSec(cal, Some(stamp + " AM")) == 0
  {
    var am := stamp + " AM";
    var pm := stamp + " PM";
    assert pm[..|pm| - 3] == stamp;
    assert pm[|pm| - 3..] == " PM";
    assert am[|am| - 3..] == " AM";
    ForeignCharacterBreaksShape(am, SLASH_SEPARATORS, |am| - 1);
    ForeignCharacterBreaksShape(am, DOT_SEPARATORS, |am| - 1);
  }

  /** Both converters route a text to the same pattern, so the text rendering
      and the milliseconds come from one parse: either both are their empty
      defaults or the text is the rendering of the milliseconds. */
  lemma ConvertersAgree(cal: Calendar, input: Option<string>)
    ensures ParsedMillis(cal, input).None? ==>
              ConvertTc2DateTime(cal, input) == "" && ConvertTcDateTime2MillSec(cal, input) == 0
    ensures ParsedMillis(cal, input).Some? ==>
              ConvertTc2DateTime(cal, input) == cal.formatMillis(ConvertTcDateTime2MillSec(cal, input))
  {
  }
}
