/** TCLogProviderItem: one row of a provider table, computed once from its JSON
    object. Every String field of the Java object is nullable, so each is an
    Option here; `id` is declared but never assigned. */
module ProviderItem {
  import opened Wrappers
  import opened JavaLang
  import opened Json
  import opened MyUtils

  datatype ProviderItem = ProviderItem(
    name: Option<string>,
    id: Option<string>,
    testItemId: Option<string>,
    startTime: Option<string>,
    endTime: Option<string>,
    runTime: int)

  /** The object a null JSON object leaves behind: Java's field defaults. */
  const NULL_ITEM: ProviderItem := ProviderItem(None, None, None, None, None, 0)

  // ---------------------------------------------------------------- Details

  /** str.substring(str.indexOf("('") + 2, str.indexOf("')")). A missing "('"
      makes the begin index 1; a missing "')" makes the end index -1, which
      throws. */
  function DetailsId(details: string): (r: Result<string, Exception>)
    ensures r.Success? <==> 0 <= IndexOfString(details, "('") + 2 <= IndexOfString(details, "')")
    ensures r.Success? ==> r.value == details[IndexOfString(details, "('") + 2..IndexOfString(details, "')")]
    ensures IndexOfString(details, "')") == -1 ==> r == Failure(StringIndexOutOfBoundsException)
    ensures r.Failure? ==> r.error == StringIndexOutOfBoundsException
    ensures r.Success? ==> OccursAt(details, "')", |details| - |details[IndexOfString(details, "')")..]|)
    ensures r.Success? ==> EndsWith(details[..IndexOfString(details, "')")], r.value)
    ensures r.Success? && IndexOfString(details, "('") >= 0 ==>
              details[..IndexOfString(details, "')")] == details[..IndexOfString(details, "('")] + "('" + r.value
  {
    var begin := IndexOfString(details, "('") + 2;
    var end := IndexOfString(details, "')");
    var id := Substring(details, begin, end);
    if id.Success? then IdBeforeClosing(details, begin, end); id else id
  }

  /** The text cut out before a "')" ends it, and follows the "('" it starts
      after, when there is one. */
  lemma IdBeforeClosing(details: string, begin: int, end: int)
    requires 0 <= begin <= end <= |details|
    requires begin >= 2 ==> OccursAt(details, "('", begin - 2)
    ensures EndsWith(details[..end], details[begin..end])
    ensures begin >= 2 ==> details[..end] == details[..begin - 2] + "('" + details[begin..end]
  {
    if begin >= 2 {
      assert details[begin - 2..begin] == "('";
      assert details[..end] == details[..begin - 2] + details[begin - 2..begin] + details[begin..end];
    }
  }

  /** An occurrence with none before it is the one indexOf finds. */
  lemma FirstOccurrenceIsFound(s: string, t: string, p: int)
    requires |t| > 0 && OccursAt(s, t, p)
    requires forall k :: 0 <= k < p ==> !OccursAt(s, t, k)
    ensures IndexOfString(s, t) == p
  {
  }

  /** The anchor TestComplete writes into Details: an onclick call whose
      argument is the test item id in quotes. */
  function DetailsLink(prefix: string, itemId: string, suffix: string): string
  {
    prefix + "('" + itemId + "')" + suffix
  }

  /** The id in a Details anchor is recovered exactly, whatever follows it, as
      long as no quote comes before it and the id holds no quote or ')'. */
  lemma DetailsIdOfLink(prefix: string, itemId: string, suffix: string)
    requires '\'' !in prefix && '\'' !in itemId && ')' !in itemId
    ensures DetailsId(DetailsLink(prefix, itemId, suffix)) == Success(itemId)
  {
    var s := DetailsLink(prefix, itemId, suffix);
    var p := |prefix|;
    var e := p + 2 + |itemId|;
    OpeningFound(prefix, itemId, suffix);
    ClosingFound(prefix, itemId, suffix);
    LinkIdSlice(prefix, itemId, suffix);
    assert s[p + 2..e] == itemId;
    DetailsIdBetween(s, p, e);
  }

  /** With "('" first found at p and "')" at e, the id is what lies between. */
  lemma DetailsIdBetween(details: string, p: int, e: int)
    requires IndexOfString(details, "('") == p && IndexOfString(details, "')") == e && 0 <= p + 2 <= e
    ensures DetailsId(details) == Success(details[p + 2..e])
  {
  }

  /** The id sits right after the "('" of the anchor. */
  lemma LinkIdSlice(prefix: string, itemId: string, suffix: string)
    ensures DetailsLink(prefix, itemId, suffix)[|prefix| + 2..|prefix| + 2 + |itemId|] == itemId
  {
    var s := DetailsLink(prefix, itemId, suffix);
    assert s == (prefix + "('") + itemId + ("')" + suffix);
  }

  /** The "('" of the anchor is the first one. */
  lemma OpeningFound(prefix: string, itemId: string, suffix: string)
    requires '\'' !in prefix
    ensures IndexOfString(DetailsLink(prefix, itemId, suffix), "('") == |prefix|
  {
    var s := DetailsLink(prefix, itemId, suffix);
    var p := |prefix|;
    assert s[..p] == prefix;
    assert s[p..p + 2] == "('";
    forall k | 0 <= k < p
      ensures !OccursAt(s, "('", k)
    {
      assert s[k + 1] != '\'' by {
        if k + 1 < p {
          assert s[k + 1] == prefix[k + 1];
        }
      }
      assert k + 2 <= |s| ==> s[k..k + 2][1] == s[k + 1];
    }
    FirstOccurrenceIsFound(s, "('", p);
  }

  /** The "')" closing the id is the first one. */
  lemma ClosingFound(prefix: string, itemId: string, suffix: string)
    requires '\'' !in prefix && '\'' !in itemId && ')' !in itemId
    ensures IndexOfString(DetailsLink(prefix, itemId, suffix), "')") == |prefix| + 2 + |itemId|
  {
    var s := DetailsLink(prefix, itemId, suffix);
    var p := |prefix|;
    var e := p + 2 + |itemId|;
    assert s[..p] == prefix;
    assert s[p..p + 2] == "('";
    assert s[p + 2..e] == itemId;
    assert s[e..e + 2] == "')";
    forall k | 0 <= k < e
      ensures !OccursAt(s, "')", k)
    {
      if k < p {
        assert s[k] == prefix[k];
        assert s[k] != '\'';
      } else if k == p {
        assert s[k + 1] == s[p..p + 2][1];
      } else if k == p + 1 {
        if |itemId| > 0 {
          assert s[k + 1] == s[p + 2..e][0];
          assert s[k + 1] != ')';
        } else {
          assert s[k + 1] == s[e..e + 2][0];
        }
      } else {
        assert s[k] == itemId[k - p - 2];
        assert s[k] != '\'';
      }
      assert k + 2 <= |s| ==> s[k..k + 2][0] == s[k] && s[k..k + 2][1] == s[k + 1];
    }
    FirstOccurrenceIsFound(s, "')", e);
  }

  // ---------------------------------------------------------------- times

  /** The private convertTc2DateTime(String, int): the text re-rendered as
      yyyy-MM-dd hh:mm:ss with "." and the decimal of the given milliseconds
      appended, or "" when the text cannot be read. */
  function ProviderTime(cal: Calendar, text: Option<string>, millis: int): (r: string)
    ensures r == "" <==> ParsedMillis(cal, text).None?
    ensures text == None || text == Some("") ==> r == ""
    ensures text.Some? && Classify(text.value) == None ==> r == ""
    ensures r != "" ==> EndsWith(r, "." + DecimalString(millis))
    ensures r != "" ==> r[..|r| - |DecimalString(millis)| - 1] == cal.formatSeconds(ParsedMillis(cal, text).value)
  {
    match ParsedMillis(cal, text)
    case None => ""
    case Some(ms) =>
      DottedSplit(cal.formatSeconds(ms), DecimalString(millis));
      cal.formatSeconds(ms) + "." + DecimalString(millis)
  }

  /** head + "." + tail ends with "." + tail, and what precedes that is head. */
  lemma DottedSplit(head: string, tail: string)
    ensures EndsWith(head + "." + tail, "." + tail)
    ensures (head + "." + tail)[..|head + "." + tail| - |tail| - 1] == head
  {
    var r := head + "." + tail;
    assert r == head + ("." + tail);
  }

  /** A StartTime or EndTime entry: "" when the key is absent, otherwise the
      converted "text" with "." and getInt("msec") % 1000 appended. */
  function TimeField(cal: Calendar, o: Object, key: string): (r: Result<string, Exception>)
    ensures key !in o ==> r == Success("")
    ensures r.Success? <==>
              key !in o ||
              (o[key].JObj? && GetString(o[key].fields, "text").Success? && GetInt(o[key].fields, "msec").Success?)
    ensures r.Success? && key in o ==>
              o[key].JObj? && "text" in o[key].fields && o[key].fields["text"].JStr? &&
              "msec" in o[key].fields && o[key].fields["msec"].JNum? &&
              r.value == ProviderTime(cal, Some(o[key].fields["text"].s), Rem(ToInt32(o[key].fields["msec"].n), 1000))
    ensures key in o && !o[key].JObj? ==> r == Failure(JSONException(key))
  {
    if key !in o then Success("")
    else
      var t :- GetObject(o, key);
      var text :- GetString(t, "text");
      var msec :- GetInt(t, "msec");
      Success(ProviderTime(cal, Some(text), Rem(msec, 1000)))
  }

  // ---------------------------------------------------------------- record

  /** The TCLogProviderItem constructor. */
  function FromJson(cal: Calendar, obj: Option<Object>): (r: Result<ProviderItem, Exception>)
    ensures obj.None? ==> r == Success(NULL_ITEM)
    ensures obj.Some? ==>
              (r.Success? <==>
                 && ("Name" !in obj.value || obj.value["Name"].JStr?)
                 && ("Details" !in obj.value ||
                       (obj.value["Details"].JStr? && DetailsId(obj.value["Details"].s).Success?))
                 && TimeField(cal, obj.value, "StartTime").Success?
                 && TimeField(cal, obj.value, "EndTime").Success?
                 && ("RunTime" !in obj.value ||
                       (obj.value["RunTime"].JObj? && GetInt(obj.value["RunTime"].fields, "msec").Success?)))
    ensures r.Success? && obj.Some? ==>
              && r.value.id.None?
              && r.value.name.Some? && r.value.testItemId.Some? && r.value.startTime.Some? && r.value.endTime.Some?
              && ("Name" !in obj.value ==> r.value.name == Some(""))
              && ("Name" in obj.value ==> obj.value["Name"] == JStr(r.value.name.value))
              && ("Details" !in obj.value ==> r.value.testItemId == Some(""))
              && ("Details" in obj.value ==>
                    obj.value["Details"].JStr? && DetailsId(obj.value["Details"].s) == Success(r.value.testItemId.value))
              && TimeField(cal, obj.value, "StartTime") == Success(r.value.startTime.value)
              && TimeField(cal, obj.value, "EndTime") == Success(r.value.endTime.value)
              && ("RunTime" !in obj.value ==> r.value.runTime == 0)
              && ("RunTime" in obj.value ==>
                    obj.value["RunTime"].JObj? && "msec" in obj.value["RunTime"].fields &&
                    obj.value["RunTime"].fields["msec"].JNum? &&
                    r.value.runTime == ToInt32(obj.value["RunTime"].fields["msec"].n))
  {
    match obj
    case None => Success(NULL_ITEM)
    case Some(o) =>
      var name :- if "Name" in o then GetString(o, "Name") else Success("");
      var testItemId :-
        if "Details" in o then
          var details :- GetString(o, "Details");
          DetailsId(details)
        else Success("");
      var startTime :- TimeField(cal, o, "StartTime");
      var endTime :- TimeField(cal, o, "EndTime");
      var runTime :-
        if "RunTime" in o then
          var rt :- GetObject(o, "RunTime");
          GetInt(rt, "msec")
        else Success(0);
      Success(ProviderItem(Some(name), None, Some(testItemId), Some(startTime), Some(endTime), runTime))
  }

  /** A converted StartTime or EndTime that is not empty ends with "." and the
      decimal of getInt("msec") % 1000, the remainder taking the sign of the
      32-bit value. */
  lemma ConvertedTimeEndsWithMillis(cal: Calendar, o: Object, key: string)
    requires TimeField(cal, o, key).Success? && TimeField(cal, o, key).value != ""
    ensures key in o && o[key].JObj? && "msec" in o[key].fields && o[key].fields["msec"].JNum?
    ensures EndsWith(TimeField(cal, o, key).value, "." + DecimalString(Rem(ToInt32(o[key].fields["msec"].n), 1000)))
  {
  }

  /** The epoch milliseconds of the sample StartTime exceed the int range, so
      getInt keeps only their low 32 bits and the appended part is "-126", not
      the "290" the value ends in. */
  lemma SampleStartTimeMillis(cal: Calendar, text: string)
    requires ParsedMillis(cal, Some(text)).Some?
    ensures EndsWith(ProviderTime(cal, Some(text), Rem(ToInt32(1484066920290), 1000)), ".-126")
  {
    assert ToInt32(1484066920290) == -1991764126;
    assert Rem(ToInt32(1484066920290), 1000) == -126;
    assert DecimalString(-126) == "-126";
  }
}
