/** TCLogItem: the test record of one log node. The node itself gives name,
    status and id; the documents of its own providers give caption, message,
    additional info, call stack, test time and type through their first item;
    the documents of its parent's providers give the start, end and run times
    through every one of their items. Later documents and items overwrite what
    earlier ones set, except for the call stack, which accumulates. */
module LogItem {
  import opened Wrappers
  import opened JavaLang
  import opened Json
  import opened MyUtils
  import opened ProviderDocuments

  /** One entry of the call stack: the map with keys "Unit", "Line" and "Test". */
  datatype StackEntry = StackEntry(unit: string, line: string, test: string)

  /** The fields of a TCLogItem. startTime_ and endTime_ are the only String
      fields the constructor does not initialise, so they alone can stay null. */
  datatype LogItem = LogItem(
    name: string,
    status: int,
    id: string,
    message: string,
    testTimeInMilliSec: int,
    testTime: string,
    itemType: string,
    caption: string,
    info: string,
    runTime: int,
    endTimeInMilliSec: int,
    endTime: Option<string>,
    startTimeInMilliSec: int,
    startTime: Option<string>,
    callStack: seq<StackEntry>)

  /** The defaults, then name, status and id from the node when present. */
  function Header(o: Object): (r: Result<LogItem, Exception>)
    ensures r.Success? ==>
              && ("name" in o ==> o["name"] == JStr(r.value.name))
              && ("name" !in o ==> r.value.name == "")
              && ("status" in o ==> o["status"].JNum? && r.value.status == ToInt32(o["status"].n))
              && ("status" !in o ==> r.value.status == 0)
              && ("id" in o ==> o["id"] == JStr(r.value.id))
              && ("id" !in o ==> r.value.id == "")
              && r.value.caption == "" && r.value.itemType == "" && r.value.testTime == ""
              && r.value.message == "" && r.value.info == "" && r.value.callStack == []
              && r.value.testTimeInMilliSec == 0 && r.value.runTime == 0
              && r.value.startTime.None? && r.value.startTimeInMilliSec == 0
              && r.value.endTime.None? && r.value.endTimeInMilliSec == 0
    ensures r.Failure? <==>
              ("name" in o && !o["name"].JStr?) || ("status" in o && !o["status"].JNum?) ||
              ("id" in o && !o["id"].JStr?)
  {
    var name :- if "name" in o then GetString(o, "name") else Success("");
    var status :- if "status" in o then GetInt(o, "status") else Success(0);
    var id :- if "id" in o then GetString(o, "id") else Success("");
    Success(LogItem(name, status, id, "", 0, "", "", "", "", 0, 0, None, 0, None, []))
  }

  // ---------------------------------------------------------------- call stack

  /** The entry of one call-stack item: Unit is UnitName or "", Line the
      decimal text of getInt("LineNo"), Test is Test. */
  function StackEntryOf(js: Object): (r: Result<StackEntry, Exception>)
    ensures r.Success? <==>
              ("UnitName" !in js || js["UnitName"].JStr?) && GetInt(js, "LineNo").Success? && GetString(js, "Test").Success?
    ensures r.Success? ==>
              && ("UnitName" in js ==> js["UnitName"] == JStr(r.value.unit))
              && ("UnitName" !in js ==> r.value.unit == "")
              && r.value.line == DecimalString(GetInt(js, "LineNo").value)
              && js["Test"] == JStr(r.value.test)
  {
    var unit :- if "UnitName" in js then GetString(js, "UnitName") else Success("");
    var lineNo :- GetInt(js, "LineNo");
    var test :- GetString(js, "Test");
    Success(StackEntry(unit, DecimalString(lineNo), test))
  }

  /** The items of items[0].CallStack: getJSONObject("CallStack") followed by
      optJSONArray("items"), whose null result throws at length(). */
  function FrameItems(first: Object): (r: Result<seq<Json>, Exception>)
    ensures r.Success? <==> GetObject(first, "CallStack").Success? && OptArray(GetObject(first, "CallStack").value, "items").Some?
    ensures r.Success? ==> first["CallStack"].fields["items"] == JArr(r.value)
    ensures GetObject(first, "CallStack").Success? && OptArray(GetObject(first, "CallStack").value, "items").None? ==>
              r == Failure(NullPointerException)
  {
    var callStack :- GetObject(first, "CallStack");
    match OptArray(callStack, "items")
    case None => Failure(NullPointerException)
    case Some(items) => Success(items)
  }

  /** The call stack after the entries of the first n items were added to it;
      items that are not objects are skipped. */
  function CallStackAfter(stack: seq<StackEntry>, items: seq<Json>, n: nat): Result<seq<StackEntry>, Exception>
    requires n <= |items|
  {
    if n == 0 then Success(stack)
    else
      var prev :- CallStackAfter(stack, items, n - 1);
      match OptObject(items, n - 1)
      case None => Success(prev)
      case Some(js) =>
        var entry :- StackEntryOf(js);
        Success(prev + [entry])
  }

  /** Every object among the first n items carries what a stack entry needs. */
  predicate FramesReadable(items: seq<Json>, n: nat)
    requires n <= |items|
  {
    forall k :: 0 <= k < n && OptObject(items, k).Some? ==> StackEntryOf(OptObject(items, k).value).Success?
  }

  /** The call-stack loop fails exactly when one of its frame objects lacks a
      LineNo or Test of the right kind, or has a UnitName that is not a text;
      items that are not objects never make it fail. On success every frame
      object has added exactly one entry. */
  lemma {:induction false} CallStackAfterSucceeds(stack: seq<StackEntry>, items: seq<Json>, n: nat)
    requires n <= |items|
    ensures CallStackAfter(stack, items, n).Success? <==> FramesReadable(items, n)
    ensures CallStackAfter(stack, items, n).Success? ==>
              |stack| <= |CallStackAfter(stack, items, n).value| <= |stack| + n &&
              CallStackAfter(stack, items, n).value[..|stack|] == stack
  {
    if n > 0 {
      CallStackAfterSucceeds(stack, items, n - 1);
      var prev := CallStackAfter(stack, items, n - 1);
      if prev.Success? {
        if OptObject(items, n - 1).Some? && StackEntryOf(OptObject(items, n - 1).value).Success? {
          var next := prev.value + [StackEntryOf(OptObject(items, n - 1).value).value];
          assert next[..|stack|] == prev.value[..|stack|];
        }
      } else {
        assert !FramesReadable(items, n);
      }
    }
  }

  // ---------------------------------------------------------------- details

  /** "Message" is absent or a text. */
  predicate MessageReadable(first: Object)
  {
    "Message" !in first || first["Message"].JStr?
  }

  /** "AdditionalInfo" is absent, or an object with a boolean "isfilename"
      and, when that is false, a text "text". */
  predicate InfoReadable(first: Object)
  {
    "AdditionalInfo" !in first ||
    (&& first["AdditionalInfo"].JObj?
     && GetBoolean(first["AdditionalInfo"].fields, "isfilename").Success?
     && (GetBoolean(first["AdditionalInfo"].fields, "isfilename") == Success(false) ==>
           GetString(first["AdditionalInfo"].fields, "text").Success?))
  }

  /** "CallStack" is absent, or an object whose "items" array holds only
      readable frames. */
  predicate CallStackReadable(first: Object)
  {
    "CallStack" !in first ||
    (FrameItems(first).Success? && FramesReadable(FrameItems(first).value, |FrameItems(first).value|))
  }

  /** "Time" is absent, or an object with a number "msec" and a text "text". */
  predicate TimeReadable(first: Object)
  {
    "Time" !in first ||
    (first["Time"].JObj? && GetLong(first["Time"].fields, "msec").Success? && GetString(first["Time"].fields, "text").Success?)
  }

  /** "TypeDescription" is absent or a text. */
  predicate TypeReadable(first: Object)
  {
    "TypeDescription" !in first || first["TypeDescription"].JStr?
  }

  /** items[0] can be read without an exception. */
  predicate FirstItemReadable(first: Object)
  {
    MessageReadable(first) && InfoReadable(first) && CallStackReadable(first) && TimeReadable(first) && TypeReadable(first)
  }

  /** One of the node's own documents can be read without an exception: a
      text caption when present, an array of items when present, and a
      readable items[0] when that is an object. */
  predicate DetailsReadable(doc: Object)
  {
    && ("caption" !in doc || doc["caption"].JStr?)
    && ("items" !in doc || doc["items"].JArr?)
    && (FirstItem(doc).Some? ==> FirstItemReadable(FirstItem(doc).value))
  }

  /** What items[0] of one of the node's own documents does to the record:
      message and info are overwritten only when present (info only when it
      is not a file name), the call stack grows, and test time and type are
      always overwritten, with 0, "" and "" when absent. */
  function ApplyFirstItem(it: LogItem, first: Object): (r: Result<LogItem, Exception>)
    ensures r.Success? ==>
              && ("Message" in first ==> first["Message"] == JStr(r.value.message))
              && ("Message" !in first ==> r.value.message == it.message)
              && ("AdditionalInfo" in first ==>
                    first["AdditionalInfo"].JObj? && GetBoolean(first["AdditionalInfo"].fields, "isfilename").Success?)
              && ("AdditionalInfo" in first && GetBoolean(first["AdditionalInfo"].fields, "isfilename") == Success(false) ==>
                    GetString(first["AdditionalInfo"].fields, "text") == Success(r.value.info))
              && (!("AdditionalInfo" in first && GetBoolean(first["AdditionalInfo"].fields, "isfilename") == Success(false)) ==>
                    r.value.info == it.info)
              && ("CallStack" in first ==>
                    FrameItems(first).Success? &&
                    CallStackAfter(it.callStack, FrameItems(first).value, |FrameItems(first).value|) == Success(r.value.callStack))
              && ("CallStack" !in first ==> r.value.callStack == it.callStack)
              && ("Time" in first ==>
                    first["Time"].JObj? &&
                    GetLong(first["Time"].fields, "msec") == Success(r.value.testTimeInMilliSec) &&
                    GetString(first["Time"].fields, "text") == Success(r.value.testTime))
              && ("Time" !in first ==> r.value.testTimeInMilliSec == 0 && r.value.testTime == "")
              && r.value.itemType == StringOr(first, "TypeDescription", "")
              && ("TypeDescription" in first ==> first["TypeDescription"].JStr?)
              && r.value == it.(message := r.value.message, info := r.value.info, callStack := r.value.callStack,
                                testTimeInMilliSec := r.value.testTimeInMilliSec, testTime := r.value.testTime,
                                itemType := r.value.itemType)
    ensures r.Success? <==> FirstItemReadable(first)
  {
    var withMessage :- FirstMessage(it, first);
    var withInfo :- FirstInfo(withMessage, first);
    var withCallStack :- FirstCallStack(withInfo, first);
    var withTime :- FirstTime(withCallStack, first);
    FirstType(withTime, first)
  }

  /** "Message", when present, must be a string and becomes the message. */
  function FirstMessage(it: LogItem, first: Object): (r: Result<LogItem, Exception>)
    ensures r.Success? ==>
              && ("Message" in first ==> first["Message"] == JStr(r.value.message))
              && ("Message" !in first ==> r.value.message == it.message)
              && r.value == it.(message := r.value.message)
    ensures r.Success? <==> MessageReadable(first)
  {
    if "Message" in first then
      var message :- GetString(first, "Message");
      Success(it.(message := message))
    else Success(it)
  }

  /** "AdditionalInfo", when present, must be an object with a boolean
      "isfilename"; when that is false its "text" becomes the info. */
  function FirstInfo(it: LogItem, first: Object): (r: Result<LogItem, Exception>)
    ensures r.Success? ==>
              && ("AdditionalInfo" in first ==>
                    first["AdditionalInfo"].JObj? && GetBoolean(first["AdditionalInfo"].fields, "isfilename").Success?)
              && ("AdditionalInfo" in first && GetBoolean(first["AdditionalInfo"].fields, "isfilename") == Success(false) ==>
                    GetString(first["AdditionalInfo"].fields, "text") == Success(r.value.info))
              && (!("AdditionalInfo" in first && GetBoolean(first["AdditionalInfo"].fields, "isfilename") == Success(false)) ==>
                    r.value.info == it.info)
              && r.value == it.(info := r.value.info)
    ensures r.Success? <==> InfoReadable(first)
  {
    if "AdditionalInfo" in first then
      var additional :- GetObject(first, "AdditionalInfo");
      var isFileName :- GetBoolean(additional, "isfilename");
      if !isFileName then
        var text :- GetString(additional, "text");
        Success(it.(info := text))
      else Success(it)
    else Success(it)
  }

  /** "CallStack", when present, adds one entry per frame object. */
  function FirstCallStack(it: LogItem, first: Object): (r: Result<LogItem, Exception>)
    ensures r.Success? ==>
              && ("CallStack" in first ==>
                    FrameItems(first).Success? &&
                    CallStackAfter(it.callStack, FrameItems(first).value, |FrameItems(first).value|) == Success(r.value.callStack))
              && ("CallStack" !in first ==> r.value.callStack == it.callStack)
              && r.value == it.(callStack := r.value.callStack)
    ensures r.Success? <==> CallStackReadable(first)
  {
    if "CallStack" in first then
      var frames :- FrameItems(first);
      CallStackAfterSucceeds(it.callStack, frames, |frames|);
      var callStack :- CallStackAfter(it.callStack, frames, |frames|);
      Success(it.(callStack := callStack))
    else Success(it)
  }

  /** "Time", when present, gives the item time in milliseconds and as text;
      otherwise both are cleared. */
  function FirstTime(it: LogItem, first: Object): (r: Result<LogItem, Exception>)
    ensures r.Success? ==>
              && ("Time" in first ==>
                    first["Time"].JObj? &&
                    GetLong(first["Time"].fields, "msec") == Success(r.value.testTimeInMilliSec) &&
                    GetString(first["Time"].fields, "text") == Success(r.value.testTime))
              && ("Time" !in first ==> r.value.testTimeInMilliSec == 0 && r.value.testTime == "")
              && r.value == it.(testTimeInMilliSec := r.value.testTimeInMilliSec, testTime := r.value.testTime)
    ensures r.Success? <==> TimeReadable(first)
  {
    if "Time" in first then
      var time :- GetObject(first, "Time");
      var msec :- GetLong(time, "msec");
      var text :- GetString(time, "text");
      Success(it.(testTimeInMilliSec := msec, testTime := text))
    else Success(it.(testTimeInMilliSec := 0, testTime := ""))
  }

  /** "TypeDescription", when present, must be a string and becomes the item
      type; otherwise the type is cleared. */
  function FirstType(it: LogItem, first: Object): (r: Result<LogItem, Exception>)
    ensures r.Success? ==>
              && r.value.itemType == StringOr(first, "TypeDescription", "")
              && ("TypeDescription" in first ==> first["TypeDescription"].JStr?)
              && r.value == it.(itemType := r.value.itemType)
    ensures r.Success? <==> TypeReadable(first)
  {
    if "TypeDescription" in first then
      var itemType :- GetString(first, "TypeDescription");
      Success(it.(itemType := itemType))
    else Success(it.(itemType := ""))
  }

  /** What one of the node's own provider documents does to the record: the
      caption when present, then items[0] when it is an object. */
  function ApplyDetails(it: LogItem, doc: Object): (r: Result<LogItem, Exception>)
    ensures r.Success? ==> ("caption" in doc ==> doc["caption"] == JStr(r.value.caption))
    ensures r.Success? ==> ("caption" !in doc ==> r.value.caption == it.caption)
    ensures r.Success? && FirstItem(doc).None? ==> r.value == it.(caption := r.value.caption)
    ensures r.Success? && FirstItem(doc).Some? ==> ApplyFirstItem(it.(caption := r.value.caption), FirstItem(doc).value) == r
    ensures r.Success? <==> DetailsReadable(doc)
  {
    var caption :- if "caption" in doc then GetString(doc, "caption") else Success(it.caption);
    var captioned := it.(caption := caption);
    if "items" !in doc then Success(captioned)
    else
      var items :- GetArray(doc, "items");
      match OptObject(items, 0)
      case None => Success(captioned)
      case Some(first) => ApplyFirstItem(captioned, first)
  }

  /** The node's own name, status and id. */
  function Identity(it: LogItem): (string, int, string)
  {
    (it.name, it.status, it.id)
  }

  /** The record once the node's own providers have been read: name, status
      and id are the node's, whatever its documents hold. */
  function Details(dir: Directory, parse: Parser, obj: Object): (r: Result<LogItem, Exception>)
    ensures r.Success? ==> Header(obj).Success? && Identity(r.value) == Identity(Header(obj).value)
    ensures "providers" !in obj ==> r == Header(obj)
  {
    var header :- Header(obj);
    if "providers" in obj then
      var providers :- GetArray(obj, "providers");
      ApplyDocumentsKeeps(header, Documents(dir, parse, providers), |providers|, ApplyDetails, Identity);
      ApplyDocuments(header, Documents(dir, parse, providers), |providers|, ApplyDetails)
    else Success(header)
  }

  // ---------------------------------------------------------------- parent times

  /** A StartTime or EndTime object: the converted "text" and getLong("msec"). */
  function Stamp(cal: Calendar, t: Object): (r: Result<(string, int), Exception>)
    ensures r.Success? <==> GetString(t, "text").Success? && GetLong(t, "msec").Success?
    ensures r.Success? ==> r.value == (ConvertTc2DateTime(cal, Some(GetString(t, "text").value)), GetLong(t, "msec").value)
  {
    var text :- GetString(t, "text");
    var msec :- GetLong(t, "msec");
    Success((ConvertTc2DateTime(cal, Some(text)), msec))
  }

  /** The StartTime or EndTime under key is absent, or an object Stamp can read. */
  predicate StampReadable(js: Object, key: string)
  {
    key !in js ||
    (js[key].JObj? && GetString(js[key].fields, "text").Success? && GetLong(js[key].fields, "msec").Success?)
  }

  /** One item of a parent document can be read without an exception. */
  predicate TimesReadable(js: Object)
  {
    && StampReadable(js, "StartTime")
    && StampReadable(js, "EndTime")
    && ("RunTime" !in js || (js["RunTime"].JObj? && GetLong(js["RunTime"].fields, "msec").Success?))
  }

  /** What one item of a parent provider document does to the record: each of
      StartTime, EndTime and RunTime that is present overwrites its fields. */
  function ApplyTimes(cal: Calendar, it: LogItem, js: Object): (r: Result<LogItem, Exception>)
    ensures r.Success? ==>
              && ("StartTime" in js ==>
                    js["StartTime"].JObj? && r.value.startTime.Some? &&
                    Stamp(cal, js["StartTime"].fields) == Success((r.value.startTime.value, r.value.startTimeInMilliSec)))
              && ("StartTime" !in js ==> r.value.startTime == it.startTime && r.value.startTimeInMilliSec == it.startTimeInMilliSec)
              && ("EndTime" in js ==>
                    js["EndTime"].JObj? && r.value.endTime.Some? &&
                    Stamp(cal, js["EndTime"].fields) == Success((r.value.endTime.value, r.value.endTimeInMilliSec)))
              && ("EndTime" !in js ==> r.value.endTime == it.endTime && r.value.endTimeInMilliSec == it.endTimeInMilliSec)
              && ("RunTime" in js ==> js["RunTime"].JObj? && GetLong(js["RunTime"].fields, "msec") == Success(r.value.runTime))
              && ("RunTime" !in js ==> r.value.runTime == it.runTime)
              && r.value == it.(startTime := r.value.startTime, startTimeInMilliSec := r.value.startTimeInMilliSec,
                                endTime := r.value.endTime, endTimeInMilliSec := r.value.endTimeInMilliSec,
                                runTime := r.value.runTime)
    ensures r.Success? <==> TimesReadable(js)
  {
    var start :-
      if "StartTime" in js then
        var t :- GetObject(js, "StartTime");
        var stamp :- Stamp(cal, t);
        Success((Some(stamp.0), stamp.1))
      else Success((it.startTime, it.startTimeInMilliSec));
    var end :-
      if "EndTime" in js then
        var t :- GetObject(js, "EndTime");
        var stamp :- Stamp(cal, t);
        Success((Some(stamp.0), stamp.1))
      else Success((it.endTime, it.endTimeInMilliSec));
    var runTime :-
      if "RunTime" in js then
        var t :- GetObject(js, "RunTime");
        GetLong(t, "msec")
      else Success(it.runTime);
    Success(it.(startTime := start.0, startTimeInMilliSec := start.1,
                endTime := end.0, endTimeInMilliSec := end.1, runTime := runTime))
  }

  /** The loop over the items of a parent document: the record after the first
      n items, each object applied with f in turn; an item that is not an
      object throws a NullPointerException at has(). */
  function ScanItems<T>(start: T, items: seq<Json>, n: nat, f: (T, Object) -> Result<T, Exception>): Result<T, Exception>
    requires n <= |items|
  {
    if n == 0 then Success(start)
    else
      var prev :- ScanItems(start, items, n - 1, f);
      match OptObject(items, n - 1)
      case None => Failure(NullPointerException)
      case Some(js) => f(prev, js)
  }

  /** When f succeeds exactly on the items satisfying ok, whatever the record
      so far, the item loop succeeds exactly when each of the first n items is
      an object satisfying ok. */
  lemma {:induction false} ScanItemsSucceeds<T>(start: T, items: seq<Json>, n: nat,
                                                f: (T, Object) -> Result<T, Exception>, ok: Object -> bool)
    requires n <= |items|
    requires forall prev, js :: f(prev, js).Success? == ok(js)
    ensures ScanItems(start, items, n, f).Success? <==>
              forall k :: 0 <= k < n ==> OptObject(items, k).Some? && ok(OptObject(items, k).value)
  {
    if n > 0 {
      ScanItemsSucceeds(start, items, n - 1, f, ok);
    }
  }

  /** ApplyTimes with the calendar fixed, as the item loop applies it. */
  function Times(cal: Calendar): (T: (LogItem, Object) -> Result<LogItem, Exception>)
  {
    (it: LogItem, js: Object) => ApplyTimes(cal, it, js)
  }

  /** The record after the first n items of a parent document. */
  function ApplyItemTimes(cal: Calendar, it: LogItem, items: seq<Json>, n: nat): Result<LogItem, Exception>
    requires n <= |items|
  {
    ScanItems(it, items, n, Times(cal))
  }

  /** One parent document can be read without an exception: "items" is
      absent, or an array of readable objects. */
  predicate TimingReadable(doc: Object)
  {
    "items" !in doc ||
    (doc["items"].JArr? &&
     forall k :: 0 <= k < |doc["items"].elems| ==>
       OptObject(doc["items"].elems, k).Some? && TimesReadable(OptObject(doc["items"].elems, k).value))
  }

  /** What one parent provider document does to the record: every item of its
      "items" array in turn. */
  function ApplyTimingDocument(cal: Calendar, it: LogItem, doc: Object): (r: Result<LogItem, Exception>)
    ensures r.Success? <==> TimingReadable(doc)
    ensures "items" !in doc ==> r == Success(it)
  {
    if "items" in doc then
      var items :- GetArray(doc, "items");
      assert forall prev, js :: Times(cal)(prev, js).Success? == TimesReadable(js);
      ScanItemsSucceeds(it, items, |items|, Times(cal), TimesReadable);
      ApplyItemTimes(cal, it, items, |items|)
    else Success(it)
  }

  /** ApplyTimingDocument with the calendar fixed, as the parent loop applies it. */
  function Timing(cal: Calendar): (T: (LogItem, Object) -> Result<LogItem, Exception>)
  {
    (it: LogItem, doc: Object) => ApplyTimingDocument(cal, it, doc)
  }

  /** The else branch: no parent, or a parent without providers. */
  function WithoutParentTimes(cal: Calendar, it: LogItem): (r: LogItem)
  {
    it.(startTime := Some(it.testTime),
        startTimeInMilliSec := ConvertTcDateTime2MillSec(cal, Some(it.testTime)),
        runTime := 0)
  }

  /** The TCLogItem constructor: name, status and id are the node's own,
      whatever its documents and its parent's hold. */
  function BuildLogItem(dir: Directory, parse: Parser, cal: Calendar, parent: Option<Object>, obj: Object): (r: Result<LogItem, Exception>)
    ensures r.Success? ==> Header(obj).Success? && Identity(r.value) == Identity(Header(obj).value)
    ensures Details(dir, parse, obj).Failure? ==> r == Details(dir, parse, obj)
  {
    var details :- Details(dir, parse, obj);
    if parent.Some? && "providers" in parent.value then
      var providers :- GetArray(parent.value, "providers");
      var r := ApplyDocuments(details, Documents(dir, parse, providers), |providers|, Timing(cal));
      if r.Success? then
        TimingKeepsDetails(cal, details, Documents(dir, parse, providers), |providers|);
        r
      else r
    else Success(WithoutParentTimes(cal, details))
  }

  /** The node's own providers are read without an exception exactly when the
      node's fields have the right kinds, "providers" (when present) is an
      array, and every provider can be read into a readable document. */
  lemma DetailsSucceeds(dir: Directory, parse: Parser, obj: Object)
    ensures Details(dir, parse, obj).Success? <==>
              && Header(obj).Success?
              && ("providers" in obj ==>
                    obj["providers"].JArr? && ProvidersReadable(dir, parse, obj["providers"].elems, DetailsReadable))
  {
    if Header(obj).Success? && "providers" in obj && obj["providers"].JArr? {
      ProvidersApplied(Header(obj).value, dir, parse, obj["providers"].elems, ApplyDetails, DetailsReadable);
    }
  }

  /** The TCLogItem constructor completes exactly when the node's own
      providers are read (DetailsSucceeds) and, when the parent has providers,
      they form an array whose every document can be read as timing. */
  lemma BuildLogItemSucceeds(dir: Directory, parse: Parser, cal: Calendar, parent: Option<Object>, obj: Object)
    ensures BuildLogItem(dir, parse, cal, parent, obj).Success? <==>
              && Details(dir, parse, obj).Success?
              && (parent.Some? && "providers" in parent.value ==>
                    parent.value["providers"].JArr? &&
                    ProvidersReadable(dir, parse, parent.value["providers"].elems, TimingReadable))
  {
    var details := Details(dir, parse, obj);
    if details.Success? && parent.Some? && "providers" in parent.value && parent.value["providers"].JArr? {
      assert forall prev, d :: Timing(cal)(prev, d).Success? == TimingReadable(d);
      ProvidersApplied(details.value, dir, parse, parent.value["providers"].elems, Timing(cal), TimingReadable);
    }
  }

  /** getTestRunTimeInMilliSec: despite its name, the test time of items[0].Time. */
  function TestRunTimeInMilliSec(it: LogItem): int
  {
    it.testTimeInMilliSec
  }

  /** getTimeStamp: the start time. */
  function TimeStamp(it: LogItem): Option<string>
  {
    it.startTime
  }

  // ---------------------------------------------------------------- methods

  /** The TCLogItem constructor, step by step: the node's fields, a loop over
      its own providers, then a loop over its parent's providers. */
  method NewLogItem(dir: Directory, parse: Parser, cal: Calendar, parent: Option<Object>, obj: Object)
    returns (r: Result<LogItem, Exception>)
    ensures r == BuildLogItem(dir, parse, cal, parent, obj)
  {
    var item :- Header(obj);
    if "providers" in obj {
      var providers :- GetArray(obj, "providers");
      item :- ReadOwnProviders(dir, parse, item, providers);
    }
    if parent.Some? && "providers" in parent.value {
      var providers :- GetArray(parent.value, "providers");
      r := ReadParentProviders(dir, parse, cal, item, providers);
    } else {
      item := item.(startTime := Some(item.testTime),
                    startTimeInMilliSec := ConvertTcDateTime2MillSec(cal, Some(item.testTime)),
                    runTime := 0);
      r := Success(item);
    }
  }

  /** The loop over the node's own providers. */
  method ReadOwnProviders(dir: Directory, parse: Parser, header: LogItem, providers: seq<Json>) returns (r: Result<LogItem, Exception>)
    ensures r == ApplyDocuments(header, Documents(dir, parse, providers), |providers|, ApplyDetails)
  {
    ghost var docs := Documents(dir, parse, providers);
    ghost var apply := ApplyDetails;
    var item := header;
    var i := 0;
    while i < |providers|
      invariant 0 <= i <= |providers|
      invariant ApplyDocuments(header, docs, i, apply) == Success(item)
    {
      var next := ReadOwnProvider(dir, parse, item, providers, i);
      ProviderStep(dir, parse, providers, header, i, item, apply, next);
      if next.Failure? {
        return next;
      }
      item := next.value;
      i := i + 1;
    }
    return Success(item);
  }

  /** One turn of the loop over the node's own providers. */
  method ReadOwnProvider(dir: Directory, parse: Parser, item: LogItem, providers: seq<Json>, i: int) returns (r: Result<LogItem, Exception>)
    ensures r == Step(item, ProviderDocument(dir, parse, providers, i), ApplyDetails)
  {
    var href :- ProviderHref(providers, i);
    if href.Some? {
      var doc :- ResolveDocument(dir, parse, href.value);
      r := ReadDetails(item, doc);
    } else {
      r := Success(item);
    }
  }

  /** The loop over the parent's providers. */
  method ReadParentProviders(dir: Directory, parse: Parser, cal: Calendar, details: LogItem, providers: seq<Json>)
    returns (r: Result<LogItem, Exception>)
    ensures r == ApplyDocuments(details, Documents(dir, parse, providers), |providers|, Timing(cal))
  {
    ghost var docs := Documents(dir, parse, providers);
    ghost var apply := Timing(cal);
    var item := details;
    var i := 0;
    while i < |providers|
      invariant 0 <= i <= |providers|
      invariant ApplyDocuments(details, docs, i, apply) == Success(item)
    {
      var next := ReadParentProvider(dir, parse, cal, item, providers, i);
      ProviderStep(dir, parse, providers, details, i, item, apply, next);
      if next.Failure? {
        return next;
      }
      item := next.value;
      i := i + 1;
    }
    return Success(item);
  }

  /** One turn of the loop over the parent's providers. */
  method ReadParentProvider(dir: Directory, parse: Parser, cal: Calendar, item: LogItem, providers: seq<Json>, i: int)
    returns (r: Result<LogItem, Exception>)
    ensures r == Step(item, ProviderDocument(dir, parse, providers, i), Timing(cal))
  {
    var href :- ProviderHref(providers, i);
    if href.Some? {
      var doc :- ResolveDocument(dir, parse, href.value);
      r := ReadTimes(cal, item, doc);
    } else {
      r := Success(item);
    }
  }

  /** One of the node's own documents, field by field. */
  method ReadDetails(it: LogItem, doc: Object) returns (r: Result<LogItem, Exception>)
    ensures r == ApplyDetails(it, doc)
  {
    var item := it;
    if "caption" in doc {
      var caption :- GetString(doc, "caption");
      item := item.(caption := caption);
    }
    if "items" in doc {
      var items :- GetArray(doc, "items");
      var first := OptObject(items, 0);
      if first.Some? {
        r := ReadFirstItem(item, first.value);
        return;
      }
    }
    return Success(item);
  }

  /** items[0] of one of the node's own documents, field by field. */
  method ReadFirstItem(it: LogItem, first: Object) returns (r: Result<LogItem, Exception>)
    ensures r == ApplyFirstItem(it, first)
  {
    var item :- ReadMessage(it, first);
    item :- ReadInfo(item, first);
    item :- ReadCallStack(item, first);
    item :- ReadTime(item, first);
    r := ReadType(item, first);
  }

  method ReadMessage(it: LogItem, first: Object) returns (r: Result<LogItem, Exception>)
    ensures r == FirstMessage(it, first)
  {
    var item := it;
    if "Message" in first {
      var message :- GetString(first, "Message");
      item := item.(message := message);
    }
    return Success(item);
  }

  method ReadInfo(it: LogItem, first: Object) returns (r: Result<LogItem, Exception>)
    ensures r == FirstInfo(it, first)
  {
    var item := it;
    if "AdditionalInfo" in first {
      var additional :- GetObject(first, "AdditionalInfo");
      var isFileName :- GetBoolean(additional, "isfilename");
      if !isFileName {
        var text :- GetString(additional, "text");
        item := item.(info := text);
      }
    }
    return Success(item);
  }

  method ReadCallStack(it: LogItem, first: Object) returns (r: Result<LogItem, Exception>)
    ensures r == FirstCallStack(it, first)
  {
    var item := it;
    if "CallStack" in first {
      var frames :- FrameItems(first);
      var callStack :- AddFrames(item.callStack, frames);
      item := item.(callStack := callStack);
    }
    return Success(item);
  }

  method ReadTime(it: LogItem, first: Object) returns (r: Result<LogItem, Exception>)
    ensures r == FirstTime(it, first)
  {
    var item := it;
    if "Time" in first {
      var time :- GetObject(first, "Time");
      var msec :- GetLong(time, "msec");
      var text :- GetString(time, "text");
      item := item.(testTimeInMilliSec := msec, testTime := text);
    } else {
      item := item.(testTimeInMilliSec := 0, testTime := "");
    }
    return Success(item);
  }

  method ReadType(it: LogItem, first: Object) returns (r: Result<LogItem, Exception>)
    ensures r == FirstType(it, first)
  {
    var item := it;
    if "TypeDescription" in first {
      var itemType :- GetString(first, "TypeDescription");
      item := item.(itemType := itemType);
    } else {
      item := item.(itemType := "");
    }
    return Success(item);
  }

  /** The call-stack loop: one entry added per object among the items. */
  method AddFrames(stack: seq<StackEntry>, items: seq<Json>) returns (r: Result<seq<StackEntry>, Exception>)
    ensures r == CallStackAfter(stack, items, |items|)
  {
    var callStack := stack;
    var j := 0;
    while j < |items|
      invariant 0 <= j <= |items|
      invariant CallStackAfter(stack, items, j) == Success(callStack)
    {
      CallStackFailurePersists(stack, items, j + 1, |items|);
      var js := OptObject(items, j);
      if js.Some? {
        var entry :- StackEntryOf(js.value);
        callStack := callStack + [entry];
      }
      j := j + 1;
    }
    return Success(callStack);
  }

  /** One of the parent's documents: the loop over its items. */
  method ReadTimes(cal: Calendar, it: LogItem, doc: Object) returns (r: Result<LogItem, Exception>)
    ensures r == Timing(cal)(it, doc)
  {
    var item := it;
    if "items" in doc {
      var items :- GetArray(doc, "items");
      var j := 0;
      while j < |items|
        invariant 0 <= j <= |items|
        invariant ApplyItemTimes(cal, it, items, j) == Success(item)
      {
        ScanFailurePersists(it, items, j + 1, |items|, Times(cal));
        ScanStep(it, items, j, Times(cal), item);
        var js := OptObject(items, j);
        if js.None? {
          return Failure(NullPointerException);
        }
        var next := ApplyTimes(cal, item, js.value);
        assert Times(cal)(item, js.value) == next;
        if next.Failure? {
          return Failure(next.error);
        }
        item := next.value;
        j := j + 1;
      }
    }
    return Success(item);
  }

  // ---------------------------------------------------------------- properties

  /** Once a call-stack item fails, the loop ends with that failure. */
  lemma {:induction false} CallStackFailurePersists(stack: seq<StackEntry>, items: seq<Json>, i: nat, n: nat)
    requires i <= n <= |items|
    ensures CallStackAfter(stack, items, i).Failure? ==> CallStackAfter(stack, items, n) == CallStackAfter(stack, items, i)
    decreases n
  {
    if n > i {
      CallStackFailurePersists(stack, items, i, n - 1);
    }
  }

  /** One more item of the scan. */
  lemma ScanStep<T>(start: T, items: seq<Json>, j: nat, f: (T, Object) -> Result<T, Exception>, prev: T)
    requires j < |items| && ScanItems(start, items, j, f) == Success(prev)
    ensures ScanItems(start, items, j + 1, f) ==
              match OptObject(items, j)
              case None => Failure(NullPointerException)
              case Some(js) => f(prev, js)
  {
  }

  /** Once a parent item fails, the loop ends with that failure. */
  lemma {:induction false} ScanFailurePersists<T>(start: T, items: seq<Json>, i: nat, n: nat, f: (T, Object) -> Result<T, Exception>)
    requires i <= n <= |items|
    ensures ScanItems(start, items, i, f).Failure? ==> ScanItems(start, items, n, f) == ScanItems(start, items, i, f)
    decreases n
  {
    if n > i {
      ScanFailurePersists(start, items, i, n - 1, f);
    }
  }

  // ---------------------------------------------------------------- call-stack properties

  /** The objects among the first n items, in order. */
  function ObjectItems(items: seq<Json>, n: nat): (r: seq<Object>)
    requires n <= |items|
    ensures |r| <= n
  {
    if n == 0 then []
    else ObjectItems(items, n - 1) + (if items[n - 1].JObj? then [items[n - 1].fields] else [])
  }

  /** The call stack gains exactly one entry per object item, in the order of
      the items, and keeps what it held before. */
  lemma {:induction false} CallStackEntriesInOrder(stack: seq<StackEntry>, items: seq<Json>, n: nat)
    requires n <= |items| && CallStackAfter(stack, items, n).Success?
    ensures |CallStackAfter(stack, items, n).value| == |stack| + |ObjectItems(items, n)|
    ensures CallStackAfter(stack, items, n).value[..|stack|] == stack
    ensures forall k :: 0 <= k < |ObjectItems(items, n)| ==>
              StackEntryOf(ObjectItems(items, n)[k]) == Success(CallStackAfter(stack, items, n).value[|stack| + k])
  {
    if n > 0 {
      CallStackEntriesInOrder(stack, items, n - 1);
      var prev := CallStackAfter(stack, items, n - 1).value;
      var objs := ObjectItems(items, n - 1);
      if items[n - 1].JObj? {
        var e := StackEntryOf(items[n - 1].fields).value;
        assert CallStackAfter(stack, items, n).value == prev + [e];
        assert ObjectItems(items, n) == objs + [items[n - 1].fields];
      } else {
        assert CallStackAfter(stack, items, n).value == prev;
        assert ObjectItems(items, n) == objs;
      }
    }
  }

  /** Where the loop starts does not change what it adds. */
  lemma {:induction false} CallStackShift(stack: seq<StackEntry>, items: seq<Json>, n: nat)
    requires n <= |items|
    ensures CallStackAfter(stack, items, n).Success? <==> CallStackAfter([], items, n).Success?
    ensures CallStackAfter(stack, items, n).Failure? ==> CallStackAfter(stack, items, n) == CallStackAfter([], items, n)
    ensures CallStackAfter(stack, items, n).Success? ==>
              CallStackAfter(stack, items, n).value == stack + CallStackAfter([], items, n).value
  {
    if n > 0 {
      CallStackShift(stack, items, n - 1);
      if CallStackAfter(stack, items, n - 1).Success? && OptObject(items, n - 1).Some? {
        var prev := CallStackAfter([], items, n - 1).value;
        match StackEntryOf(OptObject(items, n - 1).value)
        case Failure(_) =>
        case Success(e) =>
          assert stack + prev + [e] == stack + (prev + [e]);
      }
    }
  }

  /** The entries one of the node's own documents adds to the call stack. */
  function DocumentStack(doc: Object): seq<StackEntry>
  {
    match FirstItem(doc)
    case None => []
    case Some(first) =>
      if "CallStack" in first && FrameItems(first).Success? then
        match CallStackAfter([], FrameItems(first).value, |FrameItems(first).value|)
        case Success(entries) => entries
        case Failure(_) => []
      else []
  }

  /** The entries of the documents of the first n providers, in order. */
  function DocumentStacks(docs: seq<Document>, n: nat): seq<StackEntry>
    requires n <= |docs|
  {
    if n == 0 then []
    else DocumentStacks(docs, n - 1) + (if HasDocument(docs, n - 1) then DocumentStack(docs[n - 1].value.value) else [])
  }

  /** The call stack is never reset: the entries of every provider's document
      accumulate, in provider order. */
  lemma {:induction false} CallStacksAccumulate(start: LogItem, docs: seq<Document>, n: nat)
    requires n <= |docs| && ApplyDocuments(start, docs, n, ApplyDetails).Success?
    ensures ApplyDocuments(start, docs, n, ApplyDetails).value.callStack == start.callStack + DocumentStacks(docs, n)
  {
    if n > 0 {
      CallStacksAccumulate(start, docs, n - 1);
      var prev := ApplyDocuments(start, docs, n - 1, ApplyDetails).value;
      if HasDocument(docs, n - 1) {
        var doc := docs[n - 1].value.value;
        var r := ApplyDetails(prev, doc);
        assert ApplyDocuments(start, docs, n, ApplyDetails) == r;
        match FirstItem(doc)
        case None =>
        case Some(first) =>
          if "CallStack" in first {
            var frames := FrameItems(first).value;
            CallStackShift(prev.callStack, frames, |frames|);
            assert r.value.callStack == prev.callStack + DocumentStack(doc);
          }
      }
    }
  }

  // ---------------------------------------------------------------- last value wins

  predicate HasCaption(doc: Object) { "caption" in doc }
  function DocumentCaption(doc: Object): string { StringOr(doc, "caption", "") }
  function CaptionOf(it: LogItem): string { it.caption }

  /** The caption is the one of the last document that has one; documents
      without a caption leave it alone. */
  lemma CaptionKeepsLastValue(start: LogItem, docs: seq<Document>)
    requires ApplyDocuments(start, docs, |docs|, ApplyDetails).Success?
    ensures var last := LastDocumentWhere(docs, |docs|, HasCaption);
            ApplyDocuments(start, docs, |docs|, ApplyDetails).value.caption ==
              if last >= 0 then DocumentCaption(docs[last].value.value) else start.caption
  {
    LastDocumentWins(start, docs, |docs|, ApplyDetails, CaptionOf, HasCaption, DocumentCaption);
  }

  predicate HasMessage(doc: Object) { FirstItem(doc).Some? && "Message" in FirstItem(doc).value }
  function DocumentMessage(doc: Object): string
  {
    if FirstItem(doc).Some? then StringOr(FirstItem(doc).value, "Message", "") else ""
  }
  function MessageOf(it: LogItem): string { it.message }

  /** The message is the one of the last items[0] that has one. */
  lemma MessageKeepsLastValue(start: LogItem, docs: seq<Document>)
    requires ApplyDocuments(start, docs, |docs|, ApplyDetails).Success?
    ensures var last := LastDocumentWhere(docs, |docs|, HasMessage);
            ApplyDocuments(start, docs, |docs|, ApplyDetails).value.message ==
              if last >= 0 then DocumentMessage(docs[last].value.value) else start.message
  {
    LastDocumentWins(start, docs, |docs|, ApplyDetails, MessageOf, HasMessage, DocumentMessage);
  }

  /** items[0] carries AdditionalInfo whose isfilename is false. */
  predicate HasInfoText(doc: Object)
  {
    && FirstItem(doc).Some?
    && "AdditionalInfo" in FirstItem(doc).value
    && FirstItem(doc).value["AdditionalInfo"].JObj?
    && GetBoolean(FirstItem(doc).value["AdditionalInfo"].fields, "isfilename") == Success(false)
  }
  function DocumentInfo(doc: Object): string
  {
    if HasInfoText(doc) then StringOr(FirstItem(doc).value["AdditionalInfo"].fields, "text", "") else ""
  }
  function InfoOf(it: LogItem): string { it.info }

  /** The info is the text of the last AdditionalInfo that is not a file name;
      one that is a file name leaves it alone. */
  lemma InfoKeepsLastText(start: LogItem, docs: seq<Document>)
    requires ApplyDocuments(start, docs, |docs|, ApplyDetails).Success?
    ensures var last := LastDocumentWhere(docs, |docs|, HasInfoText);
            ApplyDocuments(start, docs, |docs|, ApplyDetails).value.info ==
              if last >= 0 then DocumentInfo(docs[last].value.value) else start.info
  {
    LastDocumentWins(start, docs, |docs|, ApplyDetails, InfoOf, HasInfoText, DocumentInfo);
  }

  predicate HasFirstItem(doc: Object) { FirstItem(doc).Some? }
  function DocumentType(doc: Object): string
  {
    if FirstItem(doc).Some? then StringOr(FirstItem(doc).value, "TypeDescription", "") else ""
  }
  function TypeOf(it: LogItem): string { it.itemType }

  /** The type comes from the last items[0], "" when that one has no
      TypeDescription, whatever earlier ones held. */
  lemma TypeFollowsLastFirstItem(start: LogItem, docs: seq<Document>)
    requires ApplyDocuments(start, docs, |docs|, ApplyDetails).Success?
    ensures var last := LastDocumentWhere(docs, |docs|, HasFirstItem);
            ApplyDocuments(start, docs, |docs|, ApplyDetails).value.itemType ==
              if last >= 0 then DocumentType(docs[last].value.value) else start.itemType
  {
    LastDocumentWins(start, docs, |docs|, ApplyDetails, TypeOf, HasFirstItem, DocumentType);
  }

  /** The Time of items[0]: getLong("msec") and getString("text"), or 0 and "". */
  function DocumentTestTime(doc: Object): (int, string)
  {
    if FirstItem(doc).Some? && "Time" in FirstItem(doc).value && FirstItem(doc).value["Time"].JObj? then
      var t := FirstItem(doc).value["Time"].fields;
      (if GetLong(t, "msec").Success? then GetLong(t, "msec").value else 0, StringOr(t, "text", ""))
    else (0, "")
  }
  function TestTimeOf(it: LogItem): (int, string) { (it.testTimeInMilliSec, it.testTime) }

  /** The test time comes from the last items[0], 0 and "" when that one has no
      Time, whatever earlier ones held. */
  lemma TestTimeFollowsLastFirstItem(start: LogItem, docs: seq<Document>)
    requires ApplyDocuments(start, docs, |docs|, ApplyDetails).Success?
    ensures var last := LastDocumentWhere(docs, |docs|, HasFirstItem);
            (ApplyDocuments(start, docs, |docs|, ApplyDetails).value.testTimeInMilliSec,
             ApplyDocuments(start, docs, |docs|, ApplyDetails).value.testTime) ==
              if last >= 0 then DocumentTestTime(docs[last].value.value) else (start.testTimeInMilliSec, start.testTime)
  {
    LastDocumentWins(start, docs, |docs|, ApplyDetails, TestTimeOf, HasFirstItem, DocumentTestTime);
  }

  // ---------------------------------------------------------------- time properties

  /** a and b differ at most in the start, end and run times. */
  predicate SameApartFromTimes(a: LogItem, b: LogItem)
  {
    a == b.(startTime := a.startTime, startTimeInMilliSec := a.startTimeInMilliSec,
            endTime := a.endTime, endTimeInMilliSec := a.endTimeInMilliSec, runTime := a.runTime)
  }

  /** The node's own documents never touch the start, end and run times. */
  lemma {:induction false} DetailsKeepTimes(start: LogItem, docs: seq<Document>, n: nat)
    requires n <= |docs| && ApplyDocuments(start, docs, n, ApplyDetails).Success?
    ensures var r := ApplyDocuments(start, docs, n, ApplyDetails).value;
            && r.startTime == start.startTime && r.startTimeInMilliSec == start.startTimeInMilliSec
            && r.endTime == start.endTime && r.endTimeInMilliSec == start.endTimeInMilliSec
            && r.runTime == start.runTime
  {
    if n > 0 {
      DetailsKeepTimes(start, docs, n - 1);
    }
  }

  /** The items of the parent's documents touch nothing but the times. */
  lemma {:induction false} ItemTimesKeepDetails(cal: Calendar, it: LogItem, items: seq<Json>, n: nat)
    requires n <= |items| && ApplyItemTimes(cal, it, items, n).Success?
    ensures SameApartFromTimes(ApplyItemTimes(cal, it, items, n).value, it)
  {
    if n > 0 {
      ItemTimesKeepDetails(cal, it, items, n - 1);
    }
  }

  /** The parent's documents touch nothing but the times. */
  lemma {:induction false} TimingKeepsDetails(cal: Calendar, start: LogItem, docs: seq<Document>, n: nat)
    requires n <= |docs| && ApplyDocuments(start, docs, n, Timing(cal)).Success?
    ensures SameApartFromTimes(ApplyDocuments(start, docs, n, Timing(cal)).value, start)
  {
    if n > 0 {
      TimingKeepsDetails(cal, start, docs, n - 1);
      var prev := ApplyDocuments(start, docs, n - 1, Timing(cal)).value;
      if HasDocument(docs, n - 1) {
        var doc := docs[n - 1].value.value;
        if "items" in doc {
          var items := doc["items"].elems;
          ItemTimesKeepDetails(cal, prev, items, |items|);
        }
      }
    }
  }

  /** The result of the first m items depends on those items only. */
  lemma {:induction false} ScanPrefix<T>(start: T, s: seq<Json>, t: seq<Json>, m: nat, f: (T, Object) -> Result<T, Exception>)
    requires m <= |s| && m <= |t| && s[..m] == t[..m]
    ensures ScanItems(start, s, m, f) == ScanItems(start, t, m, f)
  {
    if m > 0 {
      assert s[..m - 1] == s[..m][..m - 1] && t[..m - 1] == t[..m][..m - 1];
      assert s[m - 1] == s[..m][m - 1] && t[m - 1] == t[..m][m - 1];
      ScanPrefix(start, s, t, m - 1, f);
    }
  }

  /** Scanning a + b is scanning a, then b from where a left off. */
  lemma {:induction false} ScanAppend<T>(start: T, a: seq<Json>, b: seq<Json>, k: nat, prev: T, f: (T, Object) -> Result<T, Exception>)
    requires k <= |b| && ScanItems(start, a, |a|, f) == Success(prev)
    ensures ScanItems(start, a + b, |a| + k, f) == ScanItems(prev, b, k, f)
  {
    if k == 0 {
      assert (a + b)[..|a|] == a[..|a|];
      ScanPrefix(start, a + b, a, |a|, f);
    } else {
      ScanAppend(start, a, b, k - 1, prev, f);
      assert (a + b)[|a| + k - 1] == b[k - 1];
    }
  }

  /** ScanAppend over the whole of b, with the concatenation and the result
      named by the caller. */
  lemma ScanConcat<T>(start: T, a: seq<Json>, b: seq<Json>, prev: T, f: (T, Object) -> Result<T, Exception>, whole: seq<Json>, r: Result<T, Exception>)
    requires ScanItems(start, a, |a|, f) == Success(prev)
    requires r == ScanItems(prev, b, |b|, f) && whole == a + b
    ensures r == ScanItems(start, whole, |whole|, f)
  {
    ScanAppend(start, a, b, |b|, prev, f);
  }

  /** The items of a parent document, when "items" is an array. */
  function DocumentItems(doc: Object): seq<Json>
  {
    if "items" in doc && doc["items"].JArr? then doc["items"].elems else []
  }

  /** The items of the documents of the first n parent providers, in order. */
  function ParentItems(docs: seq<Document>, n: nat): seq<Json>
    requires n <= |docs|
  {
    if n == 0 then []
    else ParentItems(docs, n - 1) + (if HasDocument(docs, n - 1) then DocumentItems(docs[n - 1].value.value) else [])
  }

  /** The nested loop over the parent's providers and their items is one scan
      over all those items in order. */
  lemma {:induction false} TimingIsOneScan(cal: Calendar, start: LogItem, docs: seq<Document>, n: nat)
    requires n <= |docs| && ApplyDocuments(start, docs, n, Timing(cal)).Success?
    ensures ApplyDocuments(start, docs, n, Timing(cal)) ==
              ApplyItemTimes(cal, start, ParentItems(docs, n), |ParentItems(docs, n)|)
  {
    if n > 0 {
      LastStep(start, docs, n, Timing(cal));
      TimingIsOneScan(cal, start, docs, n - 1);
      var prev := ApplyDocuments(start, docs, n - 1, Timing(cal)).value;
      var a := ParentItems(docs, n - 1);
      var b := if HasDocument(docs, n - 1) then DocumentItems(docs[n - 1].value.value) else [];
      assert ParentItems(docs, n) == a + b;
      TimingStep(cal, prev, docs, n - 1);
      ScanConcat(start, a, b, prev, Times(cal), ParentItems(docs, n), ApplyDocuments(start, docs, n, Timing(cal)));
    }
  }

  /** One parent provider's turn scans the items of its document, if any. */
  lemma TimingStep(cal: Calendar, prev: LogItem, docs: seq<Document>, i: nat)
    requires i < |docs| && Step(prev, docs[i], Timing(cal)).Success?
    ensures var b := if HasDocument(docs, i) then DocumentItems(docs[i].value.value) else [];
            Step(prev, docs[i], Timing(cal)) == ApplyItemTimes(cal, prev, b, |b|)
  {
    if HasDocument(docs, i) {
      var doc := docs[i].value.value;
      assert Step(prev, docs[i], Timing(cal)) == ApplyTimingDocument(cal, prev, doc);
    }
  }

  /** The index of the last of the first n items that is an object holding key,
      or -1. */
  function LastItemWith(items: seq<Json>, n: nat, key: string): (r: int)
    requires n <= |items|
    ensures -1 <= r < n
    ensures r >= 0 ==> items[r].JObj? && key in items[r].fields
    ensures forall k :: r < k < n && items[k].JObj? ==> key !in items[k].fields
  {
    if n == 0 then -1
    else if items[n - 1].JObj? && key in items[n - 1].fields then n - 1
    else LastItemWith(items, n - 1, key)
  }

  /** Start, end and run time each come from the last item that has them, and
      keep their earlier value when no item has them. */
  lemma {:induction false} ItemTimesLastWins(cal: Calendar, it: LogItem, items: seq<Json>, n: nat)
    requires n <= |items| && ApplyItemTimes(cal, it, items, n).Success?
    ensures var r := ApplyItemTimes(cal, it, items, n).value;
            var j := LastItemWith(items, n, "StartTime");
            && (j == -1 ==> r.startTime == it.startTime && r.startTimeInMilliSec == it.startTimeInMilliSec)
            && (j >= 0 ==>
                  items[j].fields["StartTime"].JObj? && r.startTime.Some? &&
                  Stamp(cal, items[j].fields["StartTime"].fields) == Success((r.startTime.value, r.startTimeInMilliSec)))
    ensures var r := ApplyItemTimes(cal, it, items, n).value;
            var j := LastItemWith(items, n, "EndTime");
            && (j == -1 ==> r.endTime == it.endTime && r.endTimeInMilliSec == it.endTimeInMilliSec)
            && (j >= 0 ==>
                  items[j].fields["EndTime"].JObj? && r.endTime.Some? &&
                  Stamp(cal, items[j].fields["EndTime"].fields) == Success((r.endTime.value, r.endTimeInMilliSec)))
    ensures var r := ApplyItemTimes(cal, it, items, n).value;
            var j := LastItemWith(items, n, "RunTime");
            && (j == -1 ==> r.runTime == it.runTime)
            && (j >= 0 ==> items[j].fields["RunTime"].JObj? && GetLong(items[j].fields["RunTime"].fields, "msec") == Success(r.runTime))
  {
    StartTimeLastWins(cal, it, items, n);
    EndTimeLastWins(cal, it, items, n);
    RunTimeLastWins(cal, it, items, n);
  }

  lemma {:induction false} StartTimeLastWins(cal: Calendar, it: LogItem, items: seq<Json>, n: nat)
    requires n <= |items| && ApplyItemTimes(cal, it, items, n).Success?
    ensures var r := ApplyItemTimes(cal, it, items, n).value;
            var j := LastItemWith(items, n, "StartTime");
            && (j == -1 ==> r.startTime == it.startTime && r.startTimeInMilliSec == it.startTimeInMilliSec)
            && (j >= 0 ==>
                  items[j].fields["StartTime"].JObj? && r.startTime.Some? &&
                  Stamp(cal, items[j].fields["StartTime"].fields) == Success((r.startTime.value, r.startTimeInMilliSec)))
  {
    if n > 0 {
      StartTimeLastWins(cal, it, items, n - 1);
    }
  }

  lemma {:induction false} EndTimeLastWins(cal: Calendar, it: LogItem, items: seq<Json>, n: nat)
    requires n <= |items| && ApplyItemTimes(cal, it, items, n).Success?
    ensures var r := ApplyItemTimes(cal, it, items, n).value;
            var j := LastItemWith(items, n, "EndTime");
            && (j == -1 ==> r.endTime == it.endTime && r.endTimeInMilliSec == it.endTimeInMilliSec)
            && (j >= 0 ==>
                  items[j].fields["EndTime"].JObj? && r.endTime.Some? &&
                  Stamp(cal, items[j].fields["EndTime"].fields) == Success((r.endTime.value, r.endTimeInMilliSec)))
  {
    if n > 0 {
      EndTimeLastWins(cal, it, items, n - 1);
    }
  }

  lemma {:induction false} RunTimeLastWins(cal: Calendar, it: LogItem, items: seq<Json>, n: nat)
    requires n <= |items| && ApplyItemTimes(cal, it, items, n).Success?
    ensures var r := ApplyItemTimes(cal, it, items, n).value;
            var j := LastItemWith(items, n, "RunTime");
            && (j == -1 ==> r.runTime == it.runTime)
            && (j >= 0 ==> items[j].fields["RunTime"].JObj? && GetLong(items[j].fields["RunTime"].fields, "msec") == Success(r.runTime))
  {
    if n > 0 {
      RunTimeLastWins(cal, it, items, n - 1);
    }
  }

  // ---------------------------------------------------------------- the record

  /** With no parent, or a parent without providers, the start time is the raw
      test time text and its conversion, the run time is 0, and the end time is
      never set. */
  lemma WithoutParentProviders(dir: Directory, parse: Parser, cal: Calendar, parent: Option<Object>, obj: Object)
    requires parent.None? || "providers" !in parent.value
    requires BuildLogItem(dir, parse, cal, parent, obj).Success?
    ensures var r := BuildLogItem(dir, parse, cal, parent, obj).value;
            && r.startTime == Some(r.testTime)
            && r.startTimeInMilliSec == ConvertTcDateTime2MillSec(cal, Some(r.testTime))
            && r.runTime == 0
            && r.endTime.None? && r.endTimeInMilliSec == 0
  {
    var header := Header(obj).value;
    if "providers" in obj {
      var providers := obj["providers"].elems;
      DetailsKeepTimes(header, Documents(dir, parse, providers), |providers|);
    }
  }

  /** With a parent that has providers, start, end and run time are those of
      the last item, over all the parent's documents in order, that has them;
      when no item has one, it keeps its default. */
  lemma ParentTimesFromLastItem(dir: Directory, parse: Parser, cal: Calendar, parent: Object, obj: Object)
    requires "providers" in parent
    requires BuildLogItem(dir, parse, cal, Some(parent), obj).Success?
    ensures parent["providers"].JArr?
    ensures var r := BuildLogItem(dir, parse, cal, Some(parent), obj).value;
            var docs := Documents(dir, parse, parent["providers"].elems);
            var items := ParentItems(docs, |docs|);
            var j := LastItemWith(items, |items|, "StartTime");
            && (j == -1 ==> r.startTime.None? && r.startTimeInMilliSec == 0)
            && (j >= 0 ==>
                  items[j].fields["StartTime"].JObj? && r.startTime.Some? &&
                  Stamp(cal, items[j].fields["StartTime"].fields) == Success((r.startTime.value, r.startTimeInMilliSec)))
    ensures var r := BuildLogItem(dir, parse, cal, Some(parent), obj).value;
            var docs := Documents(dir, parse, parent["providers"].elems);
            var items := ParentItems(docs, |docs|);
            var j := LastItemWith(items, |items|, "EndTime");
            && (j == -1 ==> r.endTime.None? && r.endTimeInMilliSec == 0)
            && (j >= 0 ==>
                  items[j].fields["EndTime"].JObj? && r.endTime.Some? &&
                  Stamp(cal, items[j].fields["EndTime"].fields) == Success((r.endTime.value, r.endTimeInMilliSec)))
    ensures var r := BuildLogItem(dir, parse, cal, Some(parent), obj).value;
            var docs := Documents(dir, parse, parent["providers"].elems);
            var items := ParentItems(docs, |docs|);
            var j := LastItemWith(items, |items|, "RunTime");
            && (j == -1 ==> r.runTime == 0)
            && (j >= 0 ==> items[j].fields["RunTime"].JObj? && GetLong(items[j].fields["RunTime"].fields, "msec") == Success(r.runTime))
  {
    var header := Header(obj).value;
    if "providers" in obj {
      var providers := obj["providers"].elems;
      DetailsKeepTimes(header, Documents(dir, parse, providers), |providers|);
    }
    var details := Details(dir, parse, obj).value;
    var docs := Documents(dir, parse, parent["providers"].elems);
    var items := ParentItems(docs, |docs|);
    TimingIsOneScan(cal, details, docs, |docs|);
    ItemTimesLastWins(cal, details, items, |items|);
  }

  /** getTestRunTimeInMilliSec returns the Time of items[0] of the node's own
      documents: every field but the three times is fixed before the parent is
      read, so neither the parent's RunTime nor any other part of the parent
      changes it. */
  lemma RunTimeGetterIgnoresParent(dir: Directory, parse: Parser, cal: Calendar, parent: Option<Object>, obj: Object)
    requires BuildLogItem(dir, parse, cal, parent, obj).Success?
    ensures Details(dir, parse, obj).Success?
    ensures SameApartFromTimes(BuildLogItem(dir, parse, cal, parent, obj).value, Details(dir, parse, obj).value)
    ensures TestRunTimeInMilliSec(BuildLogItem(dir, parse, cal, parent, obj).value) ==
              Details(dir, parse, obj).value.testTimeInMilliSec
  {
    if parent.Some? && "providers" in parent.value {
      var providers := parent.value["providers"].elems;
      TimingKeepsDetails(cal, Details(dir, parse, obj).value, Documents(dir, parse, providers), |providers|);
    }
  }

  /** A provider of the node whose file was not extracted ends the
      construction with the ConversionException naming the file, unless an
      earlier provider failed. */
  lemma MissingOwnFileFails(dir: Directory, parse: Parser, cal: Calendar, parent: Option<Object>, obj: Object, i: nat)
    requires Header(obj).Success? && "providers" in obj && obj["providers"].JArr?
    requires var providers := obj["providers"].elems;
             && i < |providers|
             && ApplyDocuments(Header(obj).value, Documents(dir, parse, providers), i, ApplyDetails).Success?
             && providers[i].JObj? && "href" in providers[i].fields && providers[i].fields["href"].JStr?
             && FileNameOf(providers[i].fields["href"].s) !in dir
    ensures BuildLogItem(dir, parse, cal, parent, obj) ==
              Failure(ConversionException(MissingEntryMessage(FileNameOf(obj["providers"].elems[i].fields["href"].s))))
  {
    var providers := obj["providers"].elems;
    MissingFileFailsDocument(dir, parse, providers, i);
    FirstFailureDecides(Header(obj).value, Documents(dir, parse, providers), i, ApplyDetails);
  }

  /** The same for a provider of the parent. */
  lemma MissingParentFileFails(dir: Directory, parse: Parser, cal: Calendar, parent: Object, obj: Object, i: nat)
    requires Details(dir, parse, obj).Success? && "providers" in parent && parent["providers"].JArr?
    requires var providers := parent["providers"].elems;
             && i < |providers|
             && ApplyDocuments(Details(dir, parse, obj).value, Documents(dir, parse, providers), i, Timing(cal)).Success?
             && providers[i].JObj? && "href" in providers[i].fields && providers[i].fields["href"].JStr?
             && FileNameOf(providers[i].fields["href"].s) !in dir
    ensures BuildLogItem(dir, parse, cal, Some(parent), obj) ==
              Failure(ConversionException(MissingEntryMessage(FileNameOf(parent["providers"].elems[i].fields["href"].s))))
  {
    var providers := parent["providers"].elems;
    MissingFileFailsDocument(dir, parse, providers, i);
    FirstFailureDecides(Details(dir, parse, obj).value, Documents(dir, parse, providers), i, Timing(cal));
  }
}
