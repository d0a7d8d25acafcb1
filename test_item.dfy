/** TCLogTestItem (deprecated): the test record of one log node, read from the
    node itself and from the documents its providers point to. A null node
    leaves every field at its Java default; each provider document then
    overwrites caption and, through its first item, message, run time and type. */
module TestItem {
  import opened Wrappers
  import opened JavaLang
  import opened Json
  import opened ProviderDocuments
  import ProviderItem

  datatype TestItem = TestItem(
    name: Option<string>,
    status: int,
    message: Option<string>,
    runTime: int,
    itemType: Option<string>,
    caption: Option<string>,
    id: Option<string>,
    /** The providers_ list: created for a non-null node and never filled. */
    providers: Option<seq<ProviderItem.ProviderItem>>)

  const NULL_TEST_ITEM: TestItem := TestItem(None, 0, None, 0, None, None, None, None)

  /** name, id and status, with "", "" and 0 for an absent key; the fields the
      providers fill are still at their Java defaults. */
  function Header(o: Object): (r: Result<TestItem, Exception>)
    ensures r.Success? ==>
              && r.value.name.Some? && r.value.id.Some?
              && ("name" in o ==> o["name"] == JStr(r.value.name.value))
              && ("name" !in o ==> r.value.name == Some(""))
              && ("id" in o ==> o["id"] == JStr(r.value.id.value))
              && ("id" !in o ==> r.value.id == Some(""))
              && ("status" in o ==> o["status"].JNum? && r.value.status == ToInt32(o["status"].n))
              && ("status" !in o ==> r.value.status == 0)
              && r.value.caption.None? && r.value.message.None? && r.value.itemType.None?
              && r.value.runTime == 0 && r.value.providers == Some([])
    ensures r.Failure? <==>
              ("name" in o && !o["name"].JStr?) || ("id" in o && !o["id"].JStr?) ||
              ("status" in o && !o["status"].JNum?)
  {
    var name :- if "name" in o then GetString(o, "name") else Success("");
    var id :- if "id" in o then GetString(o, "id") else Success("");
    var status :- if "status" in o then GetInt(o, "status") else Success(0);
    Success(TestItem(Some(name), status, None, 0, None, None, Some(id), Some([])))
  }

  /** One provider document can be read without an exception: a text caption
      when present, an array of items when present, and, when items[0] is an
      object, a text Message, an object Time with a number msec, and a text
      TypeDescription, each when present. */
  predicate DocumentReadable(doc: Object)
  {
    && ("caption" !in doc || doc["caption"].JStr?)
    && ("items" !in doc || doc["items"].JArr?)
    && (FirstItem(doc).Some? ==>
          var first := FirstItem(doc).value;
          && ("Message" !in first || first["Message"].JStr?)
          && ("Time" !in first || (first["Time"].JObj? && GetInt(first["Time"].fields, "msec").Success?))
          && ("TypeDescription" !in first || first["TypeDescription"].JStr?))
  }

  /** What one provider document does to the record: caption is always
      overwritten, and an object at items[0] overwrites message, run time and
      type, each with its default when its key is absent. */
  function ApplyDocument(it: TestItem, doc: Object): (r: Result<TestItem, Exception>)
    ensures r.Success? ==> r.value.caption == Some(StringOr(doc, "caption", ""))
    ensures r.Success? ==> r.value.name == it.name && r.value.id == it.id && r.value.status == it.status && r.value.providers == it.providers
    ensures r.Success? && FirstItem(doc).None? ==>
              r.value.message == it.message && r.value.runTime == it.runTime && r.value.itemType == it.itemType
    ensures r.Success? && FirstItem(doc).Some? ==>
              var first := FirstItem(doc).value;
              && r.value.message == Some(StringOr(first, "Message", ""))
              && r.value.itemType == Some(StringOr(first, "TypeDescription", ""))
              && ("Time" !in first ==> r.value.runTime == 0)
              && ("Time" in first ==> first["Time"].JObj? && GetInt(first["Time"].fields, "msec") == Success(r.value.runTime))
    ensures r.Success? <==> DocumentReadable(doc)
  {
    var caption :- if "caption" in doc then GetString(doc, "caption") else Success("");
    if "items" !in doc then Success(it.(caption := Some(caption)))
    else
      var items :- GetArray(doc, "items");
      match OptObject(items, 0)
      case None => Success(it.(caption := Some(caption)))
      case Some(first) =>
        var message :- if "Message" in first then GetString(first, "Message") else Success("");
        var runTime :-
          if "Time" in first then
            var time :- GetObject(first, "Time");
            GetInt(time, "msec")
          else Success(0);
        var itemType :- if "TypeDescription" in first then GetString(first, "TypeDescription") else Success("");
        Success(it.(caption := Some(caption), message := Some(message), runTime := runTime, itemType := Some(itemType)))
  }

  /** The node's own name, id and status, and its providers list. */
  function Identity(it: TestItem): (Option<string>, Option<string>, int, Option<seq<ProviderItem.ProviderItem>>)
  {
    (it.name, it.id, it.status, it.providers)
  }

  /** The TCLogTestItem constructor: a null node gives the Java defaults, and
      otherwise name, id and status are the node's own and the providers list
      stays empty, whatever the documents hold. */
  function BuildTestItem(dir: Directory, parse: Parser, obj: Option<Object>): (r: Result<TestItem, Exception>)
    ensures obj.None? ==> r == Success(NULL_TEST_ITEM)
    ensures obj.Some? && r.Success? ==>
              Header(obj.value).Success? && Identity(r.value) == Identity(Header(obj.value).value) &&
              r.value.providers == Some([])
  {
    match obj
    case None => Success(NULL_TEST_ITEM)
    case Some(o) =>
      var it :- Header(o);
      if "providers" !in o then Success(it)
      else
        var providers :- GetArray(o, "providers");
        ApplyDocumentsKeeps(it, Documents(dir, parse, providers), |providers|, ApplyDocument, Identity);
        ApplyDocuments(it, Documents(dir, parse, providers), |providers|, ApplyDocument)
  }

  /** The constructor completes exactly when the node's fields have the right
      kinds, "providers" (when present) is an array, and every provider can be
      read into a readable document. */
  lemma BuildTestItemSucceeds(dir: Directory, parse: Parser, o: Object)
    ensures BuildTestItem(dir, parse, Some(o)).Success? <==>
              && Header(o).Success?
              && ("providers" in o ==>
                    o["providers"].JArr? && ProvidersReadable(dir, parse, o["providers"].elems, DocumentReadable))
  {
    if Header(o).Success? && "providers" in o && o["providers"].JArr? {
      ProvidersApplied(Header(o).value, dir, parse, o["providers"].elems, ApplyDocument, DocumentReadable);
    }
  }

  /** The TCLogTestItem constructor, step by step: the node's own fields first,
      then each provider document overwriting the record in turn. */
  method NewTestItem(dir: Directory, parse: Parser, obj: Option<Object>) returns (r: Result<TestItem, Exception>)
    ensures r == BuildTestItem(dir, parse, obj)
  {
    if obj.None? {
      return Success(NULL_TEST_ITEM);
    }
    var o := obj.value;
    var header :- Header(o);
    var item := header;
    if "providers" !in o {
      return Success(item);
    }
    var providers :- GetArray(o, "providers");
    r := ReadProviders(dir, parse, header, providers);
  }

  /** The loop over the node's providers. */
  method ReadProviders(dir: Directory, parse: Parser, header: TestItem, providers: seq<Json>) returns (r: Result<TestItem, Exception>)
    ensures r == ApplyDocuments(header, Documents(dir, parse, providers), |providers|, ApplyDocument)
  {
    ghost var docs := Documents(dir, parse, providers);
    ghost var apply := ApplyDocument;
    var item := header;
    var i := 0;
    while i < |providers|
      invariant 0 <= i <= |providers|
      invariant ApplyDocuments(header, docs, i, apply) == Success(item)
    {
      var next := ReadProvider(dir, parse, item, providers, i);
      ProviderStep(dir, parse, providers, header, i, item, apply, next);
      if next.Failure? {
        return next;
      }
      item := next.value;
      i := i + 1;
    }
    return Success(item);
  }

  /** One turn of the loop over the node's providers. */
  method ReadProvider(dir: Directory, parse: Parser, item: TestItem, providers: seq<Json>, i: int) returns (r: Result<TestItem, Exception>)
    ensures r == Step(item, ProviderDocument(dir, parse, providers, i), ApplyDocument)
  {
    var href :- ProviderHref(providers, i);
    if href.Some? {
      var doc :- ResolveDocument(dir, parse, href.value);
      r := ApplyDocumentFields(item, doc);
    } else {
      r := Success(item);
    }
  }

  /** One provider document applied field by field, as the loop body of the
      constructor does it. */
  method ApplyDocumentFields(it: TestItem, doc: Object) returns (r: Result<TestItem, Exception>)
    ensures r == ApplyDocument(it, doc)
  {
    var item := it;
    var caption :- if "caption" in doc then GetString(doc, "caption") else Success("");
    item := item.(caption := Some(caption));
    if "items" in doc {
      var items :- GetArray(doc, "items");
      var first := OptObject(items, 0);
      if first.Some? {
        var message :- if "Message" in first.value then GetString(first.value, "Message") else Success("");
        item := item.(message := Some(message));
        if "Time" in first.value {
          var time :- GetObject(first.value, "Time");
          var msec :- GetInt(time, "msec");
          item := item.(runTime := msec);
        } else {
          item := item.(runTime := 0);
        }
        var itemType :- if "TypeDescription" in first.value then GetString(first.value, "TypeDescription") else Success("");
        item := item.(itemType := Some(itemType));
      }
    }
    return Success(item);
  }

  // ---------------------------------------------------------------- properties

  /** A built record found every file its providers point to: each provider is
      an object, and the lower-cased last segment of each href names an
      extracted file. */
  lemma BuiltTestItemFoundEveryFile(dir: Directory, parse: Parser, o: Object)
    requires BuildTestItem(dir, parse, Some(o)).Success?
    requires "providers" in o
    ensures o["providers"].JArr?
    ensures forall j :: 0 <= j < |o["providers"].elems| ==> o["providers"].elems[j].JObj?
    ensures forall j :: 0 <= j < |o["providers"].elems| && "href" in o["providers"].elems[j].fields ==>
              o["providers"].elems[j].fields["href"].JStr? && FileNameOf(o["providers"].elems[j].fields["href"].s) in dir
  {
    var providers := o["providers"].elems;
    EveryDocumentRead(Header(o).value, Documents(dir, parse, providers), |providers|, ApplyDocument);
    forall j | 0 <= j < |providers|
      ensures providers[j].JObj?
      ensures "href" in providers[j].fields ==> providers[j].fields["href"].JStr? && FileNameOf(providers[j].fields["href"].s) in dir
    {
      DocumentAt(dir, parse, providers, j);
    }
  }

  /** A provider whose file is missing ends the construction with the
      ConversionException naming that file, unless an earlier provider failed. */
  lemma MissingDocumentFails(dir: Directory, parse: Parser, it: TestItem, providers: seq<Json>, i: nat)
    requires i < |providers| && ApplyDocuments(it, Documents(dir, parse, providers), i, ApplyDocument).Success?
    requires providers[i].JObj? && "href" in providers[i].fields && providers[i].fields["href"].JStr?
    requires FileNameOf(providers[i].fields["href"].s) !in dir
    ensures ApplyDocuments(it, Documents(dir, parse, providers), |providers|, ApplyDocument) ==
              Failure(ConversionException(MissingEntryMessage(FileNameOf(providers[i].fields["href"].s))))
  {
    MissingFileFailsDocument(dir, parse, providers, i);
    FirstFailureDecides(it, Documents(dir, parse, providers), i, ApplyDocument);
  }

  predicate AnyDocument(doc: Object) { true }

  function CaptionOf(it: TestItem): Option<string> { it.caption }

  function DocumentCaption(doc: Object): Option<string> { Some(StringOr(doc, "caption", "")) }

  /** Every document resets the caption, so the last provider with a document
      decides it; with no document it keeps its value. */
  lemma LastDocumentDecidesCaption(it: TestItem, docs: seq<Document>)
    requires ApplyDocuments(it, docs, |docs|, ApplyDocument).Success?
    ensures LastDocumentWhere(docs, |docs|, AnyDocument) == -1 ==>
              ApplyDocuments(it, docs, |docs|, ApplyDocument).value.caption == it.caption
    ensures LastDocumentWhere(docs, |docs|, AnyDocument) >= 0 ==>
              ApplyDocuments(it, docs, |docs|, ApplyDocument).value.caption ==
                Some(StringOr(docs[LastDocumentWhere(docs, |docs|, AnyDocument)].value.value, "caption", ""))
  {
    LastDocumentWins(it, docs, |docs|, ApplyDocument, CaptionOf, AnyDocument, DocumentCaption);
  }

  /** A node without providers, or with an empty providers array, leaves
      caption, message and type null and the run time 0. */
  lemma NoProvidersLeavesDefaults(dir: Directory, parse: Parser, o: Object)
    requires "providers" !in o || o["providers"] == JArr([])
    requires BuildTestItem(dir, parse, Some(o)).Success?
    ensures var r := BuildTestItem(dir, parse, Some(o)).value;
            r.caption.None? && r.message.None? && r.itemType.None? && r.runTime == 0
  {
  }
}
