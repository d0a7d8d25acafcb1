/** How a log node's provider reference is turned into a parsed document.
    TCLogItem, TCLogTestItem each repeat these steps for every provider: reduce
    the href to a lower-cased file name, look the name up among the files
    extracted from the archive, strip the JavaScript call wrapper from the
    file's text and parse what is left as a JSON object. */
module ProviderDocuments {
  import opened Wrappers
  import opened JavaLang
  import opened Json

  /** The top level of the temporary directory the archive was extracted to:
      file name to text. */
  type Directory = map<string, string>

  /** href.substring(href.lastIndexOf("/") + 1).toLowerCase(): the part after
      the last '/', lower-cased. */
  function FileNameOf(href: string): (r: string)
    ensures |r| <= |href|
    ensures '/' !in href ==> r == ToLower(href)
  {
    ToLower(href[LastIndexOf(href, '/') + 1..])
  }

  /** The file name of a path is its last segment, lower-cased, whatever the
      directories before it. */
  lemma FileNameOfPath(directories: string, name: string)
    requires '/' !in name
    ensures FileNameOf(directories + "/" + name) == ToLower(name)
  {
    var href := directories + "/" + name;
    assert href[|directories|] == '/';
    assert href[|directories| + 1..] == name;
    LastIndexOfIs(href, '/', |directories|);
  }

  function MissingEntryMessage(name: string): string
  {
    "Invalid TestComplete MHT file. No entry with '" + name + "' found."
  }

  /** FileUtils.listFiles(dir, nameFileFilter(name), null): an exact,
      case-sensitive match in the top directory, or the ConversionException
      the callers throw when there is none. */
  function Lookup(dir: Directory, name: string): (r: Result<string, Exception>)
    ensures r.Success? <==> name in dir
    ensures r.Success? ==> r.value == dir[name]
    ensures r.Failure? ==> r.error == ConversionException(MissingEntryMessage(name))
  {
    if name in dir then Success(dir[name])
    else Failure(ConversionException(MissingEntryMessage(name)))
  }

  /** The payload of a provider document: the text after the first '(' up to
      but excluding the final character, then the part after its first ','.
      It throws when the text is empty or its first '(' is its last character. */
  function ProviderPayload(content: string): (r: Result<string, Exception>)
    ensures r.Success? <==> |content| >= 1 && IndexOf(content, '(') + 1 <= |content| - 1
    ensures r.Failure? ==> r.error == StringIndexOutOfBoundsException
    ensures r.Success? ==> AfterFirstCommaOf(content[IndexOf(content, '(') + 1..|content| - 1], r.value)
  {
    var start := IndexOf(content, '(');
    var inner := Substring(content, start + 1, |content| - 1);
    if inner.Failure? then Failure(inner.error)
    else Success(AfterComma(inner.value))
  }

  /** inner.substring(inner.indexOf(',') + 1): what follows the first ',',
      or all of inner when it has none. */
  function AfterComma(inner: string): (r: string)
    ensures AfterFirstCommaOf(inner, r)
  {
    AfterFirstComma(inner);
    inner[IndexOf(inner, ',') + 1..]
  }

  /** raw is what follows the first ',' of inner: a suffix of it, the whole of
      it when inner has no ',', and otherwise preceded by a ',' that is the
      first one. */
  predicate AfterFirstCommaOf(inner: string, raw: string)
  {
    && EndsWith(inner, raw)
    && (',' !in inner ==> raw == inner)
    && (',' in inner ==> |raw| < |inner| && ',' !in inner[..|inner| - |raw| - 1] && inner[|inner| - |raw| - 1] == ',')
  }

  /** What is left of a text after its first ',' is a suffix of it, and the
      character before that suffix is the first ','. */
  lemma AfterFirstComma(inner: string)
    ensures AfterFirstCommaOf(inner, inner[IndexOf(inner, ',') + 1..])
  {
    var i := IndexOf(inner, ',');
    var raw := inner[i + 1..];
    assert |inner| - |raw| == i + 1;
    if i >= 0 {
      assert inner[..|inner| - |raw| - 1] == inner[..i];
      assert inner[|inner| - |raw| - 1] == inner[i];
    } else {
      assert raw == inner;
    }
  }

  /** The wrapper TestComplete writes around a document: a call of `callee`
      whose first argument is an opaque request id and whose second is the
      JSON text. */
  function Wrapped(callee: string, requestId: string, json: string): string
  {
    callee + "(" + requestId + "," + json + ")"
  }

  /** Unwrapping a wrapped document gives back its JSON text, whatever that
      text contains, as long as the callee has no '(' and the request id no ','. */
  lemma ProviderPayloadOfWrapped(callee: string, requestId: string, json: string)
    requires '(' !in callee && ',' !in requestId
    ensures ProviderPayload(Wrapped(callee, requestId, json)) == Success(json)
  {
    var content := Wrapped(callee, requestId, json);
    assert content[..|callee|] == callee;
    IndexOfFirst(content, '(', |callee|);
    assert content[|callee| + 1..|content| - 1] == requestId + "," + json;
    CommaSplit(requestId, json);
  }

  /** With no ',' in id, what follows the first ',' of id + "," + rest is rest. */
  lemma CommaSplit(id: string, rest: string)
    requires ',' !in id
    ensures AfterComma(id + "," + rest) == rest
  {
    var inner := id + "," + rest;
    assert inner[..|id|] == id;
    IndexOfFirst(inner, ',', |id|);
    assert inner[|id| + 1..] == rest;
  }

  /** Reading, unwrapping and parsing the document a provider href points to. */
  function ResolveDocument(dir: Directory, parse: Parser, href: string): (r: Result<Object, Exception>)
    ensures FileNameOf(href) !in dir ==> r == Failure(ConversionException(MissingEntryMessage(FileNameOf(href))))
    ensures r.Success? <==>
              && FileNameOf(href) in dir
              && ProviderPayload(dir[FileNameOf(href)]).Success?
              && ParseObject(parse, ProviderPayload(dir[FileNameOf(href)]).value).Success?
    ensures r.Success? ==> FileNameOf(href) in dir
    ensures r.Success? ==> ProviderPayload(dir[FileNameOf(href)]).Success?
    ensures r.Success? ==> parse(ProviderPayload(dir[FileNameOf(href)]).value) == Some(JObj(r.value))
  {
    var content :- Lookup(dir, FileNameOf(href));
    var raw :- ProviderPayload(content);
    ParseObject(parse, raw)
  }

  /** The href of the i-th provider: `jsArray.optJSONObject(i)` followed by
      `has("href")` and `getString("href")`. An element that is not an object
      gives null, on which `has` throws a NullPointerException; a provider
      without an href gives None and is skipped by the callers. */
  function ProviderHref(providers: seq<Json>, i: int): (r: Result<Option<string>, Exception>)
    ensures r.Success? <==>
              OptObject(providers, i).Some? &&
              ("href" in OptObject(providers, i).value ==> OptObject(providers, i).value["href"].JStr?)
    ensures r.Success? && r.value.Some? ==>
              providers[i].JObj? && "href" in providers[i].fields && providers[i].fields["href"] == JStr(r.value.value)
    ensures r.Success? && r.value.None? ==> "href" !in providers[i].fields
    ensures OptObject(providers, i).None? ==> r == Failure(NullPointerException)
  {
    match OptObject(providers, i)
    case None => Failure(NullPointerException)
    case Some(p) =>
      if "href" in p then
        var href :- GetString(p, "href");
        Success(Some(href))
      else Success(None)
  }

  /** The document of the i-th provider: None when it has no href, the parsed
      document otherwise; it fails where ProviderHref or ResolveDocument does. */
  function ProviderDocument(dir: Directory, parse: Parser, providers: seq<Json>, i: int): (r: Result<Option<Object>, Exception>)
    ensures ProviderHref(providers, i).Failure? ==> r == Failure(ProviderHref(providers, i).error)
    ensures r.Success? ==> ProviderHref(providers, i).Success?
    ensures r.Success? ==>
              && 0 <= i < |providers| && providers[i].JObj?
              && ("href" in providers[i].fields ==>
                    providers[i].fields["href"].JStr? && FileNameOf(providers[i].fields["href"].s) in dir)
    ensures r.Success? <==>
              ProviderHref(providers, i).Success? &&
              (ProviderHref(providers, i).value.Some? ==> ResolveDocument(dir, parse, ProviderHref(providers, i).value.value).Success?)
    ensures r.Success? && r.value.None? <==> ProviderHref(providers, i) == Success(None)
    ensures r.Success? && r.value.Some? ==>
              ProviderHref(providers, i).Success? && ProviderHref(providers, i).value.Some? &&
              ResolveDocument(dir, parse, ProviderHref(providers, i).value.value) == Success(r.value.value)
  {
    var href :- ProviderHref(providers, i);
    match href
    case None => Success(None)
    case Some(h) =>
      var doc :- ResolveDocument(dir, parse, h);
      Success(Some(doc))
  }

  /** A provider whose href names a file that was not extracted fails with the
      ConversionException naming that file. */
  lemma MissingFileFailsDocument(dir: Directory, parse: Parser, providers: seq<Json>, i: int)
    requires 0 <= i < |providers| && providers[i].JObj?
    requires "href" in providers[i].fields && providers[i].fields["href"].JStr?
    requires FileNameOf(providers[i].fields["href"].s) !in dir
    ensures ProviderDocument(dir, parse, providers, i) ==
              Failure(ConversionException(MissingEntryMessage(FileNameOf(providers[i].fields["href"].s))))
  {
    var href := providers[i].fields["href"].s;
    assert ProviderHref(providers, i) == Success(Some(href));
  }

  /** What reading a provider's document can give: a failure, None for a
      provider without an href, or the parsed document. */
  type Document = Result<Option<Object>, Exception>

  /** The documents of all providers, in order. Nothing is read here: the
      constructors consult element i only once they reach provider i. */
  function Documents(dir: Directory, parse: Parser, providers: seq<Json>): (r: seq<Document>)
    ensures |r| == |providers|
  {
    seq(|providers|, i requires 0 <= i < |providers| => ProviderDocument(dir, parse, providers, i))
  }

  lemma DocumentAt(dir: Directory, parse: Parser, providers: seq<Json>, i: int)
    requires 0 <= i < |providers|
    ensures Documents(dir, parse, providers)[i] == ProviderDocument(dir, parse, providers, i)
  {
  }

  /** Provider i has a document that was read and parsed. */
  predicate HasDocument(docs: seq<Document>, i: int)
  {
    0 <= i < |docs| && docs[i].Success? && docs[i].value.Some?
  }

  /** One provider's turn in a constructor loop: a failure ends the loop, a
      provider without an href is skipped and a document is applied. */
  function Step<T>(prev: T, doc: Document, apply: (T, Object) -> Result<T, Exception>): (r: Result<T, Exception>)
    ensures doc.Failure? ==> r == Failure(doc.error)
    ensures doc == Success(None) ==> r == Success(prev)
    ensures doc.Success? && doc.value.Some? ==> r == apply(prev, doc.value.value)
  {
    var d :- doc;
    match d
    case None => Success(prev)
    case Some(document) => apply(prev, document)
  }

  /** A constructor's loop over its providers: the record after the first n of
      them, each document applied in order. */
  function ApplyDocuments<T>(start: T, docs: seq<Document>, n: nat, apply: (T, Object) -> Result<T, Exception>): Result<T, Exception>
    requires n <= |docs|
  {
    if n == 0 then Success(start)
    else
      var prev :- ApplyDocuments(start, docs, n - 1, apply);
      Step(prev, docs[n - 1], apply)
  }

  /** Once a provider fails, the construction ends with that failure. */
  lemma {:induction false} ApplyDocumentsFailurePersists<T>(start: T, docs: seq<Document>, i: nat, n: nat, apply: (T, Object) -> Result<T, Exception>)
    requires i <= n <= |docs|
    ensures ApplyDocuments(start, docs, i, apply).Failure? ==>
              ApplyDocuments(start, docs, n, apply) == ApplyDocuments(start, docs, i, apply)
    decreases n
  {
    if n > i {
      ApplyDocumentsFailurePersists(start, docs, i, n - 1, apply);
    }
  }

  /** One turn of a constructor loop: the record after provider i is that
      provider's step, and a failing step is the construction's outcome. */
  lemma ApplyDocumentsStep<T>(start: T, docs: seq<Document>, i: nat, item: T, apply: (T, Object) -> Result<T, Exception>, next: Result<T, Exception>)
    requires i < |docs| && ApplyDocuments(start, docs, i, apply) == Success(item) && next == Step(item, docs[i], apply)
    ensures ApplyDocuments(start, docs, i + 1, apply) == next
    ensures next.Failure? ==> ApplyDocuments(start, docs, |docs|, apply) == next
  {
    ApplyDocumentsFailurePersists(start, docs, i + 1, |docs|, apply);
  }

  /** ApplyDocumentsStep for the documents of a provider list: one turn of a
      constructor loop reading provider i. */
  lemma ProviderStep<T>(dir: Directory, parse: Parser, providers: seq<Json>, start: T, i: nat, item: T,
                        apply: (T, Object) -> Result<T, Exception>, next: Result<T, Exception>)
    requires i < |providers| && ApplyDocuments(start, Documents(dir, parse, providers), i, apply) == Success(item)
    requires next == Step(item, ProviderDocument(dir, parse, providers, i), apply)
    ensures ApplyDocuments(start, Documents(dir, parse, providers), i + 1, apply) == next
    ensures next.Failure? ==> ApplyDocuments(start, Documents(dir, parse, providers), |providers|, apply) == next
  {
    DocumentAt(dir, parse, providers, i);
    ApplyDocumentsStep(start, Documents(dir, parse, providers), i, item, apply, next);
  }

  /** A construction that succeeded after n providers succeeded after n - 1,
      and its last turn was provider n - 1's step. */
  lemma LastStep<T>(start: T, docs: seq<Document>, n: nat, apply: (T, Object) -> Result<T, Exception>)
    requires 0 < n <= |docs| && ApplyDocuments(start, docs, n, apply).Success?
    ensures ApplyDocuments(start, docs, n - 1, apply).Success?
    ensures ApplyDocuments(start, docs, n, apply) == Step(ApplyDocuments(start, docs, n - 1, apply).value, docs[n - 1], apply)
  {
  }

  /** A construction that succeeded read every provider's document. */
  lemma {:induction false} EveryDocumentRead<T>(start: T, docs: seq<Document>, n: nat, apply: (T, Object) -> Result<T, Exception>)
    requires n <= |docs|
    requires ApplyDocuments(start, docs, n, apply).Success?
    ensures forall j :: 0 <= j < n ==> docs[j].Success?
  {
    if n > 0 {
      EveryDocumentRead(start, docs, n - 1, apply);
    }
  }

  /** Every one of the first n documents was read, and each one present
      satisfies ok. */
  predicate DocumentsReadable(docs: seq<Document>, n: nat, ok: Object -> bool)
    requires n <= |docs|
  {
    forall j :: 0 <= j < n ==> docs[j].Success? && (docs[j].value.Some? ==> ok(docs[j].value.value))
  }

  /** When applying a document succeeds exactly when the document satisfies
      ok, whatever the record so far, the construction succeeds exactly when
      every document was read and satisfies ok. */
  lemma {:induction false} ApplyDocumentsSucceeds<T>(start: T, docs: seq<Document>, n: nat,
                                                     apply: (T, Object) -> Result<T, Exception>, ok: Object -> bool)
    requires n <= |docs|
    requires forall prev, d :: apply(prev, d).Success? == ok(d)
    ensures ApplyDocuments(start, docs, n, apply).Success? <==> DocumentsReadable(docs, n, ok)
  {
    if n > 0 {
      ApplyDocumentsSucceeds(start, docs, n - 1, apply, ok);
    }
  }

  /** A view get of the record that no document changes is the same after the
      construction as at its start. */
  lemma {:induction false} ApplyDocumentsKeeps<T, U>(start: T, docs: seq<Document>, n: nat,
                                                     apply: (T, Object) -> Result<T, Exception>, get: T -> U)
    requires n <= |docs|
    requires forall prev, d :: apply(prev, d).Success? ==> get(apply(prev, d).value) == get(prev)
    ensures ApplyDocuments(start, docs, n, apply).Success? ==> get(ApplyDocuments(start, docs, n, apply).value) == get(start)
  {
    if n > 0 {
      ApplyDocumentsKeeps(start, docs, n - 1, apply, get);
    }
  }

  /** Every provider of the list can be read, and each document one of them
      names satisfies ok. */
  predicate ProvidersReadable(dir: Directory, parse: Parser, providers: seq<Json>, ok: Object -> bool)
  {
    forall j :: 0 <= j < |providers| ==>
      ProviderDocument(dir, parse, providers, j).Success? &&
      (ProviderDocument(dir, parse, providers, j).value.Some? ==> ok(ProviderDocument(dir, parse, providers, j).value.value))
  }

  /** ApplyDocumentsSucceeds for the documents of a provider list. */
  lemma ProvidersApplied<T>(start: T, dir: Directory, parse: Parser, providers: seq<Json>,
                            apply: (T, Object) -> Result<T, Exception>, ok: Object -> bool)
    requires forall prev, d :: apply(prev, d).Success? == ok(d)
    ensures ApplyDocuments(start, Documents(dir, parse, providers), |providers|, apply).Success? <==>
              ProvidersReadable(dir, parse, providers, ok)
  {
    var docs := Documents(dir, parse, providers);
    ApplyDocumentsSucceeds(start, docs, |providers|, apply, ok);
    forall j | 0 <= j < |providers|
      ensures docs[j] == ProviderDocument(dir, parse, providers, j)
    {
    }
  }

  /** The first provider that fails decides the outcome of the construction. */
  lemma FirstFailureDecides<T>(start: T, docs: seq<Document>, i: nat, apply: (T, Object) -> Result<T, Exception>)
    requires i < |docs| && docs[i].Failure?
    requires ApplyDocuments(start, docs, i, apply).Success?
    ensures ApplyDocuments(start, docs, |docs|, apply) == Failure(docs[i].error)
  {
    ApplyDocumentsFailurePersists(start, docs, i + 1, |docs|, apply);
  }

  /** The index of the last of the first n providers whose document satisfies
      p, or -1. */
  function LastDocumentWhere(docs: seq<Document>, n: nat, p: Object -> bool): (r: int)
    requires n <= |docs|
    ensures -1 <= r < n
    ensures r >= 0 ==> HasDocument(docs, r) && p(docs[r].value.value)
    ensures forall k :: r < k < n && HasDocument(docs, k) ==> !p(docs[k].value.value)
  {
    if n == 0 then -1
    else if HasDocument(docs, n - 1) && p(docs[n - 1].value.value) then n - 1
    else LastDocumentWhere(docs, n - 1, p)
  }

  /** Last value wins: when every document either sets a field (get) to a value
      it determines or, when it fails p, leaves it alone, the field ends with the
      value of the last document satisfying p, or its starting value if none. */
  lemma {:induction false} LastDocumentWins<T, U>(start: T, docs: seq<Document>, n: nat, apply: (T, Object) -> Result<T, Exception>,
                                                 get: T -> U, p: Object -> bool, value: Object -> U)
    requires n <= |docs|
    requires forall prev, d :: apply(prev, d).Success? ==> get(apply(prev, d).value) == (if p(d) then value(d) else get(prev))
    requires ApplyDocuments(start, docs, n, apply).Success?
    ensures LastDocumentWhere(docs, n, p) == -1 ==> get(ApplyDocuments(start, docs, n, apply).value) == get(start)
    ensures LastDocumentWhere(docs, n, p) >= 0 ==>
              get(ApplyDocuments(start, docs, n, apply).value) == value(docs[LastDocumentWhere(docs, n, p)].value.value)
  {
    if n > 0 {
      LastDocumentWins(start, docs, n - 1, apply, get, p, value);
    }
  }
}
