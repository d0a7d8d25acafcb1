/** TCLog: one node of the log tree read from _root.js. setTCLog fills the
    node's own fields with their defaults, builds one child node per element of
    "children" and one provider node per element of "providers", recursively,
    and records whether the node had any children. The tree is given twice:
    LogNode is its value, built by pure functions, and TCLog is the object
    TCLog.java mutates, whose methods are proved to build that value. */
module LogTree {
  import opened Wrappers
  import opened JavaLang
  import opened Json

  datatype LogNode = LogNode(
    name: string,
    status: int,
    href: string,
    id: string,
    schemaType: string,
    children: seq<LogNode>,
    providers: seq<LogNode>,
    activeProviderName: string,
    empty: bool)

  /** The node's own fields, "" (and 0, and "none" for schemaType) when
      absent. */
  datatype NodeFields = NodeFields(name: string, status: int, href: string, id: string, schemaType: string)

  function ReadFields(o: Object): (r: Result<NodeFields, Exception>)
    ensures r.Success? ==>
              && StringOr(o, "name", "") == r.value.name && StringOr(o, "href", "") == r.value.href
              && StringOr(o, "id", "") == r.value.id && StringOr(o, "schemaType", "none") == r.value.schemaType
              && ("status" in o ==> o["status"].JNum? && r.value.status == ToInt32(o["status"].n))
              && ("status" !in o ==> r.value.status == 0)
    ensures r.Failure? <==>
              ("name" in o && !o["name"].JStr?) || ("status" in o && !o["status"].JNum?) ||
              ("href" in o && !o["href"].JStr?) || ("id" in o && !o["id"].JStr?) ||
              ("schemaType" in o && !o["schemaType"].JStr?)
  {
    var name :- if "name" in o then GetString(o, "name") else Success("");
    var status :- if "status" in o then GetInt(o, "status") else Success(0);
    var href :- if "href" in o then GetString(o, "href") else Success("");
    var id :- if "id" in o then GetString(o, "id") else Success("");
    var schemaType :- if "schemaType" in o then GetString(o, "schemaType") else Success("none");
    Success(NodeFields(name, status, href, id, schemaType))
  }

  /** setTCLog as a value: the node a JSON object describes. */
  function BuildNode(o: Object): (r: Result<LogNode, Exception>)
    decreases JObj(o), 1
    ensures r.Success? ==> r.value.activeProviderName == "" && (r.value.empty <==> r.value.children == [])
    ensures r.Success? ==> ReadFields(o) == Success(NodeFields(r.value.name, r.value.status, r.value.href, r.value.id, r.value.schemaType))
    ensures r.Success? ==> ChildrenOf(o) == Success(r.value.children) && ProvidersOf(o) == Success(r.value.providers)
  {
    var fields :- ReadFields(o);
    var children :- ChildrenOf(o);
    var providers :- ProvidersOf(o);
    Success(LogNode(fields.name, fields.status, fields.href, fields.id, fields.schemaType,
                    children, providers, "", children == []))
  }

  /** How BuildNode ends once the plain fields have been read. */
  lemma BuildNodeOutcome(o: Object)
    requires ReadFields(o).Success?
    ensures ChildrenOf(o).Failure? ==> BuildNode(o) == Failure(ChildrenOf(o).error)
    ensures ChildrenOf(o).Success? && ProvidersOf(o).Failure? ==> BuildNode(o) == Failure(ProvidersOf(o).error)
    ensures ChildrenOf(o).Success? && ProvidersOf(o).Success? ==>
              var f := ReadFields(o).value;
              BuildNode(o) == Success(LogNode(f.name, f.status, f.href, f.id, f.schemaType, ChildrenOf(o).value,
                                              ProvidersOf(o).value, "", ChildrenOf(o).value == []))
  {
  }

  /** The child nodes of "children", none when the key is absent. */
  function ChildrenOf(o: Object): Result<seq<LogNode>, Exception>
    decreases JObj(o), 0
  {
    if "children" in o then
      var elems :- GetArray(o, "children");
      BuildChildren(elems, |elems|)
    else Success([])
  }

  /** The provider nodes of "providers", none when the key is absent. */
  function ProvidersOf(o: Object): Result<seq<LogNode>, Exception>
    decreases JObj(o), 0
  {
    if "providers" in o then
      var elems :- GetArray(o, "providers");
      BuildProviders(elems, |elems|)
    else Success([])
  }

  /** The children built from the first n elements: optJSONObject gives null
      for an element that is not an object, and `new TCLog(null)` throws. */
  function BuildChildren(elems: seq<Json>, n: nat): Result<seq<LogNode>, Exception>
    requires n <= |elems|
    decreases JArr(elems), n
  {
    if n == 0 then Success([])
    else
      var prev :- BuildChildren(elems, n - 1);
      match OptObject(elems, n - 1)
      case None => Failure(NullPointerException)
      case Some(child) =>
        var node :- BuildNode(child);
        Success(prev + [node])
  }

  /** The providers built from the first n elements: getJSONObject throws for
      an element that is not an object. */
  function BuildProviders(elems: seq<Json>, n: nat): Result<seq<LogNode>, Exception>
    requires n <= |elems|
    decreases JArr(elems), n
  {
    if n == 0 then Success([])
    else
      var prev :- BuildProviders(elems, n - 1);
      match OptObject(elems, n - 1)
      case None => Failure(JSONArrayException(n - 1))
      case Some(provider) =>
        var node :- BuildNode(provider);
        Success(prev + [node])
  }

  // ---------------------------------------------------------------- index scan

  predicate IsSummary(p: LogNode)
  {
    Contains(ToLower(p.name), "summary")
  }

  predicate IsPerformanceCounters(p: LogNode)
  {
    p.schemaType == "aqds:table" && Contains(ToLower(p.name), "performance counters")
  }

  /** summary_index: the last provider whose lower-cased name contains
      "summary", or -1. */
  function SummaryIndex(providers: seq<LogNode>): (r: int)
    ensures -1 <= r < |providers|
    ensures r >= 0 ==> IsSummary(providers[r])
    ensures forall k :: r < k < |providers| ==> !IsSummary(providers[k])
  {
    if providers == [] then -1
    else if IsSummary(providers[|providers| - 1]) then |providers| - 1
    else SummaryIndex(providers[..|providers| - 1])
  }

  /** perfcounters_index: the last provider of schema type "aqds:table" whose
      lower-cased name contains "performance counters", or -1. */
  function PerfCountersIndex(providers: seq<LogNode>): (r: int)
    ensures -1 <= r < |providers|
    ensures r >= 0 ==> IsPerformanceCounters(providers[r])
    ensures forall k :: r < k < |providers| ==> !IsPerformanceCounters(providers[k])
  {
    if providers == [] then -1
    else if IsPerformanceCounters(providers[|providers| - 1]) then |providers| - 1
    else PerfCountersIndex(providers[..|providers| - 1])
  }

  // ---------------------------------------------------------------- the object

  /** Nodes each holding the corresponding value, every one of them with its
      Repr inside `below`. */
  ghost predicate NodesHold(nodes: seq<TCLog>, values: seq<LogNode>, below: set<object>)
    reads nodes, below
  {
    && |nodes| == |values|
    && forall k :: 0 <= k < |nodes| ==> nodes[k].Repr <= below && nodes[k].Matches(values[k])
  }

  /** A node that holds a value can be added to nodes that hold theirs. */
  lemma NodesHoldAppend(nodes: seq<TCLog>, values: seq<LogNode>, below: set<object>, node: TCLog, value: LogNode)
    requires NodesHold(nodes, values, below) && node.Matches(value)
    ensures NodesHold(nodes + [node], values + [value], below + node.Repr)
  {
    var all := nodes + [node];
    forall k | 0 <= k < |all|
      ensures all[k].Repr <= below + node.Repr && all[k].Matches((values + [value])[k])
    {
      if k < |nodes| {
        assert all[k] == nodes[k];
      }
    }
  }

  class TCLog {
    var name: string
    var status: int
    var href: string
    var id: string
    var schemaType: string
    var children: seq<TCLog>
    var providers: seq<TCLog>
    var activeProviderName: string
    var empty: bool
    /** This node and every node below it. */
    ghost var Repr: set<object>

    /** Every child and provider is a valid node of its own, inside Repr and
        not containing this node. */
    ghost predicate Valid()
      reads this, Repr
      decreases Repr
    {
      && this in Repr
      && (forall c :: c in children ==> c in Repr && c.Repr <= Repr && this !in c.Repr && c.Valid())
      && (forall p :: p in providers ==> p in Repr && p.Repr <= Repr && this !in p.Repr && p.Valid())
    }

    /** This object and the ones below it hold the tree `node`. */
    ghost predicate Matches(node: LogNode)
      reads this, Repr
      decreases Repr
    {
      && Valid()
      && name == node.name && status == node.status && href == node.href && id == node.id
      && schemaType == node.schemaType && activeProviderName == node.activeProviderName && empty == node.empty
      && |children| == |node.children| && |providers| == |node.providers|
      && (forall i :: 0 <= i < |children| ==> children[i].Matches(node.children[i]))
      && (forall i :: 0 <= i < |providers| ==> providers[i].Matches(node.providers[i]))
    }

    /** A node before setTCLog has run. */
    constructor Init()
      ensures Valid() && fresh(Repr) && children == [] && providers == []
    {
      name, status, href, id, schemaType := "", 0, "", "", "";
      children, providers := [], [];
      activeProviderName, empty := "", false;
      Repr := {this};
    }

    /** `new TCLog(obj)`. */
    static method Create(o: Object) returns (r: Result<TCLog, Exception>)
      decreases JObj(o), 3
      ensures r.Success? <==> BuildNode(o).Success?
      ensures r.Failure? ==> r == Failure(BuildNode(o).error)
      ensures r.Success? ==> fresh(r.value.Repr) && r.value.Matches(BuildNode(o).value)
    {
      var log := new TCLog.Init();
      var outcome := log.SetTCLog(o);
      if outcome.Fail? {
        return Failure(outcome.error);
      }
      return Success(log);
    }

    /** setTCLog: every field is rebuilt from `o`, whatever the node held
        before. On failure the node is left part-way and is not described. */
    method SetTCLog(o: Object) returns (r: Outcome<Exception>)
      modifies this
      decreases JObj(o), 2
      ensures r.Pass? <==> BuildNode(o).Success?
      ensures r.Fail? ==> r.error == BuildNode(o).error
      ensures r.Pass? ==> Matches(BuildNode(o).value) && fresh(Repr - {this})
    {
      var fields := ReadFields(o);
      if fields.Failure? {
        return Fail(fields.error);
      }
      name, status, href, id, schemaType :=
        fields.value.name, fields.value.status, fields.value.href, fields.value.id, fields.value.schemaType;
      r := SetTree(o);
    }

    /** The rest of setTCLog, once the node's own fields are set: its
        children and providers are built, attached, and the providers scanned. */
    method SetTree(o: Object) returns (r: Outcome<Exception>)
      requires ReadFields(o).Success?
      requires name == ReadFields(o).value.name && status == ReadFields(o).value.status && href == ReadFields(o).value.href
      requires id == ReadFields(o).value.id && schemaType == ReadFields(o).value.schemaType
      modifies this
      decreases JObj(o), 1
      ensures r.Pass? <==> BuildNode(o).Success?
      ensures r.Fail? ==> r.error == BuildNode(o).error
      ensures r.Pass? ==> Matches(BuildNode(o).value) && fresh(Repr - {this})
    {
      BuildNodeOutcome(o);
      var childNodes, childrenBelow := ReadChildren(o);
      if childNodes.Failure? {
        return Fail(childNodes.error);
      }
      var providerNodes, providersBelow := ReadProviders(o);
      if providerNodes.Failure? {
        return Fail(providerNodes.error);
      }
      Finish(childNodes.value, providerNodes.value, BuildNode(o).value, childrenBelow, providersBelow);
      return Pass;
    }

    /** Attach the built children and providers, then scan the providers for
        the summary and performance-counter entries. */
    method Finish(childNodes: seq<TCLog>, providerNodes: seq<TCLog>, ghost node: LogNode,
                  ghost childrenBelow: set<object>, ghost providersBelow: set<object>)
      requires NodesHold(childNodes, node.children, childrenBelow) && NodesHold(providerNodes, node.providers, providersBelow)
      requires this !in childrenBelow && this !in providersBelow
      requires name == node.name && status == node.status && href == node.href && id == node.id && schemaType == node.schemaType
      requires node.activeProviderName == "" && (node.empty <==> node.children == [])
      modifies this
      ensures Matches(node) && Repr == {this} + childrenBelow + providersBelow
    {
      Attach(childNodes, providerNodes, node, childrenBelow, providersBelow);
      var summaryIndex, perfCountersIndex := ScanProviders(providers, node.providers);
    }

    /** The children of setTCLog, when "children" is present. */
    static method ReadChildren(o: Object) returns (r: Result<seq<TCLog>, Exception>, ghost below: set<object>)
      decreases JObj(o), 0
      ensures r.Success? <==> ChildrenOf(o).Success?
      ensures r.Failure? ==> r.error == ChildrenOf(o).error
      ensures r.Success? ==> NodesHold(r.value, ChildrenOf(o).value, below)
      ensures fresh(below)
    {
      if "children" !in o {
        return Success([]), {};
      }
      var elems := GetArray(o, "children");
      if elems.Failure? {
        return Failure(elems.error), {};
      }
      r, below := CreateChildren(elems.value);
    }

    /** The providers of setTCLog, when "providers" is present. */
    static method ReadProviders(o: Object) returns (r: Result<seq<TCLog>, Exception>, ghost below: set<object>)
      decreases JObj(o), 0
      ensures r.Success? <==> ProvidersOf(o).Success?
      ensures r.Failure? ==> r.error == ProvidersOf(o).error
      ensures r.Success? ==> NodesHold(r.value, ProvidersOf(o).value, below)
      ensures fresh(below)
    {
      if "providers" !in o {
        return Success([]), {};
      }
      var elems := GetArray(o, "providers");
      if elems.Failure? {
        return Failure(elems.error), {};
      }
      r, below := CreateProviders(elems.value);
    }

    /** The end of setTCLog: the built children and providers become this
        node's, with no active provider, and the node is empty when it has no
        children. */
    method Attach(childNodes: seq<TCLog>, providerNodes: seq<TCLog>, ghost node: LogNode,
                  ghost childrenBelow: set<object>, ghost providersBelow: set<object>)
      requires NodesHold(childNodes, node.children, childrenBelow) && NodesHold(providerNodes, node.providers, providersBelow)
      requires this !in childrenBelow && this !in providersBelow
      requires name == node.name && status == node.status && href == node.href && id == node.id && schemaType == node.schemaType
      requires node.activeProviderName == "" && (node.empty <==> node.children == [])
      modifies this
      ensures Matches(node) && Repr == {this} + childrenBelow + providersBelow
      ensures children == childNodes && providers == providerNodes
      ensures forall k :: 0 <= k < |providers| ==>
                providers[k].name == node.providers[k].name && providers[k].schemaType == node.providers[k].schemaType
    {
      children, providers, activeProviderName, empty := childNodes, providerNodes, "", |childNodes| == 0;
      Repr := {this} + childrenBelow + providersBelow;
      MatchesFromParts(node);
    }

    /** A node whose own fields are those of `node`, whose children and
        providers hold node's, and whose Repr is exactly itself and the
        objects below them, holds `node`. */
    lemma MatchesFromParts(node: LogNode)
      requires this in Repr
      requires |children| == |node.children| && |providers| == |node.providers|
      requires forall k :: 0 <= k < |children| ==>
                 children[k].Repr <= Repr && this !in children[k].Repr && children[k].Matches(node.children[k])
      requires forall k :: 0 <= k < |providers| ==>
                 providers[k].Repr <= Repr && this !in providers[k].Repr && providers[k].Matches(node.providers[k])
      requires name == node.name && status == node.status && href == node.href && id == node.id
      requires schemaType == node.schemaType && activeProviderName == node.activeProviderName && empty == node.empty
      ensures Matches(node)
    {
      forall c | c in children
        ensures c in Repr && c.Repr <= Repr && this !in c.Repr && c.Valid()
      {
        var k :| 0 <= k < |children| && children[k] == c;
        assert c.Matches(node.children[k]);
      }
      forall p | p in providers
        ensures p in Repr && p.Repr <= Repr && this !in p.Repr && p.Valid()
      {
        var k :| 0 <= k < |providers| && providers[k] == p;
        assert p.Matches(node.providers[k]);
      }
    }

    /** The children loop: `new TCLog(jsonArray.optJSONObject(i))` for each
        element, in order. */
    static method CreateChildren(elems: seq<Json>) returns (r: Result<seq<TCLog>, Exception>, ghost below: set<object>)
      decreases JArr(elems)
      ensures r.Success? <==> BuildChildren(elems, |elems|).Success?
      ensures r.Failure? ==> r.error == BuildChildren(elems, |elems|).error
      ensures r.Success? ==> NodesHold(r.value, BuildChildren(elems, |elems|).value, below)
      ensures fresh(below)
    {
      var nodes: seq<TCLog> := [];
      ghost var values: seq<LogNode> := [];
      below := {};
      var i := 0;
      while i < |elems|
        invariant 0 <= i <= |elems|
        invariant BuildChildren(elems, i) == Success(values)
        invariant NodesHold(nodes, values, below)
        invariant fresh(below)
      {
        BuildChildrenNext(elems, i, values);
        var js := OptObject(elems, i);
        if js.None? {
          return Failure(NullPointerException), below;
        }
        var child := CreateNext(js.value, nodes, values, below);
        if child.Failure? {
          return Failure(child.error), below;
        }
        values := values + [BuildNode(js.value).value];
        nodes := nodes + [child.value];
        below := below + child.value.Repr;
        i := i + 1;
      }
      return Success(nodes), below;
    }

    /** The providers loop: `new TCLog(jsonArray.getJSONObject(i))` for each
        element, in order. */
    static method CreateProviders(elems: seq<Json>) returns (r: Result<seq<TCLog>, Exception>, ghost below: set<object>)
      decreases JArr(elems)
      ensures r.Success? <==> BuildProviders(elems, |elems|).Success?
      ensures r.Failure? ==> r.error == BuildProviders(elems, |elems|).error
      ensures r.Success? ==> NodesHold(r.value, BuildProviders(elems, |elems|).value, below)
      ensures fresh(below)
    {
      var nodes: seq<TCLog> := [];
      ghost var values: seq<LogNode> := [];
      below := {};
      var i := 0;
      while i < |elems|
        invariant 0 <= i <= |elems|
        invariant BuildProviders(elems, i) == Success(values)
        invariant NodesHold(nodes, values, below)
        invariant fresh(below)
      {
        BuildProvidersNext(elems, i, values);
        var js := OptObject(elems, i);
        if js.None? {
          return Failure(JSONArrayException(i)), below;
        }
        var provider := CreateNext(js.value, nodes, values, below);
        if provider.Failure? {
          return Failure(provider.error), below;
        }
        values := values + [BuildNode(js.value).value];
        nodes := nodes + [provider.value];
        below := below + provider.value.Repr;
        i := i + 1;
      }
      return Success(nodes), below;
    }

    /** `new TCLog(o)` inside the children or providers loop: the nodes
        built so far, together with the new one, still hold their values. */
    static method CreateNext(o: Object, nodes: seq<TCLog>, ghost values: seq<LogNode>, ghost below: set<object>)
      returns (r: Result<TCLog, Exception>)
      requires NodesHold(nodes, values, below)
      decreases JObj(o), 4
      ensures r.Success? <==> BuildNode(o).Success?
      ensures r.Failure? ==> r == Failure(BuildNode(o).error)
      ensures r.Success? ==>
                fresh(r.value.Repr) && NodesHold(nodes + [r.value], values + [BuildNode(o).value], below + r.value.Repr)
    {
      r := Create(o);
      if r.Success? {
        NodesHoldAppend(nodes, values, below, r.value, BuildNode(o).value);
      }
    }

    /** The index scan of setTCLog over the built providers. */
    static method ScanProviders(providers: seq<TCLog>, ghost nodes: seq<LogNode>) returns (summary: int, perfCounters: int)
      requires |providers| == |nodes|
      requires forall k :: 0 <= k < |providers| ==> providers[k].name == nodes[k].name && providers[k].schemaType == nodes[k].schemaType
      ensures summary == SummaryIndex(nodes)
      ensures perfCounters == PerfCountersIndex(nodes)
    {
      summary, perfCounters := -1, -1;
      var i := 0;
      while i < |providers|
        invariant 0 <= i <= |providers|
        invariant summary == SummaryIndex(nodes[..i])
        invariant perfCounters == PerfCountersIndex(nodes[..i])
      {
        var providerName := ToLower(providers[i].name);
        assert nodes[..i + 1][..i] == nodes[..i];
        if Contains(providerName, "summary") {
          summary := i;
        }
        if providers[i].schemaType == "aqds:table" && Contains(providerName, "performance counters") {
          perfCounters := i;
        }
        i := i + 1;
      }
      assert nodes[..i] == nodes;
    }

    /** isEmpty. */
    function IsEmpty(): bool
      reads this
    {
      empty
    }

    method SetName(newName: string)
      requires Valid()
      modifies this
      ensures Valid() && name == newName
      ensures status == old(status) && href == old(href) && id == old(id) && schemaType == old(schemaType)
      ensures children == old(children) && providers == old(providers)
      ensures activeProviderName == old(activeProviderName) && empty == old(empty) && Repr == old(Repr)
    {
      name := newName;
    }

    method SetStatus(newStatus: int)
      requires Valid()
      modifies this
      ensures Valid() && status == newStatus
      ensures name == old(name) && href == old(href) && id == old(id) && schemaType == old(schemaType)
      ensures children == old(children) && providers == old(providers)
      ensures activeProviderName == old(activeProviderName) && empty == old(empty) && Repr == old(Repr)
    {
      status := newStatus;
    }

    method SetHref(newHref: string)
      requires Valid()
      modifies this
      ensures Valid() && href == newHref
      ensures name == old(name) && status == old(status) && id == old(id) && schemaType == old(schemaType)
      ensures children == old(children) && providers == old(providers)
      ensures activeProviderName == old(activeProviderName) && empty == old(empty) && Repr == old(Repr)
    {
      href := newHref;
    }

    method SetId(newId: string)
      requires Valid()
      modifies this
      ensures Valid() && id == newId
      ensures name == old(name) && status == old(status) && href == old(href) && schemaType == old(schemaType)
      ensures children == old(children) && providers == old(providers)
      ensures activeProviderName == old(activeProviderName) && empty == old(empty) && Repr == old(Repr)
    {
      id := newId;
    }

    method SetSchemaType(newSchemaType: string)
      requires Valid()
      modifies this
      ensures Valid() && schemaType == newSchemaType
      ensures name == old(name) && status == old(status) && href == old(href) && id == old(id)
      ensures children == old(children) && providers == old(providers)
      ensures activeProviderName == old(activeProviderName) && empty == old(empty) && Repr == old(Repr)
    {
      schemaType := newSchemaType;
    }

    method SetActiveProviderName(newName: string)
      requires Valid()
      modifies this
      ensures Valid() && activeProviderName == newName
      ensures name == old(name) && status == old(status) && href == old(href) && id == old(id) && schemaType == old(schemaType)
      ensures children == old(children) && providers == old(providers)
      ensures empty == old(empty) && Repr == old(Repr)
    {
      activeProviderName := newName;
    }

    /** setChildren: the list is replaced, and isEmpty keeps its value. */
    method SetChildren(newChildren: seq<TCLog>)
      requires Valid()
      requires forall c :: c in newChildren ==> c.Valid() && this !in c.Repr
      modifies this
      ensures Valid() && children == newChildren
      ensures name == old(name) && status == old(status) && href == old(href) && id == old(id) && schemaType == old(schemaType)
      ensures providers == old(providers) && activeProviderName == old(activeProviderName) && empty == old(empty)
    {
      children := newChildren;
      Repr := Repr + set c, o | c in newChildren && o in c.Repr :: o;
    }

    /** setProviders: the list is replaced. */
    method SetProviders(newProviders: seq<TCLog>)
      requires Valid()
      requires forall p :: p in newProviders ==> p.Valid() && this !in p.Repr
      modifies this
      ensures Valid() && providers == newProviders
      ensures name == old(name) && status == old(status) && href == old(href) && id == old(id) && schemaType == old(schemaType)
      ensures children == old(children) && activeProviderName == old(activeProviderName) && empty == old(empty)
    {
      providers := newProviders;
      Repr := Repr + set p, o | p in newProviders && o in p.Repr :: o;
    }

    /** addChildren: one child appended; the isEmpty flag is not updated, so a
        node built without children still reports empty afterwards. */
    method AddChildren(child: TCLog)
      requires Valid() && child.Valid() && this !in child.Repr
      modifies this
      ensures Valid() && children == old(children) + [child]
      ensures empty == old(empty) && IsEmpty() == old(IsEmpty())
      ensures name == old(name) && status == old(status) && href == old(href) && id == old(id) && schemaType == old(schemaType)
      ensures providers == old(providers) && activeProviderName == old(activeProviderName)
      ensures Repr == old(Repr) + child.Repr
    {
      children := children + [child];
      Repr := Repr + child.Repr;
    }
  }

  // ---------------------------------------------------------------- the cast

  /** setTCLog as written: `(TCLog[]) getProviders().toArray()` casts the
      Object[] that ArrayList.toArray returns, which throws
      ClassCastException. The first child or provider is built before that
      cast is reached, and throws it first. */
  function SetTCLogAsWritten(o: Object): (r: Outcome<Exception>)
    decreases JObj(o)
    ensures r.Fail?
  {
    if ReadFields(o).Failure? then Fail(ReadFields(o).error)
    else if "children" in o && !o["children"].JArr? then Fail(JSONException("children"))
    else if "children" in o && |o["children"].elems| > 0 then
      match OptObject(o["children"].elems, 0)
      case None => Fail(NullPointerException)
      case Some(child) => SetTCLogAsWritten(child)
    else if "providers" in o && !o["providers"].JArr? then Fail(JSONException("providers"))
    else if "providers" in o && |o["providers"].elems| > 0 then
      match OptObject(o["providers"].elems, 0)
      case None => Fail(JSONArrayException(0))
      case Some(provider) => SetTCLogAsWritten(provider)
    else Fail(ClassCastException)
  }

  /** Every object the corrected setTCLog builds a node from makes the
      written one throw ClassCastException: no node is ever built. */
  lemma {:induction false} CastAlwaysFails(o: Object)
    requires BuildNode(o).Success?
    ensures SetTCLogAsWritten(o) == Fail(ClassCastException)
    decreases JObj(o)
  {
    if "children" in o && |o["children"].elems| > 0 {
      var elems := o["children"].elems;
      ChildrenOnePerElement(elems, |elems|);
      CastAlwaysFails(elems[0].fields);
    } else if "providers" in o && |o["providers"].elems| > 0 {
      var elems := o["providers"].elems;
      ProvidersOnePerElement(elems, |elems|);
      CastAlwaysFails(elems[0].fields);
    }
  }

  // ---------------------------------------------------------------- properties

  /** What element i adds to the children built so far, and how a failure
      there ends the whole loop. */
  lemma BuildChildrenNext(elems: seq<Json>, i: nat, values: seq<LogNode>)
    requires i < |elems| && BuildChildren(elems, i) == Success(values)
    ensures OptObject(elems, i).None? ==> BuildChildren(elems, |elems|) == Failure(NullPointerException)
    ensures OptObject(elems, i).Some? && BuildNode(OptObject(elems, i).value).Failure? ==>
              BuildChildren(elems, |elems|) == Failure(BuildNode(OptObject(elems, i).value).error)
    ensures OptObject(elems, i).Some? && BuildNode(OptObject(elems, i).value).Success? ==>
              BuildChildren(elems, i + 1) == Success(values + [BuildNode(OptObject(elems, i).value).value])
  {
    BuildChildrenFailurePersists(elems, i + 1, |elems|);
  }

  lemma {:induction false} BuildChildrenFailurePersists(elems: seq<Json>, i: nat, n: nat)
    requires i <= n <= |elems|
    ensures BuildChildren(elems, i).Failure? ==> BuildChildren(elems, n) == BuildChildren(elems, i)
    decreases n
  {
    if n > i {
      BuildChildrenFailurePersists(elems, i, n - 1);
    }
  }

  /** What element i adds to the providers built so far, and how a failure
      there ends the whole loop. */
  lemma BuildProvidersNext(elems: seq<Json>, i: nat, values: seq<LogNode>)
    requires i < |elems| && BuildProviders(elems, i) == Success(values)
    ensures OptObject(elems, i).None? ==> BuildProviders(elems, |elems|) == Failure(JSONArrayException(i))
    ensures OptObject(elems, i).Some? && BuildNode(OptObject(elems, i).value).Failure? ==>
              BuildProviders(elems, |elems|) == Failure(BuildNode(OptObject(elems, i).value).error)
    ensures OptObject(elems, i).Some? && BuildNode(OptObject(elems, i).value).Success? ==>
              BuildProviders(elems, i + 1) == Success(values + [BuildNode(OptObject(elems, i).value).value])
  {
    BuildProvidersFailurePersists(elems, i + 1, |elems|);
  }

  lemma {:induction false} BuildProvidersFailurePersists(elems: seq<Json>, i: nat, n: nat)
    requires i <= n <= |elems|
    ensures BuildProviders(elems, i).Failure? ==> BuildProviders(elems, n) == BuildProviders(elems, i)
    decreases n
  {
    if n > i {
      BuildProvidersFailurePersists(elems, i, n - 1);
    }
  }

  /** One child per element, in array order: child k is the node element k
      describes, and every element is an object. */
  lemma {:induction false} ChildrenOnePerElement(elems: seq<Json>, n: nat)
    requires n <= |elems| && BuildChildren(elems, n).Success?
    ensures |BuildChildren(elems, n).value| == n
    ensures forall k :: 0 <= k < n ==> elems[k].JObj? && BuildNode(elems[k].fields) == Success(BuildChildren(elems, n).value[k])
  {
    if n > 0 {
      ChildrenOnePerElement(elems, n - 1);
    }
  }

  /** One provider per element, in array order. */
  lemma {:induction false} ProvidersOnePerElement(elems: seq<Json>, n: nat)
    requires n <= |elems| && BuildProviders(elems, n).Success?
    ensures |BuildProviders(elems, n).value| == n
    ensures forall k :: 0 <= k < n ==> elems[k].JObj? && BuildNode(elems[k].fields) == Success(BuildProviders(elems, n).value[k])
  {
    if n > 0 {
      ProvidersOnePerElement(elems, n - 1);
    }
  }

  /** A node is empty exactly when its JSON has no children, or an empty
      children array. */
  lemma EmptyIffNoChildren(o: Object)
    requires BuildNode(o).Success?
    ensures BuildNode(o).value.empty <==> "children" !in o || o["children"] == JArr([])
  {
    if "children" in o {
      var elems := o["children"].elems;
      ChildrenOnePerElement(elems, |elems|);
    }
  }
}
