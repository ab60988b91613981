/** Accepting a workflow: pulling the node and link lists out of the
    several export shapes, then checking every node. */
module Workflow {
  import opened Runtime
  import opened Decimal
  import opened JsonValues

  /** The (nodes, links) pair the normaliser returns. */
  datatype Graph = Graph(nodes: seq<Json>, links: seq<Json>)

  /** What a workflow path holds: decoded JSON, or bytes that are not
      UTF-8 JSON and make loading raise. */
  datatype StoredFile = JsonFile(content: Json) | MalformedFile

  const NotDictOrList := "workflow must be a dict or a list"
  const NodesNotList := "workflow 'nodes' must be a list"

  /** A links value that is not a list is replaced by the empty list. */
  function ListOrEmpty(x: Json): seq<Json> {
    if x.JArr? then x.items else []
  }

  /** The first candidate that is not None, or None when all are. */
  function FirstNonNull(cs: seq<Json>): (r: Json)
    ensures r == JNull <==> forall i :: 0 <= i < |cs| ==> cs[i] == JNull
    ensures r != JNull ==>
      exists k :: 0 <= k < |cs| && cs[k] == r && forall j :: 0 <= j < k ==> cs[j] == JNull
  {
    if cs == [] then JNull
    else if cs[0] != JNull then cs[0]
    else
      var r := FirstNonNull(cs[1..]);
      assert forall i :: 1 <= i < |cs| ==> cs[i] == cs[1..][i - 1];
      r
  }

  /** Over four candidates, the first non-None one is found by trying
      them in turn. */
  lemma FirstNonNullOfFour(cs: seq<Json>)
    requires |cs| == 4
    ensures FirstNonNull(cs) ==
      if cs[0] != JNull then cs[0]
      else if cs[1] != JNull then cs[1]
      else if cs[2] != JNull then cs[2]
      else cs[3]
  {
  }

  /** The places a dict workflow's node list is looked for, in the order
      they are tried: top-level "nodes", "graph"'s "nodes" when "graph" is a
      dict, "graph" itself when it is a list, "workflow" when it is a list.
      A place that does not apply reads as None. */
  function NodeSources(o: map<string, Json>): seq<Json> {
    var graph := Get(o, "graph");
    var workflow := Get(o, "workflow");
    [ Get(o, "nodes"),
      if graph.JObj? then Get(graph.fields, "nodes") else JNull,
      if graph.JArr? then graph else JNull,
      if workflow.JArr? then workflow else JNull ]
  }

  /** Where a dict workflow's links come from: "graph"'s links once the
      top level had no nodes and "graph" is a dict, the top level's otherwise. */
  function LinksSource(o: map<string, Json>): Json {
    var graph := Get(o, "graph");
    if Get(o, "nodes") == JNull && graph.JObj?
    then GetOr(graph.fields, "links", JArr([]))
    else GetOr(o, "links", JArr([]))
  }

  /** The normaliser: a list is the node list itself with no links; a dict
      goes through the fallbacks; anything else is rejected. */
  function Normalize(w: Json): (r: Result<Graph>)
    ensures w.JArr? ==> r == Ok(Graph(w.items, []))
    ensures !w.JArr? && !w.JObj? ==> r == Err(ValueError(NotDictOrList))
    ensures w.JObj? ==>
      var chosen := FirstNonNull(NodeSources(w.fields));
      && (r.Ok? <==> chosen.JArr?)
      && (r.Ok? ==> r.value.nodes == chosen.items)
      && (r.Err? ==> r.error == ValueError(NodesNotList))
    ensures w.JObj? && r.Ok? ==> r.value.links == ListOrEmpty(LinksSource(w.fields))
  {
    match w
    case JArr(items) => Ok(Graph(items, []))
    case JObj(o) =>
      var nodes, links := Get(o, "nodes"), GetOr(o, "links", JArr([]));
      var graph := Get(o, "graph");
      var (nodes, links) :=
        if nodes == JNull && graph.JObj?
        then (Get(graph.fields, "nodes"), GetOr(graph.fields, "links", JArr([])))
        else (nodes, links);
      var nodes := if nodes == JNull && graph.JArr? then graph else nodes;
      var workflow := Get(o, "workflow");
      var nodes := if nodes == JNull && workflow.JArr? then workflow else nodes;
      FirstNonNullOfFour(NodeSources(o));
      if nodes.JArr? then Ok(Graph(nodes.items, ListOrEmpty(links)))
      else Err(ValueError(NodesNotList))
    case _ => Err(ValueError(NotDictOrList))
  }

  /** The export shape {"nodes": [...], "links": [...]} of a graph. */
  function Encode(g: Graph): Json {
    JObj(map["nodes" := JArr(g.nodes), "links" := JArr(g.links)])
  }

  /** Exporting a graph and normalising it again gives the same graph. */
  lemma NormalizeEncode(g: Graph)
    ensures Normalize(Encode(g)) == Ok(g)
  {
  }

  /** Normalising the returned node list again gives back that node list
      (with no links): normalisation is idempotent on its node output. */
  lemma NormalizeNodesIdempotent(w: Json)
    requires Normalize(w).Ok?
    ensures Normalize(JArr(Normalize(w).value.nodes)) == Ok(Graph(Normalize(w).value.nodes, []))
  {
  }

  /** Whatever a dict holds under "links", it neither decides acceptance
      nor changes the node list. */
  lemma LinksDoNotDecide(o: map<string, Json>, v: Json)
    ensures Normalize(JObj(o["links" := v])).Ok? == Normalize(JObj(o)).Ok?
    ensures Normalize(JObj(o)).Ok? ==>
      Normalize(JObj(o["links" := v])).value.nodes == Normalize(JObj(o)).value.nodes
  {
  }

  /** A node passes when it is a dict with a "type" key. */
  predicate NodeOk(node: Json) {
    node.JObj? && "type" in node.fields
  }

  /** What the message says about a failing node, after its index. */
  function Failure(node: Json): (t: string)
    ensures |t| > 0 && t[0] == ']'
  {
    if node.JObj? then "] missing 'type'" else "] is not a dict"
  }

  /** The message raised for the node at index i. */
  function NodeError(i: nat, node: Json): string {
    "node[" + NatToString(i) + Failure(node)
  }

  lemma DropCommonPrefix(p: string, x: string, y: string)
    requires p + x == p + y
    ensures x == y
  {
    assert x == (p + x)[|p|..];
    assert y == (p + y)[|p|..];
  }

  /** The message names its index: two messages are equal only for the
      same index and the same kind of failure. */
  lemma NodeErrorNamesIndex(i: nat, a: Json, j: nat, b: Json)
    requires NodeError(i, a) == NodeError(j, b)
    ensures i == j && a.JObj? == b.JObj?
  {
    var di, dj := NatToString(i), NatToString(j);
    var ta, tb := Failure(a), Failure(b);
    assert "node[" + di + ta == "node[" + (di + ta);
    assert "node[" + dj + tb == "node[" + (dj + tb);
    DropCommonPrefix("node[", di + ta, dj + tb);
    DigitsThenText(di, ta, dj, tb);
    NatToStringInjective(i, j);
    assert |ta| == if a.JObj? then 16 else 15;
    assert |tb| == if b.JObj? then 16 else 15;
  }

  /** The index of the first node that fails, scanning in order. */
  function FirstBadNode(nodes: seq<Json>): (r: Option<nat>)
    ensures r.None? <==> forall i :: 0 <= i < |nodes| ==> NodeOk(nodes[i])
    ensures r.Some? ==>
      && r.value < |nodes|
      && !NodeOk(nodes[r.value])
      && forall j :: 0 <= j < r.value ==> NodeOk(nodes[j])
  {
    if nodes == [] then None
    else if !NodeOk(nodes[0]) then Some(0)
    else match FirstBadNode(nodes[1..])
      case None => None
      case Some(k) => Some(k + 1)
  }

  /** Validation of an already-loaded workflow: normalise, then check the
      nodes in order, failing on the first bad one. */
  function Validate(obj: Json): (r: Result<bool>)
    ensures r.Ok? ==> r.value
    ensures r.Ok? <==>
      && Normalize(obj).Ok?
      && forall i :: 0 <= i < |Normalize(obj).value.nodes| ==> NodeOk(Normalize(obj).value.nodes[i])
    ensures Normalize(obj).Err? ==> r == Err(Normalize(obj).error)
    ensures Normalize(obj).Ok? && r.Err? ==>
      var nodes := Normalize(obj).value.nodes;
      exists i :: 0 <= i < |nodes| && !NodeOk(nodes[i])
        && (forall j :: 0 <= j < i ==> NodeOk(nodes[j]))
        && r.error == ValueError(NodeError(i, nodes[i]))
  {
    match Normalize(obj)
    case Err(e) => Err(e)
    case Ok(g) =>
      match FirstBadNode(g.nodes)
      case None => Ok(true)
      case Some(i) => Err(ValueError(NodeError(i, g.nodes[i])))
  }

  /** A workflow spec is either a path, read from the file store, or an
      already-loaded value. */
  function Load(spec: Json, files: map<string, StoredFile>): Result<Json> {
    if !spec.JStr? then Ok(spec)
    else if spec.s !in files then Err(FileNotFoundError(spec.s))
    else match files[spec.s]
      case JsonFile(content) => Ok(content)
      case MalformedFile => Err(JsonDecodeError)
  }

  /** Specification of the workflow check on a spec. */
  function CheckSpec(spec: Json, files: map<string, StoredFile>): Result<bool> {
    match Load(spec, files)
    case Err(e) => Err(e)
    case Ok(obj) => Validate(obj)
  }

  /** The workflow check as the source runs it: load, normalise, then one
      pass over the nodes that stops at the first bad one. */
  method AssertWorkflowOk(spec: Json, files: map<string, StoredFile>) returns (r: Result<bool>)
    ensures r == CheckSpec(spec, files)
  {
    var obj := spec;
    if spec.JStr? {
      if spec.s !in files {
        return Err(FileNotFoundError(spec.s));
      }
      match files[spec.s]
      case MalformedFile =>
        return Err(JsonDecodeError);
      case JsonFile(content) =>
        obj := content;
    }
    assert Load(spec, files) == Ok(obj);
    var normalized := Normalize(obj);
    if normalized.Err? {
      return Err(normalized.error);
    }
    var nodes := normalized.value.nodes;
    for i := 0 to |nodes|
      invariant forall j :: 0 <= j < i ==> NodeOk(nodes[j])
    {
      if !nodes[i].JObj? {
        assert FirstBadNode(nodes) == Some(i);
        assert Failure(nodes[i]) == "] is not a dict";
        return Err(ValueError("node[" + NatToString(i) + "] is not a dict"));
      }
      if "type" !in nodes[i].fields {
        assert FirstBadNode(nodes) == Some(i);
        assert Failure(nodes[i]) == "] missing 'type'";
        return Err(ValueError("node[" + NatToString(i) + "] missing 'type'"));
      }
    }
    return Ok(true);
  }
}
