/** The tool functions: `trapi` builds a one-hop TRAPI query graph (two nodes
    `n0`, `n1` and one edge `e0` between them) from flat arguments and
    submits it; `trapi_status` and `trapi_results` forward a job key. */
module Tools {
  import opened JsonValues
  import Ars

  /** Python truthiness of an optional list argument: `None` and `[]` are
      false, every other list is true. */
  predicate Truthy(xs: Option<seq<Json>>)
  {
    xs.Some? && xs.value != []
  }

  const QueryGraphPath: Path := ["message", "query_graph"]
  const NodesPath: Path := ["message", "query_graph", "nodes"]
  const EdgesPath: Path := ["message", "query_graph", "edges"]
  const EdgePath: Path := ["message", "query_graph", "edges", "e0"]
  const AttributesPath: Path := ["message", "query_graph", "edges", "e0", "attributes"]
  const QualifiersPath: Path := ["message", "query_graph", "edges", "e0", "qualifiers"]

  /** `{"message": {"query_graph": {"nodes": ..., "edges": ...}}}` */
  function Envelope(nodes: map<string, Json>, edges: map<string, Json>): Json
  {
    Obj(map["message" := Obj(map["query_graph" := Obj(map["nodes" := Obj(nodes), "edges" := Obj(edges)])])])
  }

  /** `n0` pinned to the subject CURIE, `n1` to the object CURIE; the `ids`
      list is there even when the CURIE is the empty string. */
  function Nodes(subject: string, object_: string): map<string, Json>
  {
    map["n0" := Obj(map["ids" := Arr([Str(subject)])]),
        "n1" := Obj(map["ids" := Arr([Str(object_)])])]
  }

  /** The fields `e0` is created with. */
  function BaseEdge(predicate_: string): map<string, Json>
  {
    map["subject" := Str("n0"), "object" := Str("n1"), "predicates" := Arr([Str(predicate_)])]
  }

  /** The dict literal `trapi` starts from, before any insertion. */
  function InitialMessage(subject: string, object_: string, predicate_: string): (r: Json)
    ensures r == QueryMessage(subject, object_, predicate_, None, None)
  {
    assert EdgeFields(predicate_, None, None) == BaseEdge(predicate_);
    Envelope(Nodes(subject, object_), map["e0" := Obj(BaseEdge(predicate_))])
  }

  /** The fields of the finished `e0`, written all at once: the base fields,
      then each optional list under its own key when it is truthy. */
  function EdgeFields(predicate_: string, attributes: Option<seq<Json>>, qualifiers: Option<seq<Json>>)
    : map<string, Json>
  {
    BaseEdge(predicate_)
    + (if Truthy(attributes) then map["attributes" := Arr(attributes.value)] else map[])
    + (if Truthy(qualifiers) then map["qualifiers" := Arr(qualifiers.value)] else map[])
  }

  /** The message `trapi` submits, as one value: the reference against which
      the in-place construction in `Trapi` is proved. */
  function QueryMessage(subject: string, object_: string, predicate_: string,
                        attributes: Option<seq<Json>>, qualifiers: Option<seq<Json>>): Json
  {
    Envelope(Nodes(subject, object_), map["e0" := Obj(EdgeFields(predicate_, attributes, qualifiers))])
  }

  /** The invariants of a TRAPI query graph that this builder is meant to
      keep: every edge is a dict whose `subject` and `object` name nodes of
      the graph and whose `predicates` is a non-empty list. */
  predicate EdgeResolves(nodes: map<string, Json>, edge: Json)
  {
    && edge.Obj?
    && "subject" in edge.fields && edge.fields["subject"].Str? && edge.fields["subject"].s in nodes
    && "object" in edge.fields && edge.fields["object"].Str? && edge.fields["object"].s in nodes
    && "predicates" in edge.fields && edge.fields["predicates"].Arr? && edge.fields["predicates"].items != []
  }

  predicate WellFormedQueryGraph(m: Json)
  {
    match (Get(m, NodesPath), Get(m, EdgesPath))
    case (Some(Obj(nodes)), Some(Obj(edges))) =>
      forall e :: e in edges ==> EdgeResolves(nodes, edges[e])
    case _ => false
  }

  /** Inserting one field into `e0` through the chained subscript of the
      source reaches `e0` and changes nothing else. */
  lemma PutEdgeField(nodes: map<string, Json>, e0: map<string, Json>, key: string, v: Json)
    ensures Put(Envelope(nodes, map["e0" := Obj(e0)]), EdgePath + [key], v)
         == Some(Envelope(nodes, map["e0" := Obj(e0[key := v])]))
  {
    var edges := map["e0" := Obj(e0)];
    var graph := map["nodes" := Obj(nodes), "edges" := Obj(edges)];
    var message := map["query_graph" := Obj(graph)];
    var edges', graph' := edges["e0" := Obj(e0[key := v])], graph["edges" := Obj(edges["e0" := Obj(e0[key := v])])];
    assert EdgePath + [key] == ["message"] + (["query_graph"] + (["edges"] + (["e0"] + [key])));
    assert Put(Obj(e0), [key], v) == Some(Obj(e0[key := v]));
    PutCons(edges, "e0", [key], v);
    assert Put(Obj(edges), ["e0"] + [key], v) == Some(Obj(edges'));
    PutCons(graph, "edges", ["e0"] + [key], v);
    assert Put(Obj(graph), ["edges"] + (["e0"] + [key]), v) == Some(Obj(graph'));
    PutCons(message, "query_graph", ["edges"] + (["e0"] + [key]), v);
    assert message["query_graph" := Obj(graph')] == map["query_graph" := Obj(graph')];
    var message' := map["query_graph" := Obj(graph')];
    assert Put(Obj(message), ["query_graph"] + (["edges"] + (["e0"] + [key])), v) == Some(Obj(message'));
    PutCons(map["message" := Obj(message)], "message", ["query_graph"] + (["edges"] + (["e0"] + [key])), v);
    assert map["message" := Obj(message)]["message" := Obj(message')] == map["message" := Obj(message')];
    assert edges' == map["e0" := Obj(e0[key := v])];
    assert graph' == map["nodes" := Obj(nodes), "edges" := Obj(edges')];
  }

  /** Where the envelope's parts are found. */
  lemma EnvelopeLookup(nodes: map<string, Json>, edges: map<string, Json>, q: Path)
    ensures var m := Envelope(nodes, edges);
      && KeysAt(m, []) == Some({"message"})
      && KeysAt(m, ["message"]) == Some({"query_graph"})
      && KeysAt(m, QueryGraphPath) == Some({"nodes", "edges"})
      && Get(m, NodesPath + q) == Get(Obj(nodes), q)
      && Get(m, EdgesPath + q) == Get(Obj(edges), q)
  {
    var m := Envelope(nodes, edges);
    var graph := map["nodes" := Obj(nodes), "edges" := Obj(edges)];
    var message := map["query_graph" := Obj(graph)];
    assert m.fields.Keys == {"message"};
    assert ["message"][1..] == [];
    assert message.Keys == {"query_graph"};
    assert QueryGraphPath[1..][1..] == [];
    assert graph.Keys == {"nodes", "edges"};
    assert NodesPath[1..][1..][1..] == [];
    assert EdgesPath[1..][1..][1..] == [];
    GetAppend(m, NodesPath, q);
    GetAppend(m, EdgesPath, q);
  }

  /** Reading a two-key path out of a dict. */
  lemma GetTwo(f: map<string, Json>, k: string, k': string)
    ensures Get(Obj(f), [k, k']) == if k in f && f[k].Obj? && k' in f[k].fields then Some(f[k].fields[k']) else None
  {
    assert [k, k'][1..] == [k'];
    assert [k'][1..] == [];
    assert Get(Obj(f), [k, k']) == if k in f then Get(f[k], [k']) else None;
    if k in f {
      assert Get(f[k], [k']) == if f[k].Obj? && k' in f[k].fields then Get(f[k].fields[k'], []) else None;
    }
  }

  /** `e0` after the first conditional insertion: with `attributes` when
      that list is truthy. */
  function EdgeAfterAttributes(predicate_: string, attributes: Option<seq<Json>>): map<string, Json>
  {
    if Truthy(attributes) then BaseEdge(predicate_)["attributes" := Arr(attributes.value)] else BaseEdge(predicate_)
  }

  /** The first conditional insertion: when `attributes` is truthy the
      assignment into the literal cannot raise and yields `e0` with the
      attributes; otherwise the literal already is that message. */
  lemma AttributesStep(subject: string, object_: string, predicate_: string, attributes: Option<seq<Json>>)
    ensures var after := Envelope(Nodes(subject, object_), map["e0" := Obj(EdgeAfterAttributes(predicate_, attributes))]);
      && (Truthy(attributes) ==> Put(InitialMessage(subject, object_, predicate_), AttributesPath, Arr(attributes.value)) == Some(after))
      && (!Truthy(attributes) ==> InitialMessage(subject, object_, predicate_) == after)
  {
    assert EdgePath + ["attributes"] == AttributesPath;
    if Truthy(attributes) {
      PutEdgeField(Nodes(subject, object_), BaseEdge(predicate_), "attributes", Arr(attributes.value));
    }
  }

  /** The second conditional insertion: when `qualifiers` is truthy the
      assignment cannot raise, and either way the outcome is the reference
      message. */
  lemma QualifiersStep(subject: string, object_: string, predicate_: string,
                       attributes: Option<seq<Json>>, qualifiers: Option<seq<Json>>)
    ensures var before := Envelope(Nodes(subject, object_), map["e0" := Obj(EdgeAfterAttributes(predicate_, attributes))]);
      var m := QueryMessage(subject, object_, predicate_, attributes, qualifiers);
      && (Truthy(qualifiers) ==> Put(before, QualifiersPath, Arr(qualifiers.value)) == Some(m))
      && (!Truthy(qualifiers) ==> before == m)
  {
    var e0 := EdgeAfterAttributes(predicate_, attributes);
    assert EdgePath + ["qualifiers"] == QualifiersPath;
    EdgeFieldsByInsertion(predicate_, attributes, qualifiers);
    if Truthy(qualifiers) {
      PutEdgeField(Nodes(subject, object_), e0, "qualifiers", Arr(qualifiers.value));
    }
  }

  /** Inserting the truthy lists one after the other gives the fields of the
      finished `e0`. */
  lemma EdgeFieldsByInsertion(predicate_: string, attributes: Option<seq<Json>>, qualifiers: Option<seq<Json>>)
    ensures var e0 := EdgeAfterAttributes(predicate_, attributes);
      (if Truthy(qualifiers) then e0["qualifiers" := Arr(qualifiers.value)] else e0)
      == EdgeFields(predicate_, attributes, qualifiers)
  {
    var e0 := EdgeAfterAttributes(predicate_, attributes);
    var attrs: map<string, Json> := if Truthy(attributes) then map["attributes" := Arr(attributes.value)] else map[];
    var quals: map<string, Json> := if Truthy(qualifiers) then map["qualifiers" := Arr(qualifiers.value)] else map[];
    assert e0 == BaseEdge(predicate_) + attrs;
    assert (if Truthy(qualifiers) then e0["qualifiers" := Arr(qualifiers.value)] else e0) == e0 + quals;
  }

  /** `trapi` (tools.py): build the literal, insert the optional lists into
      `e0` in place when they are truthy, submit the message once and hand
      back the submission reply unchanged. */
  method Trapi(ars: Ars.Connection, subject: string, object_: string, predicate_: string,
               attributes: Option<seq<Json>>, qualifiers: Option<seq<Json>>)
    returns (response: Ars.Reply)
    modifies ars
    ensures ars.sent == old(ars.sent)
                        + [Ars.SubmitQuery(QueryMessage(subject, object_, predicate_, attributes, qualifiers))]
    ensures response == ars.answer(old(ars.sent),
                                   Ars.SubmitQuery(QueryMessage(subject, object_, predicate_, attributes, qualifiers)))
  {
    var message := InitialMessage(subject, object_, predicate_);
    AttributesStep(subject, object_, predicate_, attributes);
    QualifiersStep(subject, object_, predicate_, attributes, qualifiers);
    if Truthy(attributes) {
      message := Put(message, AttributesPath, Arr(attributes.value)).value;
    }
    if Truthy(qualifiers) {
      message := Put(message, QualifiersPath, Arr(qualifiers.value)).value;
    }
    response := ars.SubmitTrapiQuery(message);
  }

  /** `trapi_status` (tools.py): one status request for the same `pk`; its
      reply is returned unchanged. */
  method TrapiStatus(ars: Ars.Connection, pk: string) returns (status: Ars.Reply)
    modifies ars
    ensures ars.sent == old(ars.sent) + [Ars.GetStatus(pk)]
    ensures status == ars.answer(old(ars.sent), Ars.GetStatus(pk))
  {
    status := ars.GetTrapiStatus(pk);
  }

  /** `trapi_results` (tools.py): one results request for the same `pk`;
      its reply is returned unchanged. */
  method TrapiResults(ars: Ars.Connection, pk: string) returns (results: Ars.Reply)
    modifies ars
    ensures ars.sent == old(ars.sent) + [Ars.GetResults(pk)]
    ensures results == ars.answer(old(ars.sent), Ars.GetResults(pk))
  {
    results := ars.GetTrapiResults(pk);
  }

  /** Inserting one field into `e0` leaves every path that diverges from
      it as it was. */
  lemma PutEdgeFieldFrame(nodes: map<string, Json>, e0: map<string, Json>, key: string, v: Json, path: Path)
    requires Diverge(path, EdgePath + [key])
    ensures Get(Envelope(nodes, map["e0" := Obj(e0[key := v])]), path)
         == Get(Envelope(nodes, map["e0" := Obj(e0)]), path)
  {
    PutEdgeField(nodes, e0, key, v);
    DivergeSymmetric(path, EdgePath + [key]);
    PutFrame(Envelope(nodes, map["e0" := Obj(e0)]), EdgePath + [key], v, path);
  }

  /** Where `e0` and its fields are found. */
  lemma EdgeLookup(nodes: map<string, Json>, e0: map<string, Json>, key: string)
    ensures var m := Envelope(nodes, map["e0" := Obj(e0)]);
      && KeysAt(m, EdgesPath) == Some({"e0"})
      && KeysAt(m, EdgePath) == Some(e0.Keys)
      && Get(m, EdgePath + [key]) == if key in e0 then Some(e0[key]) else None
  {
    var edges := map["e0" := Obj(e0)];
    EnvelopeLookup(nodes, edges, []);
    assert EdgesPath + [] == EdgesPath;
    assert edges.Keys == {"e0"};
    EnvelopeLookup(nodes, edges, ["e0"]);
    assert EdgePath == EdgesPath + ["e0"];
    assert ["e0"][1..] == [];
    EnvelopeLookup(nodes, edges, ["e0", key]);
    assert EdgePath + [key] == EdgesPath + ["e0", key];
    GetTwo(edges, "e0", key);
  }

  /** The two insertion paths part at their last key. */
  lemma InsertionPathsDiverge()
    ensures Diverge(AttributesPath, QualifiersPath)
  {
    var a, q := AttributesPath, QualifiersPath;
    assert Diverge(a[4..], q[4..]);
    assert a[3..][1..] == a[4..] && q[3..][1..] == q[4..];
    assert Diverge(a[3..], q[3..]);
    assert a[2..][1..] == a[3..] && q[2..][1..] == q[3..];
    assert Diverge(a[2..], q[2..]);
    assert a[1..][1..] == a[2..] && q[1..][1..] == q[2..];
    assert Diverge(a[1..], q[1..]);
  }

  /** The message has one key, `message`, holding one key, `query_graph`,
      holding exactly `nodes` and `edges`. */
  lemma MessageEnvelope(subject: string, object_: string, predicate_: string,
                        attributes: Option<seq<Json>>, qualifiers: Option<seq<Json>>)
    ensures var m := QueryMessage(subject, object_, predicate_, attributes, qualifiers);
      && KeysAt(m, []) == Some({"message"})
      && KeysAt(m, ["message"]) == Some({"query_graph"})
      && KeysAt(m, QueryGraphPath) == Some({"nodes", "edges"})
  {
    EnvelopeLookup(Nodes(subject, object_), map["e0" := Obj(EdgeFields(predicate_, attributes, qualifiers))], []);
  }

  /** Exactly the nodes `n0` and `n1`, each holding only a one-element `ids`
      list with its CURIE, the empty CURIE included. */
  lemma NodesPinned(subject: string, object_: string, predicate_: string,
                    attributes: Option<seq<Json>>, qualifiers: Option<seq<Json>>)
    ensures var m := QueryMessage(subject, object_, predicate_, attributes, qualifiers);
      && KeysAt(m, NodesPath) == Some({"n0", "n1"})
      && KeysAt(m, NodesPath + ["n0"]) == Some({"ids"})
      && KeysAt(m, NodesPath + ["n1"]) == Some({"ids"})
      && Get(m, NodesPath + ["n0", "ids"]) == Some(Arr([Str(subject)]))
      && Get(m, NodesPath + ["n1", "ids"]) == Some(Arr([Str(object_)]))
  {
    var nodes := Nodes(subject, object_);
    var edges := map["e0" := Obj(EdgeFields(predicate_, attributes, qualifiers))];
    EnvelopeLookup(nodes, edges, []);
    assert NodesPath + [] == NodesPath;
    assert nodes.Keys == {"n0", "n1"};
    EnvelopeLookup(nodes, edges, ["n0"]);
    EnvelopeLookup(nodes, edges, ["n1"]);
    assert ["n0"][1..] == [] && ["n1"][1..] == [];
    assert nodes["n0"].fields.Keys == {"ids"} && nodes["n1"].fields.Keys == {"ids"};
    EnvelopeLookup(nodes, edges, ["n0", "ids"]);
    EnvelopeLookup(nodes, edges, ["n1", "ids"]);
    GetTwo(nodes, "n0", "ids");
    GetTwo(nodes, "n1", "ids");
  }

  /** Exactly one edge, `e0`, from `n0` to `n1` with the singleton predicate
      list; its keys are the three base fields plus exactly the optional
      lists that were truthy. */
  lemma SingleEdge(subject: string, object_: string, predicate_: string,
                   attributes: Option<seq<Json>>, qualifiers: Option<seq<Json>>)
    ensures var m := QueryMessage(subject, object_, predicate_, attributes, qualifiers);
      && KeysAt(m, EdgesPath) == Some({"e0"})
      && Get(m, EdgePath + ["subject"]) == Some(Str("n0"))
      && Get(m, EdgePath + ["object"]) == Some(Str("n1"))
      && Get(m, EdgePath + ["predicates"]) == Some(Arr([Str(predicate_)]))
      && KeysAt(m, EdgePath) == Some({"subject", "object", "predicates"}
                                     + (if Truthy(attributes) then {"attributes"} else {})
                                     + (if Truthy(qualifiers) then {"qualifiers"} else {}))
  {
    var nodes := Nodes(subject, object_);
    var e0 := EdgeFields(predicate_, attributes, qualifiers);
    EdgeFieldsBase(predicate_, attributes, qualifiers);
    EdgeLookup(nodes, e0, "subject");
    EdgeLookup(nodes, e0, "object");
    EdgeLookup(nodes, e0, "predicates");
  }

  /** The optional lists never overwrite a base field of `e0`. */
  lemma EdgeFieldsBase(predicate_: string, attributes: Option<seq<Json>>, qualifiers: Option<seq<Json>>)
    ensures var e0 := EdgeFields(predicate_, attributes, qualifiers);
      && e0.Keys == {"subject", "object", "predicates"}
                    + (if Truthy(attributes) then {"attributes"} else {})
                    + (if Truthy(qualifiers) then {"qualifiers"} else {})
      && e0["subject"] == Str("n0") && e0["object"] == Str("n1")
      && e0["predicates"] == Arr([Str(predicate_)])
  {
  }

  /** `e0.attributes` is there exactly when the argument is truthy, and then
      it is the argument itself; the same for `e0.qualifiers`. */
  lemma OptionalEdgeFields(subject: string, object_: string, predicate_: string,
                           attributes: Option<seq<Json>>, qualifiers: Option<seq<Json>>)
    ensures var m := QueryMessage(subject, object_, predicate_, attributes, qualifiers);
      && Get(m, AttributesPath) == (if Truthy(attributes) then Some(Arr(attributes.value)) else None)
      && Get(m, QualifiersPath) == (if Truthy(qualifiers) then Some(Arr(qualifiers.value)) else None)
  {
    var nodes := Nodes(subject, object_);
    var e0 := EdgeFields(predicate_, attributes, qualifiers);
    EdgeLookup(nodes, e0, "attributes");
    EdgeLookup(nodes, e0, "qualifiers");
    assert EdgePath + ["attributes"] == AttributesPath;
    assert EdgePath + ["qualifiers"] == QualifiersPath;
  }

  /** The built graph keeps the query-graph invariants: its one edge never
      dangles and never has an empty predicate list. */
  lemma QueryMessageWellFormed(subject: string, object_: string, predicate_: string,
                               attributes: Option<seq<Json>>, qualifiers: Option<seq<Json>>)
    ensures WellFormedQueryGraph(QueryMessage(subject, object_, predicate_, attributes, qualifiers))
  {
    var nodes := Nodes(subject, object_);
    var edges := map["e0" := Obj(EdgeFields(predicate_, attributes, qualifiers))];
    EnvelopeLookup(nodes, edges, []);
    assert NodesPath + [] == NodesPath && EdgesPath + [] == EdgesPath;
    assert EdgeResolves(nodes, edges["e0"]);
  }

  /** The two conditional insertions leave everything outside
      `e0.attributes` and `e0.qualifiers` as the initial literal had it. */
  lemma InsertionsTouchNothingElse(subject: string, object_: string, predicate_: string,
                                   attributes: Option<seq<Json>>, qualifiers: Option<seq<Json>>,
                                   path: Path)
    requires Diverge(path, AttributesPath) && Diverge(path, QualifiersPath)
    ensures Get(QueryMessage(subject, object_, predicate_, attributes, qualifiers), path)
         == Get(InitialMessage(subject, object_, predicate_), path)
  {
    var nodes := Nodes(subject, object_);
    var e0 := BaseEdge(predicate_);
    assert EdgePath + ["attributes"] == AttributesPath;
    assert EdgePath + ["qualifiers"] == QualifiersPath;
    if Truthy(attributes) {
      PutEdgeFieldFrame(nodes, e0, "attributes", Arr(attributes.value), path);
      e0 := e0["attributes" := Arr(attributes.value)];
    }
    if Truthy(qualifiers) {
      PutEdgeFieldFrame(nodes, e0, "qualifiers", Arr(qualifiers.value), path);
      e0 := e0["qualifiers" := Arr(qualifiers.value)];
    }
    assert e0 == EdgeFields(predicate_, attributes, qualifiers);
  }

  /** Both insertions, in the order of the source, give the reference
      message. */
  lemma BothInsertions(subject: string, object_: string, predicate_: string,
                       attributes: seq<Json>, qualifiers: seq<Json>)
    requires attributes != [] && qualifiers != []
    ensures AndPut(Put(InitialMessage(subject, object_, predicate_), AttributesPath, Arr(attributes)),
                   QualifiersPath, Arr(qualifiers))
         == Some(QueryMessage(subject, object_, predicate_, Some(attributes), Some(qualifiers)))
  {
    AttributesStep(subject, object_, predicate_, Some(attributes));
    QualifiersStep(subject, object_, predicate_, Some(attributes), Some(qualifiers));
  }

  /** Inserting the qualifiers before the attributes would build the same
      message. */
  lemma InsertionOrderIrrelevant(subject: string, object_: string, predicate_: string,
                                 attributes: seq<Json>, qualifiers: seq<Json>)
    requires attributes != [] && qualifiers != []
    ensures var m := InitialMessage(subject, object_, predicate_);
      && AndPut(Put(m, QualifiersPath, Arr(qualifiers)), AttributesPath, Arr(attributes))
         == Some(QueryMessage(subject, object_, predicate_, Some(attributes), Some(qualifiers)))
  {
    BothInsertions(subject, object_, predicate_, attributes, qualifiers);
    InsertionPathsDiverge();
    PutCommutes(InitialMessage(subject, object_, predicate_), AttributesPath, Arr(attributes),
                QualifiersPath, Arr(qualifiers));
  }
}
