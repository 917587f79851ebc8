# trapi-mcp: the one-hop TRAPI query builder

trapi-mcp exposes the ARS (Automated Relay System) of the Biomedical Data
Translator as tools for a tool-calling host. Its one piece of logic is the
`trapi` tool in `src/trapi_mcp/tools.py`. From a subject CURIE, an object
CURIE and a Biolink predicate, plus optional lists of edge attributes and
qualifiers, it builds a TRAPI `Message` whose `query_graph` has two nodes,
`n0` and `n1`, and one edge, `e0`. It submits that message to the ARS and
returns the ARS reply. `trapi_status` and `trapi_results` forward a job key
(`pk`) to the ARS and return what comes back.

The model has three modules:

- `JsonValues` (json.dfy): JSON values as Python holds them, and Python's
  chained subscript read (`Get`) and chained subscript assignment (`Put`).
  `None` stands for the KeyError or TypeError Python would raise. Lemmas say
  where an assignment lands, what it leaves alone, when it succeeds, and that
  assignments at diverging paths commute.
- `Ars` (ars.dfy): the three ARS bindings of `api_utilities.py`. A
  `Connection` logs every request it sends. The relay's answer is an opaque
  function of the earlier requests and the new one, so a job's status can
  change between polls.
- `Tools` (tools.dfy): `Trapi` builds the dict literal and then inserts
  `attributes` and `qualifiers` into `e0` in place, as the source does.
  `QueryMessage` writes the finished message as a single value. `Trapi` is
  proved to submit exactly that value, once, and to return the reply
  unchanged. The lemmas state the message's shape in terms of
  `QueryMessage`.

Facts about the code that the model keeps:

- `Nodes` attaches `ids` to both nodes even when the CURIE is the empty
  string, so `n0.ids == [""]` (tools.py:31-32). Nodes carry no `categories`.
- `submit_trapi_query` POSTs whatever message it is given. It checks neither
  `message` nor `query_graph` (api_utilities.py:11-18).
- Status and results use separate URLs (api_utilities.py:7-8), so
  `Ars.Request` keeps `GetStatus` and `GetResults` apart.
- The reply of a binding is the parsed body or one of three exceptions:
  an HTTP error status, a body that is not JSON, or a transport failure
  (`Ars.Reply`).

## Model

| member | source | states |
|---|---|---|
| `JsonValues.Put` | src/trapi_mcp/tools.py:47-49 | A definition with no contract: chained subscript assignment, `None` where Python raises. The lemmas below state its properties. |
| `JsonValues.PutKeys` | src/trapi_mcp/tools.py:47 | A successful assignment keeps the outer value a dict and its keys become the old keys plus the first key of the path. |
| `JsonValues.PutDefinedIff` | src/trapi_mcp/tools.py:47 | A chained subscript assignment succeeds exactly when the path without its last key leads to a dict. Otherwise Python raises. |
| `JsonValues.PutThenGet` | src/trapi_mcp/tools.py:47 | After the assignment, reading the same chain of keys gives back the assigned value. |
| `JsonValues.PutFrame` | src/trapi_mcp/tools.py:47-49 | The assignment leaves unchanged every value reached by a path that diverges from the assigned path. |
| `JsonValues.PutCommutes` | src/trapi_mcp/tools.py:46-49 | Two assignments at diverging paths commute: both orders raise, or both give the same value. |
| `Tools.PutEdgeField` | src/trapi_mcp/tools.py:47-49 | Assigning `message["message"]["query_graph"]["edges"]["e0"][key]` on the built message cannot raise. It adds or overwrites `key` in `e0` and changes nothing else. |
| `Tools.Truthy` | src/trapi_mcp/tools.py:46-48 | A definition with no contract: Python truthiness of an optional list, false for `None` and `[]`. |
| `Tools.InitialMessage` | src/trapi_mcp/tools.py:27-43 | The dict literal is the reference message with neither optional list. |
| `Tools.AttributesStep` | src/trapi_mcp/tools.py:46-47 | The `attributes` insertion cannot raise. It puts the list into `e0` when it is truthy and leaves the literal alone otherwise. |
| `Tools.QualifiersStep` | src/trapi_mcp/tools.py:48-49 | After the first step, the `qualifiers` insertion cannot raise, and its outcome is the reference message `QueryMessage`. |
| `Tools.Trapi` | src/trapi_mcp/tools.py:7-53 | Exactly one request is sent: a submission of `QueryMessage(subject, object_, predicate, attributes, qualifiers)`. The relay's reply to it is returned unchanged. |
| `Tools.TrapiStatus` | src/trapi_mcp/tools.py:56-65 | Exactly one status request is sent, for the same `pk`. Its reply is returned unchanged. |
| `Tools.TrapiResults` | src/trapi_mcp/tools.py:68-77 | Exactly one results request is sent, for the same `pk`. Its reply is returned unchanged. |
| `Tools.MessageEnvelope` | src/trapi_mcp/tools.py:27-43 | The top-level dict has only the key `message`. That holds only `query_graph`, which holds exactly `nodes` and `edges`. |
| `Tools.NodesPinned` | src/trapi_mcp/tools.py:30-33 | `nodes` has exactly `n0` and `n1`. Each holds only `ids`: `[subject]` and `[object_]`, a one-element list even when the CURIE is empty. |
| `Tools.SingleEdge` | src/trapi_mcp/tools.py:34-40 | `edges` has exactly `e0`, with `subject == "n0"`, `object == "n1"` and `predicates == [predicate]`. Its other keys are exactly the optional lists that were truthy. |
| `Tools.OptionalEdgeFields` | src/trapi_mcp/tools.py:45-49 | `e0.attributes` exists exactly when `attributes` is neither None nor empty, and then it is that list. The same holds for `qualifiers`. |
| `Tools.QueryMessageWellFormed` | src/trapi_mcp/tools.py:30-40 | The query graph is well formed: every edge's `subject` and `object` name existing nodes, and its `predicates` list is non-empty. |
| `Tools.InsertionsTouchNothingElse` | src/trapi_mcp/tools.py:27-49 | Any path that diverges from `e0.attributes` and `e0.qualifiers` reads the same in the submitted message as in the initial literal. |
| `Tools.BothInsertions` | src/trapi_mcp/tools.py:46-49 | When both lists are non-empty, inserting attributes and then qualifiers succeeds and gives the reference message. |
| `Tools.InsertionOrderIrrelevant` | src/trapi_mcp/tools.py:46-49 | Inserting qualifiers before attributes gives the same message. |
| `Ars.Connection.SubmitTrapiQuery` | src/trapi_mcp/api_utilities.py:11-18 | The query is POSTed once, unchanged. The reply, whether parsed JSON or a raised HTTP, decoding or transport error, is returned as is. |
| `Ars.Connection.GetTrapiStatus` | src/trapi_mcp/api_utilities.py:21-29 | One GET of the status of `pk`. The reply is returned as is. |
| `Ars.Connection.GetTrapiResults` | src/trapi_mcp/api_utilities.py:32-40 | One GET of the results of `pk`. The reply is returned as is. |

## Left out

- Network I/O (`requests.post`, `requests.get`, `raise_for_status()`, `.json()`): modelled only as the opaque `Connection.answer`, because it is library and transport behaviour.
- The ARS URL constants and their `{pk}` templating (api_utilities.py:6-8, 26, 37): a request names its endpoint by kind, because the templating is a plain `format` call.
- HTTP timeouts and retries: the source sets neither.
- Dict key order: a dict is a `map`. The serialised message may list `attributes` before `qualifiers`, but dict equality, which the order lemma is about, ignores order.
- Aliasing: the source puts the caller's own list objects into the message. The model copies values, because nothing in the source mutates those lists afterwards.
- Argument types outside the annotations: `attributes` and `qualifiers` are `None` or lists (`Option<seq<Json>>`). Truthiness of other Python values is not modelled.
- JSON numbers are integers (`Num(int)`). The builder never inspects numbers, and floating point is not modelled.
- `normalize_nodes`, `name_resolver` and `lookup_name`: main.py imports them from `tools.py`, but that file does not define them, so they are not part of this model.
- Tool registration and `mcp.run()` in main.py and src/trapi_mcp/main.py, including the registration of `submit_trapi_query` as a tool: these belong to the host runtime. `submit_trapi_query` itself is imported into tools.py (tools.py:4) and modelled as `Ars.Connection.SubmitTrapiQuery`.
