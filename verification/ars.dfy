/** The three ARS bindings (submit a query, fetch a job's status, fetch its
    results) seen from this process: each sends one request to the relay and
    hands back whatever the relay's answer becomes after `raise_for_status()`
    and `.json()`. The relay itself is not modelled; its answer is an opaque
    function of every request sent so far and the new one, so that a job's
    status may change between two polls. */
module Ars {
  import opened JsonValues

  /** One HTTP request, named by the relay operation it calls. */
  datatype Request =
    | SubmitQuery(query: Json)   // POST of the message to the submit URL
    | GetStatus(pk: string)      // GET of the status URL for `pk`
    | GetResults(pk: string)     // GET of the results URL for `pk`

  /** What a binding hands back to its caller: the parsed JSON body, or the
      exception raised on the way to it. */
  datatype Reply =
    | Parsed(body: Json)         // `.json()` of a 2xx response
    | HttpError(status: int)     // `raise_for_status()` on a 4xx/5xx status
    | DecodeError                // `.json()` on a 2xx body that is not JSON
    | ConnectionError            // the transport raised before any response

  class Connection {
    /** Every request this process has sent to the relay, oldest first. */
    var sent: seq<Request>
    /** The relay's answer to a request, given the requests before it. */
    const answer: (seq<Request>, Request) -> Reply

    constructor (answer: (seq<Request>, Request) -> Reply)
      ensures sent == [] && this.answer == answer
    {
      sent := [];
      this.answer := answer;
    }

    /** One request, one answer: the request is logged and the answer
        returned as is. */
    method Send(request: Request) returns (reply: Reply)
      modifies this
      ensures sent == old(sent) + [request]
      ensures reply == answer(old(sent), request)
    {
      reply := answer(sent, request);
      sent := sent + [request];
    }

    /** `submit_trapi_query`: POSTs the message, unchanged, once. */
    method SubmitTrapiQuery(query: Json) returns (reply: Reply)
      modifies this
      ensures sent == old(sent) + [SubmitQuery(query)]
      ensures reply == answer(old(sent), SubmitQuery(query))
    {
      reply := Send(SubmitQuery(query));
    }

    /** `get_trapi_status`: GETs the status of job `pk`, once. */
    method GetTrapiStatus(pk: string) returns (reply: Reply)
      modifies this
      ensures sent == old(sent) + [GetStatus(pk)]
      ensures reply == answer(old(sent), GetStatus(pk))
    {
      reply := Send(GetStatus(pk));
    }

    /** `get_trapi_results`: GETs the results of job `pk`, once. */
    method GetTrapiResults(pk: string) returns (reply: Reply)
      modifies this
      ensures sent == old(sent) + [GetResults(pk)]
      ensures reply == answer(old(sent), GetResults(pk))
    {
      reply := Send(GetResults(pk));
    }
  }
}
