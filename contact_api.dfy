/** The submission gateway of src/lib/contact.ts: one POST of the form data to a
    fixed webhook URL. The network is not modelled; whether the POST resolves or
    rejects is an outcome the caller supplies. What is kept is what the gateway
    does on each call: exactly one request to the fixed URL with the given body,
    and one diagnostic log line when the request fails. */
module ContactApi {

  /** The hard-coded webhook the inquiry is forwarded to. */
  const WorkInquiryUrl: string :=
    "https://5suknmbyc2.execute-api.us-west-2.amazonaws.com/forwardDisruptiv3WorkInquiryToTelegram"

  /** The message logged before a failure is rethrown. */
  const FailureLogMessage: string := "Error sending work inquiry!"

  /** How the HTTP request ends: the axios promise resolves or rejects. */
  datatype Outcome = Success | Failure

  /** One outbound HTTP request. */
  datatype Request<P> = Post(url: string, body: P)

  /** The bodies of a run of requests, in order. */
  function Bodies<P>(rs: seq<Request<P>>): seq<P>
    decreases |rs|
  {
    if rs == [] then [] else Bodies(rs[..|rs| - 1]) + [rs[|rs| - 1].body]
  }

  lemma BodiesSnoc<P>(rs: seq<Request<P>>, r: Request<P>)
    ensures Bodies(rs + [r]) == Bodies(rs) + [r.body]
  {
  }

  lemma {:induction false} BodiesLength<P>(rs: seq<Request<P>>)
    ensures |Bodies(rs)| == |rs|
    decreases |rs|
  {
    if rs != [] {
      BodiesLength(rs[..|rs| - 1]);
    }
  }

  /** The caller's view of the gateway: the requests it has issued and the
      diagnostics it has logged, in order. */
  class Client<P> {
    var requests: seq<Request<P>>
    var errorLog: seq<string>

    constructor ()
      ensures requests == [] && errorLog == []
    {
      requests := [];
      errorLog := [];
    }

    /** `contact(formData)`: posts `formData` to the webhook. On success it
        returns normally (`ok`); on failure it logs and rethrows (`!ok`). */
    method Contact(formData: P, outcome: Outcome) returns (ok: bool)
      modifies this
      ensures requests == old(requests) + [Post(WorkInquiryUrl, formData)]
      ensures ok <==> outcome == Success
      ensures errorLog == if ok then old(errorLog) else old(errorLog) + [FailureLogMessage]
    {
      requests := requests + [Post(WorkInquiryUrl, formData)];
      ok := outcome == Success;
      if !ok {
        errorLog := errorLog + [FailureLogMessage];
      }
    }
  }
}
