/**
  The execution gateway (`LinearGraphQLClient.execute`): one request to the
  transport per call, its `data` on success, and a normalised failure when the
  transport throws.
 */
module Gateway {
  import opened ClientTypes

  /** The fixed prefix of every normalised failure message. */
  const FailurePrefix: string := "GraphQL operation failed: "

  /** The operation text sent for a document: its source body, or "" when there is none. */
  function RequestBody(doc: Document): string
  {
    match doc.sourceBody
    case Some(body) => body
    case None => ""
  }

  /**
    Inverse of the message normalisation: the underlying message of a
    normalised failure message, or None for a message without the prefix.
   */
  function UnderlyingMessage(msg: string): (m: Option<string>)
    ensures m.Some? <==> FailurePrefix <= msg
    ensures m.Some? ==> msg == FailurePrefix + m.value
  {
    if FailurePrefix <= msg then Some(msg[|FailurePrefix|..]) else None
  }

  /**
    The try/catch of `execute`: a response yields its `data`; an `Error` is
    re-thrown as an `Error` whose message is the prefix followed by the
    original message; any other thrown value is re-thrown unchanged.
   */
  function Normalise<P>(answer: Transport<P>): (c: Completion<P>)
    ensures c.Returned? <==> answer.Responded?
    ensures answer.Responded? ==> c.value == answer.data
    ensures answer.Threw? && answer.thrown.Error? ==>
              c.thrown.Error? && UnderlyingMessage(c.thrown.message) == Some(answer.thrown.message)
    ensures answer.Threw? && answer.thrown.NonError? ==> c.thrown == answer.thrown
  {
    match answer
    case Responded(data) => Returned(data)
    case Threw(Error(m)) => Raised(Error(FailurePrefix + m))
    case Threw(other) => Raised(other)
  }

  /** The single request `execute` sends and how the call settles. */
  datatype Exchange<P> = Exchange(request: Request, result: Completion<P>)

  /**
    `execute(document, variables)`: exactly one request, carrying the
    document's body and the variables unchanged, and the normalised answer
    the transport gives to it.
   */
  function Execute<P>(server: Oracle<P>, history: seq<Request>, doc: Document, variables: Record): (e: Exchange<P>)
    ensures e.request.body == RequestBody(doc) && e.request.variables == variables
    ensures e.result == Normalise(server(history, e.request))
  {
    var request := Request(RequestBody(doc), variables);
    Exchange(request, Normalise(server(history, request)))
  }

  /**
    In this message-only model of throwables, two transport outcomes that
    normalise to the same completion are the same outcome.
   */
  lemma NormaliseInjective<P>(a: Transport<P>, b: Transport<P>)
    requires Normalise(a) == Normalise(b)
    ensures a == b
  {
    if a.Threw? && a.thrown.Error? {
      assert UnderlyingMessage(Normalise(a).thrown.message) == Some(a.thrown.message);
    }
  }

  /** A transport that throws `Error("timeout")` makes `execute` reject with the prefixed message. */
  lemma TimeoutIsPrefixed<P>(server: Oracle<P>, history: seq<Request>, doc: Document, variables: Record)
    requires server(history, Request(RequestBody(doc), variables)) == Threw(Error("timeout"))
    ensures Execute(server, history, doc, variables).result == Raised(Error("GraphQL operation failed: timeout"))
  {
  }
}
