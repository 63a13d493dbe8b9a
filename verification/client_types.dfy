/**
  Values exchanged between the GraphQL client, its callers and the transport
  that performs the network round trips. Only the fields the client reads are
  modelled; everything else an entity carries is kept as an opaque record.
 */
module ClientTypes {

  datatype Option<+T> = None | Some(value: T)

  /**
    A JSON value, as carried in GraphQL variables and inputs. JavaScript
    numbers are doubles; `Num` stands for them because the client only passes
    values on and never computes with them.
   */
  datatype Value =
    | Null
    | Bool(b: bool)
    | Num(n: int)
    | Str(s: string)
    | List(items: seq<Value>)
    | Obj(fields: map<string, Value>)

  /** A plain JavaScript object: field name to value. */
  type Record = map<string, Value>

  /** An identifier minted by the remote API (issue, project). */
  type Id = string

  /** An issue as the API returns it; the client only passes it on. */
  datatype Issue = Issue(id: Id, attributes: Record)

  /** What a JavaScript `throw` carries: an `Error` with its message, or any other value. */
  datatype Throwable = Error(message: string) | NonError(value: Value)

  /** The outcome of one raw transport round trip: the response's `data`, or a throw. */
  datatype Transport<+P> = Responded(data: P) | Threw(thrown: Throwable)

  /** How an awaited client call settles: it resolves with a value or rejects with a throwable. */
  datatype Completion<+P> = Returned(value: P) | Raised(thrown: Throwable)

  /** A GraphQL document, seen only through `document.loc?.source.body`. */
  datatype Document = Document(sourceBody: Option<string>)

  /** One request handed to the transport: the operation text and its variables. */
  datatype Request = Request(body: string, variables: Record)

  /**
    The transport as an oracle: its answer to a request, given the requests
    already sent earlier in the same client operation. A remote whose answers
    depend on what it has already been asked is covered.
   */
  type Oracle<P> = (seq<Request>, Request) -> Transport<P>

  /** The named operation documents the client uses. */
  datatype Templates = Templates(
    createProject: Document,
    createBatchIssues: Document,
    updateIssues: Document)

  /** A compound operation's completion together with every request it sent, in order. */
  datatype Call<P> = Call(result: Completion<P>, sent: seq<Request>)
}
