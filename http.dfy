/** The API Gateway events the handlers receive and the responses they
    return, reduced to the fields the handlers read and write. */
module Http {
  import opened Wrappers
  import opened Bom
  import opened Sheet
  import opened Storage

  /** `requestContext.authorizer`: its own string entries, and the entries
      of its `lambda` object when there is one. */
  datatype Authorizer = Authorizer(entries: map<string, string>, lambda: Option<map<string, string>>)

  datatype RequestContext = RequestContext(authorizer: Option<Authorizer>)

  /** The value under the body's "jsonData" key: absent, a JSON value that
      is not an object (its Python type name and truthiness), or an object. */
  datatype JsonData = Missing | Scalar(typeName: string, truthy: bool) | Object(doc: BomDocument)

  /** `event["body"]` once decoded and parsed: `Err` carries the message
      of the exception that decoding or parsing raised. */
  datatype Event = Event(requestContext: Option<RequestContext>, body: Result<JsonData>)

  /** Python truthiness of the "jsonData" value: `None`, a false scalar and
      an empty object are false. */
  predicate Truthy(d: JsonData)
    ensures Truthy(d) ==> !d.Missing?
    ensures d.Object? && Services(d.doc) != [] ==> Truthy(d)
    ensures d.Scalar? ==> (Truthy(d) <==> d.truthy)
    ensures d.Object? ==> (Truthy(d) <==> !d.doc.IsEmpty())
  {
    match d
    case Missing => false
    case Scalar(_, t) => t
    case Object(doc) => !doc.IsEmpty()
  }

  /** The JSON bodies the handlers return. `ServerErrorPage` is the page a
      Flask application returns for an exception the view does not catch. */
  datatype Body =
    | ErrorBody(error: string)
    | StoredBody(message: string, fileUrl: string)
    | FileBody(content: SheetData)
    | FilesBody(files: seq<Item>)
    | TraceBody(error: string, trace: string)
    | ServerErrorPage

  datatype Response = Response(status: nat, headers: map<string, string>, isBase64Encoded: bool, body: Body)

  function Plain(status: nat, body: Body): Response {
    Response(status, map[], false, body)
  }

  const Unauthenticated: string := "User not authenticated"

  const Unauthorized: Response := Plain(401, ErrorBody(Unauthenticated))
}
