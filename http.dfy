/**
 * The slice of net/http the handlers use: requests as values, the response a
 * handler leaves in its ResponseWriter, and the writer itself as a recorder
 * object the handlers write into.
 */
module Http {
  import opened Wrappers
  import opened Json
  import opened Todos

  const StatusOK: int := 200
  const StatusBadRequest: int := 400
  const StatusNotFound: int := 404
  const StatusInternalServerError: int := 500

  /** http.StatusText for the codes the handlers use. */
  function StatusText(code: int): string {
    if code == StatusOK then "OK"
    else if code == StatusBadRequest then "Bad Request"
    else if code == StatusNotFound then "Not Found"
    else if code == StatusInternalServerError then "Internal Server Error"
    else ""
  }

  /**
   * A response body. JSON bodies are kept as what they encode: one todo, a
   * JSON `null` (a nil slice), or an array of todos in an unspecified order.
   */
  datatype Body =
    | Empty
    | Text(text: string)
    | JsonNull
    | JsonTodo(todo: Todo)
    | JsonTodos(items: multiset<Todo>)

  datatype Response = Response(status: int, headers: map<string, string>, body: Body)

  /** A request: its method (verb), URL path, headers by canonical name, and the first JSON value of its body. */
  datatype Request = Request(verb: string, path: string, headers: map<string, string>, body: Wire)

  /** Header.Get: the value, or "" when the header is absent. */
  function HeaderGet(headers: map<string, string>, key: string): string {
    if key in headers then headers[key] else ""
  }

  const TextPlain: string := "text/plain; charset=utf-8"
  const ApplicationJson: string := "application/json"

  /** A response writer nothing has been written to: implicit 200, no headers, no body. */
  const Untouched: Response := Response(StatusOK, map[], Empty)

  /**
   * The key under which Header().Set stores "X-Request-ID": Go canonicalises
   * header names, so the map holds "X-Request-Id" (clients look headers up
   * case-insensitively, so the difference does not show on the wire).
   */
  const RequestIdHeader: string := "X-Request-Id"

  /** http.Error on an untouched writer: plain-text headers, the code, the message and a newline. */
  function ErrorResponse(msg: string, code: int): Response {
    Response(code, map["Content-Type" := TextPlain, "X-Content-Type-Options" := "nosniff"], Text(msg + "\n"))
  }

  /** What writeJSON leaves on an untouched writer: the JSON content type, the request id and the body. */
  function JsonResponse(requestId: string, body: Body): Response {
    Response(StatusOK, map["Content-Type" := ApplicationJson, RequestIdHeader := requestId], body)
  }

  /** The todos a client reads back from a list body: `null` decodes to none. */
  function DecodedTodos(b: Body): Option<multiset<Todo>> {
    match b
    case JsonNull => Some(multiset{})
    case JsonTodos(items) => Some(items)
    case _ => None
  }

  /** The ResponseWriter a handler writes into. */
  class Recorder {
    var status: int
    var headers: map<string, string>
    var body: Body

    constructor ()
      ensures Snapshot() == Untouched
    {
      status := StatusOK;
      headers := map[];
      body := Empty;
    }

    function Snapshot(): Response
      reads this
    {
      Response(status, headers, body)
    }

    /** Header().Set. */
    method SetHeader(key: string, value: string)
      modifies this
      ensures headers == old(headers)[key := value]
      ensures status == old(status) && body == old(body)
    {
      headers := headers[key := value];
    }

    /** http.Error before anything was written. */
    method Error(msg: string, code: int)
      requires body == Empty
      modifies this
      ensures headers == (old(headers) - {"Content-Length"})["Content-Type" := TextPlain]["X-Content-Type-Options" := "nosniff"]
      ensures status == code && body == Text(msg + "\n")
      ensures old(Snapshot()) == Untouched ==> Snapshot() == ErrorResponse(msg, code)
    {
      headers := headers - {"Content-Length"};
      headers := headers["Content-Type" := TextPlain];
      headers := headers["X-Content-Type-Options" := "nosniff"];
      status := code;
      body := Text(msg + "\n");
    }

    /** Encoding a value into the body; with no explicit WriteHeader the status stays 200. */
    method WriteBody(b: Body)
      requires body == Empty
      modifies this
      ensures body == b && status == old(status) && headers == old(headers)
    {
      body := b;
    }
  }
}
