/** The outside world of the connector: HTTP requests it sends, the responses a
    server oracle gives back, and the local files it writes. */
module Http {
  import opened Wrappers
  import opened Errors
  import opened Json

  newtype byte = x: int | 0 <= x < 256

  type Bytes = seq<byte>

  type Headers = map<string, string>

  /** Query parameters passed as `params=`, in the order of the Python dict. */
  type Params = seq<(string, string)>

  datatype Verb = Get | Put

  /** Which client sent a request: the module-level `requests.get`, or the
      `requests.Session` with the given number, which carries that session's
      cookies. */
  datatype Client = Direct | Session(id: nat)

  datatype Request = Request(client: Client, verb: Verb, url: string, params: Params, headers: Headers, verify: bool)

  /** A response as the connector uses it: the status code, the body decoded as
      JSON (`None` when it is not JSON) and the raw body bytes. */
  datatype Response = Response(status: int, json: Option<Json>, content: Bytes)

  /** The server: its answer to a request, given every request sent before it. */
  type Oracle = (seq<Request>, Request) -> Response

  /** What the network has seen: every request in order, and how many sessions
      have been opened. */
  datatype World = World(log: seq<Request>, sessions: nat)

  /** `response.raise_for_status()`: it raises for client (4xx) and server (5xx)
      errors only; other codes pass. */
  function RaiseForStatus(resp: Response): (r: Outcome<Error>)
    ensures r.Fail? <==> 400 <= resp.status < 600
    ensures r.Fail? ==> r.error == HttpError(resp.status)
  {
    if 400 <= resp.status < 600 then Fail(HttpError(resp.status)) else Pass
  }

  /** `response.json()`. */
  function JsonOf(resp: Response): (r: Result<Json, Error>)
    ensures r.Success? <==> resp.json.Some?
    ensures r.Success? ==> r.value == resp.json.value
    ensures r.Failure? ==> r.error == JsonDecodeError
  {
    match resp.json
    case Some(j) => Success(j)
    case None => Failure(JsonDecodeError)
  }

  /** The network: a fixed oracle and the log of what was sent to it. */
  class Network {
    const respond: Oracle
    var log: seq<Request>
    var sessions: nat

    constructor (respond: Oracle)
      ensures this.respond == respond && log == [] && sessions == 0
    {
      this.respond := respond;
      log := [];
      sessions := 0;
    }

    function Snapshot(): World
      reads this
    {
      World(log, sessions)
    }

    /** Sends one request and returns the oracle's answer to it. */
    method Send(q: Request) returns (resp: Response)
      modifies this
      ensures log == old(log) + [q] && sessions == old(sessions)
      ensures resp == respond(old(log), q)
    {
      resp := respond(log, q);
      log := log + [q];
    }

    /** `requests.Session()`: a new session with no cookies yet. */
    method OpenSession() returns (id: nat)
      modifies this
      ensures id == old(sessions) && sessions == old(sessions) + 1 && log == old(log)
    {
      id := sessions;
      sessions := sessions + 1;
    }
  }

  /** The local file system: file contents by path, and the paths that cannot be
      opened for writing. */
  class FileSystem {
    const denied: set<string>
    var files: map<string, Bytes>

    constructor (files: map<string, Bytes>, denied: set<string>)
      ensures this.files == files && this.denied == denied
    {
      this.files := files;
      this.denied := denied;
    }

    /** `with open(path, 'wb') as f: f.write(data)`: the file becomes `data`,
        replacing what it held; a path that cannot be opened raises and leaves
        every file as it was. */
    method WriteBytes(path: string, data: Bytes) returns (r: Outcome<Error>)
      modifies this
      ensures path in denied ==> r == Fail(IOError(path)) && files == old(files)
      ensures path !in denied ==> r == Pass && files == old(files)[path := data]
    {
      if path in denied {
        return Fail(IOError(path));
      }
      files := files[path := data];
      return Pass;
    }
  }
}
