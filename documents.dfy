/** The document operations that run inside an established session: the
    CSRF-protected download of one file, the file listing of a document and the
    documents related to an engineering item. Each is a pure function of the
    connector's fields, the server and the state before the call. */
module Documents {
  import opened Wrappers
  import opened Errors
  import opened Json
  import opened Http
  import opened Endpoints
  import opened Protocol

  /** What a protected call reads from the connector. */
  datatype Authorization = Authorization(session: nat, context: string, verify: bool)

  /** The reads a protected call makes before it sends anything, in Python's
      evaluation order: `self.session`, then `self.security_context` inside
      `get_session_header`, then `self.SSL_VERIFY`. */
  function Protected(c: ConnectorState): (r: Result<Authorization, Error>)
    ensures r.Success? <==> Authenticated(c)
    ensures r.Success? ==> r.value == Authorization(c.session.value, c.securityContext.value, c.sslVerify.value)
    ensures r.Failure? ==> r.error.AttributeError?
  {
    if c.session.None? then Failure(AttributeError("session"))
    else if c.securityContext.None? then Failure(AttributeError("security_context"))
    else if c.sslVerify.None? then Failure(AttributeError("SSL_VERIFY"))
    else Success(Authorization(c.session.value, c.securityContext.value, c.sslVerify.value))
  }

  /** `resp.json().get('csrf', {}).get('value', '')`. */
  function CsrfToken(resp: Response): Result<Json, Error> {
    var j :- JsonOf(resp);
    var csrf :- GetOr(j, "csrf", Obj(map[]));
    GetOr(csrf, "value", Str(""))
  }

  /** The session header with `ENO_CSRF_TOKEN` added, as the HTTP library sends
      it: a string token is sent as it is, a `None` token makes the library drop
      the header, and any other value is refused before sending. */
  function WithCsrf(headers: Headers, token: Json): Result<Headers, Error> {
    match token
    case Str(s) => Success(headers[CSRF_HEADER := s])
    case Null => Success(headers)
    case _ => Failure(InvalidHeader(CSRF_HEADER))
  }

  /** The headers of the ticket request: the session header with the CSRF
      token of the document answer `resp`. */
  function CsrfHeaders(resp: Response, context: string): Result<Headers, Error> {
    var token :- CsrfToken(resp);
    WithCsrf(SessionHeader(context), token)
  }

  /** `resp.json()['data'][0]['dataelements']['ticketURL']`. */
  function TicketUrlOf(resp: Response): Result<Json, Error> {
    var j :- JsonOf(resp);
    var data :- Index(j, "data");
    var first :- First(data);
    var elements :- Index(first, "dataelements");
    Index(elements, "ticketURL")
  }

  /** The end of a download: how it ended, the network and the files. */
  datatype Transfer = Transfer(outcome: Outcome<Error>, world: World, files: map<string, Bytes>)

  /** `download_document_file`: fetch the document for its CSRF token, then
      request the download ticket with it. */
  function DownloadSpec(base: string, c: ConnectorState, respond: Oracle, w: World, files: map<string, Bytes>,
                        denied: set<string>, docId: string, fileId: string, dest: string): Transfer
  {
    match Protected(c)
    case Failure(e) => Transfer(Fail(e), w, files)
    case Success(a) =>
    var q1 := DocumentRequest(a.session, base, docId, a.context, a.verify);
    var w1 := w.(log := w.log + [q1]);
    match CsrfHeaders(respond(w.log, q1), a.context)
    case Failure(e) => Transfer(Fail(e), w1, files)
    case Success(headers) => TicketStage(base, a, respond, w1, files, denied, docId, fileId, headers, dest)
  }

  /** PUT the download-ticket request with the given headers, check its status
      and read the ticket URL from the answer. */
  function TicketStage(base: string, a: Authorization, respond: Oracle, w: World, files: map<string, Bytes>,
                       denied: set<string>, docId: string, fileId: string, headers: Headers, dest: string): Transfer
  {
    var q := TicketRequest(a.session, base, docId, fileId, headers, a.verify);
    var w1 := w.(log := w.log + [q]);
    var ticket := respond(w.log, q);
    match RaiseForStatus(ticket)
    case Fail(e) => Transfer(Fail(e), w1, files)
    case Pass =>
    match TicketUrlOf(ticket)
    case Failure(e) => Transfer(Fail(e), w1, files)
    case Success(url) => RedeemStage(a, respond, w1, files, denied, Format(url), dest)
  }

  /** GET the ticket URL with the session header, check its status, then write
      the body to `dest`. */
  function RedeemStage(a: Authorization, respond: Oracle, w: World, files: map<string, Bytes>,
                       denied: set<string>, url: string, dest: string): Transfer
  {
    var q := RedeemRequest(a.session, url, a.context, a.verify);
    var w1 := w.(log := w.log + [q]);
    var body := respond(w.log, q);
    match RaiseForStatus(body)
    case Fail(e) => Transfer(Fail(e), w1, files)
    case Pass =>
    if dest in denied then Transfer(Fail(IOError(dest)), w1, files)
    else Transfer(Pass, w1, files[dest := body.content])
  }

  /** The value `ENO_CSRF_TOKEN` is set to: the document's `csrf.value`
      whatever else the document holds, or the empty string when the document
      has no `csrf` or its `csrf` has no `value`. A body that is not JSON, or a
      `csrf` that has no `get`, raises. */
  lemma CsrfTokenDefaults(resp: Response)
    ensures resp.json.None? ==> CsrfToken(resp) == Failure(JsonDecodeError)
    ensures resp.json.Some? && !resp.json.value.Obj? ==> CsrfToken(resp) == Failure(PayloadError("csrf"))
    ensures resp.json.Some? && resp.json.value.Obj? ==>
              var fields := resp.json.value.fields;
              && ("csrf" !in fields ==> CsrfToken(resp) == Success(Str("")))
              && ("csrf" in fields && !fields["csrf"].Obj? ==> CsrfToken(resp) == Failure(PayloadError("value")))
              && ("csrf" in fields && fields["csrf"].Obj? && "value" in fields["csrf"].fields
                  ==> CsrfToken(resp) == Success(fields["csrf"].fields["value"]))
              && ("csrf" in fields && fields["csrf"].Obj? && "value" !in fields["csrf"].fields
                  ==> CsrfToken(resp) == Success(Str("")))
  {
  }

  /** Without an established session a download raises `AttributeError` before
      sending anything and writes nothing. */
  lemma DownloadNeedsSession(base: string, c: ConnectorState, respond: Oracle, w: World, files: map<string, Bytes>,
                             denied: set<string>, docId: string, fileId: string, dest: string)
    requires !Authenticated(c)
    ensures var t := DownloadSpec(base, c, respond, w, files, denied, docId, fileId, dest);
            t.outcome.Fail? && t.outcome.error.AttributeError? && t.world == w && t.files == files
  {
  }

  /** The last stage sends one request and writes `dest` only when it passes. */
  lemma RedeemStageSends(a: Authorization, respond: Oracle, w: World, files: map<string, Bytes>,
                         denied: set<string>, url: string, dest: string)
    ensures var t := RedeemStage(a, respond, w, files, denied, url, dest);
            && t.world == World(w.log + [RedeemRequest(a.session, url, a.context, a.verify)], w.sessions)
            && (t.outcome.Fail? ==> t.files == files)
  {
  }

  /** The ticket stage sends one or two requests through the session. */
  lemma TicketStageSends(base: string, a: Authorization, respond: Oracle, w: World, files: map<string, Bytes>,
                         denied: set<string>, docId: string, fileId: string, headers: Headers, dest: string)
    ensures var t := TicketStage(base, a, respond, w, files, denied, docId, fileId, headers, dest);
            && |w.log| < |t.world.log| <= |w.log| + 2
            && t.world.log[..|w.log|] == w.log && t.world.sessions == w.sessions
            && t.world.log[|w.log|] == TicketRequest(a.session, base, docId, fileId, headers, a.verify)
            && (forall k :: |w.log| <= k < |t.world.log| ==> t.world.log[k].client == Session(a.session) && t.world.log[k].verify == a.verify)
  {
    var q := TicketRequest(a.session, base, docId, fileId, headers, a.verify);
    var ticket := respond(w.log, q);
    if RaiseForStatus(ticket).Pass? && TicketUrlOf(ticket).Success? {
      var w1 := w.(log := w.log + [q]);
      RedeemStageSends(a, respond, w1, files, denied, Format(TicketUrlOf(ticket).value), dest);
    }
  }

  /** A download only appends to the log, at most three requests, all through
      the connector's session with its `SSL_VERIFY`, and opens no session. */
  lemma DownloadAppendsThroughSession(base: string, c: ConnectorState, respond: Oracle, w: World, files: map<string, Bytes>,
                                      denied: set<string>, docId: string, fileId: string, dest: string)
    ensures var t := DownloadSpec(base, c, respond, w, files, denied, docId, fileId, dest);
            && |w.log| <= |t.world.log| <= |w.log| + 3
            && t.world.log[..|w.log|] == w.log && t.world.sessions == w.sessions
            && (|t.world.log| > |w.log| <==> Authenticated(c))
            && (Authenticated(c) ==> t.world.log[|w.log|] == DocumentRequest(c.session.value, base, docId, c.securityContext.value, c.sslVerify.value))
            && forall k :: |w.log| <= k < |t.world.log| ==>
                 t.world.log[k].client == Session(c.session.value) && t.world.log[k].verify == c.sslVerify.value
  {
    if Authenticated(c) {
      var a := Protected(c).value;
      var q1 := DocumentRequest(a.session, base, docId, a.context, a.verify);
      var w1 := w.(log := w.log + [q1]);
      if CsrfHeaders(respond(w.log, q1), a.context).Success? {
        var headers := CsrfHeaders(respond(w.log, q1), a.context).value;
        TicketStageSends(base, a, respond, w1, files, denied, docId, fileId, headers, dest);
        var t := TicketStage(base, a, respond, w1, files, denied, docId, fileId, headers, dest);
        assert t.world.log[..|w.log|] == w1.log[..|w.log|];
      }
    }
  }

  /** A failed download leaves every file as it was. */
  lemma DownloadFailureWritesNothing(base: string, c: ConnectorState, respond: Oracle, w: World, files: map<string, Bytes>,
                                     denied: set<string>, docId: string, fileId: string, dest: string)
    requires DownloadSpec(base, c, respond, w, files, denied, docId, fileId, dest).outcome.Fail?
    ensures DownloadSpec(base, c, respond, w, files, denied, docId, fileId, dest).files == files
  {
  }

  /** A successful download sends three requests in order: the document GET
      with the session header, the PUT to the file's `DownloadTicket` with the
      session header plus the document's CSRF token, and the GET of the ticket
      URL. Both checked answers passed, `dest` then holds exactly the body of
      the last answer, and no other file changed. */
  lemma DownloadSuccess(base: string, c: ConnectorState, respond: Oracle, w: World, files: map<string, Bytes>,
                        denied: set<string>, docId: string, fileId: string, dest: string)
    requires DownloadSpec(base, c, respond, w, files, denied, docId, fileId, dest).outcome.Pass?
    ensures Authenticated(c) && dest !in denied
    ensures var sid, ctx, v := c.session.value, c.securityContext.value, c.sslVerify.value;
            var q1 := DocumentRequest(sid, base, docId, ctx, v);
            var headers := CsrfHeaders(respond(w.log, q1), ctx);
            headers.Success? &&
            var q2 := TicketRequest(sid, base, docId, fileId, headers.value, v);
            var ticket := respond(w.log + [q1], q2);
            RaiseForStatus(ticket).Pass? && TicketUrlOf(ticket).Success? &&
            var q3 := RedeemRequest(sid, Format(TicketUrlOf(ticket).value), ctx, v);
            var body := respond(w.log + [q1, q2], q3);
            var t := DownloadSpec(base, c, respond, w, files, denied, docId, fileId, dest);
            && RaiseForStatus(body).Pass?
            && t.world == World(w.log + [q1, q2, q3], w.sessions)
            && t.files == files[dest := body.content]
            && forall p :: p != dest ==> (p in t.files <==> p in files) && (p in files ==> t.files[p] == files[p])
  {
    if !Authenticated(c) {
      DownloadNeedsSession(base, c, respond, w, files, denied, docId, fileId, dest);
    } else {
      var a := Protected(c).value;
      var q1 := DocumentRequest(a.session, base, docId, a.context, a.verify);
      var q2 := TicketRequest(a.session, base, docId, fileId, CsrfHeaders(respond(w.log, q1), a.context).value, a.verify);
      var q3 := RedeemRequest(a.session, Format(TicketUrlOf(respond(w.log + [q1], q2)).value), a.context, a.verify);
      assert w.log + [q1] + [q2] == w.log + [q1, q2];
      assert w.log + [q1] + [q2] + [q3] == w.log + [q1, q2, q3];
    }
  }

  /** When the document carries a string CSRF token, the ticket request carries
      the session header plus that token and nothing else. */
  lemma DownloadTicketHeaders(base: string, c: ConnectorState, respond: Oracle, w: World, files: map<string, Bytes>,
                              denied: set<string>, docId: string, fileId: string, dest: string, token: string)
    requires Authenticated(c)
    requires CsrfToken(respond(w.log, DocumentRequest(c.session.value, base, docId, c.securityContext.value, c.sslVerify.value))) == Success(Str(token))
    ensures var t := DownloadSpec(base, c, respond, w, files, denied, docId, fileId, dest);
            && |t.world.log| >= |w.log| + 2
            && t.world.log[|w.log| + 1].verb == Put
            && t.world.log[|w.log| + 1].url == TicketUrl(base, docId, fileId)
            && t.world.log[|w.log| + 1].headers == map[ACCEPT := JSON_MEDIA_TYPE, SECURITY_CONTEXT := c.securityContext.value, CSRF_HEADER := token]
  {
    var a := Protected(c).value;
    var q1 := DocumentRequest(a.session, base, docId, a.context, a.verify);
    var headers := SessionHeader(a.context)[CSRF_HEADER := token];
    TicketStageSends(base, a, respond, w.(log := w.log + [q1]), files, denied, docId, fileId, headers, dest);
    assert headers == map[ACCEPT := JSON_MEDIA_TYPE, SECURITY_CONTEXT := c.securityContext.value, CSRF_HEADER := token];
  }

  /** A 4xx or 5xx answer to the ticket PUT raises before the ticket URL is
      requested, and nothing is written. */
  lemma DownloadTicketRejected(base: string, c: ConnectorState, respond: Oracle, w: World, files: map<string, Bytes>,
                               denied: set<string>, docId: string, fileId: string, dest: string)
    requires Authenticated(c)
    requires var sid, ctx, v := c.session.value, c.securityContext.value, c.sslVerify.value;
             var q1 := DocumentRequest(sid, base, docId, ctx, v);
             var headers := CsrfHeaders(respond(w.log, q1), ctx);
             headers.Success? &&
             400 <= respond(w.log + [q1], TicketRequest(sid, base, docId, fileId, headers.value, v)).status < 600
    ensures var sid, ctx, v := c.session.value, c.securityContext.value, c.sslVerify.value;
            var q1 := DocumentRequest(sid, base, docId, ctx, v);
            var q2 := TicketRequest(sid, base, docId, fileId, CsrfHeaders(respond(w.log, q1), ctx).value, v);
            var t := DownloadSpec(base, c, respond, w, files, denied, docId, fileId, dest);
            && t.outcome == Fail(HttpError(respond(w.log + [q1], q2).status))
            && t.world.log == w.log + [q1, q2]
            && t.files == files
  {
    var a := Protected(c).value;
    var q1 := DocumentRequest(a.session, base, docId, a.context, a.verify);
    var q2 := TicketRequest(a.session, base, docId, fileId, CsrfHeaders(respond(w.log, q1), a.context).value, a.verify);
    assert w.log + [q1] + [q2] == w.log + [q1, q2];
  }

  /** A 4xx or 5xx answer to the ticket URL raises after all three requests
      were sent, and nothing is written. */
  lemma DownloadRedeemRejected(base: string, c: ConnectorState, respond: Oracle, w: World, files: map<string, Bytes>,
                               denied: set<string>, docId: string, fileId: string, dest: string)
    requires Authenticated(c)
    requires var sid, ctx, v := c.session.value, c.securityContext.value, c.sslVerify.value;
             var q1 := DocumentRequest(sid, base, docId, ctx, v);
             var headers := CsrfHeaders(respond(w.log, q1), ctx);
             headers.Success? &&
             var q2 := TicketRequest(sid, base, docId, fileId, headers.value, v);
             var ticket := respond(w.log + [q1], q2);
             RaiseForStatus(ticket).Pass? && TicketUrlOf(ticket).Success? &&
             400 <= respond(w.log + [q1, q2], RedeemRequest(sid, Format(TicketUrlOf(ticket).value), ctx, v)).status < 600
    ensures var sid, ctx, v := c.session.value, c.securityContext.value, c.sslVerify.value;
            var q1 := DocumentRequest(sid, base, docId, ctx, v);
            var q2 := TicketRequest(sid, base, docId, fileId, CsrfHeaders(respond(w.log, q1), ctx).value, v);
            var q3 := RedeemRequest(sid, Format(TicketUrlOf(respond(w.log + [q1], q2)).value), ctx, v);
            var t := DownloadSpec(base, c, respond, w, files, denied, docId, fileId, dest);
            && t.outcome == Fail(HttpError(respond(w.log + [q1, q2], q3).status))
            && t.world.log == w.log + [q1, q2, q3]
            && t.files == files
  {
    var a := Protected(c).value;
    var q1 := DocumentRequest(a.session, base, docId, a.context, a.verify);
    var q2 := TicketRequest(a.session, base, docId, fileId, CsrfHeaders(respond(w.log, q1), a.context).value, a.verify);
    var q3 := RedeemRequest(a.session, Format(TicketUrlOf(respond(w.log + [q1], q2)).value), a.context, a.verify);
    assert w.log + [q1] + [q2] == w.log + [q1, q2];
    assert w.log + [q1] + [q2] + [q3] == w.log + [q1, q2, q3];
  }

  /** Two downloads one after the other each fetch their document afresh: no
      CSRF token is carried from one to the next. */
  lemma DownloadsFetchCsrfEachTime(base: string, c: ConnectorState, respond: Oracle, w: World, files: map<string, Bytes>,
                                   denied: set<string>, doc1: string, file1: string, dest1: string,
                                   doc2: string, file2: string, dest2: string)
    requires DownloadSpec(base, c, respond, w, files, denied, doc1, file1, dest1).outcome.Pass?
    ensures var t1 := DownloadSpec(base, c, respond, w, files, denied, doc1, file1, dest1);
            var t2 := DownloadSpec(base, c, respond, t1.world, t1.files, denied, doc2, file2, dest2);
            && |t2.world.log| >= |w.log| + 4
            && t2.world.log[|w.log|] == DocumentRequest(c.session.value, base, doc1, c.securityContext.value, c.sslVerify.value)
            && t2.world.log[|w.log| + 3] == DocumentRequest(c.session.value, base, doc2, c.securityContext.value, c.sslVerify.value)
  {
    DownloadSuccess(base, c, respond, w, files, denied, doc1, file1, dest1);
    var t1 := DownloadSpec(base, c, respond, w, files, denied, doc1, file1, dest1);
    DownloadAppendsThroughSession(base, c, respond, t1.world, t1.files, denied, doc2, file2, dest2);
    var t2 := DownloadSpec(base, c, respond, t1.world, t1.files, denied, doc2, file2, dest2);
    assert |t1.world.log| == |w.log| + 3;
    assert t2.world.log[|w.log|] == t2.world.log[..|t1.world.log|][|w.log|] == t1.world.log[|w.log|];
  }

  /** The result of a read-only protected call and the network after it. */
  datatype Fetch<T> = Fetch(result: Result<T, Error>, world: World)

  /** `get_document_files`: one GET of the document's files, a status check,
      then the `data` member of the answer. */
  function DocumentFilesSpec(base: string, c: ConnectorState, respond: Oracle, w: World, docId: string): Fetch<Json> {
    match Protected(c)
    case Failure(e) => Fetch(Failure(e), w)
    case Success(a) =>
    var q := FilesRequest(a.session, base, docId, a.context, a.verify);
    var w1 := w.(log := w.log + [q]);
    var resp := respond(w.log, q);
    match RaiseForStatus(resp)
    case Fail(e) => Fetch(Failure(e), w1)
    case Pass =>
    match JsonOf(resp)
    case Failure(e) => Fetch(Failure(e), w1)
    case Success(j) => Fetch(Index(j, "data"), w1)
  }

  /** The file listing is checked for its status before its body is looked at,
      sends one request, and returns the `data` member of a good answer. */
  lemma DocumentFilesStatusFirst(base: string, c: ConnectorState, respond: Oracle, w: World, docId: string)
    requires Authenticated(c)
    ensures var q := FilesRequest(c.session.value, base, docId, c.securityContext.value, c.sslVerify.value);
            var resp := respond(w.log, q);
            var f := DocumentFilesSpec(base, c, respond, w, docId);
            && f.world == w.(log := w.log + [q])
            && (400 <= resp.status < 600 ==> f.result == Failure(HttpError(resp.status)))
            && (f.result.Success? <==> !(400 <= resp.status < 600) && resp.json.Some? && resp.json.value.Obj? && "data" in resp.json.value.fields)
            && (f.result.Success? ==> f.result.value == resp.json.value.fields["data"])
  {
  }

  /** Prepends documents fetched earlier to the outcome of the rest of a listing. */
  function Prepend(docs: seq<Json>, f: Fetch<seq<Json>>): Fetch<seq<Json>> {
    match f.result
    case Success(rest) => Fetch(Success(docs + rest), f.world)
    case Failure(_) => f
  }

  lemma PrependNothing(f: Fetch<seq<Json>>)
    ensures Prepend([], f) == f
  {
    if f.result.Success? {
      assert [] + f.result.value == f.result.value;
    }
  }

  lemma PrependTwice(a: seq<Json>, b: seq<Json>, f: Fetch<seq<Json>>)
    ensures Prepend(a, Prepend(b, f)) == Prepend(a + b, f)
  {
    if f.result.Success? {
      assert a + (b + f.result.value) == (a + b) + f.result.value;
    }
  }

  /** `get_item_documents`: one GET per relationship, in order, each answer's
      JSON appended to the result; no status is checked. An empty list of
      relationships returns at once without reading any field. */
  function ItemDocumentsSpec(base: string, c: ConnectorState, respond: Oracle, w: World, itemId: string, rels: seq<string>): Fetch<seq<Json>>
    decreases |rels|
  {
    if rels == [] then Fetch(Success([]), w)
    else
      match Protected(c)
      case Failure(e) => Fetch(Failure(e), w)
      case Success(a) =>
      var q := ItemDocumentsRequest(a.session, base, itemId, rels[0], a.context, a.verify);
      var w1 := w.(log := w.log + [q]);
      match JsonOf(respond(w.log, q))
      case Failure(e) => Fetch(Failure(e), w1)
      case Success(doc) => Prepend([doc], ItemDocumentsSpec(base, c, respond, w1, itemId, rels[1..]))
  }

  /** The requests and the documents of a successful listing: exactly one request
      per relationship, in the order given, and the k-th document is the JSON of
      the answer to the k-th request. */
  lemma {:induction false} ItemDocumentsOnePerRelationship(base: string, c: ConnectorState, respond: Oracle, w: World, itemId: string, rels: seq<string>)
    requires ItemDocumentsSpec(base, c, respond, w, itemId, rels).result.Success?
    ensures |rels| > 0 ==> Authenticated(c)
    ensures var f := ItemDocumentsSpec(base, c, respond, w, itemId, rels);
            var docs := f.result.value;
            var log := f.world.log;
            && |docs| == |rels|
            && |log| == |w.log| + |rels| && log[..|w.log|] == w.log && f.world.sessions == w.sessions
            && forall k :: 0 <= k < |rels| ==>
                 && log[|w.log| + k] == ItemDocumentsRequest(c.session.value, base, itemId, rels[k], c.securityContext.value, c.sslVerify.value)
                 && respond(log[..|w.log| + k], log[|w.log| + k]).json == Some(docs[k])
    decreases |rels|
  {
    if rels != [] {
      var a := Protected(c).value;
      var q := ItemDocumentsRequest(a.session, base, itemId, rels[0], a.context, a.verify);
      var w1 := w.(log := w.log + [q]);
      var doc := respond(w.log, q).json.value;
      var rest := ItemDocumentsSpec(base, c, respond, w1, itemId, rels[1..]);
      assert ItemDocumentsSpec(base, c, respond, w, itemId, rels) == Prepend([doc], rest);
      ItemDocumentsOnePerRelationship(base, c, respond, w1, itemId, rels[1..]);
      var f := ItemDocumentsSpec(base, c, respond, w, itemId, rels);
      var log := f.world.log;
      assert log == rest.world.log;
      assert log[..|w.log|] == w.log by {
        assert log[..|w1.log|] == w1.log;
        assert w1.log[..|w.log|] == w.log;
      }
      forall k | 0 <= k < |rels|
        ensures log[|w.log| + k] == ItemDocumentsRequest(c.session.value, base, itemId, rels[k], c.securityContext.value, c.sslVerify.value)
        ensures respond(log[..|w.log| + k], log[|w.log| + k]).json == Some(f.result.value[k])
      {
        if k == 0 {
          assert log[..|w.log|] == w.log;
          assert log[|w.log|] == w1.log[|w.log|];
        } else {
          assert rels[k] == rels[1..][k - 1];
          assert |w.log| + k == |w1.log| + (k - 1);
          assert f.result.value[k] == rest.result.value[k - 1];
        }
      }
    }
  }

  /** Without a list of its own, a successful listing sends exactly three
      requests, for `Reference Document`, `PLMDocConnection` and
      `SpecificationDocument` in that order, and returns three documents. */
  lemma ItemDocumentsDefaultRequests(base: string, c: ConnectorState, respond: Oracle, w: World, itemId: string)
    requires ItemDocumentsSpec(base, c, respond, w, itemId, DEFAULT_RELATIONSHIPS).result.Success?
    ensures Authenticated(c)
    ensures var f := ItemDocumentsSpec(base, c, respond, w, itemId, DEFAULT_RELATIONSHIPS);
            var sid, ctx, v := c.session.value, c.securityContext.value, c.sslVerify.value;
            && |f.result.value| == 3
            && f.world == World(w.log + [ItemDocumentsRequest(sid, base, itemId, "Reference Document", ctx, v),
                                         ItemDocumentsRequest(sid, base, itemId, "PLMDocConnection", ctx, v),
                                         ItemDocumentsRequest(sid, base, itemId, "SpecificationDocument", ctx, v)], w.sessions)
  {
    var rels := DEFAULT_RELATIONSHIPS;
    ItemDocumentsOnePerRelationship(base, c, respond, w, itemId, rels);
    var f := ItemDocumentsSpec(base, c, respond, w, itemId, rels);
    var sid, ctx, v := c.session.value, c.securityContext.value, c.sslVerify.value;
    var expected := w.log + [ItemDocumentsRequest(sid, base, itemId, rels[0], ctx, v),
                             ItemDocumentsRequest(sid, base, itemId, rels[1], ctx, v),
                             ItemDocumentsRequest(sid, base, itemId, rels[2], ctx, v)];
    assert f.world.log[|w.log|] == expected[|w.log|];
    assert f.world.log[|w.log| + 1] == expected[|w.log| + 1];
    assert f.world.log[|w.log| + 2] == expected[|w.log| + 2];
    assert f.world.log == expected;
  }

  /** Whatever the outcome, a listing sends requests only for the relationships
      in order, at most one each. */
  lemma {:induction false} ItemDocumentsRequestsInOrder(base: string, c: ConnectorState, respond: Oracle, w: World, itemId: string, rels: seq<string>)
    ensures var f := ItemDocumentsSpec(base, c, respond, w, itemId, rels);
            var log := f.world.log;
            && |w.log| <= |log| <= |w.log| + |rels| && log[..|w.log|] == w.log && f.world.sessions == w.sessions
            && (|log| > |w.log| ==> Authenticated(c))
            && forall k :: |w.log| <= k < |log| ==>
                 log[k] == ItemDocumentsRequest(c.session.value, base, itemId, rels[k - |w.log|], c.securityContext.value, c.sslVerify.value)
    decreases |rels|
  {
    if rels != [] && Protected(c).Success? {
      var a := Protected(c).value;
      var q := ItemDocumentsRequest(a.session, base, itemId, rels[0], a.context, a.verify);
      var w1 := w.(log := w.log + [q]);
      if respond(w.log, q).json.Some? {
        ItemDocumentsRequestsInOrder(base, c, respond, w1, itemId, rels[1..]);
        var rest := ItemDocumentsSpec(base, c, respond, w1, itemId, rels[1..]);
        var log := ItemDocumentsSpec(base, c, respond, w, itemId, rels).world.log;
        assert log == rest.world.log;
        assert log[..|w.log|] == w.log by {
          assert log[..|w1.log|] == w1.log;
          assert w1.log[..|w.log|] == w.log;
        }
        forall k | |w.log| <= k < |log|
          ensures log[k] == ItemDocumentsRequest(c.session.value, base, itemId, rels[k - |w.log|], c.securityContext.value, c.sslVerify.value)
        {
          if k > |w.log| {
            assert rels[k - |w.log|] == rels[1..][k - |w1.log|];
          } else {
            assert log[k] == w1.log[k];
          }
        }
      }
    }
  }
}
