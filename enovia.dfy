/** `EnoviaConnector`: the client object whose fields `start_session` fills in
    step by step and whose document operations read them. Each method is proved
    to do exactly what the matching specification function of `Protocol` or
    `Documents` says. */
module Enovia {
  import opened Wrappers
  import opened Errors
  import opened Json
  import opened Config
  import opened Http
  import opened PercentEncoding
  import opened Endpoints
  import opened Protocol
  import opened Documents

  class EnoviaConnector {
    /** The environment the connector reads its settings from. */
    const env: Env
    /** `BASE_URL`, read once when the connector is made. */
    const baseUrl: string
    var sslVerify: Option<bool>
    var session: Option<nat>
    var securityContext: Option<string>

    function State(): ConnectorState
      reads this
    {
      ConnectorState(sslVerify, session, securityContext)
    }

    constructor (env: Env, baseUrl: string)
      ensures this.env == env && this.baseUrl == baseUrl && State() == UNSTARTED
    {
      this.env := env;
      this.baseUrl := baseUrl;
      sslVerify := None;
      session := None;
      securityContext := None;
    }

    /** `get_session_header`: a new dict holding the standard `Accept` header and
        the stored security context; before that context exists it raises. */
    method GetSessionHeader() returns (r: Result<Headers, Error>)
      ensures r.Success? <==> securityContext.Some?
      ensures r.Failure? ==> r.error == AttributeError("security_context")
      ensures r.Success? ==> && r.value.Keys == {ACCEPT, SECURITY_CONTEXT}
                             && r.value[ACCEPT] == JSON_MEDIA_TYPE
                             && r.value[SECURITY_CONTEXT] == securityContext.value
    {
      var header := StandardHeader();
      if securityContext.None? {
        return Failure(AttributeError("security_context"));
      }
      header := header[SECURITY_CONTEXT := securityContext.value];
      return Success(header);
    }

    /** `start_session`: the three variables and `SSL_VERIFY`, then the ticket
        exchange. */
    method StartSession(net: Network) returns (r: Outcome<Error>)
      modifies this, net
      ensures Run(r, State(), net.Snapshot()) == StartSessionSpec(env, baseUrl, net.respond, old(State()), old(net.Snapshot()))
    {
      var name := GetEnvVar(env, SERVICE_NAME_VAR);
      if name.Failure? { return Fail(name.error); }
      var secret := GetEnvVar(env, SERVICE_SECRET_VAR);
      if secret.Failure? { return Fail(secret.error); }
      var user := GetEnvVar(env, USER_VAR);
      if user.Failure? { return Fail(user.error); }
      sslVerify := Some(SslVerify(LookupEnv(env, SSL_VERIFY_VAR)));
      r := ExchangeTickets(net, name.value, secret.value, user.value);
    }

    /** The TGT and ST requests of `start_session`, then the session login. */
    method ExchangeTickets(net: Network, name: string, secret: string, user: string) returns (r: Outcome<Error>)
      requires sslVerify.Some?
      modifies this, net
      ensures Run(r, State(), net.Snapshot())
              == TicketExchange(baseUrl, net.respond, old(State()), old(net.Snapshot()), name, secret, user, old(sslVerify.value))
    {
      var response := net.Send(TgtRequest(baseUrl, name, secret, user, sslVerify.value));
      var tgt := AccessToken(response);
      if tgt.Failure? { return Fail(tgt.error); }

      response := net.Send(StRequest(baseUrl, Format(tgt.value), sslVerify.value));
      var st := AccessToken(response);
      if st.Failure? { return Fail(st.error); }
      r := LoginSession(net, Format(st.value));
    }

    /** The session bootstrap and the person query of `start_session`. */
    method LoginSession(net: Network, st: string) returns (r: Outcome<Error>)
      requires sslVerify.Some?
      modifies this, net
      ensures Run(r, State(), net.Snapshot())
              == SessionLogin(baseUrl, net.respond, old(State()), old(net.Snapshot()), st, old(sslVerify.value))
    {
      var id := net.OpenSession();
      session := Some(id);
      var _ := net.Send(BootstrapRequest(id, baseUrl, st, sslVerify.value));

      var response := net.Send(PersonRequest(id, baseUrl, sslVerify.value));
      var status := RaiseForStatus(response);
      if status.Fail? { return status; }
      var context := SecurityContextOf(response);
      if context.Failure? { return Fail(context.error); }
      securityContext := Some(context.value);
      return Pass;
    }

    /** `download_document_file`. */
    method DownloadDocumentFile(net: Network, fs: FileSystem, docId: string, fileId: string, dest: string) returns (r: Outcome<Error>)
      modifies net, fs
      ensures Transfer(r, net.Snapshot(), fs.files)
              == DownloadSpec(baseUrl, State(), net.respond, old(net.Snapshot()), old(fs.files), fs.denied, docId, fileId, dest)
    {
      if session.None? { return Fail(AttributeError("session")); }
      var header := GetSessionHeader();
      if header.Failure? { return Fail(header.error); }
      if sslVerify.None? { return Fail(AttributeError("SSL_VERIFY")); }

      assert header.value == SessionHeader(securityContext.value);
      ghost var spec := DownloadSpec(baseUrl, State(), net.respond, net.Snapshot(), fs.files, fs.denied, docId, fileId, dest);
      ghost var a := Authorization(session.value, securityContext.value, sslVerify.value);
      var resp := net.Send(DocumentRequest(session.value, baseUrl, docId, securityContext.value, sslVerify.value));
      var token := CsrfToken(resp);
      if token.Failure? { return Fail(token.error); }

      var ticketHeader := WithCsrf(header.value, token.value);
      if ticketHeader.Failure? { return Fail(ticketHeader.error); }
      assert spec == TicketStage(baseUrl, a, net.respond, net.Snapshot(), fs.files, fs.denied, docId, fileId, ticketHeader.value, dest);
      resp := net.Send(TicketRequest(session.value, baseUrl, docId, fileId, ticketHeader.value, sslVerify.value));
      var status := RaiseForStatus(resp);
      if status.Fail? { return status; }
      var url := TicketUrlOf(resp);
      if url.Failure? { return Fail(url.error); }
      assert spec == RedeemStage(a, net.respond, net.Snapshot(), fs.files, fs.denied, Format(url.value), dest);

      resp := net.Send(RedeemRequest(session.value, Format(url.value), securityContext.value, sslVerify.value));
      status := RaiseForStatus(resp);
      if status.Fail? { return status; }
      r := fs.WriteBytes(dest, resp.content);
    }

    /** `get_document_files`. */
    method GetDocumentFiles(net: Network, docId: string) returns (r: Result<Json, Error>)
      modifies net
      ensures Fetch(r, net.Snapshot()) == DocumentFilesSpec(baseUrl, State(), net.respond, old(net.Snapshot()), docId)
    {
      if session.None? { return Failure(AttributeError("session")); }
      if securityContext.None? { return Failure(AttributeError("security_context")); }
      if sslVerify.None? { return Failure(AttributeError("SSL_VERIFY")); }
      var resp := net.Send(FilesRequest(session.value, baseUrl, docId, securityContext.value, sslVerify.value));
      var status := RaiseForStatus(resp);
      if status.Fail? { return Failure(status.error); }
      var fileJson := JsonOf(resp);
      if fileJson.Failure? { return Failure(fileJson.error); }
      return Index(fileJson.value, "data");
    }

    /** `get_item_documents` with the list of relationships given. */
    method GetItemDocuments(net: Network, itemId: string, rels: seq<string>) returns (r: Result<seq<Json>, Error>)
      modifies net
      ensures Fetch(r, net.Snapshot()) == ItemDocumentsSpec(baseUrl, State(), net.respond, old(net.Snapshot()), itemId, rels)
    {
      var docs: seq<Json> := [];
      var i := 0;
      assert rels[i..] == rels;
      PrependNothing(ItemDocumentsSpec(baseUrl, State(), net.respond, net.Snapshot(), itemId, rels));
      while i < |rels|
        invariant 0 <= i <= |rels|
        invariant ItemDocumentsSpec(baseUrl, State(), net.respond, old(net.Snapshot()), itemId, rels)
                  == Prepend(docs, ItemDocumentsSpec(baseUrl, State(), net.respond, net.Snapshot(), itemId, rels[i..]))
      {
        if session.None? { return Failure(AttributeError("session")); }
        if securityContext.None? { return Failure(AttributeError("security_context")); }
        if sslVerify.None? { return Failure(AttributeError("SSL_VERIFY")); }
        var resp := net.Send(ItemDocumentsRequest(session.value, baseUrl, itemId, rels[i], securityContext.value, sslVerify.value));
        var doc := JsonOf(resp);
        if doc.Failure? { return Failure(doc.error); }
        assert rels[i..][1..] == rels[i + 1..];
        PrependTwice(docs, [doc.value], ItemDocumentsSpec(baseUrl, State(), net.respond, net.Snapshot(), itemId, rels[i + 1..]));
        docs := docs + [doc.value];
        i := i + 1;
      }
      assert rels[i..] == [];
      assert docs + [] == docs;
      return Success(docs);
    }

    /** `get_item_documents(item_id)`: the default list of relationships. */
    method GetDefaultItemDocuments(net: Network, itemId: string) returns (r: Result<seq<Json>, Error>)
      modifies net
      ensures Fetch(r, net.Snapshot()) == ItemDocumentsSpec(baseUrl, State(), net.respond, old(net.Snapshot()), itemId, DEFAULT_RELATIONSHIPS)
    {
      r := GetItemDocuments(net, itemId, DEFAULT_RELATIONSHIPS);
    }
  }

  /** `EnoviaConnector()`: reads `BASE_URL`, which must be set. */
  method Create(env: Env) returns (r: Result<EnoviaConnector, Error>)
    ensures r.Failure? <==> BASE_URL_VAR !in env
    ensures r.Failure? ==> r.error == EnvironmentError(BASE_URL_VAR)
    ensures r.Success? ==> && fresh(r.value) && r.value.env == env
                           && r.value.baseUrl == env[BASE_URL_VAR] && r.value.State() == UNSTARTED
  {
    var base := GetEnvVar(env, BASE_URL_VAR);
    if base.Failure? {
      return Failure(base.error);
    }
    var connector := new EnoviaConnector(env, base.value);
    return Success(connector);
  }
}
