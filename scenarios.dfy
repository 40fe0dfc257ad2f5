/** Worked runs of the connector against small scripted servers: a ticket
    exchange that ends with a security context, a download that writes a file,
    and a download whose ticket request is refused. */
module Scenarios {
  import opened Wrappers
  import opened Errors
  import opened Json
  import opened Config
  import opened Http
  import opened Endpoints
  import opened Protocol
  import opened Documents

  function Token(t: string): Response {
    Response(200, Some(Obj(map["access_token" := Str(t)])), [])
  }

  /** Answers by position: the TGT `tgt`, the ST `st`, an empty bootstrap page,
      then the given preferred credentials. */
  function LoginServer(tgt: string, st: string, role: string, organization: string, collabspace: string): Oracle {
    (h: seq<Request>, q: Request) =>
      if |h| == 0 then Token(tgt)
      else if |h| == 1 then Token(st)
      else if |h| == 2 then Response(200, None, [])
      else Response(200, Some(CredentialsPayload(role, organization, collabspace)), [])
  }

  /** The scripted server gives the two tokens and the credentials that a
      complete ticket exchange needs. */
  lemma LoginServerAnswers(env: Env, base: string, tgt: string, st: string, role: string, organization: string, collabspace: string)
    requires HasSessionVars(env)
    ensures var server := LoginServer(tgt, st, role, organization, collabspace);
            var v := VerifyFlag(env);
            var q1 := TgtRequest(base, env[SERVICE_NAME_VAR], env[SERVICE_SECRET_VAR], env[USER_VAR], v);
            var q2 := StRequest(base, tgt, v);
            var q3 := BootstrapRequest(0, base, st, v);
            var person := server([q1, q2, q3], PersonRequest(0, base, v));
            && AccessToken(server([], q1)) == Success(Str(tgt))
            && AccessToken(server([] + [q1], q2)) == Success(Str(st))
            && !(400 <= person.status < 600) && person.json.Some? && NamesCredentials(person.json.value, role, organization, collabspace)
  {
  }

  /** A complete ticket exchange against the scripted server, for every
      environment that sets the three service variables: the connector ends
      authenticated with the joined names. */
  lemma LoginScenario(env: Env, base: string, tgt: string, st: string, role: string, organization: string, collabspace: string)
    requires HasSessionVars(env)
    ensures var r := StartSessionSpec(env, base, LoginServer(tgt, st, role, organization, collabspace), UNSTARTED, World([], 0));
            && r.outcome == Pass
            && r.conn == ConnectorState(Some(VerifyFlag(env)), Some(0), Some(role + "." + organization + "." + collabspace))
            && |r.world.log| == 4 && r.world.sessions == 1
  {
    var v := VerifyFlag(env);
    var q1 := TgtRequest(base, env[SERVICE_NAME_VAR], env[SERVICE_SECRET_VAR], env[USER_VAR], v);
    LoginServerAnswers(env, base, tgt, st, role, organization, collabspace);
    assert [] + [q1] == [q1];
    StartSessionCompletes(env, base, LoginServer(tgt, st, role, organization, collabspace), UNSTARTED, World([], 0),
                          tgt, st, role, organization, collabspace);
  }

  /** A connector after a successful login with context `ctx`. */
  function LoggedIn(ctx: string): ConnectorState {
    ConnectorState(Some(true), Some(0), Some(ctx))
  }

  function TicketPayload(url: string): Json {
    Obj(map["data" := Arr([Obj(map["dataelements" := Obj(map["ticketURL" := Str(url)])])])])
  }

  /** Answers by position: the document with CSRF token `token`, a download
      ticket for `url` with the status `ticketStatus`, then two bytes. */
  function FileServer(token: string, url: string, ticketStatus: int): Oracle {
    (h: seq<Request>, q: Request) =>
      if |h| == 0 then Response(200, Some(Obj(map["csrf" := Obj(map["value" := Str(token)])])), [])
      else if |h| == 1 then Response(ticketStatus, Some(TicketPayload(url)), [])
      else Response(200, None, [1, 2])
  }

  /** A download into an empty file system writes the two bytes to `dest`. */
  lemma DownloadScenario(base: string, ctx: string, docId: string, fileId: string, dest: string, token: string, url: string)
    ensures var t := DownloadSpec(base, LoggedIn(ctx), FileServer(token, url, 200), World([], 1), map[], {}, docId, fileId, dest);
            && t.outcome == Pass
            && t.files == map[dest := [1, 2]]
            && t.world.log == [DocumentRequest(0, base, docId, ctx, true),
                               TicketRequest(0, base, docId, fileId, SessionHeader(ctx)[CSRF_HEADER := token], true),
                               RedeemRequest(0, url, ctx, true)]
  {
    var q1 := DocumentRequest(0, base, docId, ctx, true);
    var q2 := TicketRequest(0, base, docId, fileId, SessionHeader(ctx)[CSRF_HEADER := token], true);
    CsrfTokenDefaults(FileServer(token, url, 200)([], q1));
    assert Format(Str(url)) == url;
    assert [] + [q1] + [q2] == [q1, q2];
  }

  /** A refused ticket request stops the download after two requests. */
  lemma RefusedTicketScenario(base: string, ctx: string, docId: string, fileId: string, dest: string, token: string, url: string)
    ensures var t := DownloadSpec(base, LoggedIn(ctx), FileServer(token, url, 403), World([], 1), map[], {}, docId, fileId, dest);
            && t.outcome == Fail(HttpError(403))
            && t.files == map[]
            && |t.world.log| == 2
  {
    CsrfTokenDefaults(FileServer(token, url, 403)([], DocumentRequest(0, base, docId, ctx, true)));
  }
}
