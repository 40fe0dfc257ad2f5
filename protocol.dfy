/** The connector's own state and the ticket exchange of `start_session`, as a
    pure function from the old state and the network to the new ones. */
module Protocol {
  import opened Wrappers
  import opened Errors
  import opened Json
  import opened Config
  import opened Http
  import opened Endpoints

  /** The fields `start_session` assigns. A field that was never assigned is
      `None`: reading it raises `AttributeError`. */
  datatype ConnectorState = ConnectorState(sslVerify: Option<bool>, session: Option<nat>, securityContext: Option<string>)

  const UNSTARTED := ConnectorState(None, None, None)

  /** The states `start_session` can leave behind: fields are assigned in the
      order `SSL_VERIFY`, `session`, `security_context`, and never unassigned. */
  predicate Reachable(c: ConnectorState) {
    && (c.session.Some? ==> c.sslVerify.Some?)
    && (c.securityContext.Some? ==> c.session.Some?)
  }

  /** A session is established and the security context derived. */
  predicate Authenticated(c: ConnectorState) {
    c.sslVerify.Some? && c.session.Some? && c.securityContext.Some?
  }

  /** The end of an operation: how it ended, the connector's fields and the
      network afterwards. */
  datatype Run = Run(outcome: Outcome<Error>, conn: ConnectorState, world: World)

  /** `response.json()["access_token"]`, without looking at the status. */
  function AccessToken(resp: Response): (r: Result<Json, Error>)
    ensures r.Success? <==> resp.json.Some? && resp.json.value.Obj? && "access_token" in resp.json.value.fields
    ensures r.Success? ==> r.value == resp.json.value.fields["access_token"]
  {
    var j :- JsonOf(resp);
    Index(j, "access_token")
  }

  /** The preferred credentials of the person response joined as
      `role.organization.collabspace`. */
  function SecurityContextOf(resp: Response): Result<string, Error> {
    var j :- JsonOf(resp);
    var credentials :- Index(j, "preferredcredentials");
    var role :- Index(credentials, "role");
    var roleName :- Index(role, "name");
    var organization :- Index(credentials, "organization");
    var organizationName :- Index(organization, "name");
    var collabspace :- Index(credentials, "collabspace");
    var collabspaceName :- Index(collabspace, "name");
    Success(Format(roleName) + "." + Format(organizationName) + "." + Format(collabspaceName))
  }

  function NamedObject(name: string): Json {
    Obj(map["name" := Str(name)])
  }

  /** `credentials[key]["name"]` can be read. */
  predicate HasName(credentials: Json, key: string) {
    credentials.Obj? && key in credentials.fields
    && credentials.fields[key].Obj? && "name" in credentials.fields[key].fields
  }

  function NameOf(credentials: Json, key: string): Json
    requires HasName(credentials, key)
  {
    credentials.fields[key].fields["name"]
  }

  /** A person body from which the three names can be read: its
      `preferredcredentials` holds `role`, `organization` and `collabspace`, each
      with a `name`. Other members, at any level, may be present. */
  predicate HasCredentialNames(j: Json) {
    && j.Obj? && "preferredcredentials" in j.fields
    && var credentials := j.fields["preferredcredentials"];
       HasName(credentials, "role") && HasName(credentials, "organization") && HasName(credentials, "collabspace")
  }

  /** A person body whose three credential names are the given strings. */
  predicate NamesCredentials(j: Json, role: string, organization: string, collabspace: string) {
    && HasCredentialNames(j)
    && var credentials := j.fields["preferredcredentials"];
       && NameOf(credentials, "role") == Str(role)
       && NameOf(credentials, "organization") == Str(organization)
       && NameOf(credentials, "collabspace") == Str(collabspace)
  }

  /** The smallest person body for the given names. */
  function CredentialsPayload(role: string, organization: string, collabspace: string): (j: Json)
    ensures NamesCredentials(j, role, organization, collabspace)
  {
    Obj(map["preferredcredentials" := Obj(map["role" := NamedObject(role),
                                              "organization" := NamedObject(organization),
                                              "collabspace" := NamedObject(collabspace)])])
  }

  /** A context is derived exactly from the person bodies that hold the three
      names, and it is their text joined by dots. */
  lemma SecurityContextOfExactly(resp: Response)
    ensures SecurityContextOf(resp).Success? <==> resp.json.Some? && HasCredentialNames(resp.json.value)
    ensures SecurityContextOf(resp).Success? ==>
              var credentials := resp.json.value.fields["preferredcredentials"];
              SecurityContextOf(resp).value
              == Format(NameOf(credentials, "role")) + "." + Format(NameOf(credentials, "organization")) + "."
                 + Format(NameOf(credentials, "collabspace"))
  {
  }

  /** The derived context is the three names joined by dots. */
  lemma SecurityContextJoinsNames(resp: Response, role: string, organization: string, collabspace: string)
    requires resp.json.Some? && NamesCredentials(resp.json.value, role, organization, collabspace)
    ensures SecurityContextOf(resp) == Success(role + "." + organization + "." + collabspace)
  {
  }

  /** When no name contains a dot, the derived context determines the three
      names. */
  lemma SecurityContextDeterminesNames(resp: Response, role: string, organization: string, collabspace: string)
    requires resp.json.Some? && NamesCredentials(resp.json.value, role, organization, collabspace)
    requires '.' !in role && '.' !in organization && '.' !in collabspace
    ensures SecurityContextOf(resp).Success?
    ensures SplitContext(SecurityContextOf(resp).value) == Some((role, organization, collabspace))
  {
    SecurityContextJoinsNames(resp, role, organization, collabspace);
    SplitJoin(role, organization, collabspace);
  }

  /** The index of the first dot of `s`, if any. */
  function FirstDot(s: string): (r: Option<nat>)
    ensures r.Some? ==> r.value < |s| && s[r.value] == '.' && '.' !in s[..r.value]
    ensures r.None? ==> '.' !in s
  {
    if s == [] then None
    else if s[0] == '.' then Some(0)
    else match FirstDot(s[1..])
      case None => None
      case Some(k) => assert s[..k + 1] == [s[0]] + s[1..][..k]; Some(k + 1)
  }

  /** Splits a context at its first two dots. */
  function SplitContext(s: string): Option<(string, string, string)> {
    match FirstDot(s)
    case None => None
    case Some(i) =>
      var rest := s[i + 1..];
      match FirstDot(rest)
      case None => None
      case Some(j) => Some((s[..i], rest[..j], rest[j + 1..]))
  }

  lemma {:induction false} FirstDotAfter(a: string, b: string)
    requires '.' !in a
    ensures FirstDot(a + "." + b) == Some(|a|)
  {
    if a != [] {
      assert (a + "." + b)[1..] == a[1..] + "." + b;
      FirstDotAfter(a[1..], b);
    }
  }

  lemma SplitJoin(a: string, b: string, c: string)
    requires '.' !in a && '.' !in b
    ensures SplitContext(a + "." + b + "." + c) == Some((a, b, c))
  {
    var s := a + "." + b + "." + c;
    assert s == a + "." + (b + "." + c);
    FirstDotAfter(a, b + "." + c);
    var rest := s[|a| + 1..];
    assert rest == b + "." + c;
    FirstDotAfter(b, c);
    assert s[..|a|] == a;
    assert rest[..|b|] == b && rest[|b| + 1..] == c;
  }

  /** `start_session`: reads the three required variables, sets `SSL_VERIFY`,
      then runs the ticket exchange. */
  function StartSessionSpec(env: Env, base: string, respond: Oracle, c: ConnectorState, w: World): Run {
    match GetEnvVar(env, SERVICE_NAME_VAR)
    case Failure(e) => Run(Fail(e), c, w)
    case Success(name) =>
    match GetEnvVar(env, SERVICE_SECRET_VAR)
    case Failure(e) => Run(Fail(e), c, w)
    case Success(secret) =>
    match GetEnvVar(env, USER_VAR)
    case Failure(e) => Run(Fail(e), c, w)
    case Success(user) =>
    var verify := SslVerify(LookupEnv(env, SSL_VERIFY_VAR));
    TicketExchange(base, respond, c.(sslVerify := Some(verify)), w, name, secret, user, verify)
  }

  /** Obtains the ticket-granting ticket and the service ticket without looking
      at their status codes, then opens a session with the service ticket. */
  function TicketExchange(base: string, respond: Oracle, c: ConnectorState, w: World,
                          name: string, secret: string, user: string, verify: bool): Run {
    var q1 := TgtRequest(base, name, secret, user, verify);
    var w1 := w.(log := w.log + [q1]);
    match AccessToken(respond(w.log, q1))
    case Failure(e) => Run(Fail(e), c, w1)
    case Success(tgt) =>
    var q2 := StRequest(base, Format(tgt), verify);
    var w2 := w1.(log := w1.log + [q2]);
    match AccessToken(respond(w1.log, q2))
    case Failure(e) => Run(Fail(e), c, w2)
    case Success(st) => SessionLogin(base, respond, c, w2, Format(st), verify)
  }

  /** Opens a session and bootstraps it with the service ticket without looking
      at the answer, then queries the person with the standard header; only that
      last response is status-checked, and only then is `security_context`
      assigned. */
  function SessionLogin(base: string, respond: Oracle, c: ConnectorState, w: World, st: string, verify: bool): Run {
    var sid := w.sessions;
    var c1 := c.(session := Some(sid));
    var q3 := BootstrapRequest(sid, base, st, verify);
    var w1 := World(w.log + [q3], sid + 1);
    var q4 := PersonRequest(sid, base, verify);
    var w2 := w1.(log := w1.log + [q4]);
    var resp := respond(w1.log, q4);
    match RaiseForStatus(resp)
    case Fail(e) => Run(Fail(e), c1, w2)
    case Pass =>
    match SecurityContextOf(resp)
    case Failure(e) => Run(Fail(e), c1, w2)
    case Success(context) => Run(Pass, c1.(securityContext := Some(context)), w2)
  }

  predicate HasSessionVars(env: Env) {
    SERVICE_NAME_VAR in env && SERVICE_SECRET_VAR in env && USER_VAR in env
  }

  /** The verification flag every request of `start_session` carries. */
  function VerifyFlag(env: Env): bool {
    SslVerify(LookupEnv(env, SSL_VERIFY_VAR))
  }

  /** A missing variable raises before anything is sent or assigned, naming the
      first missing one in the order the code reads them. */
  lemma StartSessionMissingVariable(env: Env, base: string, respond: Oracle, c: ConnectorState, w: World)
    requires !HasSessionVars(env)
    ensures var r := StartSessionSpec(env, base, respond, c, w);
            && r.conn == c && r.world == w
            && r.outcome == Fail(EnvironmentError(
                 if SERVICE_NAME_VAR !in env then SERVICE_NAME_VAR
                 else if SERVICE_SECRET_VAR !in env then SERVICE_SECRET_VAR
                 else USER_VAR))
  {
  }

  /** The bootstrap and the person query are always both sent, through the
      session that is opened, which is the next one. */
  lemma SessionLoginSends(base: string, respond: Oracle, c: ConnectorState, w: World, st: string, verify: bool)
    ensures var r := SessionLogin(base, respond, c, w, st, verify);
            && r.world == World(w.log + [BootstrapRequest(w.sessions, base, st, verify)] + [PersonRequest(w.sessions, base, verify)], w.sessions + 1)
            && r.conn.sslVerify == c.sslVerify && r.conn.session == Some(w.sessions)
  {
  }

  /** When both ticket answers carry string tokens, the exchange sends the TGT
      request and the ST request carrying the TGT, and continues with the
      session login carrying the ST. */
  lemma TicketExchangeWithTokens(base: string, respond: Oracle, c: ConnectorState, w: World,
                                 name: string, secret: string, user: string, verify: bool, tgt: string, st: string)
    requires AccessToken(respond(w.log, TgtRequest(base, name, secret, user, verify))) == Success(Str(tgt))
    requires AccessToken(respond(w.log + [TgtRequest(base, name, secret, user, verify)], StRequest(base, tgt, verify))) == Success(Str(st))
    ensures TicketExchange(base, respond, c, w, name, secret, user, verify)
            == SessionLogin(base, respond, c, World(w.log + [TgtRequest(base, name, secret, user, verify), StRequest(base, tgt, verify)], w.sessions), st, verify)
  {
    assert w.log + [TgtRequest(base, name, secret, user, verify)] + [StRequest(base, tgt, verify)]
        == w.log + [TgtRequest(base, name, secret, user, verify), StRequest(base, tgt, verify)];
  }

  /** A person answer that passes the status check and carries preferred
      credentials completes the login with their joined names. */
  lemma SessionLoginWithCredentials(base: string, respond: Oracle, c: ConnectorState, w: World, st: string, verify: bool,
                                    role: string, organization: string, collabspace: string)
    requires var person := respond(w.log + [BootstrapRequest(w.sessions, base, st, verify)], PersonRequest(w.sessions, base, verify));
             !(400 <= person.status < 600) && person.json.Some? && NamesCredentials(person.json.value, role, organization, collabspace)
    ensures SessionLogin(base, respond, c, w, st, verify)
            == Run(Pass, c.(session := Some(w.sessions), securityContext := Some(role + "." + organization + "." + collabspace)),
                   World(w.log + [BootstrapRequest(w.sessions, base, st, verify), PersonRequest(w.sessions, base, verify)], w.sessions + 1))
  {
    var q3 := BootstrapRequest(w.sessions, base, st, verify);
    SecurityContextJoinsNames(respond(w.log + [q3], PersonRequest(w.sessions, base, verify)), role, organization, collabspace);
    assert w.log + [q3] + [PersonRequest(w.sessions, base, verify)] == w.log + [q3, PersonRequest(w.sessions, base, verify)];
  }

  /** The converse of `StartSessionSuccess`: with the three variables set, a
      server that answers the TGT and ST requests with string tokens and the
      person query with preferred credentials and a status below 400 makes
      `start_session` succeed, with exactly the four requests and the joined
      names as security context. */
  lemma StartSessionCompletes(env: Env, base: string, respond: Oracle, c: ConnectorState, w: World, tgt: string, st: string,
                              role: string, organization: string, collabspace: string)
    requires HasSessionVars(env)
    requires var v := VerifyFlag(env);
             var q1 := TgtRequest(base, env[SERVICE_NAME_VAR], env[SERVICE_SECRET_VAR], env[USER_VAR], v);
             var q2 := StRequest(base, tgt, v);
             var q3 := BootstrapRequest(w.sessions, base, st, v);
             var person := respond(w.log + [q1, q2, q3], PersonRequest(w.sessions, base, v));
             && AccessToken(respond(w.log, q1)) == Success(Str(tgt))
             && AccessToken(respond(w.log + [q1], q2)) == Success(Str(st))
             && !(400 <= person.status < 600) && person.json.Some? && NamesCredentials(person.json.value, role, organization, collabspace)
    ensures var v := VerifyFlag(env);
            var q1 := TgtRequest(base, env[SERVICE_NAME_VAR], env[SERVICE_SECRET_VAR], env[USER_VAR], v);
            var q2 := StRequest(base, tgt, v);
            var q3 := BootstrapRequest(w.sessions, base, st, v);
            var q4 := PersonRequest(w.sessions, base, v);
            StartSessionSpec(env, base, respond, c, w)
            == Run(Pass, ConnectorState(Some(v), Some(w.sessions), Some(role + "." + organization + "." + collabspace)),
                   World(w.log + [q1, q2, q3, q4], w.sessions + 1))
  {
    var v := VerifyFlag(env);
    var q1 := TgtRequest(base, env[SERVICE_NAME_VAR], env[SERVICE_SECRET_VAR], env[USER_VAR], v);
    var q2 := StRequest(base, tgt, v);
    var q3 := BootstrapRequest(w.sessions, base, st, v);
    var w2 := World(w.log + [q1, q2], w.sessions);
    TicketExchangeWithTokens(base, respond, c.(sslVerify := Some(v)), w, env[SERVICE_NAME_VAR], env[SERVICE_SECRET_VAR], env[USER_VAR], v, tgt, st);
    assert w2.log + [q3] == w.log + [q1, q2, q3];
    SessionLoginWithCredentials(base, respond, c.(sslVerify := Some(v)), w2, st, v, role, organization, collabspace);
    assert w2.log + [q3, PersonRequest(w.sessions, base, v)] == w.log + [q1, q2, q3, PersonRequest(w.sessions, base, v)];
  }

  /** The ticket exchange appends one to four requests, each carrying `verify`,
      and opens at most one session. */
  lemma TicketExchangeAppends(base: string, respond: Oracle, c: ConnectorState, w: World,
                              name: string, secret: string, user: string, verify: bool)
    ensures var r := TicketExchange(base, respond, c, w, name, secret, user, verify);
            && |w.log| < |r.world.log| <= |w.log| + 4
            && r.world.log[..|w.log|] == w.log
            && (forall k :: |w.log| <= k < |r.world.log| ==> r.world.log[k].verify == verify)
            && w.sessions <= r.world.sessions <= w.sessions + 1
  {
    var q1 := TgtRequest(base, name, secret, user, verify);
    var tgt := AccessToken(respond(w.log, q1));
    if tgt.Success? {
      var q2 := StRequest(base, Format(tgt.value), verify);
      var w2 := World(w.log + [q1] + [q2], w.sessions);
      var st := AccessToken(respond(w.log + [q1], q2));
      if st.Success? {
        SessionLoginSends(base, respond, c, w2, Format(st.value), verify);
        var r := TicketExchange(base, respond, c, w, name, secret, user, verify);
        assert r == SessionLogin(base, respond, c, w2, Format(st.value), verify);
        assert r.world.log == w.log + [q1, q2, BootstrapRequest(w.sessions, base, Format(st.value), verify), PersonRequest(w.sessions, base, verify)];
      }
    }
  }

  /** `start_session` only appends to the log, at most four requests, each
      carrying the parsed `SSL_VERIFY`; it opens at most one session. */
  lemma StartSessionAppendsVerified(env: Env, base: string, respond: Oracle, c: ConnectorState, w: World)
    ensures var r := StartSessionSpec(env, base, respond, c, w);
            && |w.log| <= |r.world.log| <= |w.log| + 4
            && r.world.log[..|w.log|] == w.log
            && (forall k :: |w.log| <= k < |r.world.log| ==> r.world.log[k].verify == VerifyFlag(env))
            && w.sessions <= r.world.sessions <= w.sessions + 1
  {
    if HasSessionVars(env) {
      var v := VerifyFlag(env);
      TicketExchangeAppends(base, respond, c.(sslVerify := Some(v)), w, env[SERVICE_NAME_VAR], env[SERVICE_SECRET_VAR], env[USER_VAR], v);
    } else {
      StartSessionMissingVariable(env, base, respond, c, w);
    }
  }

  /** A successful `start_session` sends exactly four requests, in order: the
      TGT request with the service credentials, the ST request carrying the TGT,
      the bootstrap through a fresh session carrying the ST, and the person
      query through that session. Both tickets were present, the person answer
      passed the status check, and the connector then holds the joined
      credentials of that answer as its security context. */
  lemma StartSessionSuccess(env: Env, base: string, respond: Oracle, c: ConnectorState, w: World)
    requires StartSessionSpec(env, base, respond, c, w).outcome.Pass?
    ensures HasSessionVars(env)
    ensures var v := VerifyFlag(env);
            var sid := w.sessions;
            var q1 := TgtRequest(base, env[SERVICE_NAME_VAR], env[SERVICE_SECRET_VAR], env[USER_VAR], v);
            var tgt := AccessToken(respond(w.log, q1));
            tgt.Success? &&
            var q2 := StRequest(base, Format(tgt.value), v);
            var st := AccessToken(respond(w.log + [q1], q2));
            st.Success? &&
            var q3 := BootstrapRequest(sid, base, Format(st.value), v);
            var q4 := PersonRequest(sid, base, v);
            var person := respond(w.log + [q1, q2, q3], q4);
            var r := StartSessionSpec(env, base, respond, c, w);
            && RaiseForStatus(person).Pass?
            && SecurityContextOf(person).Success?
            && r.world == World(w.log + [q1, q2, q3, q4], sid + 1)
            && r.conn == ConnectorState(Some(v), Some(sid), Some(SecurityContextOf(person).value))
            && Authenticated(r.conn)
  {
    if !HasSessionVars(env) {
      StartSessionMissingVariable(env, base, respond, c, w);
    } else {
      var v := VerifyFlag(env);
      var q1 := TgtRequest(base, env[SERVICE_NAME_VAR], env[SERVICE_SECRET_VAR], env[USER_VAR], v);
      var tgt := AccessToken(respond(w.log, q1));
      var q2 := StRequest(base, Format(tgt.value), v);
      var st := AccessToken(respond(w.log + [q1], q2));
      var q3 := BootstrapRequest(w.sessions, base, Format(st.value), v);
      assert w.log + [q1] + [q2] + [q3] == w.log + [q1, q2, q3];
      assert w.log + [q1] + [q2] + [q3] + [PersonRequest(w.sessions, base, v)] == w.log + [q1, q2, q3, PersonRequest(w.sessions, base, v)];
    }
  }

  /** A 4xx or 5xx answer to the person query raises after all four requests
      were sent; `session` is then assigned and `security_context` keeps
      whatever value it had. */
  lemma StartSessionPersonRejected(env: Env, base: string, respond: Oracle, c: ConnectorState, w: World)
    requires HasSessionVars(env)
    requires var v := VerifyFlag(env);
             var q1 := TgtRequest(base, env[SERVICE_NAME_VAR], env[SERVICE_SECRET_VAR], env[USER_VAR], v);
             var tgt := AccessToken(respond(w.log, q1));
             tgt.Success? &&
             var q2 := StRequest(base, Format(tgt.value), v);
             var st := AccessToken(respond(w.log + [q1], q2));
             st.Success? &&
             var q3 := BootstrapRequest(w.sessions, base, Format(st.value), v);
             400 <= respond(w.log + [q1, q2, q3], PersonRequest(w.sessions, base, v)).status < 600
    ensures var v := VerifyFlag(env);
            var q1 := TgtRequest(base, env[SERVICE_NAME_VAR], env[SERVICE_SECRET_VAR], env[USER_VAR], v);
            var q2 := StRequest(base, Format(AccessToken(respond(w.log, q1)).value), v);
            var q3 := BootstrapRequest(w.sessions, base, Format(AccessToken(respond(w.log + [q1], q2)).value), v);
            var r := StartSessionSpec(env, base, respond, c, w);
            && r.outcome == Fail(HttpError(respond(w.log + [q1, q2, q3], PersonRequest(w.sessions, base, v)).status))
            && |r.world.log| == |w.log| + 4
            && r.conn == ConnectorState(Some(v), Some(w.sessions), c.securityContext)
  {
    var v := VerifyFlag(env);
    var q1 := TgtRequest(base, env[SERVICE_NAME_VAR], env[SERVICE_SECRET_VAR], env[USER_VAR], v);
    var q2 := StRequest(base, Format(AccessToken(respond(w.log, q1)).value), v);
    var q3 := BootstrapRequest(w.sessions, base, Format(AccessToken(respond(w.log + [q1], q2)).value), v);
    assert w.log + [q1] + [q2] + [q3] == w.log + [q1, q2, q3];
  }

  /** A TGT answer without `access_token` stops the exchange after one request,
      before any session is opened. */
  lemma StartSessionNoTgt(env: Env, base: string, respond: Oracle, c: ConnectorState, w: World)
    requires HasSessionVars(env)
    requires AccessToken(respond(w.log, TgtRequest(base, env[SERVICE_NAME_VAR], env[SERVICE_SECRET_VAR], env[USER_VAR], VerifyFlag(env)))).Failure?
    ensures var r := StartSessionSpec(env, base, respond, c, w);
            && r.outcome.Fail? && |r.world.log| == |w.log| + 1
            && r.conn == c.(sslVerify := Some(VerifyFlag(env)))
            && r.world.sessions == w.sessions
  {
  }

  /** The status codes of the TGT and ST answers and the whole bootstrap answer
      are never looked at: two servers that differ only in those give the same
      run. */
  lemma StartSessionIgnoresUncheckedAnswers(env: Env, base: string, respond1: Oracle, respond2: Oracle, c: ConnectorState, w: World)
    requires forall h: seq<Request>, q: Request :: q.client.Direct? ==> respond1(h, q).json == respond2(h, q).json
    requires forall h: seq<Request>, q: Request :: q.client.Session? && q.headers != map[] ==> respond1(h, q) == respond2(h, q)
    ensures StartSessionSpec(env, base, respond1, c, w) == StartSessionSpec(env, base, respond2, c, w)
  {
    if HasSessionVars(env) {
      var v := VerifyFlag(env);
      var q1 := TgtRequest(base, env[SERVICE_NAME_VAR], env[SERVICE_SECRET_VAR], env[USER_VAR], v);
      assert respond1(w.log, q1).json == respond2(w.log, q1).json;
      var tgt := AccessToken(respond1(w.log, q1));
      if tgt.Success? {
        var h2 := w.log + [q1];
        var q2 := StRequest(base, Format(tgt.value), v);
        assert respond1(h2, q2).json == respond2(h2, q2).json;
        var st := AccessToken(respond1(h2, q2));
        if st.Success? {
          var h4 := h2 + [q2] + [BootstrapRequest(w.sessions, base, Format(st.value), v)];
          var q4 := PersonRequest(w.sessions, base, v);
          assert ACCEPT in q4.headers;
          assert respond1(h4, q4) == respond2(h4, q4);
        }
      }
    }
  }

  /** `start_session` keeps the states reachable, and a successful one leaves
      the connector authenticated. */
  lemma StartSessionKeepsReachable(env: Env, base: string, respond: Oracle, c: ConnectorState, w: World)
    requires Reachable(c)
    ensures Reachable(StartSessionSpec(env, base, respond, c, w).conn)
    ensures StartSessionSpec(env, base, respond, c, w).outcome.Pass? ==> Authenticated(StartSessionSpec(env, base, respond, c, w).conn)
  {
  }
}
