# ENOVIA connector — a Dafny model

This project models `EnoviaConnector`, the client the istari MCP server uses to
talk to a Dassault Systèmes 3DEXPERIENCE / ENOVIA tenant. The model covers:

- the configuration the connector reads from its environment (`BASE_URL`,
  `SERVICE_NAME`, `SERVICE_SECRET`, `ENOVIA_USER`, the optional `SSL_VERIFY`);
- the URLs and headers it builds;
- the four-request ticket exchange of `start_session`: the TGT from 3DPassport,
  the service ticket (ST), the session bootstrap on 3DSpace, and the person
  query that yields the security context `role.organization.collabspace`;
- the document operations that run inside that session: the CSRF-protected,
  three-request file download, the file listing of a document, and the
  per-relationship document query of an engineering item.

The model is split into modules:

- `Wrappers`, `Errors` and `Json` hold the value types. `Errors` has one
  constructor per kind of exception the connector lets escape, and `Json` holds
  the decoded payloads and Python's `str()` of them.
- `Config` covers the environment and the `SSL_VERIFY` switch.
- `PercentEncoding` is `urllib.parse.quote` with its default safe set `/`,
  written out over UTF-8. It is proved reversible and to distribute over
  concatenation. Its output is proved to be well-formed escaped text: safe
  characters, plus `%` only at the start of an escape `%XY` with two
  upper-case hexadecimal digits.
- `Http` is the network and the file system. The server is an *oracle*: a
  function from the requests sent so far and the new request to the answer.
  The `Network` class keeps the log of requests and the number of sessions
  opened. The `FileSystem` class keeps file contents by path and a set of paths
  that cannot be opened.
- `Endpoints` holds the URL, header and request builders.
- `Protocol` and `Documents` define each operation as a pure function from the
  connector's fields, the oracle and the state before the call to the outcome,
  the new fields and the new state. The lemmas about the operations are stated
  about these functions.
- `Enovia` has the class `EnoviaConnector`. Its fields are `sslVerify`,
  `session` and `securityContext`, and `None` plays the part of a Python
  attribute that was never assigned. Each of its methods is proved to leave
  exactly the state and result that the matching function of `Protocol` or
  `Documents` gives.
- `Scenarios` holds whole runs against small scripted servers.

The network, the clock and the disk are not modelled as such. The server's
answers are a parameter of every operation, and the file system is a map
together with the set of paths that refuse writes.

Some behaviour of the code is easy to misread:

- `raise_for_status` raises for 4xx and 5xx answers only. A 1xx or 3xx answer
  passes.
- The answers to the TGT and ST requests are never checked for their status,
  and the bootstrap answer is not looked at at all.
- The exceptions that escape are Python's own. Examples are `AttributeError`
  for a connector used before `start_session`, `KeyError` for a missing
  payload member, and `requests.HTTPError`. There is no dedicated
  authentication error.

## Model

| member | source | states |
|---|---|---|
| Config.LookupEnv | istari-enovia.py:74 | `os.getenv` gives a value exactly when the variable is set, and that value is the variable's |
| Config.GetEnvVar | istari-enovia.py:254-260 | a set variable gives its value; an unset one, and only an unset one, raises `EnvironmentError` naming that variable |
| Config.Lower | istari-enovia.py:76 | lower-casing keeps the length and lower-cases each ASCII letter in place, leaving every other character as it is |
| Config.SslVerifyUnset | istari-enovia.py:74-75 | with `SSL_VERIFY` unset, certificate verification stays on |
| Config.SslVerifyOffExactlyForFalse | istari-enovia.py:74-76 | verification is off if and only if the variable holds the five letters of `false` in some mix of cases |
| Config.SslVerifyExamples | istari-enovia.py:74-76 | `false`, `False` and `FALSE` turn verification off; the empty text, `true`, `0`, `no`, ` false` and `falsey` leave it on |
| Json.Index | istari-enovia.py:82 | `j[key]` succeeds exactly on an object holding `key` and gives that member; otherwise it raises for `key` |
| Json.First | istari-enovia.py:244 | `j[0]` succeeds exactly on a non-empty list (first item) or a non-empty string (first character); otherwise it raises |
| Json.GetOr | istari-enovia.py:234 | `j.get(key, default)` succeeds exactly on an object and gives the member, or `default` when the key is absent |
| Json.NatToString | istari-enovia.py:115 | the digits written for a number denote exactly that number, with no leading zero |
| Json.Format | istari-enovia.py:115 | a string payload formats as itself, and `None` formats as `None` |
| Http.RaiseForStatus | istari-enovia.py:110 | raises, with the status, exactly for the statuses 400 to 599 |
| Http.JsonOf | istari-enovia.py:82 | `response.json()` gives the decoded body exactly when there is one, and raises a decoding error otherwise |
| Http.Network.Send | istari-enovia.py:79-81 | one request is appended to the log, the answer is the oracle's answer given the earlier log, and no session is opened |
| Http.Network.OpenSession | istari-enovia.py:96 | a new session gets the next number, and nothing is sent |
| Http.FileSystem.WriteBytes | istari-enovia.py:250-251 | a writable path comes to hold exactly the bytes, with every other file kept; a refused path raises `IOError` and changes nothing |
| PercentEncoding.QuoteAppend | istari-enovia.py:78 | quoting distributes over concatenation |
| PercentEncoding.QuoteKeepsSafe | istari-enovia.py:78 | a text made of unreserved characters and `/` is left unchanged by quoting |
| PercentEncoding.QuoteAppendSafe | istari-enovia.py:78 | appending safe text to a string appends it unchanged to the quotation |
| PercentEncoding.QuoteOutputIsSafe | istari-enovia.py:78 | a quotation is well-formed escaped text: safe characters, and every `%` starts an escape with two upper-case hexadecimal digits |
| PercentEncoding.WellEscapedChars | istari-enovia.py:78 | well-formed escaped text holds only unreserved characters, `/` and `%`, so no `&`, `=`, `?`, `#` or space |
| PercentEncoding.UnquoteQuote | istari-enovia.py:78 | unquoting the quoted text gives back the UTF-8 bytes of the original, so quoting loses nothing |
| Endpoints.BaseUrlRecoverable | istari-enovia.py:44-61 | the base URL is a prefix of both application URLs, and the 3DSpace URL is a prefix of the three modeler service URLs |
| Endpoints.SpaceUrlInjective | istari-enovia.py:44-49 | two base URLs with the same 3DSpace URL, or the same 3DPassport URL, are equal |
| Endpoints.ServiceUrlsDistinct | istari-enovia.py:44-61 | the five service URLs of one base URL are pairwise different |
| Endpoints.SessionHeaderExtendsStandard | istari-enovia.py:34-41 | the session header is the standard `Accept: application/json` header plus exactly the `SecurityContext` key, holding the context |
| Endpoints.ServiceParamShape | istari-enovia.py:78 | the `service` parameter is the quoted base URL followed by `/3dspace/` unchanged |
| Endpoints.ServiceParamEscaped | istari-enovia.py:78 | the `service` parameter is well-formed escaped text |
| Protocol.AccessToken | istari-enovia.py:82 | reading `access_token` succeeds exactly when the body is an object holding it, and gives that member whatever the status |
| Protocol.CredentialsPayload | istari-enovia.py:111-114 | the smallest person body holds the three given names where the code reads them |
| Protocol.SecurityContextOfExactly | istari-enovia.py:111-115 | a context is derived exactly when the body's `preferredcredentials` has a `name` under `role`, `organization` and `collabspace`, whatever else it holds, and it is their text joined by dots |
| Protocol.SecurityContextJoinsNames | istari-enovia.py:111-115 | a person answer whose three credential names are strings, with any other members, gives the context `role.organization.collabspace` |
| Protocol.SecurityContextDeterminesNames | istari-enovia.py:115 | for such an answer, when no name contains a dot, the three names can be read back from the context |
| Protocol.StartSessionMissingVariable | istari-enovia.py:66-73 | a missing service variable raises `EnvironmentError` for the first missing one, in the order read; nothing is sent and no field is assigned |
| Protocol.SessionLoginSends | istari-enovia.py:96-109 | the session login opens the next session and always sends the bootstrap and then the person query through it, assigning `session` |
| Protocol.TicketExchangeWithTokens | istari-enovia.py:78-93 | given string tokens, the exchange sends the TGT request and then the ST request carrying the TGT, and continues with the ST |
| Protocol.SessionLoginWithCredentials | istari-enovia.py:96-115 | a person answer with a status outside 400 to 599 whose credential names are strings, with any other members, ends the login with exactly their joined context, after two requests |
| Protocol.StartSessionCompletes | istari-enovia.py:64-115 | with the variables set, token answers and a person answer whose credential names are strings (other members allowed) make `start_session` succeed with exactly four requests, one new session and the joined context |
| Protocol.TicketExchangeAppends | istari-enovia.py:78-109 | the exchange keeps the old log as a prefix, appends one to four requests that all carry the verification flag, and opens at most one session |
| Protocol.StartSessionAppendsVerified | istari-enovia.py:64-109 | `start_session` keeps the old log as a prefix, appends at most four requests that all carry the parsed `SSL_VERIFY`, and opens at most one session |
| Protocol.StartSessionSuccess | istari-enovia.py:64-115 | a successful `start_session` had both tokens, sent exactly the TGT, ST, bootstrap and person requests in order with answers that passed, and stores the context of the person answer |
| Protocol.StartSessionPersonRejected | istari-enovia.py:106-110 | a 4xx or 5xx person answer raises `HTTPError` with its status after four requests, with `session` assigned and the old context kept |
| Protocol.StartSessionNoTgt | istari-enovia.py:78-82 | a TGT answer without `access_token` raises after one request, with only `SSL_VERIFY` assigned and no session opened |
| Protocol.StartSessionIgnoresUncheckedAnswers | istari-enovia.py:79-98 | servers that differ only in the statuses of the TGT and ST answers and in the bootstrap answer lead to the same run |
| Protocol.StartSessionKeepsReachable | istari-enovia.py:64-115 | fields are assigned in the order `SSL_VERIFY`, `session`, `security_context`, and a successful `start_session` leaves all three assigned |
| Documents.Protected | istari-enovia.py:230-233 | a session call goes ahead exactly when all three fields are assigned; otherwise it raises `AttributeError` |
| Documents.CsrfTokenDefaults | istari-enovia.py:234 | the CSRF token is the document's `csrf.value` whatever else it holds, and the empty string when either member is missing; a non-JSON body, a body that is not an object, or a `csrf` that is not an object raises |
| Documents.DownloadNeedsSession | istari-enovia.py:230-233 | without an established session a download raises `AttributeError`, sends nothing and writes nothing |
| Documents.RedeemStageSends | istari-enovia.py:245-251 | the ticket URL is fetched with exactly one request through the session, and a failure leaves every file as it was |
| Documents.TicketStageSends | istari-enovia.py:236-251 | the ticket stage sends the PUT and at most the GET of the ticket URL, both through the session |
| Documents.DownloadAppendsThroughSession | istari-enovia.py:226-251 | a download keeps the old log as a prefix, appends at most three requests through the connector's session with its flag, opens no session, and sends anything exactly when authenticated, starting with the document request |
| Documents.DownloadFailureWritesNothing | istari-enovia.py:242-251 | a failed download leaves every file as it was |
| Documents.DownloadSuccess | istari-enovia.py:226-251 | a successful download sent exactly the document, ticket and ticket-URL requests, and `dest` holds the last answer's body with every other file unchanged |
| Documents.DownloadTicketHeaders | istari-enovia.py:236-241 | with a string CSRF token, the ticket PUT carries the session header plus `ENO_CSRF_TOKEN` holding that token |
| Documents.DownloadTicketRejected | istari-enovia.py:239-242 | a 4xx or 5xx ticket answer raises with its status after two requests, with no file written |
| Documents.DownloadRedeemRejected | istari-enovia.py:245-249 | a 4xx or 5xx answer from the ticket URL raises with its status after three requests, with no file written |
| Documents.DownloadsFetchCsrfEachTime | istari-enovia.py:230-234 | the second of two downloads starts with its own document request: no token is carried over |
| Documents.DocumentFilesStatusFirst | istari-enovia.py:215-223 | the file listing sends one request, raises for a 4xx or 5xx answer before reading the body, and otherwise gives the `data` member |
| Documents.ItemDocumentsOnePerRelationship | istari-enovia.py:159-177 | a successful item query sends exactly one request per relationship, in order, and returns the answers in the same order |
| Documents.ItemDocumentsDefaultRequests | istari-enovia.py:161-177 | with the default list, a successful item query sends exactly the three requests for `Reference Document`, `PLMDocConnection` and `SpecificationDocument`, in that order, and returns three documents |
| Documents.ItemDocumentsRequestsInOrder | istari-enovia.py:159-177 | whatever the outcome, the item query sends requests only for the relationships, in order, at most one each |
| Enovia.EnoviaConnector.constructor | istari-enovia.py:29-31 | a new connector keeps the environment and base URL, with no field assigned |
| Enovia.Create | istari-enovia.py:29-31 | making a connector fails exactly when `BASE_URL` is unset, with `EnvironmentError`; otherwise it gives a fresh, unstarted connector for that base |
| Enovia.EnoviaConnector.GetSessionHeader | istari-enovia.py:38-41 | the header holds exactly `Accept` and `SecurityContext`, with the stored context; before a context exists it raises `AttributeError` |
| Enovia.EnoviaConnector.StartSession | istari-enovia.py:64-76 | the result, the fields and the network afterwards are exactly what `Protocol.StartSessionSpec` gives |
| Enovia.EnoviaConnector.ExchangeTickets | istari-enovia.py:78-93 | the result, the fields and the network afterwards are exactly what `Protocol.TicketExchange` gives |
| Enovia.EnoviaConnector.LoginSession | istari-enovia.py:95-115 | the result, the fields and the network afterwards are exactly what `Protocol.SessionLogin` gives |
| Enovia.EnoviaConnector.DownloadDocumentFile | istari-enovia.py:226-251 | the result, the network and the files afterwards are exactly what `Documents.DownloadSpec` gives |
| Enovia.EnoviaConnector.GetDocumentFiles | istari-enovia.py:215-223 | the result and the network afterwards are exactly what `Documents.DocumentFilesSpec` gives |
| Enovia.EnoviaConnector.GetItemDocuments | istari-enovia.py:159-177 | the loop's result and the network afterwards are exactly what the recursive `Documents.ItemDocumentsSpec` gives |
| Enovia.EnoviaConnector.GetDefaultItemDocuments | istari-enovia.py:159-161 | called with no list, the result and the network afterwards are exactly what `Documents.ItemDocumentsSpec` gives for the default relationships |
| Scenarios.LoginScenario | istari-enovia.py:64-115 | against a scripted server, `start_session` succeeds, uses the first session, sends four requests and stores `role.organization.collabspace` |
| Scenarios.DownloadScenario | istari-enovia.py:226-251 | against a scripted server, a download sends the three requests, the ticket request carrying the CSRF token, and writes the body to `dest` |
| Scenarios.RefusedTicketScenario | istari-enovia.py:239-242 | a 403 ticket answer raises `HTTPError(403)` after two requests, with nothing written |

## Left out

- HTTP, TLS, cookies and redirects are not modelled. The server is an arbitrary function of the request history, so every answer is covered, but `allow_redirects` and what the session's cookie jar carries are not.
- Transport-level exceptions are not modelled: connection errors, timeouts and certificate failures.
- JSON decoding is not modelled. An answer carries either a decoded payload or none; in the second case `response.json()` raises.
- Floats in payloads are not modelled.
- Json.Format: a list or an object is rendered as a fixed marker, `[...]` or `{...}`, not as Python's `str()` of it. So the text of a ticket URL or a credential name that is a list or an object is not captured; the code passes it on in that case.
- `requests` rejects header values that are not strings, URLs that are malformed, and header values with leading whitespace or a CR or LF character. The model keeps only the rule for non-string values, and only for the CSRF header: a `None` token drops the header, and any other non-string value raises.
- Documents.WithCsrf: a string token is sent as it is. The check in `requests` that raises `InvalidHeader` for a value with leading whitespace, CR or LF is not modelled. The same check on `SecurityContext`, `DS-SERVICE-NAME` and `DS-SERVICE-SECRET` is not modelled either.
- Payload errors are one constructor, `PayloadError(key)`. Python's distinct `KeyError`, `IndexError`, `TypeError` and `AttributeError` are not told apart.
- Config.Lower: lower-cases ASCII letters only. That decides the comparison with `false` the same way Python's full case mapping does, but it is not a general `str.lower`.
- The `print` calls at istari-enovia.py:83 and :93 are output only and are not modelled, and neither is `dotenv` loading `enovia.env`. The environment is the map after loading.
- Seven operations are not modelled. Each sends one request through the session with the session header, then prints or returns the decoded body, following the pattern modelled for `get_document_files` but without its status check. `get_engineering_item`, `find_engineering_items`, `get_engineering_item_instances`, `find_documents`, `find_issues` and `get_issue` send a GET. `replace_engineering_instance` sends a POST and prints its URL first.
- The MCP tool functions, the module-level `ec` and `__main__` are not part of this model, and neither are the other connectors of the repository.
- Concurrency is not modelled. One connector is used by one caller at a time.
- Enovia.EnoviaConnector.StartSession: the ticket steps and the session steps are in two helper methods, `ExchangeTickets` and `LoginSession`, so that each is proved against its own stage function. Together they do what `start_session` does in one body.
