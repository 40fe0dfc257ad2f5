/** The URLs, headers and requests the connector builds. Every builder is a
    function of the configured base URL and of values obtained earlier in the
    protocol. */
module Endpoints {
  import opened Http
  import opened PercentEncoding

  // Base URLs (get_3dspace_url … get_issues_url)

  function SpaceUrl(base: string): string {
    base + "/3dspace"
  }

  function PassportUrl(base: string): string {
    base + "/3dpassport"
  }

  /** The modeler web services all live under the 3dspace application. */
  const MODELER := "/resources/v1/modeler/"

  function EngineeringUrl(base: string): string {
    SpaceUrl(base) + MODELER + "dseng"
  }

  function DocumentsUrl(base: string): string {
    SpaceUrl(base) + MODELER + "documents"
  }

  function IssuesUrl(base: string): string {
    SpaceUrl(base) + MODELER + "dsiss/issue"
  }

  /** The base URL can be read back from the start of every derived URL, so
      distinct tenants never share an endpoint. */
  lemma BaseUrlRecoverable(base: string)
    ensures SpaceUrl(base)[..|base|] == base && PassportUrl(base)[..|base|] == base
    ensures EngineeringUrl(base)[..|SpaceUrl(base)|] == SpaceUrl(base)
    ensures DocumentsUrl(base)[..|SpaceUrl(base)|] == SpaceUrl(base)
    ensures IssuesUrl(base)[..|SpaceUrl(base)|] == SpaceUrl(base)
  {
  }

  lemma SpaceUrlInjective(a: string, b: string)
    requires SpaceUrl(a) == SpaceUrl(b) || PassportUrl(a) == PassportUrl(b)
    ensures a == b
  {
    BaseUrlRecoverable(a);
    BaseUrlRecoverable(b);
  }

  /** The five services of one base URL are five different URLs. */
  lemma ServiceUrlsDistinct(base: string)
    ensures |{SpaceUrl(base), PassportUrl(base), EngineeringUrl(base), DocumentsUrl(base), IssuesUrl(base)}| == 5
  {
    var lengths := [|SpaceUrl(base)|, |PassportUrl(base)|, |EngineeringUrl(base)|, |DocumentsUrl(base)|, |IssuesUrl(base)|];
    assert lengths == [|base| + 8, |base| + 11, |base| + 35, |base| + 39, |base| + 41];
  }

  // Headers (get_standard_header, get_session_header)

  const ACCEPT := "Accept"
  const JSON_MEDIA_TYPE := "application/json"
  const SECURITY_CONTEXT := "SecurityContext"
  const CSRF_HEADER := "ENO_CSRF_TOKEN"
  const SERVICE_NAME_HEADER := "DS-SERVICE-NAME"
  const SERVICE_SECRET_HEADER := "DS-SERVICE-SECRET"

  function StandardHeader(): Headers {
    map[ACCEPT := JSON_MEDIA_TYPE]
  }

  function SessionHeader(context: string): Headers {
    StandardHeader()[SECURITY_CONTEXT := context]
  }

  /** The session header is the standard one plus exactly one more key, the
      security context; the standard header itself is not changed by it. */
  lemma SessionHeaderExtendsStandard(context: string)
    ensures SessionHeader(context).Keys == StandardHeader().Keys + {SECURITY_CONTEXT}
    ensures forall k :: k in StandardHeader() ==> SessionHeader(context)[k] == StandardHeader()[k]
    ensures SessionHeader(context)[SECURITY_CONTEXT] == context
    ensures StandardHeader() == map[ACCEPT := JSON_MEDIA_TYPE]
  {
  }

  // Requests of start_session

  /** The service the tickets are issued for: the 3dspace application. */
  function ServiceParam(base: string): string {
    Quote(base + "/3dspace/")
  }

  /** Only the base URL is escaped: the path that follows it is made of safe
      characters and is copied as it is. */
  lemma ServiceParamShape(base: string)
    ensures ServiceParam(base) == Quote(base) + "/3dspace/"
  {
    QuoteAppendSafe(base, "/3dspace/");
  }

  /** The callback URL is well-formed escaped text, so it is one query value. */
  lemma ServiceParamEscaped(base: string)
    ensures WellEscaped(ServiceParam(base))
  {
    QuoteOutputIsSafe(base + "/3dspace/");
  }

  function TgtRequest(base: string, name: string, secret: string, user: string, verify: bool): Request {
    Request(Direct, Get,
            PassportUrl(base) + "/api/v2/batch/ticket?identifier=" + user + "&service=" + ServiceParam(base),
            [], map[SERVICE_NAME_HEADER := name, SERVICE_SECRET_HEADER := secret], verify)
  }

  function StRequest(base: string, tgt: string, verify: bool): Request {
    Request(Direct, Get,
            PassportUrl(base) + "/api/login/cas/transient?tgt=" + tgt + "&service=" + ServiceParam(base),
            [], StandardHeader(), verify)
  }

  /** The session bootstrap passes no headers of its own. */
  function BootstrapRequest(session: nat, base: string, st: string, verify: bool): Request {
    Request(Session(session), Get, SpaceUrl(base) + "/?ticket=" + st, [], map[], verify)
  }

  const PERSON_PARAMS: Params := [("current", "true"), ("select", "preferredcredentials")]

  /** The person query reuses the standard header of the service-ticket step. */
  function PersonRequest(session: nat, base: string, verify: bool): Request {
    Request(Session(session), Get, SpaceUrl(base) + "/resources/modeler/pno/person", PERSON_PARAMS, StandardHeader(), verify)
  }

  // Requests of the document operations

  function DocumentUrl(base: string, docId: string): string {
    DocumentsUrl(base) + "/" + docId
  }

  function DocumentRequest(session: nat, base: string, docId: string, context: string, verify: bool): Request {
    Request(Session(session), Get, DocumentUrl(base, docId), [], SessionHeader(context), verify)
  }

  function TicketUrl(base: string, docId: string, fileId: string): string {
    DocumentUrl(base, docId) + "/files/" + fileId + "/DownloadTicket"
  }

  function TicketRequest(session: nat, base: string, docId: string, fileId: string, headers: Headers, verify: bool): Request {
    Request(Session(session), Put, TicketUrl(base, docId, fileId), [], headers, verify)
  }

  function RedeemRequest(session: nat, url: string, context: string, verify: bool): Request {
    Request(Session(session), Get, url, [], SessionHeader(context), verify)
  }

  function FilesRequest(session: nat, base: string, docId: string, context: string, verify: bool): Request {
    Request(Session(session), Get, DocumentUrl(base, docId) + "/files", [], SessionHeader(context), verify)
  }

  const DEFAULT_RELATIONSHIPS := ["Reference Document", "PLMDocConnection", "SpecificationDocument"]

  function RelationshipParams(rel: string): Params {
    [("parentRelName", rel), ("parentDirection", "from"), ("$include", "files,ownerInfo,parents"), ("$fields", "all")]
  }

  function ItemDocumentsRequest(session: nat, base: string, itemId: string, rel: string, context: string, verify: bool): Request {
    Request(Session(session), Get, DocumentsUrl(base) + "/parentId/" + itemId, RelationshipParams(rel), SessionHeader(context), verify)
  }
}
