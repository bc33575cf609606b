/** What the configuration document advertises against what the AS handler of server/as.go
    answers, for an AS whose methods are functions of their request. */
module Advertising {
  import opened Text
  import opened ErrorTransport
  import opened DemoServer
  import opened ResourceRegistry
  import opened Discovery

  datatype TokenRequest = TokenRequest(ticket: string, claimToken: string, claimTokenFormat: string,
                                       pct: string, rpt: string, scope: string)

  datatype IntrospectionRequest = IntrospectionRequest(token: string, hint: string)

  /** The four methods; of the first three only the error matters here, None being success. */
  datatype AS = AS(
    token: TokenRequest -> Option<Err>,
    permission: Grant -> Option<Err>,
    introspect: IntrospectionRequest -> Option<Err>,
    resourceSet: ASRequest -> ASResult)

  // The zero-value requests, which are what an empty form or an empty object decodes to.

  const ZERO_TOKEN := TokenRequest("", "", "", "", "", "")
  const ZERO_PERMISSION := Grant("", [])
  const ZERO_INTROSPECTION := IntrospectionRequest("", "")
  const PROBE := ASRequest(OpUnknown, "", NoPayload)

  function ErrorOfResult(r: ASResult): Option<Err> {
    if r.Error? then Some(r.e) else None
  }

  // The handler's statuses; a body that does not parse is None.

  function StatusOf(answer: Option<Err>, success: nat): nat {
    if answer.Some? then ErrorResponse(answer.value).status else success
  }

  function TokenStatus(server: AS, verb: Verb, form: Option<TokenRequest>): nat {
    if verb != POST then 405
    else
      match form
      case None => ErrorResponse(OAuth(OAuthError(INVALID_GRANT, "could not parse form body", ""))).status
      case Some(req) => StatusOf(server.token(req), 200)
  }

  function PermissionStatus(server: AS, verb: Verb, batch: Option<seq<Grant>>): nat {
    if verb != POST then 405
    else
      match batch
      case None => ErrorResponse(OAuth(OAuthError(INVALID_GRANT, "could not parse JSON body", ""))).status
      case Some(reqs) =>
        if reqs == [] then ErrorResponse(Validation(ValidationError("PermissionRequest", "resource_id", "required"))).status
        else StatusOf(server.permission(reqs[0]), 201)
  }

  function IntrospectStatus(server: AS, verb: Verb, form: Option<IntrospectionRequest>): nat {
    if verb != POST then 405
    else
      match form
      case None => ErrorResponse(OAuth(OAuthError(INVALID_TOKEN, "could not parse form body", ""))).status
      case Some(req) => StatusOf(server.introspect(req), 200)
  }

  function ResourceSetStatus(server: AS, r: HttpRequest): nat {
    match Route(r)
    case ToAS(req) => Answer(req.op, server.resourceSet(req)).status
    case _ => Unrouted(r).status
  }

  /** The error holds no typed UMA error. */
  predicate Untyped(answer: Option<Err>) {
    answer.Some? ==> forall l :: l in Leaves(answer.value) ==> !Typed(l)
  }

  /** A not-implemented error and nothing that hides it. */
  predicate Missing(answer: Option<Err>) {
    !Implemented(answer) && Untyped(answer)
  }

  /** An answer of the AS is sent with 501 exactly when it is missing in this sense. */
  lemma MissingIs501(answer: Option<Err>, success: nat)
    requires success != 501
    ensures StatusOf(answer, success) == 501 <==> Missing(answer)
  {
    if answer.Some? {
      ResponseOfChosen(answer.value);
    }
  }

  lemma OwnErrorsAreNot501(o: OAuthError, v: ValidationError)
    ensures ErrorResponse(OAuth(o)).status != 501 && ErrorResponse(Validation(v)).status != 501
  {
    assert OAuth(o) in Leaves(OAuth(o)) && Validation(v) in Leaves(Validation(v));
    ResponseOfChosen(OAuth(o));
    ResponseOfChosen(Validation(v));
  }

  // Token, permission and introspection: the probe is a request the handler may issue.

  /** An AS that answers a request 501 was asked it: the handler adds no 501 of its own. */
  lemma Only501FromAS(server: AS, verb: Verb, form: Option<TokenRequest>, batch: Option<seq<Grant>>, query: Option<IntrospectionRequest>)
    ensures TokenStatus(server, verb, form) == 501 <==> verb == POST && form.Some? && Missing(server.token(form.value))
    ensures PermissionStatus(server, verb, batch) == 501 <==>
              verb == POST && batch.Some? && batch.value != [] && Missing(server.permission(batch.value[0]))
    ensures IntrospectStatus(server, verb, query) == 501 <==>
              verb == POST && query.Some? && Missing(server.introspect(query.value))
  {
    OwnErrorsAreNot501(OAuthError(INVALID_GRANT, "could not parse form body", ""), ValidationError("PermissionRequest", "resource_id", "required"));
    OwnErrorsAreNot501(OAuthError(INVALID_GRANT, "could not parse JSON body", ""), ValidationError("PermissionRequest", "resource_id", "required"));
    OwnErrorsAreNot501(OAuthError(INVALID_TOKEN, "could not parse form body", ""), ValidationError("PermissionRequest", "resource_id", "required"));
    if form.Some? { MissingIs501(server.token(form.value), 200); }
    if batch.Some? && batch.value != [] { MissingIs501(server.permission(batch.value[0]), 201); }
    if query.Some? { MissingIs501(server.introspect(query.value), 200); }
  }

  /** The statuses of requests that reach the AS and succeed, and of those that do not reach it. */
  lemma PlainStatuses(server: AS, verb: Verb, t: TokenRequest, g: Grant, rest: seq<Grant>, q: IntrospectionRequest)
    ensures verb != POST ==> TokenStatus(server, verb, Some(t)) == 405
    ensures verb != POST ==> PermissionStatus(server, verb, Some([g])) == IntrospectStatus(server, verb, Some(q)) == 405
    ensures server.token(t).None? ==> TokenStatus(server, POST, Some(t)) == 200
    ensures server.permission(g).None? ==> PermissionStatus(server, POST, Some([g] + rest)) == 201
    ensures server.introspect(q).None? ==> IntrospectStatus(server, POST, Some(q)) == 200
    ensures TokenStatus(server, POST, None) == PermissionStatus(server, POST, None) == 400
    ensures PermissionStatus(server, POST, Some([])) == 400 && IntrospectStatus(server, POST, None) == 401
  {
    var o := OAuthError(INVALID_GRANT, "could not parse form body", "");
    WrittenExactly(OAuth(o), 0);
    WrittenExactly(OAuth(o.(description := "could not parse JSON body")), 0);
    WrittenExactly(OAuth(o.(code := INVALID_TOKEN)), 0);
    WrittenExactly(Validation(ValidationError("PermissionRequest", "resource_id", "required")), 0);
  }

  // Resource sets: the probe's OpUnknown is a request the handler never issues.

  /** The requests the resource-set handlers can make of the AS. */
  predicate Issued(req: ASRequest) {
    match req.op
    case OpUnknown => false
    case OpCreate => req.id == "" && req.body.Payload?
    case OpList => req.id == "" && req.body.NoPayload?
    case OpUpdate => req.id != "" && '/' !in req.id && req.body.Payload?
    case _ => req.id != "" && '/' !in req.id && req.body.NoPayload?
  }

  function VerbOf(op: Op): Verb {
    match op
    case OpCreate => POST
    case OpUpdate => PUT
    case OpDelete => DELETE
    case _ => GET
  }

  /** A request that reaches the AS as req. */
  function Carrier(req: ASRequest): HttpRequest {
    HttpRequest(VerbOf(req.op), if req.id == "" then ROOT else ROOT + "/" + req.id, req.body)
  }

  lemma IssuedExactly(req: ASRequest)
    ensures Issued(req) <==> exists r: HttpRequest :: Route(r) == ToAS(req)
  {
    if Issued(req) {
      var p := Carrier(req).path;
      if req.id != "" {
        assert p[..|ROOT| + 1] == ROOT + "/" && p[|ROOT| + 1..] == req.id && |p| > |ROOT|;
      }
      assert Route(Carrier(req)) == ToAS(req);
    }
  }

  lemma ResourceSet501(server: AS, r: HttpRequest)
    ensures ResourceSetStatus(server, r) == 501 <==> Route(r).ToAS? && Missing(ErrorOfResult(server.resourceSet(Route(r).req)))
  {
    if Route(r).ToAS? {
      MissingIs501(ErrorOfResult(server.resourceSet(Route(r).req)), 200);
    } else {
      OwnErrorsAreNot501(OAuthError(INVALID_GRANT, "could not parse JSON body", ""), ValidationError("", "", ""));
    }
  }

  /** Some resource-set request reaches the AS and is not answered 501. */
  ghost predicate ServesResources(server: AS) {
    exists r: HttpRequest :: Route(r).ToAS? && ResourceSetStatus(server, r) != 501
  }

  /** The AS answers some request the handler can make of it. */
  ghost predicate AnswersSome(server: AS) {
    exists req: ASRequest :: Issued(req) && !Missing(ErrorOfResult(server.resourceSet(req)))
  }

  lemma ServesWhatItAnswers(server: AS)
    ensures ServesResources(server) <==> AnswersSome(server)
  {
    if ServesResources(server) {
      var r: HttpRequest :| Route(r).ToAS? && ResourceSetStatus(server, r) != 501;
      ResourceSet501(server, r);
      IssuedExactly(Route(r).req);
    }
    if AnswersSome(server) {
      var req: ASRequest :| Issued(req) && !Missing(ErrorOfResult(server.resourceSet(req)));
      IssuedExactly(req);
      var r: HttpRequest :| Route(r) == ToAS(req);
      ResourceSet501(server, r);
    }
  }

  function ProbesOf(server: AS): Probes {
    Probes(server.token(ZERO_TOKEN), server.permission(ZERO_PERMISSION), server.introspect(ZERO_INTROSPECTION),
           ErrorOfResult(server.resourceSet(PROBE)))
  }

  /** The document of an AS against its handler. The zero-value request of token, permission
      and introspection is answered 501 exactly when the endpoint is not advertised and its
      error is untyped. For resource sets the document and the handler agree exactly when the
      AS's answer to OpUnknown stands for its answers to the operations the handler issues. */
  method AdvertisedAndServed(server: AS, asURL: string, opts: seq<MetadataOption>) returns (m: Metadata)
    ensures TokenStatus(server, POST, Some(ZERO_TOKEN)) == 501 <==>
              m.tokenEndpoint == "" && Untyped(server.token(ZERO_TOKEN))
    ensures PermissionStatus(server, POST, Some([ZERO_PERMISSION])) == 501 <==>
              m.permissionEndpoint == "" && Untyped(server.permission(ZERO_PERMISSION))
    ensures IntrospectStatus(server, POST, Some(ZERO_INTROSPECTION)) == 501 <==>
              m.introspectionEndpoint == "" && Untyped(server.introspect(ZERO_INTROSPECTION))
    ensures (m.resourceEndpoint != "" <==> ServesResources(server)) <==>
              (Implemented(ErrorOfResult(server.resourceSet(PROBE))) <==> AnswersSome(server))
  {
    m := BuildMetadata(asURL, Some(ProbesOf(server)), opts);
    RefusedExactly(server.token(ZERO_TOKEN));
    RefusedExactly(server.permission(ZERO_PERMISSION));
    RefusedExactly(server.introspect(ZERO_INTROSPECTION));
    RefusedExactly(ErrorOfResult(server.resourceSet(PROBE)));
    Only501FromAS(server, POST, Some(ZERO_TOKEN), Some([ZERO_PERMISSION]), Some(ZERO_INTROSPECTION));
    ServesWhatItAnswers(server);
  }

  /** The documented convention, that OpUnknown is answered not-implemented only by an AS that
      implements no operation, is exactly what it takes to leave nothing served unadvertised. */
  lemma ConventionExactly(server: AS)
    ensures (ServesResources(server) ==> Implemented(ErrorOfResult(server.resourceSet(PROBE)))) <==>
            (!Implemented(ErrorOfResult(server.resourceSet(PROBE))) ==>
               forall req: ASRequest :: Issued(req) ==> Missing(ErrorOfResult(server.resourceSet(req))))
  {
    ServesWhatItAnswers(server);
  }

  // Where they disagree.

  /** A masked endpoint: omitted from the document, yet not answered 501. */
  lemma MaskedEndpoint(o: OAuthError)
    ensures var e := Joined([NotImplemented, OAuth(o)]);
            !Implemented(Some(e)) && ErrorResponse(e).status == StatusForCode(o.code) != 501
  {
    FindPair(NotImplemented, OAuth(o), AnyNeedInfo);
    FindPair(NotImplemented, OAuth(o), AnyValidation);
    FindPair(NotImplemented, OAuth(o), AnyOAuth);
    FindPair(NotImplemented, OAuth(o), TheNotImplemented);
  }

  /** An AS that refuses an unknown operation as invalid and implements no other. */
  function Hollow(server: AS): AS {
    server.(resourceSet := (req: ASRequest) =>
      Error(if req.op == OpUnknown then Validation(ValidationError("ResourceSetRequest", "op", "unsupported op"))
            else NotImplemented))
  }

  /** It is advertised, and answers every resource-set request 501. */
  lemma HollowIsAdvertised(server: AS)
    ensures Implemented(ErrorOfResult(Hollow(server).resourceSet(PROBE)))
    ensures forall r: HttpRequest :: Route(r).ToAS? ==> ResourceSetStatus(Hollow(server), r) == 501
  {
    forall r: HttpRequest | Route(r).ToAS? ensures ResourceSetStatus(Hollow(server), r) == 501 {
      ResourceSet501(Hollow(server), r);
      IssuedExactly(Route(r).req);
    }
  }

  // The demo AS.

  function ErrorOf(r: Reply): Option<Err> {
    match r
    case Rejected => Some(Validation(ValidationError("", "", "required")))
    case InvalidGrant => Some(OAuth(OAuthError(INVALID_GRANT, "", "")))
    case _ => None
  }

  function ResultOf(r: Created): ASResult {
    match r
    case Created(rs) => Single(rs)
    case Refused => Error(NotImplemented)
    case MissingBody => Error(Validation(ValidationError("ResourceSet", "body", "missing")))
  }

  /** The demo AS as it answers with its stores at st, `id` being what randomID would draw. */
  function DemoAt(st: Store, id: string): AS {
    AS((r: TokenRequest) => ErrorOf(Alone(st, Call.Token(r.ticket), id).1),
       (g: Grant) => ErrorOf(Alone(st, Call.Permission(g), id).1),
       (r: IntrospectionRequest) => ErrorOf(Alone(st, Call.Introspect(r.token), id).1),
       (r: ASRequest) =>
         ResultOf(if r.op != OpCreate then Refused
                  else if r.body.NoPayload? then MissingBody
                  else Created.Created(CreatedRecord(r.body.rs, id))))
  }

  /** The demo AS breaks the convention: its document omits resource registration, and a
      POST to that endpoint is answered 201. */
  lemma DemoDisagrees(st: Store, id: string, rs: Resource)
    ensures var server := DemoAt(st, id);
      && !Implemented(ErrorOfResult(server.resourceSet(PROBE))) && ServesResources(server)
      && ResourceSetStatus(server, HttpRequest(POST, ROOT, Payload(rs))) == 201
  {
    assert Route(HttpRequest(POST, ROOT, Payload(rs))).ToAS?;
  }

  /** Probing the demo AS, in any state, changes nothing in it, and advertises the three
      endpoints it implements but not the one that refuses an unknown operation. */
  method ProbeDemo(server: DemoAS, asURL: string, id: string) returns (m: Metadata)
    modifies server
    ensures server.View() == old(server.View()) && server.resources == old(server.resources)
    ensures m.tokenEndpoint == TrimSlashes(asURL) + "/token" && m.grantTypes == ["urn:ietf:params:oauth:grant-type:uma-ticket"]
    ensures m.permissionEndpoint == TrimSlashes(asURL) + "/permission"
    ensures m.introspectionEndpoint == TrimSlashes(asURL) + "/introspection"
    ensures m.resourceEndpoint == ""
  {
    var token := server.Token("", id);
    var permission := server.Permission(Grant("", []), id);
    var introspect := server.Introspect("");
    var created := server.ResourceSet(OpUnknown, NoPayload, id);
    var probes := Probes(ErrorOf(token), ErrorOf(permission), ErrorOf(introspect), ErrorOfResult(ResultOf(created)));
    m := BuildMetadata(asURL, Some(probes), []);
  }

  /** The running demo AS answers a resource-set request as DemoAt says. */
  method ServeDemo(server: DemoAS, req: ASRequest, id: string) returns (result: ASResult)
    modifies server
    ensures result == DemoAt(old(server.View()), id).resourceSet(req)
    ensures server.View() == old(server.View())
    ensures req.op != OpCreate ==> server.resources == old(server.resources)
  {
    var created := server.ResourceSet(req.op, req.body, id);
    result := ResultOf(created);
  }
}
