/** Resource-set CRUD from the client's path building (client/resource_set.go) through the
    server's dispatch (server/as.go) to the registry of conformance/scenario_test.go. */
module ResourceRegistry {
  import opened Text
  import opened ErrorTransport
  import opened DemoServer
  import opened ScenarioServer

  const ROOT := "/resource_set"
  const NOT_FOUND := "not_found"

  datatype ClientOp =
    | Create(rs: Resource)
    | Read(id: string)
    | Update(id: string, rs: Resource)
    | Delete(id: string)
    | List

  datatype ClientResult =
    | Record(rs: Resource)
    | Ids(ids: seq<string>)
    | Deleted
    | Failed(e: Err)

  // The reference: a plain map from ids to records.

  predicate ValidResource(rs: Resource) {
    rs.name != "" && rs.scopes != []
  }

  /** The map after an operation; `id` is what randID would draw. */
  function Meaning(m: map<string, Resource>, op: ClientOp, id: string): map<string, Resource> {
    match op
    case Create(rs) => if ValidResource(rs) then m[id := rs.(id := id)] else m
    case Read(_) => m
    case Update(k, rs) => if k in m then m[k := rs.(id := k)] else m
    case Delete(k) => m - {k}
    case List => m
  }

  const BLANK := Resource("", "", [], "", "", "", "", "")

  /** The results an operation may have on the map. */
  ghost predicate Means(m: map<string, Resource>, op: ClientOp, id: string, r: ClientResult) {
    match op
    case Create(rs) => if ValidResource(rs) then r == Record(BLANK.(id := id)) else r.Failed? && IsCode(r.e, "invalid_grant")
    case Read(k) => if k in m then r == Record(m[k]) else r.Failed? && IsCode(r.e, "not_found")
    case Update(k, rs) => if k in m then r == Record(rs.(id := k)) else r.Failed? && IsCode(r.e, "not_found")
    case Delete(_) => r == Deleted
    case List => r.Ids? && ListsExactly(r.ids, m)
  }

  ghost predicate ListsExactly(ids: seq<string>, m: map<string, Resource>) {
    && (forall i, j :: 0 <= i < j < |ids| ==> ids[i] != ids[j])
    && (forall id :: id in ids <==> id in m)
  }

  /** Every record carries its own key as its id. */
  ghost predicate Keyed(m: map<string, Resource>) {
    forall id :: id in m ==> m[id].id == id
  }

  // The server.

  datatype ASRequest = ASRequest(op: Op, id: string, body: Payload)

  datatype ASResult =
    | Single(rs: Resource)
    | Keys(ids: seq<string>)
    | Empty
    | Error(e: Err)

  /** What the AS may answer, and leave behind. */
  ghost predicate Answered(before: map<string, Resource>, req: ASRequest, id: string, after: map<string, Resource>, r: ASResult) {
    match req.op
    case OpUnknown => r.Error? && r.e.Validation? && after == before
    case OpCreate =>
      && req.body.Payload?
      && var rs := req.body.rs;
         if rs.name != "" && rs.scopes != [] then
           after == before[id := rs.(id := id)] && r == Single(Resource(id, "", [], "", "", "", "", ""))
         else after == before && r.Error? && r.e.Validation?
    case OpRead => after == before && r == if req.id in before then Single(before[req.id]) else Error(OAuth(OAuthError("not_found", "", "")))
    case OpUpdate =>
      && req.body.Payload?
      && if req.id in before then
           var updated := req.body.rs.(id := before[req.id].id);
           after == before[req.id := updated] && r == Single(updated)
         else after == before && r == Error(OAuth(OAuthError("not_found", "", "")))
    case OpDelete => after == before - {req.id} && r == Empty
    case OpList => after == before && r.Keys? && ListsExactly(r.ids, before)
  }

  class ScenarioAS {
    var resources: map<string, Resource>
    var tickets: map<string, STicket>
    var rpts: map<string, SRPT>

    constructor ()
      ensures resources == map[] && View() == SEMPTY
    {
      resources, tickets, rpts := map[], map[], map[];
    }

    function View(): SStore
      reads this
    {
      SStore(tickets, rpts)
    }

    method Token(ticket: string, id: string) returns (r: Reply)
      modifies this`tickets, this`rpts
      ensures (View(), r) == Atomic(old(View()), resources.Keys, DemoServer.Token(ticket), id)
      ensures r.RPTReply? <==> ticket != "" && ticket in old(tickets) && !old(tickets)[ticket].consumed
      ensures r.RPTReply? ==>
        var g := old(tickets)[ticket].grant;
        r.token == id && tickets == old(tickets)[ticket := STicket(g, true)] && rpts == old(rpts)[id := SRPT(g, true)]
      ensures !r.RPTReply? ==> View() == old(View()) && r == if ticket == "" then Rejected else InvalidGrant
    {
      if ticket == "" {
        return Rejected;
      }
      if ticket !in tickets || tickets[ticket].consumed {
        return InvalidGrant;
      }
      var t := tickets[ticket];
      tickets := tickets[ticket := t.(consumed := true)];
      rpts := rpts[id := SRPT(t.grant, true)];
      return RPTReply(id);
    }

    method Permission(grant: Grant, id: string) returns (r: Reply)
      modifies this`tickets
      ensures (View(), r) == Atomic(old(View()), resources.Keys, DemoServer.Permission(grant), id)
      ensures r.TicketReply? <==> grant.rsid in resources && grant.rsid != "" && grant.scopes != []
      ensures r.TicketReply? ==> r.ticket == id && tickets == old(tickets)[id := STicket(grant, false)]
      ensures !r.TicketReply? ==>
        View() == old(View()) && r == if grant.rsid == "" || grant.scopes == [] then Rejected else InvalidGrant
    {
      if grant.rsid == "" || grant.scopes == [] {
        return Rejected;
      }
      if grant.rsid !in resources {
        return InvalidGrant;
      }
      tickets := tickets[id := STicket(grant, false)];
      return TicketReply(id);
    }

    method Introspect(token: string) returns (r: Reply)
      ensures (View(), r) == Atomic(old(View()), resources.Keys, DemoServer.Introspect(token), "")
      ensures r == if token == "" then Rejected
                   else if token in rpts && rpts[token].active then Active(rpts[token].grant) else Inactive
    {
      if token == "" {
        return Rejected;
      }
      if token !in rpts || !rpts[token].active {
        return Inactive;
      }
      return Active(rpts[token].grant);
    }

    /** Create and Update come with a body: the handler has decoded one. */
    method ResourceSet(req: ASRequest, id: string) returns (r: ASResult)
      requires req.op == OpCreate || req.op == OpUpdate ==> req.body.Payload?
      modifies this`resources
      ensures Answered(old(resources), req, id, resources, r)
      ensures View() == old(View())
    {
      match req.op
      case OpCreate =>
        var body := req.body.rs;
        if body.name == "" {
          return Error(Validation(ValidationError("ResourceSet", "name", "required")));
        }
        if |body.scopes| == 0 {
          return Error(Validation(ValidationError("ResourceSet", "resource_scopes", "required")));
        }
        resources := resources[id := body.(id := id)];
        return Single(BLANK.(id := id));
      case OpRead =>
        if req.id !in resources {
          return NotFound();
        }
        return Single(resources[req.id]);
      case OpUpdate =>
        if req.id !in resources {
          return NotFound();
        }
        var updated := req.body.rs.(id := resources[req.id].id);
        resources := resources[req.id := updated];
        return Single(updated);
      case OpDelete =>
        resources := resources - {req.id};
        return Empty;
      case OpList =>
        var ids, left := [], resources.Keys;
        while left != {}
          invariant left <= resources.Keys
          invariant forall k :: k in ids <==> k in resources && k !in left
          invariant forall i, j :: 0 <= i < j < |ids| ==> ids[i] != ids[j]
          decreases left
        {
          var k :| k in left;
          ids, left := ids + [k], left - {k};
        }
        return Keys(ids);
      case OpUnknown =>
        return Error(Validation(ValidationError("ResourceSetRequest", "op", "unsupported op")));
    }
  }

  function NotFound(): ASResult {
    Error(OAuth(OAuthError(NOT_FOUND, "", "")))
  }

  // The wire.

  datatype Verb = GET | POST | PUT | DELETE

  datatype HttpRequest = HttpRequest(verb: Verb, path: string, body: Payload)

  /** Characters of section 2.3 of RFC 3986. */
  predicate Unreserved(id: string) {
    id != "" && forall i :: 0 <= i < |id| ==>
      'a' <= id[i] <= 'z' || 'A' <= id[i] <= 'Z' || '0' <= id[i] <= '9' || id[i] in "-._~"
  }

  /** The id path, as resolved against the base URL: dot segments are removed. */
  function IdPath(id: string): string {
    if id == "." then ROOT + "/" else if id == ".." then "/" else ROOT + "/" + id
  }

  function Build(op: ClientOp): HttpRequest {
    match op
    case Create(rs) => HttpRequest(POST, ROOT, Payload(rs))
    case Read(id) => HttpRequest(GET, IdPath(id), NoPayload)
    case Update(id, rs) => HttpRequest(PUT, IdPath(id), Payload(rs))
    case Delete(id) => HttpRequest(DELETE, IdPath(id), NoPayload)
    case List => HttpRequest(GET, ROOT, NoPayload)
  }

  datatype Routed =
    | ToAS(req: ASRequest)
    | NoRoute              // 404
    | NotAllowed           // 405
    | BadBody              // 400, nothing to decode

  /** The mux and the two resource-set handlers. */
  function Route(r: HttpRequest): Routed {
    if r.path == ROOT then
      match r.verb
      case POST => if r.body.Payload? then ToAS(ASRequest(OpCreate, "", r.body)) else BadBody
      case GET => ToAS(ASRequest(OpList, "", NoPayload))
      case _ => NotAllowed
    else if HasPrefix(r.path, ROOT + "/") then
      var id := r.path[|ROOT| + 1..];
      if id == "" || '/' in id then NoRoute
      else
        match r.verb
        case GET => ToAS(ASRequest(OpRead, id, NoPayload))
        case PUT => if r.body.Payload? then ToAS(ASRequest(OpUpdate, id, r.body)) else BadBody
        case DELETE => ToAS(ASRequest(OpDelete, id, NoPayload))
        case POST => NotAllowed
    else NoRoute
  }

  /** The server-side request a client operation stands for. */
  function Intended(op: ClientOp): ASRequest {
    match op
    case Create(rs) => ASRequest(OpCreate, "", Payload(rs))
    case Read(id) => ASRequest(OpRead, id, NoPayload)
    case Update(id, rs) => ASRequest(OpUpdate, id, Payload(rs))
    case Delete(id) => ASRequest(OpDelete, id, NoPayload)
    case List => ASRequest(OpList, "", NoPayload)
  }

  predicate HasId(op: ClientOp) {
    op.Read? || op.Update? || op.Delete?
  }

  /** An operation on an id of unreserved characters arrives as it was meant exactly when the
      id is not a dot segment. */
  lemma Delivered(op: ClientOp)
    requires HasId(op) ==> Unreserved(op.id)
    ensures Route(Build(op)) == ToAS(Intended(op)) <==> (HasId(op) ==> op.id != "." && op.id != "..")
  {
    if HasId(op) {
      assert forall i :: 0 <= i < |op.id| ==> op.id[i] != '/';
      var p := IdPath(op.id);
      if op.id == ".." {
        assert |p| == 1;
      } else if op.id == "." {
        assert p[|ROOT| + 1..] == "";
      } else {
        assert p[..|ROOT| + 1] == ROOT + "/" && p[|ROOT| + 1..] == op.id;
        assert |p| > |ROOT|;
      }
    }
  }

  /** Distinct operations never become the same request. */
  lemma NeverCollide(a: ClientOp, b: ClientOp)
    requires HasId(a) ==> Unreserved(a.id)
    requires HasId(b) ==> Unreserved(b.id)
    requires Build(a) == Build(b)
    ensures a == b
  {
    if HasId(a) { IdPathShape(a.id); }
    if HasId(b) { IdPathShape(b.id); }
  }

  /** An id's path tells the id, dot segments included. */
  lemma IdPathShape(id: string)
    requires Unreserved(id)
    ensures IdPath(id) != ROOT
    ensures id == if IdPath(id) == "/" then ".." else if IdPath(id) == ROOT + "/" then "." else IdPath(id)[|ROOT| + 1..]
  {
    if id != "." && id != ".." {
      assert IdPath(id)[|ROOT| + 1..] == id;
      assert |IdPath(id)| == |ROOT| + 1 + |id|;
    } else {
      assert |IdPath(id)| == if id == "." then |ROOT| + 1 else 1;
    }
  }

  // The handlers' responses, and the client's reading of them.

  datatype Content =
    | Nothing
    | RecordBody(rs: Resource)
    | IdsBody(ids: seq<string>)
    | ErrorBody(body: Body)

  datatype HttpResponse = HttpResponse(status: nat, content: Content)

  /** Success is the operation's own status. A missing list is sent as an empty one, and a
      missing record as null, which the client decodes as a blank one. */
  function Answer(op: Op, r: ASResult): HttpResponse {
    if r.Error? then HttpResponse(ErrorResponse(r.e).status, ErrorBody(ErrorResponse(r.e).body))
    else
      match op
      case OpDelete => HttpResponse(204, Nothing)
      case OpList => HttpResponse(200, IdsBody(if r.Keys? then r.ids else []))
      case _ => HttpResponse(if op == OpCreate then 201 else 200, RecordBody(if r.Single? then r.rs else BLANK))
  }

  method Serve(server: ScenarioAS, r: HttpRequest, id: string) returns (resp: HttpResponse)
    modifies server
    ensures server.View() == old(server.View())
    ensures Route(r).ToAS? ==> exists result ::
              Answered(old(server.resources), Route(r).req, id, server.resources, result)
              && resp == Answer(Route(r).req.op, result)
    ensures !Route(r).ToAS? ==> server.resources == old(server.resources) && resp == Unrouted(r)
  {
    match Route(r)
    case ToAS(req) =>
      var result := server.ResourceSet(req, id);
      return Answer(req.op, result);
    case _ =>
      return Unrouted(r);
  }

  /** The response to a request that does not reach the AS. */
  function Unrouted(r: HttpRequest): HttpResponse
    requires !Route(r).ToAS?
  {
    match Route(r)
    case NoRoute => HttpResponse(404, Nothing)
    case NotAllowed => HttpResponse(405, Nothing)
    case BadBody => Answer(OpUnknown, Error(OAuth(OAuthError(INVALID_GRANT, "could not parse JSON body", ""))))
  }

  /** Which requests reach the AS, as what, and the status of those that do not. */
  lemma RouteExactly(r: HttpRequest, k: string)
    ensures r.path == "/resource_set" && r.verb == POST && r.body.Payload? ==> Route(r) == ToAS(ASRequest(OpCreate, "", r.body))
    ensures r.path == "/resource_set" && r.verb == POST && r.body.NoPayload? ==> Stopped(r, 400)
    ensures r.path == "/resource_set" && r.verb == GET ==> Route(r) == ToAS(ASRequest(OpList, "", NoPayload))
    ensures r.path == "/resource_set" && (r.verb == PUT || r.verb == DELETE) ==> Stopped(r, 405)
    ensures r.path == "/resource_set/" + k && k != "" && '/' !in k ==>
      match r.verb
      case GET => Route(r) == ToAS(ASRequest(OpRead, k, NoPayload))
      case DELETE => Route(r) == ToAS(ASRequest(OpDelete, k, NoPayload))
      case PUT => if r.body.Payload? then Route(r) == ToAS(ASRequest(OpUpdate, k, r.body)) else Stopped(r, 400)
      case POST => Stopped(r, 405)
    ensures r.path != "/resource_set" && !(exists id :: r.path == "/resource_set/" + id && id != "" && '/' !in id) ==> Stopped(r, 404)
  {
    var slash := "/resource_set/";
    assert ROOT + "/" == slash && |slash| == 14;
    if r.path == slash + k {
      assert r.path[..14] == slash && r.path[14..] == k && |r.path| >= 14;
    }
    if HasPrefix(r.path, slash) {
      assert r.path == slash + r.path[14..];
    }
    if Route(r).BadBody? {
      WrittenExactly(OAuth(OAuthError(INVALID_GRANT, "could not parse JSON body", "")), 0);
    }
  }

  ghost predicate Stopped(r: HttpRequest, status: nat) {
    !Route(r).ToAS? && Unrouted(r).status == status
  }

  /** The status and body of every answer the AS may give. */
  lemma AnswerExactly(op: Op, r: ASResult)
    ensures !r.Error? && op == OpCreate ==> Answer(op, r).status == 201
    ensures !r.Error? && (op == OpRead || op == OpUpdate || op == OpList) ==> Answer(op, r).status == 200
    ensures !r.Error? && op == OpDelete ==> Answer(op, r) == HttpResponse(204, Nothing)
    ensures r.Single? && (op == OpCreate || op == OpRead || op == OpUpdate) ==> Answer(op, r).content == RecordBody(r.rs)
    ensures r.Keys? && op == OpList ==> Answer(op, r).content == IdsBody(r.ids)
    ensures r == Error(OAuth(OAuthError("not_found", "", ""))) ==>
              Answer(op, r) == HttpResponse(400, ErrorBody(Envelope(OAuthError("not_found", "", ""))))
    ensures r.Error? && r.e.Validation? ==>
              Answer(op, r).status == 400 && Answer(op, r).content.ErrorBody? && Answer(op, r).content.body.Envelope?
              && Answer(op, r).content.body.error.code == "invalid_grant"
  {
    if r.Error? && (r.e.Validation? || r.e.OAuth?) { WrittenExactly(r.e, 0); }
  }

  function ErrorIn(resp: HttpResponse): Err {
    DecodeOAuthError(Response(resp.status, if resp.content.ErrorBody? then resp.content.body else NoBody))
  }

  const UNDECODED := Plain("uma client: decode body")

  function Receive(op: ClientOp, resp: HttpResponse): ClientResult {
    if op.Delete? then
      if resp.status == 204 || resp.status == 200 then Deleted else Failed(ErrorIn(resp))
    else if resp.status != (if op.Create? then 201 else 200) then Failed(ErrorIn(resp))
    else if op.List? then
      if resp.content.IdsBody? then Ids(resp.content.ids) else Failed(UNDECODED)
    else
      if resp.content.RecordBody? then Record(resp.content.rs) else Failed(UNDECODED)
  }

  /** The ids the client can address: the empty id is refused before a request is built, and
      dot segments do not survive the URL. */
  predicate Addressable(op: ClientOp) {
    HasId(op) ==> op.id != "" && op.id != "." && op.id != ".."
  }

  /** One client call through the wire. On an addressable id the registry behaves as the plain
      map; any other id fails and changes nothing. */
  method Call(server: ScenarioAS, op: ClientOp, id: string) returns (r: ClientResult)
    requires HasId(op) ==> op.id == "" || Unreserved(op.id)
    requires Keyed(server.resources)
    modifies server
    ensures Addressable(op) ==> server.resources == Meaning(old(server.resources), op, id)
    ensures Addressable(op) ==> Means(old(server.resources), op, id, r)
    ensures !Addressable(op) ==> server.resources == old(server.resources) && r.Failed?
    // The same outright.
    ensures op.Create? ==>
      if op.rs.name != "" && op.rs.scopes != [] then
        server.resources == old(server.resources)[id := op.rs.(id := id)] && r == Record(Resource(id, "", [], "", "", "", "", ""))
      else server.resources == old(server.resources) && r.Failed? && IsCode(r.e, "invalid_grant")
    ensures (op.Read? || op.Update? || op.Delete?) && (op.id == "" || op.id == "." || op.id == "..") ==>
      server.resources == old(server.resources) && r.Failed?
    ensures op.Read? ==> server.resources == old(server.resources)
    ensures (op.Read? || op.Update?) && op.id != "" && op.id != "." && op.id != ".." && op.id !in old(server.resources) ==>
      server.resources == old(server.resources) && r.Failed? && IsCode(r.e, "not_found")
    ensures op.Read? && op.id != "" && op.id != "." && op.id != ".." && op.id in old(server.resources) ==>
      r == Record(old(server.resources)[op.id])
    ensures op.Update? && op.id != "" && op.id != "." && op.id != ".." && op.id in old(server.resources) ==>
      server.resources == old(server.resources)[op.id := op.rs.(id := op.id)] && r == Record(op.rs.(id := op.id))
    ensures op.Delete? && op.id != "" && op.id != "." && op.id != ".." ==>
      server.resources == old(server.resources) - {op.id} && r == Deleted
    ensures op.List? ==>
      && server.resources == old(server.resources) && r.Ids?
      && (forall i, j :: 0 <= i < j < |r.ids| ==> r.ids[i] != r.ids[j])
      && (forall k :: k in r.ids <==> k in server.resources)
    ensures Keyed(server.resources)
    ensures server.View() == old(server.View())
  {
    if HasId(op) && op.id == "" {
      return Failed(Plain("uma client: empty resource-set id"));
    }
    var resp := Serve(server, Build(op), id);
    Delivered(op);
    if Addressable(op) {
      ghost var result :| Answered(old(server.resources), Intended(op), id, server.resources, result)
                          && resp == Answer(Intended(op).op, result);
      Understood(old(server.resources), op, id, server.resources, result);
    } else {
      Misdirected(op);
    }
    r := Receive(op, resp);
  }

  lemma Misdirected(op: ClientOp)
    requires HasId(op) && (op.id == "." || op.id == "..")
    ensures Route(Build(op)).NoRoute?
  {
    if op.id == "." {
      assert IdPath(".")[|ROOT| + 1..] == "";
    } else {
      assert |IdPath("..")| == 1;
    }
  }

  /** What the AS did, as the client understands it, is what the map would have done. */
  lemma Understood(before: map<string, Resource>, op: ClientOp, id: string, after: map<string, Resource>, result: ASResult)
    requires Keyed(before) && Answered(before, Intended(op), id, after, result)
    ensures after == Meaning(before, op, id) && Keyed(after)
    ensures Means(before, op, id, Receive(op, Answer(Intended(op).op, result)))
  {
    if result.Error? {
      ErrorArrives(result.e);
      Transported(result.e);
    }
  }

  lemma ErrorArrives(e: Err)
    requires e.Validation? || e == OAuth(OAuthError(NOT_FOUND, "", ""))
    ensures IsCode(Transport(e), if e.Validation? then INVALID_GRANT else NOT_FOUND)
  {
    assert Leaves(e) == [e];
    Transported(e);
  }

  // Whole histories of calls.

  datatype Logged = Logged(op: ClientOp, id: string)

  /** What the map holds after the calls of a log; a call the client cannot address does nothing. */
  function After(log: seq<Logged>): map<string, Resource> {
    if log == [] then map[]
    else
      var front, l := log[..|log| - 1], log[|log| - 1];
      if Addressable(l.op) then Meaning(After(front), l.op, l.id) else After(front)
  }

  /** Every call got the result the plain map would have given. */
  ghost predicate Served(log: seq<Logged>, results: seq<ClientResult>) {
    && |results| == |log|
    && forall j :: 0 <= j < |log| ==>
         if Addressable(log[j].op) then Means(After(log[..j]), log[j].op, log[j].id, results[j]) else results[j].Failed?
  }

  /** A fresh server, called any number of times: every result is the plain map's, and the
      registry ends as the plain map does. */
  method Replay(log: seq<Logged>) returns (server: ScenarioAS, results: seq<ClientResult>)
    requires forall j :: 0 <= j < |log| && HasId(log[j].op) ==> log[j].op.id == "" || Unreserved(log[j].op.id)
    ensures fresh(server) && server.resources == After(log) && Keyed(server.resources)
    ensures Served(log, results)
  {
    server := new ScenarioAS();
    results := [];
    for j := 0 to |log|
      invariant fresh(server) && server.resources == After(log[..j]) && Keyed(server.resources)
      invariant Served(log[..j], results)
    {
      assert log[..j + 1][..j] == log[..j];
      var r := Call(server, log[j].op, log[j].id);
      ServedMore(log, results, r, j);
      results := results + [r];
    }
    assert log[..|log|] == log;
  }

  lemma ServedMore(log: seq<Logged>, results: seq<ClientResult>, r: ClientResult, j: nat)
    requires j < |log| && Served(log[..j], results)
    requires if Addressable(log[j].op) then Means(After(log[..j]), log[j].op, log[j].id, r) else r.Failed?
    ensures Served(log[..j + 1], results + [r])
  {
    forall i | 0 <= i <= j ensures log[..j + 1][..i] == log[..i] && (i < j ==> log[..j][..i] == log[..i]) {
    }
  }

  /** The call may change what is stored under key. */
  predicate Touches(l: Logged, key: string) {
    && Addressable(l.op)
    && match l.op
       case Create(rs) => ValidResource(rs) && l.id == key
       case Update(id, _) => id == key
       case Delete(id) => id == key
       case _ => false
  }

  lemma {:induction false} Untouched(log: seq<Logged>, k: nat, key: string)
    requires k <= |log| && forall i :: k <= i < |log| ==> !Touches(log[i], key)
    ensures key in After(log) <==> key in After(log[..k])
    ensures key in After(log) ==> After(log)[key] == After(log[..k])[key]
  {
    if k < |log| {
      var front := log[..|log| - 1];
      Untouched(front, k, key);
      assert front[..k] == log[..k];
      assert !Touches(log[|log| - 1], key);
    } else {
      assert log[..k] == log;
    }
  }

  /** What is stored under a key is decided by the last call that touched it: the record
      created or updated there, under that id, or nothing after a Delete or after an Update of
      a missing key. */
  lemma LastTouchDecides(log: seq<Logged>, k: nat, key: string)
    requires k < |log| && Touches(log[k], key) && forall i :: k < i < |log| ==> !Touches(log[i], key)
    ensures match log[k].op
            case Create(rs) => key in After(log) && After(log)[key] == rs.(id := key)
            case Update(_, rs) =>
              (key in After(log) <==> key in After(log[..k])) && (key in After(log) ==> After(log)[key] == rs.(id := key))
            case _ => key !in After(log)
  {
    Untouched(log, k + 1, key);
    assert log[..k + 1][..k] == log[..k];
  }

  /** A record was stored under key by call k and the calls up to j left it there. */
  ghost predicate Written(log: seq<Logged>, k: nat, j: nat, key: string, rs: Resource) {
    && k < j <= |log| && Touches(log[k], key)
    && (forall i :: k < i < j ==> !Touches(log[i], key))
    && (log[k].op == Create(rs) || (log[k].op == Update(key, rs) && key in After(log[..k])))
  }

  /** A Read returns the record of the last Create or Update of its id, under that id, and
      not_found when there is none or a Delete came after it. */
  lemma ReadReturnsLast(log: seq<Logged>, results: seq<ClientResult>, j: nat, key: string)
    requires Served(log, results) && j < |log| && log[j].op == Read(key) && Addressable(log[j].op)
    ensures results[j].Record? <==> exists k: nat, rs :: Written(log, k, j, key, rs)
    ensures forall k: nat, rs :: Written(log, k, j, key, rs) ==> results[j] == Record(rs.(id := key))
    ensures !results[j].Record? ==> results[j].Failed? && IsCode(results[j].e, NOT_FOUND)
  {
    var before := log[..j];
    forall k: nat, rs | Written(log, k, j, key, rs) ensures results[j] == Record(rs.(id := key)) {
      assert before[..k] == log[..k] && before[k] == log[k];
      LastTouchDecides(before, k, key);
    }
    if results[j].Record? {
      var k := LastTouch(before, key);
      assert before[..k] == log[..k] && before[k] == log[k];
      LastTouchDecides(before, k, key);
      assert Written(log, k, j, key, before[k].op.rs);
    }
  }

  /** What is in the map was put there. */
  lemma {:induction false} LastTouch(log: seq<Logged>, key: string) returns (k: nat)
    requires key in After(log)
    ensures k < |log| && Touches(log[k], key) && forall i :: k < i < |log| ==> !Touches(log[i], key)
  {
    k := |log| - 1;
    if !Touches(log[k], key) {
      k := LastTouch(log[..k], key);
    }
  }
}
