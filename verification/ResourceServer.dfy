/** The resource server side: server/rs.go and the demo RS of examples/as-rs-demo/main.go. */
module ResourceServer {
  import opened Text
  import opened DemoServer
  import opened Challenge

  const DEMO_REALM := "go-uma-demo"
  const BEARER := "Bearer "

  /** The Bearer token of an Authorization header value; the scheme's case does not matter. */
  method ExtractBearerToken(h: string) returns (token: Option<string>)
    ensures token.Some? <==> |h| > 7 && Lower(h[..7]) == "bearer "
    ensures token.Some? ==> token.value == h[7..]
  {
    assert Lower(BEARER) == "bearer " && |BEARER| == 7;
    if |h| <= |BEARER| {
      return None;
    }
    for i := 0 to |BEARER|
      invariant Lower(h[..i]) == Lower(BEARER[..i])
    {
      var c := h[i];
      if 'A' <= c <= 'Z' {
        c := c + ' ';
      }
      var want := BEARER[i];
      if 'A' <= want <= 'Z' {
        want := want + ' ';
      }
      assert c == LowerChar(h[i]) && want == LowerChar(BEARER[i]);
      if c != want {
        assert Lower(h[..|BEARER|])[i] == c && Lower(BEARER)[i] == want;
        return None;
      }
      assert Lower(h[..i + 1]) == Lower(h[..i]) + [c];
      assert Lower(BEARER[..i + 1]) == Lower(BEARER[..i]) + [want];
    }
    assert BEARER[..|BEARER|] == BEARER;
    return Some(h[|BEARER|..]);
  }

  /** What ExtractBearerToken computes. */
  function Bearer(h: string): Option<string> {
    if |h| > |BEARER| && Lower(h[..|BEARER|]) == Lower(BEARER) then Some(h[|BEARER|..]) else None
  }

  method ContainsAll(have: seq<string>, want: seq<string>) returns (all: bool)
    ensures all <==> forall s :: s in want ==> s in have
  {
    var have_ := {};
    for i := 0 to |have|
      invariant have_ == set s | s in have[..i]
    {
      have_ := have_ + {have[i]};
    }
    assert have[..|have|] == have;
    for i := 0 to |want|
      invariant forall k :: 0 <= k < i ==> want[k] in have
    {
      if want[i] !in have_ {
        assert want[i] in want;
        return false;
      }
    }
    return true;
  }

  predicate Covers(have: seq<string>, want: seq<string>) {
    forall s :: s in want ==> s in have
  }

  datatype Decision = DecisionUnknown | DecisionAllow | DecisionDeny

  /** The decision on an introspection reply; DecisionUnknown sends the RS for a ticket. */
  function Decide(r: Reply, rsid: string, scopes: seq<string>): Decision {
    if r.Active? && r.grant.rsid == rsid && Covers(r.grant.scopes, scopes) then DecisionAllow else DecisionUnknown
  }

  /** strings.Join(scopes, " ") */
  function JoinScopes(scopes: seq<string>): string {
    Join(scopes, ' ')
  }

  /** One space between scopes, so scopes without spaces can be read back. */
  lemma JoinedWithSpaces(first: string, rest: seq<string>)
    ensures JoinScopes([first]) == first
    ensures rest != [] ==> JoinScopes([first] + rest) == first + " " + JoinScopes(rest)
    ensures AllFree([first] + rest, ' ') ==> Split(JoinScopes([first] + rest), ' ') == [first] + rest
  {
    if rest != [] { assert ([first] + rest)[1..] == rest; }
    if AllFree([first] + rest, ' ') { SplitJoin([first] + rest, ' '); }
  }

  /** The header carries an RPT that covers the request. */
  predicate Entitled(st: Store, authorization: string, rsid: string, scopes: seq<string>) {
    match Bearer(authorization)
    case None => false
    case Some(rpt) => Decide(Look(st, rpt), rsid, scopes).DecisionAllow?
  }

  /** A response of the RS: the WWW-Authenticate value is empty when there is none. */
  datatype Response = Response(status: nat, challenge: string)

  method WriteTicketResponse(ticket: string, asURL: string, scopes: string, realm: string) returns (resp: Response)
    ensures resp == Response(401, Header(asURL, ticket, scopes, realm))
  {
    var header := BuildUMAChallenge(asURL, ticket, scopes, realm);
    return Response(401, header);
  }

  datatype Outcome =
    | Allowed
    | TicketRequired(ticket: string, asURL: string, scopes: string, realm: string)
    | Failed

  class DemoRS {
    const server: DemoAS
    const asURL: string

    constructor (server: DemoAS, asURL: string)
      ensures this.server == server && this.asURL == asURL
    {
      this.server, this.asURL := server, asURL;
    }

    /** `id` is what randomID would draw if a ticket has to be asked for. */
    method ProtectedRequest(authorization: string, rsid: string, scopes: seq<string>, id: string) returns (o: Outcome)
      modifies server
      ensures o.Allowed? <==> Entitled(old(server.View()), authorization, rsid, scopes)
      ensures o.Allowed? <==>
        && |authorization| > 7 && Lower(authorization[..7]) == "bearer "
        && var rpt := authorization[7..];
           && rpt in old(server.rpts) && old(server.rpts)[rpt].rsid == rsid
           && forall s :: s in scopes ==> s in old(server.rpts)[rpt].scopes
      ensures server.rpts == old(server.rpts)
      ensures !o.Allowed? ==> o == if rsid == "" || scopes == [] then Failed
                                   else TicketRequired(id, asURL, JoinScopes(scopes), "go-uma-demo")
      ensures server.tickets == if o.TicketRequired? then old(server.tickets)[id := Grant(rsid, scopes)] else old(server.tickets)
    {
      assert Lower(BEARER) == "bearer " && |BEARER| == 7;
      var rpt := ExtractBearerToken(authorization);
      assert rpt == Bearer(authorization);
      if rpt.None? {
        o := AskForTicket(rsid, scopes, id);
        return;
      }
      var ir := server.Introspect(rpt.value);
      if ir.Active? && ir.grant.rsid == rsid {
        var enough := ContainsAll(ir.grant.scopes, scopes);
        if enough {
          return Allowed;
        }
      }
      o := AskForTicket(rsid, scopes, id);
    }

    method AskForTicket(rsid: string, scopes: seq<string>, id: string) returns (o: Outcome)
      modifies server
      ensures o == if rsid == "" || scopes == [] then Failed else TicketRequired(id, asURL, JoinScopes(scopes), "go-uma-demo")
      ensures server.tickets == if o.TicketRequired? then old(server.tickets)[id := Grant(rsid, scopes)] else old(server.tickets)
      ensures server.rpts == old(server.rpts)
    {
      var pr := server.Permission(Grant(rsid, scopes), id);
      if !pr.TicketReply? {
        return Failed;
      }
      return TicketRequired(pr.ticket, asURL, JoinScopes(scopes), DEMO_REALM);
    }

    /** A route's handler. Whoever is refused can read in the response the ticket that now
        waits for that resource and those scopes, so long as the AS's URL holds no quote and
        does not end in the label the client looks for. */
    method Handle(authorization: string, rsid: string, scopes: seq<string>, id: string) returns (resp: Response)
      modifies server
      ensures resp.status == 200 <==> Entitled(old(server.View()), authorization, rsid, scopes)
      ensures resp.status == 200 ==> server.View() == old(server.View())
      ensures resp.status == 401 <==> !Entitled(old(server.View()), authorization, rsid, scopes) && rsid != "" && scopes != []
      ensures resp.status == 401 ==>
        && server.tickets == old(server.tickets)[id := Grant(rsid, scopes)] && server.rpts == old(server.rpts)
        && resp.challenge == Header(asURL, id, JoinScopes(scopes), "go-uma-demo")
        && (QUOTE !in asURL && QUOTE !in id && !HasSuffix(asURL, "ticket=") ==> ParseChallenge(resp.challenge).ticket == id)
      ensures resp.status in {200, 401, 500}
    {
      var o := ProtectedRequest(authorization, rsid, scopes, id);
      match o
      case TicketRequired(ticket, url, joined, realm) =>
        resp := WriteTicketResponse(ticket, url, joined, realm);
        if QUOTE !in asURL && QUOTE !in id && !HasSuffix(asURL, "ticket=") {
          RealmSound();
          RoundTrip(asURL, id, JoinScopes(scopes), DEMO_REALM);
        }
      case Failed =>
        resp := Response(500, "");
      case Allowed =>
        resp := Response(200, "");
    }
  }

  lemma RealmSound()
    ensures QUOTE !in DEMO_REALM && !HasSuffix(DEMO_REALM, "ticket=")
  {
    assert DEMO_REALM[|DEMO_REALM| - 7..][6] == 'o';
  }
}
