/** The authorization server of examples/as-rs-demo/main.go: its two stores, the
    critical sections that touch them, and the methods a caller sees. */
module DemoServer {

  /** What a ticket or an RPT is bound to (demoTicket, demoRPT). */
  datatype Grant = Grant(rsid: string, scopes: seq<string>)

  datatype Store = Store(tickets: map<string, Grant>, rpts: map<string, Grant>)

  const EMPTY := Store(map[], map[])

  datatype Call =
    | Permission(grant: Grant)
    | Token(ticket: string)
    | Introspect(token: string)

  datatype Reply =
    | TicketReply(ticket: string)
    | RPTReply(token: string)
    | Active(grant: Grant)
    | Inactive
    | InvalidGrant   // *uma.OAuthError, invalid_grant
    | Rejected       // *uma.ValidationError

  /** The Validate guards of the three requests. */
  predicate Valid(c: Call) {
    match c
    case Permission(g) => g.rsid != "" && g.scopes != []
    case Token(ticket) => ticket != ""
    case Introspect(token) => token != ""
  }

  // The critical sections under demoAS.mu.

  function PutTicket(st: Store, id: string, g: Grant): Store {
    st.(tickets := st.tickets[id := g])
  }

  function TakeTicket(st: Store, ticket: string): Store {
    st.(tickets := st.tickets - {ticket})
  }

  function PutRPT(st: Store, id: string, g: Grant): Store {
    st.(rpts := st.rpts[id := g])
  }

  function Look(st: Store, token: string): Reply {
    if token in st.rpts then Active(st.rpts[token]) else Inactive
  }

  /** One call made with nobody else running; `id` is what randomID would draw. */
  function Alone(st: Store, c: Call, id: string): (Store, Reply) {
    if !Valid(c) then (st, Rejected)
    else
      match c
      case Permission(g) => (PutTicket(st, id, g), TicketReply(id))
      case Token(ticket) =>
        if ticket !in st.tickets then (st, InvalidGrant)
        else (PutRPT(TakeTicket(st, ticket), id, st.tickets[ticket]), RPTReply(id))
      case Introspect(token) => (st, Look(st, token))
  }

  /** A resource-set description (uma.ResourceSet). */
  datatype Resource = Resource(id: string, name: string, scopes: seq<string>, typ: string, uri: string,
                               iconURI: string, description: string, policyURI: string)

  datatype Op = OpUnknown | OpCreate | OpRead | OpUpdate | OpDelete | OpList

  datatype Payload = NoPayload | Payload(rs: Resource)

  datatype Created =
    | Created(rs: Resource)
    | Refused        // uma.ErrNotImplemented
    | MissingBody    // *uma.ValidationError

  /** What Create echoes of a description. */
  function CreatedRecord(rs: Resource, id: string): Resource {
    Resource(id, rs.name, rs.scopes, rs.typ, "", "", "", "")
  }

  class DemoAS {
    var resources: map<string, Resource>
    var tickets: map<string, Grant>
    var rpts: map<string, Grant>

    constructor ()
      ensures View() == EMPTY && resources == map[]
    {
      resources, tickets, rpts := map[], map[], map[];
    }

    function View(): Store
      reads this
    {
      Store(tickets, rpts)
    }

    /** Only Create is implemented. */
    method ResourceSet(op: Op, body: Payload, id: string) returns (r: Created)
      modifies this`resources
      ensures r.Refused? <==> op != OpCreate
      ensures r.Created? <==> op == OpCreate && body.Payload?
      ensures r.Created? ==> resources == old(resources)[id := body.rs]
                             && r.rs == Resource(id, body.rs.name, body.rs.scopes, body.rs.typ, "", "", "", "")
      ensures !r.Created? ==> resources == old(resources)
    {
      if op != OpCreate {
        return Refused;
      }
      if body.NoPayload? {
        return MissingBody;
      }
      resources := resources[id := body.rs];
      return Created(CreatedRecord(body.rs, id));
    }

    method Permission(grant: Grant, id: string) returns (r: Reply)
      modifies this`tickets
      ensures (View(), r) == Alone(old(View()), Call.Permission(grant), id)
      ensures r == if grant.rsid == "" || grant.scopes == [] then Rejected else TicketReply(id)
      ensures tickets == if r.TicketReply? then old(tickets)[id := grant] else old(tickets)
    {
      if grant.rsid == "" || grant.scopes == [] {
        return Rejected;
      }
      tickets := tickets[id := grant];
      return TicketReply(id);
    }

    method Token(ticket: string, rpt: string) returns (r: Reply)
      modifies this`tickets, this`rpts
      ensures (View(), r) == Alone(old(View()), Call.Token(ticket), rpt)
      ensures r == if ticket == "" then Rejected else if ticket in old(tickets) then RPTReply(rpt) else InvalidGrant
      ensures r.RPTReply? ==> tickets == old(tickets) - {ticket} && rpts == old(rpts)[rpt := old(tickets)[ticket]]
      ensures !r.RPTReply? ==> tickets == old(tickets) && rpts == old(rpts)
    {
      if ticket == "" {
        return Rejected;
      }
      var ok := ticket in tickets;
      if !ok {
        return InvalidGrant;
      }
      var tkt := tickets[ticket];
      tickets := tickets - {ticket};
      rpts := rpts[rpt := tkt];
      return RPTReply(rpt);
    }

    method Introspect(token: string) returns (r: Reply)
      ensures (View(), r) == Alone(old(View()), Call.Introspect(token), "")
      ensures r == if token == "" then Rejected else if token in rpts then Active(rpts[token]) else Inactive
    {
      if token == "" {
        return Rejected;
      }
      if token !in rpts {
        return Inactive;
      }
      return Active(rpts[token]);
    }
  }
}
