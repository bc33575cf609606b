/** The authorization server of conformance/scenario_test.go: every method runs under one
    lock, and a redeemed ticket is kept and flagged instead of deleted. */
module ScenarioServer {
  import opened DemoServer

  datatype STicket = STicket(grant: Grant, consumed: bool)

  datatype SRPT = SRPT(grant: Grant, active: bool)

  datatype SStore = SStore(tickets: map<string, STicket>, rpts: map<string, SRPT>)

  const SEMPTY := SStore(map[], map[])

  /** One call under the lock. `known` holds the registered resource ids, `id` is what
      randID would draw. Replies leave out error descriptions. */
  function Atomic(st: SStore, known: set<string>, c: Call, id: string): (SStore, Reply) {
    if !Valid(c) then (st, Rejected)
    else
      match c
      case Permission(g) =>
        if g.rsid !in known then (st, InvalidGrant)
        else (st.(tickets := st.tickets[id := STicket(g, false)]), TicketReply(id))
      case Token(ticket) =>
        if ticket !in st.tickets || st.tickets[ticket].consumed then (st, InvalidGrant)
        else
          var g := st.tickets[ticket].grant;
          (SStore(st.tickets[ticket := STicket(g, true)], st.rpts[id := SRPT(g, true)]), RPTReply(id))
      case Introspect(token) =>
        if token !in st.rpts || !st.rpts[token].active then (st, Inactive)
        else (st, Active(st.rpts[token].grant))
  }

  /** The calls that draw an id. */
  predicate Mints(st: SStore, known: set<string>, c: Call) {
    match c
    case Permission(g) => g.rsid in known
    case Token(ticket) => ticket in st.tickets && !st.tickets[ticket].consumed
    case Introspect(_) => false
  }

  // Deleting a redeemed ticket and flagging it cannot be told apart.

  /** The tickets demoAS holds are the unconsumed ones of scenarioAS; the RPTs are the same. */
  ghost predicate Sim(st: Store, sst: SStore) {
    && (forall ticket :: ticket in st.tickets <==> ticket in sst.tickets && !sst.tickets[ticket].consumed)
    && (forall ticket :: ticket in st.tickets ==> sst.tickets[ticket].grant == st.tickets[ticket])
    && (forall rpt :: rpt in st.rpts <==> rpt in sst.rpts && sst.rpts[rpt].active)
    && (forall rpt :: rpt in st.rpts ==> sst.rpts[rpt].grant == st.rpts[rpt])
  }

  predicate Registered(known: set<string>, c: Call) {
    c.Permission? && Valid(c) ==> c.grant.rsid in known
  }

  lemma SameReply(st: Store, sst: SStore, known: set<string>, c: Call, id: string)
    requires Sim(st, sst) && Registered(known, c)
    ensures Alone(st, c, id).1 == Atomic(sst, known, c, id).1
    ensures Sim(Alone(st, c, id).0, Atomic(sst, known, c, id).0)
  {
  }

  function Replies(st: Store, calls: seq<(Call, string)>): seq<Reply>
    decreases |calls|
  {
    if calls == [] then []
    else
      var (st', r) := Alone(st, calls[0].0, calls[0].1);
      [r] + Replies(st', calls[1..])
  }

  function SReplies(st: SStore, known: set<string>, calls: seq<(Call, string)>): seq<Reply>
    decreases |calls|
  {
    if calls == [] then []
    else
      var (st', r) := Atomic(st, known, calls[0].0, calls[0].1);
      [r] + SReplies(st', known, calls[1..])
  }

  /** Every sequence of calls on registered resources gets the same replies from both
      servers, whatever ids are drawn. */
  lemma {:induction false} SameReplies(st: Store, sst: SStore, known: set<string>, calls: seq<(Call, string)>)
    requires Sim(st, sst) && forall k :: 0 <= k < |calls| ==> Registered(known, calls[k].0)
    ensures Replies(st, calls) == SReplies(sst, known, calls)
    decreases |calls|
  {
    if calls != [] {
      SameReply(st, sst, known, calls[0].0, calls[0].1);
      SameReplies(Alone(st, calls[0].0, calls[0].1).0, Atomic(sst, known, calls[0].0, calls[0].1).0, known, calls[1..]);
    }
  }
}
