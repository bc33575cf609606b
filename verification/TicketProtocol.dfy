/** demoAS under many concurrent callers, one step at a time: a call is invoked, draws
    ids, runs its critical sections and returns, and steps of different callers interleave
    freely. Token runs two critical sections, with the draw of the RPT between them. */
module TicketProtocol {
  import opened DemoServer

  type Tid = nat

  /** Where a call in progress stands. */
  datatype Pc =
    | Called(call: Call)
    | TicketDrawn(grant: Grant, id: string)                  // Permission, before its section
    | Holding(ticket: string, grant: Grant)                  // Token, after its first section
    | RPTDrawn(ticket: string, grant: Grant, rpt: string)    // Token, before its second section
    | Done(reply: Reply)

  /** Where a registered ticket is. */
  datatype Place =
    | Outstanding
    | InFlight(t: Tid)
    | Redeemed(rpt: string)

  /** What a ticket was registered for, and where it is now. */
  datatype Fate = Fate(grant: Grant, place: Place)

  /** The stores and the callers. The rest is history, which no step reads but to keep ids fresh: who drew each
      id, the strings given to Introspect, each ticket's fate, and each RPT's ticket. */
  datatype State = State(
    store: Store,
    threads: map<Tid, Pc>,
    drawn: map<string, Tid>,
    presented: set<string>,
    fate: map<string, Fate>,
    origin: map<string, string>)

  const INIT := State(EMPTY, map[], map[], {}, map[], map[])

  /** The shape of randomID's results, of any length. */
  predicate IsId(s: string) {
    s != "" && forall c <- s :: '0' <= c <= '9' || 'a' <= c <= 'f'
  }

  /** randomID returns an id nobody has drawn before. */
  predicate New(s: State, id: string) {
    IsId(id) && id !in s.drawn
  }

  /** For an RPT moreover one that nobody has tried on Introspect. */
  predicate Fresh(s: State, id: string) {
    New(s, id) && id !in s.presented
  }

  datatype Step =
    | Invoke(t: Tid, call: Call)
    | Draw(t: Tid, id: string)
    | Section(t: Tid)
    | Return(t: Tid)

  predicate Enabled(s: State, step: Step) {
    match step
    case Invoke(t, _) => t !in s.threads
    case Draw(t, id) =>
      && t in s.threads && New(s, id)
      && ((s.threads[t].Holding? && Fresh(s, id)) || (s.threads[t].Called? && s.threads[t].call.Permission?))
    case Section(t) =>
      t in s.threads
      && (s.threads[t].TicketDrawn? || s.threads[t].RPTDrawn?
          || (s.threads[t].Called? && !s.threads[t].call.Permission?))
    case Return(t) => t in s.threads && s.threads[t].Done?
  }

  function Apply(s: State, step: Step): State
    requires Enabled(s, step)
  {
    match step
    case Invoke(t, c) => DoInvoke(s, t, c)
    case Draw(t, id) => DoDraw(s, t, id)
    case Section(t) => DoSection(s, t)
    case Return(t) => s.(threads := s.threads - {t})
  }

  function DoInvoke(s: State, t: Tid, c: Call): State {
    s.(threads := s.threads[t := if Valid(c) then Called(c) else Done(Rejected)],
       presented := if c.Introspect? then s.presented + {c.token} else s.presented)
  }

  function DoDraw(s: State, t: Tid, id: string): State
    requires Enabled(s, Draw(t, id))
  {
    var pc := if s.threads[t].Holding? then RPTDrawn(s.threads[t].ticket, s.threads[t].grant, id)
              else TicketDrawn(s.threads[t].call.grant, id);
    s.(threads := s.threads[t := pc], drawn := s.drawn[id := t])
  }

  function DoSection(s: State, t: Tid): State
    requires Enabled(s, Section(t))
  {
    match s.threads[t]
    case TicketDrawn(g, id) =>
      s.(store := PutTicket(s.store, id, g),
         threads := s.threads[t := Done(TicketReply(id))],
         fate := s.fate[id := Fate(g, Outstanding)])
    case Called(Token(ticket)) =>
      if ticket in s.store.tickets then
        s.(store := TakeTicket(s.store, ticket),
           threads := s.threads[t := Holding(ticket, s.store.tickets[ticket])],
           fate := s.fate[ticket := Fate(s.store.tickets[ticket], InFlight(t))])
      else s.(threads := s.threads[t := Done(InvalidGrant)])
    case RPTDrawn(ticket, g, rpt) =>
      s.(store := PutRPT(s.store, rpt, g),
         threads := s.threads[t := Done(RPTReply(rpt))],
         fate := s.fate[ticket := Fate(g, Redeemed(rpt))],
         origin := s.origin[rpt := ticket])
    case Called(Introspect(token)) =>
      s.(threads := s.threads[t := Done(Look(s.store, token))])
  }

  // Runs from the empty server.

  predicate Runs(steps: seq<Step>)
    decreases |steps|, 0
  {
    steps == [] || (Runs(Front(steps)) && Enabled(Exec(Front(steps)), Last(steps)))
  }

  function Exec(steps: seq<Step>): State
    requires Runs(steps)
    decreases |steps|, 1
  {
    if steps == [] then INIT else Apply(Exec(Front(steps)), Last(steps))
  }

  function Front<T>(xs: seq<T>): seq<T>
    requires xs != []
  {
    xs[..|xs| - 1]
  }

  function Last<T>(xs: seq<T>): T
    requires xs != []
  {
    xs[|xs| - 1]
  }

  lemma {:induction false} RunsPrefix(steps: seq<Step>, k: nat)
    requires Runs(steps) && k <= |steps|
    ensures Runs(steps[..k])
  {
    if k < |steps| {
      RunsPrefix(Front(steps), k);
      assert Front(steps)[..k] == steps[..k];
    } else {
      assert steps[..k] == steps;
    }
  }

  /** The state before step `k` of a run. */
  function At(steps: seq<Step>, k: nat): State
    requires Runs(steps) && k <= |steps|
  {
    RunsPrefix(steps, k);
    Exec(steps[..k])
  }

  lemma AtSucc(steps: seq<Step>, k: nat)
    requires Runs(steps) && k < |steps|
    ensures Enabled(At(steps, k), steps[k])
    ensures At(steps, k + 1) == Apply(At(steps, k), steps[k])
  {
    RunsPrefix(steps, k + 1);
    assert Front(steps[..k + 1]) == steps[..k];
  }

  // Histories: what callers observe.

  datatype Event =
    | CallEvent(t: Tid, call: Call)
    | ReturnEvent(t: Tid, reply: Reply)

  function Obs(s: State, step: Step): seq<Event>
    requires Enabled(s, step)
  {
    match step
    case Invoke(t, c) => [CallEvent(t, c)]
    case Return(t) => [ReturnEvent(t, s.threads[t].reply)]
    case _ => []
  }

  function History(steps: seq<Step>): seq<Event>
    requires Runs(steps)
  {
    if steps == [] then []
    else History(Front(steps)) + Obs(Exec(Front(steps)), Last(steps))
  }
}
