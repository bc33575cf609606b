/** The two-lock demoAS and the one-lock scenarioAS have the same concurrent histories. */
module Refinement {
  import opened DemoServer
  import opened ScenarioServer
  import opened TicketProtocol
  import opened TicketInvariants
  import opened AtomicProtocol

  /** Nobody introspects an RPT that has been drawn but not yet stored. */
  ghost predicate Unguessed(s: State, step: Step) {
    step.Invoke? && step.call.Introspect? ==>
      forall t :: t in s.threads && s.threads[t].RPTDrawn? ==> s.threads[t].rpt != step.call.token
  }

  ghost predicate Discreet(steps: seq<Step>)
    requires Runs(steps)
  {
    steps == [] || (Discreet(Front(steps)) && Unguessed(Exec(Front(steps)), Last(steps)))
  }

  /** Permissions are asked for registered resources only. */
  ghost predicate RegisteredCalls(known: set<string>, h: seq<Event>) {
    forall k :: 0 <= k < |h| && h[k].CallEvent? ==> Registered(known, h[k].call)
  }

  // What discreet callers keep on top of Inv.

  ghost predicate Side(known: set<string>, s: State) {
    forall t :: t in s.threads ==> SideOf(known, s.presented, s.threads[t])
  }

  predicate SideOf(known: set<string>, presented: set<string>, pc: Pc) {
    && (pc.RPTDrawn? ==> pc.rpt !in presented)
    && (pc.Called? ==>
          && Valid(pc.call) && Registered(known, pc.call)
          && (pc.call.Introspect? ==> pc.call.token in presented))
    && (pc.TicketDrawn? ==> Valid(Permission(pc.grant)) && pc.grant.rsid in known)
  }

  lemma SideStep(known: set<string>, s: State, step: Step)
    requires Side(known, s) && Enabled(s, step) && Unguessed(s, step)
    requires step.Invoke? ==> Registered(known, step.call)
    ensures Side(known, Apply(s, step))
  {
  }

  lemma {:induction false} SideRun(known: set<string>, steps: seq<Step>)
    requires Runs(steps) && Discreet(steps) && RegisteredCalls(known, History(steps))
    ensures Side(known, Exec(steps))
  {
    if steps != [] {
      var h := History(Front(steps));
      assert forall k :: 0 <= k < |h| ==> h[k] == History(steps)[k];
      SideRun(known, Front(steps));
      var step := Last(steps);
      if step.Invoke? { assert History(steps)[|h|] == CallEvent(step.t, step.call); }
      SideStep(known, Exec(Front(steps)), step);
    }
  }

  // The abstraction. A call holding a ticket has, atomically, already been answered with
  // the RPT it has yet to draw: the atomic reply foresees an id that is still fresh.

  predicate RelPc(pc: Pc, apc: APc) {
    match pc
    case Called(c) => apc == ACalled(c)
    case TicketDrawn(g, _) => apc == ACalled(Permission(g))
    case Holding(_, _) => apc.ADone? && apc.reply.RPTReply?
    case RPTDrawn(_, _, rpt) => apc == ADone(RPTReply(rpt))
    case Done(r) => apc == ADone(r)
  }

  ghost predicate RelThreads(s: State, a: AState) {
    && a.presented == s.presented
    && (forall t :: t in a.threads <==> t in s.threads)
    && (forall t :: t in s.threads ==> RelPc(s.threads[t], a.threads[t]))
    && (forall t :: t in s.threads && s.threads[t].Holding? ==> Fresh(s, a.threads[t].reply.token))
  }

  ghost predicate RelTickets(s: State, a: AState) {
    && (forall ticket :: ticket in a.st.tickets <==> ticket in s.fate)
    && (forall ticket :: ticket in s.fate ==>
          a.st.tickets[ticket] == STicket(s.fate[ticket].grant, !s.fate[ticket].place.Outstanding?))
  }

  /** The atomic RPTs are the stored ones and those of the calls holding a ticket. */
  ghost predicate RelRPTs(s: State, a: AState)
    requires RelThreads(s, a)
  {
    && (forall x :: x in a.minted <==> x in a.st.rpts)
    && RelStored(s, a) && RelHeld(s, a) && RelNoMore(s, a)
  }

  ghost predicate RelStored(s: State, a: AState) {
    forall x :: x in s.store.rpts ==>
      && x in a.st.rpts && a.st.rpts[x] == SRPT(s.store.rpts[x], true)
      && x in a.minted && x in s.drawn && a.minted[x] == s.drawn[x]
  }

  ghost predicate RelHeld(s: State, a: AState)
    requires RelThreads(s, a)
  {
    forall t :: t in s.threads && Holds(s.threads[t]) ==>
      var x := a.threads[t].reply.token;
      x in a.st.rpts && a.st.rpts[x] == SRPT(s.threads[t].grant, true) && x in a.minted && a.minted[x] == t
  }

  ghost predicate RelNoMore(s: State, a: AState)
    requires RelThreads(s, a)
  {
    forall x :: x in a.st.rpts && x !in s.store.rpts ==>
      && x in a.minted && a.minted[x] in s.threads && Holds(s.threads[a.minted[x]])
      && a.threads[a.minted[x]].reply.token == x
  }

  ghost predicate Rel(s: State, a: AState) {
    RelThreads(s, a) && RelTickets(s, a) && RelRPTs(s, a)
  }

  // Backward simulation: each demoAS step is undone on the atomic side, the call's one
  // step being its first critical section (Token) or its only one.

  ghost predicate Undoes(known: set<string>, s: State, step: Step, a': AState, a: AState, run: seq<AStep>)
    requires Enabled(s, step)
  {
    && Rel(s, a)
    && |run| <= 1
    && (run == [] ==> a == a' && Obs(s, step) == [])
    && (run != [] ==> AEnabled(known, a, run[0]) && AApply(known, a, run[0]) == a' && AObs(a, run[0]) == Obs(s, step))
  }

  lemma BackInvoke(known: set<string>, s: State, t: Tid, c: Call, a': AState) returns (a: AState, run: seq<AStep>)
    requires Enabled(s, Invoke(t, c)) && Rel(DoInvoke(s, t, c), a')
    ensures Undoes(known, s, Invoke(t, c), a', a, run)
  {
    a, run := a'.(threads := a'.threads - {t}, presented := s.presented), [AInvoke(t, c)];
    InvokeThreads(s, t, c, a', a);
    InvokeRPTs(s, t, c, a', a);
    InvokeRuns(known, s, t, c, a', a);
  }

  lemma InvokeRuns(known: set<string>, s: State, t: Tid, c: Call, a': AState, a: AState)
    requires Enabled(s, Invoke(t, c)) && RelThreads(DoInvoke(s, t, c), a')
    requires a == a'.(threads := a'.threads - {t}, presented := s.presented)
    ensures AEnabled(known, a, AInvoke(t, c)) && AApply(known, a, AInvoke(t, c)) == a'
  {
    var pc := if Valid(c) then Called(c) else Done(Rejected);
    assert DoInvoke(s, t, c).threads[t] == pc && RelPc(pc, a'.threads[t]);
    assert a'.threads == a.threads[t := a'.threads[t]];
  }

  lemma InvokeRPTs(s: State, t: Tid, c: Call, a': AState, a: AState)
    requires Enabled(s, Invoke(t, c)) && Rel(DoInvoke(s, t, c), a') && RelThreads(s, a)
    requires a.threads == a'.threads - {t} && a.st == a'.st && a.minted == a'.minted
    ensures RelRPTs(s, a)
  {
    var s' := DoInvoke(s, t, c);
    forall u | u in s.threads ensures s'.threads[u] == s.threads[u] {
    }
  }

  lemma InvokeThreads(s: State, t: Tid, c: Call, a': AState, a: AState)
    requires Enabled(s, Invoke(t, c)) && RelThreads(DoInvoke(s, t, c), a')
    requires a.threads == a'.threads - {t} && a.presented == s.presented
    ensures RelThreads(s, a)
  {
  }

  lemma BackReturn(known: set<string>, s: State, t: Tid, a': AState) returns (a: AState, run: seq<AStep>)
    requires Enabled(s, Return(t)) && Rel(Apply(s, Return(t)), a')
    ensures Undoes(known, s, Return(t), a', a, run)
  {
    a, run := a'.(threads := a'.threads[t := ADone(s.threads[t].reply)]), [AReturn(t)];
    assert a'.threads == a.threads - {t};
    ReturnRPTs(s, t, a', a);
  }

  lemma ReturnRPTs(s: State, t: Tid, a': AState, a: AState)
    requires Enabled(s, Return(t)) && Rel(Apply(s, Return(t)), a')
    requires a == a'.(threads := a'.threads[t := ADone(s.threads[t].reply)])
    ensures RelThreads(s, a) && RelRPTs(s, a)
  {
    var s' := Apply(s, Return(t));
    assert forall u :: u in s'.threads ==> s'.threads[u] == s.threads[u];
  }

  lemma BackDraw(known: set<string>, s: State, t: Tid, id: string, a': AState) returns (a: AState, run: seq<AStep>)
    requires InvIds(s) && Enabled(s, Draw(t, id)) && Rel(DoDraw(s, t, id), a')
    ensures Undoes(known, s, Draw(t, id), a', a, run)
  {
    a, run := a', [];
    DrawThreads(s, t, id, a');
    DrawRPTs(s, t, id, a');
  }

  lemma DrawThreads(s: State, t: Tid, id: string, a': AState)
    requires Enabled(s, Draw(t, id)) && RelThreads(DoDraw(s, t, id), a')
    ensures RelThreads(s, a')
  {
  }

  lemma DrawRPTs(s: State, t: Tid, id: string, a': AState)
    requires InvIds(s) && Enabled(s, Draw(t, id)) && Rel(DoDraw(s, t, id), a') && RelThreads(s, a')
    ensures RelRPTs(s, a')
  {
    var s' := DoDraw(s, t, id);
    forall u | u in s.threads ensures Holds(s.threads[u]) <==> Holds(s'.threads[u]) {
    }
    assert RelNoMore(s', a');
    DrawStored(s, t, id, a');
    DrawHeld(s, t, id, a');
  }

  lemma DrawStored(s: State, t: Tid, id: string, a': AState)
    requires InvIds(s) && Enabled(s, Draw(t, id)) && RelStored(DoDraw(s, t, id), a')
    ensures RelStored(s, a')
  {
  }

  lemma DrawHeld(s: State, t: Tid, id: string, a': AState)
    requires Enabled(s, Draw(t, id)) && RelThreads(DoDraw(s, t, id), a') && RelHeld(DoDraw(s, t, id), a') && RelThreads(s, a')
    ensures RelHeld(s, a')
  {
    var s' := DoDraw(s, t, id);
    forall u | u in s.threads && Holds(s.threads[u]) ensures Holds(s'.threads[u]) && s'.threads[u].grant == s.threads[u].grant {
    }
  }

  lemma BackRegister(known: set<string>, s: State, t: Tid, a': AState) returns (a: AState, run: seq<AStep>)
    requires InvIds(s) && Side(known, s) && Enabled(s, Section(t)) && s.threads[t].TicketDrawn?
    requires Rel(DoSection(s, t), a')
    ensures Undoes(known, s, Section(t), a', a, run)
  {
    var g, id := s.threads[t].grant, s.threads[t].id;
    run := [ARun(t, id)];
    a := a'.(st := a'.st.(tickets := a'.st.tickets - {id}), threads := a'.threads[t := ACalled(Permission(g))]);
    RegisterRel(s, t, a', a);
    assert PendingId(s.threads[t]) == id;
    assert IsId(id);
    RegisterFresh(s, t, a');
    RegisterRuns(known, a, a', t, g, id);
  }

  lemma RegisterRuns(known: set<string>, a: AState, a': AState, t: Tid, g: Grant, id: string)
    requires a == a'.(st := a'.st.(tickets := a'.st.tickets - {id}), threads := a'.threads[t := ACalled(Permission(g))])
    requires t in a'.threads && a'.threads[t] == ADone(TicketReply(id))
    requires id in a'.st.tickets && a'.st.tickets[id] == STicket(g, false)
    requires IsId(id) && id !in a'.st.rpts && Valid(Permission(g)) && g.rsid in known
    ensures AEnabled(known, a, ARun(t, id)) && AApply(known, a, ARun(t, id)) == a'
  {
    assert a'.st.tickets == a.st.tickets[id := STicket(g, false)];
    assert a'.threads == a.threads[t := ADone(TicketReply(id))];
  }

  lemma RegisterRel(s: State, t: Tid, a': AState, a: AState)
    requires InvIds(s) && Enabled(s, Section(t)) && s.threads[t].TicketDrawn? && Rel(DoSection(s, t), a')
    requires a == a'.(st := a'.st.(tickets := a'.st.tickets - {s.threads[t].id}),
                      threads := a'.threads[t := ACalled(Permission(s.threads[t].grant))])
    ensures Rel(s, a)
  {
    assert PendingId(s.threads[t]) == s.threads[t].id;
    CalledAgain(s, DoSection(s, t), t, a', a);
  }

  /** Undoing the step by which a call that took no ticket got its answer. */
  lemma CalledAgain(s: State, s': State, t: Tid, a': AState, a: AState)
    requires RelThreads(s', a') && RelRPTs(s', a')
    requires t in s.threads && t in s'.threads && s'.threads == s.threads[t := s'.threads[t]] && !Holds(s.threads[t]) && !Holds(s'.threads[t])
    requires t in a.threads && a.threads == a'.threads[t := a.threads[t]] && RelPc(s.threads[t], a.threads[t])
    requires s'.presented == s.presented && s'.drawn == s.drawn && s'.store.rpts == s.store.rpts
    requires a.presented == a'.presented && a.minted == a'.minted && a.st.rpts == a'.st.rpts
    ensures RelThreads(s, a) && RelRPTs(s, a)
  {
    CalledAgainThreads(s, s', t, a', a);
  }

  lemma CalledAgainThreads(s: State, s': State, t: Tid, a': AState, a: AState)
    requires RelThreads(s', a')
    requires t in s.threads && t in s'.threads && s'.threads == s.threads[t := s'.threads[t]] && !Holds(s.threads[t]) && !Holds(s'.threads[t])
    requires t in a.threads && a.threads == a'.threads[t := a.threads[t]] && RelPc(s.threads[t], a.threads[t])
    requires s'.presented == s.presented && s'.drawn == s.drawn && a.presented == a'.presented
    ensures RelThreads(s, a)
  {
  }

  /** The id a Permission call is about to store is new on the atomic side too. */
  lemma RegisterFresh(s: State, t: Tid, a': AState)
    requires InvIds(s) && Enabled(s, Section(t)) && s.threads[t].TicketDrawn?
    requires Rel(DoSection(s, t), a')
    ensures s.threads[t].id !in a'.st.rpts
  {
    assert PendingId(s.threads[t]) == s.threads[t].id;
  }

  ghost predicate OutstandingAt(s: State, ticket: string) {
    ticket in s.fate && ticket in s.store.tickets && s.fate[ticket] == Fate(s.store.tickets[ticket], Outstanding)
  }

  lemma BackTake(known: set<string>, s: State, t: Tid, a': AState) returns (a: AState, run: seq<AStep>)
    requires InvIds(s) && Takes(s, t) && OutstandingAt(s, s.threads[t].call.ticket) && Valid(s.threads[t].call)
    requires Rel(DoSection(s, t), a')
    ensures Undoes(known, s, Section(t), a', a, run)
  {
    var ticket := s.threads[t].call.ticket;
    var g, x := s.store.tickets[ticket], a'.threads[t].reply.token;
    run := [ARun(t, x)];
    a := AState(SStore(a'.st.tickets[ticket := STicket(g, false)], a'.st.rpts - {x}),
                a'.threads[t := ACalled(Token(ticket))], a'.presented, a'.minted - {x});
    TakeThreads(s, t, a', a);
    TakeTickets(s, t, a', a);
    TakeRPTs(s, t, a', a);
    TakeRuns(known, a, a', t, ticket, g, x);
  }

  lemma TakeRuns(known: set<string>, a: AState, a': AState, t: Tid, ticket: string, g: Grant, x: string)
    requires a == AState(SStore(a'.st.tickets[ticket := STicket(g, false)], a'.st.rpts - {x}),
                         a'.threads[t := ACalled(Token(ticket))], a'.presented, a'.minted - {x})
    requires t in a'.threads && a'.threads[t] == ADone(RPTReply(x)) && x in a'.minted && a'.minted[x] == t
    requires ticket in a'.st.tickets && a'.st.tickets[ticket] == STicket(g, true)
    requires x in a'.st.rpts && a'.st.rpts[x] == SRPT(g, true)
    requires ticket != "" && IsId(x) && x !in a'.presented && x !in a'.st.tickets
    ensures AEnabled(known, a, ARun(t, x)) && AApply(known, a, ARun(t, x)) == a'
  {
    assert a'.st.tickets == a.st.tickets[ticket := STicket(g, true)];
    assert a'.st.rpts == a.st.rpts[x := SRPT(g, true)];
    assert a'.threads == a.threads[t := ADone(RPTReply(x))];
    assert a'.minted == a.minted[x := t];
  }

  lemma TakeTickets(s: State, t: Tid, a': AState, a: AState)
    requires Takes(s, t) && OutstandingAt(s, s.threads[t].call.ticket) && RelTickets(DoSection(s, t), a')
    requires var ticket := s.threads[t].call.ticket;
             a.st.tickets == a'.st.tickets[ticket := STicket(s.store.tickets[ticket], false)]
    ensures RelTickets(s, a)
  {
  }

  lemma TakeThreads(s: State, t: Tid, a': AState, a: AState)
    requires Takes(s, t) && RelThreads(DoSection(s, t), a') && a.presented == a'.presented
    requires a.threads == a'.threads[t := ACalled(Token(s.threads[t].call.ticket))]
    ensures RelThreads(s, a)
  {
  }

  lemma TakeRPTs(s: State, t: Tid, a': AState, a: AState)
    requires InvIds(s) && Takes(s, t) && Rel(DoSection(s, t), a') && RelThreads(s, a)
    requires a.threads == a'.threads[t := ACalled(Token(s.threads[t].call.ticket))]
    requires var x := a'.threads[t].reply.token; a.st.rpts == a'.st.rpts - {x} && a.minted == a'.minted - {x}
    ensures RelRPTs(s, a)
  {
    TakeHeld(s, t, a', a);
    TakeNoMore(s, t, a', a);
    assert RelStored(DoSection(s, t), a');
  }

  lemma TakeHeld(s: State, t: Tid, a': AState, a: AState)
    requires Takes(s, t) && RelThreads(DoSection(s, t), a') && RelHeld(DoSection(s, t), a') && RelThreads(s, a)
    requires a.threads == a'.threads[t := ACalled(Token(s.threads[t].call.ticket))]
    requires var x := a'.threads[t].reply.token; a.st.rpts == a'.st.rpts - {x} && a.minted == a'.minted - {x}
    ensures RelHeld(s, a)
  {
    var s' := DoSection(s, t);
    assert Holds(s'.threads[t]);
    forall u | u in s.threads && Holds(s.threads[u]) ensures u != t && s'.threads[u] == s.threads[u] {
    }
  }

  lemma TakeNoMore(s: State, t: Tid, a': AState, a: AState)
    requires Takes(s, t) && RelThreads(DoSection(s, t), a') && RelNoMore(DoSection(s, t), a') && RelThreads(s, a)
    requires a.threads == a'.threads[t := ACalled(Token(s.threads[t].call.ticket))]
    requires var x := a'.threads[t].reply.token; a.st.rpts == a'.st.rpts - {x} && a.minted == a'.minted - {x}
    ensures RelNoMore(s, a)
  {
  }

  lemma BackStore(known: set<string>, s: State, t: Tid, a': AState) returns (a: AState, run: seq<AStep>)
    requires InvIds(s) && Stores(s, t) && Rel(DoSection(s, t), a')
    requires var T := s.threads[t].ticket;
             T in s.fate && s.fate[T] == Fate(s.threads[t].grant, InFlight(t))
    ensures Undoes(known, s, Section(t), a', a, run)
  {
    assert PendingId(s.threads[t]) == s.threads[t].rpt;
    a, run := a', [];
    StoreThreads(s, t, a');
    StoreTickets(s, t, a');
    StoreRPTs(s, t, a');
  }

  lemma StoreTickets(s: State, t: Tid, a': AState)
    requires Stores(s, t) && RelTickets(DoSection(s, t), a')
    requires var T := s.threads[t].ticket;
             T in s.fate && s.fate[T] == Fate(s.threads[t].grant, InFlight(t))
    ensures RelTickets(s, a')
  {
  }

  lemma StoreThreads(s: State, t: Tid, a': AState)
    requires Stores(s, t) && RelThreads(DoSection(s, t), a')
    ensures RelThreads(s, a')
  {
  }

  lemma StoreRPTs(s: State, t: Tid, a': AState)
    requires InvIds(s) && Stores(s, t) && Rel(DoSection(s, t), a') && RelThreads(s, a')
    ensures RelRPTs(s, a')
  {
    assert PendingId(s.threads[t]) == s.threads[t].rpt;
    StoreStored(s, t, a');
    StoreHeld(s, t, a');
    StoreNoMore(s, t, a');
  }

  lemma StoreStored(s: State, t: Tid, a': AState)
    requires Stores(s, t) && s.threads[t].rpt !in s.store.rpts && RelStored(DoSection(s, t), a')
    ensures RelStored(s, a')
  {
    var s' := DoSection(s, t);
    forall x | x in s.store.rpts ensures x in s'.store.rpts && s'.store.rpts[x] == s.store.rpts[x] {
    }
  }

  lemma StoreHeld(s: State, t: Tid, a': AState)
    requires Stores(s, t) && RelThreads(s, a') && s.threads[t].rpt in s.drawn && s.drawn[s.threads[t].rpt] == t
    requires RelThreads(DoSection(s, t), a') && RelStored(DoSection(s, t), a') && RelHeld(DoSection(s, t), a')
    ensures RelHeld(s, a')
  {
    var s', rpt := DoSection(s, t), s.threads[t].rpt;
    assert rpt in s'.store.rpts && a'.threads[t].reply.token == rpt;
    forall u | u in s.threads && u != t ensures s'.threads[u] == s.threads[u] {
    }
  }

  lemma StoreNoMore(s: State, t: Tid, a': AState)
    requires Stores(s, t) && RelThreads(s, a') && s.threads[t].rpt in s.drawn && s.drawn[s.threads[t].rpt] == t
    requires RelThreads(DoSection(s, t), a') && RelStored(DoSection(s, t), a') && RelNoMore(DoSection(s, t), a')
    ensures RelNoMore(s, a')
  {
    var s', rpt := DoSection(s, t), s.threads[t].rpt;
    assert rpt in s'.store.rpts && a'.threads[t].reply.token == rpt;
  }

  /** A refused redemption, or an introspection: the atomic step changes no store. */
  lemma BackRead(known: set<string>, s: State, t: Tid, a': AState) returns (a: AState, run: seq<AStep>)
    requires Side(known, s) && Enabled(s, Section(t)) && s.threads[t].Called?
    requires s.threads[t].call.Token? ==>
               var T := s.threads[t].call.ticket;
               T !in s.store.tickets && (T in s.fate ==> !s.fate[T].place.Outstanding?)
    requires Rel(DoSection(s, t), a')
    ensures Undoes(known, s, Section(t), a', a, run)
  {
    run := [ARun(t, "")];
    a := a'.(threads := a'.threads[t := ACalled(s.threads[t].call)]);
    assert a'.threads == a.threads[t := a'.threads[t]];
    ReadRel(s, t, a', a);
    if s.threads[t].call.Introspect? {
      UnknownToken(known, s, t, a');
    }
  }

  lemma ReadRel(s: State, t: Tid, a': AState, a: AState)
    requires Enabled(s, Section(t)) && s.threads[t].Called? && !Takes(s, t) && Rel(DoSection(s, t), a')
    requires a == a'.(threads := a'.threads[t := ACalled(s.threads[t].call)])
    ensures Rel(s, a)
  {
    var s' := DoSection(s, t);
    assert s' == s.(threads := s.threads[t := s'.threads[t]]) && s'.threads[t].Done?;
    CalledAgain(s, DoSection(s, t), t, a', a);
  }

  /** A presented string is not an RPT some call has drawn, or will draw, but not stored. */
  lemma UnknownToken(known: set<string>, s: State, t: Tid, a': AState)
    requires Side(known, s) && Enabled(s, Section(t)) && s.threads[t].Called? && s.threads[t].call.Introspect?
    requires Rel(DoSection(s, t), a')
    ensures s.threads[t].call.token in a'.st.rpts <==> s.threads[t].call.token in s.store.rpts
  {
  }

  lemma BackStep(known: set<string>, s: State, step: Step, a': AState) returns (a: AState, run: seq<AStep>)
    requires Inv(s) && Side(known, s) && Enabled(s, step) && Rel(Apply(s, step), a')
    ensures Undoes(known, s, step, a', a, run)
  {
    match step
    case Invoke(t, c) => a, run := BackInvoke(known, s, t, c, a');
    case Draw(t, id) => a, run := BackDraw(known, s, t, id, a');
    case Return(t) => a, run := BackReturn(known, s, t, a');
    case Section(t) =>
      if s.threads[t].TicketDrawn? {
        a, run := BackRegister(known, s, t, a');
      } else if s.threads[t].RPTDrawn? {
        a, run := BackStore(known, s, t, a');
      } else if Takes(s, t) {
        a, run := BackTake(known, s, t, a');
      } else {
        a, run := BackRead(known, s, t, a');
      }
  }
}
