/** What every interleaving of demoAS calls keeps: where each ticket is, and how many there are. */
module TicketInvariants {
  import opened DemoServer
  import opened TicketProtocol

  /** A Token call that has taken its ticket out and not yet stored the RPT. */
  predicate Holds(pc: Pc) {
    pc.Holding? || pc.RPTDrawn?
  }

  function Holders(threads: map<Tid, Pc>): set<Tid> {
    set t | t in threads && Holds(threads[t])
  }

  /** The id a call in progress has drawn and not yet stored, if any. */
  predicate Pending(pc: Pc) {
    pc.TicketDrawn? || pc.RPTDrawn?
  }

  function PendingId(pc: Pc): string
    requires Pending(pc)
  {
    if pc.TicketDrawn? then pc.id else pc.rpt
  }

  /** A ticket is where its fate says, bound to what it was registered for. */
  predicate AtPlace(s: State, ticket: string, f: Fate) {
    match f.place
    case Outstanding => ticket in s.store.tickets && s.store.tickets[ticket] == f.grant
    case InFlight(t) =>
      t in s.threads && Holds(s.threads[t]) && s.threads[t].ticket == ticket && s.threads[t].grant == f.grant
    case Redeemed(rpt) => rpt in s.store.rpts && s.store.rpts[rpt] == f.grant && rpt in s.origin && s.origin[rpt] == ticket
  }

  /** Every registered ticket is in exactly one place, and nothing else is there. */
  ghost predicate InvPlaces(s: State) {
    && (forall ticket :: ticket in s.fate ==> AtPlace(s, ticket, s.fate[ticket]))
    && (forall ticket :: ticket in s.store.tickets ==> ticket in s.fate && s.fate[ticket].place == Outstanding)
    && (forall t :: t in s.threads && Holds(s.threads[t]) ==>
          s.threads[t].ticket in s.fate && s.fate[s.threads[t].ticket].place == InFlight(t))
    && (forall rpt :: rpt in s.store.rpts ==>
          rpt in s.origin && s.origin[rpt] in s.fate && s.fate[s.origin[rpt]].place == Redeemed(rpt))
  }

  ghost predicate InvIds(s: State) {
    && (forall id :: id in s.drawn ==> IsId(id))
    && (forall id :: id in s.fate ==> id in s.drawn)
    && (forall id :: id in s.store.rpts ==> id in s.drawn)
    && (forall t :: t in s.threads && Pending(s.threads[t]) ==>
          var id := PendingId(s.threads[t]);
          id in s.drawn && s.drawn[id] == t && id !in s.fate && id !in s.store.rpts)
  }

  /** Conservation: |issued| = |outstanding| + |in flight| + |RPTs|. */
  ghost predicate InvCount(s: State) {
    |s.fate| == |s.store.tickets| + |Holders(s.threads)| + |s.store.rpts|
  }

  ghost predicate Inv(s: State) {
    InvPlaces(s) && InvIds(s) && InvCount(s)
  }

  lemma InvInit()
    ensures Inv(INIT)
  {
    assert Holders(INIT.threads) == {};
  }

  /** One call moves: it counts as a holder now, or it did. */
  lemma HoldersMove(threads: map<Tid, Pc>, t: Tid, pc: Pc)
    ensures |Holders(threads[t := pc])| ==
            |Holders(threads)| - (if t in threads && Holds(threads[t]) then 1 else 0) + (if Holds(pc) then 1 else 0)
  {
    var h, h' := Holders(threads), Holders(threads[t := pc]);
    if t in h {
      assert h' == if Holds(pc) then h else h - {t};
    } else {
      assert h' == if Holds(pc) then h + {t} else h;
    }
  }

  /** Moves of calls that hold no ticket and store nothing. */
  lemma IdleKeeps(s: State, s': State, t: Tid, pc: Pc)
    requires Inv(s) && s' == s.(threads := s.threads[t := pc], presented := s'.presented)
    requires t in s.threads ==> !Holds(s.threads[t])
    requires !Holds(pc) && !Pending(pc)
    ensures Inv(s')
  {
    IdlePlaces(s, s', t, pc);
    HoldersMove(s.threads, t, pc);
  }

  lemma IdlePlaces(s: State, s': State, t: Tid, pc: Pc)
    requires InvPlaces(s) && s' == s.(threads := s.threads[t := pc], presented := s'.presented)
    requires t in s.threads ==> !Holds(s.threads[t])
    requires !Holds(pc)
    ensures InvPlaces(s')
  {
  }

  lemma ReturnKeeps(s: State, t: Tid)
    requires Inv(s) && Enabled(s, Return(t))
    ensures Inv(Apply(s, Return(t)))
  {
    ReturnPlaces(s, t);
    assert Holders(s.threads - {t}) == Holders(s.threads);
  }

  lemma ReturnPlaces(s: State, t: Tid)
    requires InvPlaces(s) && Enabled(s, Return(t))
    ensures InvPlaces(Apply(s, Return(t)))
  {
  }

  lemma DrawKeeps(s: State, t: Tid, id: string)
    requires Inv(s) && Enabled(s, Draw(t, id))
    ensures Inv(DoDraw(s, t, id))
  {
    DrawPlaces(s, t, id);
    DrawIds(s, t, id);
    HoldersMove(s.threads, t, DoDraw(s, t, id).threads[t]);
  }

  lemma DrawIds(s: State, t: Tid, id: string)
    requires InvIds(s) && Enabled(s, Draw(t, id))
    ensures InvIds(DoDraw(s, t, id))
  {
  }

  lemma DrawPlaces(s: State, t: Tid, id: string)
    requires InvPlaces(s) && Enabled(s, Draw(t, id))
    ensures InvPlaces(DoDraw(s, t, id))
  {
  }

  lemma RegisterKeeps(s: State, t: Tid)
    requires Inv(s) && Enabled(s, Section(t)) && s.threads[t].TicketDrawn?
    ensures Inv(DoSection(s, t))
  {
    assert PendingId(s.threads[t]) == s.threads[t].id;
    RegisterPlaces(s, t);
    RegisterIds(s, t);
    HoldersMove(s.threads, t, Done(TicketReply(s.threads[t].id)));
  }

  lemma RegisterPlaces(s: State, t: Tid)
    requires InvPlaces(s) && Enabled(s, Section(t)) && s.threads[t].TicketDrawn? && s.threads[t].id !in s.fate
    ensures InvPlaces(DoSection(s, t))
  {
  }

  lemma RegisterIds(s: State, t: Tid)
    requires InvIds(s) && Enabled(s, Section(t)) && s.threads[t].TicketDrawn?
    ensures InvIds(DoSection(s, t))
  {
    assert PendingId(s.threads[t]) == s.threads[t].id;
  }

  ghost predicate Takes(s: State, t: Tid) {
    && t in s.threads && s.threads[t].Called? && s.threads[t].call.Token?
    && s.threads[t].call.ticket in s.store.tickets
  }

  lemma TakeKeeps(s: State, t: Tid)
    requires Inv(s) && Takes(s, t)
    ensures Inv(DoSection(s, t))
  {
    TakePlaces(s, t);
    TakeIds(s, t);
    TakeCount(s, t);
  }

  lemma TakePlaces(s: State, t: Tid)
    requires InvPlaces(s) && Takes(s, t)
    ensures InvPlaces(DoSection(s, t))
  {
  }

  lemma TakeIds(s: State, t: Tid)
    requires InvPlaces(s) && InvIds(s) && Takes(s, t)
    ensures InvIds(DoSection(s, t))
  {
    assert DoSection(s, t).fate.Keys == s.fate.Keys;
  }

  lemma TakeCount(s: State, t: Tid)
    requires InvPlaces(s) && InvCount(s) && Takes(s, t)
    ensures InvCount(DoSection(s, t))
  {
    var s', taken := DoSection(s, t), s.threads[t].call.ticket;
    HoldersMove(s.threads, t, s'.threads[t]);
    assert s.store.tickets.Keys == s'.store.tickets.Keys + {taken};
    assert s'.fate.Keys == s.fate.Keys;
    assert |s'.fate| == |s.fate|;
  }

  ghost predicate Stores(s: State, t: Tid) {
    t in s.threads && s.threads[t].RPTDrawn?
  }

  lemma StoreKeeps(s: State, t: Tid)
    requires Inv(s) && Stores(s, t)
    ensures Inv(DoSection(s, t))
  {
    assert PendingId(s.threads[t]) == s.threads[t].rpt;
    StorePlaces(s, t);
    StoreIds(s, t);
    StoreCount(s, t);
  }

  lemma StorePlaces(s: State, t: Tid)
    requires InvPlaces(s) && Stores(s, t) && s.threads[t].rpt !in s.store.rpts
    ensures InvPlaces(DoSection(s, t))
  {
    var s', ticket := DoSection(s, t), s.threads[t].ticket;
    forall T | T in s'.fate ensures AtPlace(s', T, s'.fate[T]) {
      if T != ticket {
        StoreElsewhere(s, t, T);
      }
    }
  }

  lemma StoreElsewhere(s: State, t: Tid, ticket: string)
    requires InvPlaces(s) && Stores(s, t) && s.threads[t].rpt !in s.store.rpts
    requires ticket in s.fate && ticket != s.threads[t].ticket
    ensures AtPlace(DoSection(s, t), ticket, s.fate[ticket])
  {
    assert AtPlace(s, ticket, s.fate[ticket]);
  }

  lemma StoreIds(s: State, t: Tid)
    requires InvPlaces(s) && InvIds(s) && Stores(s, t)
    ensures InvIds(DoSection(s, t))
  {
    assert PendingId(s.threads[t]) == s.threads[t].rpt;
    assert DoSection(s, t).fate.Keys == s.fate.Keys;
  }

  lemma StoreCount(s: State, t: Tid)
    requires InvPlaces(s) && InvCount(s) && Stores(s, t) && s.threads[t].rpt !in s.store.rpts
    ensures InvCount(DoSection(s, t))
  {
    var s' := DoSection(s, t);
    HoldersMove(s.threads, t, s'.threads[t]);
    assert s'.fate.Keys == s.fate.Keys;
    assert |s'.fate| == |s.fate|;
  }

  lemma SectionKeeps(s: State, t: Tid)
    requires Inv(s) && Enabled(s, Section(t))
    ensures Inv(DoSection(s, t))
  {
    if s.threads[t].TicketDrawn? {
      RegisterKeeps(s, t);
    } else if s.threads[t].RPTDrawn? {
      StoreKeeps(s, t);
    } else if Takes(s, t) {
      TakeKeeps(s, t);
    } else {
      IdleKeeps(s, DoSection(s, t), t, DoSection(s, t).threads[t]);
    }
  }

  lemma StepKeeps(s: State, step: Step)
    requires Inv(s) && Enabled(s, step)
    ensures Inv(Apply(s, step))
  {
    match step
    case Draw(t, id) => DrawKeeps(s, t, id);
    case Section(t) => SectionKeeps(s, t);
    case Invoke(t, c) => IdleKeeps(s, DoInvoke(s, t, c), t, DoInvoke(s, t, c).threads[t]);
    case Return(t) => ReturnKeeps(s, t);
  }

  /** The invariant holds in every state of every run. */
  lemma {:induction false} Reachable(steps: seq<Step>)
    requires Runs(steps)
    ensures Inv(Exec(steps))
  {
    if steps == [] {
      InvInit();
    } else {
      Reachable(Front(steps));
      StepKeeps(Exec(Front(steps)), Last(steps));
    }
  }
}
