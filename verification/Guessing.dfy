/** Why callers must not introspect an id before it is stored: one who guesses the RPT of a
    call in progress sees the two critical sections of Token. */
module Guessing {
  import opened DemoServer
  import opened TicketProtocol
  import opened AtomicProtocol
  import opened Histories

  const T := "a"
  const X := "b"

  /** Caller 1 redeems the ticket; caller 2, refused it, has already returned when caller 3
      asks about caller 1's RPT and finds it inactive. */
  function Opening(g: Grant): seq<Event> {
    [CallEvent(0, Permission(g)), ReturnEvent(0, TicketReply(T)),
     CallEvent(1, Token(T)),
     CallEvent(2, Token(T)), ReturnEvent(2, InvalidGrant),
     CallEvent(3, Introspect(X)), ReturnEvent(3, Inactive)]
  }

  /** Then caller 1 gets that RPT. */
  function Trace(g: Grant): seq<Event> {
    Opening(g) + [ReturnEvent(1, RPTReply(X))]
  }

  /** Or caller 1 is not answered at all, but caller 4 finds the RPT active. */
  function Reported(g: Grant): seq<Event> {
    Opening(g) + [CallEvent(4, Introspect(X)), ReturnEvent(4, Active(g))]
  }

  lemma Step1(steps: seq<Step>, step: Step) returns (longer: seq<Step>)
    requires Runs(steps) && Enabled(Exec(steps), step)
    ensures longer == steps + [step] && Runs(longer) && Exec(longer) == Apply(Exec(steps), step)
    ensures History(longer) == History(steps) + Obs(Exec(steps), step)
  {
    Extend(steps, step);
    longer := steps + [step];
  }

  lemma Prologue(g: Grant) returns (steps: seq<Step>)
    requires Valid(Permission(g))
    ensures Runs(steps) && History(steps) == Opening(g)[..2]
    ensures Reached(Exec(steps), Store(map[T := g], map[]), map[])
  {
    RegisterStates(INIT, 0, g, T);
    steps := Step1([], Invoke(0, Permission(g)));
    steps := Step1(steps, Draw(0, T));
    steps := Step1(steps, Section(0));
    steps := Step1(steps, Return(0));
  }

  lemma RegisterStates(s: State, t: Tid, g: Grant, id: string)
    requires t !in s.threads && Valid(Permission(g)) && New(s, id)
    ensures Enabled(s, Invoke(t, Permission(g)))
    ensures var s1 := DoInvoke(s, t, Permission(g)); Enabled(s1, Draw(t, id)) && s1.threads[t] == Called(Permission(g))
    ensures var s2 := DoDraw(DoInvoke(s, t, Permission(g)), t, id); Enabled(s2, Section(t)) && s2.threads[t] == TicketDrawn(g, id)
    ensures var s3 := DoSection(DoDraw(DoInvoke(s, t, Permission(g)), t, id), t);
            && Enabled(s3, Return(t)) && Obs(s3, Return(t)) == [ReturnEvent(t, TicketReply(id))]
            && var s4 := Apply(s3, Return(t));
               && s4.threads == s.threads && s4.store == PutTicket(s.store, id, g)
               && s4.drawn.Keys == s.drawn.Keys + {id} && s4.presented == s.presented
  {
    assert DoInvoke(s, t, Permission(g)).threads[t] == Called(Permission(g));
  }

  ghost predicate Reached(s: State, store: Store, threads: map<Tid, Pc>) {
    s.store == store && s.threads == threads && s.drawn.Keys == {T} && s.presented == {}
  }

  lemma Taken(g: Grant, before: seq<Step>) returns (steps: seq<Step>)
    requires Runs(before) && History(before) == Opening(g)[..2] && Reached(Exec(before), Store(map[T := g], map[]), map[])
    ensures Runs(steps) && History(steps) == Opening(g)[..3]
    ensures Reached(Exec(steps), Store(map[], map[]), map[1 := Holding(T, g)])
  {
    steps := Step1(before, Invoke(1, Token(T)));
    steps := Step1(steps, Section(1));
    assert Exec(steps).store.tickets == map[];
  }

  lemma Refused(g: Grant, before: seq<Step>) returns (steps: seq<Step>)
    requires Runs(before) && History(before) == Opening(g)[..3]
    requires Reached(Exec(before), Store(map[], map[]), map[1 := Holding(T, g)])
    ensures Runs(steps) && History(steps) == Opening(g)[..5]
    ensures Reached(Exec(steps), Store(map[], map[]), map[1 := Holding(T, g)])
  {
    RefusedStates(Exec(before), 2, T);
    steps := Step1(before, Invoke(2, Token(T)));
    steps := Step1(steps, Section(2));
    steps := Step1(steps, Return(2));
  }

  lemma RefusedStates(s: State, t: Tid, ticket: string)
    requires t !in s.threads && ticket != "" && ticket !in s.store.tickets
    ensures Enabled(s, Invoke(t, Token(ticket)))
    ensures var s1 := DoInvoke(s, t, Token(ticket)); Enabled(s1, Section(t)) && s1.threads[t] == Called(Token(ticket))
    ensures var s2 := DoSection(DoInvoke(s, t, Token(ticket)), t);
            && Enabled(s2, Return(t)) && Obs(s2, Return(t)) == [ReturnEvent(t, InvalidGrant)]
            && Apply(s2, Return(t)) == s
  {
    var s2 := DoSection(DoInvoke(s, t, Token(ticket)), t);
    assert Apply(s2, Return(t)).threads == s.threads;
  }

  /** Caller t asks about x and is told what the store says now. */
  lemma Asks(before: seq<Step>, t: Tid, x: string) returns (steps: seq<Step>)
    requires Runs(before) && t !in Exec(before).threads && x != ""
    ensures Runs(steps)
    ensures History(steps) == History(before) + [CallEvent(t, Introspect(x)), ReturnEvent(t, Look(Exec(before).store, x))]
    ensures Exec(steps).threads == Exec(before).threads && Exec(steps).store == Exec(before).store
  {
    AskStates(Exec(before), t, x);
    steps := Step1(before, Invoke(t, Introspect(x)));
    steps := Step1(steps, Section(t));
    steps := Step1(steps, Return(t));
  }

  lemma AskStates(s: State, t: Tid, x: string)
    requires t !in s.threads && x != ""
    ensures Enabled(s, Invoke(t, Introspect(x)))
    ensures var s1 := DoInvoke(s, t, Introspect(x)); Enabled(s1, Section(t)) && Obs(s1, Section(t)) == []
    ensures var s2 := DoSection(DoInvoke(s, t, Introspect(x)), t);
            && Enabled(s2, Return(t)) && Obs(s2, Return(t)) == [ReturnEvent(t, Look(s.store, x))]
            && Apply(s2, Return(t)).threads == s.threads && Apply(s2, Return(t)).store == s.store
  {
    assert DoInvoke(s, t, Introspect(x)).threads[t] == Called(Introspect(x));
  }

  lemma Guessed(g: Grant, before: seq<Step>) returns (steps: seq<Step>)
    requires Runs(before) && History(before) == Opening(g)[..5]
    requires Reached(Exec(before), Store(map[], map[]), map[1 := Holding(T, g)])
    ensures Runs(steps) && History(steps) == Opening(g)
    ensures Exec(steps).threads == map[1 := RPTDrawn(T, g, X)]
  {
    steps := Step1(before, Draw(1, X));
    assert Exec(steps).threads == map[1 := RPTDrawn(T, g, X)];
    steps := Asks(steps, 3, X);
  }

  lemma Answered(g: Grant, before: seq<Step>) returns (steps: seq<Step>)
    requires Runs(before) && History(before) == Opening(g)
    requires Exec(before).threads == map[1 := RPTDrawn(T, g, X)]
    ensures Runs(steps) && History(steps) == Trace(g)
  {
    steps := Step1(before, Section(1));
    steps := Step1(steps, Return(1));
  }

  lemma FoundActive(g: Grant, before: seq<Step>) returns (steps: seq<Step>)
    requires Runs(before) && History(before) == Opening(g)
    requires Exec(before).threads == map[1 := RPTDrawn(T, g, X)]
    ensures Runs(steps) && History(steps) == Reported(g)
  {
    steps := Step1(before, Section(1));
    assert Exec(steps).store.rpts[X] == g;
    steps := Asks(steps, 4, X);
  }

  /** demoAS shows both. */
  lemma DemoShows(g: Grant)
    requires Valid(Permission(g))
    ensures exists steps :: Runs(steps) && History(steps) == Trace(g)
    ensures exists steps :: Runs(steps) && History(steps) == Reported(g)
  {
    var steps := Prologue(g);
    steps := Taken(g, steps);
    steps := Refused(g, steps);
    steps := Guessed(g, steps);
    var answered := Answered(g, steps);
    var found := FoundActive(g, steps);
  }

  ghost predicate Shown(g: Grant, all: seq<Event>) {
    all == Trace(g) || all == Reported(g)
  }

  /** What any atomic run showing the first k events must look like. */
  ghost predicate Forced(g: Grant, all: seq<Event>, a: AState, k: nat) {
    && k < |all|
    && (forall t :: t in a.threads ==> t <= 4)
    && (0 in a.threads <==> k == 1) && (1 in a.threads <==> k >= 3) && (2 in a.threads <==> k == 4)
    && (3 in a.threads <==> k == 6) && (4 in a.threads <==> k == 8)
    && (0 in a.threads ==> a.threads[0] == ACalled(Permission(g)) || (a.threads[0].ADone? && ReplyIn(a, a.threads[0].reply)))
    && (1 in a.threads ==> Redeems(a, 1))
    && (2 in a.threads ==> Redeems(a, 2))
    && (3 in a.threads ==> a.threads[3] == ACalled(Introspect(X)) || a.threads[3].ADone?)
    && (4 in a.threads ==> a.threads[4] == ACalled(Introspect(X)) || a.threads[4] == ADone(Inactive))
    && (k >= 2 ==> T in a.st.tickets)
    && (k <= 2 ==> forall x :: x in a.st.tickets ==> !a.st.tickets[x].consumed)
    && (k == 2 || k == 3 || k == 4 ==>
          a.st.tickets[T].consumed ==> Redeemed1(a, 1) || Redeemed1(a, 2))
    && (k >= 5 ==> Redeemed1(a, 1))
    && (forall x :: x in a.st.rpts ==> RPTOf(a, 1, x) || RPTOf(a, 2, x))
    && (k >= 7 || (k == 6 && a.threads[3] == ADone(Inactive)) ==> a.threads[1].reply.token != X)
  }

  ghost predicate RPTOf(a: AState, t: Tid, x: string) {
    Redeemed1(a, t) && a.threads[t].reply.token == x
  }

  /** A reply that names a ticket or RPT names a stored one. */
  ghost predicate ReplyIn(a: AState, r: Reply) {
    r.TicketReply? ==> r.ticket in a.st.tickets
  }

  ghost predicate Redeemed1(a: AState, t: Tid) {
    t in a.threads && a.threads[t].ADone? && a.threads[t].reply.RPTReply?
    && a.threads[t].reply.token in a.st.rpts && a.st.rpts[a.threads[t].reply.token].active
  }

  ghost predicate Redeems(a: AState, t: Tid) {
    t in a.threads
    && (a.threads[t] == ACalled(Token(T)) || Redeemed1(a, t)
        || (a.threads[t] == ADone(InvalidGrant) && (T in a.st.tickets ==> a.st.tickets[T].consumed)))
  }

  lemma ForcedRun(known: set<string>, g: Grant, all: seq<Event>, a: AState, t: Tid, id: string, k: nat)
    requires Forced(g, all, a, k) && AEnabled(known, a, ARun(t, id))
    ensures Forced(g, all, AApply(known, a, ARun(t, id)), k)
  {
  }

  lemma ForcedCall(known: set<string>, g: Grant, all: seq<Event>, a: AState, t: Tid, c: Call, k: nat)
    requires Valid(Permission(g)) && Shown(g, all) && Forced(g, all, a, k) && AEnabled(known, a, AInvoke(t, c))
    requires k < |all| && all[k] == CallEvent(t, c)
    ensures Forced(g, all, AApply(known, a, AInvoke(t, c)), k + 1)
  {
  }

  lemma ForcedReturn(known: set<string>, g: Grant, all: seq<Event>, a: AState, t: Tid, k: nat)
    requires Shown(g, all) && Forced(g, all, a, k) && AEnabled(known, a, AReturn(t))
    requires k < |all| && all[k] == ReturnEvent(t, a.threads[t].reply)
    ensures Forced(g, all, AApply(known, a, AReturn(t)), k + 1)
  {
  }

  lemma {:induction false} AlwaysForced(known: set<string>, g: Grant, all: seq<Event>, run: seq<AStep>)
    requires Valid(Permission(g)) && Shown(g, all) && ARuns(known, run) && AHistory(known, run) <= all
    ensures Forced(g, all, AExec(known, run), |AHistory(known, run)|)
  {
    if run != [] {
      var front := Front(run);
      var h := AHistory(known, front);
      assert h <= AHistory(known, run);
      AlwaysForced(known, g, all, front);
      var a := AExec(known, front);
      match Last(run)
      case ARun(t, id) => ForcedRun(known, g, all, a, t, id, |h|);
      case AInvoke(t, c) =>
        assert AHistory(known, run)[|h|] == CallEvent(t, c);
        ForcedCall(known, g, all, a, t, c, |h|);
      case AReturn(t) =>
        assert AHistory(known, run)[|h|] == ReturnEvent(t, a.threads[t].reply);
        ForcedReturn(known, g, all, a, t, |h|);
    }
  }

  /** And no atomic server shows either. */
  lemma ScenarioNeverShows(known: set<string>, g: Grant, all: seq<Event>)
    requires Valid(Permission(g)) && Shown(g, all)
    ensures !ScenarioHistory(known, all)
  {
    if ScenarioHistory(known, all) {
      var run :| ARuns(known, run) && AHistory(known, run) == all;
      AlwaysForced(known, g, all, run);
    }
  }
}
