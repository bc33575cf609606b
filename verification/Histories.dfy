/** The histories of the two servers under concurrent, discreet callers are the same. */
module Histories {
  import opened DemoServer
  import opened ScenarioServer
  import opened TicketProtocol
  import opened TicketInvariants
  import opened AtomicProtocol
  import opened Refinement

  ghost predicate DemoHistory(h: seq<Event>) {
    exists steps :: Runs(steps) && Discreet(steps) && History(steps) == h
  }

  ghost predicate ScenarioHistory(known: set<string>, h: seq<Event>) {
    exists steps :: ARuns(known, steps) && AHistory(known, steps) == h
  }

  lemma Extend(steps: seq<Step>, step: Step)
    requires Runs(steps) && Enabled(Exec(steps), step)
    ensures Runs(steps + [step])
    ensures Exec(steps + [step]) == Apply(Exec(steps), step)
    ensures History(steps + [step]) == History(steps) + Obs(Exec(steps), step)
    ensures Discreet(steps) && Unguessed(Exec(steps), step) ==> Discreet(steps + [step])
  {
    assert Front(steps + [step]) == steps;
  }

  // Fresh ids never run out.

  lemma {:induction false} LongerThanAll(used: set<string>) returns (n: nat)
    ensures forall u :: u in used ==> |u| <= n
  {
    n := 0;
    if used != {} {
      var u :| u in used;
      n := LongerThanAll(used - {u});
      n := if |u| > n then |u| else n;
    }
  }

  lemma FreshId(used: set<string>) returns (id: string)
    ensures IsId(id) && id !in used
  {
    var n := LongerThanAll(used);
    id := seq(n + 1, _ => 'a');
  }

  // From demoAS to scenarioAS.

  function Waiting(s: State): set<Tid> {
    set t | t in s.threads && s.threads[t].Holding?
  }

  /** Any run can be continued, unobserved, until no call has an RPT still to draw. */
  lemma {:induction false} Settle(steps: seq<Step>) returns (settled: seq<Step>)
    requires Runs(steps) && Discreet(steps)
    ensures Runs(settled) && Discreet(settled) && History(settled) == History(steps)
    ensures Waiting(Exec(settled)) == {}
    decreases |Waiting(Exec(steps))|
  {
    var s := Exec(steps);
    if Waiting(s) == {} {
      settled := steps;
    } else {
      var t :| t in Waiting(s);
      var id := FreshId(s.drawn.Keys + s.presented);
      Extend(steps, Draw(t, id));
      assert Waiting(DoDraw(s, t, id)) == Waiting(s) - {t};
      settled := Settle(steps + [Draw(t, id)]);
    }
  }

  predicate InFlightRPT(s: State, x: string) {
    x in s.drawn && s.drawn[x] in s.threads && s.threads[s.drawn[x]].RPTDrawn? && s.threads[s.drawn[x]].rpt == x
  }

  function Abstract(s: State): AState
    requires Waiting(s) == {}
  {
    assert forall t :: t in s.threads ==> t in Waiting(s) || !s.threads[t].Holding?;
    var tickets := map T | T in s.fate :: STicket(s.fate[T].grant, !s.fate[T].place.Outstanding?);
    var stored := map x | x in s.store.rpts :: SRPT(s.store.rpts[x], true);
    var flying := map x | x in s.drawn.Keys && InFlightRPT(s, x) :: SRPT(s.threads[s.drawn[x]].grant, true);
    var threads := map t | t in s.threads :: match s.threads[t]
                     case Called(c) => ACalled(c)
                     case TicketDrawn(g, _) => ACalled(Permission(g))
                     case RPTDrawn(_, _, rpt) => ADone(RPTReply(rpt))
                     case Done(r) => ADone(r)
                     case Holding(_, _) => ADone(Inactive);
    AState(SStore(tickets, flying + stored), threads, s.presented,
           map x | x in s.drawn.Keys && (x in s.store.rpts || InFlightRPT(s, x)) :: s.drawn[x])
  }

  lemma AbstractRelated(s: State)
    requires InvIds(s) && Waiting(s) == {}
    ensures Rel(s, Abstract(s))
  {
    var a := Abstract(s);
    AbstractThreads(s);
    assert RelTickets(s, a);
    AbstractRPTs(s);
  }

  lemma AbstractRPTs(s: State)
    requires InvIds(s) && Waiting(s) == {} && RelThreads(s, Abstract(s))
    ensures RelRPTs(s, Abstract(s))
  {
    forall t | t in s.threads && Holds(s.threads[t]) ensures Flies(s, t) {
      HoldersFly(s, t);
    }
    AbstractStored(s);
    AbstractHeld(s);
    AbstractNoMore(s);
  }

  /** Call t is about to store the RPT it has drawn. */
  ghost predicate Flies(s: State, t: Tid) {
    && t in s.threads && s.threads[t].RPTDrawn? && s.threads[t].rpt !in s.store.rpts
    && InFlightRPT(s, s.threads[t].rpt) && s.drawn[s.threads[t].rpt] == t
  }

  lemma HoldersFly(s: State, t: Tid)
    requires InvIds(s) && Waiting(s) == {} && t in s.threads && Holds(s.threads[t])
    ensures Flies(s, t)
  {
    assert t !in Waiting(s);
    assert PendingId(s.threads[t]) == s.threads[t].rpt;
  }

  lemma AbstractStored(s: State)
    requires InvIds(s) && Waiting(s) == {}
    ensures RelStored(s, Abstract(s))
  {
  }

  lemma AbstractHeld(s: State)
    requires Waiting(s) == {} && RelThreads(s, Abstract(s))
    requires forall t :: t in s.threads && Holds(s.threads[t]) ==> Flies(s, t)
    ensures RelHeld(s, Abstract(s))
  {
  }

  lemma AbstractNoMore(s: State)
    requires Waiting(s) == {} && RelThreads(s, Abstract(s))
    ensures RelNoMore(s, Abstract(s))
  {
  }

  lemma AbstractThreads(s: State)
    requires Waiting(s) == {}
    ensures RelThreads(s, Abstract(s)) && forall t :: t in s.threads ==> !s.threads[t].Holding?
  {
    forall t | t in s.threads ensures !s.threads[t].Holding? {
      assert t !in Waiting(s);
    }
  }

  lemma {:induction false} Backward(known: set<string>, steps: seq<Step>, a: AState) returns (run: seq<AStep>)
    requires Runs(steps) && Discreet(steps) && RegisteredCalls(known, History(steps))
    requires Rel(Exec(steps), a)
    ensures ARuns(known, run) && AExec(known, run) == a && AHistory(known, run) == History(steps)
  {
    if steps == [] {
      run := [];
      assert a == AINIT;
    } else {
      var front := Front(steps);
      CallsBefore(known, steps);
      Reachable(front);
      SideRun(known, front);
      var a0, last := BackStep(known, Exec(front), Last(steps), a);
      run := Backward(known, front, a0);
      run := Redone(known, Exec(front), History(front), Last(steps), a0, a, run, last);
    }
  }

  lemma CallsBefore(known: set<string>, steps: seq<Step>)
    requires Runs(steps) && steps != [] && RegisteredCalls(known, History(steps))
    ensures RegisteredCalls(known, History(Front(steps)))
  {
    var h := History(Front(steps));
    assert forall k :: 0 <= k < |h| ==> h[k] == History(steps)[k];
  }

  /** What was undone, done after a run of the atomic server. */
  lemma Redone(known: set<string>, s: State, h: seq<Event>, step: Step, a0: AState, a: AState, run: seq<AStep>, last: seq<AStep>)
    returns (longer: seq<AStep>)
    requires Enabled(s, step) && Undoes(known, s, step, a, a0, last)
    requires ARuns(known, run) && AExec(known, run) == a0 && AHistory(known, run) == h
    ensures ARuns(known, longer) && AExec(known, longer) == a && AHistory(known, longer) == h + Obs(s, step)
  {
    longer := run;
    if last != [] {
      AExtend(known, run, last[0]);
      longer := run + [last[0]];
    } else {
      assert h + [] == h;
    }
  }

  /** Every concurrent history of the two-lock server is one of the atomic server. */
  lemma DemoIsAtomic(known: set<string>, steps: seq<Step>)
    requires Runs(steps) && Discreet(steps) && RegisteredCalls(known, History(steps))
    ensures ScenarioHistory(known, History(steps))
  {
    var settled := Settle(steps);
    Reachable(settled);
    AbstractRelated(Exec(settled));
    var run := Backward(known, settled, Abstract(Exec(settled)));
  }

  // And back: an atomic step is a demoAS call run without interruption.

  ghost predicate Calm(known: set<string>, s: State, a: AState) {
    && (forall t :: t in s.threads <==> t in a.threads)
    && (forall t :: t in s.threads ==>
          match a.threads[t]
          case ACalled(c) => s.threads[t] == Called(c) && Valid(c) && Registered(known, c)
          case ADone(r) => s.threads[t] == Done(r))
    && Sim(s.store, a.st)
    && s.presented == a.presented
    && s.drawn.Keys == a.st.tickets.Keys + a.st.rpts.Keys
  }

  lemma CalmInvoke(known: set<string>, s: State, a: AState, t: Tid, c: Call)
    requires Calm(known, s, a) && AEnabled(known, a, AInvoke(t, c)) && Registered(known, c)
    ensures Enabled(s, Invoke(t, c)) && Unguessed(s, Invoke(t, c))
    ensures Calm(known, DoInvoke(s, t, c), AApply(known, a, AInvoke(t, c)))
  {
  }

  lemma CalmReturn(known: set<string>, s: State, a: AState, t: Tid)
    requires Calm(known, s, a) && AEnabled(known, a, AReturn(t))
    ensures Enabled(s, Return(t)) && Obs(s, Return(t)) == AObs(a, AReturn(t))
    ensures Calm(known, Apply(s, Return(t)), AApply(known, a, AReturn(t)))
  {
  }

  /** The demoAS steps that make up one uninterrupted call. */
  function Script(s: State, t: Tid, id: string): seq<Step>
    requires t in s.threads && s.threads[t].Called?
  {
    match s.threads[t].call
    case Permission(_) => [Draw(t, id), Section(t)]
    case Token(ticket) => if ticket in s.store.tickets then [Section(t), Draw(t, id), Section(t)] else [Section(t)]
    case Introspect(_) => [Section(t)]
  }

  ghost predicate Mint(s: State, t: Tid)
    requires t in s.threads && s.threads[t].Called?
  {
    s.threads[t].call.Permission? || (s.threads[t].call.Token? && s.threads[t].call.ticket in s.store.tickets)
  }

  /** What an uninterrupted call leaves behind: what the sequential server would. */
  ghost predicate Ran(s: State, t: Tid, id: string, s': State)
    requires t in s.threads && s.threads[t].Called?
  {
    && s'.store == Alone(s.store, s.threads[t].call, id).0
    && s'.threads == s.threads[t := Done(Alone(s.store, s.threads[t].call, id).1)]
    && s'.presented == s.presented
    && s'.drawn.Keys == s.drawn.Keys + if Mint(s, t) then {id} else {}
  }

  lemma RunPermission(s: State, t: Tid, id: string)
    requires t in s.threads && s.threads[t].Called? && s.threads[t].call.Permission? && Valid(s.threads[t].call)
    requires New(s, id)
    ensures Enabled(s, Draw(t, id)) && Enabled(DoDraw(s, t, id), Section(t))
    ensures Ran(s, t, id, DoSection(DoDraw(s, t, id), t))
  {
    var s1 := DoDraw(s, t, id);
    assert s1.threads[t] == TicketDrawn(s.threads[t].call.grant, id);
    assert DoSection(s1, t).threads == s.threads[t := Done(TicketReply(id))];
  }

  lemma RunToken(s: State, t: Tid, id: string)
    requires Takes(s, t) && Valid(s.threads[t].call) && Fresh(s, id)
    ensures Enabled(s, Section(t)) && Enabled(DoSection(s, t), Draw(t, id))
    ensures Enabled(DoDraw(DoSection(s, t), t, id), Section(t))
    ensures Ran(s, t, id, DoSection(DoDraw(DoSection(s, t), t, id), t))
  {
    var g := s.store.tickets[s.threads[t].call.ticket];
    var s1 := DoSection(s, t);
    var s2 := DoDraw(s1, t, id);
    assert s2.threads[t] == RPTDrawn(s.threads[t].call.ticket, g, id);
    assert DoSection(s2, t).threads == s.threads[t := Done(RPTReply(id))];
  }

  /** A run with this history so far that ends here. */
  ghost predicate Now(steps: seq<Step>, h: seq<Event>, s: State) {
    Runs(steps) && Discreet(steps) && History(steps) == h && Exec(steps) == s
  }

  /** A step nobody observes. */
  lemma Quiet(steps: seq<Step>, h: seq<Event>, s: State, step: Step)
    requires Now(steps, h, s) && Enabled(s, step) && (step.Draw? || step.Section?)
    ensures Now(steps + [step], h, Apply(s, step))
  {
    Extend(steps, step);
    assert h + [] == h;
  }

  lemma QuietTwo(steps: seq<Step>, h: seq<Event>, s: State, x: Step, y: Step)
    requires Now(steps, h, s) && Enabled(s, x) && (x.Draw? || x.Section?)
    requires Enabled(Apply(s, x), y) && (y.Draw? || y.Section?)
    ensures Now(steps + [x, y], h, Apply(Apply(s, x), y))
  {
    Quiet(steps, h, s, x);
    Quiet(steps + [x], h, Apply(s, x), y);
    assert steps + [x] + [y] == steps + [x, y];
  }

  lemma QuietThree(steps: seq<Step>, h: seq<Event>, s: State, x: Step, y: Step, z: Step)
    requires Now(steps, h, s) && Enabled(s, x) && (x.Draw? || x.Section?)
    requires Enabled(Apply(s, x), y) && (y.Draw? || y.Section?)
    requires Enabled(Apply(Apply(s, x), y), z) && (z.Draw? || z.Section?)
    ensures Now(steps + [x, y, z], h, Apply(Apply(Apply(s, x), y), z))
  {
    QuietTwo(steps, h, s, x, y);
    Quiet(steps + [x, y], h, Apply(Apply(s, x), y), z);
    assert steps + [x, y] + [z] == steps + [x, y, z];
  }

  lemma RunScript(steps: seq<Step>, h: seq<Event>, s: State, t: Tid, id: string)
    requires Now(steps, h, s) && t in s.threads && s.threads[t].Called? && Valid(s.threads[t].call)
    requires Mint(s, t) ==> if Takes(s, t) then Fresh(s, id) else New(s, id)
    ensures exists s' :: Now(steps + Script(s, t, id), h, s') && Ran(s, t, id, s')
  {
    if s.threads[t].call.Permission? {
      RunPermission(s, t, id);
      QuietTwo(steps, h, s, Draw(t, id), Section(t));
    } else if Takes(s, t) {
      RunToken(s, t, id);
      QuietThree(steps, h, s, Section(t), Draw(t, id), Section(t));
    } else {
      Quiet(steps, h, s, Section(t));
      assert Ran(s, t, id, DoSection(s, t));
    }
  }

  lemma CalmRun(known: set<string>, steps: seq<Step>, a: AState, t: Tid, id: string)
    requires Runs(steps) && Discreet(steps) && Calm(known, Exec(steps), a) && AEnabled(known, a, ARun(t, id))
    ensures var all := steps + Script(Exec(steps), t, id);
            && Runs(all) && Discreet(all) && History(all) == History(steps)
            && Calm(known, Exec(all), AApply(known, a, ARun(t, id)))
  {
    var s, h := Exec(steps), History(steps);
    RunScript(steps, h, s, t, id);
    var s' :| Now(steps + Script(s, t, id), h, s') && Ran(s, t, id, s');
    CalmAfter(known, s, s', a, t, id);
  }

  lemma CalmAfter(known: set<string>, s: State, s': State, a: AState, t: Tid, id: string)
    requires Calm(known, s, a) && AEnabled(known, a, ARun(t, id)) && t in s.threads && s.threads[t].Called? && Ran(s, t, id, s')
    ensures Calm(known, s', AApply(known, a, ARun(t, id)))
  {
    var c := a.threads[t].call;
    SameReply(s.store, a.st, known, c, id);
    assert AApply(known, a, ARun(t, id)).threads[t] == ADone(Alone(s.store, c, id).1);
  }

  lemma {:induction false} Forwards(known: set<string>, run: seq<AStep>) returns (steps: seq<Step>)
    requires ARuns(known, run) && RegisteredCalls(known, AHistory(known, run))
    ensures Runs(steps) && Discreet(steps) && Calm(known, Exec(steps), AExec(known, run))
    ensures History(steps) == AHistory(known, run)
  {
    if run == [] {
      steps := [];
    } else {
      var front := Front(run);
      var a, h := AExec(known, front), AHistory(known, front);
      assert forall k :: 0 <= k < |h| ==> h[k] == AHistory(known, run)[k];
      steps := Forwards(known, front);
      match Last(run)
      case AInvoke(t, c) =>
        assert AHistory(known, run)[|h|] == CallEvent(t, c);
        CalmInvoke(known, Exec(steps), a, t, c);
        Extend(steps, Invoke(t, c));
        steps := steps + [Invoke(t, c)];
      case AReturn(t) =>
        CalmReturn(known, Exec(steps), a, t);
        Extend(steps, Return(t));
        steps := steps + [Return(t)];
      case ARun(t, id) =>
        CalmRun(known, steps, a, t, id);
        steps := steps + Script(Exec(steps), t, id);
    }
  }

  /** Main result: under callers that introspect no id before it is stored, and ask only for
      registered resources, the two servers have exactly the same concurrent histories. */
  lemma SameHistories(known: set<string>, h: seq<Event>)
    requires RegisteredCalls(known, h)
    ensures DemoHistory(h) <==> ScenarioHistory(known, h)
  {
    if DemoHistory(h) {
      var steps :| Runs(steps) && Discreet(steps) && History(steps) == h;
      DemoIsAtomic(known, steps);
    }
    if ScenarioHistory(known, h) {
      var run :| ARuns(known, run) && AHistory(known, run) == h;
      var steps := Forwards(known, run);
    }
  }
}
