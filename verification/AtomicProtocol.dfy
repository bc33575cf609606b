/** scenarioAS under concurrent callers: each call takes effect in one step. */
module AtomicProtocol {
  import opened DemoServer
  import opened ScenarioServer
  import opened TicketProtocol

  datatype APc =
    | ACalled(call: Call)
    | ADone(reply: Reply)

  /** `presented` and `minted` are history: the strings given to Introspect, and which call
      each RPT was made for. */
  datatype AState = AState(st: SStore, threads: map<Tid, APc>, presented: set<string>, minted: map<string, Tid>)

  const AINIT := AState(SEMPTY, map[], {}, map[])

  datatype AStep =
    | AInvoke(t: Tid, call: Call)
    | ARun(t: Tid, id: string)
    | AReturn(t: Tid)

  predicate ANew(a: AState, c: Call, id: string) {
    IsId(id) && id !in a.st.tickets && id !in a.st.rpts && (c.Token? ==> id !in a.presented)
  }

  predicate AEnabled(known: set<string>, a: AState, step: AStep) {
    match step
    case AInvoke(t, _) => t !in a.threads
    case ARun(t, id) =>
      t in a.threads && a.threads[t].ACalled? && (Mints(a.st, known, a.threads[t].call) ==> ANew(a, a.threads[t].call, id))
    case AReturn(t) => t in a.threads && a.threads[t].ADone?
  }

  function AApply(known: set<string>, a: AState, step: AStep): AState
    requires AEnabled(known, a, step)
  {
    match step
    case AInvoke(t, c) =>
      a.(threads := a.threads[t := if Valid(c) then ACalled(c) else ADone(Rejected)],
         presented := if c.Introspect? then a.presented + {c.token} else a.presented)
    case ARun(t, id) =>
      var (st, r) := Atomic(a.st, known, a.threads[t].call, id);
      a.(st := st, threads := a.threads[t := ADone(r)],
         minted := if r.RPTReply? then a.minted[r.token := t] else a.minted)
    case AReturn(t) => a.(threads := a.threads - {t})
  }

  predicate ARuns(known: set<string>, steps: seq<AStep>)
    decreases |steps|, 0
  {
    steps == [] || (ARuns(known, Front(steps)) && AEnabled(known, AExec(known, Front(steps)), Last(steps)))
  }

  function AExec(known: set<string>, steps: seq<AStep>): AState
    requires ARuns(known, steps)
    decreases |steps|, 1
  {
    if steps == [] then AINIT else AApply(known, AExec(known, Front(steps)), Last(steps))
  }

  function AObs(a: AState, step: AStep): seq<Event>
    requires step.AReturn? ==> step.t in a.threads && a.threads[step.t].ADone?
  {
    match step
    case AInvoke(t, c) => [CallEvent(t, c)]
    case ARun(_, _) => []
    case AReturn(t) => [ReturnEvent(t, a.threads[t].reply)]
  }

  function AHistory(known: set<string>, steps: seq<AStep>): seq<Event>
    requires ARuns(known, steps)
  {
    if steps == [] then []
    else AHistory(known, Front(steps)) + AObs(AExec(known, Front(steps)), Last(steps))
  }

  lemma AExtend(known: set<string>, steps: seq<AStep>, step: AStep)
    requires ARuns(known, steps) && AEnabled(known, AExec(known, steps), step)
    ensures ARuns(known, steps + [step])
    ensures AExec(known, steps + [step]) == AApply(known, AExec(known, steps), step)
    ensures AHistory(known, steps + [step]) == AHistory(known, steps) + AObs(AExec(known, steps), step)
  {
    assert Front(steps + [step]) == steps;
  }

  /** Everything the atomic server holds is for a registered resource: where demoAS would
      issue a ticket for any resource, it refuses. */
  lemma {:induction false} OnlyRegistered(known: set<string>, steps: seq<AStep>)
    requires ARuns(known, steps)
    ensures AllRegistered(known, AExec(known, steps).st)
  {
    if steps != [] {
      OnlyRegistered(known, Front(steps));
      StaysRegistered(known, AExec(known, Front(steps)), Last(steps));
    }
  }

  ghost predicate AllRegistered(known: set<string>, st: SStore) {
    && (forall ticket :: ticket in st.tickets ==> st.tickets[ticket].grant.rsid in known)
    && (forall rpt :: rpt in st.rpts ==> st.rpts[rpt].grant.rsid in known)
  }

  lemma StaysRegistered(known: set<string>, a: AState, step: AStep)
    requires AllRegistered(known, a.st) && AEnabled(known, a, step)
    ensures AllRegistered(known, AApply(known, a, step).st)
  {
    if step.ARun? {
      assert AApply(known, a, step).st == Atomic(a.st, known, a.threads[step.t].call, step.id).0;
    }
  }
}
