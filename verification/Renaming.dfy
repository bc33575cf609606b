/** The two servers have the same histories under a condition on the history alone: no caller
    makes a lucky guess. An RPT that was guessed at and never reported might as well have been
    another, so the run can be told again with a different id in its place. */
module Renaming {
  import opened DemoServer
  import opened TicketProtocol
  import opened TicketInvariants
  import opened Refinement
  import opened Histories

  // Guesses.

  /** Token has returned x before event k. */
  ghost predicate Returned(h: seq<Event>, k: nat, x: string)
    requires k <= |h|
  {
    exists i :: 0 <= i < k && h[i].ReturnEvent? && h[i].reply == RPTReply(x)
  }

  /** Somebody introspects x that Token has not returned. */
  ghost predicate Guess(h: seq<Event>, x: string) {
    exists k :: 0 <= k < |h| && h[k].CallEvent? && h[k].call == Introspect(x) && !Returned(h, k, x)
  }

  /** Caller t's call c is not answered yet. */
  ghost predicate Open(h: seq<Event>, t: Tid, c: Call) {
    exists k :: 0 <= k < |h| && h[k] == CallEvent(t, c) && forall j :: k < j < |h| ==> h[j].t != t
  }

  /** Event j tells that x is an RPT: it is Token's reply, or x is introspected as active. */
  ghost predicate Reports(h: seq<Event>, j: nat, x: string) {
    && j < |h| && h[j].ReturnEvent?
    && (h[j].reply == RPTReply(x) || (h[j].reply.Active? && Open(h[..j], h[j].t, Introspect(x))))
  }

  ghost predicate NoLuckyGuess(h: seq<Event>) {
    forall j, x :: Reports(h, j, x) ==> !Guess(h, x)
  }

  lemma OpenExtends(h: seq<Event>, e: Event, t: Tid, c: Call)
    requires Open(h, t, c) && e.t != t
    ensures Open(h + [e], t, c)
  {
    var k :| 0 <= k < |h| && h[k] == CallEvent(t, c) && forall j :: k < j < |h| ==> h[j].t != t;
    assert (h + [e])[k] == h[k];
  }

  lemma OpenBegins(h: seq<Event>, t: Tid, c: Call)
    ensures Open(h + [CallEvent(t, c)], t, c)
  {
    assert (h + [CallEvent(t, c)])[|h|] == CallEvent(t, c);
  }

  // What a run keeps of its history, n being longer than every id and token in it.

  ghost predicate TracksCall(h: seq<Event>, rpts: set<string>, n: nat, t: Tid, pc: Pc) {
    && (pc.Called? ==> Open(h, t, pc.call) && (pc.call.Introspect? ==> |pc.call.token| < n))
    && (pc.RPTDrawn? ==> |pc.rpt| < n)
    && (pc.Done? && pc.reply.RPTReply? ==> pc.reply.token in rpts)
  }

  ghost predicate Tracks(h: seq<Event>, s: State, n: nat) {
    && (forall t :: t in s.threads ==> TracksCall(h, s.store.rpts.Keys, n, t, s.threads[t]))
    && (forall i :: 0 <= i < |h| && h[i].ReturnEvent? && h[i].reply.RPTReply? ==> h[i].reply.token in s.store.rpts)
    && (forall p :: p in s.presented ==> |p| < n)
    && (forall x :: x in s.store.rpts ==> |x| < n)
  }

  predicate Short(step: Step, n: nat) {
    && (step.Draw? ==> |step.id| < n)
    && (step.Invoke? && step.call.Introspect? ==> |step.call.token| < n)
  }

  lemma TracksStep(h: seq<Event>, s: State, n: nat, step: Step)
    requires Tracks(h, s, n) && Enabled(s, step) && Short(step, n)
    ensures Tracks(h + Obs(s, step), Apply(s, step), n)
  {
    StoreGrows(h, s, n, step);
    forall t | t in Apply(s, step).threads
      ensures TracksCall(h + Obs(s, step), Apply(s, step).store.rpts.Keys, n, t, Apply(s, step).threads[t])
    {
      if t == step.t {
        TracksMover(h, s, n, step);
      } else {
        TracksOther(h, s.store.rpts.Keys, Apply(s, step).store.rpts.Keys, n, Obs(s, step), t, s.threads[t]);
      }
    }
    if step.Return? {
      assert TracksCall(h, s.store.rpts.Keys, n, step.t, s.threads[step.t]);
    }
  }

  lemma StoreGrows(h: seq<Event>, s: State, n: nat, step: Step)
    requires Tracks(h, s, n) && Enabled(s, step) && Short(step, n)
    ensures forall x :: x in s.store.rpts ==> x in Apply(s, step).store.rpts
    ensures forall x :: x in Apply(s, step).store.rpts ==> |x| < n
    ensures forall p :: p in Apply(s, step).presented ==> |p| < n
  {
    if step.Section? {
      assert TracksCall(h, s.store.rpts.Keys, n, step.t, s.threads[step.t]);
    }
  }

  lemma TracksOther(h: seq<Event>, rpts: set<string>, rpts': set<string>, n: nat, obs: seq<Event>, t: Tid, pc: Pc)
    requires TracksCall(h, rpts, n, t, pc) && rpts <= rpts'
    requires |obs| <= 1 && (obs != [] ==> obs[0].t != t)
    ensures TracksCall(h + obs, rpts', n, t, pc)
  {
    if obs == [] {
      assert h + obs == h;
    } else {
      assert obs == [obs[0]];
      if pc.Called? { OpenExtends(h, obs[0], t, pc.call); }
    }
  }

  lemma TracksMover(h: seq<Event>, s: State, n: nat, step: Step)
    requires Tracks(h, s, n) && Enabled(s, step) && Short(step, n) && step.t in Apply(s, step).threads
    ensures TracksCall(h + Obs(s, step), Apply(s, step).store.rpts.Keys, n, step.t, Apply(s, step).threads[step.t])
  {
    if step.Invoke? {
      OpenBegins(h, step.t, step.call);
    } else {
      assert TracksCall(h, s.store.rpts.Keys, n, step.t, s.threads[step.t]);
    }
  }

  // Renaming.

  /** Longer than any id in the run, and different for different ids. */
  function Padded(n: nat, x: string): string {
    seq(n, _ => 'a') + x
  }

  lemma PaddedOnce(n: nat, x: string, y: string)
    requires Padded(n, x) == Padded(n, y)
    ensures x == y
  {
    assert Padded(n, x)[n..] == x && Padded(n, y)[n..] == y;
  }

  lemma PaddedIsId(n: nat, x: string)
    requires IsId(x)
    ensures IsId(Padded(n, x)) && |Padded(n, x)| >= n
  {
  }

  /** The id the RPT x goes by when the run is told again. */
  ghost function Ren(h: seq<Event>, n: nat, x: string): string {
    if Guess(h, x) then Padded(n, x) else x
  }

  lemma RenOnce(h: seq<Event>, n: nat, x: string, y: string)
    requires |x| < n && |y| < n && Ren(h, n, x) == Ren(h, n, y)
    ensures x == y
  {
    if Guess(h, x) && Guess(h, y) { PaddedOnce(n, x, y); }
  }

  ghost function RenStep(all: seq<Event>, n: nat, s: State, step: Step): Step
    requires Enabled(s, step)
  {
    if step.Draw? && s.threads[step.t].Holding? then Draw(step.t, Ren(all, n, step.id)) else step
  }

  /** Caller t in the run (pc) and in the run told again (pc'): `all` is the whole history and
      h the part so far. An answer may differ if it is to a guess, and is then never returned. */
  ghost predicate AlikeCall(all: seq<Event>, n: nat, h: seq<Event>, t: Tid, pc: Pc, pc': Pc) {
    if pc.RPTDrawn? then pc' == pc.(rpt := Ren(all, n, pc.rpt))
    else if pc.Done? && pc.reply.RPTReply? then pc' == Done(RPTReply(Ren(all, n, pc.reply.token)))
    else
      || pc' == pc
      || (pc.Done? && pc.reply.Active? && pc' == Done(Inactive) && exists x :: Guess(all, x) && Open(h, t, Introspect(x)))
  }

  ghost predicate AlikeRPTs(all: seq<Event>, n: nat, rpts: map<string, Grant>, rpts': map<string, Grant>) {
    && (forall x :: x in rpts ==> Ren(all, n, x) in rpts' && rpts'[Ren(all, n, x)] == rpts[x])
    && (forall y :: y in rpts' && |y| < n ==> !Guess(all, y) && y in rpts)
  }

  ghost predicate AlikeDrawn(n: nat, drawn: map<string, Tid>, drawn': map<string, Tid>) {
    && (forall id :: id in drawn' && |id| < n ==> id in drawn)
    && (forall x :: |x| < n && Padded(n, x) in drawn' ==> x in drawn)
  }

  ghost predicate AlikeCalls(all: seq<Event>, n: nat, h: seq<Event>, s: State, s': State) {
    && (forall t :: t in s.threads <==> t in s'.threads)
    && (forall t :: t in s.threads ==> AlikeCall(all, n, h, t, s.threads[t], s'.threads[t]))
  }

  ghost predicate Alike(all: seq<Event>, n: nat, h: seq<Event>, s: State, s': State) {
    && s'.store.tickets == s.store.tickets && s'.presented == s.presented
    && AlikeRPTs(all, n, s.store.rpts, s'.store.rpts)
    && AlikeDrawn(n, s.drawn, s'.drawn)
    && AlikeCalls(all, n, h, s, s')
  }

  ghost predicate Retold(all: seq<Event>, n: nat, h: seq<Event>, s: State, s': State, step: Step)
    requires Enabled(s, step)
  {
    var step' := RenStep(all, n, s, step);
    && Enabled(s', step') && Obs(s', step') == Obs(s, step) && Unguessed(s', step')
    && Alike(all, n, h + Obs(s, step), Apply(s, step), Apply(s', step'))
  }

  /** The calls that take no step stay alike when another caller's event is added. */
  lemma OthersAlike(all: seq<Event>, n: nat, h: seq<Event>, e: Event, t: Tid, pc: Pc, pc': Pc)
    requires AlikeCall(all, n, h, t, pc, pc') && e.t != t
    ensures AlikeCall(all, n, h + [e], t, pc, pc')
  {
    if pc' != pc && pc.Done? && pc.reply.Active? {
      var x :| Guess(all, x) && Open(h, t, Introspect(x));
      OpenExtends(h, e, t, Introspect(x));
    }
  }

  lemma InvokeRetold(all: seq<Event>, n: nat, h: seq<Event>, s: State, s': State, t: Tid, c: Call)
    requires InvIds(s) && Tracks(h, s, n) && Alike(all, n, h, s, s') && Enabled(s, Invoke(t, c)) && Short(Invoke(t, c), n)
    requires h + [CallEvent(t, c)] <= all
    ensures Retold(all, n, h, s, s', Invoke(t, c))
  {
    if c.Introspect? {
      NotPending(all, n, h, s, s', t, c.token);
    }
    Invokes(all, n, h, s, s', t, c);
  }

  lemma Invokes(all: seq<Event>, n: nat, h: seq<Event>, s: State, s': State, t: Tid, c: Call)
    requires AlikeCalls(all, n, h, s, s') && t !in s.threads
    ensures AlikeCalls(all, n, h + [CallEvent(t, c)], DoInvoke(s, t, c), DoInvoke(s', t, c))
  {
    forall u | u in s.threads ensures AlikeCall(all, n, h + [CallEvent(t, c)], u, s.threads[u], s'.threads[u]) {
      OthersAlike(all, n, h, CallEvent(t, c), u, s.threads[u], s'.threads[u]);
    }
  }

  /** What is introspected now is no RPT still to be stored: if it was not returned before,
      it is a guess, and goes by another name. */
  lemma NotPending(all: seq<Event>, n: nat, h: seq<Event>, s: State, s': State, t: Tid, x: string)
    requires InvIds(s) && Tracks(h, s, n) && AlikeCalls(all, n, h, s, s')
    requires h + [CallEvent(t, Introspect(x))] <= all && |x| < n
    ensures forall u :: u in s'.threads && s'.threads[u].RPTDrawn? ==> s'.threads[u].rpt != x
  {
    forall u | u in s'.threads && s'.threads[u].RPTDrawn? ensures s'.threads[u].rpt != x {
      assert AlikeCall(all, n, h, u, s.threads[u], s'.threads[u]);
      if s.threads[u].rpt == x {
        assert PendingId(s.threads[u]) == x;
        assert all[|h|] == CallEvent(t, Introspect(x));
        assert forall i :: 0 <= i < |h| ==> all[i] == h[i];
        assert !Returned(all, |h|, x);
        assert Guess(all, x);
      }
    }
  }

  lemma ReturnRetold(all: seq<Event>, n: nat, h: seq<Event>, s: State, s': State, t: Tid)
    requires Alike(all, n, h, s, s') && Enabled(s, Return(t)) && NoLuckyGuess(all)
    requires h + [ReturnEvent(t, s.threads[t].reply)] <= all
    ensures Retold(all, n, h, s, s', Return(t))
  {
    SameAnswer(all, n, h, s, s', t);
    var e := ReturnEvent(t, s.threads[t].reply);
    forall u | u in s.threads && u != t ensures AlikeCall(all, n, h + [e], u, s.threads[u], s'.threads[u]) {
      OthersAlike(all, n, h, e, u, s.threads[u], s'.threads[u]);
    }
  }

  /** What is returned is the same: it reports nothing that was guessed. */
  lemma SameAnswer(all: seq<Event>, n: nat, h: seq<Event>, s: State, s': State, t: Tid)
    requires AlikeCalls(all, n, h, s, s') && Enabled(s, Return(t)) && NoLuckyGuess(all)
    requires h + [ReturnEvent(t, s.threads[t].reply)] <= all
    ensures s'.threads[t] == s.threads[t]
  {
    var r := s.threads[t].reply;
    assert AlikeCall(all, n, h, t, s.threads[t], s'.threads[t]);
    assert all[|h|] == ReturnEvent(t, r) && all[..|h|] == h;
    if r.RPTReply? {
      assert Reports(all, |h|, r.token);
    } else if s'.threads[t] != s.threads[t] {
      var x :| Guess(all, x) && Open(h, t, Introspect(x));
      assert Reports(all, |h|, x);
      assert false;
    }
  }

  /** Two alike runs in which caller t moves alike. */
  lemma CallsMove(all: seq<Event>, n: nat, h: seq<Event>, s: State, s': State, t: Tid, r: State, r': State)
    requires AlikeCalls(all, n, h, s, s') && t in s.threads && t in r.threads && t in r'.threads
    requires r.threads == s.threads[t := r.threads[t]] && r'.threads == s'.threads[t := r'.threads[t]]
    requires AlikeCall(all, n, h, t, r.threads[t], r'.threads[t])
    ensures AlikeCalls(all, n, h, r, r')
  {
  }

  lemma DrawRetold(all: seq<Event>, n: nat, h: seq<Event>, s: State, s': State, t: Tid, id: string)
    requires Tracks(h, s, n) && Alike(all, n, h, s, s') && Enabled(s, Draw(t, id)) && |id| < n
    ensures Retold(all, n, h, s, s', Draw(t, id))
  {
    assert AlikeCall(all, n, h, t, s.threads[t], s'.threads[t]);
    var id' := RenStep(all, n, s, Draw(t, id)).id;
    assert id' == if s.threads[t].Holding? then Ren(all, n, id) else id;
    DrawnAlike(n, s.drawn, s'.drawn, t, id, id');
    StillFresh(h, s, s', n, t, id, id');
    Draws(all, n, h, s, s', t, id, id');
    assert h + [] == h;
  }

  lemma StillFresh(h: seq<Event>, s: State, s': State, n: nat, t: Tid, id: string, id': string)
    requires Tracks(h, s, n) && Enabled(s, Draw(t, id)) && id' !in s'.drawn && (id' == id || id' == Padded(n, id))
    requires t in s'.threads && s'.threads[t] == s.threads[t] && s'.presented == s.presented
    ensures Enabled(s', Draw(t, id'))
  {
    PaddedIsId(n, id);
  }

  lemma Draws(all: seq<Event>, n: nat, h: seq<Event>, s: State, s': State, t: Tid, id: string, id': string)
    requires Alike(all, n, h, s, s') && AlikeDrawn(n, s.drawn[id := t], s'.drawn[id' := t])
    requires Enabled(s, Draw(t, id)) && Enabled(s', Draw(t, id')) && s'.threads[t] == s.threads[t]
    requires id' == if s.threads[t].Holding? then Ren(all, n, id) else id
    ensures Alike(all, n, h, DoDraw(s, t, id), DoDraw(s', t, id'))
  {
    CallsMove(all, n, h, s, s', t, DoDraw(s, t, id), DoDraw(s', t, id'));
  }

  lemma DrawnAlike(n: nat, drawn: map<string, Tid>, drawn': map<string, Tid>, t: Tid, id: string, id': string)
    requires AlikeDrawn(n, drawn, drawn') && id !in drawn && |id| < n && (id' == id || id' == Padded(n, id))
    ensures id' !in drawn' && AlikeDrawn(n, drawn[id := t], drawn'[id' := t])
  {
    forall x | |x| < n && Padded(n, x) == id' ensures x == id {
      if id' != id { PaddedOnce(n, x, id); }
    }
  }

  lemma SectionRetold(all: seq<Event>, n: nat, h: seq<Event>, s: State, s': State, t: Tid)
    requires Tracks(h, s, n) && Alike(all, n, h, s, s') && Enabled(s, Section(t))
    ensures Retold(all, n, h, s, s', Section(t))
  {
    assert AlikeCall(all, n, h, t, s.threads[t], s'.threads[t]);
    assert TracksCall(h, s.store.rpts.Keys, n, t, s.threads[t]);
    assert h + [] == h;
    if s.threads[t].RPTDrawn? {
      StoreRetold(all, n, h, s, s', t);
    } else if s.threads[t].Called? && s.threads[t].call.Introspect? {
      LookRetold(all, n, h, s, s', t, s.threads[t].call.token);
    } else if s.threads[t].Called? {
      RedeemRetold(all, n, h, s, s', t, s.threads[t].call.ticket);
    } else {
      RegisterRetold(all, n, h, s, s', t);
    }
  }

  // Permission's section and Token's first deal in tickets, which are the same.

  lemma RegisterRetold(all: seq<Event>, n: nat, h: seq<Event>, s: State, s': State, t: Tid)
    requires Alike(all, n, h, s, s') && Enabled(s, Section(t)) && s'.threads[t] == s.threads[t] && s.threads[t].TicketDrawn?
    ensures Alike(all, n, h, DoSection(s, t), DoSection(s', t))
  {
    CallsMove(all, n, h, s, s', t, DoSection(s, t), DoSection(s', t));
  }

  lemma RedeemRetold(all: seq<Event>, n: nat, h: seq<Event>, s: State, s': State, t: Tid, ticket: string)
    requires Alike(all, n, h, s, s') && t in s.threads && s'.threads[t] == s.threads[t] == Called(Token(ticket))
    ensures Alike(all, n, h, DoSection(s, t), DoSection(s', t))
  {
    var r, r' := DoSection(s, t), DoSection(s', t);
    assert r.threads[t] == r'.threads[t] == if ticket in s.store.tickets then Holding(ticket, s.store.tickets[ticket]) else Done(InvalidGrant);
    CallsMove(all, n, h, s, s', t, r, r');
    assert r.store.rpts == s.store.rpts && r'.store.rpts == s'.store.rpts && r.store.tickets == r'.store.tickets;
  }

  lemma StoreRetold(all: seq<Event>, n: nat, h: seq<Event>, s: State, s': State, t: Tid)
    requires Alike(all, n, h, s, s') && Enabled(s, Section(t)) && s.threads[t].RPTDrawn?
    requires s'.threads[t] == s.threads[t].(rpt := Ren(all, n, s.threads[t].rpt))
    requires |s.threads[t].rpt| < n && forall x :: x in s.store.rpts ==> |x| < n
    ensures Alike(all, n, h, DoSection(s, t), DoSection(s', t))
  {
    StoredAlike(all, n, s.store.rpts, s'.store.rpts, s.threads[t].rpt, s.threads[t].grant);
    CallsMove(all, n, h, s, s', t, DoSection(s, t), DoSection(s', t));
  }

  lemma LookRetold(all: seq<Event>, n: nat, h: seq<Event>, s: State, s': State, t: Tid, x: string)
    requires Alike(all, n, h, s, s') && t in s.threads && s.threads[t] == Called(Introspect(x)) == s'.threads[t]
    requires |x| < n && Open(h, t, Introspect(x))
    ensures Alike(all, n, h, DoSection(s, t), DoSection(s', t))
  {
    LookAlike(all, n, h, s, s', t, x);
    CallsMove(all, n, h, s, s', t, DoSection(s, t), DoSection(s', t));
  }

  lemma StoredAlike(all: seq<Event>, n: nat, rpts: map<string, Grant>, rpts': map<string, Grant>, x: string, g: Grant)
    requires AlikeRPTs(all, n, rpts, rpts') && |x| < n && forall y :: y in rpts ==> |y| < n
    ensures AlikeRPTs(all, n, rpts[x := g], rpts'[Ren(all, n, x) := g])
  {
    forall y | y in rpts && Ren(all, n, y) == Ren(all, n, x) ensures y == x {
      RenOnce(all, n, x, y);
    }
  }

  lemma LookAlike(all: seq<Event>, n: nat, h: seq<Event>, s: State, s': State, t: Tid, x: string)
    requires AlikeRPTs(all, n, s.store.rpts, s'.store.rpts) && |x| < n && Open(h, t, Introspect(x))
    ensures AlikeCall(all, n, h, t, Done(Look(s.store, x)), Done(Look(s'.store, x)))
  {
  }

  lemma StepRetold(all: seq<Event>, n: nat, h: seq<Event>, s: State, s': State, step: Step)
    requires InvIds(s) && Tracks(h, s, n) && Alike(all, n, h, s, s') && NoLuckyGuess(all)
    requires Enabled(s, step) && Short(step, n) && h + Obs(s, step) <= all
    ensures Retold(all, n, h, s, s', step)
  {
    match step
    case Invoke(t, c) => InvokeRetold(all, n, h, s, s', t, c);
    case Draw(t, id) => DrawRetold(all, n, h, s, s', t, id);
    case Section(t) => SectionRetold(all, n, h, s, s', t);
    case Return(t) => ReturnRetold(all, n, h, s, s', t);
  }

  /** The whole run told again: the same history, and nobody introspects a pending RPT. */
  lemma {:induction false} RunRetold(all: seq<Event>, n: nat, steps: seq<Step>) returns (run: seq<Step>)
    requires Runs(steps) && History(steps) <= all && NoLuckyGuess(all)
    requires forall k :: 0 <= k < |steps| ==> Short(steps[k], n)
    ensures Tracks(History(steps), Exec(steps), n)
    ensures Runs(run) && Discreet(run) && History(run) == History(steps)
    ensures Alike(all, n, History(steps), Exec(steps), Exec(run))
  {
    if steps == [] {
      run := [];
    } else {
      var front, step := Front(steps), Last(steps);
      run := RunRetold(all, n, front);
      Reachable(front);
      TracksStep(History(front), Exec(front), n, step);
      StepRetold(all, n, History(front), Exec(front), Exec(run), step);
      var step' := RenStep(all, n, Exec(front), step);
      Extend(run, step');
      run := run + [step'];
    }
  }

  lemma {:induction false} Longer(steps: seq<Step>) returns (n: nat)
    ensures forall k :: 0 <= k < |steps| ==> Short(steps[k], n)
  {
    n := 0;
    if steps != [] {
      n := Longer(steps[1..]);
      var d := if steps[0].Draw? then |steps[0].id|
               else if steps[0].Invoke? && steps[0].call.Introspect? then |steps[0].call.token| else 0;
      n := if n <= d then d + 1 else n;
    }
  }

  /** Main result on histories alone: one without a lucky guess, on registered resources, is a
      history of the two-lock server exactly when it is one of the atomic server. */
  lemma SameWithoutLuckyGuess(known: set<string>, h: seq<Event>)
    requires RegisteredCalls(known, h) && NoLuckyGuess(h)
    ensures (exists steps :: Runs(steps) && History(steps) == h) <==> ScenarioHistory(known, h)
  {
    if steps :| Runs(steps) && History(steps) == h {
      var n := Longer(steps);
      var run := RunRetold(h, n, steps);
      DemoIsAtomic(known, run);
    }
    if ScenarioHistory(known, h) {
      SameHistories(known, h);
    }
  }
}
