/** The whole flow of one client against demoAS and the demo RS, other callers interfering. */
module Session {
  import opened Text
  import opened Challenge
  import opened DemoServer
  import opened TicketProtocol
  import opened TicketInvariants
  import opened TicketTheorems
  import opened ResourceServer
  import Histories

  // Safety: an allowed request was paid for.

  /** The RS's decision at step k, where caller t's introspection of an RPT is answered. */
  ghost predicate AllowsAt(steps: seq<Step>, k: nat, rpt: string, rsid: string, scopes: seq<string>)
    requires Runs(steps)
  {
    && k < |steps| && steps[k].Section? && steps[k].t in At(steps, k).threads
    && At(steps, k).threads[steps[k].t] == Called(Introspect(rpt))
    && At(steps, k + 1).threads[steps[k].t].Done?
    && Decide(At(steps, k + 1).threads[steps[k].t].reply, rsid, scopes).DecisionAllow?
  }

  /** Every DecisionAllow follows the registration of a ticket for that resource and at
      least those scopes, the one redemption of that ticket, and the storing of the RPT,
      which is bound to exactly what was registered. */
  lemma AllowIsEarned(steps: seq<Step>, n: nat, rpt: string, rsid: string, scopes: seq<string>)
    requires Runs(steps) && AllowsAt(steps, n, rpt, rsid, scopes)
    ensures exists ticket: string, g: Grant, i: nat, k: nat, j: nat ::
      && i < k < j < n
      && RegistersAt(steps, i, ticket, g) && g.rsid == rsid && (forall s :: s in scopes ==> s in g.scopes)
      && TakesAt(steps, k, ticket) && (forall k' :: TakesAt(steps, k', ticket) ==> k' == k)
      && StoresAt(steps, j, ticket, g, rpt)
  {
    AllowNeedsRPT(steps, n, rpt, rsid, scopes);
    var s := At(steps, n);
    var ticket := s.origin[rpt];
    var g := s.fate[ticket].grant;
    Provenance(steps, n, ticket);
    var i: nat, k: nat, j: nat :| Story(steps, n, ticket, s.fate[ticket], i, k, j);
    forall k' | TakesAt(steps, k', ticket) ensures k' == k {
      TakenOnce(steps, k, k', ticket);
    }
    assert i < k < j < n && RegistersAt(steps, i, ticket, g) && StoresAt(steps, j, ticket, g, rpt);
  }

  lemma AllowNeedsRPT(steps: seq<Step>, n: nat, rpt: string, rsid: string, scopes: seq<string>)
    requires Runs(steps) && AllowsAt(steps, n, rpt, rsid, scopes)
    ensures var s := At(steps, n);
      && rpt in s.origin && s.origin[rpt] in s.fate && s.fate[s.origin[rpt]].place == Redeemed(rpt)
      && var g := s.fate[s.origin[rpt]].grant; g.rsid == rsid && Covers(g.scopes, scopes)
  {
    InvAt(steps, n);
    AtSucc(steps, n);
    var s := At(steps, n);
    assert rpt in s.store.rpts && AtPlace(s, s.origin[rpt], s.fate[s.origin[rpt]]);
  }

  /** And whoever bears an RPT for the resource is allowed any scopes among those granted. */
  lemma AllowsExactly(steps: seq<Step>, k: nat, rpt: string, rsid: string, scopes: seq<string>)
    requires Runs(steps) && k < |steps| && steps[k].Section? && steps[k].t in At(steps, k).threads
    requires At(steps, k).threads[steps[k].t] == Called(Introspect(rpt))
    ensures var rpts := At(steps, k).store.rpts;
            AllowsAt(steps, k, rpt, rsid, scopes) <==>
              rpt in rpts && rpts[rpt].rsid == rsid && forall s :: s in scopes ==> s in rpts[rpt].scopes
  {
    AtSucc(steps, k);
  }

  // Progress: one caller c asks for access without a token, redeems the ticket it reads in
  // the challenge, and asks again with the RPT.

  datatype Deal = Deal(c: Tid, rsid: string, scopes: seq<string>, asURL: string, realm: string, ticket: string, rpt: string)

  /** The ticket the client reads in the RS's 401. */
  function ReadTicket(d: Deal): string {
    ParseChallenge(Header(d.asURL, d.ticket, JoinScopes(d.scopes), d.realm)).ticket
  }

  /** The token the RS reads in the retried request. */
  function ReadRPT(d: Deal): string {
    match Bearer(BEARER + d.rpt)
    case Some(token) => token
    case None => ""
  }

  const LENGTH := 12

  /** The caller's own steps, in order. */
  function Script(d: Deal, n: nat): Step
    requires n < LENGTH
  {
    if n == 0 then Invoke(d.c, Permission(Grant(d.rsid, d.scopes)))
    else if n == 1 then Draw(d.c, d.ticket)
    else if n == 2 then Section(d.c)
    else if n == 3 then Return(d.c)
    else if n == 4 then Invoke(d.c, Token(ReadTicket(d)))
    else if n == 5 then Section(d.c)
    else if n == 6 then Draw(d.c, d.rpt)
    else if n == 7 then Section(d.c)
    else if n == 8 then Return(d.c)
    else if n == 9 then Invoke(d.c, Introspect(ReadRPT(d)))
    else if n == 10 then Section(d.c)
    else Return(d.c)
  }

  function GrantOf(d: Deal): Grant {
    Grant(d.rsid, d.scopes)
  }

  /** Where the caller stands after n of its steps. */
  ghost predicate Stage(s: State, d: Deal, n: nat) {
    if n == 0 || n == 12 then d.c !in s.threads
    else if n == 4 then d.c !in s.threads && Waits(s, d)
    else if n == 9 then d.c !in s.threads && Stored(s, d)
    else
      && d.c in s.threads
      && var pc := s.threads[d.c];
         if n == 1 then pc == Called(Permission(GrantOf(d)))
         else if n == 2 then pc == TicketDrawn(GrantOf(d), d.ticket)
         else if n == 3 then pc == Done(TicketReply(d.ticket)) && Waits(s, d)
         else if n == 5 then pc == Called(Token(d.ticket)) && Waits(s, d)
         else if n == 6 then pc == Holding(d.ticket, GrantOf(d))
         else if n == 7 then pc == RPTDrawn(d.ticket, GrantOf(d), d.rpt)
         else if n == 8 then pc == Done(RPTReply(d.rpt)) && Stored(s, d)
         else if n == 10 then pc == Called(Introspect(d.rpt)) && Stored(s, d)
         else pc == Done(Active(GrantOf(d)))
  }

  ghost predicate Waits(s: State, d: Deal) {
    d.ticket in s.store.tickets && s.store.tickets[d.ticket] == GrantOf(d)
  }

  ghost predicate Stored(s: State, d: Deal) {
    d.rpt in s.store.rpts && s.store.rpts[d.rpt] == GrantOf(d)
  }

  /** What the deployment has to provide: a resource and scopes to ask for, and a realm and
      URL that do not confuse the client's challenge parser. */
  ghost predicate Sound(d: Deal) {
    && d.rsid != "" && d.scopes != []
    && QUOTE !in d.asURL && QUOTE !in d.realm
    && !HasSuffix(d.asURL, "ticket=") && !HasSuffix(d.realm, "ticket=")
  }

  /** Another caller redeems d's ticket while it waits for the caller. Attempts that are
      refused, before the ticket is registered or after it is spent, are no theft. */
  ghost predicate Steals(s: State, step: Step, d: Deal) {
    && step.Section? && step.t != d.c && step.t in s.threads && s.threads[step.t] == Called(Token(d.ticket))
    && Waits(s, d)
  }

  lemma ReadsRight(d: Deal)
    requires Sound(d) && IsId(d.ticket)
    ensures ReadTicket(d) == d.ticket
  {
    assert QUOTE !in d.ticket;
    RoundTrip(d.asURL, d.ticket, JoinScopes(d.scopes), d.realm);
  }

  lemma BearsRight(d: Deal)
    requires IsId(d.rpt)
    ensures ReadRPT(d) == d.rpt
  {
    var h := BEARER + d.rpt;
    assert h[..|BEARER|] == BEARER && h[|BEARER|..] == d.rpt;
  }

  /** The steps of others, short of redeeming the ticket, do not move the caller. */
  lemma Undisturbed(s: State, step: Step, d: Deal, n: nat)
    requires Inv(s) && Enabled(s, step) && step.t != d.c && !Steals(s, step, d)
    requires n <= LENGTH && Stage(s, d, n)
    ensures Stage(Apply(s, step), d, n)
  {
    OthersElsewhere(s, step, d.c);
    if Stored(s, d) {
      OneStepRPT(s, step, d.rpt);
    }
    if Waits(s, d) {
      StillWaits(s, step, d);
    }
  }

  lemma OthersElsewhere(s: State, step: Step, c: Tid)
    requires Enabled(s, step) && step.t != c
    ensures c in Apply(s, step).threads <==> c in s.threads
    ensures c in s.threads ==> Apply(s, step).threads[c] == s.threads[c]
  {
  }

  lemma StillWaits(s: State, step: Step, d: Deal)
    requires InvPlaces(s) && InvIds(s) && Enabled(s, step) && step.t != d.c && !Steals(s, step, d)
    requires Waits(s, d)
    ensures Waits(Apply(s, step), d)
  {
    if step.Section? && Pending(s.threads[step.t]) {
      assert PendingId(s.threads[step.t]) !in s.fate;
    }
  }

  /** Its own next step is enabled, given fresh ids, and takes it to the next stage. */
  lemma Advances(s: State, d: Deal, n: nat)
    requires Inv(s) && Sound(d) && n < LENGTH && Stage(s, d, n)
    requires n == 1 ==> New(s, d.ticket)
    requires n == 6 ==> Fresh(s, d.rpt)
    requires n >= 2 ==> IsId(d.ticket)
    requires n >= 7 ==> IsId(d.rpt)
    ensures Enabled(s, Script(d, n))
    ensures Stage(Apply(s, Script(d, n)), d, n + 1)
  {
    if n == 4 { ReadsRight(d); }
    if n == 9 { BearsRight(d); }
  }

  /** How many of its steps the caller has taken between b and k. */
  function Own(steps: seq<Step>, c: Tid, b: nat, k: nat): nat
    requires b <= k <= |steps|
  {
    if k == b then 0 else Own(steps, c, b, k - 1) + if steps[k - 1].t == c then 1 else 0
  }

  /** From b on the caller follows its script; the others do as they please, but never
      redeem its ticket. */
  ghost predicate Plays(steps: seq<Step>, b: nat, d: Deal)
    requires Runs(steps)
  {
    && b <= |steps| && d.c !in At(steps, b).threads
    && (forall k :: b <= k < |steps| && steps[k].t == d.c ==>
          Own(steps, d.c, b, k) < LENGTH && steps[k] == Script(d, Own(steps, d.c, b, k)))
    && (forall k :: b <= k < |steps| ==> !Steals(At(steps, k), steps[k], d))
  }

  lemma {:induction false} Arrives(steps: seq<Step>, b: nat, k: nat, d: Deal)
    requires Runs(steps) && Sound(d) && Plays(steps, b, d) && b <= k <= |steps|
    ensures Arrived(At(steps, k), d, Own(steps, d.c, b, k))
  {
    if k == b {
      ArrivesFirst(At(steps, b), d);
    } else {
      Arrives(steps, b, k - 1, d);
      ArrivesNext(steps, b, k - 1, d);
    }
  }

  lemma ArrivesFirst(s: State, d: Deal)
    requires d.c !in s.threads
    ensures Arrived(s, d, 0)
  {
  }

  lemma ArrivesNext(steps: seq<Step>, b: nat, k: nat, d: Deal)
    requires Runs(steps) && Sound(d) && Plays(steps, b, d) && b <= k < |steps|
    requires Arrived(At(steps, k), d, Own(steps, d.c, b, k))
    ensures Arrived(At(steps, k + 1), d, Own(steps, d.c, b, k + 1))
  {
    FollowsPlan(steps, b, k, d);
    Moves(steps, k, d, Own(steps, d.c, b, k));
  }

  lemma FollowsPlan(steps: seq<Step>, b: nat, k: nat, d: Deal)
    requires Runs(steps) && Plays(steps, b, d) && b <= k < |steps|
    ensures var n := Own(steps, d.c, b, k);
            if steps[k].t == d.c then n < LENGTH && steps[k] == Script(d, n) else !Steals(At(steps, k), steps[k], d)
  {
  }

  lemma Moves(steps: seq<Step>, k: nat, d: Deal, n: nat)
    requires Runs(steps) && Sound(d) && k < |steps| && Arrived(At(steps, k), d, n)
    requires if steps[k].t == d.c then n < LENGTH && steps[k] == Script(d, n) else !Steals(At(steps, k), steps[k], d)
    ensures Arrived(At(steps, k + 1), d, n + if steps[k].t == d.c then 1 else 0)
  {
    InvAt(steps, k);
    AtSucc(steps, k);
    OneMore(At(steps, k), steps[k], d, n);
  }

  /** What is known of the caller after n of its steps. */
  ghost predicate Arrived(s: State, d: Deal, n: nat) {
    n <= LENGTH && Stage(s, d, n) && (n >= 2 ==> IsId(d.ticket)) && (n >= 7 ==> IsId(d.rpt))
  }

  lemma OneMore(s: State, step: Step, d: Deal, n: nat)
    requires Inv(s) && Enabled(s, step) && Sound(d) && Arrived(s, d, n)
    requires if step.t == d.c then n < LENGTH && step == Script(d, n) else !Steals(s, step, d)
    ensures Arrived(Apply(s, step), d, n + if step.t == d.c then 1 else 0)
  {
    if step.t == d.c {
      Advances(s, d, n);
    } else {
      Undisturbed(s, step, d, n);
    }
  }

  /** End to end: from any reachable state, whatever the others do short of redeeming the
      caller's ticket, the caller is never stuck, and its retried request is allowed. */
  lemma EndToEnd(steps: seq<Step>, b: nat, k: nat, d: Deal)
    requires Runs(steps) && Sound(d) && Plays(steps, b, d) && b <= k <= |steps|
    ensures var s, n := At(steps, k), Own(steps, d.c, b, k);
      && n <= LENGTH
      && (n < LENGTH && (n == 1 ==> New(s, d.ticket)) && (n == 6 ==> Fresh(s, d.rpt)) ==> Enabled(s, Script(d, n)))
      && (n == 11 ==> d.c in s.threads && s.threads[d.c].Done?
                      && Decide(s.threads[d.c].reply, d.rsid, d.scopes) == DecisionAllow)
  {
    Arrives(steps, b, k, d);
    InvAt(steps, k);
    var n := Own(steps, d.c, b, k);
    if n < LENGTH && (n == 1 ==> New(At(steps, k), d.ticket)) && (n == 6 ==> Fresh(At(steps, k), d.rpt)) {
      Advances(At(steps, k), d, n);
    }
  }

  // And it can always be brought to its end.

  /** A run followed by the caller's steps from the m-th up to the n-th. */
  function Scripted(steps: seq<Step>, d: Deal, m: nat, n: nat): seq<Step>
    requires m <= n <= LENGTH
  {
    if n == m then steps else Scripted(steps, d, m, n - 1) + [Script(d, n - 1)]
  }

  ghost predicate Going(steps: seq<Step>, d: Deal, n: nat) {
    Runs(steps) && Ready(Exec(steps), d, n)
  }

  /** The caller has taken n steps, and the ids it has yet to draw are fresh. */
  ghost predicate Ready(s: State, d: Deal, n: nat) {
    && Arrived(s, d, n) && (n <= 1 ==> New(s, d.ticket) && d.ticket != d.rpt) && (n <= 6 ==> Fresh(s, d.rpt))
  }

  lemma Proceeds(s: State, d: Deal, n: nat)
    requires Inv(s) && Sound(d) && n < LENGTH && Ready(s, d, n)
    ensures Enabled(s, Script(d, n)) && Ready(Apply(s, Script(d, n)), d, n + 1)
  {
    Advances(s, d, n);
  }

  lemma TakesOne(steps: seq<Step>, d: Deal, n: nat)
    requires Going(steps, d, n) && Sound(d) && n < LENGTH
    ensures Going(steps + [Script(d, n)], d, n + 1)
  {
    Reachable(steps);
    Proceeds(Exec(steps), d, n);
    Histories.Extend(steps, Script(d, n));
  }

  /** What every step of the script keeps, the script keeps. */
  lemma {:induction false} Kept(P: (seq<Step>, nat) -> bool, steps: seq<Step>, d: Deal, m: nat, n: nat)
    requires P(steps, m) && m <= n <= LENGTH
    requires forall xs, k: nat :: P(xs, k) && k < LENGTH ==> P(xs + [Script(d, k)], k + 1)
    ensures P(Scripted(steps, d, m, n), n)
  {
    if n > m {
      Kept(P, steps, d, m, n - 1);
    }
  }

  lemma Continues(steps: seq<Step>, d: Deal, m: nat, n: nat)
    requires Going(steps, d, m) && Sound(d) && m <= n <= LENGTH
    ensures Going(Scripted(steps, d, m, n), d, n)
  {
    ghost var P := (xs: seq<Step>, k: nat) => Going(xs, d, k);
    forall xs, k: nat | P(xs, k) && k < LENGTH ensures P(xs + [Script(d, k)], k + 1) {
      TakesOne(xs, d, k);
    }
    Kept(P, steps, d, m, n);
  }

  lemma IsGranted(steps: seq<Step>, d: Deal, n: nat)
    requires Going(steps, d, n) && n == LENGTH - 1
    ensures Granted(steps, d)
  {
  }

  /** The caller's retried request is allowed. */
  ghost predicate Granted(steps: seq<Step>, d: Deal) {
    && Runs(steps) && d.c in Exec(steps).threads && Exec(steps).threads[d.c].Done?
    && Decide(Exec(steps).threads[d.c].reply, d.rsid, d.scopes) == DecisionAllow
  }

  /** d' is d, up to ids that after n steps are still to be drawn. */
  predicate Redrawn(d: Deal, d': Deal, n: nat) {
    d' == d.(ticket := if n <= 1 then d'.ticket else d.ticket, rpt := if n <= 6 then d'.rpt else d.rpt)
  }

  /** Ids still to be drawn can be drawn fresh, and the caller is as far along with them. */
  lemma Redraws(s: State, d: Deal, n: nat) returns (d': Deal)
    requires Arrived(s, d, n)
    ensures Redrawn(d, d', n) && Ready(s, d', n)
  {
    var used := s.drawn.Keys + s.presented;
    var ticket := Histories.FreshId(used);
    var rpt := Histories.FreshId(used + {ticket});
    d' := d.(ticket := if n <= 1 then ticket else d.ticket, rpt := if n <= 6 then rpt else d.rpt);
  }

  /** The caller, n steps along, can take all its remaining ones, and its retry is allowed. */
  ghost predicate Ends(steps: seq<Step>, d: Deal, n: nat)
    requires n < LENGTH
  {
    forall k :: n <= k <= LENGTH ==>
      Runs(Scripted(steps, d, n, k)) && (k == LENGTH - 1 ==> Granted(Scripted(steps, d, n, k), d))
  }

  /** Wherever the interference of others, short of redeeming its ticket, has left the caller
      in its script, its remaining steps can follow, with fresh ids for those it has yet to
      draw, and its retried request is allowed. */
  lemma Completes(steps: seq<Step>, b: nat, d: Deal) returns (d': Deal)
    requires Runs(steps) && Sound(d) && Plays(steps, b, d) && Own(steps, d.c, b, |steps|) < LENGTH
    ensures Redrawn(d, d', Own(steps, d.c, b, |steps|))
    ensures Ends(steps, d', Own(steps, d.c, b, |steps|))
  {
    var n := Own(steps, d.c, b, |steps|);
    Arrives(steps, b, |steps|, d);
    assert steps[..|steps|] == steps;
    d' := Redraws(Exec(steps), d, n);
    forall k | n <= k <= LENGTH
      ensures Runs(Scripted(steps, d', n, k)) && (k == LENGTH - 1 ==> Granted(Scripted(steps, d', n, k), d'))
    {
      Continues(steps, d', n, k);
      if k == LENGTH - 1 {
        IsGranted(Scripted(steps, d', n, k), d', k);
      }
    }
  }

  /** In particular a session exists for every idle caller in every reachable state. */
  lemma Begins(steps: seq<Step>, c: Tid, g: Grant, asURL: string, realm: string) returns (d: Deal)
    requires Runs(steps) && c !in Exec(steps).threads
    requires Sound(Deal(c, g.rsid, g.scopes, asURL, realm, "", ""))
    ensures d == Deal(c, g.rsid, g.scopes, asURL, realm, d.ticket, d.rpt) && Ends(steps, d, 0)
  {
    assert steps[..|steps|] == steps;
    d := Completes(steps, |steps|, Deal(c, g.rsid, g.scopes, asURL, realm, "", ""));
  }
}
