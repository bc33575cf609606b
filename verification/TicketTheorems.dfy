/** Single use and provenance, over whole runs. */
module TicketTheorems {
  import opened DemoServer
  import opened TicketProtocol
  import opened TicketInvariants

  /** In every state of every interleaving a registered ticket is outstanding, or held by
      one call in progress, or turned into one RPT; and the numbers add up. */
  lemma EachTicketInOnePlace(steps: seq<Step>, ticket: string)
    requires Runs(steps) && ticket in Exec(steps).fate
    ensures var s := Exec(steps);
            var holders := set t | t in s.threads && Holds(s.threads[t]) && s.threads[t].ticket == ticket;
            var rpts := set x | x in s.store.rpts && x in s.origin && s.origin[x] == ticket;
            (if ticket in s.store.tickets then 1 else 0) + |holders| + |rpts| == 1
    ensures var s := Exec(steps); |s.fate| == |s.store.tickets| + |Holders(s.threads)| + |s.store.rpts|
  {
    Reachable(steps);
    HoldersOf(Exec(steps), ticket);
    RPTsOf(Exec(steps), ticket);
  }

  lemma HoldersOf(s: State, ticket: string)
    requires InvPlaces(s) && ticket in s.fate
    ensures var holders := set t | t in s.threads && Holds(s.threads[t]) && s.threads[t].ticket == ticket;
            holders == if s.fate[ticket].place.InFlight? then {s.fate[ticket].place.t} else {}
  {
  }

  lemma RPTsOf(s: State, ticket: string)
    requires InvPlaces(s) && ticket in s.fate
    ensures var rpts := set x | x in s.store.rpts && x in s.origin && s.origin[x] == ticket;
            rpts == if s.fate[ticket].place.Redeemed? then {s.fate[ticket].place.rpt} else {}
  {
  }

  // Fates only move forward, and RPTs stay.

  function Rank(p: Place): nat {
    match p
    case Outstanding => 0
    case InFlight(_) => 1
    case Redeemed(_) => 2
  }

  ghost predicate Forward(s: State, s': State) {
    && (forall ticket :: ticket in s.fate ==>
          ticket in s'.fate && Rank(s.fate[ticket].place) <= Rank(s'.fate[ticket].place))
    && (forall rpt :: rpt in s.store.rpts ==> rpt in s'.store.rpts && s'.store.rpts[rpt] == s.store.rpts[rpt])
  }

  lemma StepForward(s: State, step: Step)
    requires Inv(s) && Enabled(s, step)
    ensures Forward(s, Apply(s, step))
  {
    forall ticket | ticket in s.fate
      ensures ticket in Apply(s, step).fate && Rank(s.fate[ticket].place) <= Rank(Apply(s, step).fate[ticket].place)
    {
      OneStepFate(s, step, ticket);
    }
    forall rpt | rpt in s.store.rpts
      ensures rpt in Apply(s, step).store.rpts && Apply(s, step).store.rpts[rpt] == s.store.rpts[rpt]
    {
      OneStepRPT(s, step, rpt);
    }
  }

  lemma OneStepRPT(s: State, step: Step, rpt: string)
    requires InvIds(s) && Enabled(s, step) && rpt in s.store.rpts
    ensures rpt in Apply(s, step).store.rpts && Apply(s, step).store.rpts[rpt] == s.store.rpts[rpt]
  {
    if step.Section? && Pending(s.threads[step.t]) {
      assert PendingId(s.threads[step.t]) !in s.store.rpts;
    }
  }

  lemma {:induction false} RunForward(steps: seq<Step>, i: nat, k: nat)
    requires Runs(steps) && i <= k <= |steps|
    ensures Forward(At(steps, i), At(steps, k))
  {
    if i < k {
      RunForward(steps, i, k - 1);
      RunsPrefix(steps, k - 1);
      Reachable(steps[..k - 1]);
      AtSucc(steps, k - 1);
      StepForward(At(steps, k - 1), steps[k - 1]);
    }
  }

  lemma InvAt(steps: seq<Step>, k: nat)
    requires Runs(steps) && k <= |steps|
    ensures Inv(At(steps, k))
  {
    RunsPrefix(steps, k);
    Reachable(steps[..k]);
  }

  // What happens at step k of a run.

  ghost predicate RegistersAt(steps: seq<Step>, k: nat, ticket: string, g: Grant)
    requires Runs(steps)
  {
    k < |steps| && steps[k].Section? && steps[k].t in At(steps, k).threads
    && At(steps, k).threads[steps[k].t] == TicketDrawn(g, ticket)
  }

  /** A Token call finds the ticket and takes it out. */
  ghost predicate TakesAt(steps: seq<Step>, k: nat, ticket: string)
    requires Runs(steps)
  {
    k < |steps| && steps[k].Section? && ticket in At(steps, k).store.tickets
    && steps[k].t in At(steps, k).threads
    && At(steps, k).threads[steps[k].t] == Called(Token(ticket))
  }

  ghost predicate StoresAt(steps: seq<Step>, k: nat, ticket: string, g: Grant, rpt: string)
    requires Runs(steps)
  {
    k < |steps| && steps[k].Section? && steps[k].t in At(steps, k).threads
    && At(steps, k).threads[steps[k].t] == RPTDrawn(ticket, g, rpt)
  }

  /** No ticket is taken twice, so none yields two RPTs. */
  lemma TakenOnce(steps: seq<Step>, i: nat, k: nat, ticket: string)
    requires Runs(steps) && TakesAt(steps, i, ticket) && TakesAt(steps, k, ticket)
    ensures i == k
  {
    if i < k {
      TakenIsSpent(steps, i, k, ticket);
    } else if k < i {
      TakenIsSpent(steps, k, i, ticket);
    }
  }

  lemma TakenIsSpent(steps: seq<Step>, i: nat, k: nat, ticket: string)
    requires Runs(steps) && TakesAt(steps, i, ticket) && i < k <= |steps|
    ensures ticket !in At(steps, k).store.tickets
  {
    AtSucc(steps, i);
    assert At(steps, i + 1).fate[ticket].place.InFlight?;
    RunForward(steps, i + 1, k);
    InvAt(steps, k);
  }

  /** Every redemption attempt after the first is answered invalid_grant. */
  lemma SpentIsInvalidGrant(steps: seq<Step>, i: nat, k: nat, ticket: string)
    requires Runs(steps) && TakesAt(steps, i, ticket) && i < k < |steps|
    requires steps[k].Section? && steps[k].t in At(steps, k).threads
    requires At(steps, k).threads[steps[k].t] == Called(Token(ticket))
    ensures At(steps, k + 1).threads[steps[k].t] == Done(InvalidGrant)
    ensures At(steps, k + 1).store == At(steps, k).store
  {
    TakenIsSpent(steps, i, k, ticket);
    AtSucc(steps, k);
  }

  /** An RPT, once stored, stays active with the same permissions forever. */
  lemma RPTIsForever(steps: seq<Step>, i: nat, k: nat, rpt: string)
    requires Runs(steps) && i <= k <= |steps| && rpt in At(steps, i).store.rpts
    ensures Look(At(steps, k).store, rpt) == Active(At(steps, i).store.rpts[rpt])
  {
    RunForward(steps, i, k);
  }

  /** How a ticket came to its fate before step n: registered at i, taken out at k,
      stored as an RPT at j, in that order. */
  ghost predicate Story(steps: seq<Step>, n: nat, ticket: string, f: Fate, i: nat, k: nat, j: nat)
    requires Runs(steps)
  {
    && i < n && RegistersAt(steps, i, ticket, f.grant)
    && (!f.place.Outstanding? ==> i < k < n && TakesAt(steps, k, ticket))
    && (f.place.Redeemed? ==> k < j < n && StoresAt(steps, j, ticket, f.grant, f.place.rpt))
  }

  lemma {:induction false} TraceBack(steps: seq<Step>, n: nat, ticket: string) returns (i: nat, k: nat, j: nat)
    requires Runs(steps) && n <= |steps| && ticket in At(steps, n).fate
    ensures Story(steps, n, ticket, At(steps, n).fate[ticket], i, k, j)
  {
    var m := n - 1;
    if ticket !in At(steps, m).fate {
      NewFate(steps, m, ticket);
      i, k, j := m, 0, 0;
    } else {
      i, k, j := TraceBack(steps, m, ticket);
      var f, f' := At(steps, m).fate[ticket], At(steps, n).fate[ticket];
      FateStep(steps, m, ticket);
      if f'.place != f.place {
        if f.place.Outstanding? { k := m; } else { j := m; }
      }
    }
  }

  lemma NewFate(steps: seq<Step>, m: nat, ticket: string)
    requires Runs(steps) && m < |steps| && ticket !in At(steps, m).fate && ticket in At(steps, m + 1).fate
    ensures RegistersAt(steps, m, ticket, At(steps, m + 1).fate[ticket].grant)
    ensures At(steps, m + 1).fate[ticket].place.Outstanding?
  {
    InvAt(steps, m);
    AtSucc(steps, m);
    OneStepNew(At(steps, m), steps[m], ticket);
  }

  lemma OneStepNew(s: State, step: Step, ticket: string)
    requires InvPlaces(s) && Enabled(s, step) && ticket !in s.fate && ticket in Apply(s, step).fate
    ensures step.Section? && s.threads[step.t].TicketDrawn? && s.threads[step.t].id == ticket
    ensures Apply(s, step).fate[ticket] == Fate(s.threads[step.t].grant, Outstanding)
  {
  }

  /** A fate changes by one step forward: by being taken, then by being stored. */
  lemma FateStep(steps: seq<Step>, m: nat, ticket: string)
    requires Runs(steps) && m < |steps| && ticket in At(steps, m).fate
    ensures ticket in At(steps, m + 1).fate
    ensures var f, f' := At(steps, m).fate[ticket], At(steps, m + 1).fate[ticket];
            && f'.grant == f.grant
            && (f'.place == f.place
                || (f.place.Outstanding? && f'.place.InFlight? && TakesAt(steps, m, ticket))
                || (f.place.InFlight? && f'.place.Redeemed? && StoresAt(steps, m, ticket, f.grant, f'.place.rpt)))
  {
    InvAt(steps, m);
    AtSucc(steps, m);
    OneStepFate(At(steps, m), steps[m], ticket);
  }

  /** How one step may change one ticket's fate. */
  ghost predicate FateMoves(s: State, step: Step, ticket: string, f: Fate, f': Fate)
    requires Enabled(s, step)
  {
    || f' == f
    || (step.Section? && s.threads[step.t] == Called(Token(ticket)) && ticket in s.store.tickets
        && f.place.Outstanding? && f' == Fate(f.grant, InFlight(step.t)))
    || (step.Section? && s.threads[step.t].RPTDrawn? && f.place.InFlight?
        && s.threads[step.t] == RPTDrawn(ticket, f.grant, s.threads[step.t].rpt)
        && f' == Fate(f.grant, Redeemed(s.threads[step.t].rpt)))
  }

  lemma OneStepFate(s: State, step: Step, ticket: string)
    requires Inv(s) && Enabled(s, step) && ticket in s.fate
    ensures var s' := Apply(s, step);
            ticket in s'.fate && FateMoves(s, step, ticket, s.fate[ticket], s'.fate[ticket])
  {
    if step.Section? {
      var t := step.t;
      if s.threads[t].TicketDrawn? {
        assert PendingId(s.threads[t]) !in s.fate;
      } else if Stores(s, t) {
        StoreFate(s, t, ticket);
      } else if Takes(s, t) {
        TakeFate(s, t, ticket);
      }
    }
  }

  lemma TakeFate(s: State, t: Tid, ticket: string)
    requires InvPlaces(s) && Takes(s, t) && ticket in s.fate
    ensures var s' := DoSection(s, t);
            ticket in s'.fate && FateMoves(s, Section(t), ticket, s.fate[ticket], s'.fate[ticket])
  {
    assert AtPlace(s, s.threads[t].call.ticket, s.fate[s.threads[t].call.ticket]);
  }

  lemma StoreFate(s: State, t: Tid, ticket: string)
    requires InvPlaces(s) && Stores(s, t) && ticket in s.fate
    ensures var s' := DoSection(s, t);
            ticket in s'.fate && FateMoves(s, Section(t), ticket, s.fate[ticket], s'.fate[ticket])
  {
    assert AtPlace(s, s.threads[t].ticket, s.fate[s.threads[t].ticket]);
  }

  /** Every ticket in every reachable state has such a story. */
  lemma Provenance(steps: seq<Step>, n: nat, ticket: string)
    requires Runs(steps) && n <= |steps| && ticket in At(steps, n).fate
    ensures exists i: nat, k: nat, j: nat :: Story(steps, n, ticket, At(steps, n).fate[ticket], i, k, j)
  {
    var i, k, j := TraceBack(steps, n, ticket);
  }
}
