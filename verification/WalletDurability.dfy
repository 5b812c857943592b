// What a crash can and cannot give back: top-ups survive it, and a customer
// who has spent everything does not come back with money.

module WalletDurability {
  import opened Text
  import opened Wallet
  import opened WalletHistory

  // A top-up credited in memory at any moment of any run is still credited,
  // for the same amount, after a crash at that moment.
  lemma TopupSurvivesCrash(l: Ledger, events: seq<Event>, email: string, i: nat)
    requires InvoicesUnique(l.state)
    requires i < |RowsOf(Run(Opened(l), events).mem.state, email)|
    requires CreditedTopup(RowsOf(Run(Opened(l), events).mem.state, email)[i])
    ensures var w := Run(Opened(l), events);
      var before, after := RowsOf(w.mem.state, email), RowsOf(Crash(w).mem.state, email);
      i < |after| && CreditedTopup(after[i]) && after[i].amount == before[i].amount && after[i].id == before[i].id
  {
    OpenedSound(l);
    RunSound(Opened(l), events);
    var w := Run(Opened(l), events);
    assert RowsAdvance(RowsOf(w.disk.state, email), RowsOf(w.mem.state, email));
    assert RowAdvances(RowsOf(w.disk.state, email)[i], RowsOf(w.mem.state, email)[i]);
  }

  ghost predicate SpentOutOnFile(w: World) {
    forall email: string :: BalanceOf(w.mem.state, email) <= 0.0 ==> BalanceOf(w.disk.state, email) <= 0.0
  }

  // ----- the two calls that can break it -----

  // The debit that empties an account, its write lost while the file still
  // shows money.
  predicate LosesTheEmptying(w: World, project: string, cost: real) {
    var tokens := w.mem.state.tokens;
    var i := FirstToken(tokens, ProjectName(project));
    i < |tokens| && tokens[i].owner != "" && Lower(tokens[i].owner) in w.mem.state.users
    && Empties(w.mem.state.users[Lower(tokens[i].owner)], cost)
    && BalanceOf(w.disk.state, Lower(tokens[i].owner)) > 0.0
  }

  // An operator's row that takes an account to nothing, likewise.
  predicate LosesTheDeduction(w: World, email: string, amount: real, status: Status) {
    Moves(status) && BalanceOf(w.mem.state, email) > 0.0 && BalanceOf(w.mem.state, email) + amount <= 0.0
    && BalanceOf(w.disk.state, email) > 0.0
  }

  predicate Forgets(w: World, e: Event) {
    !e.lands && match e.step
                case RecordStep(project, cost, _) => LosesTheEmptying(w, project, cost)
                case AddStep(email, amount, status, _, _) => LosesTheDeduction(w, Lower(email), amount, status)
                case _ => false
  }

  lemma RecordSpentOutIff(w: World, project: string, cost: real, now: int, lands: bool)
    requires SpentOutOnFile(w)
    ensures SpentOutOnFile(Record(w, project, cost, now, lands)) <==> lands || !LosesTheEmptying(w, project, cost)
  {
    var z := Record(w, project, cost, now, lands);
    var i := FirstToken(w.mem.state.tokens, ProjectName(project));
    if !lands && LosesTheEmptying(w, project, cost) {
      assert BalanceOf(z.mem.state, Lower(w.mem.state.tokens[i].owner)) <= 0.0;
    } else if z.disk != z.mem {
      forall email: string | BalanceOf(z.mem.state, email) <= 0.0 ensures BalanceOf(z.disk.state, email) <= 0.0 {
        assert BalanceOf(w.mem.state, email) <= 0.0 ==> BalanceOf(w.disk.state, email) <= 0.0;
      }
    }
  }

  lemma AddSpentOutIff(w: World, raw: string, amount: real, status: Status, id: string, now: int, lands: bool)
    requires SpentOutOnFile(w)
    ensures SpentOutOnFile(Add(w, raw, amount, status, id, now, lands))
      <==> lands || !LosesTheDeduction(w, Lower(raw), amount, status)
  {
    var z := Add(w, raw, amount, status, id, now, lands);
    if !lands && LosesTheDeduction(w, Lower(raw), amount, status) {
      assert BalanceOf(z.mem.state, Lower(raw)) <= 0.0;
    } else if !lands {
      forall email: string | BalanceOf(z.mem.state, email) <= 0.0 ensures BalanceOf(z.disk.state, email) <= 0.0 {
        assert BalanceOf(w.mem.state, email) <= 0.0 ==> BalanceOf(w.disk.state, email) <= 0.0;
      }
    }
  }

  // Any other call whose write is lost takes no balance down in memory.
  ghost predicate OnlyRaises(w: World, z: World) {
    z.disk == w.disk && forall email: string :: BalanceOf(z.mem.state, email) >= BalanceOf(w.mem.state, email)
  }

  lemma InvoiceOnlyRaises(w: World, e: Event)
    requires !e.lands && (e.step.StartStep? || e.step.SettleStep? || e.step.CloseStep? || e.step.ExpireStep?)
    ensures OnlyRaises(w, Apply(w, e))
  {
  }

  lemma PlanOnlyRaises(w: World, e: Event)
    requires !e.lands && (e.step.SubscribeStep? || e.step.UnsubscribeStep? || e.step.PersistStep?)
    ensures OnlyRaises(w, Apply(w, e))
  {
  }

  lemma GrantOnlyRaises(w: World, e: Event)
    requires !e.lands && (e.step.AskStep? || e.step.DecideStep?)
    ensures OnlyRaises(w, Apply(w, e))
  {
  }

  lemma RaisedSpentOut(w: World, z: World)
    requires SpentOutOnFile(w) && OnlyRaises(w, z)
    ensures SpentOutOnFile(z)
  {
    forall email: string | BalanceOf(z.mem.state, email) <= 0.0 ensures BalanceOf(z.disk.state, email) <= 0.0 {
      assert BalanceOf(w.mem.state, email) <= 0.0;
    }
  }

  lemma LostSpentOutIff(w: World, e: Event)
    requires SpentOutOnFile(w) && !e.lands
    ensures SpentOutOnFile(Apply(w, e)) <==> !Forgets(w, e)
  {
    match e.step
    case RecordStep(project, cost, now) => RecordSpentOutIff(w, project, cost, now, false);
    case AddStep(email, amount, status, id, now) => AddSpentOutIff(w, email, amount, status, id, now, false);
    case AskStep(_, _, _, _, _, _) =>
      GrantOnlyRaises(w, e);
      RaisedSpentOut(w, Apply(w, e));
    case DecideStep(_, _, _, _, _, _) =>
      GrantOnlyRaises(w, e);
      RaisedSpentOut(w, Apply(w, e));
    case SubscribeStep(_, _, _, _, _) =>
      PlanOnlyRaises(w, e);
      RaisedSpentOut(w, Apply(w, e));
    case UnsubscribeStep(_) =>
      PlanOnlyRaises(w, e);
      RaisedSpentOut(w, Apply(w, e));
    case PersistStep =>
      PlanOnlyRaises(w, e);
      RaisedSpentOut(w, Apply(w, e));
    case CrashStep =>
    case _ =>
      InvoiceOnlyRaises(w, e);
      RaisedSpentOut(w, Apply(w, e));
  }

  // A call whose write lands leaves the file equal to memory, or both alone,
  // but for a debit.
  lemma LandedWritesAll(w: World, e: Event)
    requires e.lands && !e.step.RecordStep?
    ensures var z := Apply(w, e); z.mem == z.disk || (z.mem == w.mem && z.disk == w.disk)
  {
  }

  lemma StepSpentOutIff(w: World, e: Event)
    requires SpentOutOnFile(w)
    ensures SpentOutOnFile(Apply(w, e)) <==> !Forgets(w, e)
  {
    if !e.lands {
      LostSpentOutIff(w, e);
    } else if e.step.RecordStep? {
      RecordSpentOutIff(w, e.step.project, e.step.cost, e.step.now, true);
    } else {
      LandedWritesAll(w, e);
    }
  }

  // ----- over runs -----

  // No crash would lift an account at or below zero above it.
  ghost predicate CrashGivesNothingBack(w: World) {
    forall email: string :: BalanceOf(w.mem.state, email) <= 0.0 ==> BalanceOf(Crash(w).mem.state, email) <= 0.0
  }

  lemma {:induction false} NothingForgotten(w: World, events: seq<Event>, n: nat)
    requires SpentOutOnFile(w) && n <= |events|
    requires forall k :: 0 <= k < n ==> !Forgets(Run(w, events[..k]), events[k])
    ensures SpentOutOnFile(Run(w, events[..n]))
  {
    if n > 0 {
      NothingForgotten(w, events, n - 1);
      RunStep(w, events, n - 1);
      StepSpentOutIff(Run(w, events[..n - 1]), events[n - 1]);
    }
  }

  // A crash at any moment of a run gives no spent-out account money back iff
  // no call of the run forgets: an emptying debit or deduction whose own write
  // failed with the file ahead.
  lemma {:induction false} CrashesGiveNothingBackIff(l: Ledger, events: seq<Event>)
    ensures (forall k :: 0 <= k <= |events| ==> CrashGivesNothingBack(Run(Opened(l), events[..k])))
      <==> (forall k :: 0 <= k < |events| ==> !Forgets(Run(Opened(l), events[..k]), events[k]))
  {
    var w := Opened(l);
    if forall k :: 0 <= k < |events| ==> !Forgets(Run(w, events[..k]), events[k]) {
      forall k | 0 <= k <= |events| ensures CrashGivesNothingBack(Run(w, events[..k])) {
        NothingForgotten(w, events, k);
      }
    }
    if forall k :: 0 <= k <= |events| ==> CrashGivesNothingBack(Run(w, events[..k])) {
      forall k | 0 <= k < |events| ensures !Forgets(Run(w, events[..k]), events[k]) {
        assert SpentOutOnFile(Run(w, events[..k]));
        RunStep(w, events, k);
        assert CrashGivesNothingBack(Run(w, events[..k + 1]));
        StepSpentOutIff(Run(w, events[..k]), events[k]);
      }
    }
  }

  // As long as writes land, whoever is at or below zero in memory is so on
  // file: no crash brings a spent-out customer back with money.
  lemma NoCrashRefundsTheSpentOut(l: Ledger, events: seq<Event>)
    requires forall k :: 0 <= k < |events| ==> events[k].lands
    ensures SpentOutOnFile(Run(Opened(l), events))
    ensures CrashGivesNothingBack(Run(Opened(l), events))
  {
    NothingForgotten(Opened(l), events, |events|);
    assert events[..|events|] == events;
  }

  // ----- it happens, and a later write mends it -----

  // One debit followed at once by a crash.
  lemma EmptyingDebitLostIff(w: World, project: string, cost: real, now: int, lands: bool)
    requires FirstToken(w.mem.state.tokens, ProjectName(project)) < |w.mem.state.tokens|
    requires w.mem.state.tokens[FirstToken(w.mem.state.tokens, ProjectName(project))].owner != ""
    requires var owner := Lower(w.mem.state.tokens[FirstToken(w.mem.state.tokens, ProjectName(project))].owner);
      owner in w.mem.state.users && Empties(w.mem.state.users[owner], cost)
    ensures var owner := Lower(w.mem.state.tokens[FirstToken(w.mem.state.tokens, ProjectName(project))].owner);
      BalanceOf(Crash(Record(w, project, cost, now, lands)).mem.state, owner) > 0.0
      <==> !lands && BalanceOf(w.disk.state, owner) > 0.0
  {
    var i := FirstToken(w.mem.state.tokens, ProjectName(project));
    var owner := Lower(w.mem.state.tokens[i].owner);
    assert BalanceOf(Record(w, project, cost, now, lands).mem.state, owner) == w.mem.state.users[owner].balance - cost;
  }

  // The debit in memory, the file as it was, and the flag set.
  lemma LostDebitLeaves(l: Ledger, project: string, cost: real, now: int)
    requires LosesTheEmptying(Opened(l), project, cost)
    ensures var z := Record(Opened(l), project, cost, now, false);
      var owner := Lower(l.state.tokens[FirstToken(l.state.tokens, ProjectName(project))].owner);
      z.dirty && z.disk == l && BalanceOf(z.mem.state, owner) <= 0.0
  {
  }

  // From an opened store: the emptying debit lost, then a crash, brings the
  // money back; the same with the next periodic write in between does not.
  lemma LostDebitComesBack(l: Ledger, project: string, cost: real, now: int)
    requires LosesTheEmptying(Opened(l), project, cost)
    ensures var owner := Lower(l.state.tokens[FirstToken(l.state.tokens, ProjectName(project))].owner);
      var debit := Event(RecordStep(project, cost, now), false);
      var save, crash := Event(PersistStep, true), Event(CrashStep, true);
      && BalanceOf(Run(Opened(l), [debit]).mem.state, owner) <= 0.0
      && BalanceOf(Run(Opened(l), [debit, crash]).mem.state, owner) > 0.0
      && BalanceOf(Run(Opened(l), [debit, save, crash]).mem.state, owner) <= 0.0
  {
    var debit := Event(RecordStep(project, cost, now), false);
    var save, crash := Event(PersistStep, true), Event(CrashStep, true);
    var s := [debit, save, crash];
    assert s[..0] == [] && s[..1] == [debit] && s[..3] == s;
    RunStep(Opened(l), s, 0);
    RunStep(Opened(l), s, 1);
    RunStep(Opened(l), s, 2);
    TwoSteps(Opened(l), debit, crash);
    LostDebitLeaves(l, project, cost, now);
  }
}
