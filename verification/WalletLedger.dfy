// Conservation of money: in memory and in the state file, after any run of
// calls, failed writes and crashes, a balance is the sum of the account's
// credited rows and provider grants less what metering took.

module WalletLedger {
  import opened Basics
  import opened Text
  import opened Wallet

  function Worth(p: Payment): real {
    if p.status == Success then p.amount else 0.0
  }

  function SuccessSum(rows: seq<Payment>): real {
    if rows == [] then 0.0 else SuccessSum(rows[..|rows| - 1]) + Worth(rows[|rows| - 1])
  }

  function Grant(r: ProviderRequest, email: string): real {
    if r.owner == email then r.creditUSD else 0.0
  }

  function GrantSum(reqs: seq<ProviderRequest>, email: string): real {
    if reqs == [] then 0.0 else GrantSum(reqs[..|reqs| - 1], email) + Grant(reqs[|reqs| - 1], email)
  }

  ghost predicate Balanced(l: Ledger, email: string) {
    BalanceOf(l.state, email)
      == SuccessSum(RowsOf(l.state, email)) + GrantSum(l.state.requests, email) - DebitedFrom(l, email)
  }

  ghost predicate Conserved(l: Ledger) {
    forall email: string :: Balanced(l, email)
  }

  ghost predicate Books(w: World) {
    Conserved(w.mem) && Conserved(w.disk)
  }

  // The two inputs the source accepts that no row accounts for: a status that
  // moves money without being "success", and a negative automatic grant.
  predicate Accountable(s: Step) {
    match s
    case AddStep(_, amount, status, _, _) => amount == 0.0 || (Moves(status) <==> status == Success)
    case AskStep(_, _, _, auto, credit, _) => !auto || credit >= 0.0
    case _ => true
  }

  // ----- sums -----

  lemma {:induction false} SuccessSumAppend(rows: seq<Payment>, more: seq<Payment>)
    ensures SuccessSum(rows + more) == SuccessSum(rows) + SuccessSum(more)
    decreases |more|
  {
    if more == [] {
      assert rows + more == rows;
    } else {
      SuccessSumAppend(rows, more[..|more| - 1]);
      assert (rows + more)[..|rows + more| - 1] == rows + more[..|more| - 1];
    }
  }

  lemma {:induction false} SuccessSumReplace(rows: seq<Payment>, i: nat, p: Payment)
    requires i < |rows|
    ensures SuccessSum(rows[i := p]) == SuccessSum(rows) - Worth(rows[i]) + Worth(p)
  {
    var n := |rows| - 1;
    if i == n {
      assert rows[i := p][..n] == rows[..n];
    } else {
      SuccessSumReplace(rows[..n], i, p);
      assert rows[i := p][..n] == rows[..n][i := p];
    }
  }

  lemma {:induction false} SuccessSumPointwise(a: seq<Payment>, b: seq<Payment>)
    requires |a| == |b| && forall i :: 0 <= i < |a| ==> Worth(a[i]) == Worth(b[i])
    ensures SuccessSum(a) == SuccessSum(b)
  {
    if a != [] {
      SuccessSumPointwise(a[..|a| - 1], b[..|b| - 1]);
    }
  }

  lemma GrantSumAppend(reqs: seq<ProviderRequest>, r: ProviderRequest, email: string)
    ensures GrantSum(reqs + [r], email) == GrantSum(reqs, email) + Grant(r, email)
  {
    assert (reqs + [r])[..|reqs|] == reqs;
  }

  lemma {:induction false} GrantSumReplace(reqs: seq<ProviderRequest>, i: nat, r: ProviderRequest, email: string)
    requires i < |reqs|
    ensures GrantSum(reqs[i := r], email) == GrantSum(reqs, email) - Grant(reqs[i], email) + Grant(r, email)
  {
    var n := |reqs| - 1;
    if i == n {
      assert reqs[i := r][..n] == reqs[..n];
    } else {
      GrantSumReplace(reqs[..n], i, r, email);
      assert reqs[i := r][..n] == reqs[..n][i := r];
    }
  }

  lemma PurchaseRowsWorth(p: Subscription, now: int, stamp: string)
    ensures SuccessSum(PurchaseRows(p, now, stamp)) == PositivePart(p.includesCreditUSD) - PositivePart(p.priceUSD)
  {
    var charge := if p.priceUSD > 0.0 then [ChargeRow(p, now, stamp)] else [];
    var bundle := if p.includesCreditUSD > 0.0 then [CreditRow(p, now, stamp)] else [];
    SuccessSumAppend(charge, bundle);
    assert charge != [] ==> charge[..0] == [];
    assert bundle != [] ==> bundle[..0] == [];
    assert PurchaseRows(p, now, stamp) == charge + bundle;
  }

  // ----- one ledger -----

  // Replacing one account whose own law still holds disturbs no other.
  lemma PutUserConserves(l: Ledger, email: string, u: User)
    requires Conserved(l)
    requires u.balance - SuccessSum(u.payments) == BalanceOf(l.state, email) - SuccessSum(RowsOf(l.state, email))
    ensures Conserved(PutUser(l, email, u))
  {
    var m := PutUser(l, email, u);
    forall e: string ensures Balanced(m, e) {
      assert Balanced(l, e);
    }
  }

  lemma StartConserves(l: Ledger, email: string, amount: real, invoice: string, planId: string, now: int)
    requires Conserved(l)
    ensures Conserved(StartLedger(l, email, amount, invoice, planId, now))
  {
    var rows := RowsOf(l.state, email);
    var row := Payment(invoice, amount, Pending, now, Topup, planId, 0.0, "");
    SuccessSumAppend(rows, [row]);
    assert [row][..0] == [];
    PutUserConserves(l, email, UserOf(l.state, email).(payments := rows + [row]));
  }

  lemma SettledConserves(l: Ledger, email: string, i: nat, paid: real, gateway: string)
    requires Conserved(l) && email in l.state.users
    requires i < |RowsOf(l.state, email)| && RowsOf(l.state, email)[i].status == Pending
    ensures Conserved(PutUser(l, email, SettledUser(l.state.users[email], i, paid, gateway)))
  {
    var u := l.state.users[email];
    var v := SettledUser(u, i, paid, gateway);
    SuccessSumReplace(u.payments, i, v.payments[i]);
    PutUserConserves(l, email, v);
  }

  lemma ClosedConserves(l: Ledger, email: string, i: nat, status: Status)
    requires Conserved(l) && email in l.state.users && status != Success
    requires i < |RowsOf(l.state, email)| && RowsOf(l.state, email)[i].status != Success
    ensures var u := l.state.users[email];
      Conserved(PutUser(l, email, u.(payments := u.payments[i := u.payments[i].(status := status)])))
  {
    var u := l.state.users[email];
    SuccessSumReplace(u.payments, i, u.payments[i].(status := status));
    PutUserConserves(l, email, u.(payments := u.payments[i := u.payments[i].(status := status)]));
  }

  lemma ExpiredConserves(l: Ledger, email: string, now: int)
    requires Conserved(l) && email in l.state.users
    ensures var u := l.state.users[email]; Conserved(PutUser(l, email, u.(payments := ExpireRows(u.payments, now))))
  {
    var u := l.state.users[email];
    SuccessSumPointwise(u.payments, ExpireRows(u.payments, now));
    PutUserConserves(l, email, u.(payments := ExpireRows(u.payments, now)));
  }

  // An operator's row keeps the law exactly when it moves money only as
  // "success", or moves none.
  lemma AddPaymentConservesIff(l: Ledger, email: string, amount: real, status: Status, id: string, now: int)
    requires Conserved(l)
    ensures Conserved(AddLedger(l, email, amount, status, id, now))
      <==> (amount == 0.0 || (Moves(status) <==> status == Success))
  {
    var m := AddLedger(l, email, amount, status, id, now);
    var rows := RowsOf(l.state, email);
    var row := Payment(id, amount, status, now, if IsManual(id) then Admin else Unset, "", 0.0, "");
    SuccessSumAppend(rows, [row]);
    assert [row][..0] == [];
    assert Balanced(l, email);
    if amount == 0.0 || (Moves(status) <==> status == Success) {
      PutUserConserves(l, email, m.state.users[email]);
    } else {
      assert !Balanced(m, email);
    }
  }

  lemma PurchasedConserves(l: Ledger, owner: string, p: Subscription, days: int, now: int, stamp: string)
    requires Conserved(l) && owner in l.state.users
    ensures Conserved(PutUser(l, owner, Purchased(l.state.users[owner], p, days, now, stamp)))
  {
    var u := l.state.users[owner];
    SuccessSumAppend(u.payments, PurchaseRows(p, now, stamp));
    PurchaseRowsWorth(p, now, stamp);
    PutUserConserves(l, owner, Purchased(u, p, days, now, stamp));
  }

  // A request row recorded with some grant while its owner received x.
  lemma RequestRowConservesIff(l: Ledger, m: Ledger, r: ProviderRequest, x: real)
    requires Conserved(l)
    requires m.state.requests == l.state.requests + [r] && m.debited == l.debited
    requires forall e: string :: RowsOf(m.state, e) == RowsOf(l.state, e)
    requires forall e: string :: BalanceOf(m.state, e) == BalanceOf(l.state, e) + if e == r.owner then x else 0.0
    ensures Conserved(m) <==> x == r.creditUSD
  {
    assert Balanced(l, r.owner);
    GrantSumAppend(l.state.requests, r, r.owner);
    if x == r.creditUSD {
      forall e: string ensures Balanced(m, e) {
        assert Balanced(l, e);
        GrantSumAppend(l.state.requests, r, e);
      }
    } else {
      assert !Balanced(m, r.owner);
    }
  }

  // A new request keeps the law exactly when it does not record a negative
  // automatic grant, which the balance never receives.
  lemma AskConservesIff(l: Ledger, owner: string, provider: string, note: string, auto: bool, credit: real, now: int)
    requires Conserved(l)
    ensures Conserved(AskLedger(l, owner, provider, note, auto, credit, now)) <==> (!auto || credit >= 0.0)
  {
    var m := AskLedger(l, owner, provider, note, auto, credit, now);
    var r := NewAsk(owner, provider, note, auto, credit, now);
    RequestRowConservesIff(l, m, r, if auto then PositivePart(credit) else 0.0);
  }

  lemma DecidedConserves(l: Ledger, i: nat, approve: bool, credit: real, decision: string, admin: string, now: int)
    requires Conserved(l) && i < |l.state.requests|
    ensures Conserved(DecideLedger(l, i, approve, credit, decision, admin, now))
  {
    var m := DecideLedger(l, i, approve, credit, decision, admin, now);
    var r := Ruled(l.state.requests[i], approve, credit, decision, admin, now);
    forall e: string ensures Balanced(m, e) {
      assert Balanced(l, e);
      GrantSumReplace(l.state.requests, i, r, e);
    }
  }

  lemma ReopenedConserves(l: Ledger, i: nat, note: string, now: int)
    requires Conserved(l) && i < |l.state.requests|
    ensures Conserved(PutRequests(l, l.state.requests[i := Reopened(l.state.requests[i], note, now)]))
  {
    var r := Reopened(l.state.requests[i], note, now);
    var m := PutRequests(l, l.state.requests[i := r]);
    forall e: string ensures Balanced(m, e) {
      assert Balanced(l, e);
      GrantSumReplace(l.state.requests, i, r, e);
    }
  }

  lemma DebitConserves(l: Ledger, tokens: seq<Token>, owner: string, cost: real)
    requires Conserved(l) && owner in l.state.users
    ensures Conserved(l.(state := l.state.(tokens := tokens)))
    ensures Conserved(DebitLedger(l.(state := l.state.(tokens := tokens)), owner, cost))
  {
    var t := l.(state := l.state.(tokens := tokens));
    var m := DebitLedger(t, owner, cost);
    forall e: string ensures Balanced(t, e) && Balanced(m, e) {
      assert Balanced(l, e);
    }
  }

  lemma TokensConserve(l: Ledger, tokens: seq<Token>)
    requires Conserved(l)
    ensures Conserved(l.(state := l.state.(tokens := tokens)))
  {
    var t := l.(state := l.state.(tokens := tokens));
    forall e: string ensures Balanced(t, e) {
      assert Balanced(l, e);
    }
  }

  // ----- one step, any write outcome -----

  lemma InvoiceStepBalances(w: World, e: Event)
    requires Books(w)
    requires e.step.StartStep? || e.step.SettleStep? || e.step.CloseStep? || e.step.ExpireStep?
    ensures Books(Apply(w, e))
  {
    var s := w.mem.state;
    match e.step
    case StartStep(email, amount, invoice, planId, now) =>
      StartConserves(w.mem, Norm(email), amount, invoice, planId, now);
    case SettleStep(raw, invoice, paid, gateway) =>
      var i := FirstRow(RowsOf(s, Norm(raw)), invoice);
      if i < |RowsOf(s, Norm(raw))| && RowsOf(s, Norm(raw))[i].status == Pending {
        SettledConserves(w.mem, Norm(raw), i, paid, gateway);
      }
    case CloseStep(raw, invoice, status) =>
      var i := FirstRow(RowsOf(s, Norm(raw)), invoice);
      if (status == Failed || status == Expired) && i < |RowsOf(s, Norm(raw))|
        && RowsOf(s, Norm(raw))[i].status != Success {
        ClosedConserves(w.mem, Norm(raw), i, status);
      }
    case ExpireStep(raw, now) =>
      if Norm(raw) in s.users {
        ExpiredConserves(w.mem, Norm(raw), now);
      }
  }

  lemma AskStepBalances(w: World, e: Event)
    requires Books(w) && e.step.AskStep? && Accountable(e.step)
    ensures Books(Apply(w, e))
  {
    var AskStep(email, provider, note, auto, credit, now) := e.step;
    var reqs := w.mem.state.requests;
    var i := FirstAsk(reqs, Norm(email), Norm(provider));
    if i < |reqs| {
      ReopenedConserves(w.mem, i, note, now);
    } else {
      AskConservesIff(w.mem, Norm(email), Norm(provider), note, auto, credit, now);
    }
  }

  lemma RecordStepBalances(w: World, e: Event)
    requires Books(w) && e.step.RecordStep?
    ensures Books(Apply(w, e))
  {
    var RecordStep(project, cost, now) := e.step;
    var tokens := w.mem.state.tokens;
    var i := FirstToken(tokens, ProjectName(project));
    if i < |tokens| {
      var used := tokens[i := tokens[i].(lastUsed := now)];
      TokensConserve(w.mem, used);
      var owner := Lower(tokens[i].owner);
      if owner in w.mem.state.users {
        DebitConserves(w.mem, used, owner, cost);
      }
    }
  }

  lemma StepBalances(w: World, e: Event)
    requires Books(w) && Accountable(e.step)
    ensures Books(Apply(w, e))
  {
    var s := w.mem.state;
    match e.step
    case AddStep(raw, amount, status, id, now) =>
      AddPaymentConservesIff(w.mem, Lower(raw), amount, status, id, now);
    case SubscribeStep(raw, plan, days, now, stamp) =>
      if Norm(raw) in s.users {
        PurchasedConserves(w.mem, Norm(raw), plan, days, now, stamp);
      }
    case UnsubscribeStep(raw) =>
      if Norm(raw) in s.users {
        PutUserConserves(w.mem, Norm(raw), s.users[Norm(raw)].(subscription := None));
      }
    case DecideStep(id, approve, credit, decision, admin, now) =>
      var i := FirstRequest(s.requests, id);
      if i < |s.requests| {
        DecidedConserves(w.mem, i, approve, credit, decision, admin, now);
      }
    case AskStep(_, _, _, _, _, _) => AskStepBalances(w, e);
    case RecordStep(_, _, _) => RecordStepBalances(w, e);
    case PersistStep =>
    case CrashStep =>
    case _ => InvoiceStepBalances(w, e);
  }

  // The law over whole runs: every reachable memory and every reachable file.
  lemma {:induction false} BalancesAlwaysExplained(l: Ledger, events: seq<Event>)
    requires Conserved(l)
    requires forall k :: 0 <= k < |events| ==> Accountable(events[k].step)
    ensures Books(Run(Opened(l), events))
    decreases |events|
  {
    if events != [] {
      var before := events[..|events| - 1];
      BalancesAlwaysExplained(l, before);
      StepBalances(Run(Opened(l), before), events[|events| - 1]);
    }
  }

  // An empty deployment satisfies it, so the hypothesis above is not idle.
  lemma EmptyIsConserved(tokens: seq<Token>)
    ensures Conserved(Ledger(State(map[], [], tokens), map[]))
  {
    var l := Ledger(State(map[], [], tokens), map[]);
    forall e: string ensures Balanced(l, e) {
    }
  }
}
