// What can happen to a payment row over a whole run. Rows are only added and
// only move forward; the state file lags memory but never contradicts it; a
// top-up invoice is credited at most once, and never on credit the file lacks.

module WalletHistory {
  import opened Basics
  import opened Text
  import opened Wallet

  // "success" is final, and a row that left "pending" unpaid stays unpaid.
  predicate StatusAdvances(a: Status, b: Status) {
    a == b || a == Pending || (a != Success && (b == Failed || b == Expired))
  }

  predicate RowAdvances(a: Payment, b: Payment) {
    a.id == b.id && a.amount == b.amount && a.createdAt == b.createdAt && a.kind == b.kind && a.planId == b.planId
    && StatusAdvances(a.status, b.status)
  }

  ghost predicate RowsAdvance(a: seq<Payment>, b: seq<Payment>) {
    |a| <= |b| && forall i :: 0 <= i < |a| ==> RowAdvances(a[i], b[i])
  }

  ghost predicate Advances(a: State, b: State) {
    forall e: string :: RowsAdvance(RowsOf(a, e), RowsOf(b, e))
  }

  predicate CreditedTopup(p: Payment) {
    p.kind == Topup && p.status == Success
  }

  // Every top-up credited in memory is credited in the file.
  ghost predicate TopupsDurable(mem: State, disk: State) {
    forall e: string, i: nat :: i < |RowsOf(mem, e)| && CreditedTopup(RowsOf(mem, e)[i])
      ==> i < |RowsOf(disk, e)| && RowsOf(disk, e)[i].status == Success
  }

  // An invoice number names at most one top-up row in the deployment.
  ghost predicate InvoicesUnique(s: State) {
    forall e: string, i: nat, f: string, j: nat ::
      i < |RowsOf(s, e)| && j < |RowsOf(s, f)|
      && RowsOf(s, e)[i].kind == Topup && RowsOf(s, f)[j].kind == Topup
      && RowsOf(s, e)[i].id == RowsOf(s, f)[j].id
      ==> e == f && i == j
  }

  ghost predicate Sound(w: World) {
    && Advances(w.disk.state, w.mem.state)
    && TopupsDurable(w.mem.state, w.disk.state)
    && InvoicesUnique(w.mem.state)
    && (!w.dirty ==> w.mem == w.disk)
  }

  lemma AdvancesTransitive(a: State, b: State, c: State)
    requires Advances(a, b) && Advances(b, c)
    ensures Advances(a, c)
  {
    forall e: string ensures RowsAdvance(RowsOf(a, e), RowsOf(c, e)) {
      assert RowsAdvance(RowsOf(a, e), RowsOf(b, e)) && RowsAdvance(RowsOf(b, e), RowsOf(c, e));
    }
  }

  lemma AdvancesReflexive(a: State)
    ensures Advances(a, a)
  {
    forall e: string ensures RowsAdvance(RowsOf(a, e), RowsOf(a, e)) {
    }
  }

  // ----- what one change of memory does -----

  // A change of one account that advances its rows and adds no credited
  // top-up and no top-up whose invoice is already known.
  ghost predicate Harmless(s: State, rows: seq<Payment>, email: string) {
    && RowsAdvance(RowsOf(s, email), rows)
    && (forall i :: 0 <= i < |rows| && CreditedTopup(rows[i]) ==>
      i < |RowsOf(s, email)| && CreditedTopup(RowsOf(s, email)[i]))
    && (forall i :: |RowsOf(s, email)| <= i < |rows| ==>
      rows[i].kind != Topup || (i == |rows| - 1 == |RowsOf(s, email)| && !InvoiceKnown(s, rows[i].id)))
  }

  lemma PutUserAdvances(l: Ledger, email: string, u: User)
    requires RowsAdvance(RowsOf(l.state, email), u.payments)
    ensures Advances(l.state, PutUser(l, email, u).state)
  {
    var m := PutUser(l, email, u).state;
    forall e: string ensures RowsAdvance(RowsOf(l.state, e), RowsOf(m, e)) {
    }
  }

  lemma PutUserUnique(l: Ledger, email: string, u: User)
    requires InvoicesUnique(l.state) && RowsAdvance(RowsOf(l.state, email), u.payments)
    requires forall i :: |RowsOf(l.state, email)| <= i < |u.payments| ==>
      u.payments[i].kind != Topup
      || (i == |u.payments| - 1 == |RowsOf(l.state, email)| && !InvoiceKnown(l.state, u.payments[i].id))
    ensures InvoicesUnique(PutUser(l, email, u).state)
  {
    var s, m := l.state, PutUser(l, email, u).state;
    forall e: string, i: nat, f: string, j: nat |
      i < |RowsOf(m, e)| && j < |RowsOf(m, f)|
      && RowsOf(m, e)[i].kind == Topup && RowsOf(m, f)[j].kind == Topup
      && RowsOf(m, e)[i].id == RowsOf(m, f)[j].id
      ensures e == f && i == j
    {
      var old1, old2 := i < |RowsOf(s, e)|, j < |RowsOf(s, f)|;
      if old1 && old2 {
        assert RowsOf(s, e)[i].kind == Topup && RowsOf(s, f)[j].kind == Topup;
        assert RowsOf(s, e)[i].id == RowsOf(s, f)[j].id;
      } else if old1 {
        assert RowsOf(s, e)[i].id == RowsOf(m, f)[j].id;
        assert InvoiceKnown(s, RowsOf(m, f)[j].id);
      } else if old2 {
        assert RowsOf(s, f)[j].id == RowsOf(m, e)[i].id;
        assert InvoiceKnown(s, RowsOf(m, e)[i].id);
      }
    }
  }

  // No top-up is credited after that was not credited before.
  ghost predicate NoNewCredit(a: State, b: State) {
    forall e: string, i: nat :: i < |RowsOf(b, e)| && CreditedTopup(RowsOf(b, e)[i])
      ==> i < |RowsOf(a, e)| && CreditedTopup(RowsOf(a, e)[i])
  }

  // What a step that settles nothing does to a sound world.
  ghost predicate Follows(w: World, z: World) {
    Sound(z) && Advances(w.mem.state, z.mem.state) && NoNewCredit(w.mem.state, z.mem.state)
  }

  lemma Stays(w: World)
    requires Sound(w)
    ensures Follows(w, w) && Follows(w, w.(dirty := true)) && Follows(w, Save(w, true))
    ensures Advances(w.mem.state, w.mem.state)
  {
    AdvancesReflexive(w.mem.state);
  }

  // A change of memory, written or not.
  lemma KeepSound(w: World, email: string, u: User, l: Ledger, lands: bool)
    requires Sound(w) && Harmless(w.mem.state, u.payments, email)
    requires l == PutUser(w.mem, email, u)
    ensures Follows(w, Keep(w, l, lands))
    ensures Follows(w, AllOrNothing(w, l, lands))
  {
    Stays(w);
    PutUserAdvances(w.mem, email, u);
    PutUserUnique(w.mem, email, u);
    AdvancesTransitive(w.disk.state, w.mem.state, l.state);
    AdvancesReflexive(l.state);
    assert NoNewCredit(w.mem.state, l.state);
    CreditDurable(w.mem.state, l.state, w.disk.state);
  }

  lemma CreditDurable(a: State, b: State, disk: State)
    requires NoNewCredit(a, b) && TopupsDurable(a, disk)
    ensures TopupsDurable(b, disk)
  {
    forall e: string, i: nat | i < |RowsOf(b, e)| && CreditedTopup(RowsOf(b, e)[i])
      ensures i < |RowsOf(disk, e)| && RowsOf(disk, e)[i].status == Success
    {
      assert CreditedTopup(RowsOf(a, e)[i]);
    }
  }

  lemma SameRowsUnique(a: State, b: State)
    requires InvoicesUnique(a) && forall e: string :: RowsOf(a, e) == RowsOf(b, e)
    ensures InvoicesUnique(b)
  {
    forall e: string, i: nat, f: string, j: nat |
      i < |RowsOf(b, e)| && j < |RowsOf(b, f)|
      && RowsOf(b, e)[i].kind == Topup && RowsOf(b, f)[j].kind == Topup
      && RowsOf(b, e)[i].id == RowsOf(b, f)[j].id
      ensures e == f && i == j
    {
      assert i < |RowsOf(a, e)| && j < |RowsOf(a, f)|;
    }
  }

  // A change taken back when its write fails may also credit a top-up.
  lemma AllOrNothingSound(w: World, email: string, u: User, lands: bool)
    requires Sound(w) && RowsAdvance(RowsOf(w.mem.state, email), u.payments)
    requires forall i :: |RowsOf(w.mem.state, email)| <= i < |u.payments| ==> u.payments[i].kind != Topup
    ensures Sound(AllOrNothing(w, PutUser(w.mem, email, u), lands))
    ensures Advances(w.mem.state, AllOrNothing(w, PutUser(w.mem, email, u), lands).mem.state)
  {
    var l := PutUser(w.mem, email, u);
    PutUserAdvances(w.mem, email, u);
    PutUserUnique(w.mem, email, u);
    AdvancesReflexive(l.state);
    AdvancesReflexive(w.mem.state);
  }

  // A change of anything but the rows.
  lemma RowsUntouchedSound(w: World, l: Ledger, lands: bool)
    requires Sound(w)
    requires forall e: string :: RowsOf(l.state, e) == RowsOf(w.mem.state, e)
    ensures Follows(w, Keep(w, l, lands)) && Follows(w, w.(mem := l, dirty := true))
  {
    AdvancesReflexive(l.state);
    assert Advances(w.mem.state, l.state) by {
      forall e: string ensures RowsAdvance(RowsOf(w.mem.state, e), RowsOf(l.state, e)) {
        assert RowsOf(l.state, e) == RowsOf(w.mem.state, e);
      }
    }
    AdvancesTransitive(w.disk.state, w.mem.state, l.state);
    SameRowsUnique(w.mem.state, l.state);
    assert NoNewCredit(w.mem.state, l.state);
    CreditDurable(w.mem.state, l.state, w.disk.state);
  }

  // ----- one step -----

  lemma StartSound(w: World, raw: string, amount: real, invoice: string, planId: string, now: int, lands: bool)
    requires Sound(w)
    ensures Follows(w, Start(w, raw, amount, invoice, planId, now, lands).0)
  {
    Stays(w);
    var email := Norm(raw);
    if !InvoiceKnown(w.mem.state, invoice) {
      var l := StartLedger(w.mem, email, amount, invoice, planId, now);
      KeepSound(w, email, l.state.users[email], l, lands);
    }
  }

  lemma SettleSound(w: World, raw: string, invoice: string, paid: real, gateway: string, lands: bool)
    requires Sound(w)
    ensures Sound(Settle(w, raw, invoice, paid, gateway, lands).0)
    ensures Advances(w.mem.state, Settle(w, raw, invoice, paid, gateway, lands).0.mem.state)
  {
    Stays(w);
    var email := Norm(raw);
    var rows := RowsOf(w.mem.state, email);
    var i := FirstRow(rows, invoice);
    if i < |rows| && rows[i].status == Pending {
      AllOrNothingSound(w, email, SettledUser(w.mem.state.users[email], i, paid, gateway), lands);
    }
  }

  lemma CloseSound(w: World, raw: string, invoice: string, status: Status, lands: bool)
    requires Sound(w)
    ensures Follows(w, Close(w, raw, invoice, status, lands).0)
  {
    Stays(w);
    var email := Norm(raw);
    var rows := RowsOf(w.mem.state, email);
    var i := FirstRow(rows, invoice);
    if (status == Failed || status == Expired) && i < |rows| && rows[i].status != Success {
      var v := UserOf(w.mem.state, email).(payments := rows[i := rows[i].(status := status)]);
      KeepSound(w, email, v, PutUser(w.mem, email, v), lands);
    }
  }

  lemma ExpireSound(w: World, raw: string, now: int, lands: bool)
    requires Sound(w)
    ensures Follows(w, Expire(w, raw, now, lands).0)
  {
    Stays(w);
    var email := Norm(raw);
    var v := UserOf(w.mem.state, email).(payments := ExpireRows(RowsOf(w.mem.state, email), now));
    KeepSound(w, email, v, PutUser(w.mem, email, v), lands);
  }

  lemma AddSound(w: World, raw: string, amount: real, status: Status, id: string, now: int, lands: bool)
    requires Sound(w)
    ensures Follows(w, Add(w, raw, amount, status, id, now, lands))
  {
    var l := AddLedger(w.mem, Lower(raw), amount, status, id, now);
    KeepSound(w, Lower(raw), l.state.users[Lower(raw)], l, lands);
  }

  lemma SubscribeSound(w: World, raw: string, p: Subscription, days: int, now: int, stamp: string, lands: bool)
    requires Sound(w)
    ensures Follows(w, Subscribe(w, raw, p, days, now, stamp, lands).0)
  {
    Stays(w);
    var owner := Norm(raw);
    if owner in w.mem.state.users {
      var v := Purchased(w.mem.state.users[owner], p, days, now, stamp);
      KeepSound(w, owner, v, PutUser(w.mem, owner, v), lands);
    }
  }

  lemma UnsubscribeSound(w: World, raw: string, lands: bool)
    requires Sound(w)
    ensures Follows(w, Unsubscribe(w, raw, lands).0)
  {
    Stays(w);
    var v := UserOf(w.mem.state, Norm(raw)).(subscription := None);
    KeepSound(w, Norm(raw), v, PutUser(w.mem, Norm(raw), v), lands);
  }

  lemma AskSound(w: World, raw: string, provider: string, note: string, auto: bool, credit: real, now: int, lands: bool)
    requires Sound(w)
    ensures Follows(w, Ask(w, raw, provider, note, auto, credit, now, lands).0)
  {
    Stays(w);
    var owner := Norm(raw);
    var reqs := w.mem.state.requests;
    var i := FirstAsk(reqs, owner, Norm(provider));
    if i < |reqs| {
      RowsUntouchedSound(w, PutRequests(w.mem, reqs[i := Reopened(reqs[i], note, now)]), lands);
    } else {
      RowsUntouchedSound(w, AskLedger(w.mem, owner, Norm(provider), note, auto, credit, now), lands);
    }
  }

  lemma DecideSound(w: World, id: string, approve: bool, credit: real, decision: string, admin: string, now: int,
                    lands: bool)
    requires Sound(w)
    ensures Follows(w, Decide(w, id, approve, credit, decision, admin, now, lands).0)
  {
    Stays(w);
    var i := FirstRequest(w.mem.state.requests, id);
    if i < |w.mem.state.requests| {
      RowsUntouchedSound(w, DecideLedger(w.mem, i, approve, credit, decision, admin, now), lands);
    }
  }

  lemma RecordSound(w: World, project: string, cost: real, now: int, lands: bool)
    requires Sound(w)
    ensures Follows(w, Record(w, project, cost, now, lands))
  {
    Stays(w);
    var z := Record(w, project, cost, now, lands);
    assert forall e: string :: RowsOf(z.mem.state, e) == RowsOf(w.mem.state, e);
    RowsUntouchedSound(w, z.mem, lands);
  }

  lemma RowStepSound(w: World, e: Event)
    requires Sound(w) && (e.step.StartStep? || e.step.CloseStep? || e.step.ExpireStep? || e.step.AddStep?)
    ensures Follows(w, Apply(w, e))
  {
    match e.step
    case StartStep(email, amount, invoice, planId, now) => StartSound(w, email, amount, invoice, planId, now, e.lands);
    case CloseStep(email, invoice, status) => CloseSound(w, email, invoice, status, e.lands);
    case ExpireStep(email, now) => ExpireSound(w, email, now, e.lands);
    case AddStep(email, amount, status, id, now) => AddSound(w, email, amount, status, id, now, e.lands);
  }

  lemma PlanStepSound(w: World, e: Event)
    requires Sound(w) && (e.step.SubscribeStep? || e.step.UnsubscribeStep? || e.step.PersistStep?)
    ensures Follows(w, Apply(w, e))
  {
    match e.step
    case SubscribeStep(email, plan, days, now, stamp) => SubscribeSound(w, email, plan, days, now, stamp, e.lands);
    case UnsubscribeStep(email) => UnsubscribeSound(w, email, e.lands);
    case PersistStep => Stays(w);
  }

  lemma GrantStepSound(w: World, e: Event)
    requires Sound(w) && (e.step.AskStep? || e.step.DecideStep?)
    ensures Follows(w, Apply(w, e))
  {
    match e.step
    case AskStep(email, provider, note, auto, credit, now) =>
      AskSound(w, email, provider, note, auto, credit, now, e.lands);
    case DecideStep(id, approve, credit, decision, admin, now) =>
      DecideSound(w, id, approve, credit, decision, admin, now, e.lands);
  }

  // Every step but a crash and a settlement.
  lemma OtherStepSound(w: World, e: Event)
    requires Sound(w) && !e.step.CrashStep? && !e.step.SettleStep?
    ensures Follows(w, Apply(w, e))
  {
    if e.step.StartStep? || e.step.CloseStep? || e.step.ExpireStep? || e.step.AddStep? {
      RowStepSound(w, e);
    } else if e.step.SubscribeStep? || e.step.UnsubscribeStep? || e.step.PersistStep? {
      PlanStepSound(w, e);
    } else if e.step.RecordStep? {
      RecordSound(w, e.step.project, e.step.cost, e.step.now, e.lands);
    } else {
      GrantStepSound(w, e);
    }
  }

  lemma StepSound(w: World, e: Event)
    requires Sound(w)
    ensures Sound(Apply(w, e))
    ensures Advances(w.disk.state, Apply(w, e).disk.state)
    ensures !e.step.CrashStep? ==> Advances(w.mem.state, Apply(w, e).mem.state)
  {
    AdvancesReflexive(w.disk.state);
    if e.step.CrashStep? {
      AdvancedUnique(w.disk.state, w.mem.state);
    } else {
      if e.step.SettleStep? {
        SettleSound(w, e.step.email, e.step.invoice, e.step.paid, e.step.gateway, e.lands);
      } else {
        OtherStepSound(w, e);
      }
      WriteIsWhole(w, e);
      AdvancesTransitive(w.disk.state, w.mem.state, Apply(w, e).mem.state);
    }
  }

  ghost predicate WroteWhole(w: World, z: World) {
    z.disk == w.disk || z.disk == z.mem
  }

  lemma InvoiceWriteIsWhole(w: World, e: Event)
    requires e.step.StartStep? || e.step.SettleStep? || e.step.CloseStep? || e.step.ExpireStep? || e.step.AddStep?
    ensures WroteWhole(w, Apply(w, e))
  {
  }

  lemma GrantWriteIsWhole(w: World, e: Event)
    requires e.step.AskStep? || e.step.DecideStep? || e.step.RecordStep?
    ensures WroteWhole(w, Apply(w, e))
  {
  }

  // A step leaves the file alone or makes it memory.
  lemma WriteIsWhole(w: World, e: Event)
    ensures WroteWhole(w, Apply(w, e))
  {
    match e.step
    case AskStep(_, _, _, _, _, _) => GrantWriteIsWhole(w, e);
    case DecideStep(_, _, _, _, _, _) => GrantWriteIsWhole(w, e);
    case RecordStep(_, _, _) => GrantWriteIsWhole(w, e);
    case SubscribeStep(_, _, _, _, _) =>
    case UnsubscribeStep(_) =>
    case PersistStep =>
    case CrashStep =>
    case _ => InvoiceWriteIsWhole(w, e);
  }

  // Uniqueness holds of anything memory advanced from.
  lemma AdvancedUnique(a: State, b: State)
    requires Advances(a, b) && InvoicesUnique(b)
    ensures InvoicesUnique(a)
  {
    forall e: string, i: nat, f: string, j: nat |
      i < |RowsOf(a, e)| && j < |RowsOf(a, f)|
      && RowsOf(a, e)[i].kind == Topup && RowsOf(a, f)[j].kind == Topup
      && RowsOf(a, e)[i].id == RowsOf(a, f)[j].id
      ensures e == f && i == j
    {
      assert RowsAdvance(RowsOf(a, e), RowsOf(b, e)) && RowsAdvance(RowsOf(a, f), RowsOf(b, f));
      assert RowAdvances(RowsOf(a, e)[i], RowsOf(b, e)[i]) && RowAdvances(RowsOf(a, f)[j], RowsOf(b, f)[j]);
    }
  }

  // ----- runs -----

  lemma RunStep(w: World, events: seq<Event>, k: nat)
    requires k < |events|
    ensures Run(w, events[..k + 1]) == Apply(Run(w, events[..k]), events[k])
  {
    assert events[..k + 1][..k] == events[..k];
  }

  lemma {:induction false} RunSound(w: World, events: seq<Event>)
    requires Sound(w)
    ensures Sound(Run(w, events))
    ensures Advances(w.disk.state, Run(w, events).disk.state)
    decreases |events|
  {
    AdvancesReflexive(w.disk.state);
    if events != [] {
      var before := events[..|events| - 1];
      RunSound(w, before);
      StepSound(Run(w, before), events[|events| - 1]);
      AdvancesTransitive(w.disk.state, Run(w, before).disk.state, Run(w, events).disk.state);
    }
  }

  lemma OpenedSound(l: Ledger)
    requires InvoicesUnique(l.state)
    ensures Sound(Opened(l))
  {
    AdvancesReflexive(l.state);
  }

  // The flag never lies: when it says clean, memory is what the file holds.
  lemma {:induction false} CleanMeansSaved(l: Ledger, events: seq<Event>)
    requires InvoicesUnique(l.state)
    ensures var w := Run(Opened(l), events); !w.dirty ==> w.mem == w.disk
  {
    OpenedSound(l);
    RunSound(Opened(l), events);
  }

  // Once the file says a row is closed or credited it says so for good, in
  // the file and in memory, through any later calls, failed writes and crashes.
  lemma {:induction false} SettledOnFileIsFinal(w: World, events: seq<Event>, email: string, i: nat)
    requires Sound(w)
    requires i < |RowsOf(w.disk.state, email)| && RowsOf(w.disk.state, email)[i].status != Pending
    ensures var z := Run(w, events);
      i < |RowsOf(z.disk.state, email)| && i < |RowsOf(z.mem.state, email)|
      && (RowsOf(z.disk.state, email)[i].status == Success <==> RowsOf(w.disk.state, email)[i].status == Success)
      && (RowsOf(z.mem.state, email)[i].status == Success <==> RowsOf(w.disk.state, email)[i].status == Success)
  {
    var z := Run(w, events);
    RunSound(w, events);
    assert RowsAdvance(RowsOf(w.disk.state, email), RowsOf(z.disk.state, email));
    assert RowsAdvance(RowsOf(z.disk.state, email), RowsOf(z.mem.state, email));
    assert RowAdvances(RowsOf(w.disk.state, email)[i], RowsOf(z.disk.state, email)[i]);
    assert RowAdvances(RowsOf(z.disk.state, email)[i], RowsOf(z.mem.state, email)[i]);
  }

  // A row closed only in memory can still be credited later, and it can
  // exactly when the file still calls it pending: the close was never written.
  lemma ClosedRowRevivesIff(w: World, raw: string, i: nat)
    requires Sound(w)
    requires i < |RowsOf(w.disk.state, Norm(raw))|
    requires FirstRow(RowsOf(w.disk.state, Norm(raw)), RowsOf(w.disk.state, Norm(raw))[i].id) == i
    requires RowsOf(w.mem.state, Norm(raw))[i].status != Pending && RowsOf(w.mem.state, Norm(raw))[i].status != Success
    ensures (exists events: seq<Event> ::
        var z := Run(w, events);
        i < |RowsOf(z.mem.state, Norm(raw))| && RowsOf(z.mem.state, Norm(raw))[i].status == Success)
      <==> RowsOf(w.disk.state, Norm(raw))[i].status == Pending
  {
    var row := RowsOf(w.disk.state, Norm(raw))[i];
    if row.status == Pending {
      var crash := Event(CrashStep, true);
      var settle := Event(SettleStep(raw, row.id, 0.0, ""), true);
      var events := [crash, settle];
      assert events[..1] == [crash] && [crash][..0] == [];
      assert Run(w, [crash]) == Crash(w);
      assert Run(w, events) == Apply(Crash(w), settle);
      assert RowsOf(Run(w, events).mem.state, Norm(raw))[i].status == Success;
    } else {
      assert RowsAdvance(RowsOf(w.disk.state, Norm(raw)), RowsOf(w.mem.state, Norm(raw)));
      assert RowAdvances(row, RowsOf(w.mem.state, Norm(raw))[i]);
      forall events: seq<Event>
        ensures var z := Run(w, events);
          !(i < |RowsOf(z.mem.state, Norm(raw))| && RowsOf(z.mem.state, Norm(raw))[i].status == Success)
      {
        SettledOnFileIsFinal(w, events, Norm(raw), i);
      }
    }
  }

  lemma FirstRowOfNew(rows: seq<Payment>, p: Payment)
    requires forall k :: 0 <= k < |rows| ==> rows[k].id != p.id
    ensures FirstRow(rows + [p], p.id) == |rows|
  {
    assert (rows + [p])[|rows|] == p;
    assert forall k :: 0 <= k < |rows| ==> (rows + [p])[k] == rows[k];
  }

  lemma TwoSteps(w: World, a: Event, b: Event)
    ensures Run(w, [a, b]) == Apply(Apply(w, a), b)
  {
    assert [a][..0] == [];
    assert Run(w, [a]) == Apply(w, a);
    assert [a, b][..1] == [a];
  }

  // Such a row is two calls away: a top-up started, and closed while its write
  // failed, is closed in memory, pending on file, and credited by a later run.
  lemma ClosedRowRevives(l: Ledger, raw: string, amount: real, invoice: string, planId: string, now: int,
                         status: Status)
    requires InvoicesUnique(l.state) && !InvoiceKnown(l.state, invoice)
    requires Norm(raw) != "" && invoice != "" && amount > 0.0 && (status == Failed || status == Expired)
    ensures var z := Run(Opened(l), [Event(StartStep(raw, amount, invoice, planId, now), true),
                                     Event(CloseStep(raw, invoice, status), false)]);
      var i := |RowsOf(l.state, Norm(raw))|;
      && i < |RowsOf(z.mem.state, Norm(raw))| && RowsOf(z.mem.state, Norm(raw))[i].status == status
      && i < |RowsOf(z.disk.state, Norm(raw))| && RowsOf(z.disk.state, Norm(raw))[i].status == Pending
      && exists events: seq<Event> ::
        var later := Run(z, events);
        i < |RowsOf(later.mem.state, Norm(raw))| && RowsOf(later.mem.state, Norm(raw))[i].status == Success
  {
    var start := Event(StartStep(raw, amount, invoice, planId, now), true);
    var close := Event(CloseStep(raw, invoice, status), false);
    TwoSteps(Opened(l), start, close);
    OpenedSound(l);
    RunSound(Opened(l), [start, close]);
    var rows := RowsOf(l.state, Norm(raw));
    FirstRowOfNew(rows, Payment(invoice, amount, Pending, now, Topup, planId, 0.0, ""));
    ClosedRowRevivesIff(Run(Opened(l), [start, close]), raw, |rows|);
  }

  // ----- an invoice is credited once -----

  // Whether this event credits the top-up row of this invoice.
  predicate Credits(w: World, e: Event, invoice: string) {
    e.step.SettleStep? && e.lands && e.step.invoice == invoice
    && var rows := RowsOf(w.mem.state, Norm(e.step.email));
       var i := FirstRow(rows, invoice);
       i < |rows| && rows[i].kind == Topup && rows[i].status == Pending
       && (e.step.paid <= 0.0 || e.step.paid >= rows[i].amount - 0.01)
  }

  ghost function CreditCount(w: World, events: seq<Event>, invoice: string): nat
    decreases |events|
  {
    if events == [] then 0
    else
      var before := events[..|events| - 1];
      CreditCount(w, before, invoice) + if Credits(Run(w, before), events[|events| - 1], invoice) then 1 else 0
  }

  // The file shows the invoice as credited.
  ghost predicate ShownCredited(w: World, invoice: string) {
    exists e: string, i: nat ::
      i < |RowsOf(w.disk.state, e)| && CreditedTopup(RowsOf(w.disk.state, e)[i])
      && RowsOf(w.disk.state, e)[i].id == invoice
  }

  lemma CreditedStaysCredited(w: World, e: Event, invoice: string)
    requires Sound(w) && ShownCredited(w, invoice)
    ensures ShownCredited(Apply(w, e), invoice)
    ensures !Credits(w, e, invoice)
  {
    var x: string, i: nat :|
      i < |RowsOf(w.disk.state, x)| && CreditedTopup(RowsOf(w.disk.state, x)[i])
      && RowsOf(w.disk.state, x)[i].id == invoice;
    StepSound(w, e);
    var z := Apply(w, e);
    assert RowsAdvance(RowsOf(w.disk.state, x), RowsOf(z.disk.state, x));
    assert RowAdvances(RowsOf(w.disk.state, x)[i], RowsOf(z.disk.state, x)[i]);
    assert CreditedTopup(RowsOf(z.disk.state, x)[i]);
    assert RowsAdvance(RowsOf(w.disk.state, x), RowsOf(w.mem.state, x));
    assert RowAdvances(RowsOf(w.disk.state, x)[i], RowsOf(w.mem.state, x)[i]);
  }

  // No top-up of this invoice is credited after that was not before.
  ghost predicate NoNewCreditOf(a: State, b: State, invoice: string) {
    forall e: string, i: nat :: i < |RowsOf(b, e)| && CreditedTopup(RowsOf(b, e)[i]) && RowsOf(b, e)[i].id == invoice
      ==> i < |RowsOf(a, e)| && CreditedTopup(RowsOf(a, e)[i])
  }

  lemma OneRowChanged(l: Ledger, email: string, u: User, i: nat, invoice: string)
    requires i < |RowsOf(l.state, email)| && |u.payments| == |RowsOf(l.state, email)|
    requires forall k :: 0 <= k < |u.payments| && k != i ==> u.payments[k] == RowsOf(l.state, email)[k]
    requires !(CreditedTopup(u.payments[i]) && u.payments[i].id == invoice)
    ensures NoNewCreditOf(l.state, PutUser(l, email, u).state, invoice)
  {
  }

  // A settlement that does not credit the invoice, of another one or of too
  // little money, leaves what memory shows of it.
  lemma OtherSettlement(w: World, e: Event, invoice: string)
    requires e.step.SettleStep? && !Credits(w, e, invoice)
    ensures NoNewCreditOf(w.mem.state, Apply(w, e).mem.state, invoice)
  {
    var email := Norm(e.step.email);
    var rows := RowsOf(w.mem.state, email);
    var i := FirstRow(rows, e.step.invoice);
    if e.lands && i < |rows| && rows[i].status == Pending {
      var u := SettledUser(w.mem.state.users[email], i, e.step.paid, e.step.gateway);
      OneRowChanged(w.mem, email, u, i, invoice);
    }
  }

  // A row credited in memory before a step was credited on file before it.
  lemma CreditedBefore(w: World, z: World, x: string, i: nat)
    requires Sound(w) && Advances(w.mem.state, z.mem.state)
    requires i < |RowsOf(w.mem.state, x)| && CreditedTopup(RowsOf(w.mem.state, x)[i])
    ensures i < |RowsOf(w.disk.state, x)| && CreditedTopup(RowsOf(w.disk.state, x)[i])
    ensures i < |RowsOf(z.mem.state, x)| && RowsOf(w.disk.state, x)[i].id == RowsOf(z.mem.state, x)[i].id
  {
    assert RowsAdvance(RowsOf(w.mem.state, x), RowsOf(z.mem.state, x));
    assert RowAdvances(RowsOf(w.mem.state, x)[i], RowsOf(z.mem.state, x)[i]);
    assert RowsAdvance(RowsOf(w.disk.state, x), RowsOf(w.mem.state, x));
    assert RowAdvances(RowsOf(w.disk.state, x)[i], RowsOf(w.mem.state, x)[i]);
  }

  lemma StillNotShown(w: World, z: World, invoice: string)
    requires Sound(w) && Advances(w.mem.state, z.mem.state) && NoNewCreditOf(w.mem.state, z.mem.state, invoice)
    requires WroteWhole(w, z)
    ensures ShownCredited(z, invoice) ==> ShownCredited(w, invoice)
  {
    if z.disk == z.mem && ShownCredited(z, invoice) {
      var x: string, i: nat :|
        i < |RowsOf(z.mem.state, x)| && CreditedTopup(RowsOf(z.mem.state, x)[i])
        && RowsOf(z.mem.state, x)[i].id == invoice;
      CreditedBefore(w, z, x, i);
    }
  }

  // Only a crediting event makes the file show a credit.
  lemma CreditNeedsEvent(w: World, e: Event, invoice: string)
    requires Sound(w) && !ShownCredited(w, invoice) && !Credits(w, e, invoice)
    ensures !ShownCredited(Apply(w, e), invoice)
  {
    if !e.step.CrashStep? {
      WriteIsWhole(w, e);
      if e.step.SettleStep? {
        SettleSound(w, e.step.email, e.step.invoice, e.step.paid, e.step.gateway, e.lands);
        OtherSettlement(w, e, invoice);
      } else {
        OtherStepSound(w, e);
      }
      StillNotShown(w, Apply(w, e), invoice);
    }
  }

  // The crediting event moves exactly the row's own amount, into the account
  // the invoice was started against, and the file says so at once.
  lemma CreditIsExact(w: World, e: Event, invoice: string)
    requires Sound(w) && Credits(w, e, invoice)
    ensures var email := Norm(e.step.email);
      var i := FirstRow(RowsOf(w.mem.state, email), invoice);
      var z := Apply(w, e);
      && BalanceOf(z.mem.state, email) == BalanceOf(w.mem.state, email) + RowsOf(w.mem.state, email)[i].amount
      && (forall other: string :: other != email ==> UserOf(z.mem.state, other) == UserOf(w.mem.state, other))
      && z.disk == z.mem
      && ShownCredited(z, invoice)
      && !ShownCredited(w, invoice)
  {
    if ShownCredited(w, invoice) {
      CreditedStaysCredited(w, e, invoice);
    }
    var email := Norm(e.step.email);
    var i := FirstRow(RowsOf(w.mem.state, email), invoice);
    assert CreditedTopup(RowsOf(Apply(w, e).disk.state, email)[i]);
  }

  // Never twice, and never unexplained: over any run the number of crediting
  // events is exactly whether the file went from not showing the invoice as
  // credited to showing it.
  lemma {:induction false} InvoiceCreditedAtMostOnce(w: World, events: seq<Event>, invoice: string)
    requires Sound(w)
    ensures CreditCount(w, events, invoice)
      == (if ShownCredited(Run(w, events), invoice) then 1 else 0) - (if ShownCredited(w, invoice) then 1 else 0)
    decreases |events|
  {
    if events != [] {
      var before, last := events[..|events| - 1], events[|events| - 1];
      InvoiceCreditedAtMostOnce(w, before, invoice);
      RunSound(w, before);
      var mid := Run(w, before);
      if Credits(mid, last, invoice) {
        CreditIsExact(mid, last, invoice);
      } else if ShownCredited(mid, invoice) {
        CreditedStaysCredited(mid, last, invoice);
      } else {
        CreditNeedsEvent(mid, last, invoice);
      }
    }
  }
}
