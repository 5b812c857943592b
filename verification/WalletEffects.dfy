// What each wallet call does to accounts, rows and requests, said outright: with
// the amounts, limits and names themselves and none of the functions that
// compute them. The other laws of the wallet rest on these.

module WalletEffects {
  import opened Basics
  import opened Text
  import opened Wallet
  import WalletHistory

  // Every account but one is as it was.
  ghost predicate OthersUntouched(w: World, z: World, email: string) {
    forall e: string :: e != email ==> UserOf(z.mem.state, e) == UserOf(w.mem.state, e)
  }

  // A crash loses what the file does not hold and nothing else.
  lemma CrashReopensTheFile(w: World)
    ensures Crash(w) == Wallet.World(w.disk, w.disk, false)
  {
  }

  // ----- top-ups -----

  // A new invoice is one more pending row for exactly the amount asked, and no
  // money moves; the row stays in memory even when it could not be written.
  lemma StartsPending(w: World, raw: string, amount: real, invoice: string, planId: string, now: int, lands: bool)
    requires Norm(raw) != "" && invoice != "" && amount > 0.0 && !InvoiceKnown(w.mem.state, invoice)
    ensures var (z, err) := Start(w, raw, amount, invoice, planId, now, lands);
      && RowsOf(z.mem.state, Norm(raw)) ==
           RowsOf(w.mem.state, Norm(raw)) + [Payment(invoice, amount, Pending, now, Topup, planId, 0.0, "")]
      && BalanceOf(z.mem.state, Norm(raw)) == BalanceOf(w.mem.state, Norm(raw))
      && OthersUntouched(w, z, Norm(raw))
      && z.disk == (if lands then z.mem else w.disk)
      && err == (if lands then None else Some(WriteFailed))
  {
  }

  // A start without an account, a number or money, or with a number any account
  // already has, is refused and changes nothing.
  lemma StartRefused(w: World, raw: string, amount: real, invoice: string, planId: string, now: int, lands: bool)
    ensures var (z, err) := Start(w, raw, amount, invoice, planId, now, lands);
      && (Norm(raw) == "" || invoice == "" ==> z == w && err == Some(MissingField))
      && (Norm(raw) != "" && invoice != "" && amount <= 0.0 ==> z == w && err == Some(NotPositive))
      && (Norm(raw) != "" && invoice != "" && amount > 0.0
          && (exists e: string, i: nat :: i < |RowsOf(w.mem.state, e)| && RowsOf(w.mem.state, e)[i].id == invoice) ==>
           z == w && err == Some(DuplicateInvoice))
  {
  }

  // The first row with this invoice number, still pending: it is credited in
  // full when the bridge said nothing of the money or at most a cent less than
  // the invoice, and otherwise marked short with nothing credited. A failed
  // write leaves memory and file as they were.
  lemma SettlesByTheInvoice(w: World, raw: string, invoice: string, paid: real, gateway: string, lands: bool, i: nat)
    requires Norm(raw) in w.mem.state.users
    requires i < |RowsOf(w.mem.state, Norm(raw))| && RowsOf(w.mem.state, Norm(raw))[i].id == invoice
    requires forall k :: 0 <= k < i ==> RowsOf(w.mem.state, Norm(raw))[k].id != invoice
    requires RowsOf(w.mem.state, Norm(raw))[i].status == Pending
    ensures var (z, r) := Settle(w, raw, invoice, paid, gateway, lands);
      var rows := RowsOf(w.mem.state, Norm(raw));
      var a := rows[i].amount;
      && (lands ==> (r.err.None? <==> paid <= 0.0 || paid >= a - 0.01))
      && (lands && paid > 0.0 && paid < a - 0.01 ==> r.err == Some(PaidTooLittle))
      && (lands ==>
           && BalanceOf(z.mem.state, Norm(raw)) ==
                BalanceOf(w.mem.state, Norm(raw)) + (if paid <= 0.0 || paid >= a - 0.01 then a else 0.0)
           && RowsOf(z.mem.state, Norm(raw)) ==
                rows[i := Payment(invoice, a, if paid <= 0.0 || paid >= a - 0.01 then Success else Underpaid,
                                  rows[i].createdAt, rows[i].kind, rows[i].planId,
                                  if paid > 0.0 then paid else rows[i].paidUSD,
                                  if gateway != "" then gateway else rows[i].gateway)])
      && (lands ==> z.disk == z.mem)
      && OthersUntouched(w, z, Norm(raw))
      && (!lands ==> r.err == Some(WriteFailed) && z == Wallet.World(w.mem, w.disk, true))
  {
    assert FirstRow(RowsOf(w.mem.state, Norm(raw)), invoice) == i;
  }

  // What the answer to a settlement says of the money, in short.
  ghost predicate PaidByInvoice(before: State, after: State, email: string, paid: real, r: Settlement) {
    && (r.err.None? ==>
         && r.payment.Some? && (paid <= 0.0 || paid >= r.payment.value.amount - 0.01)
         && BalanceOf(after, email) == BalanceOf(before, email) + r.payment.value.amount)
    && (r.err == Some(PaidTooLittle) ==>
         && r.payment.Some? && 0.0 < paid < r.payment.value.amount - 0.01
         && BalanceOf(after, email) == BalanceOf(before, email))
    && (r.err.Some? ==> BalanceOf(after, email) == BalanceOf(before, email))
  }

  lemma SettlementSays(w: World, raw: string, invoice: string, paid: real, gateway: string, lands: bool)
    ensures var (z, r) := Settle(w, raw, invoice, paid, gateway, lands);
      PaidByInvoice(w.mem.state, z.mem.state, Norm(raw), paid, r)
  {
  }

  // No such row is refused, a credited one is answered as settled, and one that
  // closed unpaid is not found; none of it changes anything.
  lemma SettlesNothingElse(w: World, raw: string, invoice: string, paid: real, gateway: string, lands: bool)
    requires forall i :: 0 <= i < |RowsOf(w.mem.state, Norm(raw))| ==> RowsOf(w.mem.state, Norm(raw))[i].id != invoice
    ensures Settle(w, raw, invoice, paid, gateway, lands) == (w, Settlement(0.0, None, Some(PaymentNotFound)))
  {
    var i := FirstRow(RowsOf(w.mem.state, Norm(raw)), invoice);
  }

  lemma SettlesOnlyPending(w: World, raw: string, invoice: string, paid: real, gateway: string, lands: bool, i: nat)
    requires Norm(raw) in w.mem.state.users
    requires i < |RowsOf(w.mem.state, Norm(raw))| && RowsOf(w.mem.state, Norm(raw))[i].id == invoice
    requires forall k :: 0 <= k < i ==> RowsOf(w.mem.state, Norm(raw))[k].id != invoice
    requires RowsOf(w.mem.state, Norm(raw))[i].status != Pending
    ensures var row := RowsOf(w.mem.state, Norm(raw))[i];
      Settle(w, raw, invoice, paid, gateway, lands) ==
        (w, Settlement(BalanceOf(w.mem.state, Norm(raw)), Some(row),
                       Some(if row.status == Success then AlreadySettled else PaymentNotFound)))
  {
    assert FirstRow(RowsOf(w.mem.state, Norm(raw)), invoice) == i;
  }

  // A row that was not credited is closed as asked, with no money moved.
  lemma ClosesTheRow(w: World, raw: string, invoice: string, status: Status, lands: bool, i: nat)
    requires Norm(raw) in w.mem.state.users && (status == Failed || status == Expired)
    requires i < |RowsOf(w.mem.state, Norm(raw))| && RowsOf(w.mem.state, Norm(raw))[i].id == invoice
    requires forall k :: 0 <= k < i ==> RowsOf(w.mem.state, Norm(raw))[k].id != invoice
    ensures var (z, err) := Close(w, raw, invoice, status, lands);
      var rows := RowsOf(w.mem.state, Norm(raw));
      && (rows[i].status == Success ==> z == w && err == Some(AlreadySettled))
      && (rows[i].status != Success ==>
           && RowsOf(z.mem.state, Norm(raw)) == rows[i := rows[i].(status := status)]
           && BalanceOf(z.mem.state, Norm(raw)) == BalanceOf(w.mem.state, Norm(raw))
           && OthersUntouched(w, z, Norm(raw))
           && z.disk == if lands then z.mem else w.disk)
  {
    assert FirstRow(RowsOf(w.mem.state, Norm(raw)), invoice) == i;
  }

  // An invoice raised for an amount, whatever happened since, credits that
  // amount when it is credited.
  lemma CreditsWhatWasAsked(w: World, raw: string, amount: real, invoice: string, planId: string, now: int,
                            events: seq<Event>, e: Event)
    requires WalletHistory.Sound(w) && Norm(raw) != "" && invoice != "" && amount > 0.0
    requires !InvoiceKnown(w.mem.state, invoice)
    requires WalletHistory.Credits(Run(Start(w, raw, amount, invoice, planId, now, true).0, events), e, invoice)
    ensures var z := Run(Start(w, raw, amount, invoice, planId, now, true).0, events);
      && Norm(e.step.email) == Norm(raw)
      && BalanceOf(Apply(z, e).mem.state, Norm(raw)) == BalanceOf(z.mem.state, Norm(raw)) + amount
  {
    var start := Event(StartStep(raw, amount, invoice, planId, now), true);
    var begun := Apply(w, start);
    var z := Run(begun, events);
    var i := |RowsOf(w.mem.state, Norm(raw))|;
    StartsPending(w, raw, amount, invoice, planId, now, true);
    WalletHistory.StepSound(w, start);
    WalletHistory.RunSound(begun, events);
    StillTheInvoice(begun.disk.state, z.disk.state, z.mem.state, Norm(raw), i);
    OnlyRowOfInvoice(z, Norm(raw), i, Norm(e.step.email), invoice);
    WalletHistory.CreditIsExact(z, e, invoice);
  }

  lemma StillTheInvoice(a: State, b: State, c: State, email: string, i: nat)
    requires WalletHistory.Advances(a, b) && WalletHistory.Advances(b, c) && i < |RowsOf(a, email)|
    ensures i < |RowsOf(c, email)|
    ensures RowsOf(c, email)[i].id == RowsOf(a, email)[i].id && RowsOf(c, email)[i].amount == RowsOf(a, email)[i].amount
    ensures RowsOf(c, email)[i].kind == RowsOf(a, email)[i].kind
  {
    assert WalletHistory.RowsAdvance(RowsOf(a, email), RowsOf(b, email));
    assert WalletHistory.RowsAdvance(RowsOf(b, email), RowsOf(c, email));
    assert WalletHistory.RowAdvances(RowsOf(a, email)[i], RowsOf(b, email)[i]);
    assert WalletHistory.RowAdvances(RowsOf(b, email)[i], RowsOf(c, email)[i]);
  }

  lemma OnlyRowOfInvoice(z: World, email: string, i: nat, other: string, invoice: string)
    requires WalletHistory.InvoicesUnique(z.mem.state) && i < |RowsOf(z.mem.state, email)|
    requires RowsOf(z.mem.state, email)[i].id == invoice && RowsOf(z.mem.state, email)[i].kind == Topup
    requires var j := FirstRow(RowsOf(z.mem.state, other), invoice);
      j < |RowsOf(z.mem.state, other)| && RowsOf(z.mem.state, other)[j].kind == Topup
    ensures other == email && FirstRow(RowsOf(z.mem.state, other), invoice) == i
  {
    var j := FirstRow(RowsOf(z.mem.state, other), invoice);
    assert RowsOf(z.mem.state, other)[j].id == invoice;
  }

  // A pending row expires once more than seven days old, and no other does.
  lemma ExpiresAfterAWeek(w: World, raw: string, now: int, lands: bool, i: nat)
    requires Norm(raw) in w.mem.state.users && i < |RowsOf(w.mem.state, Norm(raw))|
    ensures var (z, n) := Expire(w, raw, now, lands);
      var before, after := RowsOf(w.mem.state, Norm(raw)), RowsOf(z.mem.state, Norm(raw));
      && |after| == |before|
      && after[i] == (if before[i].status == Pending && now - before[i].createdAt > 604800
                      then before[i].(status := Expired) else before[i])
      && BalanceOf(z.mem.state, Norm(raw)) == BalanceOf(w.mem.state, Norm(raw))
      && OthersUntouched(w, z, Norm(raw))
      && (n == 0 <==> forall k :: 0 <= k < |before| ==>
        !(before[k].status == Pending && now - before[k].createdAt > 604800))
  {
    NoneStaleIff(RowsOf(w.mem.state, Norm(raw)), now);
  }

  lemma {:induction false} NoneStaleIff(rows: seq<Payment>, now: int)
    ensures StaleCount(rows, now) == 0
      <==> (forall k :: 0 <= k < |rows| ==> !(rows[k].status == Pending && now - rows[k].createdAt > 604800))
  {
    if rows != [] {
      NoneStaleIff(rows[..|rows| - 1], now);
    }
  }

  // ----- an operator's row -----

  lemma AddsTheRow(w: World, raw: string, amount: real, status: Status, id: string, now: int, lands: bool)
    ensures var z := Add(w, raw, amount, status, id, now, lands);
      && RowsOf(z.mem.state, Lower(raw)) == RowsOf(w.mem.state, Lower(raw))
           + [Payment(id, amount, status, now, if "manual-" <= id then Admin else Unset, "", 0.0, "")]
      && BalanceOf(z.mem.state, Lower(raw)) ==
           BalanceOf(w.mem.state, Lower(raw)) + (if status == Failed || status == Pending then 0.0 else amount)
      && OthersUntouched(w, z, Lower(raw))
      && z.disk == (if lands then z.mem else w.disk)
  {
  }

  // ----- metering -----

  // The first key of that name, case apart; a call without a project is the
  // operator's own.
  ghost predicate FirstKey(s: State, project: string, i: nat) {
    && i < |s.tokens|
    && Lower(s.tokens[i].name) == Lower(if project == "" then "(admin)" else project)
    && forall k :: 0 <= k < i ==> Lower(s.tokens[k].name) != Lower(if project == "" then "(admin)" else project)
  }

  // The account a metered call is charged to.
  ghost predicate ChargedTo(s: State, project: string, email: string) {
    exists i: nat :: FirstKey(s, project, i) && s.tokens[i].owner != "" && Lower(s.tokens[i].owner) == email
      && email in s.users
  }

  lemma KeyIsFirstToken(s: State, project: string, i: nat)
    requires FirstKey(s, project, i)
    ensures FirstToken(s.tokens, ProjectName(project)) == i
  {
  }

  // A metered call takes its cost from the account it is charged to, whatever
  // is left there and whether or not anything is written, and touches no other
  // money.
  lemma MeteringCharges(w: World, project: string, cost: real, now: int, lands: bool, email: string)
    ensures BalanceOf(Record(w, project, cost, now, lands).mem.state, email) ==
      BalanceOf(w.mem.state, email) - (if ChargedTo(w.mem.state, project, email) then cost else 0.0)
    ensures RowsOf(Record(w, project, cost, now, lands).mem.state, email) == RowsOf(w.mem.state, email)
    ensures UserOf(Record(w, project, cost, now, lands).mem.state, email).subscription
      == UserOf(w.mem.state, email).subscription
  {
    var s := w.mem.state;
    var i := FirstToken(s.tokens, ProjectName(project));
    if i < |s.tokens| {
      assert FirstKey(s, project, i);
    }
    if ChargedTo(s, project, email) {
      var k: nat :| FirstKey(s, project, k) && s.tokens[k].owner != "" && Lower(s.tokens[k].owner) == email
        && email in s.users;
      KeyIsFirstToken(s, project, k);
    }
  }

  ghost predicate ChargedExactly(before: State, after: State, project: string, cost: real) {
    forall email: string ::
      BalanceOf(after, email) == BalanceOf(before, email) - if ChargedTo(before, project, email) then cost else 0.0
  }

  lemma MeteringChargesOne(w: World, project: string, cost: real, now: int, lands: bool)
    ensures ChargedExactly(w.mem.state, Record(w, project, cost, now, lands).mem.state, project, cost)
  {
    forall email: string ensures BalanceOf(Record(w, project, cost, now, lands).mem.state, email) ==
      BalanceOf(w.mem.state, email) - (if ChargedTo(w.mem.state, project, email) then cost else 0.0)
    {
      MeteringCharges(w, project, cost, now, lands, email);
    }
  }

  // The key is stamped, and only the debit that empties the account is written.
  lemma MeteringWrites(w: World, project: string, cost: real, now: int, lands: bool, i: nat)
    requires FirstKey(w.mem.state, project, i)
    ensures var s, z := w.mem.state, Record(w, project, cost, now, lands);
      var owner := Lower(s.tokens[i].owner);
      var empties := s.tokens[i].owner != "" && owner in s.users
        && BalanceOf(s, owner) > 0.0 && BalanceOf(s, owner) - cost <= 0.0;
      && z.mem.state.tokens == s.tokens[i := s.tokens[i].(lastUsed := now)]
      && z.mem.state.requests == s.requests
      && z.disk == (if empties && lands then z.mem else w.disk)
      && (z.dirty <==> !(empties && lands))
  {
    KeyIsFirstToken(w.mem.state, project, i);
  }

  // The costs of the calls of a run that were charged to an account.
  ghost function CostsTo(w: World, events: seq<Event>, email: string): real
    decreases |events|
  {
    if events == [] then 0.0
    else
      var front, e := events[..|events| - 1], events[|events| - 1];
      CostsTo(w, front, email)
        + if e.step.RecordStep? && ChargedTo(Run(w, front).mem.state, e.step.project, email) then e.step.cost else 0.0
  }

  lemma DebitedByCharge(w: World, project: string, cost: real, now: int, lands: bool, email: string)
    ensures DebitedFrom(Record(w, project, cost, now, lands).mem, email) ==
      DebitedFrom(w.mem, email) + if ChargedTo(w.mem.state, project, email) then cost else 0.0
  {
    var s := w.mem.state;
    var i := FirstToken(s.tokens, ProjectName(project));
    if i < |s.tokens| {
      assert FirstKey(s, project, i);
    }
    if ChargedTo(s, project, email) {
      var k: nat :| FirstKey(s, project, k) && s.tokens[k].owner != "" && Lower(s.tokens[k].owner) == email
        && email in s.users;
      KeyIsFirstToken(s, project, k);
    }
  }

  lemma OthersDebitNothing(w: World, e: Event)
    requires !e.step.RecordStep? && !e.step.CrashStep?
    ensures Apply(w, e).mem.debited == w.mem.debited
  {
  }

  // Over a run without a crash, what was taken from an account is the sum of
  // the costs of the calls charged to it.
  lemma {:induction false} DebitedIsTheCosts(w: World, events: seq<Event>, email: string)
    requires forall k :: 0 <= k < |events| ==> !events[k].step.CrashStep?
    ensures DebitedFrom(Run(w, events).mem, email) == DebitedFrom(w.mem, email) + CostsTo(w, events, email)
    decreases |events|
  {
    if events != [] {
      var front, e := events[..|events| - 1], events[|events| - 1];
      DebitedIsTheCosts(w, front, email);
      if e.step.RecordStep? {
        DebitedByCharge(Run(w, front), e.step.project, e.step.cost, e.step.now, e.lands, email);
      } else {
        OthersDebitNothing(Run(w, front), e);
      }
    }
  }

  // ----- plans -----

  // What a purchase comes to: the price off, the bundled credit on, one row
  // for each, and the term. A first purchase, or one of another plan, starts
  // now; the same plan runs on from its end while it lasts, and from now after.
  lemma PurchaseComesTo(w: World, raw: string, p: Subscription, days: int, now: int, stamp: string, lands: bool)
    requires Norm(raw) != "" && Norm(raw) in w.mem.state.users && Trim(p.planId) != "" && days > 0
    requires p.purchaseKey == "" || UserOf(w.mem.state, Norm(raw)).subscription.None?
      || UserOf(w.mem.state, Norm(raw)).subscription.value.purchaseKey != p.purchaseKey
    requires p.priceUSD <= 0.0 || BalanceOf(w.mem.state, Norm(raw)) >= p.priceUSD
    ensures var (z, r) := Wallet.Subscribe(w, raw, p, days, now, stamp, lands);
      var u, v := UserOf(w.mem.state, Norm(raw)), UserOf(z.mem.state, Norm(raw));
      var charge := if p.priceUSD > 0.0
        then [Payment("plan-" + p.planId + "-" + stamp, -p.priceUSD, Success, now, PlanCharge, p.planId, 0.0, "")]
        else [];
      var bundle := if p.includesCreditUSD > 0.0
        then [Payment("plan-credit-" + p.planId + "-" + stamp, p.includesCreditUSD, Success, now,
                      PlanCredit, p.planId, 0.0, "")]
        else [];
      && (lands ==>
           && v.subscription.Some? && r == Bought(v.subscription.value)
           && v.balance == u.balance - (if p.priceUSD > 0.0 then p.priceUSD else 0.0)
                           + (if p.includesCreditUSD > 0.0 then p.includesCreditUSD else 0.0)
           && v.payments == u.payments + (charge + bundle)
           && z.disk == z.mem)
      && (!lands ==> r == Refused(WriteFailed) && z == Wallet.World(w.mem, w.disk, true))
      && OthersUntouched(w, z, Norm(raw))
  {
  }

  lemma TermStartsNow(cur: Option<Subscription>, p: Subscription, days: int, now: int)
    requires cur.None? || cur.value.planId != p.planId
    ensures NextTerm(cur, p, days, now) == p.(startedAt := now, expiresAt := now + days * 86400)
  {
  }

  lemma TermRunsOn(cur: Subscription, p: Subscription, days: int, now: int)
    requires cur.planId == p.planId && p.planId != ""
    ensures NextTerm(Some(cur), p, days, now) ==
      p.(renewals := cur.renewals + 1,
         startedAt := if now < cur.expiresAt then cur.startedAt else now,
         expiresAt := (if now < cur.expiresAt then cur.expiresAt else now) + days * 86400)
  {
  }

  // The term bought is the one those two give, so a purchase by someone who
  // held no plan ends exactly the days bought from now.
  lemma FirstTermEnds(w: World, raw: string, p: Subscription, days: int, now: int, stamp: string)
    requires Norm(raw) != "" && Norm(raw) in w.mem.state.users && Trim(p.planId) != "" && days > 0
    requires UserOf(w.mem.state, Norm(raw)).subscription.None?
      || (UserOf(w.mem.state, Norm(raw)).subscription.value.planId != p.planId
          && (p.purchaseKey == "" || UserOf(w.mem.state, Norm(raw)).subscription.value.purchaseKey != p.purchaseKey))
    requires p.priceUSD <= 0.0 || BalanceOf(w.mem.state, Norm(raw)) >= p.priceUSD
    ensures UserOf(Wallet.Subscribe(w, raw, p, days, now, stamp, true).0.mem.state, Norm(raw)).subscription
      == Some(p.(startedAt := now, expiresAt := now + days * 86400))
  {
    TermStartsNow(UserOf(w.mem.state, Norm(raw)).subscription, p, days, now);
  }

  lemma RenewedTermEnds(w: World, raw: string, p: Subscription, days: int, now: int, stamp: string)
    requires Norm(raw) != "" && Norm(raw) in w.mem.state.users && Trim(p.planId) != "" && days > 0
    requires UserOf(w.mem.state, Norm(raw)).subscription.Some?
    requires var cur := UserOf(w.mem.state, Norm(raw)).subscription.value;
      cur.planId == p.planId && (p.purchaseKey == "" || cur.purchaseKey != p.purchaseKey)
    requires p.priceUSD <= 0.0 || BalanceOf(w.mem.state, Norm(raw)) >= p.priceUSD
    ensures var cur := UserOf(w.mem.state, Norm(raw)).subscription.value;
      var z := Wallet.Subscribe(w, raw, p, days, now, stamp, true).0;
      UserOf(z.mem.state, Norm(raw)).subscription == Some(
        p.(renewals := cur.renewals + 1,
           startedAt := if now < cur.expiresAt then cur.startedAt else now,
           expiresAt := (if now < cur.expiresAt then cur.expiresAt else now) + days * 86400))
  {
    assert p.planId != "" by {
      assert Trim("") == "";
    }
    TermRunsOn(UserOf(w.mem.state, Norm(raw)).subscription.value, p, days, now);
  }

  // A purchase without an account or a plan, for no days, or by nobody known
  // is refused; the same click again is answered with the term it bought; none
  // of it changes anything.
  lemma PurchaseNotTaken(w: World, raw: string, p: Subscription, days: int, now: int, stamp: string, lands: bool)
    ensures var r := Wallet.Subscribe(w, raw, p, days, now, stamp, lands);
      var named := Norm(raw) != "" && Trim(p.planId) != "";
      && (!named ==> r == (w, Refused(MissingField)))
      && (named && days <= 0 ==> r == (w, Refused(BadTerm)))
      && (named && days > 0 && Norm(raw) !in w.mem.state.users ==> r == (w, Refused(NoSuchUser)))
      && (named && days > 0 && Norm(raw) in w.mem.state.users && p.purchaseKey != ""
          && w.mem.state.users[Norm(raw)].subscription.Some?
          && w.mem.state.users[Norm(raw)].subscription.value.purchaseKey == p.purchaseKey ==>
           r == (w, Bought(w.mem.state.users[Norm(raw)].subscription.value)))
  {
  }

  // So does one the balance does not cover.
  lemma PurchaseRefused(w: World, raw: string, p: Subscription, days: int, now: int, stamp: string, lands: bool)
    requires Norm(raw) in w.mem.state.users && Norm(raw) != "" && Trim(p.planId) != "" && days > 0
    requires p.priceUSD > 0.0 && BalanceOf(w.mem.state, Norm(raw)) < p.priceUSD
    requires p.purchaseKey == "" || UserOf(w.mem.state, Norm(raw)).subscription.None?
      || UserOf(w.mem.state, Norm(raw)).subscription.value.purchaseKey != p.purchaseKey
    ensures Wallet.Subscribe(w, raw, p, days, now, stamp, lands) == (w, Refused(InsufficientBalance))
  {
  }

  lemma Cancels(w: World, raw: string, lands: bool)
    ensures var z := Unsubscribe(w, raw, lands).0;
      var u, v := UserOf(w.mem.state, Norm(raw)), UserOf(z.mem.state, Norm(raw));
      && v.subscription.None? && v.balance == u.balance && v.payments == u.payments
      && OthersUntouched(w, z, Norm(raw))
  {
  }

  // ----- provider access -----

  // The first request for a provider is recorded, and when it is automatic its
  // positive credit is granted with it.
  lemma AsksFirst(w: World, rawOwner: string, rawProvider: string, note: string, auto: bool, credit: real, now: int,
                  lands: bool)
    requires Norm(rawOwner) != "" && Norm(rawProvider) != ""
    requires forall k :: 0 <= k < |w.mem.state.requests| ==>
      !(w.mem.state.requests[k].owner == Norm(rawOwner) && w.mem.state.requests[k].provider == Norm(rawProvider))
    ensures var z := Ask(w, rawOwner, rawProvider, note, auto, credit, now, lands).0;
      var owner, provider := Norm(rawOwner), Norm(rawProvider);
      && z.mem.state.requests == w.mem.state.requests + [
           ProviderRequest(owner + "|" + provider, owner, provider, if auto then Approved else Asked, note, "",
                           if auto then credit else 0.0, auto, now,
                           if auto then Some(now) else None, if auto then "auto" else "")]
      && BalanceOf(z.mem.state, owner) == BalanceOf(w.mem.state, owner) + (if auto && credit > 0.0 then credit else 0.0)
      && RowsOf(z.mem.state, owner) == RowsOf(w.mem.state, owner)
      && OthersUntouched(w, z, owner)
  {
  }

  // Asking again reopens a denied request, moves no money, and otherwise
  // answers with what there is.
  lemma AsksAgain(w: World, rawOwner: string, rawProvider: string, note: string, auto: bool, credit: real, now: int,
                  lands: bool, i: nat)
    requires Norm(rawOwner) != "" && Norm(rawProvider) != "" && i < |w.mem.state.requests|
    requires w.mem.state.requests[i].owner == Norm(rawOwner) && w.mem.state.requests[i].provider == Norm(rawProvider)
    requires forall k :: 0 <= k < i ==>
      !(w.mem.state.requests[k].owner == Norm(rawOwner) && w.mem.state.requests[k].provider == Norm(rawProvider))
    ensures var z := Ask(w, rawOwner, rawProvider, note, auto, credit, now, lands).0;
      var r := w.mem.state.requests[i];
      && z.mem.state.users == w.mem.state.users
      && z.mem.state.requests == w.mem.state.requests[i :=
           if r.status != Denied then r
           else r.(status := Asked, note := note, decision := "", createdAt := now, decidedAt := None, decidedBy := "")]
  {
    assert FirstAsk(w.mem.state.requests, Norm(rawOwner), Norm(rawProvider)) == i;
  }

  // A ruling sets the request and, when it approves with a positive credit,
  // grants that credit to the request's owner and adds it to what the request
  // has been given.
  lemma RulesOnRequest(w: World, id: string, approve: bool, credit: real, decision: string, admin: string, now: int,
                       lands: bool, i: nat)
    requires i < |w.mem.state.requests| && w.mem.state.requests[i].id == id
    requires forall k :: 0 <= k < i ==> w.mem.state.requests[k].id != id
    ensures var z := Decide(w, id, approve, credit, decision, admin, now, lands).0;
      var r := w.mem.state.requests[i];
      var granted := if approve && credit > 0.0 then credit else 0.0;
      && z.mem.state.requests == w.mem.state.requests[i :=
           r.(status := if approve then Approved else Denied, decision := decision, decidedAt := Some(now),
              decidedBy := admin, creditUSD := r.creditUSD + granted)]
      && BalanceOf(z.mem.state, r.owner) == BalanceOf(w.mem.state, r.owner) + granted
      && RowsOf(z.mem.state, r.owner) == RowsOf(w.mem.state, r.owner)
      && OthersUntouched(w, z, r.owner)
  {
    assert FirstRequest(w.mem.state.requests, id) == i;
  }
}
