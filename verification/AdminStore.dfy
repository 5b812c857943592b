// The store itself: one in-memory state, one dirty flag, one file, changed in
// place. Each method is tied to the function of module Wallet that says what
// one world becomes, including the undo a failed write calls for. `lands` is
// the outcome the write would have.

module AdminStore {
  import opened Basics
  import opened Text
  import opened Wallet
  import WalletEffects

  // A state with one account's rows replaced.
  function WithRows(s: State, email: string, rows: seq<Payment>): State
    requires email in s.users
  {
    s.(users := s.users[email := s.users[email].(payments := rows)])
  }

  // The rows with the first i looked at.
  ghost predicate PartlyExpired(part: seq<Payment>, rows: seq<Payment>, i: nat, now: int) {
    && |part| == |rows|
    && (forall k :: 0 <= k < i && k < |rows| ==>
      part[k] == if Stale(rows[k], now) then rows[k].(status := Expired) else rows[k])
    && (forall k :: i <= k < |rows| ==> part[k] == rows[k])
  }

  lemma AllExpired(part: seq<Payment>, rows: seq<Payment>, now: int)
    requires PartlyExpired(part, rows, |rows|, now)
    ensures part == ExpireRows(rows, now)
  {
  }

  lemma CountOneMore(rows: seq<Payment>, i: nat, now: int)
    requires i < |rows|
    ensures StaleCount(rows[..i + 1], now) == StaleCount(rows[..i], now) + if Stale(rows[i], now) then 1 else 0
  {
    assert rows[..i + 1][..i] == rows[..i];
  }

  class Store {
    var st: State
    var dirty: bool
    ghost var debited: map<string, real>
    ghost var disk: Ledger

    ghost function Mem(): Ledger
      reads this
    {
      Ledger(st, debited)
    }

    ghost function World(): World
      reads this
    {
      Wallet.World(Mem(), disk, dirty)
    }

    // Opening on what the file holds, after a stop or a crash.
    constructor (file: State, ghost taken: map<string, real>)
      ensures World() == Opened(Ledger(file, taken))
    {
      st := file;
      dirty := false;
      debited := taken;
      disk := Ledger(file, taken);
    }

    // The file is replaced whole, or left as it was.
    method Flush(lands: bool) returns (ok: bool)
      modifies this`disk
      ensures ok == lands
      ensures disk == if lands then Mem() else old(disk)
    {
      if lands {
        disk := Mem();
      }
      ok := lands;
    }

    method Save(lands: bool) returns (ok: bool)
      modifies this`disk, this`dirty
      ensures ok == lands
      ensures World() == Wallet.Save(old(World()), lands)
    {
      ok := Flush(lands);
      dirty := !ok;
    }

    method Persist(lands: bool) returns (err: Option<StoreError>)
      modifies this`disk, this`dirty
      ensures (World(), err) == Wallet.Persist(old(World()), lands)
      ensures err.None? ==> World().mem == World().disk || !old(dirty)
    {
      if !dirty {
        return None;
      }
      var ok := Save(lands);
      return if ok then None else Some(WriteFailed);
    }

    method PutUser(email: string, u: User)
      modifies this`st
      ensures Mem() == Wallet.PutUser(old(Mem()), email, u)
    {
      st := st.(users := st.users[email := u]);
    }

    // The position of the first row with this id, scanning as the source does.
    method FindRow(rows: seq<Payment>, id: string) returns (i: nat)
      ensures i == FirstRow(rows, id)
    {
      i := 0;
      while i < |rows| && rows[i].id != id
        invariant i <= |rows|
        invariant forall k :: 0 <= k < i ==> rows[k].id != id
      {
        i := i + 1;
      }
    }

    method KnowsInvoice(invoice: string) returns (known: bool)
      ensures known <==> InvoiceKnown(st, invoice)
    {
      var left := st.users.Keys;
      while left != {}
        invariant left <= st.users.Keys
        invariant forall e :: e in st.users.Keys - left ==> forall i :: 0 <= i < |RowsOf(st, e)| ==>
          RowsOf(st, e)[i].id != invoice
        decreases left
      {
        var e :| e in left;
        var i := FindRow(st.users[e].payments, invoice);
        if i < |st.users[e].payments| {
          assert RowsOf(st, e)[i].id == invoice;
          return true;
        }
        left := left - {e};
      }
      known := false;
    }

    method StartPaymentFor(rawEmail: string, amount: real, invoice: string, planId: string, now: int, lands: bool)
      returns (err: Option<StoreError>)
      modifies this
      ensures (World(), err) == Start(old(World()), rawEmail, amount, invoice, planId, now, lands)
    {
      var email := Norm(rawEmail);
      if email == "" || invoice == "" {
        return Some(MissingField);
      }
      if amount <= 0.0 {
        return Some(NotPositive);
      }
      var known := KnowsInvoice(invoice);
      if known {
        return Some(DuplicateInvoice);
      }
      if email !in st.users {
        PutUser(email, NEW_USER);
      }
      var u := st.users[email];
      PutUser(email, u.(payments := u.payments + [Payment(invoice, amount, Pending, now, Topup, planId, 0.0, "")]));
      assert Mem() == StartLedger(old(Mem()), email, amount, invoice, planId, now);
      var ok := Save(lands);
      return if ok then None else Some(WriteFailed);
    }

    // Changes a row and the balance in memory, writes, and takes both back when
    // the write failed: then the whole state is exactly the prior one.
    method WriteRow(email: string, i: nat, row: Payment, credit: real, lands: bool) returns (ok: bool)
      requires email in st.users && i < |st.users[email].payments|
      modifies this
      ensures ok == lands
      ensures var u := old(st).users[email];
        World() == AllOrNothing(old(World()),
          Wallet.PutUser(old(Mem()), email, u.(payments := u.payments[i := row], balance := u.balance + credit)), lands)
    {
      var u := st.users[email];
      var before := u.payments[i];
      PutUser(email, u.(payments := u.payments[i := row], balance := u.balance + credit));
      ok := Save(lands);
      if !ok {
        var changed := st.users[email];
        PutUser(email, changed.(balance := changed.balance - credit, payments := changed.payments[i := before]));
        assert st.users[email].payments == u.payments && st.users[email] == u;
        assert st.users == old(st.users);
      }
    }

    // Credits the invoice's own amount, or marks it underpaid; on a failed
    // write nothing has changed.
    method SettleVerified(rawEmail: string, invoice: string, paid: real, gateway: string, lands: bool)
      returns (r: Settlement)
      modifies this
      ensures (World(), r) == Settle(old(World()), rawEmail, invoice, paid, gateway, lands)
      ensures r.err == Some(WriteFailed) ==> Mem() == old(Mem()) && disk == old(disk) && dirty
      ensures WalletEffects.PaidByInvoice(old(st), st, Norm(rawEmail), paid, r)
    {
      WalletEffects.SettlementSays(World(), rawEmail, invoice, paid, gateway, lands);
      var email := Norm(rawEmail);
      if email !in st.users {
        return Settlement(0.0, None, Some(PaymentNotFound));
      }
      var u := st.users[email];
      var i := FindRow(u.payments, invoice);
      if i == |u.payments| {
        return Settlement(0.0, None, Some(PaymentNotFound));
      }
      var before := u.payments[i];
      if before.status == Success {
        return Settlement(u.balance, Some(before), Some(AlreadySettled));
      }
      if before.status != Pending {
        return Settlement(u.balance, Some(before), Some(PaymentNotFound));
      }
      var row := if gateway != "" then before.(gateway := gateway) else before;
      if paid > 0.0 {
        row := row.(paidUSD := paid);
        if paid + UNDERPAID_TOLERANCE < row.amount {
          row := row.(status := Underpaid);
          var ok := WriteRow(email, i, row, 0.0, lands);
          return if ok then Settlement(u.balance, Some(row), Some(PaidTooLittle))
                 else Settlement(u.balance, Some(before), Some(WriteFailed));
        }
      }
      row := row.(status := Success);
      var ok := WriteRow(email, i, row, row.amount, lands);
      return if ok then Settlement(u.balance + row.amount, Some(row), None)
             else Settlement(u.balance, Some(before), Some(WriteFailed));
    }

    method ClosePayment(rawEmail: string, invoice: string, status: Status, lands: bool)
      returns (err: Option<StoreError>)
      modifies this
      ensures (World(), err) == Close(old(World()), rawEmail, invoice, status, lands)
    {
      var email := Norm(rawEmail);
      if status != Failed && status != Expired {
        return Some(BadCloseStatus);
      }
      if email !in st.users {
        return Some(PaymentNotFound);
      }
      var u := st.users[email];
      var i := FindRow(u.payments, invoice);
      if i == |u.payments| {
        return Some(PaymentNotFound);
      }
      if u.payments[i].status == Success {
        return Some(AlreadySettled);
      }
      PutUser(email, u.(payments := u.payments[i := u.payments[i].(status := status)]));
      var ok := Save(lands);
      return if ok then None else Some(WriteFailed);
    }

    // Marks this account's stale rows in place and counts them.
    method ExpireInPlace(email: string, now: int) returns (n: nat)
      requires email in st.users
      modifies this`st
      ensures Mem() ==
        Wallet.PutUser(old(Mem()), email,
                       old(st).users[email].(payments := ExpireRows(old(st).users[email].payments, now)))
      ensures n == StaleCount(old(st).users[email].payments, now)
      ensures n == 0 ==> st == old(st)
    {
      ghost var rows := st.users[email].payments;
      ghost var part := rows;
      n := 0;
      var i := 0;
      assert st.users == st.users[email := st.users[email]];
      while i < |st.users[email].payments|
        invariant i <= |rows| && PartlyExpired(part, rows, i, now)
        invariant st == WithRows(old(st), email, part)
        invariant n == StaleCount(rows[..i], now)
        invariant n == 0 ==> part == rows
      {
        var p := st.users[email].payments[i];
        CountOneMore(rows, i, now);
        if Stale(p, now) {
          part := part[i := p.(status := Expired)];
          st := WithRows(st, email, st.users[email].payments[i := p.(status := Expired)]);
          n := n + 1;
        }
        i := i + 1;
      }
      AllExpired(part, rows, now);
      assert rows[..|rows|] == rows;
    }

    method ExpireStalePayments(rawEmail: string, now: int, lands: bool) returns (n: nat)
      modifies this
      ensures (World(), n) == Expire(old(World()), rawEmail, now, lands)
      ensures n == 0 ==> World() == old(World())
    {
      var email := Norm(rawEmail);
      if email !in st.users {
        return 0;
      }
      n := ExpireInPlace(email, now);
      if n > 0 {
        var ok := Save(lands);
      }
    }

    // The invoices a payer's return asks about: the oldest pending ones first.
    method PendingPayments(rawEmail: string, limit: int) returns (pending: seq<Payment>)
      ensures var open := StillPending(RowsOf(st, Norm(rawEmail)));
        pending == if Norm(rawEmail) == "" || limit <= 0 then [] else if |open| <= limit then open else open[..limit]
    {
      var email := Norm(rawEmail);
      pending := [];
      if email == "" || limit <= 0 || email !in st.users {
        return;
      }
      var rows := st.users[email].payments;
      var i := 0;
      while i < |rows| && |pending| < limit
        invariant i <= |rows| && |pending| <= limit
        invariant pending == StillPending(rows[..i])
      {
        assert rows[..i + 1][..i] == rows[..i];
        if rows[i].status == Pending {
          pending := pending + [rows[i]];
        }
        i := i + 1;
      }
      StillPendingPrefix(rows, i);
      assert rows[..|rows|] == rows;
    }

    method AddPayment(rawEmail: string, amount: real, status: Status, id: string, now: int, lands: bool)
      returns (balance: real)
      modifies this
      ensures World() == Add(old(World()), rawEmail, amount, status, id, now, lands)
      ensures balance == BalanceOf(st, Lower(rawEmail))
    {
      var email := Lower(rawEmail);
      if email !in st.users {
        PutUser(email, NEW_USER);
      }
      var u := st.users[email];
      if status != Failed && status != Pending {
        u := u.(balance := u.balance + amount);
      }
      var kind := if IsManual(id) then Admin else Unset;
      u := u.(payments := u.payments + [Payment(id, amount, status, now, kind, "", 0.0, "")]);
      PutUser(email, u);
      assert Mem() == AddLedger(old(Mem()), email, amount, status, id, now);
      var ok := Save(lands);
      balance := st.users[email].balance;
    }

    // The term a purchase makes: a renewal of the same plan extends what is
    // still running, anything else starts now.
    method TermFor(held: Option<Subscription>, p: Subscription, days: int, now: int) returns (next: Subscription)
      ensures next == NextTerm(held, p, days, now)
    {
      next := p.(startedAt := now, expiresAt := now + days * DAY);
      if held.Some? && held.value.planId == p.planId {
        var cur := held.value;
        next := next.(renewals := cur.renewals + 1);
        if Active(cur, now) {
          next := next.(startedAt := cur.startedAt, expiresAt := cur.expiresAt + days * DAY);
        }
      }
    }

    // The charge and the bundled credit, each with the row that explains it.
    method ChargeFor(u: User, p: Subscription, now: int, stamp: string) returns (v: User)
      ensures v.balance == u.balance - PositivePart(p.priceUSD) + PositivePart(p.includesCreditUSD)
      ensures v.payments == u.payments + PurchaseRows(p, now, stamp)
      ensures v.subscription == u.subscription
    {
      v := u;
      if p.priceUSD > 0.0 {
        v := v.(balance := v.balance - p.priceUSD,
                payments := v.payments
                  + [Payment("plan-" + p.planId + "-" + stamp, -p.priceUSD, Success, now,
                             PlanCharge, p.planId, 0.0, "")]);
      }
      if p.includesCreditUSD > 0.0 {
        v := v.(balance := v.balance + p.includesCreditUSD,
                payments := v.payments
                  + [Payment("plan-credit-" + p.planId + "-" + stamp, p.includesCreditUSD, Success, now,
                             PlanCredit, p.planId, 0.0, "")]);
      }
    }

    // Charge, bundled credit, their history rows and the term land in one
    // write or in none.
    method Subscribe(rawOwner: string, p: Subscription, days: int, now: int, stamp: string, lands: bool)
      returns (r: Purchase)
      modifies this
      ensures (World(), r) == Wallet.Subscribe(old(World()), rawOwner, p, days, now, stamp, lands)
      ensures r.Refused? ==> Mem() == old(Mem()) && disk == old(disk)
    {
      var owner := Norm(rawOwner);
      if owner == "" || Trim(p.planId) == "" {
        return Refused(MissingField);
      }
      if days <= 0 {
        return Refused(BadTerm);
      }
      if owner !in st.users {
        return Refused(NoSuchUser);
      }
      var u := st.users[owner];
      if p.purchaseKey != "" && u.subscription.Some? && u.subscription.value.purchaseKey == p.purchaseKey {
        return Bought(u.subscription.value);
      }
      if p.priceUSD > 0.0 && u.balance < p.priceUSD {
        return Refused(InsufficientBalance);
      }
      var next := TermFor(u.subscription, p, days, now);
      var prevRows := |u.payments|;
      var v := ChargeFor(u, p, now, stamp);
      v := v.(subscription := Some(next));
      PutUser(owner, v);
      dirty := true;
      var ok := Save(lands);
      if !ok {
        var w := st.users[owner];
        PutUser(owner, w.(balance := u.balance, subscription := u.subscription, payments := w.payments[..prevRows]));
        assert st.users[owner] == u;
        assert st.users == old(st.users);
        return Refused(WriteFailed);
      }
      return Bought(next);
    }

    method Unsubscribe(rawOwner: string, lands: bool) returns (err: Option<StoreError>)
      modifies this
      ensures (World(), err) == Wallet.Unsubscribe(old(World()), rawOwner, lands)
    {
      var owner := Norm(rawOwner);
      if owner !in st.users || st.users[owner].subscription.None? {
        return None;
      }
      PutUser(owner, st.users[owner].(subscription := None));
      dirty := true;
      var ok := Save(lands);
      return if ok then None else Some(WriteFailed);
    }

    method Credit(owner: string, amount: real)
      modifies this`st
      ensures Mem() == Credited(old(Mem()), owner, amount)
    {
      if owner !in st.users {
        PutUser(owner, NEW_USER);
      }
      var u := st.users[owner];
      PutUser(owner, u.(balance := u.balance + amount));
      assert st.users == Credited(old(Mem()), owner, amount).state.users;
    }

    method RequestProvider(rawOwner: string, rawProvider: string, note: string, auto: bool, credit: real, now: int,
                           lands: bool)
      returns (r: Answer)
      modifies this
      ensures (World(), r) == Ask(old(World()), rawOwner, rawProvider, note, auto, credit, now, lands)
    {
      var owner, provider := Norm(rawOwner), Norm(rawProvider);
      if owner == "" || provider == "" {
        return NotAnswered(MissingField);
      }
      var i := 0;
      while i < |st.requests| && !(st.requests[i].owner == owner && st.requests[i].provider == provider)
        invariant i <= |st.requests|
        invariant forall k :: 0 <= k < i ==> !(st.requests[k].owner == owner && st.requests[k].provider == provider)
      {
        i := i + 1;
      }
      if i < |st.requests| {
        var found := st.requests[i];
        if found.status == Denied {
          found := found.(status := Asked, note := note, decision := "",
                          createdAt := now, decidedAt := None, decidedBy := "");
          st := st.(requests := st.requests[i := found]);
          dirty := true;
          var ok := Save(lands);
          if !ok {
            return NotAnswered(WriteFailed);
          }
        }
        return Answered(found);
      }
      var req := ProviderRequest(owner + "|" + provider, owner, provider, Asked, note, "", 0.0, false, now, None, "");
      if auto {
        req := req.(status := Approved, auto := true, decidedAt := Some(now), decidedBy := "auto", creditUSD := credit);
        if credit > 0.0 {
          Credit(owner, credit);
        }
      }
      st := st.(requests := st.requests + [req]);
      dirty := true;
      var ok := Save(lands);
      return if ok then Answered(req) else NotAnswered(WriteFailed);
    }

    method DecideProviderRequest(id: string, approve: bool, credit: real, decision: string, admin: string, now: int,
                                 lands: bool)
      returns (r: Answer)
      modifies this
      ensures (World(), r) == Decide(old(World()), id, approve, credit, decision, admin, now, lands)
    {
      var i := 0;
      while i < |st.requests| && st.requests[i].id != id
        invariant i <= |st.requests|
        invariant forall k :: 0 <= k < i ==> st.requests[k].id != id
      {
        i := i + 1;
      }
      if i == |st.requests| {
        return NotAnswered(NoSuchRequest);
      }
      var req := st.requests[i].(status := Denied);
      if approve {
        req := req.(status := Approved);
      }
      req := req.(decision := decision, decidedAt := Some(now), decidedBy := admin);
      if approve && credit > 0.0 {
        req := req.(creditUSD := req.creditUSD + credit);
        Credit(req.owner, credit);
      }
      st := st.(requests := st.requests[i := req]);
      dirty := true;
      var ok := Save(lands);
      return if ok then Answered(req) else NotAnswered(WriteFailed);
    }

    // The debit of one metered call. Only the one that empties the account is
    // written at once.
    method RecordUsage(project: string, cost: real, now: int, lands: bool)
      modifies this
      ensures World() == Record(old(World()), project, cost, now, lands)
      ensures WalletEffects.ChargedExactly(old(st), st, project, cost)
    {
      var name := ProjectName(project);
      var exhausted := false;
      var i := 0;
      while i < |st.tokens| && !EqualFold(st.tokens[i].name, name)
        invariant i <= |st.tokens|
        invariant forall k :: 0 <= k < i ==> !EqualFold(st.tokens[k].name, name)
      {
        i := i + 1;
      }
      if i < |st.tokens| {
        st := st.(tokens := st.tokens[i := st.tokens[i].(lastUsed := now)]);
        if st.tokens[i].owner != "" {
          var owner := Lower(st.tokens[i].owner);
          if owner in st.users {
            var u := st.users[owner];
            PutUser(owner, u.(balance := u.balance - cost));
            debited := debited[owner := DebitedFrom(old(Mem()), owner) + cost];
            exhausted := u.balance > 0.0 && u.balance - cost <= 0.0;
          }
        }
      }
      dirty := true;
      if exhausted {
        var ok := Save(lands);
      }
      WalletEffects.MeteringChargesOne(old(World()), project, cost, now, lands);
    }
  }

  // The pending rows of a history, in order.
  function StillPending(rows: seq<Payment>): (r: seq<Payment>)
    ensures |r| <= |rows|
  {
    if rows == [] then []
    else StillPending(rows[..|rows| - 1]) + if rows[|rows| - 1].status == Pending then [rows[|rows| - 1]] else []
  }

  // Scanning a prefix yields a prefix of what scanning everything yields.
  lemma {:induction false} StillPendingPrefix(rows: seq<Payment>, i: nat)
    requires i <= |rows|
    ensures StillPending(rows[..i]) <= StillPending(rows)
    decreases |rows|
  {
    if i == |rows| {
      assert rows[..i] == rows;
    } else {
      var front := rows[..|rows| - 1];
      StillPendingPrefix(front, i);
      assert front[..i] == rows[..i];
    }
  }

  // Which rows are pending, one by one.
  lemma {:induction false} PendingInTurn(a: seq<Payment>, b: seq<Payment>)
    ensures StillPending(a + b) == StillPending(a) + StillPending(b)
    ensures |a| == 1 ==> StillPending(a) == if a[0].status == Pending then a else []
    decreases |b|
  {
    if |a| == 1 {
      assert a[..0] == [];
    }
    if b == [] {
      assert a + b == a;
    } else {
      var front, last := b[..|b| - 1], b[|b| - 1];
      PendingInTurn(a, front);
      assert (a + b)[..|a + b| - 1] == a + front;
      assert StillPending(a) + (StillPending(front) + if last.status == Pending then [last] else [])
        == StillPending(a) + StillPending(front) + if last.status == Pending then [last] else [];
    }
  }
}
