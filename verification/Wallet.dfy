// The wallet as values: what one in-memory state holds, what one write of it
// to the state file does, and what every money-moving operation turns one
// world (memory, file, dirty flag) into.

module Wallet {
  import opened Basics
  import opened Text

  datatype Status = Pending | Success | Failed | Expired | Underpaid | Custom(text: string)

  datatype Kind = Unset | Topup | PlanCharge | PlanCredit | Admin

  datatype Payment = Payment(
    id: string, amount: real, status: Status, createdAt: int, kind: Kind,
    planId: string, paidUSD: real, gateway: string)

  datatype Subscription = Subscription(
    planId: string, name: string, startedAt: int, expiresAt: int,
    priceUSD: real, markup: real, minChargeUSD: real, providers: seq<string>,
    renewals: int, includesCreditUSD: real, purchaseKey: string)

  datatype User = User(balance: real, payments: seq<Payment>, subscription: Option<Subscription>)

  datatype RequestStatus = Asked | Approved | Denied

  datatype ProviderRequest = ProviderRequest(
    id: string, owner: string, provider: string, status: RequestStatus,
    note: string, decision: string, creditUSD: real, auto: bool,
    createdAt: int, decidedAt: Option<int>, decidedBy: string)

  datatype Token = Token(name: string, owner: string, lastUsed: int)

  datatype State = State(users: map<string, User>, requests: seq<ProviderRequest>, tokens: seq<Token>)

  // A state together with the history variable the conservation law needs:
  // what RecordUsage has taken from each account so far.
  datatype Ledger = Ledger(state: State, debited: map<string, real>)

  // Memory, the state file, and the flag that says they may differ.
  datatype World = World(mem: Ledger, disk: Ledger, dirty: bool)

  datatype StoreError =
    | MissingField | NotPositive | DuplicateInvoice | PaymentNotFound
    | AlreadySettled | PaidTooLittle | BadCloseStatus | BadTerm | NoSuchUser
    | InsufficientBalance | NoSuchRequest | WriteFailed

  const UNDERPAID_TOLERANCE: real := 0.01
  const DAY: int := 86400
  const PENDING_MAX_AGE: int := 7 * DAY

  // ----- reading a state -----

  const NEW_USER: User := User(0.0, [], None)

  function UserOf(s: State, email: string): User {
    if email in s.users then s.users[email] else NEW_USER
  }

  function RowsOf(s: State, email: string): seq<Payment> {
    UserOf(s, email).payments
  }

  function BalanceOf(s: State, email: string): real {
    UserOf(s, email).balance
  }

  function DebitedFrom(l: Ledger, email: string): real {
    if email in l.debited then l.debited[email] else 0.0
  }

  function FirstRow(rows: seq<Payment>, id: string): (i: nat)
    ensures i <= |rows|
    ensures i < |rows| ==> rows[i].id == id
    ensures forall k :: 0 <= k < i ==> rows[k].id != id
  {
    if rows == [] then 0
    else if rows[0].id == id then 0
    else 1 + FirstRow(rows[1..], id)
  }

  ghost predicate InvoiceKnown(s: State, invoice: string) {
    exists e: string, i: nat :: i < |RowsOf(s, e)| && RowsOf(s, e)[i].id == invoice
  }

  // The first request of owner for provider, or |requests|.
  function FirstAsk(reqs: seq<ProviderRequest>, owner: string, provider: string): (i: nat)
    ensures i <= |reqs|
    ensures i < |reqs| ==> reqs[i].owner == owner && reqs[i].provider == provider
    ensures forall k :: 0 <= k < i ==> !(reqs[k].owner == owner && reqs[k].provider == provider)
  {
    if reqs == [] then 0
    else if reqs[0].owner == owner && reqs[0].provider == provider then 0
    else 1 + FirstAsk(reqs[1..], owner, provider)
  }

  function FirstRequest(reqs: seq<ProviderRequest>, id: string): (i: nat)
    ensures i <= |reqs|
    ensures i < |reqs| ==> reqs[i].id == id
    ensures forall k :: 0 <= k < i ==> reqs[k].id != id
  {
    if reqs == [] then 0
    else if reqs[0].id == id then 0
    else 1 + FirstRequest(reqs[1..], id)
  }

  function FirstToken(tokens: seq<Token>, project: string): (i: nat)
    ensures i <= |tokens|
    ensures i < |tokens| ==> EqualFold(tokens[i].name, project)
    ensures forall k :: 0 <= k < i ==> !EqualFold(tokens[k].name, project)
  {
    if tokens == [] then 0
    else if EqualFold(tokens[0].name, project) then 0
    else 1 + FirstToken(tokens[1..], project)
  }

  // ----- writing -----

  function PutUser(l: Ledger, email: string, u: User): Ledger {
    l.(state := l.state.(users := l.state.users[email := u]))
  }

  // One write of the whole state: it lands, or it changes nothing on disk and
  // leaves the change marked as pending.
  function Save(w: World, lands: bool): World {
    if lands then World(w.mem, w.mem, false) else w.(dirty := true)
  }

  // A change kept in memory whether or not its write lands.
  function Keep(w: World, l: Ledger, lands: bool): World {
    Save(w.(mem := l), lands)
  }

  // A change taken back out of memory when its write fails.
  function AllOrNothing(w: World, l: Ledger, lands: bool): World {
    if lands then Save(w.(mem := l), true) else w.(dirty := true)
  }

  // The process dies and the store is opened again on what the file holds.
  function Crash(w: World): World {
    World(w.disk, w.disk, false)
  }

  // ----- invoices (payments.go) -----

  function StartLedger(l: Ledger, email: string, amount: real, invoice: string, planId: string, now: int): Ledger {
    var u := UserOf(l.state, email);
    PutUser(l, email, u.(payments := u.payments + [Payment(invoice, amount, Pending, now, Topup, planId, 0.0, "")]))
  }

  ghost function Start(w: World, rawEmail: string, amount: real, invoice: string, planId: string, now: int,
                       lands: bool): (World, Option<StoreError>)
  {
    var email := Norm(rawEmail);
    if email == "" || invoice == "" then (w, Some(MissingField))
    else if amount <= 0.0 then (w, Some(NotPositive))
    else if InvoiceKnown(w.mem.state, invoice) then (w, Some(DuplicateInvoice))
    else (Keep(w, StartLedger(w.mem, email, amount, invoice, planId, now), lands),
          if lands then None else Some(WriteFailed))
  }

  datatype Settlement = Settlement(balance: real, payment: Option<Payment>, err: Option<StoreError>)

  // The row as the bridge described it, before its status is decided.
  function Described(p: Payment, paid: real, gateway: string): Payment {
    var g := if gateway != "" then p.(gateway := gateway) else p;
    if paid > 0.0 then g.(paidUSD := paid) else g
  }

  predicate TooLittle(p: Payment, paid: real) {
    paid > 0.0 && paid + UNDERPAID_TOLERANCE < p.amount
  }

  function SettledUser(u: User, i: nat, paid: real, gateway: string): User
    requires i < |u.payments|
  {
    var p := u.payments[i];
    var q := Described(p, paid, gateway);
    if TooLittle(p, paid) then u.(payments := u.payments[i := q.(status := Underpaid)])
    else u.(payments := u.payments[i := q.(status := Success)], balance := u.balance + p.amount)
  }

  function Settle(w: World, rawEmail: string, invoice: string, paid: real, gateway: string, lands: bool)
    : (World, Settlement)
  {
    var email := Norm(rawEmail);
    if email !in w.mem.state.users then (w, Settlement(0.0, None, Some(PaymentNotFound)))
    else
      var u := w.mem.state.users[email];
      var i := FirstRow(u.payments, invoice);
      if i == |u.payments| then (w, Settlement(0.0, None, Some(PaymentNotFound)))
      else
        var p := u.payments[i];
        if p.status == Success then (w, Settlement(u.balance, Some(p), Some(AlreadySettled)))
        else if p.status != Pending then (w, Settlement(u.balance, Some(p), Some(PaymentNotFound)))
        else
          var v := SettledUser(u, i, paid, gateway);
          (AllOrNothing(w, PutUser(w.mem, email, v), lands),
           if !lands then Settlement(u.balance, Some(p), Some(WriteFailed))
           else Settlement(v.balance, Some(v.payments[i]), if TooLittle(p, paid) then Some(PaidTooLittle) else None))
  }

  function Close(w: World, rawEmail: string, invoice: string, status: Status, lands: bool): (World, Option<StoreError>)
  {
    var email := Norm(rawEmail);
    if status != Failed && status != Expired then (w, Some(BadCloseStatus))
    else if email !in w.mem.state.users then (w, Some(PaymentNotFound))
    else
      var u := w.mem.state.users[email];
      var i := FirstRow(u.payments, invoice);
      if i == |u.payments| then (w, Some(PaymentNotFound))
      else if u.payments[i].status == Success then (w, Some(AlreadySettled))
      else
        (Keep(w, PutUser(w.mem, email, u.(payments := u.payments[i := u.payments[i].(status := status)])), lands),
         if lands then None else Some(WriteFailed))
  }

  predicate Stale(p: Payment, now: int) {
    p.status == Pending && now - p.createdAt > PENDING_MAX_AGE
  }

  function ExpireRows(rows: seq<Payment>, now: int): (r: seq<Payment>)
    ensures |r| == |rows|
    ensures forall i :: 0 <= i < |rows| ==> r[i] == if Stale(rows[i], now) then rows[i].(status := Expired) else rows[i]
  {
    seq(|rows|, i requires 0 <= i < |rows| => if Stale(rows[i], now) then rows[i].(status := Expired) else rows[i])
  }

  function StaleCount(rows: seq<Payment>, now: int): nat {
    if rows == [] then 0
    else StaleCount(rows[..|rows| - 1], now) + if Stale(rows[|rows| - 1], now) then 1 else 0
  }

  function Expire(w: World, rawEmail: string, now: int, lands: bool): (World, nat) {
    var email := Norm(rawEmail);
    if email !in w.mem.state.users then (w, 0)
    else
      var u := w.mem.state.users[email];
      var n := StaleCount(u.payments, now);
      if n == 0 then (w, 0)
      else (Keep(w, PutUser(w.mem, email, u.(payments := ExpireRows(u.payments, now))), lands), n)
  }

  // ----- operator top-ups (store.go) -----

  // What AddPayment treats as money moving: anything not said to be a failure
  // or still pending.
  predicate Moves(status: Status) {
    status != Failed && status != Pending
  }

  predicate IsManual(id: string) {
    "manual-" <= id
  }

  function AddLedger(l: Ledger, email: string, amount: real, status: Status, id: string, now: int): Ledger {
    var u := UserOf(l.state, email);
    var row := Payment(id, amount, status, now, if IsManual(id) then Admin else Unset, "", 0.0, "");
    PutUser(l, email, u.(balance := if Moves(status) then u.balance + amount else u.balance,
                         payments := u.payments + [row]))
  }

  function Add(w: World, rawEmail: string, amount: real, status: Status, id: string, now: int, lands: bool): World {
    Keep(w, AddLedger(w.mem, Lower(rawEmail), amount, status, id, now), lands)
  }

  // ----- subscriptions (subscriptions.go) -----

  predicate Active(s: Subscription, now: int) {
    s.planId != "" && now < s.expiresAt
  }

  // The term a purchase of p makes, given what the buyer holds.
  function NextTerm(cur: Option<Subscription>, p: Subscription, days: int, now: int): Subscription {
    var term := p.(startedAt := now, expiresAt := now + days * DAY);
    if cur.Some? && cur.value.planId == p.planId then
      var renewed := term.(renewals := cur.value.renewals + 1);
      if Active(cur.value, now)
      then renewed.(startedAt := cur.value.startedAt, expiresAt := cur.value.expiresAt + days * DAY)
      else renewed
    else term
  }

  function ChargeRow(p: Subscription, now: int, stamp: string): Payment {
    Payment("plan-" + p.planId + "-" + stamp, -p.priceUSD, Success, now, PlanCharge, p.planId, 0.0, "")
  }

  function CreditRow(p: Subscription, now: int, stamp: string): Payment {
    Payment("plan-credit-" + p.planId + "-" + stamp, p.includesCreditUSD, Success, now, PlanCredit, p.planId, 0.0, "")
  }

  // The history rows of one purchase. The ids carry the purchase instant.
  function PurchaseRows(p: Subscription, now: int, stamp: string): seq<Payment> {
    (if p.priceUSD > 0.0 then [ChargeRow(p, now, stamp)] else [])
    + (if p.includesCreditUSD > 0.0 then [CreditRow(p, now, stamp)] else [])
  }

  function PositivePart(x: real): real {
    if x > 0.0 then x else 0.0
  }

  function Purchased(u: User, p: Subscription, days: int, now: int, stamp: string): User {
    User(u.balance - PositivePart(p.priceUSD) + PositivePart(p.includesCreditUSD),
         u.payments + PurchaseRows(p, now, stamp),
         Some(NextTerm(u.subscription, p, days, now)))
  }

  datatype Purchase = Bought(term: Subscription) | Refused(err: StoreError)

  predicate SamePurchase(u: User, p: Subscription) {
    p.purchaseKey != "" && u.subscription.Some? && u.subscription.value.purchaseKey == p.purchaseKey
  }

  function Subscribe(w: World, rawOwner: string, p: Subscription, days: int, now: int, stamp: string,
                     lands: bool): (World, Purchase)
  {
    var owner := Norm(rawOwner);
    if owner == "" || Trim(p.planId) == "" then (w, Refused(MissingField))
    else if days <= 0 then (w, Refused(BadTerm))
    else if owner !in w.mem.state.users then (w, Refused(NoSuchUser))
    else
      var u := w.mem.state.users[owner];
      if SamePurchase(u, p) then (w, Bought(u.subscription.value))
      else if p.priceUSD > 0.0 && u.balance < p.priceUSD then (w, Refused(InsufficientBalance))
      else
        var v := Purchased(u, p, days, now, stamp);
        (AllOrNothing(w, PutUser(w.mem, owner, v), lands),
         if lands then Bought(v.subscription.value) else Refused(WriteFailed))
  }

  function Unsubscribe(w: World, rawOwner: string, lands: bool): (World, Option<StoreError>) {
    var owner := Norm(rawOwner);
    if owner !in w.mem.state.users || w.mem.state.users[owner].subscription.None? then (w, None)
    else
      (Keep(w, PutUser(w.mem, owner, w.mem.state.users[owner].(subscription := None)), lands),
       if lands then None else Some(WriteFailed))
  }

  // ----- provider access (provideraccess.go) -----

  datatype Answer = Answered(request: ProviderRequest) | NotAnswered(err: StoreError)

  function Credited(l: Ledger, owner: string, amount: real): Ledger {
    var u := UserOf(l.state, owner);
    PutUser(l, owner, u.(balance := u.balance + amount))
  }

  function PutRequests(l: Ledger, reqs: seq<ProviderRequest>): Ledger {
    l.(state := l.state.(requests := reqs))
  }

  function NewAsk(owner: string, provider: string, note: string, auto: bool, credit: real, now: int): ProviderRequest {
    var r := ProviderRequest(owner + "|" + provider, owner, provider, Asked, note, "", 0.0, false, now, None, "");
    if auto then r.(status := Approved, auto := true, decidedAt := Some(now), decidedBy := "auto", creditUSD := credit)
    else r
  }

  function Reopened(r: ProviderRequest, note: string, now: int): ProviderRequest {
    r.(status := Asked, note := note, decision := "", createdAt := now, decidedAt := None, decidedBy := "")
  }

  function AskLedger(l: Ledger, owner: string, provider: string, note: string, auto: bool, credit: real,
                     now: int): Ledger
  {
    var funded := if auto && credit > 0.0 then Credited(l, owner, credit) else l;
    PutRequests(funded, l.state.requests + [NewAsk(owner, provider, note, auto, credit, now)])
  }

  function Ask(w: World, rawOwner: string, rawProvider: string, note: string, auto: bool, credit: real, now: int,
               lands: bool): (World, Answer)
  {
    var owner, provider := Norm(rawOwner), Norm(rawProvider);
    var reqs := w.mem.state.requests;
    if owner == "" || provider == "" then (w, NotAnswered(MissingField))
    else
      var i := FirstAsk(reqs, owner, provider);
      if i < |reqs| then
        if reqs[i].status == Denied then
          var r := Reopened(reqs[i], note, now);
          (Keep(w, PutRequests(w.mem, reqs[i := r]), lands), if lands then Answered(r) else NotAnswered(WriteFailed))
        else (w, Answered(reqs[i]))
      else
        (Keep(w, AskLedger(w.mem, owner, provider, note, auto, credit, now), lands),
         if lands then Answered(NewAsk(owner, provider, note, auto, credit, now)) else NotAnswered(WriteFailed))
  }

  function Ruled(r: ProviderRequest, approve: bool, credit: real, decision: string, admin: string,
                 now: int): ProviderRequest
  {
    var d := r.(status := if approve then Approved else Denied,
                decision := decision, decidedAt := Some(now), decidedBy := admin);
    if approve && credit > 0.0 then d.(creditUSD := r.creditUSD + credit) else d
  }

  function DecideLedger(l: Ledger, i: nat, approve: bool, credit: real, decision: string, admin: string,
                        now: int): Ledger
    requires i < |l.state.requests|
  {
    var r := l.state.requests[i];
    var funded := if approve && credit > 0.0 then Credited(l, r.owner, credit) else l;
    PutRequests(funded, l.state.requests[i := Ruled(r, approve, credit, decision, admin, now)])
  }

  function Decide(w: World, id: string, approve: bool, credit: real, decision: string, admin: string, now: int,
                  lands: bool): (World, Answer)
  {
    var reqs := w.mem.state.requests;
    var i := FirstRequest(reqs, id);
    if i == |reqs| then (w, NotAnswered(NoSuchRequest))
    else
      (Keep(w, DecideLedger(w.mem, i, approve, credit, decision, admin, now), lands),
       if lands then Answered(Ruled(reqs[i], approve, credit, decision, admin, now)) else NotAnswered(WriteFailed))
  }

  // ----- metered usage (store.go) -----

  function ProjectName(project: string): string {
    if project == "" then "(admin)" else project
  }

  function DebitLedger(l: Ledger, email: string, cost: real): Ledger
    requires email in l.state.users
  {
    var u := l.state.users[email];
    PutUser(l, email, u.(balance := u.balance - cost)).(debited := l.debited[email := DebitedFrom(l, email) + cost])
  }

  predicate Empties(u: User, cost: real) {
    u.balance > 0.0 && u.balance - cost <= 0.0
  }

  // A debit rides the next periodic write, unless it empties the account.
  function Record(w: World, project: string, cost: real, now: int, lands: bool): World {
    var tokens := w.mem.state.tokens;
    var i := FirstToken(tokens, ProjectName(project));
    if i == |tokens| then w.(dirty := true)
    else
      var used := w.mem.(state := w.mem.state.(tokens := tokens[i := tokens[i].(lastUsed := now)]));
      var owner := Lower(tokens[i].owner);
      if tokens[i].owner == "" || owner !in used.state.users then w.(mem := used, dirty := true)
      else
        var debited := w.(mem := DebitLedger(used, owner, cost), dirty := true);
        if Empties(used.state.users[owner], cost) then Save(debited, lands) else debited
  }

  function Persist(w: World, lands: bool): (World, Option<StoreError>) {
    if !w.dirty then (w, None)
    else (Save(w, lands), if lands then None else Some(WriteFailed))
  }

  // ----- runs -----

  // One call, with the outcome its write would have.
  datatype Step =
    | StartStep(email: string, amount: real, invoice: string, planId: string, now: int)
    | SettleStep(email: string, invoice: string, paid: real, gateway: string)
    | CloseStep(email: string, invoice: string, status: Status)
    | ExpireStep(email: string, now: int)
    | AddStep(email: string, amount: real, status: Status, id: string, now: int)
    | SubscribeStep(email: string, plan: Subscription, days: int, now: int, stamp: string)
    | UnsubscribeStep(email: string)
    | AskStep(email: string, provider: string, note: string, auto: bool, credit: real, now: int)
    | DecideStep(id: string, approve: bool, credit: real, decision: string, admin: string, now: int)
    | RecordStep(project: string, cost: real, now: int)
    | PersistStep
    | CrashStep

  datatype Event = Event(step: Step, lands: bool)

  ghost function Apply(w: World, e: Event): World {
    match e.step
    case StartStep(email, amount, invoice, planId, now) => Start(w, email, amount, invoice, planId, now, e.lands).0
    case SettleStep(email, invoice, paid, gateway) => Settle(w, email, invoice, paid, gateway, e.lands).0
    case CloseStep(email, invoice, status) => Close(w, email, invoice, status, e.lands).0
    case ExpireStep(email, now) => Expire(w, email, now, e.lands).0
    case AddStep(email, amount, status, id, now) => Add(w, email, amount, status, id, now, e.lands)
    case SubscribeStep(email, plan, days, now, stamp) => Subscribe(w, email, plan, days, now, stamp, e.lands).0
    case UnsubscribeStep(email) => Unsubscribe(w, email, e.lands).0
    case AskStep(email, provider, note, auto, credit, now) =>
      Ask(w, email, provider, note, auto, credit, now, e.lands).0
    case DecideStep(id, approve, credit, decision, admin, now) =>
      Decide(w, id, approve, credit, decision, admin, now, e.lands).0
    case RecordStep(project, cost, now) => Record(w, project, cost, now, e.lands)
    case PersistStep => Persist(w, e.lands).0
    case CrashStep => Crash(w)
  }

  ghost function Run(w: World, events: seq<Event>): World
    decreases |events|
  {
    if events == [] then w else Apply(Run(w, events[..|events| - 1]), events[|events| - 1])
  }

  // A store just opened on a state file.
  function Opened(l: Ledger): World {
    World(l, l, false)
  }
}
