// Money held against a balance for requests still running, and how deep an
// overdraft it leaves possible.

module Reserve {
  const INFLIGHT_RESERVE: real := 0.05

  function HeldFor(held: map<string, real>, owner: string): real {
    if owner in held then held[owner] else 0.0
  }

  // How many of an owner's requests are in flight.
  function CountFor(count: map<string, nat>, owner: string): nat {
    if owner in count then count[owner] else 0
  }

  class Reservations {
    var held: map<string, real>
    ghost var count: map<string, nat>

    // Held money is the reserve times the requests in flight, and an owner
    // with none in flight takes no room.
    ghost predicate Valid()
      reads this
    {
      forall owner: string ::
        HeldFor(held, owner) == INFLIGHT_RESERVE * (CountFor(count, owner) as real)
        && (owner in held <==> CountFor(count, owner) > 0)
    }

    constructor ()
      ensures Valid() && count == map[]
    {
      held, count := map[], map[];
    }

    method Hold(owner: string, balance: real) returns (ok: bool)
      requires Valid()
      modifies this
      ensures Valid()
      ensures ok <==> balance > 0.05 * (CountFor(old(count), owner) as real)
      ensures count == if ok then old(count)[owner := CountFor(old(count), owner) + 1] else old(count)
    {
      var h := if owner in held then held[owner] else 0.0;
      assert HeldFor(held, owner) == h;
      if balance <= h {
        return false;
      }
      held := held[owner := h + INFLIGHT_RESERVE];
      count := count[owner := CountFor(count, owner) + 1];
      forall o: string
        ensures HeldFor(held, o) == INFLIGHT_RESERVE * (CountFor(count, o) as real)
        ensures o in held <==> CountFor(count, o) > 0
      {
        assert HeldFor(old(held), o) == INFLIGHT_RESERVE * (CountFor(old(count), o) as real);
      }
      return true;
    }

    // A release with nothing held is harmless.
    method Release(owner: string)
      requires Valid()
      modifies this
      ensures Valid()
      ensures CountFor(count, owner) == if CountFor(old(count), owner) > 0 then CountFor(old(count), owner) - 1 else 0
      ensures forall o: string :: o != owner ==> CountFor(count, o) == CountFor(old(count), o)
    {
      var h := (if owner in held then held[owner] else 0.0) - INFLIGHT_RESERVE;
      assert HeldFor(held, owner) == INFLIGHT_RESERVE * (CountFor(count, owner) as real);
      count := count[owner := if CountFor(count, owner) > 0 then CountFor(count, owner) - 1 else 0];
      held := held[owner := h];
      if h < INFLIGHT_RESERVE / 2.0 {
        held := held - {owner};
      }
      forall o: string
        ensures HeldFor(held, o) == INFLIGHT_RESERVE * (CountFor(count, o) as real)
        ensures o in held <==> CountFor(count, o) > 0
      {
        assert HeldFor(old(held), o) == INFLIGHT_RESERVE * (CountFor(old(count), o) as real);
      }
    }
  }

  // ----- one owner's requests, interleaved -----

  // running: admitted, not yet debited. settled: debited, not yet released.
  datatype Account = Account(balance: real, held: real, running: nat, settled: nat)

  // Admit reads the balance and holds at once; AdmitSeen holds against a balance
  // read earlier.
  datatype Step = Admit | AdmitSeen(seen: real) | Debit(cost: real) | Release
    | TopUp(amount: real) | Purchase(price: real)

  function Held(a: Account): Account {
    a.(held := a.held + INFLIGHT_RESERVE, running := a.running + 1)
  }

  // A step that cannot happen in a state changes nothing.
  function Apply(a: Account, s: Step): Account {
    match s
    case Admit => if a.balance <= a.held then a else Held(a)
    case AdmitSeen(seen) => if seen <= a.held then a else Held(a)
    case Debit(cost) => if a.running == 0 then a
      else a.(balance := a.balance - cost, running := a.running - 1, settled := a.settled + 1)
    case Release => if a.settled == 0 then a else a.(held := a.held - INFLIGHT_RESERVE, settled := a.settled - 1)
    case TopUp(amount) => a.(balance := a.balance + amount)
    case Purchase(price) => if a.balance < price then a else a.(balance := a.balance - price)
  }

  function Run(a: Account, steps: seq<Step>): Account
    decreases |steps|
  {
    if steps == [] then a else Apply(Run(a, steps[..|steps| - 1]), steps[|steps| - 1])
  }

  // A call costs at most the reserve and a top-up adds.
  predicate Modest(s: Step) {
    match s
    case Debit(cost) => cost <= INFLIGHT_RESERVE
    case TopUp(amount) => amount >= 0.0
    case Purchase(price) => false
    case AdmitSeen(seen) => false
    case _ => true
  }

  // A purchase that leaves the reserve of every running call but one: the one
  // the bound forgives.
  predicate Affordable(a: Account, price: real) {
    a.balance - price >= INFLIGHT_RESERVE * (a.running as real) - INFLIGHT_RESERVE
  }

  // What is left pays every running call its reserve.
  predicate RoomForOne(a: Account) {
    a.balance >= INFLIGHT_RESERVE * (a.running as real)
  }

  // What a step may do in the state it meets: a refusal is harmless.
  predicate Prudent(a: Account, s: Step) {
    match s
    case Purchase(price) => a.balance < price || Affordable(a, price)
    case AdmitSeen(seen) => seen <= a.held || RoomForOne(a)
    case _ => Modest(s)
  }

  ghost predicate AllPrudent(a: Account, steps: seq<Step>) {
    forall k :: 0 <= k < |steps| ==> Prudent(Run(a, steps[..k]), steps[k])
  }

  function Lesser(a: real, b: real): real {
    if a < b then a else b
  }

  predicate HeldRight(a: Account) {
    a.held == INFLIGHT_RESERVE * ((a.running + a.settled) as real)
  }

  // The bound in every state: what is left after every running call is paid
  // for at the reserve stays above one reserve below nothing.
  ghost predicate Covered(a: Account, floor: real) {
    HeldRight(a) && a.balance - INFLIGHT_RESERVE * (a.running as real) >= floor
  }

  lemma StepCovered(a: Account, s: Step, floor: real)
    requires Covered(a, floor) && Prudent(a, s) && floor <= -INFLIGHT_RESERVE
    ensures Covered(Apply(a, s), floor)
  {
  }

  lemma {:induction false} RunCovered(a: Account, steps: seq<Step>, floor: real)
    requires Covered(a, floor) && AllPrudent(a, steps) && floor <= -INFLIGHT_RESERVE
    ensures Covered(Run(a, steps), floor)
    decreases |steps|
  {
    if steps != [] {
      var n := |steps| - 1;
      var front := steps[..n];
      assert forall k :: 0 <= k < n ==> front[k] == steps[k] && front[..k] == steps[..k];
      RunCovered(a, front, floor);
      StepCovered(Run(a, front), steps[n], floor);
    }
  }

  // No interleaving takes the balance below minus one reserve, or below where
  // it started if that was lower already.
  lemma OverdraftOneReserveDeep(balance: real, steps: seq<Step>)
    requires AllPrudent(Account(balance, 0.0, 0, 0), steps)
    ensures Covered(Run(Account(balance, 0.0, 0, 0), steps), Lesser(balance, -INFLIGHT_RESERVE))
    ensures Run(Account(balance, 0.0, 0, 0), steps).balance >= Lesser(balance, -INFLIGHT_RESERVE)
  {
    RunCovered(Account(balance, 0.0, 0, 0), steps, Lesser(balance, -INFLIGHT_RESERVE));
  }

  // ----- a plan bought while requests run -----

  function Times(s: Step, n: nat): seq<Step> {
    seq(n, i => s)
  }

  lemma {:induction false} AdmitSome(a: Account, n: nat, k: nat)
    requires a.running == a.settled == 0 && a.held == 0.0 && a.balance == INFLIGHT_RESERVE * (n as real) && k <= n
    ensures Run(a, Times(Admit, k)) == a.(held := INFLIGHT_RESERVE * (k as real), running := k)
  {
    if k > 0 {
      AdmitSome(a, n, k - 1);
      assert Times(Admit, k)[..k - 1] == Times(Admit, k - 1);
    }
  }

  lemma {:induction false} DebitMany(a: Account, k: nat)
    requires k <= a.running
    ensures Run(a, Times(Debit(INFLIGHT_RESERVE), k))
      == a.(balance := a.balance - INFLIGHT_RESERVE * (k as real), running := a.running - k, settled := a.settled + k)
  {
    if k > 0 {
      DebitMany(a, k - 1);
      assert Times(Debit(INFLIGHT_RESERVE), k)[..k - 1] == Times(Debit(INFLIGHT_RESERVE), k - 1);
    }
  }

  lemma {:induction false} RunAppend(a: Account, s: seq<Step>, t: seq<Step>)
    ensures Run(a, s + t) == Run(Run(a, s), t)
    decreases |t|
  {
    if t == [] {
      assert s + t == s;
    } else {
      RunAppend(a, s, t[..|t| - 1]);
      assert (s + t)[..|s + t| - 1] == s + t[..|t| - 1];
    }
  }

  // Without another purchase the balance stays above minus one reserve.
  ghost predicate StaysCovered(a: Account) {
    forall steps: seq<Step> :: (forall k :: 0 <= k < |steps| ==> Modest(steps[k])) ==>
      Run(a, steps).balance >= -INFLIGHT_RESERVE
  }

  lemma AffordableStaysCovered(a: Account)
    requires Covered(a, -INFLIGHT_RESERVE)
    ensures StaysCovered(a)
  {
    forall steps: seq<Step> | forall k :: 0 <= k < |steps| ==> Modest(steps[k])
      ensures Run(a, steps).balance >= -INFLIGHT_RESERVE
    {
      RunCovered(a, steps, -INFLIGHT_RESERVE);
    }
  }

  lemma {:induction false} HeldAlwaysRight(a: Account, steps: seq<Step>)
    requires HeldRight(a)
    ensures HeldRight(Run(a, steps))
    decreases |steps|
  {
    if steps != [] {
      HeldAlwaysRight(a, steps[..|steps| - 1]);
    }
  }

  // After any run whatever, a purchase that goes through keeps the bound for
  // everything that may follow iff it leaves the running calls their reserves
  // but one.
  lemma PurchaseKeepsTheBoundIff(balance: real, steps: seq<Step>, price: real)
    requires Run(Account(balance, 0.0, 0, 0), steps).balance >= price
    ensures var a := Run(Account(balance, 0.0, 0, 0), steps);
      StaysCovered(Apply(a, Purchase(price))) <==> Affordable(a, price)
  {
    var a := Run(Account(balance, 0.0, 0, 0), steps);
    HeldAlwaysRight(Account(balance, 0.0, 0, 0), steps);
    var b := Apply(a, Purchase(price));
    if Affordable(a, price) {
      AffordableStaysCovered(b);
    } else {
      var debits := Times(Debit(INFLIGHT_RESERVE), a.running);
      DebitMany(b, a.running);
      assert forall k :: 0 <= k < |debits| ==> Modest(debits[k]);
    }
  }

  // How deep it can go: a plan is checked against the balance alone, so one
  // bought while n requests run can leave them n reserves short.
  lemma PurchaseBreaksTheBound(n: nat)
    ensures var all := INFLIGHT_RESERVE * (n as real);
      var steps := Times(Admit, n) + [Purchase(all)] + Times(Debit(INFLIGHT_RESERVE), n);
      Run(Account(all, 0.0, 0, 0), steps).balance == -all
  {
    var all := INFLIGHT_RESERVE * (n as real);
    var a := Account(all, 0.0, 0, 0);
    AdmitSome(a, n, n);
    RunAppend(a, Times(Admit, n), [Purchase(all)]);
    RunAppend(a, Times(Admit, n) + [Purchase(all)], Times(Debit(INFLIGHT_RESERVE), n));
    var b := Run(a, Times(Admit, n));
    assert [Purchase(all)][..0] == [];
    assert Run(b, [Purchase(all)]) == b.(balance := 0.0);
    DebitMany(b.(balance := 0.0), n);
  }

  // ----- a balance read before it is held against -----

  // After any run whatever, an admission that an earlier reading lets through
  // keeps the bound for everything that may follow iff the balance has room for
  // it by the time it holds.
  lemma StaleAdmissionKeepsTheBoundIff(balance: real, steps: seq<Step>, seen: real)
    requires seen > Run(Account(balance, 0.0, 0, 0), steps).held
    ensures var a := Run(Account(balance, 0.0, 0, 0), steps);
      StaysCovered(Apply(a, AdmitSeen(seen))) <==> RoomForOne(a)
  {
    var a := Run(Account(balance, 0.0, 0, 0), steps);
    HeldAlwaysRight(Account(balance, 0.0, 0, 0), steps);
    var b := Apply(a, AdmitSeen(seen));
    if RoomForOne(a) {
      AffordableStaysCovered(b);
    } else {
      var debits := Times(Debit(INFLIGHT_RESERVE), b.running);
      DebitMany(b, b.running);
      assert forall k :: 0 <= k < |debits| ==> Modest(debits[k]);
    }
  }

  function Releases(steps: seq<Step>): nat {
    if steps == [] then 0 else Releases(steps[..|steps| - 1]) + if steps[|steps| - 1].Release? then 1 else 0
  }

  // What was spent since a reading is still held for, but for what was
  // released since.
  ghost predicate Accounted(a: Account, z: Account, released: nat) {
    z.balance - INFLIGHT_RESERVE * (z.running as real)
      >= a.balance - z.held + INFLIGHT_RESERVE * ((a.settled as real) - (released as real))
  }

  lemma {:induction false} SpentIsHeld(a: Account, steps: seq<Step>)
    requires HeldRight(a) && forall k :: 0 <= k < |steps| ==> Modest(steps[k])
    ensures HeldRight(Run(a, steps)) && Accounted(a, Run(a, steps), Releases(steps))
    decreases |steps|
  {
    if steps != [] {
      SpentIsHeld(a, steps[..|steps| - 1]);
    }
  }

  // An admission is as good as one on a fresh reading while no more requests
  // have been released since than were settled when it read.
  lemma FewReleasesLeaveRoom(a: Account, steps: seq<Step>)
    requires HeldRight(a) && forall k :: 0 <= k < |steps| ==> Modest(steps[k])
    requires Releases(steps) <= a.settled && a.balance > Run(a, steps).held
    ensures RoomForOne(Run(a, steps))
  {
    SpentIsHeld(a, steps);
  }

  // One late request after another, all on the reading of an account with one
  // reserve in it.
  function LateComers(n: nat): seq<Step> {
    if n == 0 then [] else LateComers(n - 1) + [AdmitSeen(INFLIGHT_RESERVE), Debit(INFLIGHT_RESERVE), Release]
  }

  lemma {:induction false} LateComersOverdraw(n: nat)
    ensures Run(Account(INFLIGHT_RESERVE, 0.0, 0, 0), LateComers(n))
      == Account(INFLIGHT_RESERVE - INFLIGHT_RESERVE * (n as real), 0.0, 0, 0)
  {
    if n > 0 {
      LateComersOverdraw(n - 1);
      var a := Account(INFLIGHT_RESERVE, 0.0, 0, 0);
      var late := [AdmitSeen(INFLIGHT_RESERVE), Debit(INFLIGHT_RESERVE), Release];
      RunAppend(a, LateComers(n - 1), late);
      var z := Run(a, LateComers(n - 1));
      assert late[..2] == [AdmitSeen(INFLIGHT_RESERVE), Debit(INFLIGHT_RESERVE)];
      assert late[..2][..1] == [AdmitSeen(INFLIGHT_RESERVE)] && late[..2][..1][..0] == [];
      assert Run(z, late[..2][..1]) == Held(z);
    }
  }

  // ----- calls that cost more than the reserve -----

  // A call costs at most c, a top-up adds, nothing is bought.
  predicate CostsAtMost(s: Step, c: real) {
    match s
    case Debit(cost) => cost <= c
    case TopUp(amount) => amount >= 0.0
    case Purchase(price) => false
    case AdmitSeen(seen) => false
    case _ => true
  }

  ghost predicate EndsAbove(balance: real, steps: seq<Step>, c: real) {
    balance >= -c && (forall k :: 0 <= k < |steps| ==> CostsAtMost(steps[k], c)) ==>
      Run(Account(balance, 0.0, 0, 0), steps).balance >= -c
  }

  // No run of calls that cost at most c leaves more than c owing.
  ghost predicate OneCallDeep(c: real) {
    forall balance: real, steps: seq<Step> :: EndsAbove(balance, steps, c)
  }

  // What n running calls may still cost at c each.
  function Due(c: real, n: nat): real {
    if n == 0 then 0.0 else Due(c, n - 1) + c
  }

  lemma {:induction false} DueWithin(c: real, n: nat)
    requires 0.0 <= c <= INFLIGHT_RESERVE
    ensures 0.0 <= Due(c, n) <= INFLIGHT_RESERVE * (n as real)
  {
    if n > 0 {
      DueWithin(c, n - 1);
    }
  }

  ghost predicate CoveredAt(a: Account, c: real) {
    HeldRight(a) && a.balance - Due(c, a.running) >= -c
  }

  lemma StepCoveredAt(a: Account, s: Step, c: real)
    requires 0.0 <= c <= INFLIGHT_RESERVE && CoveredAt(a, c) && CostsAtMost(s, c)
    ensures CoveredAt(Apply(a, s), c)
  {
    DueWithin(c, a.running);
  }

  lemma {:induction false} RunCoveredAt(balance: real, steps: seq<Step>, c: real)
    requires 0.0 <= c <= INFLIGHT_RESERVE && balance >= -c
    requires forall k :: 0 <= k < |steps| ==> CostsAtMost(steps[k], c)
    ensures CoveredAt(Run(Account(balance, 0.0, 0, 0), steps), c)
    ensures Run(Account(balance, 0.0, 0, 0), steps).balance >= -c
    decreases |steps|
  {
    if steps != [] {
      var front, last := steps[..|steps| - 1], steps[|steps| - 1];
      RunCoveredAt(balance, front, c);
      StepCoveredAt(Run(Account(balance, 0.0, 0, 0), front), last, c);
    }
    AtLeast(Run(Account(balance, 0.0, 0, 0), steps), c);
  }

  lemma AtLeast(a: Account, c: real)
    requires 0.0 <= c <= INFLIGHT_RESERVE && CoveredAt(a, c)
    ensures a.balance >= -c
  {
    DueWithin(c, a.running);
  }

  lemma TwoLargeCalls(c: real)
    requires c > INFLIGHT_RESERVE
    ensures Run(Account((c + INFLIGHT_RESERVE) / 2.0, 0.0, 0, 0), [Admit, Admit, Debit(c), Debit(c)]).balance
      == (c + INFLIGHT_RESERVE) / 2.0 - 2.0 * c
  {
    var a := Account((c + INFLIGHT_RESERVE) / 2.0, 0.0, 0, 0);
    RunAppend(a, [Admit, Admit], [Debit(c), Debit(c)]);
    assert [Admit, Admit] + [Debit(c), Debit(c)] == [Admit, Admit, Debit(c), Debit(c)];
    TwoSteps(a, Admit, Admit);
    TwoSteps(Run(a, [Admit, Admit]), Debit(c), Debit(c));
  }

  lemma TwoSteps(a: Account, s: Step, t: Step)
    ensures Run(a, [s, t]) == Apply(Apply(a, s), t)
  {
    assert [s][..0] == [];
    assert Run(a, [s]) == Apply(a, s);
    assert [s, t][..1] == [s];
  }

  // The overdraft is one request deep exactly for calls that cost no more than
  // the reserve: two dearer ones can be admitted on less than they cost.
  lemma OneCallDeepIff(c: real)
    requires c >= 0.0
    ensures OneCallDeep(c) <==> c <= INFLIGHT_RESERVE
  {
    if c <= INFLIGHT_RESERVE {
      forall balance: real, steps: seq<Step> ensures EndsAbove(balance, steps, c) {
        if balance >= -c && forall k :: 0 <= k < |steps| ==> CostsAtMost(steps[k], c) {
          RunCoveredAt(balance, steps, c);
        }
      }
    } else {
      TwoLargeCalls(c);
      var start, steps := (c + INFLIGHT_RESERVE) / 2.0, [Admit, Admit, Debit(c), Debit(c)];
      assert forall k :: 0 <= k < |steps| ==> CostsAtMost(steps[k], c);
      assert !EndsAbove(start, steps, c);
    }
  }
}
