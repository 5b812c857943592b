// What buying a plan is worth: a click charges once however often it is
// retried, and early renewals never cost the days already paid for.

module Subscriptions {
  import opened Basics
  import opened Text
  import opened Wallet
  import WalletHistory

  // A purchase never spends money the account does not have.
  lemma PurchaseNeverOverdraws(w: World, raw: string, p: Subscription, days: int, now: int, stamp: string, lands: bool)
    requires p.priceUSD > 0.0
    ensures var z := Subscribe(w, raw, p, days, now, stamp, lands).0;
      BalanceOf(z.mem.state, Norm(raw)) >= 0.0 || BalanceOf(z.mem.state, Norm(raw)) == BalanceOf(w.mem.state, Norm(raw))
  {
  }

  // ----- a retried click -----

  ghost predicate Holds(w: World, owner: string, term: Subscription) {
    UserOf(w.mem.state, owner).subscription == Some(term) && UserOf(w.disk.state, owner).subscription == Some(term)
  }

  predicate TouchesPlanOf(s: Step, owner: string) {
    (s.SubscribeStep? && Norm(s.email) == owner) || (s.UnsubscribeStep? && Norm(s.email) == owner)
  }

  lemma InvoiceStepKeepsPlan(w: World, e: Event, owner: string)
    requires e.step.StartStep? || e.step.SettleStep? || e.step.CloseStep? || e.step.ExpireStep? || e.step.AddStep?
    ensures Apply(w, e).mem == w.mem
      || UserOf(Apply(w, e).mem.state, owner).subscription == UserOf(w.mem.state, owner).subscription
  {
  }

  lemma AskStepKeepsPlan(w: World, e: Event, owner: string)
    requires e.step.AskStep?
    ensures UserOf(Apply(w, e).mem.state, owner).subscription == UserOf(w.mem.state, owner).subscription
  {
  }

  lemma DecideStepKeepsPlan(w: World, e: Event, owner: string)
    requires e.step.DecideStep? || e.step.RecordStep?
    ensures UserOf(Apply(w, e).mem.state, owner).subscription == UserOf(w.mem.state, owner).subscription
  {
  }

  lemma PlanUntouched(w: World, e: Event, owner: string, term: Subscription)
    requires Holds(w, owner, term) && !TouchesPlanOf(e.step, owner)
    ensures Holds(Apply(w, e), owner, term)
  {
    WalletHistory.WriteIsWhole(w, e);
    match e.step
    case AskStep(_, _, _, _, _, _) => AskStepKeepsPlan(w, e, owner);
    case DecideStep(_, _, _, _, _, _) => DecideStepKeepsPlan(w, e, owner);
    case RecordStep(_, _, _) => DecideStepKeepsPlan(w, e, owner);
    case SubscribeStep(_, _, _, _, _) =>
    case UnsubscribeStep(_) =>
    case PersistStep =>
    case CrashStep =>
    case _ => InvoiceStepKeepsPlan(w, e, owner);
  }

  lemma {:induction false} PlanKept(w: World, events: seq<Event>, owner: string, term: Subscription)
    requires Holds(w, owner, term)
    requires forall k :: 0 <= k < |events| ==> !TouchesPlanOf(events[k].step, owner)
    ensures Holds(Run(w, events), owner, term)
    decreases |events|
  {
    if events != [] {
      PlanKept(w, events[..|events| - 1], owner, term);
      PlanUntouched(Run(w, events[..|events| - 1]), events[|events| - 1], owner, term);
    }
  }

  // The same purchase key, sent again after any other calls, failed writes and
  // crashes, is answered with the same term and changes nothing.
  lemma RetriedPurchaseChargesOnce(w: World, raw: string, p: Subscription, days: int, now: int, stamp: string,
                                   events: seq<Event>, retry: Subscription,
                                   retryDays: int, retryNow: int, retryStamp: string, retryLands: bool)
    requires p.purchaseKey != "" && retry.purchaseKey == p.purchaseKey && Trim(retry.planId) != "" && retryDays > 0
    requires Norm(raw) in w.mem.state.users && !SamePurchase(w.mem.state.users[Norm(raw)], p)
    requires Subscribe(w, raw, p, days, now, stamp, true).1.Bought?
    requires forall k :: 0 <= k < |events| ==> !TouchesPlanOf(events[k].step, Norm(raw))
    ensures var z := Run(Subscribe(w, raw, p, days, now, stamp, true).0, events);
      Subscribe(z, raw, retry, retryDays, retryNow, retryStamp, retryLands)
        == (z, Bought(Subscribe(w, raw, p, days, now, stamp, true).1.term))
  {
    var (bought, outcome) := Subscribe(w, raw, p, days, now, stamp, true);
    assert Holds(bought, Norm(raw), outcome.term);
    PlanKept(bought, events, Norm(raw), outcome.term);
  }

  // ----- which runs keep a retry free -----

  // A retry of the click with this key, sent now, is answered without changing
  // anything.
  ghost predicate AnsweredFree(w: World, raw: string,
                               retry: Subscription, days: int, now: int, stamp: string, lands: bool)
  {
    var (after, outcome) := Subscribe(w, raw, retry, days, now, stamp, lands);
    after == w && outcome.Bought?
  }

  // The owner's term in memory came from the click with this key.
  predicate Carries(w: World, owner: string, key: string) {
    UserOf(w.mem.state, owner).subscription.Some? && UserOf(w.mem.state, owner).subscription.value.purchaseKey == key
  }

  lemma FreeIffCarried(w: World, raw: string, retry: Subscription, days: int, now: int, stamp: string, lands: bool)
    requires Norm(raw) != "" && retry.purchaseKey != "" && Trim(retry.planId) != "" && days > 0
    ensures AnsweredFree(w, raw, retry, days, now, stamp, lands) <==> Carries(w, Norm(raw), retry.purchaseKey)
  {
    var owner := Norm(raw);
    if owner in w.mem.state.users && !SamePurchase(w.mem.state.users[owner], retry) {
      var v := Purchased(w.mem.state.users[owner], retry, days, now, stamp);
      assert v.subscription.value.purchaseKey == retry.purchaseKey;
      assert PutUser(w.mem, owner, v).state.users[owner] == v;
    }
  }

  // The owner cancels, or buys under another key and the purchase goes through.
  predicate Replaces(w: World, e: Event, owner: string, key: string) {
    match e.step
    case UnsubscribeStep(email) => Norm(email) == owner
    case SubscribeStep(email, plan, days, _, _) =>
      Norm(email) == owner && plan.purchaseKey != key && e.lands
      && Trim(plan.planId) != "" && days > 0
      && !(plan.priceUSD > 0.0 && BalanceOf(w.mem.state, owner) < plan.priceUSD)
    case _ => false
  }

  lemma StepHolds(w: World, e: Event, owner: string, term: Subscription)
    requires Holds(w, owner, term) && term.purchaseKey != "" && !Replaces(w, e, owner, term.purchaseKey)
    ensures Holds(Apply(w, e), owner, term)
  {
    if !TouchesPlanOf(e.step, owner) {
      PlanUntouched(w, e, owner, term);
    }
  }

  lemma ReplacedAtOnce(w: World, e: Event, owner: string, term: Subscription)
    requires Holds(w, owner, term) && term.purchaseKey != "" && owner != ""
    ensures Replaces(w, e, owner, term.purchaseKey) ==> !Carries(Apply(w, e), owner, term.purchaseKey)
  {
  }

  lemma {:induction false} HeldUntil(w: World, events: seq<Event>, owner: string, term: Subscription, n: nat)
    requires Holds(w, owner, term) && term.purchaseKey != "" && n <= |events|
    requires forall k :: 0 <= k < n ==> !Replaces(Run(w, events[..k]), events[k], owner, term.purchaseKey)
    ensures Holds(Run(w, events[..n]), owner, term)
  {
    if n > 0 {
      HeldUntil(w, events, owner, term, n - 1);
      WalletHistory.RunStep(w, events, n - 1);
      StepHolds(Run(w, events[..n - 1]), events[n - 1], owner, term);
    }
  }

  lemma CarriedStep(w: World, events: seq<Event>, owner: string, term: Subscription, k: nat)
    requires k < |events| && Holds(Run(w, events[..k]), owner, term) && term.purchaseKey != "" && owner != ""
    requires Carries(Run(w, events[..k + 1]), owner, term.purchaseKey)
    ensures !Replaces(Run(w, events[..k]), events[k], owner, term.purchaseKey)
    ensures Holds(Run(w, events[..k + 1]), owner, term)
  {
    WalletHistory.RunStep(w, events, k);
    ReplacedAtOnce(Run(w, events[..k]), events[k], owner, term);
    StepHolds(Run(w, events[..k]), events[k], owner, term);
  }

  lemma {:induction false} CarriedHolds(w: World, events: seq<Event>, owner: string, term: Subscription, n: nat)
    requires Holds(w, owner, term) && term.purchaseKey != "" && owner != "" && n <= |events|
    requires forall k :: 0 <= k <= n ==> Carries(Run(w, events[..k]), owner, term.purchaseKey)
    ensures Holds(Run(w, events[..n]), owner, term)
  {
    if n > 0 {
      CarriedHolds(w, events, owner, term, n - 1);
      CarriedStep(w, events, owner, term, n - 1);
    }
  }

  lemma CarriedUntil(w: World, events: seq<Event>, owner: string, term: Subscription)
    requires Holds(w, owner, term) && term.purchaseKey != "" && owner != ""
    requires forall k :: 0 <= k <= |events| ==> Carries(Run(w, events[..k]), owner, term.purchaseKey)
    ensures forall k :: 0 <= k < |events| ==> !Replaces(Run(w, events[..k]), events[k], owner, term.purchaseKey)
  {
    forall k | 0 <= k < |events| ensures !Replaces(Run(w, events[..k]), events[k], owner, term.purchaseKey) {
      CarriedHolds(w, events, owner, term, k);
      CarriedStep(w, events, owner, term, k);
    }
  }

  // Once a purchase is on file, a retry of its click stays free at every
  // moment of a run, failed writes and crashes included, iff the owner neither
  // cancels nor buys under another key.
  lemma RetryStaysFreeIff(w: World, events: seq<Event>, raw: string, term: Subscription,
                          retry: Subscription, days: int, now: int, stamp: string, lands: bool)
    requires Holds(w, Norm(raw), term) && term.purchaseKey != "" && Norm(raw) != ""
    requires retry.purchaseKey == term.purchaseKey && Trim(retry.planId) != "" && days > 0
    ensures (forall k :: 0 <= k <= |events| ==> AnsweredFree(Run(w, events[..k]), raw, retry, days, now, stamp, lands))
      <==> (forall k :: 0 <= k < |events| ==> !Replaces(Run(w, events[..k]), events[k], Norm(raw), term.purchaseKey))
  {
    forall k | 0 <= k <= |events|
      ensures AnsweredFree(Run(w, events[..k]), raw, retry, days, now, stamp, lands)
        <==> Carries(Run(w, events[..k]), Norm(raw), term.purchaseKey)
    {
      FreeIffCarried(Run(w, events[..k]), raw, retry, days, now, stamp, lands);
    }
    if forall k :: 0 <= k < |events| ==> !Replaces(Run(w, events[..k]), events[k], Norm(raw), term.purchaseKey) {
      forall k | 0 <= k <= |events| ensures Carries(Run(w, events[..k]), Norm(raw), term.purchaseKey) {
        HeldUntil(w, events, Norm(raw), term, k);
      }
    }
    if forall k :: 0 <= k <= |events| ==> Carries(Run(w, events[..k]), Norm(raw), term.purchaseKey) {
      CarriedUntil(w, events, Norm(raw), term);
    }
  }

  lemma OneBought(w: World, raw: string, p: Subscription, days: int, now: int, stamp: string)
    requires Norm(raw) != "" && Norm(raw) in w.mem.state.users && Trim(p.planId) != "" && days > 0
    requires !SamePurchase(w.mem.state.users[Norm(raw)], p)
    requires BalanceOf(w.mem.state, Norm(raw)) >= PositivePart(p.priceUSD)
    ensures var z := Apply(w, Event(SubscribeStep(raw, p, days, now, stamp), true));
      && Norm(raw) in z.mem.state.users
      && BalanceOf(z.mem.state, Norm(raw)) ==
           BalanceOf(w.mem.state, Norm(raw)) - PositivePart(p.priceUSD) + PositivePart(p.includesCreditUSD)
      && Carries(z, Norm(raw), p.purchaseKey)
  {
  }

  // The key is only remembered with the term it bought: a plan bought, another
  // bought over it, and the first click arriving again is charged again.
  lemma ForgottenKeyChargesAgain(w: World, raw: string, p: Subscription, q: Subscription,
                                 days: int, now: int, stamp: string)
    requires Norm(raw) != "" && Norm(raw) in w.mem.state.users && days > 0
    requires Trim(p.planId) != "" && Trim(q.planId) != "" && p.purchaseKey != q.purchaseKey
    requires !SamePurchase(w.mem.state.users[Norm(raw)], p)
    requires BalanceOf(w.mem.state, Norm(raw)) >= 2.0 * PositivePart(p.priceUSD) + PositivePart(q.priceUSD)
    ensures var click := Event(SubscribeStep(raw, p, days, now, stamp), true);
      var other := Event(SubscribeStep(raw, q, days, now, stamp), true);
      var paid, again := Run(w, [click, other]), Run(w, [click, other, click]);
      BalanceOf(again.mem.state, Norm(raw)) ==
        BalanceOf(paid.mem.state, Norm(raw)) - PositivePart(p.priceUSD) + PositivePart(p.includesCreditUSD)
  {
    var click := Event(SubscribeStep(raw, p, days, now, stamp), true);
    var other := Event(SubscribeStep(raw, q, days, now, stamp), true);
    var s := [click, other, click];
    assert s[..0] == [] && s[..1] == [click] && s[..2] == [click, other] && s[..3] == s;
    WalletHistory.RunStep(w, s, 0);
    OneBought(w, raw, p, days, now, stamp);
    WalletHistory.RunStep(w, s, 1);
    OneBought(Run(w, [click]), raw, q, days, now, stamp);
    WalletHistory.RunStep(w, s, 2);
    OneBought(Run(w, [click, other]), raw, p, days, now, stamp);
  }

  // ----- terms -----

  datatype Renewal = Renewal(now: int, days: int)

  function Renew(cur: Subscription, p: Subscription, rs: seq<Renewal>): Subscription
    decreases |rs|
  {
    if rs == [] then cur
    else Renew(NextTerm(Some(cur), p, rs[0].days, rs[0].now), p, rs[1..])
  }

  function DaysOf(rs: seq<Renewal>): int {
    if rs == [] then 0 else rs[0].days + DaysOf(rs[1..])
  }

  // However early or late a plan is renewed, its end is the latest of: the
  // first end, or some renewal's instant, each pushed out by every day bought
  // from there on. Nothing paid for is lost and nothing is counted twice.
  lemma {:induction false} RenewalsAddUp(cur: Subscription, p: Subscription, rs: seq<Renewal>)
    requires cur.planId == p.planId != ""
    ensures Renew(cur, p, rs).renewals == (if rs == [] then cur.renewals else cur.renewals + |rs|)
    ensures Renew(cur, p, rs).planId == p.planId
    ensures Renew(cur, p, rs).expiresAt >= cur.expiresAt + DaysOf(rs) * DAY
    ensures forall j :: 0 <= j < |rs| ==> Renew(cur, p, rs).expiresAt >= rs[j].now + DaysOf(rs[j..]) * DAY
    ensures Renew(cur, p, rs).expiresAt == cur.expiresAt + DaysOf(rs) * DAY
      || exists j :: 0 <= j < |rs| && Renew(cur, p, rs).expiresAt == rs[j].now + DaysOf(rs[j..]) * DAY
    decreases |rs|
  {
    if rs != [] {
      var next := NextTerm(Some(cur), p, rs[0].days, rs[0].now);
      RenewalsAddUp(next, p, rs[1..]);
      forall j | 1 <= j < |rs| ensures rs[j..] == rs[1..][j - 1..] {
      }
      var end := Renew(next, p, rs[1..]).expiresAt;
      assert rs[0..] == rs;
      if end != next.expiresAt + DaysOf(rs[1..]) * DAY {
        var k :| 0 <= k < |rs[1..]| && end == rs[1..][k].now + DaysOf(rs[1..][k..]) * DAY;
        assert rs[k + 1..] == rs[1..][k..];
      }
      forall j | 0 <= j < |rs| ensures end >= rs[j].now + DaysOf(rs[j..]) * DAY {
        if j > 0 {
          assert end >= rs[1..][j - 1].now + DaysOf(rs[1..][j - 1..]) * DAY;
        }
      }
    }
  }
}
