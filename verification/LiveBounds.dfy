// How far ahead of the clock a live call can be billed and charged: the billed
// mark never is, and the seconds charged are not exactly as long as restarts
// find the bills on file.

module LiveBounds {
  import opened LiveModel
  import opened LiveBilling

  // ----- the billed mark -----

  ghost predicate Bounded(s: Session, now: int) {
    s.created <= now && s.lastSeen <= now && s.billed <= Max(PREPAID_SECONDS, WholeSeconds(now - s.created) + 300)
  }

  lemma BoundedLater(s: Session, before: int, now: int)
    requires Bounded(s, before) && before <= now
    ensures Bounded(s, now)
  {
  }

  lemma ReportBounded(s: Session, seconds: int, before: int, now: int)
    requires Bounded(s, before) && before <= now
    ensures Bounded(Reported(s, seconds, now), now)
  {
  }

  lemma ReapBounded(s: Session, project: string, before: int, now: int)
    requires Bounded(s, before) && before <= now && Quiet(s, project, now)
    ensures Bounded(Reaped(s), now)
  {
  }

  ghost predicate MapBounded(m: map<string, Session>, now: int) {
    forall id :: id in m ==> Bounded(m[id], now)
  }

  lemma MapBoundedLater(m: map<string, Session>, before: int, now: int)
    requires MapBounded(m, before) && before <= now
    ensures MapBounded(m, now)
  {
    forall id | id in m ensures Bounded(m[id], now) {
      BoundedLater(m[id], before, now);
    }
  }

  lemma ReapAllBounded(m: map<string, Session>, project: string, before: int, now: int)
    requires MapBounded(m, before) && before <= now
    ensures MapBounded(ReapAll(m, project, now), now)
  {
    forall id | id in m ensures Bounded(ReapAll(m, project, now)[id], now) {
      BoundedLater(m[id], before, now);
      if Quiet(m[id], project, now) {
        ReapBounded(m[id], project, before, now);
      }
    }
  }

  lemma StepBounded(w: World, e: Event, before: int)
    requires MapBounded(w.mem, before) && MapBounded(w.disk, before) && before <= e.now
    ensures MapBounded(Apply(w, e).mem, e.now) && MapBounded(Apply(w, e).disk, e.now)
  {
    MapBoundedLater(w.mem, before, e.now);
    MapBoundedLater(w.disk, before, e.now);
    match e.step
    case PutStep(id, project) =>
      assert Bounded(Created(project, e.now), e.now);
    case TakeStep(id, project, seconds, final) =>
      if id in w.mem {
        ReportBounded(w.mem[id], seconds, before, e.now);
      }
    case ReapStep(project) =>
      ReapAllBounded(w.mem, project, before, e.now);
    case RestartStep =>
  }

  // Whatever is reported, whatever writes fail: at every moment a session is
  // billed at most the larger of the prepaid minute and its age plus the slack.
  lemma {:induction false} NeverBilledAheadOfTheClock(kept: bool, events: seq<Event>, now: int)
    requires InOrder(events)
    requires events != [] ==> events[|events| - 1].now <= now
    ensures MapBounded(Run(Empty(kept), events).mem, now) && MapBounded(Run(Empty(kept), events).disk, now)
    decreases |events|
  {
    if events != [] {
      var before, last := events[..|events| - 1], events[|events| - 1];
      NeverBilledAheadOfTheClock(kept, before, last.now);
      StepBounded(Run(Empty(kept), before), last, last.now);
      MapBoundedLater(Run(Empty(kept), events).mem, last.now, now);
      MapBoundedLater(Run(Empty(kept), events).disk, last.now, now);
    }
  }

  // ----- the seconds charged -----

  // Each session aged at its last mark, so a finished call is bounded by its
  // own length.
  ghost predicate TallyBounded(t: Tally, now: int) {
    && t.last.created <= t.at <= now
    && t.charged <= Max(PREPAID_SECONDS, WholeSeconds(t.at - t.last.created) + 300)
  }

  ghost predicate AllBounded(w: World, now: int) {
    forall id :: id in w.tally ==> TallyBounded(w.tally[id], now)
  }

  // What a session was charged is what memory last billed it.
  ghost predicate TallyWithin(t: Tally, now: int) {
    t.charged == t.last.billed && TallyBounded(t, now)
  }

  ghost predicate TalliesWithin(tally: map<string, Tally>, now: int) {
    forall id :: id in tally ==> TallyWithin(tally[id], now)
  }

  ghost predicate FileOlder(w: World) {
    forall id :: id in w.disk ==> id in w.tally && w.disk[id].created <= w.tally[id].last.created
  }

  ghost predicate Within(w: World, now: int) {
    Tracks(w) && TalliesWithin(w.tally, now) && FileOlder(w)
  }

  // What a restart at now takes from the file has the bill memory last had,
  // whether or not it is marked as reaped.
  ghost predicate BillsKept(w: World, now: int) {
    forall id :: id in Survivors(w.disk, now) ==> id in w.tally && w.disk[id].billed == w.tally[id].last.billed
  }

  ghost predicate KeepsBills(w: World, events: seq<Event>) {
    forall k :: 0 <= k < |events| && events[k].step.RestartStep? ==>
      BillsKept(Run(w, events[..k]), events[k].now)
  }

  lemma KeepsBillsPrefix(w: World, events: seq<Event>, n: nat)
    requires KeepsBills(w, events) && n <= |events|
    ensures KeepsBills(w, events[..n])
  {
    forall k | 0 <= k < n && events[..n][k].step.RestartStep?
      ensures BillsKept(Run(w, events[..n][..k]), events[..n][k].now)
    {
      assert events[..n][..k] == events[..k];
    }
  }

  lemma CarefulKeepsBills(w: World, events: seq<Event>)
    requires Careful(w, events)
    ensures KeepsBills(w, events)
  {
    forall k | 0 <= k < |events| && events[k].step.RestartStep? ensures BillsKept(Run(w, events[..k]), events[k].now) {
      assert Faithful(Run(w, events[..k]), events[k].now);
    }
  }

  lemma WithinLater(w: World, before: int, now: int)
    requires Within(w, before) && before <= now
    ensures Within(w, now)
  {
    forall id | id in w.tally ensures TallyWithin(w.tally[id], now) {
      assert TallyWithin(w.tally[id], before);
    }
  }

  lemma ReportWithin(t: Tally, seconds: int, now: int)
    requires TallyWithin(t, now)
    ensures TallyWithin(ReportTally(t, t.last, seconds, now), now)
  {
  }

  lemma TakeWithin(w: World, id: string, project: string, seconds: int, final: bool, now: int, lands: bool)
    requires Within(w, now)
    ensures var z := Take(w, id, project, seconds, final, now, lands).0; TalliesWithin(z.tally, now) && FileOlder(z)
  {
    if id in w.mem && w.mem[id].project == project {
      ReportWithin(w.tally[id], seconds, now);
    }
  }

  lemma ReapTallyWithin(t: Tally, project: string, now: int)
    requires TallyWithin(t, now) && Quiet(t.last, project, now)
    ensures TallyWithin(ReapTally(t, t.last, now), now)
  {
  }

  lemma ReapTalliesWithin(w: World, project: string, now: int)
    requires Within(w, now)
    ensures TalliesWithin(ReapTallies(w, project, now), now)
    ensures forall id :: id in ReapTallies(w, project, now) ==>
      id in w.tally && ReapTallies(w, project, now)[id].last.created == w.tally[id].last.created
  {
    forall id | id in ReapTallies(w, project, now)
      ensures id in w.tally && ReapTallies(w, project, now)[id].last.created == w.tally[id].last.created
      ensures TallyWithin(ReapTallies(w, project, now)[id], now)
    {
      ReapTalliesAt(w, project, now, id);
      if id in w.mem && Quiet(w.mem[id], project, now) {
        ReapTallyWithin(w.tally[id], project, now);
      }
    }
  }

  lemma ReapWithin(w: World, project: string, now: int, lands: bool)
    requires Within(w, now)
    ensures var z := Reap(w, project, now, lands); TalliesWithin(z.tally, now) && FileOlder(z)
  {
    ReapTalliesWithin(w, project, now);
    ReapTracks(w, project, now);
  }

  lemma PutWithin(w: World, id: string, project: string, now: int, lands: bool)
    requires Within(w, now)
    ensures var z := Put(w, id, project, now, lands); TalliesWithin(z.tally, now) && FileOlder(z)
  {
    assert TallyWithin(Opening(project, now), now);
    if id in w.disk {
      assert TallyWithin(w.tally[id], now);
    }
  }

  lemma RestartTalliesWithin(w: World, now: int)
    requires Within(w, now) && BillsKept(w, now)
    ensures TalliesWithin(RestartTallies(w, now), now)
  {
    forall id | id in RestartTallies(w, now) ensures TallyWithin(RestartTallies(w, now)[id], now) {
      assert TallyWithin(w.tally[id], now);
    }
  }

  lemma RestartWithin(w: World, now: int, lands: bool)
    requires Within(w, now) && BillsKept(w, now)
    ensures Within(Restart(w, now, lands), now)
  {
    RestartTalliesWithin(w, now);
  }

  lemma StepWithin(w: World, e: Event)
    requires Within(w, e.now)
    requires e.step.RestartStep? ==> BillsKept(w, e.now)
    ensures Within(Apply(w, e), e.now)
  {
    StepTracks(w, e);
    match e.step
    case PutStep(id, project) => PutWithin(w, id, project, e.now, e.lands);
    case TakeStep(id, project, seconds, final) => TakeWithin(w, id, project, seconds, final, e.now, e.lands);
    case ReapStep(project) => ReapWithin(w, project, e.now, e.lands);
    case RestartStep => RestartWithin(w, e.now, e.lands);
  }

  // The clock of a run that starts after start and has ended by now.
  ghost predicate Between(start: int, events: seq<Event>, now: int) {
    && InOrder(events) && start <= now
    && (events != [] ==> start <= events[0].now && events[|events| - 1].now <= now)
  }

  lemma BetweenFront(start: int, events: seq<Event>, now: int)
    requires Between(start, events, now) && events != []
    ensures Between(start, events[..|events| - 1], events[|events| - 1].now) && events[|events| - 1].now <= now
  {
  }

  lemma KeepsLastBill(w: World, events: seq<Event>)
    requires KeepsBills(w, events) && events != [] && events[|events| - 1].step.RestartStep?
    ensures BillsKept(Run(w, events[..|events| - 1]), events[|events| - 1].now)
  {
  }

  lemma LastWithin(w: World, before: World, e: Event, now: int)
    requires Within(before, e.now) && e.now <= now && w == Apply(before, e)
    requires e.step.RestartStep? ==> BillsKept(before, e.now)
    ensures Within(w, now)
  {
    StepWithin(before, e);
    WithinLater(w, e.now, now);
  }

  lemma {:induction false} RunWithin(w: World, start: int, events: seq<Event>, now: int)
    requires Within(w, start) && Between(start, events, now) && KeepsBills(w, events)
    ensures Within(Run(w, events), now)
    decreases |events|
  {
    if events == [] {
      WithinLater(w, start, now);
    } else {
      var front, last := events[..|events| - 1], events[|events| - 1];
      BetweenFront(start, events, now);
      KeepsBillsPrefix(w, events, |events| - 1);
      RunWithin(w, start, front, last.now);
      if last.step.RestartStep? {
        KeepsLastBill(w, events);
      }
      LastWithin(Run(w, events), Run(w, front), last, now);
    }
  }

  // Whatever writes fail: as long as every restart finds the bills on file,
  // nobody is charged for more than the larger of the prepaid minute and the
  // age at the last mark plus the slack.
  lemma KeptBillsBoundCharges(kept: bool, events: seq<Event>, now: int)
    requires InOrder(events) && KeepsBills(Empty(kept), events)
    requires events != [] ==> events[|events| - 1].now <= now
    ensures Within(Run(Empty(kept), events), now)
  {
    RunWithin(Empty(kept), if events == [] then now else events[0].now, events, now);
  }

  // While writes land they always do.
  lemma NeverChargedAheadOfTheClock(kept: bool, events: seq<Event>, now: int)
    requires InOrder(events) && AllLand(events)
    requires events != [] ==> events[|events| - 1].now <= now
    ensures AllBounded(Run(Empty(kept), events), now)
  {
    LandingRunsAreCareful(kept, events);
    CarefulKeepsBills(Empty(kept), events);
    KeptBillsBoundCharges(kept, events, now);
  }

  // ----- exactly when -----

  // Whatever follows, its own restarts finding the bills on file, keeps the
  // bound at every instant.
  ghost predicate BoundedFrom(w: World, start: int) {
    forall more, now :: Between(start, more, now) && KeepsBills(w, more) ==> AllBounded(Run(w, more), now)
  }

  lemma WithinBoundedFrom(w: World, start: int)
    requires Within(w, start)
    ensures BoundedFrom(w, start)
  {
    forall more, now | Between(start, more, now) && KeepsBills(w, more) ensures AllBounded(Run(w, more), now) {
      RunWithin(w, start, more, now);
    }
  }

  lemma OneStepBetween(w: World, start: int, e: Event)
    requires e.now >= start && !e.step.RestartStep?
    ensures Between(start, [e], e.now) && KeepsBills(w, [e]) && Run(w, [e]) == Apply(w, e)
  {
    assert [e][..0] == [];
  }

  // A session charged more than its bill: a report of the most that counts
  // charges past the bound.
  lemma UnpaidBillOvercharges(w: World, start: int, id: string)
    requires id in w.mem && id in w.tally && w.tally[id].last == w.mem[id]
    requires w.tally[id].charged > w.mem[id].billed
    ensures !BoundedFrom(w, start)
  {
    var s := w.mem[id];
    var now := Max(start, s.created + Max(0, s.billed) * SECOND);
    var e := Event(TakeStep(id, s.project, Ceiling(s, now), false), now, true);
    OneStepBetween(w, start, e);
    ReportAtCeiling(w, id, now);
    assert !TallyBounded(Apply(w, e).tally[id], now);
    assert !AllBounded(Run(w, [e]), now);
  }

  lemma ReportAtCeiling(w: World, id: string, now: int)
    requires id in w.mem && id in w.tally && now >= w.mem[id].created + Max(0, w.mem[id].billed) * SECOND
    ensures var s := w.mem[id];
      var z := Take(w, id, s.project, Ceiling(s, now), false, now, true).0;
      && id in z.tally && z.tally[id].at == now && z.tally[id].last.created == s.created
      && z.tally[id].charged == w.tally[id].charged + WholeSeconds(now - s.created) + 300 - s.billed
  {
    var s := w.mem[id];
    assert Ceiling(s, now) == WholeSeconds(now - s.created) + 300;
    assert WholeSeconds(now - s.created) >= Max(0, s.billed);
  }

  // After any run with lost writes, a restart leaves the bound safe for
  // whatever may follow iff the file has the bill of every session it brings
  // back. A lost reaped flag alone does no harm here.
  lemma RestartKeepsTheBoundIff(kept: bool, events: seq<Event>, now: int, lands: bool)
    requires FreshIds(Empty(kept), events) && InOrder(events) && KeepsBills(Empty(kept), events)
    requires events != [] ==> events[|events| - 1].now <= now
    ensures BoundedFrom(Restart(Run(Empty(kept), events), now, lands), now)
      <==> BillsKept(Run(Empty(kept), events), now)
  {
    KeptBillsBoundCharges(kept, events, now);
    FreshRunsLag(kept, events);
    RestartBoundIff(Run(Empty(kept), events), now, lands);
  }

  lemma RestartBoundIff(w: World, now: int, lands: bool)
    requires Within(w, now) && Lags(w)
    ensures BoundedFrom(Restart(w, now, lands), now) <==> BillsKept(w, now)
  {
    if BillsKept(w, now) {
      RestartWithin(w, now, lands);
      WithinBoundedFrom(Restart(w, now, lands), now);
    } else {
      var id :| id in Survivors(w.disk, now) && !(id in w.tally && w.disk[id].billed == w.tally[id].last.billed);
      ComesBack(w, id, now, lands);
      UnpaidBillOvercharges(Restart(w, now, lands), now, id);
    }
  }

  lemma FreshIdsPrefix(w: World, events: seq<Event>, n: nat)
    requires FreshIds(w, events) && n <= |events|
    ensures FreshIds(w, events[..n])
  {
    forall k | 0 <= k < n && events[..n][k].step.PutStep?
      ensures events[..n][k].step.id !in Run(w, events[..n][..k]).tally
    {
      assert events[..n][..k] == events[..k];
    }
  }

  // What follows each restart of the run keeps the bound.
  ghost predicate RestartsAreSafe(w: World, events: seq<Event>) {
    forall k :: 0 <= k < |events| && events[k].step.RestartStep? ==>
      BoundedFrom(Restart(Run(w, events[..k]), events[k].now, events[k].lands), events[k].now)
  }

  lemma SafeIffKept(kept: bool, events: seq<Event>, k: nat)
    requires FreshIds(Empty(kept), events) && InOrder(events)
    requires k < |events| && KeepsBills(Empty(kept), events[..k])
    ensures BoundedFrom(Restart(Run(Empty(kept), events[..k]), events[k].now, events[k].lands), events[k].now)
      <==> BillsKept(Run(Empty(kept), events[..k]), events[k].now)
  {
    FreshIdsPrefix(Empty(kept), events, k);
    RestartKeepsTheBoundIff(kept, events[..k], events[k].now, events[k].lands);
  }

  lemma OneMoreKept(w: World, events: seq<Event>, n: nat)
    requires 0 < n <= |events| && KeepsBills(w, events[..n - 1])
    requires events[n - 1].step.RestartStep? ==> BillsKept(Run(w, events[..n - 1]), events[n - 1].now)
    ensures KeepsBills(w, events[..n])
  {
    forall k | 0 <= k < n && events[..n][k].step.RestartStep?
      ensures BillsKept(Run(w, events[..n][..k]), events[..n][k].now)
    {
      assert events[..n][..k] == events[..k];
      if k < n - 1 {
        assert events[..n - 1][k] == events[k] && events[..n - 1][..k] == events[..k];
      }
    }
  }

  // A restart in a run that kept the bills before it keeps them too.
  ghost predicate NextKept(w: World, events: seq<Event>, k: nat) {
    k < |events| && KeepsBills(w, events[..k]) && events[k].step.RestartStep? ==>
      BillsKept(Run(w, events[..k]), events[k].now)
  }

  lemma {:induction false} KeptOneByOne(w: World, events: seq<Event>, n: nat)
    requires n <= |events| && forall k: nat :: k < n ==> NextKept(w, events, k)
    ensures KeepsBills(w, events[..n])
  {
    if n > 0 {
      KeptOneByOne(w, events, n - 1);
      assert NextKept(w, events, n - 1);
      OneMoreKept(w, events, n);
    }
  }

  lemma SafeRestartsKeptBills(kept: bool, events: seq<Event>)
    requires FreshIds(Empty(kept), events) && InOrder(events) && RestartsAreSafe(Empty(kept), events)
    ensures KeepsBills(Empty(kept), events)
  {
    forall k: nat | k < |events| ensures NextKept(Empty(kept), events, k) {
      if KeepsBills(Empty(kept), events[..k]) && events[k].step.RestartStep? {
        SafeIffKept(kept, events, k);
      }
    }
    KeptOneByOne(Empty(kept), events, |events|);
    assert events[..|events|] == events;
  }

  // A whole run: each of its restarts is safe iff each finds the bills on file.
  lemma RestartsAreSafeIff(kept: bool, events: seq<Event>)
    requires FreshIds(Empty(kept), events) && InOrder(events)
    ensures RestartsAreSafe(Empty(kept), events) <==> KeepsBills(Empty(kept), events)
  {
    if RestartsAreSafe(Empty(kept), events) {
      SafeRestartsKeptBills(kept, events);
    }
    if KeepsBills(Empty(kept), events) {
      forall k | 0 <= k < |events| && events[k].step.RestartStep?
        ensures BoundedFrom(Restart(Run(Empty(kept), events[..k]), events[k].now, events[k].lands), events[k].now)
      {
        KeepsBillsPrefix(Empty(kept), events, k);
        SafeIffKept(kept, events, k);
      }
    }
  }
}
