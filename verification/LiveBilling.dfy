// What a live call is charged, over any interleaving of creation, reports,
// reaping and restarts.

module LiveBilling {
  import opened LiveModel

  // The largest of a list of marks.
  ghost predicate IsMax(m: int, s: seq<int>) {
    m in s && forall x :: x in s ==> x <= m
  }

  lemma MaxGrows(m: int, s: seq<int>, x: int)
    requires IsMax(m, s)
    ensures IsMax(Max(m, x), s + [x])
  {
    assert m in s + [x] && x in s + [x];
  }

  // Charged what the session's bill says, which is its highest mark.
  ghost predicate TallyExact(t: Tally) {
    && t.charged == t.last.billed
    && IsMax(t.charged, t.marks)
    && t.reaps == if t.last.reaped then 1 else 0
  }

  // Every session has a tally, and a running one is what its tally last saw.
  ghost predicate Tracks(w: World) {
    && (forall id :: id in w.mem ==> id in w.tally && w.mem[id] == w.tally[id].last)
    && (forall id :: id in w.disk ==> id in w.tally)
  }

  // Sessions that ended or were dropped keep their tally, so this covers them.
  ghost predicate Exact(w: World) {
    Tracks(w) && forall id :: id in w.tally ==> TallyExact(w.tally[id])
  }

  // No second of a session was charged twice, and it was reaped at most once.
  ghost predicate NeverTwice(w: World) {
    forall id :: id in w.tally ==> IsMax(w.tally[id].charged, w.tally[id].marks) && w.tally[id].reaps <= 1
  }

  // What a restart at now takes from the file is billed there as memory last
  // had it.
  ghost predicate Faithful(w: World, now: int) {
    forall id :: id in Survivors(w.disk, now) ==>
      && id in w.tally
      && w.disk[id].billed == w.tally[id].last.billed
      && w.disk[id].reaped == w.tally[id].last.reaped
  }

  // Every restart of the run finds such a file.
  ghost predicate Careful(w: World, events: seq<Event>) {
    forall k :: 0 <= k < |events| && events[k].step.RestartStep? ==>
      Faithful(Run(w, events[..k]), events[k].now)
  }

  lemma CarefulFront(w: World, events: seq<Event>)
    requires Careful(w, events) && events != []
    ensures Careful(w, events[..|events| - 1])
  {
    var front := events[..|events| - 1];
    forall k | 0 <= k < |front| && front[k].step.RestartStep?
      ensures Faithful(Run(w, front[..k]), front[k].now)
    {
      assert front[..k] == events[..k];
    }
  }

  lemma TakeExact(w: World, id: string, project: string, seconds: int, final: bool, now: int, lands: bool)
    requires Exact(w)
    ensures Exact(Take(w, id, project, seconds, final, now, lands).0)
  {
    if id in w.mem && w.mem[id].project == project {
      MaxGrows(w.mem[id].billed, w.tally[id].marks, Clamped(w.mem[id], seconds, now));
    }
  }

  lemma ReapTallyExact(t: Tally, now: int)
    requires TallyExact(t) && !t.last.reaped
    ensures TallyExact(ReapTally(t, t.last, now))
  {
    MaxGrows(t.charged, t.marks, ReapMark(t.last));
  }

  // What reaping does to one session's tally.
  lemma ReapTalliesAt(w: World, project: string, now: int, id: string)
    requires Tracks(w) && id in ReapTallies(w, project, now)
    ensures id in w.tally
    ensures ReapTallies(w, project, now)[id] ==
      if id in w.mem && Quiet(w.mem[id], project, now) then ReapTally(w.tally[id], w.mem[id], now)
      else w.tally[id]
  {
  }

  // Memory and the tallies agree on the reaped sessions too.
  lemma ReapTracks(w: World, project: string, now: int)
    requires Tracks(w)
    ensures w.tally.Keys <= ReapTallies(w, project, now).Keys
    ensures forall id :: id in w.mem ==>
      id in ReapTallies(w, project, now) && ReapAll(w.mem, project, now)[id] == ReapTallies(w, project, now)[id].last
  {
    forall id | id in w.mem
      ensures id in ReapTallies(w, project, now)
      ensures ReapAll(w.mem, project, now)[id] == ReapTallies(w, project, now)[id].last
    {
      ReapTalliesAt(w, project, now, id);
    }
  }

  // Every step keeps the tallies, whatever its write does.
  lemma StepTracks(w: World, e: Event)
    requires Tracks(w)
    ensures Tracks(Apply(w, e))
  {
    match e.step
    case PutStep(id, project) =>
    case TakeStep(id, project, seconds, final) =>
    case ReapStep(project) => ReapTracks(w, project, e.now);
    case RestartStep =>
  }

  lemma ReapExact(w: World, project: string, now: int, lands: bool)
    requires Exact(w)
    ensures Exact(Reap(w, project, now, lands))
  {
    forall id | id in ReapTallies(w, project, now) ensures TallyExact(ReapTallies(w, project, now)[id]) {
      ReapTalliesAt(w, project, now, id);
      if id in w.mem && Quiet(w.mem[id], project, now) {
        ReapTallyExact(w.tally[id], now);
      }
    }
    ReapTracks(w, project, now);
  }

  lemma PutExact(w: World, id: string, project: string, now: int, lands: bool)
    requires Exact(w)
    ensures Exact(Put(w, id, project, now, lands))
  {
    assert TallyExact(Opening(project, now));
  }

  lemma RestartExact(w: World, now: int, lands: bool)
    requires Exact(w) && Faithful(w, now)
    ensures Exact(Restart(w, now, lands))
  {
    forall id | id in RestartTallies(w, now) ensures TallyExact(RestartTallies(w, now)[id]) {
      assert TallyExact(w.tally[id]);
    }
  }

  // Any one step, its write landing or not, keeps the bill exact; a restart
  // does if the file it reads bills as memory did.
  lemma StepExact(w: World, e: Event)
    requires Exact(w)
    requires e.step.RestartStep? ==> Faithful(w, e.now)
    ensures Exact(Apply(w, e))
  {
    match e.step
    case PutStep(id, project) => PutExact(w, id, project, e.now, e.lands);
    case TakeStep(id, project, seconds, final) => TakeExact(w, id, project, seconds, final, e.now, e.lands);
    case ReapStep(project) => ReapExact(w, project, e.now, e.lands);
    case RestartStep => RestartExact(w, e.now, e.lands);
  }

  lemma {:induction false} RunExact(w: World, events: seq<Event>)
    requires Exact(w) && Careful(w, events)
    ensures Exact(Run(w, events))
    decreases |events|
  {
    if events != [] {
      CarefulFront(w, events);
      RunExact(w, events[..|events| - 1]);
      StepExact(Run(w, events[..|events| - 1]), events[|events| - 1]);
    }
  }

  lemma RestartExactOnlyIf(w: World, now: int, lands: bool)
    requires Exact(w) && Exact(Restart(w, now, lands))
    ensures Faithful(w, now)
  {
    var z := Restart(w, now, lands);
    forall id | id in Survivors(w.disk, now)
      ensures w.disk[id].billed == w.tally[id].last.billed && w.disk[id].reaped == w.tally[id].last.reaped
    {
      assert z.tally[id] == w.tally[id].(last := w.disk[id]);
      assert TallyExact(z.tally[id]) && TallyExact(w.tally[id]);
    }
  }

  lemma CarefulPrefix(w: World, events: seq<Event>, n: nat)
    requires Careful(w, events) && n <= |events|
    ensures Careful(w, events[..n])
  {
    forall k | 0 <= k < n && events[..n][k].step.RestartStep?
      ensures Faithful(Run(w, events[..n][..k]), events[..n][k].now)
    {
      assert events[..n][..k] == events[..k];
    }
  }

  lemma RunStep(w: World, events: seq<Event>, k: nat)
    requires k < |events|
    ensures Run(w, events[..k + 1]) == Apply(Run(w, events[..k]), events[k])
  {
    assert events[..k + 1][..k] == events[..k];
  }

  lemma ExactBothSides(w: World, events: seq<Event>, k: nat)
    requires k < |events| && events[k].step.RestartStep?
    requires Exact(Run(w, events[..k])) && Exact(Run(w, events[..k + 1]))
    ensures Faithful(Run(w, events[..k]), events[k].now)
  {
    RunStep(w, events, k);
    RestartExactOnlyIf(Run(w, events[..k]), events[k].now, events[k].lands);
  }

  lemma ExactThroughoutOnlyIf(w: World, events: seq<Event>)
    requires forall k :: 0 <= k <= |events| ==> Exact(Run(w, events[..k]))
    ensures Careful(w, events)
  {
    forall k | 0 <= k < |events| && events[k].step.RestartStep?
      ensures Faithful(Run(w, events[..k]), events[k].now)
    {
      ExactBothSides(w, events, k);
    }
  }

  // A run, whatever writes fail in it, bills exactly at every moment iff every
  // restart in it finds a faithful file.
  lemma ExactThroughoutIff(w: World, events: seq<Event>)
    requires Exact(w)
    ensures (forall k :: 0 <= k <= |events| ==> Exact(Run(w, events[..k]))) <==> Careful(w, events)
  {
    if forall k :: 0 <= k <= |events| ==> Exact(Run(w, events[..k])) {
      ExactThroughoutOnlyIf(w, events);
    }
    if Careful(w, events) {
      forall k | 0 <= k <= |events| ensures Exact(Run(w, events[..k])) {
        CarefulPrefix(w, events, k);
        RunExact(w, events[..k]);
      }
    }
  }

  // ----- while writes land -----

  // The file is never behind in what it bills.
  ghost predicate FileCurrent(w: World) {
    && (!w.kept ==> w.disk == map[])
    && forall id :: id in w.disk ==>
         && id in w.tally
         && w.disk[id].billed == w.tally[id].last.billed
         && w.disk[id].reaped == w.tally[id].last.reaped
  }

  lemma SavedIsCurrent(w: World, mem: map<string, Session>, tally: map<string, Tally>)
    requires !w.kept ==> w.disk == map[]
    requires forall id :: id in mem ==> id in tally && mem[id] == tally[id].last
    ensures FileCurrent(Save(w.(mem := mem, tally := tally), true))
  {
  }

  lemma ReapCurrent(w: World, project: string, now: int)
    requires Exact(w) && FileCurrent(w)
    ensures FileCurrent(Reap(w, project, now, true))
  {
    ReapTracks(w, project, now);
    SavedIsCurrent(w, ReapAll(w.mem, project, now), ReapTallies(w, project, now));
  }

  lemma TakeCurrent(w: World, id: string, project: string, seconds: int, final: bool, now: int)
    requires Exact(w) && FileCurrent(w)
    ensures FileCurrent(Take(w, id, project, seconds, final, now, true).0)
  {
  }

  lemma PutCurrent(w: World, id: string, project: string, now: int)
    requires Exact(w) && FileCurrent(w)
    ensures FileCurrent(Put(w, id, project, now, true))
  {
    SavedIsCurrent(w, Pruned(w.mem, now)[id := Created(project, now)], w.tally[id := Opening(project, now)]);
  }

  lemma StepCurrent(w: World, e: Event)
    requires Exact(w) && FileCurrent(w) && e.lands
    ensures FileCurrent(Apply(w, e))
  {
    match e.step
    case PutStep(id, project) => PutCurrent(w, id, project, e.now);
    case TakeStep(id, project, seconds, final) => TakeCurrent(w, id, project, seconds, final, e.now);
    case ReapStep(project) => ReapCurrent(w, project, e.now);
    case RestartStep => SavedIsCurrent(w, Survivors(w.disk, e.now), RestartTallies(w, e.now));
  }

  lemma {:induction false} LandingRunsAreCareful(kept: bool, events: seq<Event>)
    requires AllLand(events)
    ensures Careful(Empty(kept), events) && Exact(Run(Empty(kept), events)) && FileCurrent(Run(Empty(kept), events))
    decreases |events|
  {
    if events != [] {
      var w, front, last := Empty(kept), events[..|events| - 1], events[|events| - 1];
      LandingRunsAreCareful(kept, front);
      forall k | 0 <= k < |events| && events[k].step.RestartStep?
        ensures Faithful(Run(w, events[..k]), events[k].now)
      {
        if k < |front| {
          assert front[..k] == events[..k];
        } else {
          assert front == events[..k];
        }
      }
      StepExact(Run(w, front), last);
      StepCurrent(Run(w, front), last);
    }
  }

  // The exact total: while writes land, the seconds charged for a session,
  // running, ended or dropped, are its billed mark, which is the largest of the
  // prepaid minute, every report as clamped and the reap mark, and it is reaped
  // at most once, through any number of restarts.
  lemma ChargedIsTheHighestMark(kept: bool, events: seq<Event>)
    requires AllLand(events)
    ensures Exact(Run(Empty(kept), events)) && NeverTwice(Run(Empty(kept), events))
  {
    LandingRunsAreCareful(kept, events);
  }

  // ----- the order of reports -----

  datatype Report = Report(seconds: int, now: int)

  function TakeReports(s: Session, rs: seq<Report>): Session
    decreases |rs|
  {
    if rs == [] then s
    else Reported(TakeReports(s, rs[..|rs| - 1]), rs[|rs| - 1].seconds, rs[|rs| - 1].now)
  }

  function ChargedFor(s: Session, rs: seq<Report>): nat
    decreases |rs|
  {
    if rs == [] then 0
    else ChargedFor(s, rs[..|rs| - 1]) + Delta(TakeReports(s, rs[..|rs| - 1]), rs[|rs| - 1].seconds, rs[|rs| - 1].now)
  }

  function SecondsOf(rs: seq<Report>): seq<int> {
    seq(|rs|, i requires 0 <= i < |rs| => rs[i].seconds)
  }

  ghost predicate BelowCeiling(s: Session, rs: seq<Report>) {
    forall i :: 0 <= i < |rs| ==> rs[i].seconds <= Ceiling(s, rs[i].now)
  }

  lemma {:induction false} ReportsRaiseToMax(s: Session, rs: seq<Report>)
    requires BelowCeiling(s, rs)
    ensures TakeReports(s, rs).created == s.created
    ensures TakeReports(s, rs).billed == s.billed + ChargedFor(s, rs)
    ensures IsMax(TakeReports(s, rs).billed, [s.billed] + SecondsOf(rs))
    decreases |rs|
  {
    if rs != [] {
      var front, last := rs[..|rs| - 1], rs[|rs| - 1];
      ReportsRaiseToMax(s, front);
      assert [s.billed] + SecondsOf(rs) == ([s.billed] + SecondsOf(front)) + [last.seconds];
      MaxGrows(TakeReports(s, front).billed, [s.billed] + SecondsOf(front), last.seconds);
      assert Clamped(TakeReports(s, front), last.seconds, last.now) == last.seconds;
    }
  }

  // Repeated and reordered reports below the ceiling cost the same in total.
  lemma OrderDoesNotMatter(s: Session, a: seq<Report>, b: seq<Report>)
    requires BelowCeiling(s, a) && BelowCeiling(s, b)
    requires forall x :: x in SecondsOf(a) <==> x in SecondsOf(b)
    ensures ChargedFor(s, a) == ChargedFor(s, b)
  {
    ReportsRaiseToMax(s, a);
    ReportsRaiseToMax(s, b);
    var p, q := [s.billed] + SecondsOf(a), [s.billed] + SecondsOf(b);
    assert forall x :: x in p <==> x in q;
    assert TakeReports(s, a).billed in q && TakeReports(s, b).billed in p;
  }

  // ----- when a write is lost -----

  // The file may be behind memory, never ahead of it.
  ghost predicate Lags(w: World) {
    forall id :: id in w.disk ==>
      && id in w.tally
      && w.disk[id].billed <= w.tally[id].last.billed
      && (w.disk[id].reaped ==> w.tally[id].last.reaped)
  }

  // No session is opened under an id that was in use before.
  ghost predicate FreshIds(w: World, events: seq<Event>) {
    forall k :: 0 <= k < |events| && events[k].step.PutStep? ==> events[k].step.id !in Run(w, events[..k]).tally
  }

  lemma FreshIdsFront(w: World, events: seq<Event>)
    requires FreshIds(w, events) && events != []
    ensures FreshIds(w, events[..|events| - 1])
  {
    var front := events[..|events| - 1];
    forall k | 0 <= k < |front| && front[k].step.PutStep? ensures front[k].step.id !in Run(w, front[..k]).tally {
      assert front[..k] == events[..k];
    }
  }

  lemma TakeLags(w: World, id: string, project: string, seconds: int, final: bool, now: int, lands: bool)
    requires Tracks(w) && Lags(w)
    ensures Lags(Take(w, id, project, seconds, final, now, lands).0)
  {
  }

  lemma ReapLags(w: World, project: string, now: int, lands: bool)
    requires Tracks(w) && Lags(w)
    ensures Lags(Reap(w, project, now, lands))
  {
    ReapTracks(w, project, now);
    forall id | id in w.tally
      ensures id in ReapTallies(w, project, now)
      ensures ReapTallies(w, project, now)[id].last.billed >= w.tally[id].last.billed
      ensures w.tally[id].last.reaped ==> ReapTallies(w, project, now)[id].last.reaped
    {
      ReapTalliesAt(w, project, now, id);
    }
  }

  lemma StepLags(w: World, e: Event)
    requires Tracks(w) && Lags(w)
    requires e.step.PutStep? ==> e.step.id !in w.tally
    ensures Lags(Apply(w, e))
  {
    match e.step
    case PutStep(id, project) =>
    case TakeStep(id, project, seconds, final) => TakeLags(w, id, project, seconds, final, e.now, e.lands);
    case ReapStep(project) => ReapLags(w, project, e.now, e.lands);
    case RestartStep =>
  }

  lemma {:induction false} FreshRunsLag(kept: bool, events: seq<Event>)
    requires FreshIds(Empty(kept), events)
    ensures Tracks(Run(Empty(kept), events)) && Lags(Run(Empty(kept), events))
    decreases |events|
  {
    if events != [] {
      var w, front := Empty(kept), events[..|events| - 1];
      FreshIdsFront(w, events);
      FreshRunsLag(kept, front);
      assert events[..|events| - 1] == front;
      StepTracks(Run(w, front), events[|events| - 1]);
      StepLags(Run(w, front), events[|events| - 1]);
    }
  }

  // A run that goes on from a restart at now, its own restarts careful.
  ghost predicate GoesOn(w: World, now: int, more: seq<Event>) {
    && InOrder(more)
    && (more != [] ==> now <= more[0].now)
    && Careful(w, more)
  }

  lemma ComesBack(w: World, id: string, now: int, lands: bool)
    requires id in Survivors(w.disk, now) && id in w.tally
    ensures var z := Restart(w, now, lands);
      id in z.mem && z.mem[id] == w.disk[id] && id in z.tally && z.tally[id] == w.tally[id].(last := w.disk[id])
  {
  }

  lemma ReapOnly(w: World, id: string, now: int, lands: bool)
    requires id in w.mem && id in w.tally && Quiet(w.mem[id], w.mem[id].project, now)
    ensures var z := Reap(w, w.mem[id].project, now, lands);
      && id in z.tally
      && z.tally[id] == ReapTally(w.tally[id], w.mem[id], now)
      && (!lands ==> z.disk == w.disk)
  {
  }

  // A report of what was already charged charges the part the file lost.
  lemma LostBillCharges(w: World, now: int, lands: bool, id: string) returns (e: Event)
    requires Exact(w) && id in Survivors(w.disk, now) && w.disk[id].billed < w.tally[id].last.billed
    ensures e.now >= now && !e.step.RestartStep? && !NeverTwice(Apply(Restart(w, now, lands), e))
  {
    var s, t := w.disk[id], w.tally[id];
    var at := Max(now, s.created + t.charged * SECOND);
    assert TallyExact(t);
    e := Event(TakeStep(id, s.project, t.charged, false), at, true);
    var back := Restart(w, now, lands);
    ComesBack(w, id, now, lands);
    assert Ceiling(s, at) >= t.charged;
    assert Clamped(s, t.charged, at) == t.charged;
    var z := Apply(back, e);
    assert z.tally[id].charged == t.charged + (t.charged - s.billed);
    assert z.tally[id].marks == t.marks + [t.charged];
    assert z.tally[id].charged !in z.tally[id].marks;
  }

  // A session the file does not know as reaped is reaped once more.
  lemma LostReapReapsAgain(w: World, now: int, lands: bool, id: string) returns (e: Event)
    requires Exact(w) && id in Survivors(w.disk, now) && w.tally[id].last.reaped && !w.disk[id].reaped
    ensures e.now >= now && !e.step.RestartStep? && !NeverTwice(Apply(Restart(w, now, lands), e))
  {
    var s, t := w.disk[id], w.tally[id];
    var at := Max(now, s.lastSeen + STALE_AFTER + 1);
    assert TallyExact(t);
    e := Event(ReapStep(s.project), at, true);
    ComesBack(w, id, now, lands);
    ReapOnly(Restart(w, now, lands), id, at, true);
  }

  lemma OneStepGoesOn(w: World, now: int, e: Event)
    requires e.now >= now && !e.step.RestartStep?
    ensures GoesOn(w, now, [e]) && Run(w, [e]) == Apply(w, e)
  {
    assert [e][..0] == [];
  }

  lemma UnfaithfulRestartBillsAgain(w: World, now: int, lands: bool) returns (more: seq<Event>)
    requires Exact(w) && Lags(w) && !Faithful(w, now)
    ensures GoesOn(Restart(w, now, lands), now, more) && !NeverTwice(Run(Restart(w, now, lands), more))
  {
    var id :| id in Survivors(w.disk, now)
      && !(w.disk[id].billed == w.tally[id].last.billed && w.disk[id].reaped == w.tally[id].last.reaped);
    var e;
    if w.disk[id].billed < w.tally[id].last.billed {
      e := LostBillCharges(w, now, lands, id);
    } else {
      e := LostReapReapsAgain(w, now, lands, id);
    }
    OneStepGoesOn(Restart(w, now, lands), now, e);
    more := [e];
  }

  // Whatever follows charges nothing twice and reaps nobody twice.
  ghost predicate BillsOnceFrom(w: World, now: int) {
    forall more :: GoesOn(w, now, more) ==> NeverTwice(Run(w, more))
  }

  lemma ExactBillsOnce(w: World, now: int)
    requires Exact(w)
    ensures BillsOnceFrom(w, now)
  {
    forall more | GoesOn(w, now, more) ensures NeverTwice(Run(w, more)) {
      RunExact(w, more);
    }
  }

  lemma FaithfulRestartBillsOnce(w: World, now: int, lands: bool)
    requires Exact(w) && Faithful(w, now)
    ensures BillsOnceFrom(Restart(w, now, lands), now)
  {
    RestartExact(w, now, lands);
    ExactBillsOnce(Restart(w, now, lands), now);
  }

  // After any run with lost writes, a restart is safe, in that whatever follows
  // it charges nothing twice and reaps nobody twice, iff the file bills every
  // session it brings back as memory last did.
  lemma RestartBillsOnceIff(kept: bool, events: seq<Event>, now: int, lands: bool)
    requires Careful(Empty(kept), events) && FreshIds(Empty(kept), events)
    ensures BillsOnceFrom(Restart(Run(Empty(kept), events), now, lands), now)
      <==> Faithful(Run(Empty(kept), events), now)
  {
    RunExact(Empty(kept), events);
    FreshRunsLag(kept, events);
    if Faithful(Run(Empty(kept), events), now) {
      FaithfulRestartBillsOnce(Run(Empty(kept), events), now, lands);
    } else {
      var more := UnfaithfulRestartBillsAgain(Run(Empty(kept), events), now, lands);
    }
  }

  function LostReapScript(id: string, project: string, start: int, first: int, up: int, second: int): seq<Event> {
    [Event(PutStep(id, project), start, true), Event(ReapStep(project), first, false),
     Event(RestartStep, up, true), Event(ReapStep(project), second, true)]
  }

  lemma FirstReap(w: World, id: string, project: string, start: int, now: int)
    requires w == Put(Empty(true), id, project, start, true) && now > start + STALE_AFTER
    ensures var s, z := Created(project, start), Reap(w, project, now, false);
      && id in z.disk && z.disk[id] == s
      && id in z.tally && z.tally[id] == Tally(600, [60, 600], 1, now, Reaped(s))
  {
    assert w.mem[id] == Created(project, start) && w.disk[id] == Created(project, start);
    ReapOnly(w, id, now, false);
    assert ReapMark(w.mem[id]) == 600;
    assert [60] + [600] == [60, 600];
  }

  // The script up to the restart: memory has the session as it was opened.
  lemma LostReapComesBack(id: string, project: string, start: int, first: int, up: int, second: int) returns (z: World)
    requires id != "" && start + STALE_AFTER < first <= up && up <= start + SESSION_TTL
    ensures z == Run(Empty(true), LostReapScript(id, project, start, first, up, second)[..3])
    ensures id in z.mem && z.mem[id] == Created(project, start)
    ensures id in z.tally && z.tally[id] == Tally(600, [60, 600], 1, first, Created(project, start))
  {
    var script := LostReapScript(id, project, start, first, up, second);
    RunStep(Empty(true), script, 0);
    RunStep(Empty(true), script, 1);
    RunStep(Empty(true), script, 2);
    var put := Put(Empty(true), id, project, start, true);
    FirstReap(put, id, project, start, first);
    var reaped := Reap(put, project, first, false);
    ComesBack(reaped, id, up, true);
    z := Restart(reaped, up, true);
  }

  // A reap of a session as it was opened, reaped before and forgotten.
  lemma SecondReap(w: World, id: string, project: string, start: int, first: int, now: int)
    requires id in w.mem && w.mem[id] == Created(project, start) && now > start + STALE_AFTER
    requires id in w.tally && w.tally[id] == Tally(600, [60, 600], 1, first, Created(project, start))
    ensures var z := Reap(w, project, now, true);
      id in z.tally && z.tally[id].reaps == 2 && z.tally[id].charged == 1140 && z.tally[id].last.billed == 600
  {
    ReapOnly(w, id, now, true);
    assert ReapMark(w.mem[id]) == 600 && Owed(w.mem[id]) == 540;
  }

  lemma LostReapRuns(id: string, project: string, start: int, first: int, up: int, second: int)
    requires id != "" && start + STALE_AFTER < first <= up <= second && up <= start + SESSION_TTL
    ensures var z := Run(Empty(true), LostReapScript(id, project, start, first, up, second));
      id in z.tally && z.tally[id].reaps == 2 && z.tally[id].charged == 1140 && z.tally[id].last.billed == 600
  {
    var back := LostReapComesBack(id, project, start, first, up, second);
    SecondReap(back, id, project, start, first, second);
    var script := LostReapScript(id, project, start, first, up, second);
    assert script[..4] == script;
    RunStep(Empty(true), script, 3);
  }

  lemma FourteenMinutes(age: int)
    ensures 1140 <= Max(PREPAID_SECONDS, WholeSeconds(age) + 300) <==> age >= 840 * SECOND
  {
  }

  // A reap whose write failed, a restart, and the next reap: the quiet time is
  // charged once more, and inside fourteen minutes that is more than the bound.
  lemma LostReapReapsTwice(id: string, project: string, start: int, first: int, up: int, second: int)
    requires id != "" && start + STALE_AFTER < first <= up <= second && up <= start + SESSION_TTL
    ensures InOrder(LostReapScript(id, project, start, first, up, second))
    ensures var z := Run(Empty(true), LostReapScript(id, project, start, first, up, second));
      && id in z.tally && z.tally[id].reaps == 2
      && (z.tally[id].charged <= Max(PREPAID_SECONDS, WholeSeconds(second - start) + 300)
        <==> second - start >= 840 * SECOND)
  {
    LostReapRuns(id, project, start, first, up, second);
    FourteenMinutes(second - start);
  }

  lemma ReportedOnce(w: World, id: string, seconds: int, now: int, lands: bool)
    requires id in w.mem && id in w.tally
    ensures var z := Take(w, id, w.mem[id].project, seconds, false, now, lands).0;
      var d := Delta(w.mem[id], seconds, now);
      && z.kept == w.kept
      && z.mem == w.mem[id := Reported(w.mem[id], seconds, now)]
      && z.tally.Keys == w.tally.Keys
      && z.tally[id].charged == w.tally[id].charged + d
      && z.disk == if w.kept && lands && d > 0 then z.mem else w.disk
  {
  }

  lemma ReportComesBack(w: World, id: string, seconds: int, now: int, up: int, lands: bool)
    requires w.kept && id != "" && id in w.disk && id in w.mem && id in w.tally
    requires w.disk[id].project == w.mem[id].project && w.disk[id].created == w.mem[id].created
    requires w.disk[id].billed == w.mem[id].billed && up - w.mem[id].created <= SESSION_TTL
    ensures var d := Delta(w.mem[id], seconds, now);
      var z := Restart(Take(w, id, w.mem[id].project, seconds, false, now, lands).0, up, true);
      && id in z.mem && z.mem[id].project == w.mem[id].project && z.mem[id].created == w.mem[id].created
      && z.mem[id].billed == w.mem[id].billed + (if lands then d else 0)
      && id in z.tally && z.tally[id].charged == w.tally[id].charged + d
  {
    ReportedOnce(w, id, seconds, now, lands);
    var taken := Take(w, id, w.mem[id].project, seconds, false, now, lands).0;
    assert id in Survivors(taken.disk, up) && Survivors(taken.disk, up)[id] == taken.disk[id];
  }

  // A report whose write failed, a restart, and the same report again: the
  // seconds are charged twice, and exactly when the first write was lost.
  lemma LostWriteBillsTwice(w: World, id: string, seconds: int, now: int, up: int, again: int, lands: bool)
    requires Exact(w) && w.kept && id != "" && id in w.disk && id in w.mem
    requires w.disk[id].project == w.mem[id].project && w.disk[id].created == w.mem[id].created
    requires w.disk[id].billed == w.mem[id].billed
    requires now <= up <= again && up - w.mem[id].created <= SESSION_TTL
    requires 0 <= now - w.mem[id].created && seconds <= Ceiling(w.mem[id], now)
    ensures var back := Restart(Take(w, id, w.mem[id].project, seconds, false, now, lands).0, up, true);
      var z := Take(back, id, w.mem[id].project, seconds, false, again, true).0;
      && id in z.mem
      && z.tally[id].charged == w.tally[id].charged + (if lands then 1 else 2) * Delta(w.mem[id], seconds, now)
      && (z.tally[id].charged == z.mem[id].billed <==> lands || Delta(w.mem[id], seconds, now) == 0)
  {
    assert TallyExact(w.tally[id]);
    ReportComesBack(w, id, seconds, now, up, lands);
    var back := Restart(Take(w, id, w.mem[id].project, seconds, false, now, lands).0, up, true);
    assert Ceiling(back.mem[id], again) >= Ceiling(w.mem[id], now);
    ReportedOnce(back, id, seconds, again, true);
    assert Delta(back.mem[id], seconds, again) == if lands then 0 else Delta(w.mem[id], seconds, now);
  }
}
