// What each step does to a live call, said outright with the limits themselves:
// sixty prepaid seconds, five minutes of slack, ten minutes of silence, six
// hours of life. And who is taken for abandoned, over whole runs.

module LiveEffects {
  import opened Basics
  import opened LiveModel

  // n is a span in whole seconds, cut.
  predicate Seconds(span: int, n: nat) {
    n * 1_000_000_000 <= span < (n + 1) * 1_000_000_000
  }

  lemma SecondsAre(span: int, n: nat)
    requires Seconds(span, n)
    ensures WholeSeconds(span) == n
  {
  }

  // ----- creation -----

  lemma OpensPrepaid(w: World, id: string, project: string, now: int, lands: bool)
    ensures var z := Put(w, id, project, now, lands);
      && id in z.mem && z.mem[id] == Session(project, now, 60, now, false)
      && id in z.tally && z.tally[id].charged == 60
      && (forall other :: other != id ==>
           (other in z.mem <==> other in w.mem && w.mem[other].created >= now - 21_600_000_000_000))
      && (forall other :: other != id && other in z.mem ==> z.mem[other] == w.mem[other])
      && z.disk == if w.kept && lands then z.mem else w.disk
  {
  }

  // ----- a report -----

  // What counts of a report is at most its age and five minutes; the bill rises
  // to it and never falls, the caller pays the rise, and the session has been
  // heard from. The file is written when something was billed or the call ended.
  lemma ReportBills(w: World, id: string, project: string, seconds: int, final: bool, now: int, lands: bool, most: nat)
    requires id in w.mem && w.mem[id].project == project && Seconds(now - w.mem[id].created + 300_000_000_000, most)
    ensures var s := w.mem[id];
      var counted := if seconds < most then seconds else most;
      var rise := if counted > s.billed then counted - s.billed else 0;
      var (z, r) := Take(w, id, project, seconds, final, now, lands);
      && r == Receipt(Session(s.project, s.created, s.billed + rise, now, s.reaped), rise)
      && z.mem == (if final then w.mem - {id} else w.mem[id := r.session])
      && id in z.tally && z.tally[id].charged == TallyOf(w, id, s).charged + rise
      && z.tally[id].marks == TallyOf(w, id, s).marks + [counted]
      && z.disk == if w.kept && lands && (rise > 0 || final) then z.mem else w.disk
  {
    SecondsAre(now - w.mem[id].created + 300_000_000_000, most);
  }

  // A report by anyone else, or of a session that is not there, does nothing.
  lemma ReportUnknown(w: World, id: string, project: string, seconds: int, final: bool, now: int, lands: bool)
    requires id !in w.mem || w.mem[id].project != project
    ensures Take(w, id, project, seconds, final, now, lands) == (w, Unknown)
  {
  }

  // ----- silence -----

  // A session is reaped when it is the project's, was not reaped and was last
  // heard from more than ten minutes ago; then it is billed to the end of those
  // ten minutes, and no other session changes.
  lemma ReapTakesTheSilent(w: World, project: string, now: int, lands: bool, id: string, until: nat)
    requires id in w.mem && Seconds(w.mem[id].lastSeen + 600_000_000_000 - w.mem[id].created, until)
    ensures var s, z := w.mem[id], Reap(w, project, now, lands);
      var owed := if until > s.billed then until - s.billed else 0;
      id in z.mem && z.mem[id] ==
        if s.project == project && !s.reaped && now - s.lastSeen > 600_000_000_000
        then Session(s.project, s.created, s.billed + owed, s.lastSeen, true)
        else s
  {
    SecondsAre(w.mem[id].lastSeen + 600_000_000_000 - w.mem[id].created, until);
    if !AnyQuiet(w.mem, project, now) {
      assert !Quiet(w.mem[id], project, now);
    }
  }

  lemma ReapCharges(w: World, project: string, now: int, lands: bool, id: string, until: nat)
    requires id in w.mem && id in w.tally && w.mem[id].project == project && !w.mem[id].reaped
    requires now - w.mem[id].lastSeen > 600_000_000_000
    requires Seconds(w.mem[id].lastSeen + 600_000_000_000 - w.mem[id].created, until)
    ensures var s, z := w.mem[id], Reap(w, project, now, lands);
      && id in z.tally && z.tally[id].marks == w.tally[id].marks + [until]
      && z.tally[id].charged == w.tally[id].charged + (if until > s.billed then until - s.billed else 0)
      && z.disk == if w.kept && lands then z.mem else w.disk
  {
    SecondsAre(w.mem[id].lastSeen + 600_000_000_000 - w.mem[id].created, until);
    assert Quiet(w.mem[id], project, now);
  }

  // A call that is reporting is not abandoned: for ten minutes after a report
  // no reap touches it.
  lemma ReportKeepsAlive(w: World, id: string, project: string, seconds: int, t: int, lands: bool,
                         reaper: string, now: int, saved: bool)
    requires id in w.mem && w.mem[id].project == project && !w.mem[id].reaped && now - t <= 600_000_000_000
    ensures var z := Take(w, id, project, seconds, false, t, lands).0;
      var after := Reap(z, reaper, now, saved);
      && id in z.mem && id in after.mem && after.mem[id] == z.mem[id]
      && !after.mem[id].reaped
  {
  }

  // ----- a restart -----

  lemma RestartBringsBack(w: World, now: int, lands: bool, id: string)
    ensures var z := Restart(w, now, lands);
      && (id in z.mem <==> id in w.disk && id != "" && w.disk[id].created >= now - 21_600_000_000_000)
      && (id in z.mem ==> z.mem[id] == w.disk[id])
      && z.disk == if w.kept && lands then z.mem else w.disk
  {
  }

  // ----- when a session was last heard from -----

  // The event opens the session or is a report it accepts.
  predicate Hears(w: World, e: Event, id: string) {
    match e.step
    case PutStep(newcomer, _) => newcomer == id
    case TakeStep(reported, project, _, _) => reported == id && id in w.mem && w.mem[id].project == project
    case _ => false
  }

  // The instant of the last event of a run that heard from the session.
  function HeardAt(w: World, events: seq<Event>, id: string): Option<int>
    decreases |events|
  {
    if events == [] then None
    else if Hears(Run(w, events[..|events| - 1]), events[|events| - 1], id) then Some(events[|events| - 1].now)
    else HeardAt(w, events[..|events| - 1], id)
  }

  // Every running session remembers when it was last heard from.
  ghost predicate Remembers(w: World, events: seq<Event>) {
    forall id :: id in Run(w, events).mem ==> HeardAt(w, events, id) == Some(Run(w, events).mem[id].lastSeen)
  }

  // What a restart brings back from the file remembers it too.
  ghost predicate FileRemembers(w: World, events: seq<Event>, now: int) {
    forall id :: id in Survivors(Run(w, events).disk, now) ==>
      HeardAt(w, events, id) == Some(Run(w, events).disk[id].lastSeen)
  }

  lemma StepRemembers(w: World, events: seq<Event>, e: Event)
    requires Remembers(w, events)
    ensures e.step.RestartStep? ==> (Remembers(w, events + [e]) <==> FileRemembers(w, events, e.now))
    ensures !e.step.RestartStep? ==> Remembers(w, events + [e])
  {
    var more := events + [e];
    assert more[..|more| - 1] == events;
    assert Run(w, more) == Apply(Run(w, events), e);
    forall id ensures HeardAt(w, more, id) ==
      if Hears(Run(w, events), e, id) then Some(e.now) else HeardAt(w, events, id)
    {
    }
    match e.step
    case PutStep(_, _) =>
    case TakeStep(_, _, _, _) =>
    case ReapStep(_) =>
    case RestartStep =>
      assert Run(w, more).mem == Survivors(Run(w, events).disk, e.now);
  }

  lemma RememberedUntil(w: World, events: seq<Event>, n: nat)
    requires n <= |events| && Remembers(w, [])
    requires forall k :: 0 <= k < n && events[k].step.RestartStep? ==> FileRemembers(w, events[..k], events[k].now)
    ensures Remembers(w, events[..n])
  {
    if n == 0 {
      assert events[..0] == [];
    } else {
      RememberedUntil(w, events, n - 1);
      StepRemembers(w, events[..n - 1], events[n - 1]);
      assert events[..n] == events[..n - 1] + [events[n - 1]];
    }
  }

  // Over a run with any write outcomes, every session remembers at every moment
  // when it was last heard from iff each restart finds that on file.
  lemma RememberedThroughoutIff(kept: bool, events: seq<Event>)
    ensures (forall k :: 0 <= k <= |events| ==> Remembers(Empty(kept), events[..k]))
      <==> (forall k :: 0 <= k < |events| && events[k].step.RestartStep? ==>
              FileRemembers(Empty(kept), events[..k], events[k].now))
  {
    var w := Empty(kept);
    if forall k :: 0 <= k < |events| && events[k].step.RestartStep? ==> FileRemembers(w, events[..k], events[k].now) {
      forall k | 0 <= k <= |events| ensures Remembers(w, events[..k]) {
        RememberedUntil(w, events, k);
      }
    }
    if forall k :: 0 <= k <= |events| ==> Remembers(w, events[..k]) {
      forall k | 0 <= k < |events| && events[k].step.RestartStep? ensures FileRemembers(w, events[..k], events[k].now) {
        StepRemembers(w, events[..k], events[k]);
        assert events[..k + 1] == events[..k] + [events[k]];
      }
    }
  }

  // Then a reap takes a session for abandoned exactly when it is the project's,
  // was not taken before, and was neither opened nor reported on for more than
  // ten minutes.
  lemma AbandonedIff(kept: bool, events: seq<Event>, project: string, now: int, lands: bool, id: string)
    requires forall k :: 0 <= k < |events| && events[k].step.RestartStep? ==>
      FileRemembers(Empty(kept), events[..k], events[k].now)
    requires id in Run(Empty(kept), events).mem && !Run(Empty(kept), events).mem[id].reaped
    ensures var w := Run(Empty(kept), events);
      && HeardAt(Empty(kept), events, id).Some?
      && id in Reap(w, project, now, lands).mem
      && (Reap(w, project, now, lands).mem[id].reaped
          <==> w.mem[id].project == project && now - HeardAt(Empty(kept), events, id).value > 600_000_000_000)
  {
    RememberedUntil(Empty(kept), events, |events|);
    assert events[..|events|] == events;
    var w := Run(Empty(kept), events);
    if !AnyQuiet(w.mem, project, now) {
      assert !Quiet(w.mem[id], project, now);
    }
  }

  // A report that adds nothing to the bill keeps a call alive in memory only:
  // after a restart it is taken for abandoned however lately it reported, all
  // writes landing.
  lemma RepeatedReportForgotten(id: string, project: string, start: int, seconds: int, t: int, up: int, now: int)
    requires id != "" && start <= t <= up <= now && up <= start + 21_600_000_000_000
    requires seconds <= 60 && now - start > 600_000_000_000
    ensures var events := [Event(PutStep(id, project), start, true),
                           Event(TakeStep(id, project, seconds, false), t, true), Event(RestartStep, up, true)];
      var w := Run(Empty(true), events);
      && HeardAt(Empty(true), events, id) == Some(t)
      && id in w.mem && id in Reap(w, project, now, true).mem && Reap(w, project, now, true).mem[id].reaped
  {
    var put, take := Event(PutStep(id, project), start, true), Event(TakeStep(id, project, seconds, false), t, true);
    var events := [put, take, Event(RestartStep, up, true)];
    assert events[..2] == [put, take] && [put, take][..1] == [put] && [put][..0] == [];
    var begun := Put(Empty(true), id, project, start, true);
    assert Run(Empty(true), [put]) == begun;
    OpensPrepaid(Empty(true), id, project, start, true);
    RepeatedReport(begun, id, seconds, t);
    var w := Run(Empty(true), events);
    assert Run(Empty(true), [put, take]) == Take(begun, id, project, seconds, false, t, true).0;
    assert w == Restart(Take(begun, id, project, seconds, false, t, true).0, up, true);
    assert w.mem[id] == Session(project, start, 60, start, false);
    assert Quiet(w.mem[id], project, now);
  }

  lemma RepeatedReport(w: World, id: string, seconds: int, t: int)
    requires id in w.mem && seconds <= w.mem[id].billed
    ensures Take(w, id, w.mem[id].project, seconds, false, t, true).0.disk == w.disk
  {
  }
}
