// Metering of live calls: a session is prepaid when it is created, then billed
// from cumulative reports that may repeat or arrive out of order, and once
// more when it goes silent. Instants are whole nanoseconds.

module LiveModel {
  const SECOND: int := 1_000_000_000
  const SESSION_TTL: int := 6 * 3600 * SECOND
  const PREPAID_SECONDS: int := 60
  const STALE_AFTER: int := 600 * SECOND
  const CLOCK_SLACK: int := 300 * SECOND

  // A duration in seconds, cut towards zero.
  function WholeSeconds(ns: int): int {
    if ns >= 0 then ns / SECOND else -((-ns) / SECOND)
  }

  function Max(a: int, b: int): int {
    if a < b then b else a
  }

  datatype Session = Session(project: string, created: int, billed: int, lastSeen: int, reaped: bool)

  // What has happened to one session since it was created: the seconds it was
  // charged, every mark its bill was raised to meet, how often it was reaped,
  // when it was last billed or reported on, and the session as memory last held
  // it. It outlives the session; the gateway keeps none of this.
  datatype Tally = Tally(charged: int, marks: seq<int>, reaps: nat, at: int, last: Session)

  // kept says whether the registry has a file at all.
  datatype World = World(kept: bool, mem: map<string, Session>, disk: map<string, Session>, tally: map<string, Tally>)

  function Save(w: World, lands: bool): World {
    if w.kept && lands then w.(disk := w.mem) else w
  }

  function Pruned(m: map<string, Session>, now: int): map<string, Session> {
    map id | id in m && !(m[id].created < now - SESSION_TTL) :: m[id]
  }

  function NoTally(s: Session): Tally {
    Tally(0, [], 0, s.created, s)
  }

  function TallyOf(w: World, id: string, s: Session): Tally {
    if id in w.tally then w.tally[id] else NoTally(s)
  }

  // ----- creation -----

  function Created(project: string, now: int): Session {
    Session(project, now, PREPAID_SECONDS, now, false)
  }

  function Opening(project: string, now: int): Tally {
    Tally(PREPAID_SECONDS, [PREPAID_SECONDS], 0, now, Created(project, now))
  }

  function Put(w: World, id: string, project: string, now: int, lands: bool): World {
    Save(w.(mem := Pruned(w.mem, now)[id := Created(project, now)],
            tally := w.tally[id := Opening(project, now)]), lands)
  }

  // ----- a report -----

  function Ceiling(s: Session, now: int): int {
    WholeSeconds(now - s.created + CLOCK_SLACK)
  }

  // The report as it counts: never ahead of the clock by more than the slack.
  function Clamped(s: Session, seconds: int, now: int): int {
    if seconds > Ceiling(s, now) then Ceiling(s, now) else seconds
  }

  function Delta(s: Session, seconds: int, now: int): nat {
    Max(0, Clamped(s, seconds, now) - s.billed)
  }

  function Reported(s: Session, seconds: int, now: int): Session {
    s.(billed := s.billed + Delta(s, seconds, now), lastSeen := now)
  }

  function ReportTally(t: Tally, s: Session, seconds: int, now: int): Tally {
    Tally(t.charged + Delta(s, seconds, now), t.marks + [Clamped(s, seconds, now)], t.reaps,
          now, Reported(s, seconds, now))
  }

  datatype Receipt = Unknown | Receipt(session: Session, delta: nat)

  function Take(w: World, id: string, project: string, seconds: int, final: bool, now: int, lands: bool)
    : (World, Receipt)
  {
    if id !in w.mem || w.mem[id].project != project then (w, Unknown)
    else
      var s := w.mem[id];
      var r := Reported(s, seconds, now);
      var d := Delta(s, seconds, now);
      var z := w.(mem := if final then w.mem - {id} else w.mem[id := r],
                  tally := w.tally[id := ReportTally(TallyOf(w, id, s), s, seconds, now)]);
      (if d > 0 || final then Save(z, lands) else z, Receipt(r, d))
  }

  // ----- silence -----

  predicate Quiet(s: Session, project: string, now: int) {
    s.project == project && !s.reaped && now - s.lastSeen > STALE_AFTER
  }

  // Until it went quiet, plus the window.
  function ReapMark(s: Session): int {
    WholeSeconds(s.lastSeen + STALE_AFTER - s.created)
  }

  function Owed(s: Session): nat {
    Max(0, ReapMark(s) - s.billed)
  }

  function Reaped(s: Session): Session {
    s.(billed := s.billed + Owed(s), reaped := true)
  }

  function ReapAll(m: map<string, Session>, project: string, now: int): map<string, Session> {
    map id | id in m :: if Quiet(m[id], project, now) then Reaped(m[id]) else m[id]
  }

  function ReapTally(t: Tally, s: Session, now: int): Tally {
    Tally(t.charged + Owed(s), t.marks + [ReapMark(s)], t.reaps + 1, now, Reaped(s))
  }

  function ReapTallies(w: World, project: string, now: int): map<string, Tally> {
    w.tally
      + map id | id in w.mem && Quiet(w.mem[id], project, now) :: ReapTally(TallyOf(w, id, w.mem[id]), w.mem[id], now)
  }

  predicate AnyQuiet(m: map<string, Session>, project: string, now: int) {
    exists id :: id in m && Quiet(m[id], project, now)
  }

  function Reap(w: World, project: string, now: int, lands: bool): World {
    if !AnyQuiet(w.mem, project, now) then w
    else Save(w.(mem := ReapAll(w.mem, project, now), tally := ReapTallies(w, project, now)), lands)
  }

  // ----- a restart -----

  // What a new process keeps of the file: all but what has passed its lifetime.
  function Survivors(file: map<string, Session>, now: int): map<string, Session> {
    Pruned(map id | id in file && id != "" :: file[id], now)
  }

  function RestartTallies(w: World, now: int): map<string, Tally> {
    var back := Survivors(w.disk, now);
    w.tally + map id | id in back :: TallyOf(w, id, back[id]).(last := back[id])
  }

  // A new process reads the file back, drops what has passed its lifetime and
  // writes the rest. Without a file it starts with nothing.
  function Restart(w: World, now: int, lands: bool): World {
    Save(w.(mem := Survivors(w.disk, now), tally := RestartTallies(w, now)), lands)
  }

  // ----- runs -----

  datatype Step =
    | PutStep(id: string, project: string)
    | TakeStep(id: string, project: string, seconds: int, final: bool)
    | ReapStep(project: string)
    | RestartStep

  datatype Event = Event(step: Step, now: int, lands: bool)

  function Apply(w: World, e: Event): World {
    match e.step
    case PutStep(id, project) => Put(w, id, project, e.now, e.lands)
    case TakeStep(id, project, seconds, final) => Take(w, id, project, seconds, final, e.now, e.lands).0
    case ReapStep(project) => Reap(w, project, e.now, e.lands)
    case RestartStep => Restart(w, e.now, e.lands)
  }

  function Run(w: World, events: seq<Event>): World
    decreases |events|
  {
    if events == [] then w else Apply(Run(w, events[..|events| - 1]), events[|events| - 1])
  }

  function Empty(kept: bool): World {
    World(kept, map[], map[], map[])
  }

  // The clock never goes back.
  predicate InOrder(events: seq<Event>) {
    forall i, j :: 0 <= i < j < |events| ==> events[i].now <= events[j].now
  }

  predicate AllLand(events: seq<Event>) {
    forall i :: 0 <= i < |events| ==> events[i].lands
  }
}
