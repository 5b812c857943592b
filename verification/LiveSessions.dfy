// The registry of live calls, changed in place under its lock. Ghost state
// keeps the file's content and what each session has been charged.

module LiveSessions {
  import opened LiveModel

  datatype Gone = Gone(id: string, session: Session, owed: nat)

  function GoneOf(id: string, s: Session): Gone {
    Gone(id, Reaped(s), Owed(s))
  }

  class Registry {
    var sessions: map<string, Session>
    const kept: bool
    ghost var disk: map<string, Session>
    ghost var tally: map<string, Tally>

    ghost function World(): World
      reads this
    {
      LiveModel.World(kept, sessions, disk, tally)
    }

    constructor (kept: bool)
      ensures World() == Empty(kept)
    {
      this.kept := kept;
      sessions, disk, tally := map[], map[], map[];
    }

    method SaveLocked(lands: bool)
      modifies this`disk
      ensures World() == LiveModel.Save(old(World()), lands)
    {
      if kept && lands {
        disk := sessions;
      }
    }

    method Prune(now: int)
      modifies this`sessions
      ensures sessions == Pruned(old(sessions), now)
    {
      var left := sessions.Keys;
      while left != {}
        invariant left <= sessions.Keys
        invariant forall id :: id in sessions ==> id in old(sessions) && sessions[id] == old(sessions)[id]
        invariant forall id ::
          id in old(sessions) && (id in left || !(old(sessions)[id].created < now - SESSION_TTL)) ==> id in sessions
        invariant forall id :: id in sessions && id !in left ==> !(sessions[id].created < now - SESSION_TTL)
        decreases left
      {
        var id :| id in left;
        if sessions[id].created < now - SESSION_TTL {
          sessions := sessions - {id};
        }
        left := left - {id};
      }
    }

    // A new session, prepaid; its first minute is charged with it.
    method Put(id: string, project: string, now: int, lands: bool)
      modifies this
      ensures World() == LiveModel.Put(old(World()), id, project, now, lands)
    {
      Prune(now);
      sessions := sessions[id := Created(project, now)];
      tally := tally[id := Opening(project, now)];
      SaveLocked(lands);
    }

    // A usage report: the seconds it adds are what the caller charges.
    method Take(id: string, project: string, reported: int, final: bool, now: int, lands: bool) returns (r: Receipt)
      modifies this
      ensures (World(), r) == LiveModel.Take(old(World()), id, project, reported, final, now, lands)
      ensures r.Receipt? ==>
        r.session.billed == Max(old(sessions)[id].billed, Clamped(old(sessions)[id], reported, now))
      ensures r.Receipt? ==> r.session.lastSeen == now
      ensures r.Receipt? ==> if final then id !in sessions else id in sessions && sessions[id] == r.session
    {
      if id !in sessions || sessions[id].project != project {
        return Unknown;
      }
      var s := sessions[id];
      var seconds := reported;
      var ceiling := WholeSeconds(now - s.created + CLOCK_SLACK);
      if seconds > ceiling {
        seconds := ceiling;
      }
      var delta := seconds - s.billed;
      if delta < 0 {
        delta := 0;
      }
      s := s.(billed := s.billed + delta, lastSeen := now);
      sessions := sessions[id := s];
      tally := tally[id := ReportTally(TallyOf(old(World()), id, old(sessions)[id]), old(sessions)[id], reported, now)];
      if final {
        sessions := sessions - {id};
        assert sessions == old(sessions) - {id};
      }
      if delta > 0 || final {
        SaveLocked(lands);
      }
      r := Receipt(s, delta);
    }

    // Bills one quiet session until it went quiet plus the window.
    method ReapOne(id: string) returns (g: Gone)
      requires id in sessions
      modifies this`sessions
      ensures sessions == old(sessions)[id := Reaped(old(sessions)[id])]
      ensures g == GoneOf(id, old(sessions)[id])
    {
      var s := sessions[id];
      var until := WholeSeconds(s.lastSeen + STALE_AFTER - s.created);
      var owed := until - s.billed;
      if owed < 0 {
        owed := 0;
      }
      s := s.(billed := s.billed + owed, reaped := true);
      sessions := sessions[id := s];
      g := Gone(id, s, owed);
    }

    // Bills what has gone quiet, each session once, in whatever order the
    // map yields them.
    method Reap(project: string, now: int, lands: bool) returns (out: seq<Gone>)
      modifies this
      ensures World() == LiveModel.Reap(old(World()), project, now, lands)
      ensures forall i, j :: 0 <= i < j < |out| ==> out[i].id != out[j].id
      ensures forall g :: g in out <==>
        g.id in old(sessions) && Quiet(old(sessions)[g.id], project, now) && g == GoneOf(g.id, old(sessions)[g.id])
    {
      ghost var was := sessions;
      out := [];
      var left := sessions.Keys;
      while left != {}
        invariant sessions.Keys == was.Keys && left <= was.Keys
        invariant forall id :: id in was ==>
          sessions[id] == if id !in left && Quiet(was[id], project, now) then Reaped(was[id]) else was[id]
        invariant forall i, j :: 0 <= i < j < |out| ==> out[i].id != out[j].id
        invariant forall g :: g in out ==>
          g.id in was && g.id !in left && Quiet(was[g.id], project, now) && g == GoneOf(g.id, was[g.id])
        invariant forall id :: id in was && id !in left && Quiet(was[id], project, now) ==> GoneOf(id, was[id]) in out
        invariant tally == old(tally) && disk == old(disk)
        decreases left
      {
        var id :| id in left;
        left := left - {id};
        if sessions[id].project != project || sessions[id].reaped || now - sessions[id].lastSeen <= STALE_AFTER {
          continue;
        }
        var g := ReapOne(id);
        forall i | 0 <= i < |out| ensures out[i].id != id {
          assert out[i] in out;
        }
        out := out + [g];
      }
      if |out| == 0 {
        assert forall id :: id in was ==> !Quiet(was[id], project, now);
        assert sessions == was;
        return;
      }
      assert out[0] in out;
      assert sessions == ReapAll(was, project, now);
      tally := ReapTallies(old(World()), project, now);
      SaveLocked(lands);
    }

    // What a new process does with the file it finds: load it, drop what is
    // past its lifetime, write the rest back. `file` is what reading it gave.
    method PersistTo(file: map<string, Session>, now: int, lands: bool)
      requires file == disk
      modifies this
      ensures World() == Restart(old(World()), now, lands)
    {
      sessions := map[];
      var left := file.Keys;
      while left != {}
        invariant left <= file.Keys
        invariant sessions == map id | id in file && id !in left && id != "" :: file[id]
        invariant tally == old(tally) && disk == old(disk)
        decreases left
      {
        var id :| id in left;
        left := left - {id};
        if id != "" {
          sessions := sessions[id := file[id]];
        }
      }
      assert sessions == map id | id in file && id != "" :: file[id];
      tally := RestartTallies(old(World()), now);
      Prune(now);
      SaveLocked(lands);
    }
  }
}
