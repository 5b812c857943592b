// The recent-calls log: a fixed ring, oldest entry overwritten, read newest
// first.

module RingLog {
  import opened Basics
  import opened Text

  const UNSET: int := 0

  datatype Entry = Entry(at: int, project: string, provider: string, model: string, tokens: int, denied: bool,
                         reason: string)

  // The log is asked for some projects, or for all of them.
  predicate Shown(e: Entry, projects: Option<set<string>>) {
    e.at != UNSET && (projects.None? || Lower(e.project) in projects.value)
  }

  function LastOf(all: seq<Entry>, n: nat): seq<Entry> {
    if |all| <= n then all else all[|all| - n..]
  }

  function NewestFirst(s: seq<Entry>): seq<Entry> {
    seq(|s|, i requires 0 <= i < |s| => s[|s| - 1 - i])
  }

  function Select(s: seq<Entry>, projects: Option<set<string>>): seq<Entry> {
    if s == [] then []
    else
      var front := Select(s[..|s| - 1], projects);
      if Shown(s[|s| - 1], projects) then front + [s[|s| - 1]] else front
  }

  function Cut(s: seq<Entry>, k: nat): seq<Entry> {
    if |s| <= k then s else s[..k]
  }

  lemma WrapOnce(x: nat, n: nat)
    requires 0 < n && x < 2 * n
    ensures x % n == if x < n then x else x - n
  {
    if x >= n {
      assert x == n * 1 + (x - n);
    }
  }

  lemma {:induction false} SelectPrefix(s: seq<Entry>, i: nat, projects: Option<set<string>>)
    requires i <= |s|
    ensures Select(s[..i], projects) <= Select(s, projects)
    decreases |s|
  {
    if i == |s| {
      assert s[..i] == s;
    } else {
      SelectPrefix(s[..|s| - 1], i, projects);
      assert s[..|s| - 1][..i] == s[..i];
    }
  }

  lemma SelectOne(s: seq<Entry>, i: nat, projects: Option<set<string>>)
    requires i < |s|
    ensures Select(s[..i + 1], projects) == Select(s[..i], projects) + if Shown(s[i], projects) then [s[i]] else []
  {
    assert s[..i + 1][..i] == s[..i];
  }

  // Stopping early is cutting.
  lemma StoppedEarly(s: seq<Entry>, i: nat, projects: Option<set<string>>, k: nat)
    requires i <= |s| && |Select(s[..i], projects)| <= k && (i == |s| || |Select(s[..i], projects)| == k)
    ensures Select(s[..i], projects) == Cut(Select(s, projects), k)
  {
    SelectPrefix(s, i, projects);
    assert i == |s| ==> s[..i] == s;
  }

  // The ring as the order its entries were written in.
  function View(slots: seq<Entry>, next: nat, filled: bool): seq<Entry>
    requires next <= |slots|
  {
    if filled then slots[next..] + slots[..next] else slots[..next]
  }

  function Next(next: nat, n: nat): nat {
    if next + 1 == n then 0 else next + 1
  }

  // Overwriting the next slot drops the oldest entry once the ring is full.
  lemma Overwrite(slots: seq<Entry>, next: nat, filled: bool, e: Entry)
    requires next < |slots|
    ensures View(slots[next := e], Next(next, |slots|), filled || next + 1 == |slots|) ==
      LastOf(View(slots, next, filled) + [e], |slots|)
  {
    var after := View(slots[next := e], Next(next, |slots|), filled || next + 1 == |slots|);
    if filled {
      assert View(slots, next, filled) + [e] == [slots[next]] + (slots[next + 1..] + slots[..next] + [e]);
      assert after == slots[next + 1..] + slots[..next] + [e];
    } else {
      assert after == slots[..next] + [e];
    }
  }

  lemma LastOfLast(all: seq<Entry>, n: nat, e: Entry)
    requires n > 0
    ensures LastOf(LastOf(all, n) + [e], n) == LastOf(all + [e], n)
  {
  }

  // The ring after an entry is written, as the last of all there ever were.
  lemma AddedView(slots: seq<Entry>, next: nat, filled: bool, all: seq<Entry>, e: Entry)
    requires next < |slots| && View(slots, next, filled) == LastOf(all, |slots|)
    ensures View(slots[next := e], Next(next, |slots|), filled || next + 1 == |slots|) == LastOf(all + [e], |slots|)
  {
    Overwrite(slots, next, filled, e);
    LastOfLast(all, |slots|, e);
  }

  // Where the i-th newest entry sits.
  lemma NewestAt(slots: seq<Entry>, next: nat, filled: bool, i: nat)
    requires next < |slots| && i < |View(slots, next, filled)|
    ensures var p := next - 1 - i; var k := if p < 0 then p + |slots| else p;
      0 <= k < |slots| && slots[k] == NewestFirst(View(slots, next, filled))[i]
  {
  }

  // Counting back from the next slot, around the ring.
  method SlotOf(next: nat, i: nat, n: nat) returns (idx: nat)
    requires next < n && i < n
    ensures idx == (if next - 1 - i < 0 then next - 1 - i + n else next - 1 - i) < n
  {
    WrapOnce(next - 1 - i + n, n);
    idx := (next - 1 - i + n) % n;
  }

  class RequestLog {
    var entries: array<Entry>
    var next: nat
    var filled: bool
    ghost var all: seq<Entry>

    ghost predicate Valid()
      reads this, entries
    {
      0 < entries.Length && next < entries.Length
      && View(entries[..], next, filled) == LastOf(all, entries.Length)
    }

    constructor (size: int)
      ensures Valid() && fresh(entries) && all == []
      ensures entries.Length == if size <= 0 then 500 else size
    {
      var n := if size <= 0 then 500 else size;
      entries := new Entry[n](_ => Entry(UNSET, "", "", "", 0, false, ""));
      next, filled, all := 0, false, [];
    }

    method Add(entry: Entry, now: int)
      requires Valid()
      modifies this, entries
      ensures Valid() && entries == old(entries)
      ensures all == old(all) + [if entry.at == UNSET then entry.(at := now) else entry]
    {
      var e := entry;
      if e.at == UNSET {
        e := e.(at := now);
      }
      AddedView(entries[..], next, filled, all, e);
      WrapOnce(next + 1, entries.Length);
      ghost var slots := entries[..];
      entries[next] := e;
      assert entries[..] == slots[next := e];
      all := all + [e];
      next := (next + 1) % entries.Length;
      if next == 0 {
        filled := true;
      }
    }

    // Up to limit entries, newest first, whatever the wrap position.
    // The i-th newest entry.
    method EntryBack(i: nat) returns (e: Entry)
      requires Valid() && i < |View(entries[..], next, filled)|
      ensures e == NewestFirst(View(entries[..], next, filled))[i]
    {
      NewestAt(entries[..], next, filled, i);
      var idx := SlotOf(next, i, entries.Length);
      e := entries[idx];
    }

    method Recent(projects: Option<set<string>>, limit: int) returns (out: seq<Entry>)
      requires Valid()
      ensures var k := if limit <= 0 || limit > entries.Length then entries.Length else limit;
        out == Cut(Select(NewestFirst(LastOf(all, entries.Length)), projects), k)
    {
      var most: nat := if limit <= 0 || limit > entries.Length then entries.Length else limit;
      var count := entries.Length;
      if !filled {
        count := next;
      }
      ghost var view := NewestFirst(View(entries[..], next, filled));
      out := [];
      var i := 0;
      while i < count && |out| < most
        invariant i <= count == |view| && |out| <= most
        invariant out == Select(view[..i], projects)
      {
        SelectOne(view, i, projects);
        var e := EntryBack(i);
        if Shown(e, projects) {
          out := out + [e];
        }
        i := i + 1;
      }
      StoppedEarly(view, i, projects, most);
    }
  }

  // ----- what is read -----

  // Entries are kept one by one: those with a time, of one of the projects
  // asked for, in any case.
  lemma ShownOne(e: Entry, projects: Option<set<string>>)
    ensures Select([e], projects) ==
      if e.at != 0 && (projects.None? || Lower(e.project) in projects.value) then [e] else []
  {
    assert [e][..0] == [];
  }

  lemma {:induction false} SelectInTurn(a: seq<Entry>, b: seq<Entry>, projects: Option<set<string>>)
    ensures Select(a + b, projects) == Select(a, projects) + Select(b, projects)
    decreases |b|
  {
    if b == [] {
      assert a + b == a;
    } else {
      SelectInTurn(a, b[..|b| - 1], projects);
      assert (a + b)[..|a + b| - 1] == a + b[..|b| - 1];
    }
  }

  lemma {:induction false} AllShown(s: seq<Entry>)
    requires forall i :: 0 <= i < |s| ==> s[i].at != 0
    ensures Select(s, None) == s
  {
    if s != [] {
      AllShown(s[..|s| - 1]);
      assert s == s[..|s| - 1] + [s[|s| - 1]];
    }
  }

  // Asked for every project, the log answers with the newest of what it was
  // ever given, newest first, as many as it holds and were asked for.
  lemma NewestOfAll(all: seq<Entry>, n: nat, k: nat)
    requires forall i :: 0 <= i < |all| ==> all[i].at != 0
    ensures var out := Cut(Select(NewestFirst(LastOf(all, n)), None), k);
      && |out| <= |all| && |out| <= n && |out| <= k && (|out| == |all| || |out| == n || |out| == k)
      && forall i :: 0 <= i < |out| ==> out[i] == all[|all| - 1 - i]
  {
    var newest := NewestFirst(LastOf(all, n));
    assert |newest| == if |all| <= n then |all| else n;
    assert forall i :: 0 <= i < |newest| ==> newest[i] == all[|all| - 1 - i];
    AllShown(newest);
  }
}
