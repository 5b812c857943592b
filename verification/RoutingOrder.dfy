// What the admin's choice and the out-of-credit marks can change: the order
// rungs are tried in, and nothing else. For plain calls that never decides
// whether a request is served; for streams it can.

module RoutingOrder {
  import opened Basics
  import opened Text
  import opened Routing

  // ----- the admin's choice -----

  lemma FrontedSame<T>(a: seq<T>, t: seq<T>, b: seq<T>)
    ensures multiset(t + a + b) == multiset(a + t + b)
  {
  }

  lemma Regroup<T>(a: seq<T>, b: seq<T>, c: seq<T>)
    ensures (a + b) + c == a + (b + c)
  {
  }

  lemma CutAt<T>(s: seq<T>, i: nat)
    requires i < |s|
    ensures s == s[..i] + [s[i]] + s[i + 1..]
  {
  }

  // The chosen rung leads and the rest keep the configured order; a choice
  // naming no rung changes nothing.
  lemma RungsPermute(chain: seq<Target>, chosen: string)
    ensures multiset(Rungs(chain, chosen)) == multiset(chain)
    ensures chosen != "" && (exists t :: t in chain && RungKey(t) == chosen) ==>
      exists i :: 0 <= i < |chain| && RungKey(chain[i]) == chosen
        && Rungs(chain, chosen) == [chain[i]] + (chain[..i] + chain[i + 1..])
    ensures chosen == "" || (forall t :: t in chain ==> RungKey(t) != chosen) ==> Rungs(chain, chosen) == chain
  {
    var i := FirstKeyed(chain, chosen);
    if i < |chain| {
      assert chain[i] in chain;
      CutAt(chain, i);
      FrontedSame(chain[..i], [chain[i]], chain[i + 1..]);
      Regroup([chain[i]], chain[..i], chain[i + 1..]);
    }
  }

  // ----- expansions carry permutations through -----

  lemma {:induction false} JoinAppend<T>(a: seq<seq<T>>, b: seq<seq<T>>)
    ensures Join(a + b) == Join(a) + Join(b)
    decreases |b|
  {
    if b == [] {
      assert a + b == a;
    } else {
      var front, last := b[..|b| - 1], b[|b| - 1];
      JoinAppend(a, front);
      assert (a + b)[..|a + b| - 1] == a + front;
      Regroup(Join(a), Join(front), last);
    }
  }

  lemma EachAppend<S, T>(f: S -> seq<T>, a: seq<S>, b: seq<S>)
    ensures Join(Each(f, a + b)) == Join(Each(f, a)) + Join(Each(f, b))
  {
    JoinAppend(Each(f, a), Each(f, b));
    assert Each(f, a + b) == Each(f, a) + Each(f, b);
  }

  // Moving one block of a sequence to its front moves what it expands to.
  lemma EachFronted<S, T>(f: S -> seq<T>, x: seq<S>, y: seq<S>, z: seq<S>)
    ensures multiset(Join(Each(f, x + y + z))) == multiset(Join(Each(f, y + x + z)))
    ensures Join(Each(f, x + y + z)) == Join(Each(f, x)) + Join(Each(f, y)) + Join(Each(f, z))
  {
    EachAppend(f, x + y, z);
    EachAppend(f, x, y);
    EachAppend(f, y + x, z);
    EachAppend(f, y, x);
  }

  lemma FrontingOnlyPermutes(tb: Tables, who: Caller, a: seq<Target>, t: seq<Target>, b: seq<Target>)
    ensures multiset(ExpandAll(tb, t + a + b)) == multiset(ExpandAll(tb, a + t + b))
    ensures multiset(Flatten(tb, who, ExpandAll(tb, t + a + b))) == multiset(Flatten(tb, who, ExpandAll(tb, a + t + b)))
  {
    var f := Expansion(tb);
    EachFronted(f, t, a, b);
    EachFronted(f, a, t, b);
    EachFronted(Credentials(tb, who), Join(Each(f, t)), Join(Each(f, a)), Join(Each(f, b)));
  }

  lemma ChoiceOnlyPermutes(tb: Tables, who: Caller, chain: seq<Target>, chosen: string)
    ensures multiset(ExpandAll(tb, Rungs(chain, chosen))) == multiset(ExpandAll(tb, chain))
    ensures multiset(Flatten(tb, who, ExpandAll(tb, Rungs(chain, chosen)))) ==
      multiset(Flatten(tb, who, ExpandAll(tb, chain)))
  {
    var i := FirstKeyed(chain, chosen);
    if i < |chain| {
      CutAt(chain, i);
      FrontingOnlyPermutes(tb, who, chain[..i], [chain[i]], chain[i + 1..]);
    }
  }

  // ----- the out-of-credit partition -----

  lemma {:induction false} KeepAppend(a: seq<Attempt>, b: seq<Attempt>, marks: map<string, int>, now: int, last: bool)
    ensures Keep(a + b, marks, now, last) == Keep(a, marks, now, last) + Keep(b, marks, now, last)
    decreases |b|
  {
    if b == [] {
      assert a + b == a;
    } else {
      KeepAppend(a, b[..|b| - 1], marks, now, last);
      assert (a + b)[..|a + b| - 1] == a + b[..|b| - 1];
    }
  }

  // Keeping one class twice keeps it, keeping the other class drops it all.
  lemma {:induction false} KeepOfKept(s: seq<Attempt>, marks: map<string, int>, now: int, last: bool, again: bool)
    ensures forall a :: a in Keep(s, marks, now, last) ==> GoesLast(a, marks, now) == last
    ensures Keep(Keep(s, marks, now, last), marks, now, again) ==
      if last == again then Keep(s, marks, now, last) else []
  {
    if s != [] {
      KeepOfKept(s[..|s| - 1], marks, now, last, again);
      var front := Keep(s[..|s| - 1], marks, now, last);
      if GoesLast(s[|s| - 1], marks, now) == last {
        assert (front + [s[|s| - 1]])[..|front|] == front;
      }
    }
  }

  lemma {:induction false} KeepBothIsAll(s: seq<Attempt>, marks: map<string, int>, now: int)
    ensures multiset(Keep(s, marks, now, false)) + multiset(Keep(s, marks, now, true)) == multiset(s)
  {
    if s != [] {
      KeepBothIsAll(s[..|s| - 1], marks, now);
      assert s == s[..|s| - 1] + [s[|s| - 1]];
    }
  }

  // The drained rungs are a suffix.
  ghost predicate SplitAt(s: seq<Attempt>, cut: nat, marks: map<string, int>, now: int) {
    cut <= |s|
    && (forall i :: 0 <= i < cut ==> !GoesLast(s[i], marks, now))
    && (forall i :: cut <= i < |s| ==> GoesLast(s[i], marks, now))
  }

  lemma KeptTwice(s: seq<Attempt>, marks: map<string, int>, now: int, last: bool)
    ensures Keep(CreditLast(s, marks, now), marks, now, last) == Keep(s, marks, now, last)
  {
    KeepAppend(Keep(s, marks, now, false), Keep(s, marks, now, true), marks, now, last);
    KeepOfKept(s, marks, now, false, last);
    KeepOfKept(s, marks, now, true, last);
  }

  lemma KeptSplits(s: seq<Attempt>, marks: map<string, int>, now: int)
    ensures SplitAt(CreditLast(s, marks, now), |Keep(s, marks, now, false)|, marks, now)
  {
    var fs, ls := Keep(s, marks, now, false), Keep(s, marks, now, true);
    KeepOfKept(s, marks, now, false, false);
    KeepOfKept(s, marks, now, true, true);
    assert forall i :: 0 <= i < |fs| ==> fs[i] in fs;
    assert forall i :: 0 <= i < |ls| ==> ls[i] in ls;
  }

  // CreditLast moves the drained rungs behind the others and keeps the order
  // within each group.
  lemma CreditLastIsStable(s: seq<Attempt>, marks: map<string, int>, now: int)
    ensures var r := CreditLast(s, marks, now);
      && multiset(r) == multiset(s)
      && SplitAt(r, |Keep(s, marks, now, false)|, marks, now)
      && Keep(r, marks, now, false) == Keep(s, marks, now, false)
      && Keep(r, marks, now, true) == Keep(s, marks, now, true)
  {
    KeepBothIsAll(s, marks, now);
    KeptTwice(s, marks, now, false);
    KeptTwice(s, marks, now, true);
    KeptSplits(s, marks, now);
  }

  // And it is the only order that does both.
  lemma OnlyOneStablePartition(s: seq<Attempt>, marks: map<string, int>, now: int, t: seq<Attempt>, cut: nat)
    requires SplitAt(t, cut, marks, now)
    requires Keep(t, marks, now, false) == Keep(s, marks, now, false)
      && Keep(t, marks, now, true) == Keep(s, marks, now, true)
    ensures t == CreditLast(s, marks, now)
  {
    KeepSplit(t, cut, marks, now);
  }

  lemma TailGrows<T>(front: seq<T>, last: T, cut: nat)
    requires cut <= |front|
    ensures (front + [last])[cut..] == front[cut..] + [last]
  {
    var x, y := (front + [last])[cut..], front[cut..] + [last];
    assert |x| == |y|;
    assert forall k :: 0 <= k < |x| ==> x[k] == y[k];
  }

  lemma {:induction false} KeepSplit(t: seq<Attempt>, cut: nat, marks: map<string, int>, now: int)
    requires SplitAt(t, cut, marks, now)
    ensures Keep(t, marks, now, false) == t[..cut] && Keep(t, marks, now, true) == t[cut..]
  {
    if t != [] {
      var front, last := t[..|t| - 1], t[|t| - 1];
      assert t == front + [last];
      if cut == |t| {
        KeepSplit(front, cut - 1, marks, now);
        assert !GoesLast(last, marks, now);
        assert t[..cut] == front[..cut - 1] + [last];
      } else {
        KeepSplit(front, cut, marks, now);
        assert GoesLast(last, marks, now);
        assert front[..cut] == t[..cut];
        TailGrows(front, last, cut);
      }
    }
  }

  // A name resolves to the same targets whatever the admin chose for it.
  lemma ResolvedAlike(tb: Tables, who: Caller, name: string, split: Option<(string, string)>, chosen: string)
    ensures multiset(Resolve(tb, name, split, chosen)) == multiset(Resolve(tb, name, split, ""))
    ensures multiset(Flatten(tb, who, Resolve(tb, name, split, chosen))) ==
      multiset(Flatten(tb, who, Resolve(tb, name, split, "")))
  {
    if name in tb.models {
      ChoiceOnlyPermutes(tb, who, tb.models[name], chosen);
    } else if name in tb.decisions {
      ChoiceOnlyPermutes(tb, who, tb.decisions[name], chosen);
    }
  }

  lemma MarksOnlyPermute(x: seq<Attempt>, y: seq<Attempt>, marks: map<string, int>, now: int)
    requires multiset(x) == multiset(y)
    ensures multiset(CreditLast(x, marks, now)) == multiset(CreditLast(y, map[], now))
  {
    CreditLastIsStable(x, marks, now);
    CreditLastIsStable(y, map[], now);
  }

  lemma EmptyAlike<T>(x: seq<T>, y: seq<T>)
    requires multiset(x) == multiset(y)
    ensures x == [] <==> y == []
  {
    assert |x| == |multiset(x)| && |y| == |multiset(y)|;
  }

  // Whatever the admin chose and whatever is marked, a name stands for the
  // same attempts, and resolves or does not just the same.
  lemma OrderIsAllThatChanges(tb: Tables, who: Caller, name: string, split: Option<(string, string)>, chosen: string,
                              marks: map<string, int>, now: int)
    ensures Resolve(tb, name, split, chosen) == [] <==> Resolve(tb, name, split, "") == []
    ensures multiset(Attempts(tb, who, Resolve(tb, name, split, chosen), marks, now))
      == multiset(Attempts(tb, who, Resolve(tb, name, split, ""), map[], now))
  {
    var x, y := Resolve(tb, name, split, chosen), Resolve(tb, name, split, "");
    ResolvedAlike(tb, who, name, split, chosen);
    EmptyAlike(x, y);
    MarksOnlyPermute(Flatten(tb, who, x), Flatten(tb, who, y), marks, now);
  }

  // ----- plain calls -----

  ghost predicate Served(s: seq<Attempt>, reply: Attempt -> Reply) {
    exists i :: 0 <= i < |s| && Answers(s[i], reply)
  }

  lemma SameMembers(s: seq<Attempt>, t: seq<Attempt>, i: nat) returns (j: nat)
    requires multiset(s) == multiset(t) && i < |s|
    ensures j < |t| && t[j] == s[i]
  {
    assert s[i] in multiset(s);
    assert s[i] in t;
    j :| 0 <= j < |t| && t[j] == s[i];
  }

  // A fixed upstream answers or not: reordering never decides whether a plain
  // request is served, only by whom.
  lemma ReorderingNeverLosesACall(tb: Tables, who: Caller, name: string, split: Option<(string, string)>,
                                  chosen: string, marks: map<string, int>, now: int, reply: Attempt -> Reply)
    ensures Served(Attempts(tb, who, Resolve(tb, name, split, chosen), marks, now), reply)
      <==> Served(Attempts(tb, who, Resolve(tb, name, split, ""), map[], now), reply)
  {
    OrderIsAllThatChanges(tb, who, name, split, chosen, marks, now);
    ServedByAnyOrder(Attempts(tb, who, Resolve(tb, name, split, chosen), marks, now),
                     Attempts(tb, who, Resolve(tb, name, split, ""), map[], now), reply);
  }

  lemma ServedByAnyOrder(s: seq<Attempt>, t: seq<Attempt>, reply: Attempt -> Reply)
    requires multiset(s) == multiset(t)
    ensures Served(s, reply) <==> Served(t, reply)
  {
    if i :| 0 <= i < |s| && Answers(s[i], reply) {
      var j := SameMembers(s, t, i);
    }
    if i :| 0 <= i < |t| && Answers(t[i], reply) {
      var j := SameMembers(t, s, i);
    }
  }

  // ----- streams -----

  function FirstSpeaker(s: seq<Attempt>, upstream: Attempt -> Stream, wantsTools: bool): (i: nat)
    ensures i <= |s|
    ensures i < |s| ==> Speaks(s[i], upstream, wantsTools)
    ensures forall k :: 0 <= k < i ==> !Speaks(s[k], upstream, wantsTools)
  {
    if s == [] then 0
    else if Speaks(s[0], upstream, wantsTools) then 0
    else 1 + FirstSpeaker(s[1..], upstream, wantsTools)
  }

  predicate StreamServed(s: seq<Attempt>, upstream: Attempt -> Stream, wantsTools: bool) {
    var i := FirstSpeaker(s, upstream, wantsTools);
    i < |s| && upstream(s[i]).err.None?
  }

  ghost predicate SomeCleanSpeaker(s: seq<Attempt>, upstream: Attempt -> Stream, wantsTools: bool) {
    exists i :: 0 <= i < |s| && SpeaksCleanly(s[i], upstream, wantsTools)
  }

  // A rung that starts to answer and then breaks off.
  ghost predicate SomeBrokenSpeaker(s: seq<Attempt>, upstream: Attempt -> Stream, wantsTools: bool) {
    exists i :: 0 <= i < |s| && Speaks(s[i], upstream, wantsTools) && upstream(s[i]).err.Some?
  }

  lemma Fronted(s: seq<Attempt>, i: nat, upstream: Attempt -> Stream, wantsTools: bool) returns (t: seq<Attempt>)
    requires i < |s| && Speaks(s[i], upstream, wantsTools)
    ensures multiset(t) == multiset(s)
    ensures StreamServed(t, upstream, wantsTools) <==> upstream(s[i]).err.None?
  {
    t := [s[i]] + s[..i] + s[i + 1..];
    assert s == s[..i] + [s[i]] + s[i + 1..];
    assert FirstSpeaker(t, upstream, wantsTools) == 0;
  }

  // Over all orders of a list of rungs, made by the code or not: every one
  // streams alike exactly when no rung breaks off mid-answer while another
  // would have answered. Which orders the code makes comes below.
  lemma StreamOrderMattersIff(s: seq<Attempt>, upstream: Attempt -> Stream, wantsTools: bool)
    ensures (forall t: seq<Attempt> :: multiset(t) == multiset(s) ==>
        (StreamServed(t, upstream, wantsTools) <==> StreamServed(s, upstream, wantsTools)))
      <==> !(SomeCleanSpeaker(s, upstream, wantsTools) && SomeBrokenSpeaker(s, upstream, wantsTools))
  {
    if SomeCleanSpeaker(s, upstream, wantsTools) && SomeBrokenSpeaker(s, upstream, wantsTools) {
      var i :| 0 <= i < |s| && SpeaksCleanly(s[i], upstream, wantsTools);
      var j :| 0 <= j < |s| && Speaks(s[j], upstream, wantsTools) && upstream(s[j]).err.Some?;
      var good := Fronted(s, i, upstream, wantsTools);
      var bad := Fronted(s, j, upstream, wantsTools);
    } else {
      forall t: seq<Attempt> | multiset(t) == multiset(s)
        ensures StreamServed(t, upstream, wantsTools) <==> StreamServed(s, upstream, wantsTools)
      {
        SameStreamOutcome(s, t, upstream, wantsTools);
        SameStreamOutcome(t, s, upstream, wantsTools);
      }
    }
  }

  lemma SameStreamOutcome(s: seq<Attempt>, t: seq<Attempt>, upstream: Attempt -> Stream, wantsTools: bool)
    requires multiset(t) == multiset(s)
    requires !(SomeCleanSpeaker(s, upstream, wantsTools) && SomeBrokenSpeaker(s, upstream, wantsTools))
    ensures StreamServed(s, upstream, wantsTools) ==> StreamServed(t, upstream, wantsTools)
    ensures !(SomeCleanSpeaker(t, upstream, wantsTools) && SomeBrokenSpeaker(t, upstream, wantsTools))
  {
    if SomeCleanSpeaker(t, upstream, wantsTools) && SomeBrokenSpeaker(t, upstream, wantsTools) {
      var i :| 0 <= i < |t| && SpeaksCleanly(t[i], upstream, wantsTools);
      var j :| 0 <= j < |t| && Speaks(t[j], upstream, wantsTools) && upstream(t[j]).err.Some?;
      var x := SameMembers(t, s, i);
      var y := SameMembers(t, s, j);
      assert false;
    }
    if StreamServed(s, upstream, wantsTools) {
      var i := FirstSpeaker(s, upstream, wantsTools);
      assert SpeaksCleanly(s[i], upstream, wantsTools);
      var j := SameMembers(s, t, i);
      var k := FirstSpeaker(t, upstream, wantsTools);
      assert k <= j;
      if upstream(t[k]).err.Some? {
        var y := SameMembers(t, s, k);
        assert false;
      }
    }
  }

  // ----- what the marks decide for a stream -----

  // The first rung that speaks, if one does.
  function Lead(s: seq<Attempt>, upstream: Attempt -> Stream, wantsTools: bool): Option<Attempt> {
    var i := FirstSpeaker(s, upstream, wantsTools);
    if i < |s| then Some(s[i]) else None
  }

  function Or<T>(a: Option<T>, b: Option<T>): Option<T> {
    if a.Some? then a else b
  }

  // FirstSpeaker is pinned down by what it promises.
  lemma LeadIs(s: seq<Attempt>, i: nat, upstream: Attempt -> Stream, wantsTools: bool)
    requires i <= |s| && forall k :: 0 <= k < i ==> !Speaks(s[k], upstream, wantsTools)
    requires i < |s| ==> Speaks(s[i], upstream, wantsTools)
    ensures Lead(s, upstream, wantsTools) == if i < |s| then Some(s[i]) else None
  {
    var j := FirstSpeaker(s, upstream, wantsTools);
    assert !(j < i) && !(i < j);
  }

  lemma LeadAppend(a: seq<Attempt>, b: seq<Attempt>, upstream: Attempt -> Stream, wantsTools: bool)
    ensures Lead(a + b, upstream, wantsTools) == Or(Lead(a, upstream, wantsTools), Lead(b, upstream, wantsTools))
  {
    var i, j := FirstSpeaker(a, upstream, wantsTools), FirstSpeaker(b, upstream, wantsTools);
    LeadIs(a + b, if i < |a| then i else |a| + j, upstream, wantsTools);
  }

  // Two rungs that both start to answer and end differently.
  predicate Differ(a: Option<Attempt>, b: Option<Attempt>, upstream: Attempt -> Stream) {
    a.Some? && b.Some? && (upstream(a.value).err.None? <==> upstream(b.value).err.Some?)
  }

  // The lead of a chain leads the class it belongs to.
  lemma {:induction false} LeadKept(s: seq<Attempt>, upstream: Attempt -> Stream, wantsTools: bool,
                                    marks: map<string, int>, now: int)
    ensures Lead(s, upstream, wantsTools).None? ==> forall last: bool ::
      Lead(Keep(s, marks, now, last), upstream, wantsTools).None?
    ensures Lead(s, upstream, wantsTools).Some? ==>
      var x := Lead(s, upstream, wantsTools);
      Lead(Keep(s, marks, now, GoesLast(x.value, marks, now)), upstream, wantsTools) == x
    decreases |s|
  {
    if s != [] {
      var front, one := s[..|s| - 1], [s[|s| - 1]];
      assert s == front + one;
      LeadKept(front, upstream, wantsTools, marks, now);
      LeadAppend(front, one, upstream, wantsTools);
      LeadAppend(Keep(front, marks, now, false), one, upstream, wantsTools);
      LeadAppend(Keep(front, marks, now, true), one, upstream, wantsTools);
      assert Keep(s, marks, now, false) == Keep(front, marks, now, false)
          || Keep(s, marks, now, false) == Keep(front, marks, now, false) + one;
      assert Keep(s, marks, now, true) == Keep(front, marks, now, true)
          || Keep(s, marks, now, true) == Keep(front, marks, now, true) + one;
    }
  }

  // The rung a stream would start on is drained, one that is not would start
  // too, and one of the two breaks off.
  predicate MarksDecide(s: seq<Attempt>, upstream: Attempt -> Stream, wantsTools: bool, marks: map<string, int>,
                        now: int)
  {
    var x := Lead(s, upstream, wantsTools);
    x.Some? && GoesLast(x.value, marks, now)
    && Differ(x, Lead(Keep(s, marks, now, false), upstream, wantsTools), upstream)
  }

  // Moving drained providers back changes whether a stream is served exactly
  // then.
  lemma MarksMatterIff(s: seq<Attempt>, upstream: Attempt -> Stream, wantsTools: bool, marks: map<string, int>,
                       now: int)
    ensures (StreamServed(CreditLast(s, marks, now), upstream, wantsTools) <==> StreamServed(s, upstream, wantsTools))
      <==> !MarksDecide(s, upstream, wantsTools, marks, now)
  {
    LeadKept(s, upstream, wantsTools, marks, now);
    LeadAppend(Keep(s, marks, now, false), Keep(s, marks, now, true), upstream, wantsTools);
  }

  // ----- what the admin's choice decides for a stream -----

  // Everything part of a chain is tried as, before the marks.
  function Block(tb: Tables, who: Caller, chain: seq<Target>): seq<Attempt> {
    Flatten(tb, who, ExpandAll(tb, chain))
  }

  lemma BlockAppend(tb: Tables, who: Caller, a: seq<Target>, b: seq<Target>)
    ensures Block(tb, who, a + b) == Block(tb, who, a) + Block(tb, who, b)
  {
    EachAppend(Expansion(tb), a, b);
    EachAppend(Credentials(tb, who), ExpandAll(tb, a), ExpandAll(tb, b));
  }

  // Of the rungs before the chosen one (a), its own (t) and the later ones
  // (b): a and t both start to answer in the first class that speaks at all,
  // and end differently.
  predicate FrontingDecides(a: seq<Attempt>, t: seq<Attempt>, b: seq<Attempt>,
                            upstream: Attempt -> Stream, wantsTools: bool, marks: map<string, int>, now: int) {
    var last := Lead(Keep(a + t + b, marks, now, false), upstream, wantsTools).None?;
    Differ(Lead(Keep(a, marks, now, last), upstream, wantsTools),
           Lead(Keep(t, marks, now, last), upstream, wantsTools), upstream)
  }

  lemma LeadOfThree(a: seq<Attempt>, b: seq<Attempt>, c: seq<Attempt>, upstream: Attempt -> Stream, wantsTools: bool,
                    marks: map<string, int>, now: int, last: bool)
    ensures Lead(Keep(a + b + c, marks, now, last), upstream, wantsTools) ==
      Or(Or(Lead(Keep(a, marks, now, last), upstream, wantsTools),
            Lead(Keep(b, marks, now, last), upstream, wantsTools)),
         Lead(Keep(c, marks, now, last), upstream, wantsTools))
  {
    KeepAppend(a + b, c, marks, now, last);
    KeepAppend(a, b, marks, now, last);
    LeadAppend(Keep(a + b, marks, now, last), Keep(c, marks, now, last), upstream, wantsTools);
    LeadAppend(Keep(a, marks, now, last), Keep(b, marks, now, last), upstream, wantsTools);
  }

  lemma FrontingMattersIff(a: seq<Attempt>, t: seq<Attempt>, b: seq<Attempt>,
                           upstream: Attempt -> Stream, wantsTools: bool, marks: map<string, int>, now: int)
    ensures (StreamServed(CreditLast(t + a + b, marks, now), upstream, wantsTools)
             <==> StreamServed(CreditLast(a + t + b, marks, now), upstream, wantsTools))
      <==> !FrontingDecides(a, t, b, upstream, wantsTools, marks, now)
  {
    LeadAppend(Keep(a + t + b, marks, now, false), Keep(a + t + b, marks, now, true), upstream, wantsTools);
    LeadAppend(Keep(t + a + b, marks, now, false), Keep(t + a + b, marks, now, true), upstream, wantsTools);
    LeadOfThree(a, t, b, upstream, wantsTools, marks, now, false);
    LeadOfThree(a, t, b, upstream, wantsTools, marks, now, true);
    LeadOfThree(t, a, b, upstream, wantsTools, marks, now, false);
    LeadOfThree(t, a, b, upstream, wantsTools, marks, now, true);
  }

  lemma BlocksFronted(tb: Tables, who: Caller, a: seq<Target>, t: seq<Target>, b: seq<Target>)
    ensures Block(tb, who, a + t + b) == Block(tb, who, a) + Block(tb, who, t) + Block(tb, who, b)
  {
    BlockAppend(tb, who, a + t, b);
    BlockAppend(tb, who, a, t);
  }

  predicate ChoiceDecides(tb: Tables, who: Caller, chain: seq<Target>, chosen: string,
                          upstream: Attempt -> Stream, wantsTools: bool, marks: map<string, int>, now: int) {
    var i := FirstKeyed(chain, chosen);
    chosen != "" && i < |chain|
    && FrontingDecides(Block(tb, who, chain[..i]), Block(tb, who, [chain[i]]), Block(tb, who, chain[i + 1..]),
                       upstream, wantsTools, marks, now)
  }

  lemma ChainMattersIff(tb: Tables, who: Caller, chain: seq<Target>, chosen: string,
                        upstream: Attempt -> Stream, wantsTools: bool, marks: map<string, int>, now: int)
    ensures (StreamServed(CreditLast(Block(tb, who, Rungs(chain, chosen)), marks, now), upstream, wantsTools)
             <==> StreamServed(CreditLast(Block(tb, who, chain), marks, now), upstream, wantsTools))
      <==> !ChoiceDecides(tb, who, chain, chosen, upstream, wantsTools, marks, now)
  {
    var i := FirstKeyed(chain, chosen);
    if chosen != "" && i < |chain| {
      var a, t, b := chain[..i], [chain[i]], chain[i + 1..];
      assert chain == a + t + b && Rungs(chain, chosen) == t + a + b;
      BlocksFronted(tb, who, a, t, b);
      BlocksFronted(tb, who, t, a, b);
      FrontingMattersIff(Block(tb, who, a), Block(tb, who, t), Block(tb, who, b), upstream, wantsTools, marks, now);
    }
  }

  // The configured chain an admin can choose from: none for other names.
  function ChainOf(tb: Tables, name: string): seq<Target> {
    if name in tb.models then tb.models[name] else if name in tb.decisions then tb.decisions[name] else []
  }

  // The admin's first rung changes whether a stream is served, the marks being
  // what they are, exactly when the rungs it overtakes and its own would end
  // it differently.
  lemma ChoiceMattersIff(tb: Tables, who: Caller, name: string, split: Option<(string, string)>, chosen: string,
                         upstream: Attempt -> Stream, wantsTools: bool, marks: map<string, int>, now: int)
    ensures (StreamServed(Attempts(tb, who, Resolve(tb, name, split, chosen), marks, now), upstream, wantsTools)
             <==> StreamServed(Attempts(tb, who, Resolve(tb, name, split, ""), marks, now), upstream, wantsTools))
      <==> !ChoiceDecides(tb, who, ChainOf(tb, name), chosen, upstream, wantsTools, marks, now)
  {
    ChainMattersIff(tb, who, ChainOf(tb, name), chosen, upstream, wantsTools, marks, now);
  }

  // ----- both happen -----

  // Two providers of the gateway's, each pinned by a rung of the chain.
  ghost predicate TwoProviders(tb: Tables, who: Caller, p: Target, q: Target) {
    && p.provider != "" && q.provider != "" && p.provider != q.provider
    && p.provider in tb.adapters && q.provider in tb.adapters
    && Lower(p.provider) !in who.denied && Lower(q.provider) !in who.denied
    && who.creds.mode == Global
  }

  lemma JoinOfOne<T>(a: seq<T>)
    ensures Join([a]) == a
  {
    assert [a][..0] == [];
    assert [] + a == a;
  }

  lemma JoinOfTwo<T>(a: seq<T>, b: seq<T>)
    ensures Join([a, b]) == a + b
  {
    JoinOfOne(a);
    assert [a, b][..1] == [a];
  }

  lemma EachOfTwo<S, T>(f: S -> seq<T>, x: S, y: S)
    ensures Join(Each(f, [x, y])) == f(x) + f(y)
  {
    JoinOfTwo(f(x), f(y));
    assert Each(f, [x, y]) == [f(x), f(y)];
  }

  lemma TwoRungs(tb: Tables, who: Caller, p: Target, q: Target)
    requires TwoProviders(tb, who, p, q)
    ensures Block(tb, who, [p, q]) == [GatewayRung(tb, who, p), GatewayRung(tb, who, q)]
  {
    EachOfTwo(Expansion(tb), p, q);
    assert ExpandAll(tb, [p, q]) == [p, q];
    EachOfTwo(Credentials(tb, who), p, q);
  }

  lemma KeepOfOne(x: Attempt, marks: map<string, int>, now: int, last: bool)
    ensures Keep([x], marks, now, last) == if GoesLast(x, marks, now) == last then [x] else []
  {
    assert [x][..0] == [];
  }

  lemma KeepOfTwo(x: Attempt, y: Attempt, marks: map<string, int>, now: int)
    requires GoesLast(x, marks, now) && !GoesLast(y, marks, now)
    ensures Keep([x, y], marks, now, false) == [y]
  {
    KeepAppend([x], [y], marks, now, false);
    KeepOfOne(x, marks, now, false);
    KeepOfOne(y, marks, now, false);
    assert [x] + [y] == [x, y];
  }

  // The first provider answers cleanly and the second breaks off: marking the
  // first as out of credit turns the answer into a broken stream.
  lemma MarkLosesAStream(tb: Tables, who: Caller, p: Target, q: Target, upstream: Attempt -> Stream, wantsTools: bool,
                         now: int)
    requires TwoProviders(tb, who, p, q)
    requires SpeaksCleanly(GatewayRung(tb, who, p), upstream, wantsTools)
    requires Speaks(GatewayRung(tb, who, q), upstream, wantsTools) && upstream(GatewayRung(tb, who, q)).err.Some?
    ensures StreamServed(CreditLast(Block(tb, who, [p, q]), map[], now), upstream, wantsTools)
    ensures !StreamServed(CreditLast(Block(tb, who, [p, q]), map[p.provider := now], now), upstream, wantsTools)
  {
    var x, y, marks := GatewayRung(tb, who, p), GatewayRung(tb, who, q), map[p.provider := now];
    TwoRungs(tb, who, p, q);
    KeepOfTwo(x, y, marks, now);
    LeadKept([x, y], upstream, wantsTools, map[], now);
    MarksMatterIff([x, y], upstream, wantsTools, marks, now);
    MarksMatterIff([x, y], upstream, wantsTools, map[], now);
    assert Lead([y], upstream, wantsTools) == Some(y);
  }

  // The same two with nothing marked: putting the second first does it too.
  lemma ChoiceLosesAStream(tb: Tables, who: Caller, name: string, p: Target, q: Target,
                           upstream: Attempt -> Stream, wantsTools: bool, now: int)
    requires TwoProviders(tb, who, p, q) && name in tb.models && tb.models[name] == [p, q] && RungKey(p) != RungKey(q)
    requires SpeaksCleanly(GatewayRung(tb, who, p), upstream, wantsTools)
    requires Speaks(GatewayRung(tb, who, q), upstream, wantsTools) && upstream(GatewayRung(tb, who, q)).err.Some?
    ensures StreamServed(Attempts(tb, who, Resolve(tb, name, None, ""), map[], now), upstream, wantsTools)
    ensures !StreamServed(Attempts(tb, who, Resolve(tb, name, None, RungKey(q)), map[], now), upstream, wantsTools)
  {
    assert FirstKeyed([p, q], RungKey(q)) == 1;
    assert Rungs([p, q], RungKey(q)) == [q, p];
    TwoRungs(tb, who, p, q);
    TwoRungs(tb, who, q, p);
    var x, y := GatewayRung(tb, who, p), GatewayRung(tb, who, q);
    MarksMatterIff([x, y], upstream, wantsTools, map[], now);
    MarksMatterIff([y, x], upstream, wantsTools, map[], now);
  }
}
