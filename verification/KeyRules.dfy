// Whose key a request may spend: what each target of a chain becomes under the
// caller's mode, said outright.

module KeyRules {
  import opened Basics
  import opened Text
  import opened Routing
  import opened RoutingOrder

  // The rung that spends the gateway's own key, usable unless the caller may
  // not spend it or there is none.
  ghost predicate IsOurs(tb: Tables, who: Caller, t: Target, a: Attempt) {
    && a.target == t && !a.caller && a.shown == Gateway
    && (a.adapter.Some? <==> Lower(t.provider) !in who.denied && t.provider in tb.adapters)
    && (a.adapter.Some? ==> a.adapter.value == tb.adapters[t.provider])
    && a.reason == if Lower(t.provider) in who.denied then NeedsApproval else NotAvailable
  }

  // One rung for each of the caller's keys, in their order, each spending that
  // key.
  ghost predicate KeysInOrder(tb: Tables, t: Target, keys: seq<string>, s: seq<Attempt>) {
    && |s| == |keys|
    && forall j :: 0 <= j < |keys| ==>
         && s[j].target == t && s[j].caller
         && s[j].shown == (if |keys| == 1 then YourKey else YourKeyNo(j + 1))
         && s[j].adapter ==
              (if Trim(keys[j]) == "" || !tb.acceptsKeys then None else tb.ownAdapter(t.provider, keys[j]))
         && (s[j].adapter.None? && Trim(keys[j]) == "" ==> s[j].reason == EmptyKey)
         && (s[j].adapter.None? && Trim(keys[j]) != "" ==>
              s[j].reason == if tb.acceptsKeys then UnknownProvider else KeysNotAccepted)
  }

  // The caller's keys for a provider, named in any case.
  function KeysOf(who: Caller, t: Target): seq<string> {
    if Lower(t.provider) in who.creds.keys then who.creds.keys[Lower(t.provider)] else []
  }

  lemma OursIs(tb: Tables, who: Caller, t: Target)
    ensures IsOurs(tb, who, t, GatewayRung(tb, who, t))
  {
  }

  lemma KeysAre(tb: Tables, t: Target, keys: seq<string>)
    requires keys != []
    ensures KeysInOrder(tb, t, keys, OwnRungs(tb, t, keys))
  {
  }

  lemma KeysThenOurs(tb: Tables, who: Caller, t: Target, keys: seq<string>, own: seq<Attempt>, ours: Attempt)
    requires KeysInOrder(tb, t, keys, own) && IsOurs(tb, who, t, ours)
    ensures BothWays(tb, who, t, keys, own + [ours]) && BothWaysBack(tb, who, t, keys, [ours] + own)
  {
    assert (own + [ours])[..|keys|] == own;
    assert ([ours] + own)[1..] == own;
  }

  // The caller's keys and then the gateway's.
  ghost predicate BothWays(tb: Tables, who: Caller, t: Target, keys: seq<string>, s: seq<Attempt>) {
    |s| == |keys| + 1 && KeysInOrder(tb, t, keys, s[..|keys|]) && IsOurs(tb, who, t, s[|keys|])
  }

  // The gateway's and then the caller's.
  ghost predicate BothWaysBack(tb: Tables, who: Caller, t: Target, keys: seq<string>, s: seq<Attempt>) {
    |s| == |keys| + 1 && IsOurs(tb, who, t, s[0]) && KeysInOrder(tb, t, keys, s[1..])
  }

  lemma FlattenOne(tb: Tables, who: Caller, t: Target)
    ensures Flatten(tb, who, [t]) == AttemptsFor(tb, who, t)
  {
    JoinOfOne(AttemptsFor(tb, who, t));
    assert Each(Credentials(tb, who), [t]) == [AttemptsFor(tb, who, t)];
  }

  // What one target becomes, before the marks: by the caller's mode, its own
  // keys alone, the gateway's alone, or both in the order it named.
  lemma OneTargetByMode(tb: Tables, who: Caller, t: Target)
    ensures var s, keys, mode := Flatten(tb, who, [t]), KeysOf(who, t), who.creds.mode;
      && (mode == Own && keys == [] ==> s == [Attempt(t, None, YourKey, true, NoKeyOfYours)])
      && (mode == Own && keys != [] ==> KeysInOrder(tb, t, keys, s))
      && (mode == Global || (mode.Unrecognised? && who.creds.keys == map[]) ==> |s| == 1 && IsOurs(tb, who, t, s[0]))
      && (mode == OwnFirst || (mode.Unrecognised? && who.creds.keys != map[]) ==> BothWays(tb, who, t, keys, s))
      && (mode == GlobalFirst ==> BothWaysBack(tb, who, t, keys, s))
  {
    var keys, ours := KeysOf(who, t), GatewayRung(tb, who, t);
    FlattenOne(tb, who, t);
    OursIs(tb, who, t);
    if keys != [] {
      KeysAre(tb, t, keys);
      KeysThenOurs(tb, who, t, keys, OwnRungs(tb, t, keys), ours);
    } else {
      KeysThenOurs(tb, who, t, keys, [], ours);
      assert [] + [ours] == [ours] && [ours] + [] == [ours];
    }
  }

  // A chain is its targets in turn.
  lemma TargetsInTurn(tb: Tables, who: Caller, a: seq<Target>, b: seq<Target>)
    ensures Flatten(tb, who, a + b) == Flatten(tb, who, a) + Flatten(tb, who, b)
  {
    EachAppend(Credentials(tb, who), a, b);
  }

  // Something said of every rung of a mode.
  ghost predicate Allowed(tb: Tables, who: Caller, a: Attempt) {
    && (who.creds.mode == Own ==> a.caller)
    && (who.creds.mode == Global || (who.creds.mode.Unrecognised? && who.creds.keys == map[]) ==> !a.caller)
    && (!a.caller && a.adapter.Some? ==>
         && Lower(a.target.provider) !in who.denied
         && a.target.provider in tb.adapters && a.adapter.value == tb.adapters[a.target.provider])
  }

  lemma OneTargetAllowed(tb: Tables, who: Caller, t: Target)
    ensures forall a :: a in Flatten(tb, who, [t]) ==> Allowed(tb, who, a) && a.target == t
  {
    OneTargetByMode(tb, who, t);
    var s, keys := Flatten(tb, who, [t]), KeysOf(who, t);
    forall i | 0 <= i < |s| ensures Allowed(tb, who, s[i]) && s[i].target == t {
      if |s| == |keys| + 1 {
        assert i < |keys| ==> s[..|keys|][i] == s[i];
        assert i > 0 ==> s[1..][i - 1] == s[i];
      }
    }
  }

  lemma {:induction false} ChainAllowed(tb: Tables, who: Caller, targets: seq<Target>)
    ensures forall a :: a in Flatten(tb, who, targets) ==> Allowed(tb, who, a) && a.target in targets
    decreases |targets|
  {
    if targets != [] {
      var front, last := targets[..|targets| - 1], targets[|targets| - 1];
      ChainAllowed(tb, who, front);
      OneTargetAllowed(tb, who, last);
      assert targets == front + [last];
      TargetsInTurn(tb, who, front, [last]);
    } else {
      assert Each(Credentials(tb, who), targets) == [];
    }
  }

  // Whatever the chain and the marks: in mode "own" nothing but the caller's
  // keys is tried, in mode "global" nothing but the gateway's, and the gateway's
  // key for a denied provider never.
  lemma OnlyAllowedKeys(tb: Tables, who: Caller, targets: seq<Target>, marks: map<string, int>, now: int)
    ensures forall a :: a in Attempts(tb, who, targets, marks, now) ==> Allowed(tb, who, a) && a.target in targets
  {
    ChainAllowed(tb, who, targets);
    var s := Flatten(tb, who, targets);
    CreditLastIsStable(s, marks, now);
    forall a | a in CreditLast(s, marks, now) ensures a in s {
      assert a in multiset(CreditLast(s, marks, now));
      assert a in multiset(s);
    }
  }

  // Within a target the marks move the gateway's rung behind the caller's and
  // nothing else: those refused for money in the last ten minutes.
  lemma MarkedOnesGoBack(tb: Tables, who: Caller, t: Target, marks: map<string, int>, now: int)
    requires who.creds.mode == OwnFirst || who.creds.mode == GlobalFirst
    ensures var s := Flatten(tb, who, [t]);
      var marked := t.provider in marks && now - marks[t.provider] < 600
        && t.provider in tb.adapters && Lower(t.provider) !in who.denied;
      Attempts(tb, who, [t], marks, now) ==
        if who.creds.mode == GlobalFirst && marked then s[1..] + [s[0]] else s
  {
    OneTargetByMode(tb, who, t);
    var s, keys := Flatten(tb, who, [t]), KeysOf(who, t);
    if who.creds.mode == OwnFirst {
      OursLast(s[..|keys|], s[|keys|], marks, now);
      assert s == s[..|keys|] + [s[|keys|]];
    } else {
      OursFirst(s[1..], s[0], marks, now);
      assert s == [s[0]] + s[1..];
    }
  }

  lemma {:induction false} KeepOwn(s: seq<Attempt>, marks: map<string, int>, now: int)
    requires forall i :: 0 <= i < |s| ==> s[i].caller
    ensures Keep(s, marks, now, false) == s && Keep(s, marks, now, true) == []
  {
    if s != [] {
      KeepOwn(s[..|s| - 1], marks, now);
      assert s == s[..|s| - 1] + [s[|s| - 1]];
    }
  }

  lemma NothingBeside<T>(a: seq<T>)
    ensures a + [] == a && [] + a == a
  {
  }

  lemma OursLast(own: seq<Attempt>, ours: Attempt, marks: map<string, int>, now: int)
    requires forall i :: 0 <= i < |own| ==> own[i].caller
    ensures CreditLast(own + [ours], marks, now) == own + [ours]
  {
    KeepOwn(own, marks, now);
    KeepOfOne(ours, marks, now, false);
    KeepOfOne(ours, marks, now, true);
    KeepAppend(own, [ours], marks, now, false);
    KeepAppend(own, [ours], marks, now, true);
    NothingBeside(own);
    NothingBeside(own + [ours]);
    NothingBeside([ours]);
  }

  lemma OursFirst(own: seq<Attempt>, ours: Attempt, marks: map<string, int>, now: int)
    requires forall i :: 0 <= i < |own| ==> own[i].caller
    ensures CreditLast([ours] + own, marks, now) == if GoesLast(ours, marks, now) then own + [ours] else [ours] + own
  {
    KeepOwn(own, marks, now);
    KeepOfOne(ours, marks, now, false);
    KeepOfOne(ours, marks, now, true);
    KeepAppend([ours], own, marks, now, false);
    KeepAppend([ours], own, marks, now, true);
    NothingBeside(own);
    NothingBeside([ours]);
    NothingBeside([ours] + own);
  }
}
