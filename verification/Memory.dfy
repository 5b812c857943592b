// Conversation memory: history is cut back after every append, and what is
// kept is what cutting the whole history once would have kept.

module Memory {
  import opened Basics
  import opened Text

  const MAX_TURNS: nat := 40
  const MAX_CHARS: nat := 24000
  const UNSET: int := 0

  // Content is a sequence of bytes.
  datatype Message = Message(role: string, content: string, at: int)

  function TotalChars(ms: seq<Message>): nat {
    if ms == [] then 0 else |ms[0].content| + TotalChars(ms[1..])
  }

  predicate Fits(ms: seq<Message>) {
    |ms| <= MAX_TURNS && TotalChars(ms) <= MAX_CHARS
  }

  // The last n messages of h.
  function Tail(h: seq<Message>, n: nat): seq<Message>
    requires n <= |h|
  {
    h[|h| - n..]
  }

  // kept is the longest run of h's last messages that fits both limits.
  ghost predicate LongestFit(h: seq<Message>, kept: seq<Message>) {
    |kept| <= |h| && kept == Tail(h, |kept|) && Fits(kept)
    && forall n :: |kept| < n <= |h| ==> !Fits(Tail(h, n))
  }

  lemma {:induction false} TotalCharsAppend(a: seq<Message>, b: seq<Message>)
    ensures TotalChars(a + b) == TotalChars(a) + TotalChars(b)
  {
    if a == [] {
      assert a + b == b;
    } else {
      TotalCharsAppend(a[1..], b);
      assert (a + b)[1..] == a[1..] + b;
    }
  }

  lemma LongerTotalsMore(h: seq<Message>, m: nat, n: nat)
    requires m <= n <= |h|
    ensures TotalChars(Tail(h, m)) <= TotalChars(Tail(h, n))
  {
    TotalCharsAppend(h[|h| - n..|h| - m], Tail(h, m));
    assert h[|h| - n..|h| - m] + Tail(h, m) == Tail(h, n);
  }

  lemma LongestFitIsUnique(h: seq<Message>, s: seq<Message>, t: seq<Message>)
    requires LongestFit(h, s) && LongestFit(h, t)
    ensures s == t
  {
    assert s == Tail(h, |s|) && t == Tail(h, |t|);
  }

  // Cutting after each append keeps exactly what cutting once at the end would.
  lemma CuttingEarlyLosesNothing(h: seq<Message>, s: seq<Message>, more: seq<Message>, t: seq<Message>)
    requires LongestFit(h, s) && LongestFit(s + more, t)
    ensures LongestFit(h + more, t)
  {
    var whole, short := h + more, s + more;
    assert short == Tail(whole, |short|);
    assert t == Tail(whole, |t|);
    forall n | |t| < n <= |whole| ensures !Fits(Tail(whole, n)) {
      if n <= |short| {
        assert Tail(whole, n) == Tail(short, n);
      } else {
        var k := n - |more|;
        assert Tail(whole, n) == Tail(h, k) + more;
        TotalCharsAppend(Tail(h, k), more);
        assert !Fits(Tail(h, k));
      }
    }
  }

  // The messages an append really adds: blank ones are dropped, undated ones
  // are dated.
  function Added(msgs: seq<Message>, now: int): seq<Message> {
    if msgs == [] then []
    else
      var front, m := Added(msgs[..|msgs| - 1], now), msgs[|msgs| - 1];
      if Trim(m.content) == "" then front
      else front + [if m.at == UNSET then m.(at := now) else m]
  }

  // Walking back from the end, the first message that breaks the budget and
  // everything before it go.
  lemma BreakPoint(h: seq<Message>, m: nat, i: nat)
    requires m == (if |h| > MAX_TURNS then MAX_TURNS else |h|) && i < m
    requires TotalChars(Tail(h, i)) <= MAX_CHARS < TotalChars(Tail(h, i + 1))
    ensures LongestFit(h, Tail(h, i))
  {
    forall n | i < n <= |h| ensures !Fits(Tail(h, n)) {
      LongerTotalsMore(h, i + 1, n);
    }
  }

  lemma OneMoreTotal(h: seq<Message>, n: nat)
    requires n < |h|
    ensures TotalChars(Tail(h, n + 1)) == |h[|h| - n - 1].content| + TotalChars(Tail(h, n))
  {
    assert Tail(h, n + 1)[1..] == Tail(h, n);
  }

  lemma NothingBreaks(h: seq<Message>, m: nat)
    requires m == (if |h| > MAX_TURNS then MAX_TURNS else |h|) && TotalChars(Tail(h, m)) <= MAX_CHARS
    ensures LongestFit(h, Tail(h, m))
  {
  }

  method CutBack(messages: seq<Message>) returns (kept: seq<Message>)
    ensures LongestFit(messages, kept)
  {
    kept := messages;
    if |kept| > MAX_TURNS {
      kept := kept[|kept| - MAX_TURNS..];
    }
    ghost var m, off := |kept|, |messages| - |kept|;
    assert kept == messages[off..];
    var total := 0;
    var i := |kept| - 1;
    while i >= 0
      invariant -1 <= i < m
      invariant total == TotalChars(Tail(messages, m - 1 - i)) && total <= MAX_CHARS
    {
      OneMoreTotal(messages, m - 1 - i);
      assert kept[i] == messages[off + i];
      total := total + |kept[i].content|;
      if total > MAX_CHARS {
        BreakPoint(messages, m, m - 1 - i);
        assert kept[i + 1..] == Tail(messages, m - 1 - i);
        return kept[i + 1..];
      }
      i := i - 1;
    }
    NothingBreaks(messages, m);
  }

  // One stored conversation. The history it has been given is kept by nobody.
  class Conversation {
    var messages: seq<Message>
    ghost var history: seq<Message>

    ghost predicate Valid()
      reads this
    {
      LongestFit(history, messages)
    }

    constructor ()
      ensures Valid() && messages == [] && history == []
    {
      messages, history := [], [];
    }

    // Reads the stored messages, appends, cuts back and replaces the file; a
    // failed write leaves the file as it was.
    method Append(msgs: seq<Message>, now: int, lands: bool) returns (r: Option<seq<Message>>)
      requires Valid()
      modifies this
      ensures Valid()
      ensures history == if lands then old(history) + Added(msgs, now) else old(history)
      ensures r == if lands then Some(messages) else None
      ensures !lands ==> messages == old(messages)
    {
      var c := messages;
      for i := 0 to |msgs|
        invariant c == messages + Added(msgs[..i], now)
      {
        assert msgs[..i + 1][..i] == msgs[..i];
        var m := msgs[i];
        if Trim(m.content) == "" {
          continue;
        }
        if m.at == UNSET {
          m := m.(at := now);
        }
        c := c + [m];
      }
      assert msgs[..|msgs|] == msgs;
      var kept := CutBack(c);
      if !lands {
        return None;
      }
      CuttingEarlyLosesNothing(history, messages, Added(msgs, now), kept);
      messages, history := kept, history + Added(msgs, now);
      r := Some(messages);
    }
  }

  // ----- what counts -----

  // A message counts unless it is blank, and is dated now if it has no date.
  lemma AddedOne(m: Message, now: int)
    ensures Added([m], now) ==
      if Trim(m.content) == "" then [] else [Message(m.role, m.content, if m.at == 0 then now else m.at)]
  {
    assert [m][..0] == [];
  }

  lemma {:induction false} AddedInTurn(a: seq<Message>, b: seq<Message>, now: int)
    ensures Added(a + b, now) == Added(a, now) + Added(b, now)
    decreases |b|
  {
    if b == [] {
      assert a + b == a;
    } else {
      AddedInTurn(a, b[..|b| - 1], now);
      assert (a + b)[..|a + b| - 1] == a + b[..|b| - 1];
    }
  }

  // What is kept is at most forty messages of at most 24000 bytes in all, and
  // one message more would be too many or too much.
  lemma KeptIsAllThatFits(h: seq<Message>, kept: seq<Message>)
    requires LongestFit(h, kept)
    ensures |kept| <= 40 && TotalChars(kept) <= 24000
    ensures |kept| < |h| ==> |kept| == 40 || TotalChars(kept) + |h[|h| - |kept| - 1].content| > 24000
  {
    if |kept| < |h| {
      assert !Fits(Tail(h, |kept| + 1));
      OneMoreTotal(h, |kept|);
    }
  }
}
