// What trimming and folding a name come to.

module TextLaws {
  import opened Text

  // Nothing but blanks before i and from j on, and none at either end between.
  ghost predicate SpacesAround(s: string, i: nat, j: nat)
    requires i <= j <= |s|
  {
    && (forall k :: 0 <= k < i || j <= k < |s| ==> s[k] == ' ' || '\t' <= s[k] <= '\r')
    && (i < j ==> !(s[i] == ' ' || '\t' <= s[i] <= '\r') && !(s[j - 1] == ' ' || '\t' <= s[j - 1] <= '\r'))
  }

  lemma {:induction false} TrimsLeft(s: string) returns (i: nat)
    ensures i <= |s| && TrimLeft(s) == s[i..] && forall k :: 0 <= k < i ==> IsSpace(s[k])
    ensures i < |s| ==> !IsSpace(s[i])
    decreases |s|
  {
    if s != [] && IsSpace(s[0]) {
      i := TrimsLeft(s[1..]);
      i := i + 1;
    } else {
      i := 0;
    }
  }

  lemma {:induction false} TrimsRight(s: string) returns (j: nat)
    ensures j <= |s| && TrimRight(s) == s[..j] && forall k :: j <= k < |s| ==> IsSpace(s[k])
    ensures 0 < j ==> !IsSpace(s[j - 1])
    decreases |s|
  {
    if s != [] && IsSpace(s[|s| - 1]) {
      j := TrimsRight(s[..|s| - 1]);
    } else {
      j := |s|;
      assert s[..j] == s;
    }
  }

  // Trimming takes the blanks around and nothing else.
  lemma TrimTakesBlanks(s: string) returns (i: nat, j: nat)
    ensures i <= j <= |s| && Trim(s) == s[i..j] && SpacesAround(s, i, j)
  {
    i := TrimsLeft(s);
    var n := TrimsRight(s[i..]);
    j := i + n;
    assert s[i..][..n] == s[i..j];
    forall k | 0 <= k < i || j <= k < |s| ensures IsSpace(s[k]) {
      if k >= j {
        assert s[i..][k - i] == s[k];
      }
    }
    if n > 0 {
      assert s[i..][0] == s[i] && s[i..][n - 1] == s[j - 1];
    }
  }

  // Folding touches the capital letters alone.
  lemma LowerFolds(s: string)
    ensures |Lower(s)| == |s|
    ensures forall k :: 0 <= k < |s| ==> Lower(s)[k] == if 'A' <= s[k] <= 'Z' then s[k] - 'A' + 'a' else s[k]
  {
  }

  // The key of an account is its name in small letters, less the blanks around
  // it.
  lemma NormFoldsAndTrims(s: string) returns (i: nat, j: nat)
    ensures i <= j <= |s| && Norm(s) == Lower(s)[i..j] && SpacesAround(s, i, j)
  {
    i, j := TrimTakesBlanks(Lower(s));
    assert forall k :: 0 <= k < |s| ==> (IsSpace(Lower(s)[k]) <==> IsSpace(s[k]));
  }
}
