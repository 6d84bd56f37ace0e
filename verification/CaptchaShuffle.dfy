/** The in-place shuffle of a captcha's answer buttons, driven by random draws that may fail. */
module CaptchaShuffle {

  /** One draw for each place from the last down to the second; draw k is at most the place. */
  predicate Draws(n: nat, draws: seq<nat>) {
    |draws| == (if n == 0 then 0 else n - 1) && forall k :: 0 <= k < |draws| ==> draws[k] < n - k
  }

  function Swap<T>(s: seq<T>, i: nat, j: nat): (t: seq<T>)
    requires i < |s| && j < |s|
    ensures |t| == |s|
  {
    seq(|s|, k requires 0 <= k < |s| => if k == i then s[j] else if k == j then s[i] else s[k])
  }

  function Shuffled<T>(s: seq<T>, draws: seq<nat>): seq<T>
    requires Draws(|s|, draws)
    decreases |s|
  {
    if |s| <= 1 then s
    else
      var t, last := Swap(s, |s| - 1, draws[0]), |s| - 1;
      Shuffled(t[..last], draws[1..]) + [t[last]]
  }

  lemma SwapIsPermutation<T>(s: seq<T>, i: nat, j: nat)
    requires i < |s| && j < |s|
    ensures multiset(Swap(s, i, j)) == multiset(s)
  {
    assert Swap(s, i, j) == s[i := s[j]][j := s[i]];
  }

  lemma {:induction false} ShuffledIsPermutation<T>(s: seq<T>, draws: seq<nat>)
    requires Draws(|s|, draws)
    ensures multiset(Shuffled(s, draws)) == multiset(s) && |Shuffled(s, draws)| == |s|
    decreases |s|
  {
    if |s| > 1 {
      var t, last := Swap(s, |s| - 1, draws[0]), |s| - 1;
      SwapIsPermutation(s, last, draws[0]);
      ShuffledIsPermutation(t[..last], draws[1..]);
      assert t == t[..last] + [t[last]];
    }
  }

  predicate Distinct<T(==)>(s: seq<T>) {
    forall i, j :: 0 <= i < j < |s| ==> s[i] != s[j]
  }

  function Place<T(==)>(s: seq<T>, x: T): (i: nat)
    requires x in s
    ensures i < |s| && s[i] == x
  {
    if s[0] == x then 0 else 1 + Place(s[1..], x)
  }

  lemma OthersMatch<T>(s: seq<T>, target: seq<T>)
    requires s != [] && multiset(s) == multiset(target)
    ensures |s| == |target| && target[|s| - 1] in s
  {
    assert |multiset(s)| == |multiset(target)|;
    assert target[|target| - 1] in multiset(target);
  }

  lemma WithoutLast<T>(s: seq<T>)
    requires s != []
    ensures multiset(s[..|s| - 1]) == multiset(s) - multiset{s[|s| - 1]}
  {
    var rest, x := s[..|s| - 1], s[|s| - 1];
    assert s == rest + [x];
    assert multiset(s) == multiset(rest) + multiset{x};
  }

  lemma FrontsMatch<T>(s: seq<T>, target: seq<T>)
    requires s != [] && |s| == |target| && multiset(s) == multiset(target) && s[|s| - 1] == target[|s| - 1]
    ensures multiset(s[..|s| - 1]) == multiset(target[..|s| - 1])
  {
    WithoutLast(s);
    WithoutLast(target);
  }

  lemma SwapPutsLast<T>(s: seq<T>, j: nat)
    requires j < |s|
    ensures Swap(s, |s| - 1, j)[|s| - 1] == s[j]
  {
  }

  lemma RestMatches<T>(s: seq<T>, target: seq<T>, j: nat)
    requires s != [] && |s| == |target| && multiset(s) == multiset(target)
    requires j < |s| && s[j] == target[|s| - 1]
    ensures multiset(Swap(s, |s| - 1, j)[..|s| - 1]) == multiset(target[..|s| - 1])
  {
    SwapIsPermutation(s, |s| - 1, j);
    SwapPutsLast(s, j);
    FrontsMatch(Swap(s, |s| - 1, j), target);
  }

  lemma RestIsDistinct<T>(s: seq<T>, j: nat)
    requires s != [] && Distinct(s) && j < |s|
    ensures Distinct(Swap(s, |s| - 1, j)[..|s| - 1])
  {
  }

  /** The draws that turn one order of the answers into another. */
  ghost function DrawsFor<T>(s: seq<T>, target: seq<T>): (draws: seq<nat>)
    requires multiset(s) == multiset(target)
    ensures Draws(|s|, draws)
    decreases |s|
  {
    if |s| <= 1 then []
    else
      OthersMatch(s, target);
      var last := |s| - 1;
      var j := Place(s, target[last]);
      RestMatches(s, target, j);
      [j] + DrawsFor(Swap(s, last, j)[..last], target[..last])
  }

  lemma ShuffledParts<T>(s: seq<T>, draws: seq<nat>)
    requires |s| > 1 && Draws(|s|, draws)
    ensures var last := |s| - 1;
            var rest := Swap(s, last, draws[0])[..last];
            && |Shuffled(s, draws)| == |s| && Shuffled(s, draws)[last] == s[draws[0]]
            && Shuffled(s, draws)[..last] == Shuffled(rest, draws[1..])
  {
    var last := |s| - 1;
    var t := Swap(s, last, draws[0]);
    ShuffledIsPermutation(t[..last], draws[1..]);
    assert Shuffled(s, draws) == Shuffled(t[..last], draws[1..]) + [t[last]];
    assert t[last] == s[draws[0]];
  }

  /** Every order of the answers is reached. */
  lemma {:induction false} EveryOrderIsReached<T>(s: seq<T>, target: seq<T>)
    requires multiset(s) == multiset(target)
    ensures Shuffled(s, DrawsFor(s, target)) == target
    decreases |s|
  {
    assert |s| == |multiset(s)| == |multiset(target)| == |target|;
    if |s| == 1 {
      assert target[0] in multiset(s);
    } else if |s| > 1 {
      OthersMatch(s, target);
      var last := |s| - 1;
      var j := Place(s, target[last]);
      RestMatches(s, target, j);
      SwapPutsLast(s, j);
      var rest := Swap(s, last, j)[..last];
      EveryOrderIsReached(rest, target[..last]);
      var draws := DrawsFor(s, target);
      assert draws == [j] + DrawsFor(rest, target[..last]);
      assert draws[0] == j && draws[1..] == DrawsFor(rest, target[..last]);
      ShuffledParts(s, draws);
      assert target == target[..last] + [target[last]];
      assert Shuffled(s, draws) == Shuffled(s, draws)[..last] + [Shuffled(s, draws)[last]];
    }
  }

  /** No two lists of draws give the same order, so with fair draws every order of distinct
      answers is equally likely. */
  lemma {:induction false} EveryOrderOnce<T>(s: seq<T>, a: seq<nat>, b: seq<nat>)
    requires Distinct(s) && Draws(|s|, a) && Draws(|s|, b) && Shuffled(s, a) == Shuffled(s, b)
    ensures a == b
    decreases |s|
  {
    if |s| > 1 {
      ShuffledParts(s, a);
      ShuffledParts(s, b);
      assert s[a[0]] == s[b[0]];
      RestIsDistinct(s, a[0]);
      EveryOrderOnce(Swap(s, |s| - 1, a[0])[..|s| - 1], a[1..], b[1..]);
      assert a == [a[0]] + a[1..] && b == [b[0]] + b[1..];
    }
  }

  /** The list after the first `k` swaps. */
  function AfterDraws<T>(s: seq<T>, draws: seq<nat>, k: nat): (t: seq<T>)
    requires Draws(|s|, draws) && k <= |draws|
    ensures |t| == |s|
  {
    if k == 0 then s else Swap(AfterDraws(s, draws, k - 1), |s| - k, draws[k - 1])
  }

  lemma {:induction false} DrawsOnlyMove<T>(s: seq<T>, draws: seq<nat>, k: nat)
    requires Draws(|s|, draws) && k <= |draws|
    ensures multiset(AfterDraws(s, draws, k)) == multiset(s)
  {
    if k > 0 {
      DrawsOnlyMove(s, draws, k - 1);
      SwapIsPermutation(AfterDraws(s, draws, k - 1), |s| - k, draws[k - 1]);
    }
  }

  lemma SwapInFront<T>(front: seq<T>, x: T, i: nat, j: nat)
    requires i < |front| && j < |front|
    ensures Swap(front + [x], i, j) == Swap(front, i, j) + [x]
  {
  }

  /** After the first swap the last place is settled, and the rest go on among the others. */
  lemma {:induction false} LastIsSettled<T>(s: seq<T>, draws: seq<nat>, k: nat)
    requires |s| > 1 && Draws(|s|, draws) && k < |draws|
    ensures var last := |s| - 1;
            var t := Swap(s, last, draws[0]);
            AfterDraws(s, draws, k + 1) == AfterDraws(t[..last], draws[1..], k) + [t[last]]
  {
    var last := |s| - 1;
    var t := Swap(s, last, draws[0]);
    if k == 0 {
      assert AfterDraws(s, draws, 0) == s;
      assert t == t[..last] + [t[last]];
    } else {
      LastIsSettled(s, draws, k - 1);
      var rest, tail := t[..last], draws[1..];
      var front := AfterDraws(rest, tail, k - 1);
      assert tail[k - 1] == draws[k];
      SwapInFront(front, t[last], last - k, draws[k]);
      assert AfterDraws(rest, tail, k) == Swap(front, last - k, draws[k]);
      assert AfterDraws(s, draws, k + 1) == Swap(AfterDraws(s, draws, k), last - k, draws[k]);
    }
  }

  lemma {:induction false} SwapsAreTheShuffle<T>(s: seq<T>, draws: seq<nat>)
    requires Draws(|s|, draws)
    ensures AfterDraws(s, draws, |draws|) == Shuffled(s, draws)
    decreases |s|
  {
    if |s| > 1 {
      LastIsSettled(s, draws, |draws| - 1);
      SwapsAreTheShuffle(Swap(s, |s| - 1, draws[0])[..|s| - 1], draws[1..]);
    }
  }

  /** Shuffles in place; draw number `fails` is the first that cannot be made. The shuffle then
      stops with every answer still there. */
  method ShuffleStrings(values: array<string>, draws: seq<nat>, fails: nat) returns (failed: bool)
    requires Draws(values.Length, draws)
    modifies values
    ensures failed <==> fails < |draws|
    ensures multiset(values[..]) == multiset(old(values[..]))
    ensures !failed ==> values[..] == Shuffled(old(values[..]), draws)
  {
    ghost var start := values[..];
    var i, k := values.Length - 1, 0;
    while i > 0
      invariant k <= |draws| && k <= fails && (values.Length > 0 ==> i == values.Length - 1 - k)
      invariant values[..] == AfterDraws(start, draws, k)
    {
      if k == fails {
        DrawsOnlyMove(start, draws, k);
        return true;
      }
      var j := draws[k];
      values[i], values[j] := values[j], values[i];
      i, k := i - 1, k + 1;
    }
    DrawsOnlyMove(start, draws, k);
    SwapsAreTheShuffle(start, draws);
    return false;
  }
}
