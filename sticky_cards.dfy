/** The stacked project cards: on every scroll each card is found stuck or
    not, and every stuck card is scaled down by how many stuck cards lie on
    top of it, so that the stack recedes towards the back. */
module StickyCards {
  import opened Basics

  const STUCK_TOLERANCE: real := 5.0
  const DEPTH_SHRINK: real := 0.05
  const MIN_SCALE: real := 0.8

  /** A card is stuck once its top has reached its sticky `top` (plus 5). A
      `top` that does not parse as a number compares false: never stuck. */
  function IsStuck(rectTop: real, stickyTop: Option<int>): (b: bool)
    ensures b <==> stickyTop.Some? && rectTop <= stickyTop.value as real + STUCK_TOLERANCE
    ensures stickyTop.None? ==> !b
    ensures stickyTop.Some? && rectTop <= stickyTop.value as real ==> b
  {
    match stickyTop
    case None => false
    case Some(top) => rectTop <= top as real + STUCK_TOLERANCE
  }

  /** Stuck is closed upwards on the page, that is under a smaller `rectTop`:
      with the same sticky `top`, a card whose `rectTop` is no larger than that
      of a stuck card is stuck too. */
  lemma StuckClosedUpwards(r1: real, r2: real, stickyTop: Option<int>)
    requires r1 <= r2 && IsStuck(r2, stickyTop)
    ensures IsStuck(r1, stickyTop)
  {
  }

  /** The scale of a stuck card with `depth` stuck cards in front of it. */
  function DepthScale(depth: nat): (s: real)
    ensures MIN_SCALE <= s <= 1.0
    ensures s == 1.0 <==> depth == 0
    ensures depth < 4 ==> s == 1.0 - depth as real * DEPTH_SHRINK
    ensures depth >= 4 ==> s == MIN_SCALE
  {
    Max(MIN_SCALE, 1.0 - depth as real * DEPTH_SHRINK)
  }

  /** Deeper cards are never larger. */
  lemma DepthScaleMonotone(d1: nat, d2: nat)
    requires d1 <= d2
    ensures DepthScale(d2) <= DepthScale(d1)
  {
    assert d1 as real * DEPTH_SHRINK <= d2 as real * DEPTH_SHRINK;
  }

  // ---------------------------------------------------------------------
  // Counting, filtering, searching
  // ---------------------------------------------------------------------

  function Bit(b: bool): nat
  {
    if b then 1 else 0
  }

  /** The number of stuck cards in `s`. */
  function CountStuck(s: seq<bool>): nat
  {
    if |s| == 0 then 0 else CountStuck(s[..|s| - 1]) + Bit(s[|s| - 1])
  }

  lemma {:induction false} CountStuckAppend(a: seq<bool>, b: seq<bool>)
    ensures CountStuck(a + b) == CountStuck(a) + CountStuck(b)
    decreases |b|
  {
    if |b| > 0 {
      assert (a + b)[..|a + b| - 1] == a + b[..|b| - 1];
      CountStuckAppend(a, b[..|b| - 1]);
    } else {
      assert a + b == a;
    }
  }

  /** Around stuck card i: the ones before it, itself, and the ones after it. */
  lemma CountStuckAround(s: seq<bool>, i: nat)
    requires i < |s|
    ensures CountStuck(s) == CountStuck(s[..i]) + Bit(s[i]) + CountStuck(s[i + 1..])
  {
    assert s == s[..i] + [s[i]] + s[i + 1..];
    CountStuckAppend(s[..i] + [s[i]], s[i + 1..]);
    CountStuckAppend(s[..i], [s[i]]);
    assert CountStuck([s[i]]) == Bit(s[i]) by {
      assert [s[i]][..0] == [];
    }
  }

  /** `cardStates.filter(s => s.isStuck)`, as the indices of the stuck cards. */
  function StuckIndices(s: seq<bool>): (r: seq<nat>)
    ensures |r| == CountStuck(s)
    ensures forall k :: 0 <= k < |r| ==> r[k] < |s| && s[r[k]]
  {
    if |s| == 0 then []
    else StuckIndices(s[..|s| - 1]) + (if s[|s| - 1] then [|s| - 1] else [])
  }

  /** Every stuck card is in the filtered list. */
  lemma {:induction false} StuckIndicesComplete(s: seq<bool>, i: nat)
    requires i < |s| && s[i]
    ensures i in StuckIndices(s)
  {
    var n := |s|;
    if i < n - 1 {
      StuckIndicesComplete(s[..n - 1], i);
    }
  }

  /** `findIndex`: the first position holding `v`, or -1. */
  function FindIndex(xs: seq<nat>, v: nat): (r: int)
    ensures -1 <= r < |xs|
    ensures r == -1 <==> v !in xs
    ensures r >= 0 ==> xs[r] == v && forall j :: 0 <= j < r ==> xs[j] != v
  {
    if |xs| == 0 then -1
    else
      var r := FindIndex(xs[..|xs| - 1], v);
      if r >= 0 then r else if xs[|xs| - 1] == v then |xs| - 1 else -1
  }

  /** The position of stuck card i among the stuck cards is the number of
      stuck cards before it. */
  lemma {:induction false} StuckPosition(s: seq<bool>, i: nat)
    requires i < |s| && s[i]
    ensures FindIndex(StuckIndices(s), i) == CountStuck(s[..i])
  {
    var n := |s|;
    var prefix := s[..n - 1];
    var last: seq<nat> := if s[n - 1] then [n - 1] else [];
    assert StuckIndices(s) == StuckIndices(prefix) + last;
    if i < n - 1 {
      StuckPosition(prefix, i);
      assert prefix[..i] == s[..i];
      StuckIndicesComplete(prefix, i);
      FindIndexPrefix(StuckIndices(prefix), last, i);
    } else {
      assert prefix == s[..i];
      LastStuckPosition(StuckIndices(prefix), i);
    }
  }

  /** A value absent from `front` is found just after it. */
  lemma LastStuckPosition(front: seq<nat>, v: nat)
    requires v !in front
    ensures FindIndex(front + [v], v) == |front|
  {
    assert (front + [v])[..|front|] == front;
  }

  lemma FindIndexPrefix(a: seq<nat>, b: seq<nat>, v: nat)
    requires v in a
    ensures FindIndex(a + b, v) == FindIndex(a, v)
  {
    var r := FindIndex(a + b, v);
    var q := FindIndex(a, v);
    assert (a + b)[q] == v;
    assert r <= q;
    assert a[r] == v;
  }

  // ---------------------------------------------------------------------
  // The scroll handler
  // ---------------------------------------------------------------------

  /** The reference definition: a stuck card is scaled by its depth, the number
      of stuck cards after it; `None` is an inactive card with no transform. */
  function StackScale(stuck: seq<bool>, i: nat): Option<real>
    requires i < |stuck|
  {
    if stuck[i] then Some(DepthScale(CountStuck(stuck[i + 1..]))) else None
  }

  /** The depth the handler computes from the filtered list is the number of
      stuck cards after the card. */
  lemma DepthIsStuckAfter(stuck: seq<bool>, i: nat)
    requires i < |stuck| && stuck[i]
    ensures (|StuckIndices(stuck)| - 1) - FindIndex(StuckIndices(stuck), i) == CountStuck(stuck[i + 1..])
  {
    StuckPosition(stuck, i);
    CountStuckAround(stuck, i);
  }

  /** The `scroll` listener: one state per card, the stuck ones filtered out,
      then each card active and scaled by its depth, or inactive. */
  method OnScroll(rectTops: seq<real>, stickyTops: seq<Option<int>>) returns (transforms: seq<Option<real>>)
    requires |rectTops| == |stickyTops|
    ensures |transforms| == |rectTops|
    ensures forall i :: 0 <= i < |rectTops| ==>
              transforms[i] == StackScale(seq(|rectTops|, j requires 0 <= j < |rectTops| => IsStuck(rectTops[j], stickyTops[j])), i)
  {
    var cardStates: seq<bool> := [];
    for index := 0 to |rectTops|
      invariant |cardStates| == index
      invariant forall j :: 0 <= j < index ==> cardStates[j] == IsStuck(rectTops[j], stickyTops[j])
    {
      var isStuck := IsStuck(rectTops[index], stickyTops[index]);
      cardStates := cardStates + [isStuck];
    }
    transforms := StackTransforms(cardStates);
    assert cardStates == seq(|rectTops|, j requires 0 <= j < |rectTops| => IsStuck(rectTops[j], stickyTops[j]));
  }

  /** The second `forEach` of the listener, given each card's `isStuck`. */
  method StackTransforms(stuck: seq<bool>) returns (transforms: seq<Option<real>>)
    ensures |transforms| == |stuck|
    ensures forall i :: 0 <= i < |stuck| ==> transforms[i] == StackScale(stuck, i)
  {
    var stuckCards := StuckIndices(stuck);
    transforms := [];
    for index := 0 to |stuck|
      invariant |transforms| == index
      invariant forall i :: 0 <= i < index ==> transforms[i] == StackScale(stuck, i)
    {
      if stuck[index] {
        var stuckIndex := FindIndex(stuckCards, index);
        var depth := (|stuckCards| - 1) - stuckIndex;
        DepthIsStuckAfter(stuck, index);
        var scale := Max(MIN_SCALE, 1.0 - depth as real * DEPTH_SHRINK);
        assert Some(scale) == StackScale(stuck, index);
        transforms := transforms + [Some(scale)];
      } else {
        assert None == StackScale(stuck, index);
        transforms := transforms + [None];
      }
    }
  }

  // ---------------------------------------------------------------------
  // Properties of the stack
  // ---------------------------------------------------------------------

  /** Exactly the stuck cards are active, each with a scale in [0.8, 1]. */
  lemma ActiveIffStuck(stuck: seq<bool>, i: nat)
    requires i < |stuck|
    ensures StackScale(stuck, i).Some? <==> stuck[i]
    ensures stuck[i] ==> MIN_SCALE <= StackScale(stuck, i).value <= 1.0
  {
  }

  /** A stuck card is at full size exactly when no stuck card follows it. */
  lemma FrontCardFullSize(stuck: seq<bool>, i: nat)
    requires i < |stuck| && stuck[i]
    ensures StackScale(stuck, i) == Some(1.0) <==> forall j :: i < j < |stuck| ==> !stuck[j]
  {
    var tail := stuck[i + 1..];
    if forall j :: i < j < |stuck| ==> !stuck[j] {
      NoneStuck(tail);
    } else {
      var j :| i < j < |stuck| && stuck[j];
      assert tail[j - (i + 1)];
      SomeStuck(tail, j - (i + 1));
    }
  }

  lemma {:induction false} NoneStuck(s: seq<bool>)
    requires forall k :: 0 <= k < |s| ==> !s[k]
    ensures CountStuck(s) == 0
  {
    if |s| > 0 {
      NoneStuck(s[..|s| - 1]);
    }
  }

  lemma SomeStuck(s: seq<bool>, k: nat)
    requires k < |s| && s[k]
    ensures CountStuck(s) > 0
  {
    CountStuckAround(s, k);
  }

  /** Along the stack the scales never decrease: a card further back is never
      larger than one stuck after it; while fewer than four cards lie in
      front, it is strictly smaller. */
  lemma StackOrdered(stuck: seq<bool>, i: nat, j: nat)
    requires i < j < |stuck| && stuck[i] && stuck[j]
    ensures StackScale(stuck, i).value <= StackScale(stuck, j).value
    ensures CountStuck(stuck[j + 1..]) < 4 ==> StackScale(stuck, i).value < StackScale(stuck, j).value
  {
    var after := stuck[i + 1..];
    var k := j - (i + 1);
    CountStuckAround(after, k);
    assert after[k + 1..] == stuck[j + 1..];
    assert after[k];
    var di := CountStuck(after);
    var dj := CountStuck(stuck[j + 1..]);
    assert di >= dj + 1;
    DepthScaleMonotone(dj, di);
    if dj < 4 {
      DepthScaleStrict(dj, di);
    }
  }

  lemma DepthScaleStrict(d1: nat, d2: nat)
    requires d1 < d2 && d1 < 4
    ensures DepthScale(d2) < DepthScale(d1)
  {
    assert d1 as real * DEPTH_SHRINK < d2 as real * DEPTH_SHRINK;
  }
}
