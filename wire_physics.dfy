/** The cable simulation of script.js: one wire is a chain of nodes, each with
    a current and a previous position (the previous one carries the implicit
    velocity). A frame first integrates every node (damped Verlet with gravity,
    node 0 pinned to its word anchor) and then runs a fixed number of
    relaxation passes over the adjacent pairs, re-pinning the free end to the
    cursor before each pass while the wire is attached.

    The reference definitions are functions on `seq<Node>`; the methods at the
    end perform the same updates in place on an `array<Node>`, as the source
    does on its node objects. */
module WirePhysics {
  import opened Basics

  const GRAVITY: real := 0.4
  const AIR_RESISTANCE: real := 0.96
  const WIRE_LENGTH: real := 150.0
  /** Number of NODES per wire (the source names it a segment count). */
  const WIRE_SEGMENTS: nat := 14
  const WIRE_ITERATIONS: nat := 25
  /** Rest distance between adjacent nodes: the source divides by the node
      count, 14, although a chain of 14 nodes has 13 gaps. */
  const SEGMENT_LENGTH: real := WIRE_LENGTH / WIRE_SEGMENTS as real

  datatype Node = Node(x: real, y: real, oldX: real, oldY: real)

  function Pos(n: Node): Point
  {
    Point(n.x, n.y)
  }

  /** The node with its current position set to `p` (its previous position kept). */
  function MovedTo(n: Node, p: Point): Node
  {
    n.(x := p.x, y := p.y)
  }

  // ---------------------------------------------------------------------
  // Integration
  // ---------------------------------------------------------------------

  /** One damped Verlet step of a free node. */
  function Verlet(n: Node): (r: Node)
    ensures r.oldX == n.x && r.oldY == n.y
    ensures r.x - r.oldX == (n.x - n.oldX) * AIR_RESISTANCE
    ensures r.y - r.oldY == (n.y - n.oldY) * AIR_RESISTANCE + GRAVITY
  {
    var vx := (n.x - n.oldX) * AIR_RESISTANCE;
    var vy := (n.y - n.oldY) * AIR_RESISTANCE;
    Node(n.x + vx, n.y + vy + GRAVITY, n.x, n.y)
  }

  /** A node at rest keeps its x and falls by exactly one unit of gravity. */
  lemma VerletFromRest(n: Node)
    requires n.x == n.oldX && n.y == n.oldY
    ensures Verlet(n) == Node(n.x, n.y + GRAVITY, n.x, n.y)
  {
  }

  /** The falling speed never exceeds the terminal speed
      GRAVITY / (1 - AIR_RESISTANCE) = 10 once it starts below it, and the
      horizontal speed only shrinks. */
  lemma VerletSpeedBounded(n: Node)
    requires 0.0 <= n.y - n.oldY <= 10.0
    ensures 0.0 <= Verlet(n).y - Verlet(n).oldY <= 10.0
    ensures Abs(Verlet(n).x - Verlet(n).oldX) <= Abs(n.x - n.oldX)
  {
  }

  /** The integration step of a frame: node 0 is moved onto the anchor
      (its previous position is left as it was), every other node takes a
      Verlet step. */
  function Integrated(s: seq<Node>, anchor: Point): seq<Node>
  {
    seq(|s|, i requires 0 <= i < |s| => if i == 0 then MovedTo(s[0], anchor) else Verlet(s[i]))
  }

  // ---------------------------------------------------------------------
  // Constraint solving
  // ---------------------------------------------------------------------

  /** Which end of a pair a relaxation may move. */
  datatype PairRule = FirstFixed | LastFixed | BothMove

  /** The rule for the pair (i, i+1) of an n-node chain. */
  function RuleAt(n: int, i: int, pinLast: bool): PairRule
  {
    if i == 0 then FirstFixed
    else if i == n - 2 && pinLast then LastFixed
    else BothMove
  }

  lemma CorrectionFactor(dist: real)
    requires dist != 0.0
    ensures (SEGMENT_LENGTH - dist) / dist / 2.0 * 2.0 == SEGMENT_LENGTH / dist - 1.0
  {
  }

  /** Relaxes one pair whose current separation has length `dist`: the
      correction of the source, applied to the end(s) the rule lets move. */
  function Relax(a: Node, b: Node, dist: real, rule: PairRule): (Node, Node)
    requires dist != 0.0
  {
    var dx := b.x - a.x;
    var dy := b.y - a.y;
    var diff := SEGMENT_LENGTH - dist;
    var percent := diff / dist / 2.0;
    var offsetX := dx * percent;
    var offsetY := dy * percent;
    match rule
    case FirstFixed => (a, b.(x := b.x + offsetX * 2.0, y := b.y + offsetY * 2.0))
    case LastFixed => (a.(x := a.x - offsetX * 2.0, y := a.y - offsetY * 2.0), b)
    case BothMove => (a.(x := a.x - offsetX, y := a.y - offsetY), b.(x := b.x + offsetX, y := b.y + offsetY))
  }

  /** Whatever the rule, a relaxed pair has its separation vector rescaled by
      SEGMENT_LENGTH / dist: the same direction, and (for the true length)
      exactly the rest length. The fixed end stays put; when both move, their
      midpoint stays put. Previous positions are never touched. */
  lemma RelaxSpec(a: Node, b: Node, dist: real, rule: PairRule)
    requires dist != 0.0
    ensures var r := Relax(a, b, dist, rule);
      r.1.x - r.0.x == (b.x - a.x) * (SEGMENT_LENGTH / dist)
      && r.1.y - r.0.y == (b.y - a.y) * (SEGMENT_LENGTH / dist)
      && (rule == FirstFixed ==> r.0 == a)
      && (rule == LastFixed ==> r.1 == b)
      && (rule == BothMove ==> r.0.x + r.1.x == a.x + b.x && r.0.y + r.1.y == a.y + b.y)
      && r.0.oldX == a.oldX && r.0.oldY == a.oldY && r.1.oldX == b.oldX && r.1.oldY == b.oldY
  {
    var dx := b.x - a.x;
    var dy := b.y - a.y;
    var percent := (SEGMENT_LENGTH - dist) / dist / 2.0;
    CorrectionFactor(dist);
    assert dx + dx * percent * 2.0 == dx * (SEGMENT_LENGTH / dist);
    assert dy + dy * percent * 2.0 == dy * (SEGMENT_LENGTH / dist);
  }

  /** With the true length, a relaxed pair is exactly SEGMENT_LENGTH apart. */
  lemma RelaxRestoresSegment(norm: (real, real) -> real, a: Node, b: Node, rule: PairRule)
    requires IsEuclidean(norm)
    requires norm(b.x - a.x, b.y - a.y) != 0.0
    ensures var r := Relax(a, b, norm(b.x - a.x, b.y - a.y), rule);
            norm(r.1.x - r.0.x, r.1.y - r.0.y) == SEGMENT_LENGTH
  {
    var dist := norm(b.x - a.x, b.y - a.y);
    var r := Relax(a, b, dist, rule);
    RelaxSpec(a, b, dist, rule);
    RescaledLength(norm, b.x - a.x, b.y - a.y, r.1.x - r.0.x, r.1.y - r.0.y);
  }

  lemma RescaledLength(norm: (real, real) -> real, dx: real, dy: real, ndx: real, ndy: real)
    requires IsEuclidean(norm)
    requires norm(dx, dy) != 0.0
    requires ndx == dx * (SEGMENT_LENGTH / norm(dx, dy)) && ndy == dy * (SEGMENT_LENGTH / norm(dx, dy))
    ensures norm(ndx, ndy) == SEGMENT_LENGTH
  {
    var dist := norm(dx, dy);
    var k := SEGMENT_LENGTH / dist;
    assert 0.0 < dist;
    NormScaled(norm, dx, dy, k);
    assert ndx == k * dx && ndy == k * dy;
    assert norm(ndx, ndy) == k * dist;
    assert k * dist == SEGMENT_LENGTH;
  }

  /** Relaxes the pair (i, i+1) of the chain, skipping it when the nodes coincide
      (the measured length is zero). Only those two nodes can change; node 0 is
      never moved, and neither is the last node while it is pinned to the cursor,
      unless the chain has only two nodes. */
  function RelaxAt(s: seq<Node>, i: nat, pinLast: bool, norm: (real, real) -> real): (r: seq<Node>)
    requires i + 1 < |s|
    ensures |r| == |s|
    ensures forall k :: 0 <= k < |s| && k != i && k != i + 1 ==> r[k] == s[k]
    ensures i == 0 ==> r[0] == s[0]
    ensures i != 0 && i == |s| - 2 && pinLast ==> r[i + 1] == s[i + 1]
    ensures norm(s[i + 1].x - s[i].x, s[i + 1].y - s[i].y) == 0.0 ==> r == s
  {
    var dx := s[i + 1].x - s[i].x;
    var dy := s[i + 1].y - s[i].y;
    var dist := norm(dx, dy);
    if dist == 0.0 then s
    else
      var p := Relax(s[i], s[i + 1], dist, RuleAt(|s|, i, pinLast));
      s[i := p.0][i + 1 := p.1]
  }

  /** Two coincident nodes are left exactly as they are. */
  lemma CoincidentPairSkipped(s: seq<Node>, i: nat, pinLast: bool, norm: (real, real) -> real)
    requires IsEuclidean(norm)
    requires i + 1 < |s| && Pos(s[i]) == Pos(s[i + 1])
    ensures RelaxAt(s, i, pinLast, norm) == s
  {
    NormZeroIff(norm, s[i + 1].x - s[i].x, s[i + 1].y - s[i].y);
  }

  /** The pairs i, i+1, ... of one pass, in order, each seeing the result of the previous. */
  function PassFrom(s: seq<Node>, i: nat, pinLast: bool, norm: (real, real) -> real): (r: seq<Node>)
    ensures |r| == |s|
    decreases |s| - i
  {
    if i + 1 < |s| then PassFrom(RelaxAt(s, i, pinLast, norm), i + 1, pinLast, norm) else s
  }

  /** The free end moved onto the cursor. */
  function PinLast(s: seq<Node>, cursor: Point): seq<Node>
    requires |s| > 0
  {
    s[|s| - 1 := MovedTo(s[|s| - 1], cursor)]
  }

  /** One relaxation pass: pin the free end if attached, then relax every pair. */
  function Pass(s: seq<Node>, pinLast: bool, cursor: Point, norm: (real, real) -> real): (r: seq<Node>)
    requires pinLast ==> |s| > 0
    ensures |r| == |s|
  {
    PassFrom(if pinLast then PinLast(s, cursor) else s, 0, pinLast, norm)
  }

  /** `k` relaxation passes. */
  function Iterate(s: seq<Node>, k: nat, pinLast: bool, cursor: Point, norm: (real, real) -> real): (r: seq<Node>)
    requires pinLast ==> |s| > 0
    ensures |r| == |s|
  {
    if k == 0 then s else Pass(Iterate(s, k - 1, pinLast, cursor, norm), pinLast, cursor, norm)
  }

  /** A whole frame of one wire: integration, then WIRE_ITERATIONS passes. */
  function FrameStep(s: seq<Node>, anchor: Point, pinLast: bool, cursor: Point, norm: (real, real) -> real): (r: seq<Node>)
    requires pinLast ==> |s| > 0
    ensures |r| == |s|
  {
    Iterate(Integrated(s, anchor), WIRE_ITERATIONS, pinLast, cursor, norm)
  }

  // ---------------------------------------------------------------------
  // What the solver preserves
  // ---------------------------------------------------------------------

  lemma {:induction false} PassFromKeepsFirst(s: seq<Node>, i: nat, pinLast: bool, norm: (real, real) -> real)
    requires 1 <= i && |s| > 0
    ensures PassFrom(s, i, pinLast, norm)[0] == s[0]
    decreases |s| - i
  {
    if i + 1 < |s| {
      PassFromKeepsFirst(RelaxAt(s, i, pinLast, norm), i + 1, pinLast, norm);
    }
  }

  /** A relaxation pass never moves node 0 of a chain of two or more nodes. */
  lemma PassKeepsFirst(s: seq<Node>, pinLast: bool, cursor: Point, norm: (real, real) -> real)
    requires |s| >= 2
    ensures Pass(s, pinLast, cursor, norm)[0] == s[0]
  {
    var t := if pinLast then PinLast(s, cursor) else s;
    assert t[0] == s[0];
    var u := RelaxAt(t, 0, pinLast, norm);
    assert PassFrom(t, 0, pinLast, norm) == PassFrom(u, 1, pinLast, norm);
    PassFromKeepsFirst(u, 1, pinLast, norm);
  }

  lemma {:induction false} PassFromKeepsLast(s: seq<Node>, i: nat, norm: (real, real) -> real)
    requires |s| >= 3
    ensures PassFrom(s, i, true, norm)[|s| - 1] == s[|s| - 1]
    decreases |s| - i
  {
    if i + 1 < |s| {
      var u := RelaxAt(s, i, true, norm);
      assert u[|s| - 1] == s[|s| - 1];
      PassFromKeepsLast(u, i + 1, norm);
    }
  }

  /** While attached, the free end of a chain of three or more nodes is at the
      cursor after every pass. */
  lemma PassPinsLast(s: seq<Node>, cursor: Point, norm: (real, real) -> real)
    requires |s| >= 3
    ensures Pos(Pass(s, true, cursor, norm)[|s| - 1]) == cursor
  {
    var t := PinLast(s, cursor);
    PassFromKeepsLast(t, 0, norm);
  }

  /** With only two nodes the pair rule for node 0 wins: a relaxation moves the
      pinned end off the cursor unless the pair already has the rest length or
      the cursor lies on node 0. */
  lemma TwoNodePassMovesCursorEnd(s: seq<Node>, cursor: Point, norm: (real, real) -> real)
    requires IsEuclidean(norm)
    requires |s| == 2
    requires norm(cursor.x - s[0].x, cursor.y - s[0].y) != 0.0
    requires norm(cursor.x - s[0].x, cursor.y - s[0].y) != SEGMENT_LENGTH
    ensures Pos(Pass(s, true, cursor, norm)[1]) != cursor
  {
    var t := PinLast(s, cursor);
    var dx, dy := cursor.x - s[0].x, cursor.y - s[0].y;
    var dist := norm(dx, dy);
    NormZeroIff(norm, dx, dy);
    assert t[1].x - t[0].x == dx && t[1].y - t[0].y == dy;
    var r := RelaxAt(t, 0, true, norm);
    assert PassFrom(t, 0, true, norm) == PassFrom(r, 1, true, norm) == r;
    var p := Relax(t[0], t[1], dist, FirstFixed);
    RelaxSpec(t[0], t[1], dist, FirstFixed);
    assert r[1] == p.1;
    assert p.0 == t[0];
    var k := SEGMENT_LENGTH / dist;
    assert k != 1.0;
    assert r[1].x - cursor.x == dx * (k - 1.0) && r[1].y - cursor.y == dy * (k - 1.0);
    if dx != 0.0 {
      assert dx * (k - 1.0) != 0.0;
    } else {
      assert dy != 0.0;
      assert dy * (k - 1.0) != 0.0;
    }
  }

  lemma {:induction false} IterateKeepsFirst(s: seq<Node>, k: nat, pinLast: bool, cursor: Point, norm: (real, real) -> real)
    requires |s| >= 2
    ensures Iterate(s, k, pinLast, cursor, norm)[0] == s[0]
  {
    if k > 0 {
      IterateKeepsFirst(s, k - 1, pinLast, cursor, norm);
      PassKeepsFirst(Iterate(s, k - 1, pinLast, cursor, norm), pinLast, cursor, norm);
    }
  }

  lemma IteratePinsLast(s: seq<Node>, k: nat, cursor: Point, norm: (real, real) -> real)
    requires |s| >= 3 && k >= 1
    ensures Pos(Iterate(s, k, true, cursor, norm)[|s| - 1]) == cursor
  {
    PassPinsLast(Iterate(s, k - 1, true, cursor, norm), cursor, norm);
  }

  /** After a whole frame, node 0 is exactly at this frame's anchor and, while
      attached, the free end is exactly at the cursor. */
  lemma FrameStepPins(s: seq<Node>, anchor: Point, pinLast: bool, cursor: Point, norm: (real, real) -> real)
    requires |s| >= 2
    ensures Pos(FrameStep(s, anchor, pinLast, cursor, norm)[0]) == anchor
    ensures pinLast && |s| >= 3 ==> Pos(FrameStep(s, anchor, pinLast, cursor, norm)[|s| - 1]) == cursor
  {
    var t := Integrated(s, anchor);
    assert Pos(t[0]) == anchor;
    IterateKeepsFirst(t, WIRE_ITERATIONS, pinLast, cursor, norm);
    if pinLast && |s| >= 3 {
      IteratePinsLast(t, WIRE_ITERATIONS, cursor, norm);
    }
  }

  // ---------------------------------------------------------------------
  // The same updates, in place
  // ---------------------------------------------------------------------

  /** The `nodes.forEach` integration loop. */
  method Integrate(nodes: array<Node>, anchor: Point)
    modifies nodes
    ensures nodes[..] == Integrated(old(nodes[..]), anchor)
    ensures nodes.Length > 0 ==> Pos(nodes[0]) == anchor
    ensures forall i :: 0 < i < nodes.Length ==> nodes[i] == Verlet(old(nodes[i]))
  {
    for i := 0 to nodes.Length
      invariant forall k :: 0 <= k < i ==> nodes[k] == Integrated(old(nodes[..]), anchor)[k]
      invariant forall k :: i <= k < nodes.Length ==> nodes[k] == old(nodes[k])
    {
      var node := nodes[i];
      if i == 0 {
        nodes[i] := node.(x := anchor.x, y := anchor.y);
      } else {
        var vx := (node.x - node.oldX) * AIR_RESISTANCE;
        var vy := (node.y - node.oldY) * AIR_RESISTANCE;
        nodes[i] := Node(node.x + vx, node.y + vy + GRAVITY, node.x, node.y);
      }
    }
  }

  /** The body of the `for i` loop: relaxes the pair (i, i+1) in place. */
  method RelaxPairInPlace(nodes: array<Node>, i: int, pinLast: bool, norm: (real, real) -> real)
    requires 0 <= i < nodes.Length - 1
    modifies nodes
    ensures nodes[..] == RelaxAt(old(nodes[..]), i, pinLast, norm)
  {
    var n1 := nodes[i];
    var n2 := nodes[i + 1];
    var dx := n2.x - n1.x;
    var dy := n2.y - n1.y;
    var dist := norm(dx, dy);
    if dist == 0.0 {
      return;
    }
    ghost var p := Relax(n1, n2, dist, RuleAt(nodes.Length, i, pinLast));
    var diff := SEGMENT_LENGTH - dist;
    var percent := diff / dist / 2.0;
    var offsetX := dx * percent;
    var offsetY := dy * percent;
    if i == 0 {
      nodes[i + 1] := n2.(x := n2.x + offsetX * 2.0, y := n2.y + offsetY * 2.0);
      assert nodes[i] == p.0 && nodes[i + 1] == p.1;
    } else if i == nodes.Length - 2 && pinLast {
      nodes[i] := n1.(x := n1.x - offsetX * 2.0, y := n1.y - offsetY * 2.0);
      assert nodes[i] == p.0 && nodes[i + 1] == p.1;
    } else {
      nodes[i] := n1.(x := n1.x - offsetX, y := n1.y - offsetY);
      nodes[i + 1] := n2.(x := n2.x + offsetX, y := n2.y + offsetY);
      assert nodes[i] == p.0 && nodes[i + 1] == p.1;
    }
    assert nodes[..] == old(nodes[..])[i := p.0][i + 1 := p.1];
  }

  /** One pass of the `for it` loop: the cursor pin, then the `for i` loop over pairs. */
  method RelaxPass(nodes: array<Node>, pinLast: bool, cursor: Point, norm: (real, real) -> real)
    requires pinLast ==> nodes.Length > 0
    modifies nodes
    ensures nodes[..] == Pass(old(nodes[..]), pinLast, cursor, norm)
  {
    if pinLast {
      var lastNode := nodes[nodes.Length - 1];
      nodes[nodes.Length - 1] := lastNode.(x := cursor.x, y := cursor.y);
    }
    ghost var pinned := nodes[..];
    assert pinned == if pinLast then PinLast(old(nodes[..]), cursor) else old(nodes[..]);
    var i := 0;
    while i < nodes.Length - 1
      invariant 0 <= i
      invariant PassFrom(nodes[..], i, pinLast, norm) == PassFrom(pinned, 0, pinLast, norm)
    {
      RelaxPairInPlace(nodes, i, pinLast, norm);
      i := i + 1;
    }
  }

  /** The `for it` loop: WIRE_ITERATIONS passes. */
  method Solve(nodes: array<Node>, pinLast: bool, cursor: Point, norm: (real, real) -> real)
    requires pinLast ==> nodes.Length > 0
    modifies nodes
    ensures nodes[..] == Iterate(old(nodes[..]), WIRE_ITERATIONS, pinLast, cursor, norm)
  {
    for it := 0 to WIRE_ITERATIONS
      invariant nodes[..] == Iterate(old(nodes[..]), it, pinLast, cursor, norm)
    {
      RelaxPass(nodes, pinLast, cursor, norm);
    }
  }

  /** The physics of one wire in one frame. */
  method StepWire(nodes: array<Node>, anchor: Point, pinLast: bool, cursor: Point, norm: (real, real) -> real)
    requires nodes.Length >= 2
    modifies nodes
    ensures nodes[..] == FrameStep(old(nodes[..]), anchor, pinLast, cursor, norm)
    ensures Pos(nodes[0]) == anchor
    ensures pinLast && nodes.Length >= 3 ==> Pos(nodes[nodes.Length - 1]) == cursor
  {
    Integrate(nodes, anchor);
    Solve(nodes, pinLast, cursor, norm);
    FrameStepPins(old(nodes[..]), anchor, pinLast, cursor, norm);
  }
}
