/** The wire animation as a whole: five wires, created hanging from their word
    anchors (`initializeWires`), and the per-frame step (`animate`) that
    refreshes the attachment state and then moves and renders every wire that
    has an element and an anchor. Anchors, cursor, scroll offset and viewport
    width are parameters: the page supplies them each frame. */
module WireSimulation {
  import opened Basics
  import opened WirePhysics
  import opened WireRender
  import opened Attachment

  const WIRE_COUNT: nat := 5
  const CURSOR_CONNECTION_OFFSET_X: real := 0.0
  const CURSOR_CONNECTION_OFFSET_Y: real := 0.0

  /** Node j of a new wire hanging from `anchor`: straight down, j rest lengths
      below it, with zero velocity. */
  function RestNode(anchor: Point, j: nat): Node
  {
    Node(anchor.x, anchor.y + j as real * SEGMENT_LENGTH, anchor.x, anchor.y + j as real * SEGMENT_LENGTH)
  }

  /** A new wire is at rest, starts at its anchor and has every gap exactly
      SEGMENT_LENGTH long and vertical. */
  lemma RestChainShape(anchor: Point, j: nat)
    ensures Pos(RestNode(anchor, 0)) == anchor
    ensures RestNode(anchor, j).x == RestNode(anchor, j).oldX && RestNode(anchor, j).y == RestNode(anchor, j).oldY
    ensures RestNode(anchor, j + 1).x == RestNode(anchor, j).x
    ensures RestNode(anchor, j + 1).y - RestNode(anchor, j).y == SEGMENT_LENGTH
  {
  }

  /** The 14 nodes of a new wire have 13 gaps, so it hangs 13/14 of
      WIRE_LENGTH below its anchor, already past the 90% at which tension
      starts to rise. */
  lemma RestChainSpan(anchor: Point)
    ensures RestNode(anchor, WIRE_SEGMENTS - 1).y - anchor.y == WIRE_LENGTH * 13.0 / 14.0
    ensures WIRE_LENGTH * 0.9 < RestNode(anchor, WIRE_SEGMENTS - 1).y - anchor.y < WIRE_LENGTH
  {
  }

  /** A new wire hanging from `anchor`: WIRE_SEGMENTS rest nodes. */
  function RestChain(anchor: Point): (c: seq<Node>)
    ensures |c| == WIRE_SEGMENTS && Pos(c[0]) == anchor
  {
    seq(WIRE_SEGMENTS, j requires 0 <= j < WIRE_SEGMENTS => RestNode(anchor, j))
  }

  /** The flags `initializeWires` sets before its first frame: detached with
      the page marked scrolled and the dot hidden, or attached with the dot
      shown and 'scrolled' as it was. */
  function StartFlags(detached: bool, scrolled: bool): (f: Flags)
    ensures f.detached == detached
    ensures detached ==> Consistent(f)
    ensures !detached ==> f.scrolled == scrolled && f.cursorDotVisible
    ensures f == Transition(Flags(false, scrolled, true), detached)
  {
    if detached then Flags(true, true, false) else Flags(false, scrolled, true)
  }

  /** In the re-attach zone (scrolled past 100, not mobile, cursor near the
      text) the wires are created detached and the frame run at the end of
      `initializeWires` attaches them at once, showing the dot again. */
  lemma FirstFrameReattaches(scrollY: real, distToText: real, width: real, scrolled: bool)
    requires scrollY > SCROLL_DETACH_THRESHOLD && !IsMobile(width) && distToText < REATTACH_THRESHOLD
    ensures StartFlags(StartsDetached(scrollY, width), scrolled).detached
    ensures Transition(StartFlags(StartsDetached(scrollY, width), scrolled), ShouldBeDetached(scrollY, distToText, width))
            == Flags(false, false, true)
  {
    StartVersusFrame(scrollY, distToText, width);
  }

  /** The anchor a wire is created at: its word's, or the cursor when the page
      has fewer anchors than wires. */
  function AnchorFor(anchors: seq<Point>, i: nat, mouse: Point): Point
  {
    if i < |anchors| then anchors[i] else mouse
  }

  /** The point the free ends attach to. */
  function CursorConnect(mouse: Point): Point
  {
    Point(mouse.x + CURSOR_CONNECTION_OFFSET_X, mouse.y + CURSOR_CONNECTION_OFFSET_Y)
  }

  /** The node-building loop of `initializeWires` for one wire. */
  method NewChain(anchor: Point) returns (nodes: array<Node>)
    ensures fresh(nodes) && nodes.Length == WIRE_SEGMENTS
    ensures forall j :: 0 <= j < WIRE_SEGMENTS ==> nodes[j] == RestNode(anchor, j)
  {
    nodes := new Node[WIRE_SEGMENTS];
    for j := 0 to WIRE_SEGMENTS
      invariant forall k :: 0 <= k < j ==> nodes[k] == RestNode(anchor, k)
    {
      nodes[j] := Node(anchor.x, anchor.y + j as real * SEGMENT_LENGTH, anchor.x, anchor.y + j as real * SEGMENT_LENGTH);
    }
  }

  /** Whether wire `k` is moved and drawn in a frame: it needs its path element
      and its anchor. */
  predicate Stepped(k: nat, anchors: seq<Point>, elements: seq<bool>)
  {
    k < |elements| && elements[k] && k < |anchors|
  }

  /** What a frame does to wire `k`. */
  ghost predicate Advanced(before: seq<Node>, after: seq<Node>, frame: Option<WireFrame>, stepped: bool,
                           anchor: Point, pinLast: bool, cursor: Point, detached: bool, norm: (real, real) -> real)
  {
    if stepped then
      |before| >= 2
      && after == FrameStep(before, anchor, pinLast, cursor, norm)
      && frame.Some?
      && RendersAs(after, detached, anchor, norm, frame.value)
    else
      after == before && frame == None
  }

  /** The body of the per-wire step for a wire that is drawn: move it, then render it. */
  method StepAndRender(nodes: array<Node>, anchor: Point, pinLast: bool, cursor: Point, detached: bool,
                       norm: (real, real) -> real)
    returns (f: WireFrame)
    requires nodes.Length >= 2
    modifies nodes
    ensures Advanced(old(nodes[..]), nodes[..], Some(f), true, anchor, pinLast, cursor, detached, norm)
    ensures Pos(nodes[0]) == anchor
    ensures pinLast && nodes.Length >= 3 ==> Pos(nodes[nodes.Length - 1]) == cursor
  {
    StepWire(nodes, anchor, pinLast, cursor, norm);
    f := RenderWire(nodes[..], detached, anchor, norm);
  }

  /** The loop over the wires of one frame. */
  method StepWires(wires: seq<array<Node>>, anchors: seq<Point>, elements: seq<bool>, pinLast: bool,
                   cursor: Point, detached: bool, norm: (real, real) -> real)
    returns (frames: seq<Option<WireFrame>>)
    requires forall k :: 0 <= k < |wires| ==> wires[k].Length >= 2
    requires forall j, k :: 0 <= j < k < |wires| ==> wires[j] != wires[k]
    modifies wires
    ensures |frames| == |wires|
    ensures forall k :: 0 <= k < |wires| ==>
              WireDone(old(wires[k][..]), wires[k][..], frames[k], k, anchors, elements, pinLast, cursor, detached, norm)
  {
    frames := [];
    ghost var before := seq(|wires|, k requires 0 <= k < |wires| reads wires => wires[k][..]);
    ghost var current := before;
    var index := 0;
    while index < |wires|
      invariant 0 <= index <= |wires|
      invariant |frames| == index && |current| == |before| == |wires|
      invariant forall k :: 0 <= k < |wires| ==> before[k] == old(wires[k][..])
      invariant forall k :: 0 <= k < |wires| ==> wires[k][..] == current[k]
      invariant forall k :: index <= k < |wires| ==> current[k] == before[k]
      invariant AllDone(before, current, frames, index, anchors, elements, pinLast, cursor, detached, norm)
    {
      var nodes := wires[index];
      assert forall k :: 0 <= k < |wires| && k != index ==> wires[k] != nodes;
      var f := StepOne(wires, index, anchors, elements, pinLast, cursor, detached, norm);
      AllDoneStep(before, current, frames, index, nodes[..], f, anchors, elements, pinLast, cursor, detached, norm);
      frames := frames + [f];
      current := current[index := nodes[..]];
      index := index + 1;
    }
    forall k | 0 <= k < |wires|
      ensures WireDone(old(wires[k][..]), wires[k][..], frames[k], k, anchors, elements, pinLast, cursor, detached, norm)
    {
      assert WireDone(before[k], current[k], frames[k], k, anchors, elements, pinLast, cursor, detached, norm);
    }
  }

  /** What a frame does to wire `k`, stated on values: the step of `Advanced`,
      and for a drawn wire the pins it leaves in place (the first node on its
      anchor; with the free end attached and at least three nodes, the last
      node on the cursor). */
  ghost predicate WireDone(before: seq<Node>, after: seq<Node>, frame: Option<WireFrame>, k: nat, anchors: seq<Point>,
                           elements: seq<bool>, pinLast: bool, cursor: Point, detached: bool, norm: (real, real) -> real)
  {
    Advanced(before, after, frame, Stepped(k, anchors, elements),
             if k < |anchors| then anchors[k] else Point(0.0, 0.0), pinLast, cursor, detached, norm)
    && (Stepped(k, anchors, elements) ==>
          |after| >= 2 && Pos(after[0]) == anchors[k]
          && (pinLast && |after| >= 3 ==> Pos(after[|after| - 1]) == cursor))
  }

  /** The frame loop has done its work on the first `n` wires. */
  ghost predicate AllDone(before: seq<seq<Node>>, current: seq<seq<Node>>, frames: seq<Option<WireFrame>>, n: nat,
                          anchors: seq<Point>, elements: seq<bool>, pinLast: bool, cursor: Point, detached: bool,
                          norm: (real, real) -> real)
  {
    n <= |before| && n <= |current| && n <= |frames|
    && forall k {:trigger WireDone(before[k], current[k], frames[k], k, anchors, elements, pinLast, cursor, detached, norm)} ::
         0 <= k < n ==> WireDone(before[k], current[k], frames[k], k, anchors, elements, pinLast, cursor, detached, norm)
  }

  lemma AllDoneStep(before: seq<seq<Node>>, current: seq<seq<Node>>, frames: seq<Option<WireFrame>>, n: nat,
                    after: seq<Node>, f: Option<WireFrame>, anchors: seq<Point>, elements: seq<bool>, pinLast: bool,
                    cursor: Point, detached: bool, norm: (real, real) -> real)
    requires |frames| == n < |before| == |current|
    requires AllDone(before, current, frames, n, anchors, elements, pinLast, cursor, detached, norm)
    requires WireDone(before[n], after, f, n, anchors, elements, pinLast, cursor, detached, norm)
    ensures AllDone(before, current[n := after], frames + [f], n + 1, anchors, elements, pinLast, cursor, detached, norm)
  {
    var c := current[n := after];
    var fs := frames + [f];
    forall k | 0 <= k < n + 1
      ensures WireDone(before[k], c[k], fs[k], k, anchors, elements, pinLast, cursor, detached, norm)
    {
      if k < n {
        assert c[k] == current[k] && fs[k] == frames[k];
      }
    }
  }

  /** The loop body for wire `index`: step and render it when it is drawn,
      otherwise leave it alone. */
  method StepOne(wires: seq<array<Node>>, index: nat, anchors: seq<Point>, elements: seq<bool>, pinLast: bool,
                 cursor: Point, detached: bool, norm: (real, real) -> real)
    returns (frame: Option<WireFrame>)
    requires index < |wires| && wires[index].Length >= 2
    modifies wires[index]
    ensures WireDone(old(wires[index][..]), wires[index][..], frame, index, anchors, elements, pinLast, cursor, detached, norm)
  {
    var nodes := wires[index];
    if index < |elements| && elements[index] && index < |anchors| {
      var f := StepAndRender(nodes, anchors[index], pinLast, cursor, detached, norm);
      frame := Some(f);
    } else {
      frame := None;
    }
  }

  class Simulation {
    var wires: seq<array<Node>>
    var isDetached: bool
    var scrolled: bool
    var cursorDotVisible: bool
    var initialized: bool
    var time: nat

    ghost predicate Valid()
      reads this
    {
      (forall k :: 0 <= k < |wires| ==> wires[k].Length == WIRE_SEGMENTS)
      && (forall j, k :: 0 <= j < k < |wires| ==> wires[j] != wires[k])
      && (initialized ==> |wires| == WIRE_COUNT)
    }

    function AttachmentFlags(): Flags
      reads this
    {
      Flags(isDetached, scrolled, cursorDotVisible)
    }

    constructor ()
      ensures Valid() && wires == [] && !initialized && time == 0
      ensures AttachmentFlags() == Flags(false, false, false)
    {
      wires := [];
      isDetached := false;
      scrolled := false;
      cursorDotVisible := false;
      initialized := false;
      time := 0;
    }

    /** `initializeWires` up to its closing `animate()`: five new wires hanging
        at rest from their anchors, and the starting attachment state. */
    method SetUpWires(anchors: seq<Point>, mouse: Point, scrollY: real, width: real)
      modifies this
      ensures Valid() && initialized && time == old(time)
      ensures |wires| == WIRE_COUNT
      ensures forall i :: 0 <= i < WIRE_COUNT ==> fresh(wires[i])
      ensures forall i, j :: 0 <= i < WIRE_COUNT && 0 <= j < WIRE_SEGMENTS ==>
                wires[i][j] == RestNode(AnchorFor(anchors, i, mouse), j)
      ensures isDetached == StartsDetached(scrollY, width)
      ensures isDetached ==> scrolled && !cursorDotVisible
      ensures !isDetached ==> scrolled == old(scrolled) && cursorDotVisible
    {
      var isMobile := width <= 768.0;
      var shouldStartDetached := scrollY > 100.0 || isMobile;
      var built: seq<array<Node>> := [];
      for i := 0 to WIRE_COUNT
        invariant |built| == i
        invariant forall k :: 0 <= k < i ==> fresh(built[k]) && built[k].Length == WIRE_SEGMENTS
        invariant forall k, j :: 0 <= k < i && 0 <= j < WIRE_SEGMENTS ==> built[k][j] == RestNode(AnchorFor(anchors, k, mouse), j)
        invariant forall j, k :: 0 <= j < k < i ==> built[j] != built[k]
        invariant unchanged(this)
      {
        var anchor := if i < |anchors| then anchors[i] else mouse;
        var nodes := NewChain(anchor);
        built := built + [nodes];
      }
      wires := built;
      if shouldStartDetached {
        isDetached := true;
        scrolled := true;
        cursorDotVisible := false;
      } else {
        isDetached := false;
        cursorDotVisible := true;
      }
      initialized := true;
    }

    /** `initializeWires`: the wires are set up at rest and then one frame is
        run at once. On a mobile-width viewport that frame does nothing, so
        the wires stay at rest and detached. Otherwise the frame counter
        advances, the attachment state makes the frame's transition from
        the starting state (re-attaching at once in the re-attach zone), and
        every drawn wire takes one step from its rest chain. */
    method InitializeWires(anchors: seq<Point>, mouse: Point, scrollY: real, width: real, elements: seq<bool>,
                           norm: (real, real) -> real)
      returns (frames: seq<Option<WireFrame>>)
      modifies this
      ensures Valid() && initialized && |wires| == WIRE_COUNT
      ensures forall i :: 0 <= i < WIRE_COUNT ==> fresh(wires[i])
      ensures IsMobile(width) ==>
                time == old(time) && frames == [] && AttachmentFlags() == Flags(true, true, false)
                && forall i :: 0 <= i < WIRE_COUNT ==> wires[i][..] == RestChain(AnchorFor(anchors, i, mouse))
      ensures !IsMobile(width) ==>
                var start := StartFlags(StartsDetached(scrollY, width), old(scrolled));
                var c := Centroid(anchors);
                var cursor := CursorConnect(mouse);
                var should := ShouldBeDetached(scrollY, norm(cursor.x - c.x, cursor.y - c.y), width);
                time == old(time) + 1
                && AttachmentFlags() == Transition(start, should)
                && |frames| == WIRE_COUNT
                && forall k :: 0 <= k < WIRE_COUNT ==>
                     WireDone(RestChain(AnchorFor(anchors, k, mouse)), wires[k][..], frames[k], k, anchors, elements,
                              !isDetached, cursor, isDetached, norm)
    {
      SetUpWires(anchors, mouse, scrollY, width);
      RestChains(wires, anchors, mouse);
      frames := Animate(width, scrollY, mouse, anchors, elements, norm);
    }

    /** The arrays built by `SetUpWires` hold the rest chains. */
    ghost method RestChains(ws: seq<array<Node>>, anchors: seq<Point>, mouse: Point)
      requires |ws| == WIRE_COUNT
      requires forall i :: 0 <= i < WIRE_COUNT ==> ws[i].Length == WIRE_SEGMENTS
      requires forall i, j :: 0 <= i < WIRE_COUNT && 0 <= j < WIRE_SEGMENTS ==>
                 ws[i][j] == RestNode(AnchorFor(anchors, i, mouse), j)
      ensures forall i :: 0 <= i < WIRE_COUNT ==> ws[i][..] == RestChain(AnchorFor(anchors, i, mouse))
    {
      forall i | 0 <= i < WIRE_COUNT
        ensures ws[i][..] == RestChain(AnchorFor(anchors, i, mouse))
      {
        assert forall j :: 0 <= j < WIRE_SEGMENTS ==> ws[i][..][j] == RestChain(AnchorFor(anchors, i, mouse))[j];
      }
    }

    /** The attachment update of a frame: on a change of state, the 'scrolled'
        class and the cursor dot follow it. */
    method UpdateAttachment(shouldBeDetached: bool)
      modifies this`isDetached, this`scrolled, this`cursorDotVisible
      ensures AttachmentFlags() == Transition(old(AttachmentFlags()), shouldBeDetached)
    {
      if shouldBeDetached && !isDetached {
        isDetached := true;
        scrolled := true;
        cursorDotVisible := false;
      } else if !shouldBeDetached && isDetached {
        isDetached := false;
        scrolled := false;
        cursorDotVisible := true;
      }
    }

    /** `animate`: one frame. On a mobile-width viewport, or before the wires
        exist, it does nothing at all. Otherwise it counts the frame, updates the
        attachment state from the cursor's distance to the anchors' centroid, and
        steps and renders each wire that has an element and an anchor; the others
        are left untouched. */
    method Animate(width: real, scrollY: real, mouse: Point, anchors: seq<Point>, elements: seq<bool>,
                   norm: (real, real) -> real)
      returns (frames: seq<Option<WireFrame>>)
      requires Valid()
      modifies this, wires
      ensures Valid() && wires == old(wires) && initialized == old(initialized)
      ensures IsMobile(width) || !initialized ==>
                time == old(time) && AttachmentFlags() == old(AttachmentFlags()) && frames == []
                && forall k :: 0 <= k < |wires| ==> wires[k][..] == old(wires[k][..])
      ensures !IsMobile(width) && initialized ==>
                var c := Centroid(anchors);
                var cursor := CursorConnect(mouse);
                var should := ShouldBeDetached(scrollY, norm(cursor.x - c.x, cursor.y - c.y), width);
                time == old(time) + 1
                && AttachmentFlags() == Transition(old(AttachmentFlags()), should)
                && |frames| == |wires|
                && forall k :: 0 <= k < |wires| ==>
                     WireDone(old(wires[k][..]), wires[k][..], frames[k], k, anchors, elements, !isDetached, cursor, isDetached, norm)
    {
      frames := [];
      if width <= 768.0 {
        return;
      }
      if !initialized {
        return;
      }
      time := time + 1;

      var avg := ComputeCentroid(anchors);
      var cursor := Point(mouse.x + CURSOR_CONNECTION_OFFSET_X, mouse.y + CURSOR_CONNECTION_OFFSET_Y);
      var distToText := norm(cursor.x - avg.x, cursor.y - avg.y);
      var shouldBeDetached := ShouldBeDetached(scrollY, distToText, width);
      UpdateAttachment(shouldBeDetached);

      var isMobileFrame := width <= 768.0;
      var pinLast := !isDetached && !isMobileFrame;
      assert pinLast == !isDetached;
      frames := StepWires(wires, anchors, elements, pinLast, cursor, isDetached, norm);
    }
  }
}
