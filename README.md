# Wire cables, arc ticker and sticky cards — a Dafny model

This project models the computational core of the page script `script.js`.
It has three parts.

1. **Wire cables.** Five simulated cables hang from the last letters of
   words in the heading. Each cable is a chain of 14 nodes with a current
   and a previous position. Every frame does the following:
   - node 0 is pinned to the word's anchor;
   - every other node takes a damped Verlet step with gravity;
   - 25 relaxation passes pull adjacent nodes back towards the rest
     distance;
   - while the cable is attached, each pass first re-pins the free end to
     the cursor;
   - a coincident pair is skipped.

   An attachment controller decides each frame whether the free ends
   follow the cursor. The inputs are the scroll offset, the cursor's
   distance to the centroid of the anchors (with a 300-unit re-attach
   zone) and the viewport width. The page flags follow the decision.
   Each cable is then drawn as a curve of `M`/`Q`/`L` commands, with a
   stroke colour that depends on its tension and an opacity that depends
   on whether it is detached.
2. **Arc ticker.** A row of 18 brand cards (nine images, twice) scrolls
   sideways along an arc. A frame does three things:
   - it advances an offset by auto-play plus a scroll-driven velocity;
   - it wraps the offset into half the row;
   - it recycles each card by whole half-rows so that it never lies right of
     the visible band (a card already in the band stays put, and when half a
     row fits in the band plus one card every card ends inside it), then poses
     it by its distance from the screen centre.

   Swipes and the prev/next buttons snap to a card with a 400 ms cubic
   ease-out.
3. **Sticky cards.** On every scroll, each stuck project card is scaled by
   `max(0.8, 1 - depth * 0.05)`. Its depth is the number of stuck cards
   after it.

Module by module:

- `Basics`: points, `Option`, `Math.round`, and the abstraction of
  `Math.sqrt`.
  - The length of a vector is a parameter `norm`.
  - `IsEuclidean(norm)` states that it is non-negative and squares to
    `dx² + dy²`.
  - Only the lemmas that need it assume it.
- `WirePhysics`: the step of one cable, in two forms.
  - As functions on `seq<Node>` (`Verlet`, `Relax`, `RelaxAt`, `Pass`,
    `Iterate`, `FrameStep`) with their lemmas.
  - As methods that do the same updates in place on an `array<Node>`,
    as the source mutates its node objects.
- `WireRender`: the path commands, tension, colour and opacity.
- `Attachment`: the detach decision, the flag transition and the
  centroid.
- `WireSimulation`: the class `Simulation`, which holds the five node
  arrays, the attachment flags and the frame counter, with
  `InitializeWires` and `Animate`.
- `ArcTicker`: the tier configuration, wraps, recycling, poses, snapping
  and easing, and the class `Ticker` holding the mutable ticker state
  (offset, velocity, touch and animation state).
- `StickyCards`: the stuck flags, the filtered list, `findIndex` and the
  scale of each card.

**Two facts about the code that shape the model:**

- **Rest distance.** `SEGMENT_LENGTH` is WIRE_LENGTH / WIRE_SEGMENTS =
  150/14, although a chain of 14 nodes has only 13 gaps, so a new wire
  spans 13/14 of WIRE_LENGTH (`RestChainSpan`).
- **Resize.** The resize handler writes `state.wireRestLength`, which the
  physics never reads, so the rest length is a constant.

## Model

| member | source | states |
|---|---|---|
| Basics.JsRound | script.js:755-757 | `Math.round` returns the integer r with r − ½ ≤ x < r + ½ (halves round up) |
| Basics.NormZeroIff | script.js:690-691 | for a Euclidean length, `dist === 0` holds exactly when both coordinate differences are zero, i.e. when the two nodes coincide |
| WirePhysics.Verlet | script.js:661-669 | the old position becomes the current one; the new displacement is the previous one damped by 0.96, plus 0.4 of gravity in y |
| WirePhysics.VerletFromRest | script.js:661-669 | a node at rest keeps its x and drops by exactly 0.4 |
| WirePhysics.VerletSpeedBounded | script.js:661-669 | a falling speed in [0, 10] stays in [0, 10] (10 is the terminal speed 0.4/0.04); horizontal speed never grows |
| WirePhysics.RelaxSpec | script.js:692-710 | after relaxing a pair, the separation vector is scaled to SEGMENT_LENGTH/dist. A fixed first node does not move, a fixed last node does not move, and two free nodes keep their midpoint. The old positions are untouched |
| WirePhysics.RelaxRestoresSegment | script.js:692-710 | with the true length, a relaxed pair ends exactly SEGMENT_LENGTH apart |
| WirePhysics.RelaxAt | script.js:684-711 | relaxing pair (i, i+1) changes no other node and never moves node 0. While attached, the last pair, when it is not also the first pair, never moves the last node. A pair of length 0 leaves the chain unchanged |
| WirePhysics.CoincidentPairSkipped | script.js:690-691 | two coincident nodes are left exactly as they are |
| WirePhysics.PassFrom | script.js:684-711 | the in-order sweep over pairs i, i+1, … keeps the chain length |
| WirePhysics.Pass | script.js:678-711 | one pass: the optional cursor pin, then the sweep; it keeps the chain length |
| WirePhysics.Iterate | script.js:673-712 | k passes keep the chain length |
| WirePhysics.FrameStep | script.js:653-712 | a frame (integration, then 25 passes) keeps the chain length |
| WirePhysics.PassFromKeepsFirst | script.js:697-711 | a sweep that starts at pair 1 or later never touches node 0 |
| WirePhysics.PassKeepsFirst | script.js:684-711 | a relaxation pass never moves node 0 of a chain of two or more nodes |
| WirePhysics.PassFromKeepsLast | script.js:701-704 | while attached, no sweep moves the last node of a chain of three or more |
| WirePhysics.PassPinsLast | script.js:678-682 | while attached, after a pass the last node of a chain of three or more is exactly at the cursor |
| WirePhysics.TwoNodePassMovesCursorEnd | script.js:697-700 | with only two nodes, the node-0 rule moves the pinned end off the cursor (unless it is already at rest distance, and the cursor is not on node 0), so the three-node bound is needed |
| WirePhysics.IterateKeepsFirst | script.js:673-712 | any number of passes keeps node 0 |
| WirePhysics.IteratePinsLast | script.js:673-712 | on a chain of at least three nodes, after one or more attached passes the last node is at the cursor |
| WirePhysics.FrameStepPins | script.js:653-712 | after a frame, node 0 is exactly at that frame's anchor; while attached, the last node of a chain of three or more is exactly at the cursor |
| WirePhysics.Integrate | script.js:653-670 | the in-place `forEach` leaves the array equal to the integrated chain: node 0 at the anchor, every other node one Verlet step on |
| WirePhysics.RelaxPairInPlace | script.js:685-710 | the in-place relaxation of pair i equals `RelaxAt` on the old contents |
| WirePhysics.RelaxPass | script.js:678-711 | one `for it` iteration in place equals `Pass` on the old contents |
| WirePhysics.Solve | script.js:673-712 | the `for it` loop in place equals 25 passes on the old contents |
| WirePhysics.StepWire | script.js:653-712 | the array afterwards is `FrameStep` of the old contents; node 0 is at the anchor; while attached, the last node is at the cursor |
| WireRender.WirePathQuadCount | script.js:525-529 | a chain of n ≥ 2 nodes is drawn with exactly n − 2 quadratic segments |
| WireRender.GenerateWirePath | script.js:521-533 | fewer than two nodes give an empty path. Otherwise: a move to node 0; for each inner node i, a `Q` with control i and endpoint the midpoint of i and i+1; a line to the last node |
| WireRender.Tension | script.js:715-718 | tension lies in [0, 1]; it is 0 up to 90% of the wire length and 1 from 130% on |
| WireRender.TensionMonotone | script.js:718 | tension never decreases with the end-to-end distance |
| WireRender.TensionStrictInRange | script.js:718 | between 90% and 130%, tension grows strictly |
| WireRender.TensionColor | script.js:755-757 | for tension in [0, 1]: r ∈ [225, 255], g ∈ [87, 107], b ∈ [38, 53]; slack gives rgb(255, 107, 53), taut gives rgb(225, 87, 38) |
| WireRender.TensionColorDarkens | script.js:755-757 | more tension never brightens any component |
| WireRender.Opacity | script.js:741-745 | opacity is 1 exactly when attached and 0.3 when detached |
| WireRender.RenderWire | script.js:715-758 | the frame's path, stroke, opacity and dot are those of the chain, with the colour bounds |
| Attachment.ShouldBeDetached | script.js:616-628 | detached ⇔ mobile width, or scrolled past 100 with the cursor ≥ 300 from the centroid |
| Attachment.NotScrolledStaysAttached | script.js:619-622 | not scrolled past 100 and not mobile ⇒ attached |
| Attachment.ReattachZone | script.js:619-622 | scrolled past 100 but within 300 of the text, not mobile ⇒ attached |
| Attachment.ScrolledAndFarDetaches | script.js:619-622 | scrolled past 100 and at least 300 away ⇒ detached |
| Attachment.MobileAlwaysDetached | script.js:625-628 | width ≤ 768 ⇒ detached, whatever the scroll or distance |
| Attachment.StartsDetached | script.js:539-540 | the start rule is the per-frame rule with the cursor just outside the re-attach distance (scrolled past 100 or mobile) |
| Attachment.StartVersusFrame | script.js:539-540 | the start rule and the frame rule disagree exactly in the re-attach zone; a start that is attached stays attached on the first frame |
| Attachment.Transition | script.js:630-638 | `isDetached` becomes the decision. On a change, 'scrolled' equals it and the dot's visibility is its negation. Without a change, nothing changes |
| Attachment.TransitionIdempotent | script.js:630-638 | repeating the step with the same decision changes nothing |
| Attachment.TransitionKeepsConsistent | script.js:630-638 | flags that agree with `isDetached` keep agreeing |
| Attachment.ComputeCentroid | script.js:598-607 | the averaging loop yields the mean of the anchors, or (0, 0) when there are none |
| Attachment.CentroidInBox | script.js:598-607 | the centroid of a non-empty anchor list lies in every box containing all the anchors |
| WireSimulation.RestChainShape | script.js:549-558 | a new node j is at rest, node 0 is at the anchor, and consecutive nodes are SEGMENT_LENGTH apart vertically |
| WireSimulation.RestChainSpan | script.js:479-482 | a new wire spans 13/14 of WIRE_LENGTH: more than 90%, less than 100% |
| WireSimulation.NewChain | script.js:546-558 | a fresh array of 14 nodes, node j being the rest node j |
| WireSimulation.StepAndRender | script.js:653-758 | the wire advances by `FrameStep` and is rendered from its new nodes, with both pins |
| WireSimulation.StepWires | script.js:646-759 | each wire with an element and an anchor is stepped and rendered; every other wire is untouched and has no frame; the pins hold for stepped wires |
| WireSimulation.StepOne | script.js:646-650 | one pass of the per-wire loop: a wire without element or anchor is skipped untouched and gets no frame; any other wire is stepped and rendered, with its first node on the anchor and, when attached, its last node on the cursor |
| WireSimulation.Simulation.constructor | script.js:472-484 | no wires, not initialised, frame counter 0, attached, no page flags set |
| WireSimulation.Simulation.SetUpWires | script.js:535-584 | five fresh wires, wire i at rest from its anchor or from the cursor when it has none. `isDetached` follows the start rule, with the matching flags |
| WireSimulation.Simulation.InitializeWires | script.js:535-585 | the setup followed by the closing `animate()`: on mobile widths the wires stay at rest and detached and nothing is drawn; otherwise the counter advances, the flags make the frame's transition from the start flags, and each drawn wire takes one step from its rest chain, pinned to its anchor and, while attached, to the cursor |
| WireSimulation.RestChain | script.js:545-558 | a new wire has WIRE_SEGMENTS nodes and starts at its anchor |
| WireSimulation.StartFlags | script.js:569-580 | the flags before the first frame are the transition, from an attached page with the dot shown, to the start decision |
| WireSimulation.FirstFrameReattaches | script.js:538-585 | in the re-attach zone the wires are created detached and the closing frame attaches them at once |
| WireSimulation.Simulation.UpdateAttachment | script.js:630-638 | the flags become `Transition` of the old ones |
| WireSimulation.Simulation.Animate | script.js:588-760 | on mobile widths or before initialisation, nothing changes. Otherwise: the counter is incremented; the flags make the transition computed from the centroid distance; each drawable wire takes one frame, pinned to its anchor and, while attached, to the cursor |
| ArcTicker.TierConfig | script.js:203-224 | three tiers. Every tier has a positive card size and a positive card step; the gap is negative exactly up to width 1024 |
| ArcTicker.TierMonotone | script.js:203-224 | wider viewports never have less rotation or less scroll boost |
| ArcTicker.VelocityDecays | script.js:279-282 | without scroll input the velocity is multiplied by 0.92 and shrinks strictly in magnitude |
| ArcTicker.ScrollPushes | script.js:276-282 | inside the scroll zone, scrolling down pushes the velocity above the decayed value and scrolling up pushes it below |
| ArcTicker.WrapOffset | script.js:290-292 | the wrap shifts by at most one half-row; from [−half, 2·half) it lands in [0, half); offsets already in range are kept |
| ArcTicker.WrapVariantsAgree | script.js:428-430 | the two sequential tests of `animateToOffset` agree with the `else if` wrap of the frame |
| ArcTicker.RaiseAbove | script.js:307 | the first recycle loop ends at or above −cardWidth, less than one half-row above it, and leaves positions already there unchanged |
| ArcTicker.LowerBelow | script.js:308 | the second loop ends at or below screenWidth + cardWidth, less than one half-row below it, and leaves positions already there unchanged |
| ArcTicker.Recycled | script.js:307-308 | a recycled card never lies right of the band; a card in the band stays put; when half a row fits in the band plus a card, every card ends in the band |
| ArcTicker.RaiseShift | script.js:307 | the first loop moves a card by a whole number of half-rows |
| ArcTicker.LowerShift | script.js:308 | the second loop moves a card by a whole number of half-rows |
| ArcTicker.RecycledShift | script.js:307-308 | recycling moves a card by a whole number of half-rows (up minus down) |
| ArcTicker.Recycle | script.js:307-308 | the two `while` loops compute `Recycled` |
| ArcTicker.ClampedNorm | script.js:310-314 | the distance from the centre in half-screens lies in [−1.5, 1.5] |
| ArcTicker.PoseBounds | script.js:316-329 | drop in [0, 2.25·mult], rotation within ±1.5·maxRotation, scale between the mobile or the wide minimum and maximum, z-index in [−50, 100] |
| ArcTicker.PoseSymmetric | script.js:316-329 | mirrored cards have the same drop, scale and order, and opposite rotations |
| ArcTicker.PoseFallsOff | script.js:316-329 | further from the centre, a card drops lower, is never larger and never higher in the stack |
| ArcTicker.CenteredPose | script.js:316-329 | the centred card is upright, undropped, at full scale and on top (z = 100) |
| ArcTicker.Layout | script.js:302-330 | the layout of n cards has n poses |
| ArcTicker.LayoutIndex | script.js:302-330 | entry i of the layout is card i's pose |
| ArcTicker.BaseX | script.js:303 | `index * step` equals the repeated sum of the step |
| ArcTicker.PlaceCard | script.js:303-329 | the per-card body yields card i's pose |
| ArcTicker.CardPoses | script.js:302-330 | the `forEach` yields the layout of all cards |
| ArcTicker.CardAtShape | script.js:302-329 | card i sits a whole number of half-rows from i·step − offset, never right of the band, posed by its clamped distance |
| ArcTicker.SwipeTargetIndex | script.js:377-379 | a left swipe targets an index in (c + 0.5, c + 1.5]; a right swipe one in (c − 1.5, c − 0.5] |
| ArcTicker.PrevTargetIndex | script.js:403 | prev targets an index in (c − 1.6, c − 0.6] |
| ArcTicker.NextTargetIndex | script.js:413 | next targets an index in (c + 0.6, c + 1.6] |
| ArcTicker.SnapRoundTrip | script.js:375-381 | at the snap offset of card k, the current index is exactly k |
| ArcTicker.StepsFromSnapped | script.js:397-416 | from a snapped card, prev, next and both swipe directions move exactly one card |
| ArcTicker.SnappedCardCentered | script.js:389-395 | at card k's snap offset, card k's centre is at the screen centre |
| ArcTicker.InitialOffsetCentersMiddleCard | script.js:256-259 | the start offset is card 4's snap offset on mobile; on wide viewports it is off by exactly containerLeft |
| ArcTicker.Progress | script.js:425 | progress is at most 1: elapsed/400 before the end and 1 after it |
| ArcTicker.EaseOutCubic | script.js:426 | the ease maps 0 to 0 and 1 to 1 |
| ArcTicker.EaseBounds | script.js:426 | on [0, 1] the ease stays in [p, 1] (ahead of linear) |
| ArcTicker.EaseMonotone | script.js:426 | the ease is non-decreasing |
| ArcTicker.AnimationEnds | script.js:423-431 | from 400 ms on, the step lands on the wrapped target and the chain stops |
| ArcTicker.AnimationBetween | script.js:424-427 | before the end, the unwrapped offset lies between start and target |
| ArcTicker.DragComposes | script.js:355-364 | two drag moves equal one move from the first point to the last |
| ArcTicker.Ticker.constructor | script.js:188-259 | tier config; 18 cards when there is a container; the middle card's start offset; zero velocity; auto-play on |
| ArcTicker.Ticker.UpdateConfigFull | script.js:226-232 | the config becomes the tier's, and the card step and the total width (cards × step) agree with it |
| ArcTicker.Ticker.AdvanceOffset | script.js:269-292 | lastScrollY is the current scroll; velocity is `NextVelocity`; the offset is the wrap of old offset plus the advance |
| ArcTicker.Ticker.Frame | script.js:261-333 | with no cards, nothing changes. Otherwise the state advances as in `AdvanceOffset`, and the poses are the layout at the new offset |
| ArcTicker.Ticker.TouchStart | script.js:345-353 | with a touch: auto-play stops, the start and last x are the touch, dragging starts, velocity is 0. With no touch, nothing changes |
| ArcTicker.Ticker.TouchMove | script.js:355-364 | while dragging with a touch, the offset moves by 1.5 × the finger's delta; otherwise nothing changes |
| ArcTicker.Ticker.StartAnimation | script.js:418-422 | a chain starts at the current offset and time, with distance to the target |
| ArcTicker.Ticker.TouchEnd | script.js:366-386 | a swipe over 50 snaps to the swipe target and animates there; a shorter one sets velocity to swipe × 0.05 and starts nothing; dragging stops |
| ArcTicker.Ticker.PrevClick | script.js:397-406 | auto-play stops and a chain starts towards the prev target's snap offset |
| ArcTicker.Ticker.NextClick | script.js:407-416 | auto-play stops and a chain starts towards the next target's snap offset |
| ArcTicker.Ticker.AnimateStep | script.js:423-432 | the offset is the wrapped eased position; the chain continues exactly while progress < 1 |
| StickyCards.IsStuck | script.js:156-159 | a card whose `top` does not parse is never stuck; a card at or above its sticky `top` is stuck |
| StickyCards.StuckClosedUpwards | script.js:156-159 | stuck is closed under a smaller `rectTop` (higher on the page): with the same sticky `top`, a card whose top is no larger than that of a stuck card is stuck |
| StickyCards.DepthScale | script.js:170-171 | scale in [0.8, 1]; it is 1 exactly at depth 0, 1 − 0.05·depth below depth 4, and 0.8 from 4 on |
| StickyCards.DepthScaleMonotone | script.js:170-171 | deeper cards are never larger |
| StickyCards.DepthScaleStrict | script.js:170-171 | below depth 4, deeper cards are strictly smaller |
| StickyCards.StuckIndices | script.js:163 | the filtered list has one entry per stuck card, each a stuck card's index |
| StickyCards.StuckIndicesComplete | script.js:163 | every stuck card is in the filtered list |
| StickyCards.FindIndex | script.js:168 | `findIndex` returns the first position holding the value, or −1 exactly when it is absent |
| StickyCards.StuckPosition | script.js:168 | a stuck card's position in the filtered list is the number of stuck cards before it |
| StickyCards.DepthIsStuckAfter | script.js:168-169 | the computed depth is the number of stuck cards after the card |
| StickyCards.OnScroll | script.js:153-178 | each card's transform is `StackScale` of the stuck flags computed from its rect and sticky top |
| StickyCards.StackTransforms | script.js:165-177 | the second `forEach` gives every card its `StackScale`: a stuck card is scaled by its depth, any other card has none |
| StickyCards.ActiveIffStuck | script.js:165-177 | exactly the stuck cards are active, with scales in [0.8, 1] |
| StickyCards.FrontCardFullSize | script.js:168-171 | a stuck card has full size exactly when no stuck card follows it |
| StickyCards.StackOrdered | script.js:168-171 | among stuck cards, a later card is never smaller; it is strictly larger while fewer than four stuck cards follow it |

## Left out

- Browser plumbing is outside the model: `requestAnimationFrame` and `setTimeout` scheduling, event-listener registration, `sessionStorage`, the timer intro, the footer `IntersectionObserver`, scroll-reveal word splitting and the nav-CTA hiding; so are class, style and attribute writes. The model's methods are the bodies that the browser calls.
- Layout measurements are parameters, not code. This covers `getLastLetterPosition`, `getBoundingClientRect`, `getComputedStyle`, `window.innerWidth`/`innerHeight`/`scrollY`, the cursor and `performance.now()`.
- `Math.sqrt` is the parameter `norm`. Floating-point rounding is not modelled: coordinates are exact reals.
- Numerical convergence of the solver (how close the gaps end to `SEGMENT_LENGTH`) is floating-point behaviour, so it is not stated.
- The nodes' `forceX`/`forceY` fields are always 0 and never read, so they are left out.
- The vibration loops add and subtract zero offsets, so they have no effect and are left out.
- The SVG `d` string and the `rgb(...)` string depend on number formatting. The model produces commands and integer components instead.
- `state.wireRestLength` and `state.isDesktop` are written on resize but never read by the core, so they are left out.
- `ArcTicker.ClampedNorm` and the members that use it require a positive screen width. At width 0 the source divides by zero.
- `WireSimulation.Simulation.Animate` models one `animate` call. The `cursorDot` position writes are left out.
- `ArcTicker.Ticker.AnimateStep`: only the most recent `animateToOffset` chain is modelled. Older chains that the source leaves running beside a new one are not.
- `ArcTicker.Ticker.constructor`: the initial `MAX_ROTATION = 35` and card step 340 are overwritten at startup and left out. So are the card `style.width`/`height` writes.
- `StickyCards.IsStuck`: `parseInt` of the computed `top` is taken as given, as an optional integer (`None` for a non-numeric value). Elements are identified by their index, so `findIndex` on the card element is modelled as a search by index.
- The `--stack-index` style set on each sticky card at startup is a style write, so it is left out.
