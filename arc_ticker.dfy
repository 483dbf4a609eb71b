/** The brand arc ticker: a row of 18 cards (the nine brand images twice)
    scrolling sideways along an arc. Each frame advances a horizontal offset
    (auto-play plus a scroll-driven velocity), wraps it into half the row, and
    places every card by recycling its position by whole half-rows (never right
    of the visible band, unchanged inside it, and inside it whenever half a row
    fits in the band plus one card) and deriving drop, rotation, scale and
    stacking order from its distance to the screen centre. Swipes and the prev/next buttons snap to a card through an
    eased animation. */
module ArcTicker {
  import opened Basics

  const BASE_SPEED: real := 0.8
  const VELOCITY_DECAY: real := 0.92
  const SCROLL_ZONE_FRACTION: real := 0.66
  const SWIPE_THRESHOLD: real := 50.0
  const DRAG_SENSITIVITY: real := 1.5
  const RELEASE_MOMENTUM: real := 0.05
  const ANIMATION_DURATION: real := 400.0
  const BRAND_IMAGE_COUNT: nat := 9
  const MAX_NORM: real := 1.5
  const MOBILE_MAX_WIDTH: real := 768.0

  // ---------------------------------------------------------------------
  // Configuration
  // ---------------------------------------------------------------------

  datatype TickerConfig = TickerConfig(cardWidth: real, cardHeight: real, cardGap: real,
                                       maxRotation: real, scrollBoost: real)

  /** `updateTickerConfig`: three viewport tiers. The two narrow tiers overlap
      neighbouring cards (negative gap); every tier keeps a positive card step. */
  function TierConfig(width: real): (c: TickerConfig)
    ensures c.cardWidth > 0.0 && c.cardHeight > 0.0 && c.cardWidth + c.cardGap > 0.0
    ensures c.maxRotation > 0.0 && c.scrollBoost > 0.0
    ensures c.cardGap < 0.0 <==> width <= 1024.0
  {
    if width <= 768.0 then TickerConfig(280.0, 350.0, -20.0, 14.0, 0.04)
    else if width <= 1024.0 then TickerConfig(260.0, 330.0, -15.0, 20.0, 0.07)
    else TickerConfig(320.0, 400.0, 20.0, 25.0, 0.1)
  }

  /** Wider viewports tilt the cards more and react more strongly to scrolling. */
  lemma TierMonotone(w1: real, w2: real)
    requires w1 <= w2
    ensures TierConfig(w1).maxRotation <= TierConfig(w2).maxRotation
    ensures TierConfig(w1).scrollBoost <= TierConfig(w2).scrollBoost
  {
  }

  // ---------------------------------------------------------------------
  // Offset and velocity
  // ---------------------------------------------------------------------

  /** The per-frame velocity: boosted by the scroll delta while the ticker is
      in the scroll zone, then damped. */
  function NextVelocity(v: real, scrollDelta: real, boost: real, inScrollZone: bool): real
  {
    (if inScrollZone then v + scrollDelta * boost else v) * VELOCITY_DECAY
  }

  /** Without scroll input the velocity decays geometrically towards zero. */
  lemma VelocityDecays(v: real, scrollDelta: real, boost: real, inScrollZone: bool)
    requires !inScrollZone || scrollDelta == 0.0
    ensures NextVelocity(v, scrollDelta, boost, inScrollZone) == VELOCITY_DECAY * v
    ensures v != 0.0 ==> Abs(NextVelocity(v, scrollDelta, boost, inScrollZone)) < Abs(v)
  {
  }

  /** Scrolling down inside the zone pushes the ticker forward (and up, back). */
  lemma ScrollPushes(v: real, scrollDelta: real, boost: real)
    requires boost > 0.0
    ensures scrollDelta > 0.0 ==> NextVelocity(v, scrollDelta, boost, true) > VELOCITY_DECAY * v
    ensures scrollDelta < 0.0 ==> NextVelocity(v, scrollDelta, boost, true) < VELOCITY_DECAY * v
  {
    assert NextVelocity(v, scrollDelta, boost, true) == VELOCITY_DECAY * v + VELOCITY_DECAY * (scrollDelta * boost);
  }

  /** The offset advance of a frame: auto-play adds the base speed. */
  function Advance(autoPlaying: bool, velocity: real): real
  {
    if autoPlaying then BASE_SPEED + velocity else velocity
  }

  /** The wrap of `updateArcTicker`: one half-row back or forward, the second
      test only when the first fails. */
  function WrapOffset(offset: real, half: real): (r: real)
    ensures r == offset || r == offset - half || r == offset + half
    ensures half > 0.0 && -half <= offset < 2.0 * half ==> 0.0 <= r < half
    ensures 0.0 <= offset < half ==> r == offset
  {
    if offset >= half then offset - half
    else if offset < 0.0 then offset + half
    else offset
  }

  /** The wrap of `animateToOffset`: two independent tests in sequence. */
  function WrapOffsetTwoStep(offset: real, half: real): real
  {
    var t := if offset >= half then offset - half else offset;
    if t < 0.0 then t + half else t
  }

  /** The two wraps always agree: after subtracting the half-row the offset can
      no longer be negative. */
  lemma WrapVariantsAgree(offset: real, half: real)
    ensures WrapOffsetTwoStep(offset, half) == WrapOffset(offset, half)
  {
  }

  // ---------------------------------------------------------------------
  // Card recycling
  // ---------------------------------------------------------------------

  lemma DivMinusOne(a: real, h: real)
    requires h > 0.0
    ensures (a - h) / h == a / h - 1.0
    ensures a > 0.0 ==> a / h > 0.0
  {
    var q := a / h;
    var r := (a - h) / h;
    assert q * h == a;
    assert r * h == a - h;
    var d := r - (q - 1.0);
    assert d * h == r * h - q * h + h;
    assert d * h == 0.0;
    MulZero(d, h);
    if a > 0.0 {
      assert q * h > 0.0;
    }
  }

  lemma ProductPositive(a: real, b: real)
    requires a > 0.0 && b > 0.0
    ensures a * b > 0.0
  {
  }

  lemma MulZero(d: real, h: real)
    requires h > 0.0 && d * h == 0.0
    ensures d == 0.0
  {
  }

  /** The first recycle loop: add `h` until the position is at least `lo`. */
  function RaiseAbove(x: real, lo: real, h: real): (r: real)
    requires h > 0.0
    ensures r >= lo
    ensures x >= lo ==> r == x
    ensures x < lo ==> r < lo + h
    decreases if x < lo then ((lo - x) / h).Floor + 1 else 0
  {
    if x < lo then
      DivMinusOne(lo - x, h);
      assert lo - (x + h) == (lo - x) - h;
      RaiseAbove(x + h, lo, h)
    else x
  }

  /** The second recycle loop: subtract `h` until the position is at most `hi`. */
  function LowerBelow(x: real, hi: real, h: real): (r: real)
    requires h > 0.0
    ensures r <= hi
    ensures x <= hi ==> r == x
    ensures x > hi ==> r > hi - h
    decreases if x > hi then ((x - hi) / h).Floor + 1 else 0
  {
    if x > hi then
      DivMinusOne(x - hi, h);
      assert (x - h) - hi == (x - hi) - h;
      LowerBelow(x - h, hi, h)
    else x
  }

  /** A card's recycled position: lifted above `-cardWidth`, then lowered below
      `screenWidth + cardWidth`, in steps of half the row. It never ends right
      of the band; a card already in the band stays put; and when half the row
      is no wider than the band plus a card, every card ends inside the band. */
  function Recycled(x: real, cardWidth: real, screenWidth: real, half: real): (r: real)
    requires half > 0.0
    ensures r <= screenWidth + cardWidth
    ensures -cardWidth <= x <= screenWidth + cardWidth ==> r == x
    ensures half <= screenWidth + 2.0 * cardWidth ==> -cardWidth <= r
  {
    LowerBelow(RaiseAbove(x, -cardWidth, half), screenWidth + cardWidth, half)
  }

  lemma {:induction false} RaiseShift(x: real, lo: real, h: real) returns (k: nat)
    requires h > 0.0
    ensures RaiseAbove(x, lo, h) == x + Times(k, h)
    decreases if x < lo then ((lo - x) / h).Floor + 1 else 0
  {
    if x < lo {
      DivMinusOne(lo - x, h);
      assert lo - (x + h) == (lo - x) - h;
      var j := RaiseShift(x + h, lo, h);
      k := j + 1;
    } else {
      k := 0;
    }
  }

  lemma {:induction false} LowerShift(x: real, hi: real, h: real) returns (k: nat)
    requires h > 0.0
    ensures LowerBelow(x, hi, h) == x - Times(k, h)
    decreases if x > hi then ((x - hi) / h).Floor + 1 else 0
  {
    if x > hi {
      DivMinusOne(x - hi, h);
      assert (x - h) - hi == (x - hi) - h;
      var j := LowerShift(x - h, hi, h);
      k := j + 1;
    } else {
      k := 0;
    }
  }

  /** Recycling moves a card by a whole number of half-rows: it shows the same
      image column, only shifted. */
  lemma RecycledShift(x: real, cardWidth: real, screenWidth: real, half: real) returns (up: nat, down: nat)
    requires half > 0.0
    ensures Recycled(x, cardWidth, screenWidth, half) == x + Times(up, half) - Times(down, half)
  {
    up := RaiseShift(x, -cardWidth, half);
    down := LowerShift(RaiseAbove(x, -cardWidth, half), screenWidth + cardWidth, half);
  }

  /** The two `while` loops of the per-card placement. */
  method Recycle(x: real, cardWidth: real, screenWidth: real, half: real) returns (currentX: real)
    requires half > 0.0
    ensures currentX == Recycled(x, cardWidth, screenWidth, half)
  {
    currentX := x;
    while currentX < -cardWidth
      invariant RaiseAbove(currentX, -cardWidth, half) == RaiseAbove(x, -cardWidth, half)
      decreases ((-cardWidth - currentX) / half).Floor + 1
    {
      DivMinusOne(-cardWidth - currentX, half);
      assert -cardWidth - (currentX + half) == (-cardWidth - currentX) - half;
      currentX := currentX + half;
    }
    ghost var raised := currentX;
    while currentX > screenWidth + cardWidth
      invariant LowerBelow(currentX, screenWidth + cardWidth, half) == LowerBelow(raised, screenWidth + cardWidth, half)
      decreases ((currentX - (screenWidth + cardWidth)) / half).Floor + 1
    {
      DivMinusOne(currentX - (screenWidth + cardWidth), half);
      assert (currentX - half) - (screenWidth + cardWidth) == (currentX - (screenWidth + cardWidth)) - half;
      currentX := currentX - half;
    }
  }

  // ---------------------------------------------------------------------
  // Card pose
  // ---------------------------------------------------------------------

  /** Where and how one card is drawn: horizontal position, vertical drop,
      rotation in degrees, scale and stacking order. */
  datatype Pose = Pose(x: real, yDrop: real, rotation: real, scale: real, zIndex: int)

  /** The card's distance from the screen centre in half-screens, clamped to
      [-1.5, 1.5]; on a mobile-width viewport the container is taken to start
      at the screen's left edge. */
  function ClampedNorm(currentX: real, cardWidth: real, screenWidth: real, containerLeft: real): (c: real)
    requires screenWidth > 0.0
    ensures -MAX_NORM <= c <= MAX_NORM
  {
    var effectiveContainerLeft := if screenWidth <= MOBILE_MAX_WIDTH then 0.0 else containerLeft;
    var cardCenterScreen := currentX + effectiveContainerLeft + cardWidth / 2.0;
    var distFromCenter := cardCenterScreen - screenWidth / 2.0;
    Max(-MAX_NORM, Min(MAX_NORM, distFromCenter / (screenWidth * 0.5)))
  }

  /** The pose of a card at clamped distance `c`; mobile viewports use a
      flatter arc and subtler scaling. */
  function PoseAt(x: real, c: real, mobile: bool, maxRotation: real): Pose
  {
    var yDrop := if mobile then c * c * 20.0 else c * c * 150.0;
    var scale := if mobile then 1.02 - Abs(c) * 0.15 else 1.2 - Abs(c) * 0.35;
    Pose(x, yDrop, c * maxRotation, scale, JsRound(100.0 - Abs(c * 100.0)))
  }

  function CardPose(currentX: real, cardWidth: real, screenWidth: real, containerLeft: real, maxRotation: real): Pose
    requires screenWidth > 0.0
  {
    PoseAt(currentX, ClampedNorm(currentX, cardWidth, screenWidth, containerLeft),
           screenWidth <= MOBILE_MAX_WIDTH, maxRotation)
  }

  /** The ranges of the pose components. */
  lemma PoseBounds(x: real, c: real, mobile: bool, maxRotation: real)
    requires -MAX_NORM <= c <= MAX_NORM && maxRotation >= 0.0
    ensures var p := PoseAt(x, c, mobile, maxRotation);
      0.0 <= p.yDrop <= 2.25 * (if mobile then 20.0 else 150.0)
      && -MAX_NORM * maxRotation <= p.rotation <= MAX_NORM * maxRotation
      && (if mobile then 1.02 - 1.5 * 0.15 else 1.2 - 1.5 * 0.35) <= p.scale <= (if mobile then 1.02 else 1.2)
      && -50 <= p.zIndex <= 100
  {
    var a := Abs(c);
    assert a <= 1.5;
    assert c * c == a * a;
    assert a * a <= 1.5 * 1.5 by {
      assert a * a <= a * 1.5;
      assert a * 1.5 <= 1.5 * 1.5;
    }
    ScaledBound(c, maxRotation);
    assert Abs(c * 100.0) == a * 100.0;
    JsRoundOfInt(-50);
    JsRoundOfInt(100);
    JsRoundMonotone(-50.0, 100.0 - a * 100.0);
    JsRoundMonotone(100.0 - a * 100.0, 100.0);
  }

  lemma ScaledBound(c: real, m: real)
    requires -MAX_NORM <= c <= MAX_NORM && m >= 0.0
    ensures -MAX_NORM * m <= c * m <= MAX_NORM * m
  {
    NonNegativeProduct(MAX_NORM - c, m);
    NonNegativeProduct(c + MAX_NORM, m);
    assert (MAX_NORM - c) * m == MAX_NORM * m - c * m;
    assert (c + MAX_NORM) * m == c * m + MAX_NORM * m;
  }

  lemma NonNegativeProduct(a: real, b: real)
    requires a >= 0.0 && b >= 0.0
    ensures a * b >= 0.0
  {
  }

  /** Cards mirrored about the centre get the same drop, scale and order and
      opposite rotations. */
  lemma PoseSymmetric(x: real, c: real, mobile: bool, maxRotation: real)
    ensures PoseAt(x, -c, mobile, maxRotation).yDrop == PoseAt(x, c, mobile, maxRotation).yDrop
    ensures PoseAt(x, -c, mobile, maxRotation).rotation == -PoseAt(x, c, mobile, maxRotation).rotation
    ensures PoseAt(x, -c, mobile, maxRotation).scale == PoseAt(x, c, mobile, maxRotation).scale
    ensures PoseAt(x, -c, mobile, maxRotation).zIndex == PoseAt(x, c, mobile, maxRotation).zIndex
  {
    assert Abs((-c) * 100.0) == Abs(c * 100.0);
  }

  /** Further from the centre a card drops lower, shrinks and sinks in the stack. */
  lemma PoseFallsOff(x: real, c1: real, c2: real, mobile: bool, maxRotation: real)
    requires Abs(c1) <= Abs(c2)
    ensures PoseAt(x, c1, mobile, maxRotation).yDrop <= PoseAt(x, c2, mobile, maxRotation).yDrop
    ensures PoseAt(x, c2, mobile, maxRotation).scale <= PoseAt(x, c1, mobile, maxRotation).scale
    ensures PoseAt(x, c2, mobile, maxRotation).zIndex <= PoseAt(x, c1, mobile, maxRotation).zIndex
  {
    var a1, a2 := Abs(c1), Abs(c2);
    assert c1 * c1 == a1 * a1 && c2 * c2 == a2 * a2;
    SquareMonotone(a1, a2);
    var m := if mobile then 20.0 else 150.0;
    assert (a1 * a1) * m <= (a2 * a2) * m;
    assert Abs(c1 * 100.0) == a1 * 100.0 && Abs(c2 * 100.0) == a2 * 100.0;
    JsRoundMonotone(100.0 - a2 * 100.0, 100.0 - a1 * 100.0);
  }

  lemma SquareMonotone(a: real, b: real)
    requires 0.0 <= a <= b
    ensures a * a <= b * b
  {
    assert a * a <= a * b;
    assert a * b <= b * b;
  }

  /** The centred card stands upright at full size on top of the stack. */
  lemma CenteredPose(x: real, mobile: bool, maxRotation: real)
    ensures PoseAt(x, 0.0, mobile, maxRotation) == Pose(x, 0.0, 0.0, if mobile then 1.02 else 1.2, 100)
  {
    JsRoundOfInt(100);
  }

  /** Card i of a frame: it starts at i card steps minus the offset, is
      recycled and posed. */
  function CardAt(i: nat, config: TickerConfig, offset: real, half: real, screenWidth: real, containerLeft: real): Pose
    requires half > 0.0 && screenWidth > 0.0
  {
    CardPose(Recycled(Times(i, config.cardWidth + config.cardGap) - offset, config.cardWidth, screenWidth, half),
             config.cardWidth, screenWidth, containerLeft, config.maxRotation)
  }

  /** `n * step`, by repeated addition. */
  function Times(n: nat, step: real): real
  {
    if n == 0 then 0.0 else Times(n - 1, step) + step
  }

  lemma {:induction false} TimesIsProduct(n: nat, step: real)
    ensures Times(n, step) == n as real * step
  {
    if n > 0 {
      TimesIsProduct(n - 1, step);
      assert (n - 1) as real * step + step == n as real * step;
    }
  }

  /** The poses of the first n cards of a frame. */
  function Layout(n: nat, config: TickerConfig, offset: real, half: real, screenWidth: real,
                  containerLeft: real): (poses: seq<Pose>)
    requires half > 0.0 && screenWidth > 0.0
    ensures |poses| == n
  {
    if n == 0 then []
    else Layout(n - 1, config, offset, half, screenWidth, containerLeft)
         + [CardAt(n - 1, config, offset, half, screenWidth, containerLeft)]
  }

  /** Entry i of a layout is card i. */
  lemma {:induction false} LayoutIndex(n: nat, config: TickerConfig, offset: real, half: real, screenWidth: real,
                                       containerLeft: real, i: nat)
    requires half > 0.0 && screenWidth > 0.0 && i < n
    ensures Layout(n, config, offset, half, screenWidth, containerLeft)[i]
         == CardAt(i, config, offset, half, screenWidth, containerLeft)
  {
    if i < n - 1 {
      LayoutIndex(n - 1, config, offset, half, screenWidth, containerLeft, i);
    }
  }

  /** `baseX` of card `index`. */
  method BaseX(index: nat, step: real) returns (baseX: real)
    ensures baseX == Times(index, step)
  {
    baseX := index as real * step;
    TimesIsProduct(index, step);
  }

  /** The body of the placement loop for card `index`. */
  method PlaceCard(index: nat, config: TickerConfig, offset: real, half: real, screenWidth: real,
                   containerLeft: real)
    returns (pose: Pose)
    requires half > 0.0 && screenWidth > 0.0
    ensures pose == CardAt(index, config, offset, half, screenWidth, containerLeft)
  {
    var baseX := BaseX(index, config.cardWidth + config.cardGap);
    var currentX := Recycle(baseX - offset, config.cardWidth, screenWidth, half);
    pose := CardPose(currentX, config.cardWidth, screenWidth, containerLeft, config.maxRotation);
  }

  /** The placement loop of `updateArcTicker`. */
  method CardPoses(itemCount: nat, config: TickerConfig, offset: real, half: real, screenWidth: real,
                   containerLeft: real)
    returns (poses: seq<Pose>)
    requires half > 0.0 && screenWidth > 0.0
    ensures poses == Layout(itemCount, config, offset, half, screenWidth, containerLeft)
  {
    poses := [];
    for index := 0 to itemCount
      invariant poses == Layout(index, config, offset, half, screenWidth, containerLeft)
    {
      var pose := PlaceCard(index, config, offset, half, screenWidth, containerLeft);
      poses := poses + [pose];
    }
  }

  /** Card i sits a whole number of half-rows from its unrecycled position,
      never right of the visible band, and is posed by its distance to the
      screen centre. */
  lemma CardAtShape(i: nat, config: TickerConfig, offset: real, half: real, screenWidth: real,
                    containerLeft: real) returns (up: nat, down: nat)
    requires half > 0.0 && screenWidth > 0.0
    ensures var p := CardAt(i, config, offset, half, screenWidth, containerLeft);
      p.x == Times(i, config.cardWidth + config.cardGap) - offset + Times(up, half) - Times(down, half)
      && p.x <= screenWidth + config.cardWidth
      && p == PoseAt(p.x, ClampedNorm(p.x, config.cardWidth, screenWidth, containerLeft),
                     screenWidth <= MOBILE_MAX_WIDTH, config.maxRotation)
  {
    up, down := RecycledShift(Times(i, config.cardWidth + config.cardGap) - offset, config.cardWidth, screenWidth, half);
  }

  // ---------------------------------------------------------------------
  // Snapping
  // ---------------------------------------------------------------------

  /** `getCenteringShift`: the offset correction that puts a card's centre on
      the screen centre. */
  function CenteringShift(screenWidth: real, containerLeft: real, cardWidth: real): real
  {
    var effectiveLeft := if screenWidth <= MOBILE_MAX_WIDTH then 0.0 else containerLeft;
    screenWidth / 2.0 - cardWidth / 2.0 - effectiveLeft
  }

  /** The fractional index of the card nearest the centre. */
  function CurrentIndex(offset: real, shift: real, step: real): real
    requires step > 0.0
  {
    (offset + shift) / step
  }

  /** The offset that centres card `index`. */
  function SnapOffset(index: int, step: real, shift: real): real
  {
    index as real * step - shift
  }

  /** A swipe moves one card past the nearest one, in the swipe's direction. */
  function SwipeTargetIndex(currentIndex: real, swipeDist: real): (t: int)
    ensures swipeDist > 0.0 ==> currentIndex + 0.5 < t as real <= currentIndex + 1.5
    ensures swipeDist <= 0.0 ==> currentIndex - 1.5 < t as real <= currentIndex - 0.5
  {
    JsRound(currentIndex) + (if swipeDist > 0.0 then 1 else -1)
  }

  /** The prev button: always at least 0.6 of a card back. */
  function PrevTargetIndex(currentIndex: real): (t: int)
    ensures currentIndex - 1.6 < t as real <= currentIndex - 0.6
  {
    JsRound(currentIndex - 0.1) - 1
  }

  /** The next button: always more than 0.6 of a card forward. */
  function NextTargetIndex(currentIndex: real): (t: int)
    ensures currentIndex + 0.6 < t as real <= currentIndex + 1.6
  {
    JsRound(currentIndex + 0.1) + 1
  }

  /** Snapping is exact: at the snap offset of card k the current index is k. */
  lemma SnapRoundTrip(index: int, step: real, shift: real)
    requires step > 0.0
    ensures CurrentIndex(SnapOffset(index, step, shift), shift, step) == index as real
  {
    assert SnapOffset(index, step, shift) + shift == index as real * step;
  }

  /** From a snapped card the buttons and swipes move exactly one card. */
  lemma StepsFromSnapped(index: int)
    ensures NextTargetIndex(index as real) == index + 1
    ensures PrevTargetIndex(index as real) == index - 1
    ensures SwipeTargetIndex(index as real, 1.0) == index + 1
    ensures SwipeTargetIndex(index as real, -1.0) == index - 1
  {
    JsRoundOfInt(index);
    assert JsRound(index as real + 0.1) == index;
    assert JsRound(index as real - 0.1) == index;
  }

  /** At the snap offset of card k, card k (before recycling) sits exactly at
      the screen centre. */
  lemma SnappedCardCentered(index: int, step: real, screenWidth: real, containerLeft: real, cardWidth: real)
    requires screenWidth > 0.0
    ensures var shift := CenteringShift(screenWidth, containerLeft, cardWidth);
      ClampedNorm(index as real * step - SnapOffset(index, step, shift), cardWidth, screenWidth, containerLeft) == 0.0
  {
    var shift := CenteringShift(screenWidth, containerLeft, cardWidth);
    assert index as real * step - SnapOffset(index, step, shift) == shift;
  }

  /** The initial offset: card 4, the middle of the nine images, centred for a
      container at the left edge of the screen. */
  function InitialOffset(config: TickerConfig, screenWidth: real): real
  {
    4.0 * (config.cardWidth + config.cardGap) - screenWidth / 2.0 + config.cardWidth / 2.0
  }

  /** The initial offset is the snap offset of card 4 except on a wide
      viewport, where it ignores the container's left edge and is off by
      exactly that much. */
  lemma InitialOffsetCentersMiddleCard(config: TickerConfig, screenWidth: real, containerLeft: real)
    ensures SnapOffset(4, config.cardWidth + config.cardGap, CenteringShift(screenWidth, containerLeft, config.cardWidth))
            - InitialOffset(config, screenWidth)
         == if screenWidth <= MOBILE_MAX_WIDTH then 0.0 else containerLeft
  {
  }

  // ---------------------------------------------------------------------
  // Eased snap animation
  // ---------------------------------------------------------------------

  /** The animation's progress after `elapsed` milliseconds, capped at 1. */
  function Progress(elapsed: real): (p: real)
    ensures p <= 1.0
    ensures elapsed >= ANIMATION_DURATION ==> p == 1.0
    ensures elapsed <= ANIMATION_DURATION ==> p == elapsed / ANIMATION_DURATION
  {
    Min(elapsed / ANIMATION_DURATION, 1.0)
  }

  lemma CubeMonotone(a: real, b: real)
    requires 0.0 <= a <= b
    ensures a * a * a <= b * b * b
  {
    assert a * a <= a * b <= b * b;
    assert (a * a) * a <= (b * b) * a;
    assert (b * b) * a <= (b * b) * b;
  }

  /** The cubic ease-out curve: from 0 to 1 over the unit interval. */
  function EaseOutCubic(p: real): (e: real)
    ensures p == 0.0 ==> e == 0.0
    ensures p == 1.0 ==> e == 1.0
  {
    var q := 1.0 - p;
    1.0 - q * q * q
  }

  /** The curve stays in [0, 1] and runs ahead of linear motion. */
  lemma EaseBounds(p: real)
    requires 0.0 <= p <= 1.0
    ensures p <= EaseOutCubic(p) <= 1.0
  {
    var q := 1.0 - p;
    assert EaseOutCubic(p) == 1.0 - q * q * q;
    var q2 := q * q;
    assert 0.0 <= q2 <= q by {
      assert q * q <= q * 1.0;
    }
    var q3 := q2 * q;
    assert 0.0 <= q3 <= q2 by {
      assert q2 * q <= q2 * 1.0;
    }
    assert q * q * q == q3;
  }

  lemma EaseMonotone(p1: real, p2: real)
    requires p1 <= p2 <= 1.0
    ensures EaseOutCubic(p1) <= EaseOutCubic(p2)
  {
    CubeMonotone(1.0 - p2, 1.0 - p1);
  }

  /** Where an animation step puts the offset, `elapsed` milliseconds into a
      chain from `start` over `distance`. */
  function AnimatedOffset(start: real, distance: real, elapsed: real, half: real): real
  {
    WrapOffsetTwoStep(start + distance * EaseOutCubic(Progress(elapsed)), half)
  }

  /** Once the duration has passed, the step lands on the (wrapped) target and
      the chain stops. */
  lemma AnimationEnds(start: real, distance: real, elapsed: real, half: real)
    requires elapsed >= ANIMATION_DURATION
    ensures AnimatedOffset(start, distance, elapsed, half) == WrapOffset(start + distance, half)
    ensures !(Progress(elapsed) < 1.0)
  {
    assert EaseOutCubic(Progress(elapsed)) == 1.0;
    assert distance * EaseOutCubic(Progress(elapsed)) == distance;
    WrapVariantsAgree(start + distance, half);
  }

  /** Before the duration has passed the step stays on the straight path from
      the start towards the target, never beyond it. */
  lemma AnimationBetween(start: real, distance: real, elapsed: real)
    requires 0.0 <= elapsed <= ANIMATION_DURATION
    ensures var e := EaseOutCubic(Progress(elapsed));
      0.0 <= e <= 1.0
      && (distance >= 0.0 ==> start <= start + distance * e <= start + distance)
      && (distance <= 0.0 ==> start + distance <= start + distance * e <= start)
  {
    var p := Progress(elapsed);
    assert p == elapsed / ANIMATION_DURATION;
    assert 0.0 <= p <= 1.0;
    EaseBounds(p);
    var e := EaseOutCubic(p);
    if distance >= 0.0 {
      assert distance * e <= distance * 1.0;
      assert 0.0 <= distance * e;
    } else {
      assert distance * 1.0 <= distance * e;
      assert distance * e <= 0.0;
    }
  }

  // ---------------------------------------------------------------------
  // The ticker's state
  // ---------------------------------------------------------------------

  /** A drag by the finger from `lastX` to `currentX` (left is positive). */
  function DragOffset(offset: real, lastX: real, currentX: real): real
  {
    offset + (lastX - currentX) * DRAG_SENSITIVITY
  }

  /** Consecutive drag moves add up to one move from the first point to the last. */
  lemma DragComposes(offset: real, a: real, b: real, c: real)
    ensures DragOffset(DragOffset(offset, a, b), b, c) == DragOffset(offset, a, c)
  {
  }

  class Ticker {
    var config: TickerConfig
    var cardStep: real
    var totalWidth: real
    var itemCount: nat
    var offset: real
    var velocity: real
    var lastScrollY: real
    var autoPlaying: bool
    var touchStartX: real
    var touchLastX: real
    var dragging: bool
    // the most recent `animateToOffset` chain
    var animating: bool
    var animStart: real
    var animDistance: real
    var animStartTime: real

    ghost predicate Valid()
      reads this`config, this`cardStep, this`totalWidth, this`itemCount
    {
      config.cardWidth > 0.0
      && cardStep == config.cardWidth + config.cardGap && cardStep > 0.0
      && totalWidth == itemCount as real * cardStep
      && (itemCount > 0 ==> totalWidth > 0.0)
    }

    /** Startup: the tier configuration, 18 cards when the container exists,
        and the middle card centred. */
    constructor (width: real, scrollY: real, hasContainer: bool)
      ensures Valid()
      ensures config == TierConfig(width)
      ensures itemCount == if hasContainer then 2 * BRAND_IMAGE_COUNT else 0
      ensures offset == if hasContainer then InitialOffset(config, width) else 0.0
      ensures velocity == 0.0 && lastScrollY == scrollY && autoPlaying && !dragging && !animating
    {
      var c := TierConfig(width);
      var items: nat := if hasContainer then 2 * BRAND_IMAGE_COUNT else 0;
      var total := 0.0;
      if items > 0 {
        total := items as real * (c.cardWidth + c.cardGap);
        ProductPositive(items as real, c.cardWidth + c.cardGap);
      }
      var start := 0.0;
      if total > 0.0 {
        start := 4.0 * (c.cardWidth + c.cardGap) - width / 2.0 + c.cardWidth / 2.0;
      }
      config := c;
      cardStep := c.cardWidth + c.cardGap;
      totalWidth := total;
      itemCount := items;
      offset := start;
      velocity := 0.0;
      lastScrollY := scrollY;
      autoPlaying := true;
      touchStartX := 0.0;
      touchLastX := 0.0;
      dragging := false;
      animating := false;
      animStart := 0.0;
      animDistance := 0.0;
      animStartTime := 0.0;
    }

    /** `updateTickerConfigFull`, as run on resize: the offset is kept. */
    method UpdateConfigFull(width: real)
      requires Valid()
      modifies this`config, this`cardStep, this`totalWidth
      ensures Valid() && config == TierConfig(width)
    {
      config := TierConfig(width);
      cardStep := config.cardWidth + config.cardGap;
      if itemCount > 0 {
        totalWidth := itemCount as real * (config.cardWidth + config.cardGap);
        ProductPositive(itemCount as real, cardStep);
      } else {
        assert totalWidth == 0.0;
      }
    }

    /** The state update of `updateArcTicker` when there are cards. */
    method AdvanceOffset(currentScrollY: real, containerTop: real, viewportHeight: real)
      modifies this`offset, this`velocity, this`lastScrollY
      ensures lastScrollY == currentScrollY
      ensures velocity == NextVelocity(old(velocity), currentScrollY - old(lastScrollY), config.scrollBoost,
                                       containerTop < viewportHeight * SCROLL_ZONE_FRACTION)
      ensures offset == WrapOffset(old(offset) + Advance(autoPlaying, velocity), totalWidth / 2.0)
    {
      var scrollDelta := currentScrollY - lastScrollY;
      lastScrollY := currentScrollY;
      var isInScrollZone := containerTop < viewportHeight * SCROLL_ZONE_FRACTION;
      if isInScrollZone {
        velocity := velocity + scrollDelta * config.scrollBoost;
      }
      velocity := velocity * VELOCITY_DECAY;
      if autoPlaying {
        offset := offset + (BASE_SPEED + velocity);
      } else {
        offset := offset + velocity;
      }
      var halfWidth := totalWidth / 2.0;
      if offset >= halfWidth {
        offset := offset - halfWidth;
      } else if offset < 0.0 {
        offset := offset + halfWidth;
      }
    }

    /** `updateArcTicker`: one frame. Without cards it does nothing; otherwise
        it updates velocity and offset and poses every card. */
    method Frame(currentScrollY: real, containerTop: real, viewportHeight: real, screenWidth: real,
                 containerLeft: real)
      returns (poses: seq<Pose>)
      requires Valid() && screenWidth > 0.0
      modifies this`offset, this`velocity, this`lastScrollY
      ensures Valid()
      ensures itemCount == 0 ==>
                poses == [] && offset == old(offset) && velocity == old(velocity) && lastScrollY == old(lastScrollY)
      ensures itemCount > 0 ==>
                lastScrollY == currentScrollY
                && velocity == NextVelocity(old(velocity), currentScrollY - old(lastScrollY), config.scrollBoost,
                                            containerTop < viewportHeight * SCROLL_ZONE_FRACTION)
                && offset == WrapOffset(old(offset) + Advance(autoPlaying, velocity), totalWidth / 2.0)
                && totalWidth > 0.0
                && poses == Layout(itemCount, config, offset, totalWidth / 2.0, screenWidth, containerLeft)
    {
      if itemCount == 0 {
        return [];
      }
      var half := totalWidth / 2.0;
      AdvanceOffset(currentScrollY, containerTop, viewportHeight);
      poses := CardPoses(itemCount, config, offset, half, screenWidth, containerLeft);
    }

    /** The `touchstart` handler, given the touches' x coordinates. */
    method TouchStart(touches: seq<real>)
      modifies this`autoPlaying, this`touchStartX, this`touchLastX, this`dragging, this`velocity
      ensures |touches| == 0 ==>
                autoPlaying == old(autoPlaying) && touchStartX == old(touchStartX) && touchLastX == old(touchLastX)
                && dragging == old(dragging) && velocity == old(velocity)
      ensures |touches| > 0 ==>
                !autoPlaying && touchStartX == touches[0] && touchLastX == touches[0] && dragging && velocity == 0.0
    {
      if |touches| > 0 {
        autoPlaying := false;
        touchStartX := touches[0];
        touchLastX := touchStartX;
        dragging := true;
        velocity := 0.0;
      }
    }

    /** The `touchmove` handler: while dragging, the offset follows the finger. */
    method TouchMove(touches: seq<real>)
      modifies this`offset, this`touchLastX
      ensures !dragging || |touches| == 0 ==> offset == old(offset) && touchLastX == old(touchLastX)
      ensures dragging && |touches| > 0 ==>
                offset == DragOffset(old(offset), old(touchLastX), touches[0]) && touchLastX == touches[0]
    {
      if !dragging || |touches| == 0 {
        return;
      }
      var currentX := touches[0];
      var deltaX := touchLastX - currentX;
      offset := offset + deltaX * DRAG_SENSITIVITY;
      touchLastX := currentX;
    }

    /** Starts an `animateToOffset` chain towards `target`. */
    method StartAnimation(target: real, now: real)
      modifies this`animating, this`animStart, this`animDistance, this`animStartTime
      ensures animating && animStart == offset && animStart + animDistance == target && animStartTime == now
    {
      animStart := offset;
      animDistance := target - animStart;
      animStartTime := now;
      animating := true;
    }

    /** The `touchend` handler: a swipe longer than 50 snaps one card past the
        nearest in its direction; a shorter one releases with a little momentum. */
    method TouchEnd(screenWidth: real, containerLeft: real, now: real) returns (target: Option<real>)
      requires Valid()
      modifies this`dragging, this`velocity, this`animating, this`animStart, this`animDistance, this`animStartTime
      ensures !dragging && offset == old(offset)
      ensures var swipeDist := touchStartX - touchLastX;
        if Abs(swipeDist) > SWIPE_THRESHOLD then
          var shift := CenteringShift(screenWidth, containerLeft, config.cardWidth);
          target == Some(SnapOffset(SwipeTargetIndex(CurrentIndex(offset, shift, cardStep), swipeDist), cardStep, shift))
          && velocity == old(velocity)
          && animating && animStart == offset && animStart + animDistance == target.value && animStartTime == now
        else
          target == None && velocity == swipeDist * RELEASE_MOMENTUM
          && animating == old(animating) && animStart == old(animStart) && animDistance == old(animDistance)
          && animStartTime == old(animStartTime)
    {
      dragging := false;
      var swipeDist := touchStartX - touchLastX;
      if Abs(swipeDist) > SWIPE_THRESHOLD {
        var step := config.cardWidth + config.cardGap;
        assert step == cardStep;
        var shift := CenteringShift(screenWidth, containerLeft, config.cardWidth);
        var currentIndex := (offset + shift) / step;
        var direction := if swipeDist > 0.0 then 1 else -1;
        var targetIndex := JsRound(currentIndex) + direction;
        var t := targetIndex as real * step - shift;
        assert targetIndex == SwipeTargetIndex(CurrentIndex(offset, shift, cardStep), swipeDist);
        assert targetIndex as real * step == targetIndex as real * cardStep;
        assert t == SnapOffset(targetIndex, cardStep, shift);
        StartAnimation(t, now);
        target := Some(t);
      } else {
        velocity := swipeDist * RELEASE_MOMENTUM;
        target := None;
      }
    }

    /** The prev button: stop auto-play and snap to the previous card. */
    method PrevClick(screenWidth: real, containerLeft: real, now: real) returns (target: real)
      requires Valid()
      modifies this`autoPlaying, this`animating, this`animStart, this`animDistance, this`animStartTime
      ensures !autoPlaying && offset == old(offset)
      ensures var shift := CenteringShift(screenWidth, containerLeft, config.cardWidth);
        target == SnapOffset(PrevTargetIndex(CurrentIndex(offset, shift, cardStep)), cardStep, shift)
      ensures animating && animStart == offset && animStart + animDistance == target && animStartTime == now
    {
      autoPlaying := false;
      var step := config.cardWidth + config.cardGap;
      assert step == cardStep;
      var shift := CenteringShift(screenWidth, containerLeft, config.cardWidth);
      var currentIndex := (offset + shift) / step;
      var targetIndex := JsRound(currentIndex - 0.1) - 1;
      target := targetIndex as real * step - shift;
      assert targetIndex == PrevTargetIndex(CurrentIndex(offset, shift, cardStep));
      assert targetIndex as real * step == targetIndex as real * cardStep;
      assert target == SnapOffset(targetIndex, cardStep, shift);
      StartAnimation(target, now);
    }

    /** The next button: stop auto-play and snap to the next card. */
    method NextClick(screenWidth: real, containerLeft: real, now: real) returns (target: real)
      requires Valid()
      modifies this`autoPlaying, this`animating, this`animStart, this`animDistance, this`animStartTime
      ensures !autoPlaying && offset == old(offset)
      ensures var shift := CenteringShift(screenWidth, containerLeft, config.cardWidth);
        target == SnapOffset(NextTargetIndex(CurrentIndex(offset, shift, cardStep)), cardStep, shift)
      ensures animating && animStart == offset && animStart + animDistance == target && animStartTime == now
    {
      autoPlaying := false;
      var step := config.cardWidth + config.cardGap;
      assert step == cardStep;
      var shift := CenteringShift(screenWidth, containerLeft, config.cardWidth);
      var currentIndex := (offset + shift) / step;
      var targetIndex := JsRound(currentIndex + 0.1) + 1;
      target := targetIndex as real * step - shift;
      assert targetIndex == NextTargetIndex(CurrentIndex(offset, shift, cardStep));
      assert targetIndex as real * step == targetIndex as real * cardStep;
      assert target == SnapOffset(targetIndex, cardStep, shift);
      StartAnimation(target, now);
    }

    /** One `animateStep` callback at time `currentTime`: the eased offset,
        wrapped, and whether another step follows. */
    method AnimateStep(currentTime: real)
      requires animating
      modifies this`offset, this`animating
      ensures offset == AnimatedOffset(animStart, animDistance, currentTime - animStartTime, totalWidth / 2.0)
      ensures animating == (Progress(currentTime - animStartTime) < 1.0)
    {
      var elapsed := currentTime - animStartTime;
      var progress := Min(elapsed / ANIMATION_DURATION, 1.0);
      var eased := EaseOutCubic(progress);
      offset := animStart + animDistance * eased;
      var halfWidth := totalWidth / 2.0;
      if offset >= halfWidth {
        offset := offset - halfWidth;
      }
      if offset < 0.0 {
        offset := offset + halfWidth;
      }
      animating := progress < 1.0;
    }
  }
}
