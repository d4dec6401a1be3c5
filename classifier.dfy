/** The classification step: is a new sample a geometry change, a height
    decrease, an accepted height increase or noise, and what follows from it. */
module Classifier {
  import opened Measurement

  const FinePointerWidthThreshold := 1
  const DefaultHeightIncreaseThreshold := 120
  const DefaultHeightDecreaseThreshold := 12
  const CoarseHeightChangeThreshold := 160
  const CoarseWidthChangeThreshold := 8
  /** The keyboard ratio 0.78, as a percentage, so that `h / screen <= 0.78`
      is `100 * h <= 78 * screen` on positive integers. */
  const KeyboardRatioPercent := 78

  function DecreaseThreshold(coarse: bool): int
  {
    if coarse then CoarseHeightChangeThreshold else DefaultHeightDecreaseThreshold
  }

  function IncreaseThreshold(coarse: bool): int
  {
    if coarse then CoarseHeightChangeThreshold else DefaultHeightIncreaseThreshold
  }

  function WidthThreshold(coarse: bool): int
  {
    if coarse then CoarseWidthChangeThreshold else FinePointerWidthThreshold
  }

  /** The baseline a sample is compared with: the last accepted geometry and the lock. */
  datatype Baseline = Baseline(
    lastWidth: Option<int>,
    lastHeight: Option<int>,
    lastOrientation: Option<Orientation>,
    lock: Option<int>)

  /** A height that looks like a viewport shrunk by an on-screen keyboard. */
  predicate KeyboardLike(coarse: bool, height: Option<int>, screen: Option<int>)
  {
    coarse && screen.Some? && height.Some? &&
    100 * height.value <= KeyboardRatioPercent * screen.value
  }

  predicate IsKeyboard(m: Sample, coarse: bool)
  {
    KeyboardLike(coarse, Some(m.height), m.screenHeight)
  }

  predicate WasKeyboard(b: Baseline, m: Sample, coarse: bool)
  {
    KeyboardLike(coarse, b.lastHeight, m.screenHeight)
  }

  predicate WidthChanged(b: Baseline, m: Sample, coarse: bool)
  {
    m.width.Some? && b.lastWidth.Some? &&
    Abs(m.width.value - b.lastWidth.value) > WidthThreshold(coarse)
  }

  predicate OrientationChanged(b: Baseline, m: Sample)
  {
    m.orientation.Some? && b.lastOrientation.Some? && m.orientation != b.lastOrientation
  }

  predicate GeometryChanged(b: Baseline, m: Sample, coarse: bool)
  {
    || WidthChanged(b, m, coarse)
    || OrientationChanged(b, m)
    || (m.width.Some? && b.lastWidth.None?)
    || (m.width.None? && b.lastWidth.Some?)
  }

  predicate HeightDecreased(b: Baseline, m: Sample, coarse: bool)
  {
    b.lastHeight.Some? &&
    (m.height <= b.lastHeight.value - DecreaseThreshold(coarse) ||
     (IsKeyboard(m, coarse) && !WasKeyboard(b, m, coarse)))
  }

  predicate GeneralIncrease(b: Baseline, m: Sample, coarse: bool)
  {
    b.lastHeight.Some? && m.height >= b.lastHeight.value + IncreaseThreshold(coarse)
  }

  predicate KeyboardRestoring(b: Baseline, m: Sample, coarse: bool)
  {
    b.lastHeight.Some? && !IsKeyboard(m, coarse) && WasKeyboard(b, m, coarse)
  }

  /** Growth ignored on touch devices while the browser chrome animates. */
  predicate IgnoreGrowth(b: Baseline, m: Sample, coarse: bool)
  {
    && coarse
    && b.lock.Some?
    && GeneralIncrease(b, m, coarse)
    && !KeyboardRestoring(b, m, coarse)
    && !GeometryChanged(b, m, coarse)
    && m.fromVisualViewport
    && m.height > b.lock.value
  }

  predicate IncreaseRequiresUpdate(b: Baseline, m: Sample, coarse: bool)
  {
    KeyboardRestoring(b, m, coarse) ||
    (GeneralIncrease(b, m, coarse) && !IgnoreGrowth(b, m, coarse))
  }

  predicate ShouldUpdate(b: Baseline, m: Sample, coarse: bool)
  {
    || b.lastHeight.None?
    || GeometryChanged(b, m, coarse)
    || HeightDecreased(b, m, coarse)
    || IncreaseRequiresUpdate(b, m, coarse)
  }

  predicate HeightOnly(b: Baseline, m: Sample, coarse: bool)
  {
    b.lastHeight.Some? &&
    (HeightDecreased(b, m, coarse) || IncreaseRequiresUpdate(b, m, coarse)) &&
    !GeometryChanged(b, m, coarse)
  }

  /** What one measurement leads to: nothing but a baseline refresh, a
      buffered height, or an immediate commit. */
  datatype Outcome = Skip | Defer | CommitNow

  function Decide(b: Baseline, m: Sample, coarse: bool): (o: Outcome)
    ensures o == CommitNow <==> b.lastHeight.None? || GeometryChanged(b, m, coarse)
    ensures o == Defer <==>
      && b.lastHeight.Some?
      && !GeometryChanged(b, m, coarse)
      && (HeightDecreased(b, m, coarse) || IncreaseRequiresUpdate(b, m, coarse))
    ensures o == Skip <==>
      && b.lastHeight.Some?
      && !GeometryChanged(b, m, coarse)
      && !HeightDecreased(b, m, coarse)
      && !IncreaseRequiresUpdate(b, m, coarse)
  {
    if !ShouldUpdate(b, m, coarse) then Skip
    else if HeightOnly(b, m, coarse) then Defer
    else CommitNow
  }

  /** A keyboard opening counts as a decrease whatever its size. */
  lemma KeyboardOpeningIsDecrease(b: Baseline, m: Sample, coarse: bool)
    requires b.lastHeight.Some?
    requires IsKeyboard(m, coarse) && !WasKeyboard(b, m, coarse)
    ensures HeightDecreased(b, m, coarse)
    ensures Decide(b, m, coarse) != Skip
  {
  }

  /** A keyboard closing always needs an update whatever its size, and it is
      buffered exactly when the geometry stayed the same. */
  lemma KeyboardClosingForcesUpdate(b: Baseline, m: Sample, coarse: bool)
    requires b.lastHeight.Some?
    requires WasKeyboard(b, m, coarse) && !IsKeyboard(m, coarse)
    ensures IncreaseRequiresUpdate(b, m, coarse)
    ensures Decide(b, m, coarse) == (if GeometryChanged(b, m, coarse) then CommitNow else Defer)
  {
  }

  /** Pure noise: same geometry, height strictly inside both thresholds and no
      keyboard transition leads to no commit. */
  lemma NoiseIsSkipped(b: Baseline, m: Sample, coarse: bool)
    requires b.lastHeight.Some?
    requires !GeometryChanged(b, m, coarse)
    requires b.lastHeight.value - DecreaseThreshold(coarse) < m.height
    requires m.height < b.lastHeight.value + IncreaseThreshold(coarse)
    requires IsKeyboard(m, coarse) == WasKeyboard(b, m, coarse)
    ensures Decide(b, m, coarse) == Skip
  {
  }

  /** The chrome-hide rule: on a coarse pointer, visual-viewport growth of at
      least the coarse threshold above a locked floor, with no geometry change
      and no keyboard closing, does not cause an update. The growth also rules
      out a keyboard opening, so nothing else asks for one. */
  lemma CoarseGrowthIsSkipped(b: Baseline, m: Sample)
    requires b.lastHeight.Some? && b.lock.Some?
    requires m.height >= b.lastHeight.value + CoarseHeightChangeThreshold
    requires m.height > b.lock.value
    requires m.fromVisualViewport
    requires !GeometryChanged(b, m, true)
    requires !KeyboardRestoring(b, m, true)
    ensures IgnoreGrowth(b, m, true)
    ensures !HeightDecreased(b, m, true)
    ensures Decide(b, m, true) == Skip
  {
  }

  /** Without the coarse-pointer rule, a large enough increase always updates:
      buffered, since the geometry is unchanged. */
  lemma FineGrowthIsBuffered(b: Baseline, m: Sample)
    requires b.lastHeight.Some?
    requires m.height >= b.lastHeight.value + DefaultHeightIncreaseThreshold
    requires !GeometryChanged(b, m, false)
    ensures Decide(b, m, false) == Defer
  {
  }
}
