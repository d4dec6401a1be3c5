/** Concrete runs of the stabiliser on a phone-like host, from script load on. */
module Scenarios {
  import opened Measurement
  import opened Classifier
  import opened Transitions

  /** A host whose every source agrees on one portrait viewport. */
  function Reading(height: int, width: int, screen: int): Env
  {
    Env(Some(ViewportSize(Some(height), Some(width))), Some(height), Some(width),
        Some(height), Some(width), Some(screen), Some(screen),
        Some("portrait-primary"), None, None)
  }

  /** The same host after the screen turned: the orientation type is landscape. */
  function Turned(height: int, width: int, screen: int): Env
  {
    Reading(height, width, screen).(orientationType := Some("landscape-primary"))
  }

  const Touch := PointerQuery(true, true)
  const Mouse := PointerQuery(false, true)

  /** Such a host is measured as its own portrait viewport. */
  lemma MeasureReading(height: int, width: int, screen: int)
    requires height > 0 && width > 0 && screen > 0
    ensures Measure(Reading(height, width, screen)) ==
            Some(Sample(height, Some(width), Some(Portrait), Some(screen), true))
  {
    var env := Reading(height, width, screen);
    assert !("landscape" <= "portrait-primary") by {
      assert "portrait-primary"[0] != "landscape"[0];
    }
    assert GetOrientation(env) == Some(Portrait);
    assert WidthCandidates(env)[0] == Some(width);
    assert ScreenCandidates(env)[0] == Some(screen);
  }

  /** A turned host is measured as its own landscape viewport. */
  lemma MeasureTurned(height: int, width: int, screen: int)
    requires height > 0 && width > 0 && screen > 0
    ensures Measure(Turned(height, width, screen)) ==
            Some(Sample(height, Some(width), Some(Landscape), Some(screen), true))
  {
    var env := Turned(height, width, screen);
    assert "landscape" <= "landscape-primary" by {
      assert "landscape-primary"[..9] == "landscape";
    }
    assert GetOrientation(env) == Some(Landscape);
    assert WidthCandidates(env)[0] == Some(width);
    assert ScreenCandidates(env)[0] == Some(screen);
  }

  /** The state right after activation on a host reading one viewport. */
  function Settled(q: PointerQuery, height: int, width: int, screen: int): State
  {
    var coarse := q.PointerQuery? && q.matches;
    var keyboard := KeyboardLike(coarse, Some(height), Some(screen));
    var bs := NewBindings(Reading(height, width, screen), q);
    State(Baseline(Some(width), Some(height), Some(Portrait), if keyboard then None else Some(height)),
          coarse, Debounce(None, false, 0), Retry(false, 0),
          Published(Some(height), Some(height), Some(height), Some(height), [height]),
          Lifecycle(bs, multiset(bs), true, true))
  }

  /** From script load, initialize's preparation only binds the listeners. */
  lemma PrepareFromLoad(env: Env, q: PointerQuery)
    ensures Prepare(Loaded(q), env, q) ==
            Loaded(q).(life := Lifecycle(NewBindings(env, q), multiset(NewBindings(env, q)), false, false))
  {
  }

  /** Activation from script load on such a host lands in Settled. */
  lemma LoadThenActivate(q: PointerQuery, height: int, width: int, screen: int)
    requires height > 0 && width > 0 && screen > 0
    ensures Initialize(Loaded(q), Reading(height, width, screen), q) == Settled(q, height, width, screen)
  {
    PrepareFromLoad(Reading(height, width, screen), q);
    MeasureReading(height, width, screen);
  }

  /** The lock follows the last committed height down: a fine-pointer
      viewport that shrinks from 1000 to 960 ends with lock and effects value
      at 960, below the 1000 they held before. */
  lemma LockCanGoDown()
    ensures var s1 := Settled(Mouse, 1000, 400, 1000);
            var s2 := Update(s1, Reading(960, 400, 1000));
            var s3 := TimerFires(s2);
            && s1.baseline.lock == Some(1000) && s1.published.effectsUnit == Some(1000)
            && s2.published.effectsUnit == Some(1000)
            && s2.debounce.pending == Some(Pending(960, true))
            && s3.baseline.lock == Some(960) && s3.published.effectsUnit == Some(960)
            && s3.published.events == [1000, 960]
  {
    MeasureReading(960, 400, 1000);
  }

  /** The chrome-hide rule on a touch screen of 800: from an accepted 780, a
      visual viewport of 960 is ignored as a height, so nothing is committed
      or notified; the effects value still becomes 960. */
  lemma ChromeHideGrowthIsIgnored()
    ensures var s1 := Settled(Touch, 780, 400, 800);
            var s2 := Update(s1, Reading(960, 400, 800));
            && s1.baseline.lock == Some(780)
            && s2.baseline.lastHeight == Some(780)
            && s2.published.viewportUnit == Some(780)
            && s2.published.events == [780]
            && s2.debounce.pending.None?
            && s2.published.effectsUnit == Some(960)
  {
    MeasureReading(960, 400, 800);
  }

  /** A keyboard opening on a touch screen, 780 down to 500 of 800, is
      buffered without setting the lock, and commits on the timer while the
      effects value keeps the lock's 780. */
  lemma KeyboardOpeningKeepsFloor()
    ensures var s1 := Settled(Touch, 780, 400, 800);
            var s2 := Update(s1, Reading(500, 400, 800));
            var s3 := TimerFires(s2);
            && s2.debounce.pending == Some(Pending(500, false))
            && s3.baseline.lastHeight == Some(500)
            && s3.baseline.lock == Some(780)
            && s3.published.viewportUnit == Some(500)
            && s3.published.effectsUnit == Some(780)
            && s3.published.events == [780, 500]
  {
    MeasureReading(500, 400, 800);
  }

  /** A rotation, with the width and the orientation both changing,
      commits at once and re-locks at the new height. */
  lemma RotationCommitsAtOnce()
    ensures var s1 := Settled(Touch, 780, 400, 800);
            var s2 := Update(s1, Turned(360, 800, 400));
            && s2.baseline.lastHeight == Some(360)
            && s2.baseline.lastWidth == Some(800)
            && s2.baseline.lastOrientation == Some(Landscape)
            && s2.baseline.lock == Some(360)
            && s2.published.effectsUnit == Some(360)
            && s2.published.events == [780, 360]
  {
    MeasureTurned(360, 800, 400);
  }

  /** An orientation flip alone is a geometry change: a height 10 below the
      accepted 780, which on the same orientation would be noise, commits at
      once and the effects value drops to it with the old lock cleared. */
  lemma OrientationFlipAloneCommits()
    ensures var s1 := Settled(Touch, 780, 400, 800);
            var s2 := Update(s1, Turned(770, 400, 800));
            && s2.baseline.lastHeight == Some(770)
            && s2.baseline.lastOrientation == Some(Landscape)
            && s2.baseline.lock == Some(770)
            && s2.published.effectsUnit == Some(770)
            && s2.published.events == [780, 770]
            && s2.debounce.pending.None?
  {
    MeasureTurned(770, 400, 800);
  }
}
