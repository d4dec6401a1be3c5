/** What the stabiliser promises about one measurement, the debounce timer,
    commits, notifications and its lifecycle, stated over Transitions. */
module Properties {
  import opened Measurement
  import opened Classifier
  import opened Transitions
  import opened Invariants

  /** With no usable height, an update only makes sure one retry frame is
      outstanding; a second such update changes nothing. */
  lemma MissingHeightOnlyRequestsRetry(s: State, env: Env)
    requires Inv(s)
    requires !Usable(VisualHeight(env)) && !Usable(env.innerHeight) && !Usable(env.clientHeight)
    ensures Update(s, env).retry == Retry(true, 1)
    ensures Update(s, env).(retry := s.retry) == s
    ensures Update(Update(s, env), env) == Update(s, env)
  {
  }

  /** After any measured update the effects value covers both the new height
      and the lock, and equals one of them: it is their maximum. On an update
      that does not commit, it is the maximum with the lock held before. */
  lemma EffectsCoverLock(s: State, env: Env)
    requires Inv(s) && Measure(env).Some?
    ensures var t := Update(s, env);
            var h := Measure(env).value.height;
            && t.published.effectsUnit.Some?
            && t.published.effectsUnit.value >= h
            && (t.baseline.lock.Some? ==> t.published.effectsUnit.value >= t.baseline.lock.value)
            && (t.published.effectsUnit == Some(h) || t.published.effectsUnit == t.baseline.lock)
    ensures var m := Measure(env).value;
            Decide(s.baseline, m, s.coarse) != CommitNow ==>
              Update(s, env).published.effectsUnit ==
                Some(ResolveLockedEffectsHeight(s.baseline.lock, m.height))
  {
    var m := Measure(env).value;
    var e := Update(s, env).published.effectsUnit;
    var l := Update(s, env).baseline.lock;
    assert e == Some(ResolveLockedEffectsHeight(l, m.height)) by {
      EffectsFollowLock(s, m);
    }
  }

  /** The effects value an update leaves is the new height resolved against
      the lock that update leaves, which on a non-commit is the old lock. */
  lemma EffectsFollowLock(s: State, m: Sample)
    requires CoreInv(s) && m.height > 0
    ensures var t := ApplySample(s, m);
            t.published.effectsUnit == Some(ResolveLockedEffectsHeight(t.baseline.lock, m.height))
    ensures Decide(s.baseline, m, s.coarse) != CommitNow ==>
            ApplySample(s, m).baseline.lock == s.baseline.lock
  {
    var o := Decide(s.baseline, m, s.coarse);
    if o == CommitNow {
      var g := GeometryChanged(s.baseline, m, s.coarse);
      var k := !IsKeyboard(m, s.coarse);
      var s1 := ApplyViewportEffectsHeight(s, m.height).(retry := CancelRetry(s.retry));
      var b := s1.baseline.(lastWidth := m.width,
                            lastOrientation := KnownOr(m.orientation, s1.baseline.lastOrientation),
                            lock := if g then None else s1.baseline.lock);
      var s2 := s1.(baseline := b, debounce := ClearPendingHeightUpdate(s1.debounce));
      assert ApplySample(s, m) == ApplyViewportHeight(s2, m.height, k);
    }
  }

  /** With no accepted height yet, a measurement commits at once: nothing is
      buffered, no timer is left, and the value is published and stored. */
  lemma FirstSampleCommitsImmediately(s: State, env: Env)
    requires CoreInv(s) && s.baseline.lastHeight.None? && Measure(env).Some?
    ensures var t := Update(s, env);
            var h := Measure(env).value.height;
            && t.baseline.lastHeight == Some(h)
            && t.published.viewportUnit == Some(h)
            && t.published.sharedSlot == Some(h)
            && t.published.lastBroadcast == Some(h)
            && t.debounce == Debounce(None, false, 0)
  {
  }

  /** A geometry change commits at once, after clearing the old lock (so the
      effects value is exactly the new height), cancels any buffered height,
      and takes the new width as the baseline. */
  lemma GeometryChangeCommitsImmediately(s: State, env: Env)
    requires Inv(s) && Measure(env).Some?
    requires GeometryChanged(s.baseline, Measure(env).value, s.coarse)
    ensures var t := Update(s, env);
            var m := Measure(env).value;
            && t.baseline.lastHeight == Some(m.height)
            && t.baseline.lastWidth == m.width
            && t.baseline.lock == (if IsKeyboard(m, s.coarse) then None else Some(m.height))
            && t.published.viewportUnit == Some(m.height)
            && t.published.effectsUnit == Some(m.height)
            && t.published.lastBroadcast == Some(m.height)
            && t.debounce == Debounce(None, false, 0)
  {
  }

  /** When no update is needed nothing is committed: the height baseline, the
      lock, the published height, the slot and the notifications stay; width
      and orientation baselines take each known new reading; a pending value is
      replaced by the new height only if its timer is outstanding. */
  lemma NoUpdateRefreshesBaselines(s: State, env: Env)
    requires Inv(s) && Measure(env).Some?
    requires Decide(s.baseline, Measure(env).value, s.coarse) == Skip
    ensures var t := Update(s, env);
            var m := Measure(env).value;
            && t.baseline.lastHeight == s.baseline.lastHeight
            && t.baseline.lock == s.baseline.lock
            && t.baseline.lastWidth == (if m.width.Some? then m.width else s.baseline.lastWidth)
            && t.baseline.lastOrientation ==
                 (if m.orientation.Some? then m.orientation else s.baseline.lastOrientation)
            && t.published.viewportUnit == s.published.viewportUnit
            && t.published.sharedSlot == s.published.sharedSlot
            && t.published.events == s.published.events
            && t.debounce.timers == s.debounce.timers
            && t.debounce.pending ==
                 (if s.debounce.pendingTimeout
                  then Some(Pending(m.height, !IsKeyboard(m, s.coarse))) else None)
  {
  }

  /** Noise on the same geometry, strictly inside both thresholds and with no
      keyboard transition, commits nothing. */
  lemma NoiseCommitsNothing(s: State, env: Env)
    requires Inv(s) && Measure(env).Some? && s.baseline.lastHeight.Some?
    requires var m := Measure(env).value;
             && !GeometryChanged(s.baseline, m, s.coarse)
             && s.baseline.lastHeight.value - DecreaseThreshold(s.coarse) < m.height
             && m.height < s.baseline.lastHeight.value + IncreaseThreshold(s.coarse)
             && IsKeyboard(m, s.coarse) == WasKeyboard(s.baseline, m, s.coarse)
    ensures Update(s, env).baseline.lastHeight == s.baseline.lastHeight
    ensures Update(s, env).published.viewportUnit == s.published.viewportUnit
    ensures Update(s, env).published.events == s.published.events
  {
    NoiseIsSkipped(s.baseline, Measure(env).value, s.coarse);
    NoUpdateRefreshesBaselines(s, env);
  }

  /** A height-only update is buffered, never committed: the single slot holds
      the new height, exactly one timer runs, and nothing is published yet
      except the effects value. */
  lemma HeightOnlyUpdateIsBuffered(s: State, env: Env)
    requires Inv(s) && Measure(env).Some?
    requires Decide(s.baseline, Measure(env).value, s.coarse) == Defer
    ensures var t := Update(s, env);
            var m := Measure(env).value;
            && t.debounce == Debounce(Some(Pending(m.height, !IsKeyboard(m, s.coarse))), true, 1)
            && t.baseline.lastHeight == s.baseline.lastHeight
            && t.baseline.lock == s.baseline.lock
            && t.published.viewportUnit == s.published.viewportUnit
            && t.published.sharedSlot == s.published.sharedSlot
            && t.published.events == s.published.events
  {
  }

  /** A keyboard closing on unchanged geometry is always buffered, with the
      lock to be set, whatever the size of the growth. */
  lemma KeyboardClosingIsBuffered(s: State, env: Env)
    requires Inv(s) && Measure(env).Some? && s.baseline.lastHeight.Some?
    requires var m := Measure(env).value;
             && WasKeyboard(s.baseline, m, s.coarse) && !IsKeyboard(m, s.coarse)
             && !GeometryChanged(s.baseline, m, s.coarse)
    ensures Update(s, env).debounce == Debounce(Some(Pending(Measure(env).value.height, true)), true, 1)
  {
    KeyboardClosingForcesUpdate(s.baseline, Measure(env).value, s.coarse);
    HeightOnlyUpdateIsBuffered(s, env);
  }

  /** The chrome-hide rule at the level of one update: coarse pointer, a
      lock, visual-viewport growth of at least the coarse threshold above the
      lock and no keyboard closing leave the committed state alone; the effects
      value still follows the new, larger height. */
  lemma SuppressedGrowthCommitsNothing(s: State, env: Env)
    requires Inv(s) && s.coarse && Measure(env).Some?
    requires s.baseline.lastHeight.Some? && s.baseline.lock.Some?
    requires Usable(VisualHeight(env))
    requires var m := Measure(env).value;
             && m.height >= s.baseline.lastHeight.value + CoarseHeightChangeThreshold
             && m.height > s.baseline.lock.value
             && !GeometryChanged(s.baseline, m, true)
             && !KeyboardRestoring(s.baseline, m, true)
    ensures var t := Update(s, env);
            && t.baseline.lastHeight == s.baseline.lastHeight
            && t.baseline.lock == s.baseline.lock
            && t.published.viewportUnit == s.published.viewportUnit
            && t.published.events == s.published.events
            && t.published.effectsUnit == Some(Measure(env).value.height)
  {
    CoarseGrowthIsSkipped(s.baseline, Measure(env).value);
    NoUpdateRefreshesBaselines(s, env);
  }

  /** The timer commits exactly the buffered value and empties the slot. */
  lemma TimerCommitsPendingValue(s: State)
    requires Inv(s) && s.debounce.timers > 0
    ensures s.debounce.pending.Some?
    ensures var p := s.debounce.pending.value;
            var t := TimerFires(s);
            && t.baseline.lastHeight == Some(p.value)
            && t.baseline.lock == (if p.lock then Some(p.value) else s.baseline.lock)
            && t.published.viewportUnit == Some(p.value)
            && t.published.sharedSlot == Some(p.value)
            && t.debounce == Debounce(None, false, 0)
  {
  }

  /** Buffering supersedes: a second buffered height replaces the first and
      restarts the one timer, as if the first had never been buffered. */
  lemma ScheduleSupersedes(d: Debounce, h1: int, l1: bool, h2: int, l2: bool)
    ensures SchedulePendingHeightUpdate(SchedulePendingHeightUpdate(d, h1, l1), h2, l2)
            == SchedulePendingHeightUpdate(d, h2, l2)
  {
  }

  /** Two measurements in a row that both buffer (or where the second only
      extends the debounce) end, when the timer fires, in a commit of the
      second height. */
  lemma LatestBufferedHeightWins(s: State, env1: Env, env2: Env)
    requires Inv(s) && Measure(env1).Some? && Measure(env2).Some?
    requires Decide(s.baseline, Measure(env1).value, s.coarse) == Defer
    requires var s1 := Update(s, env1);
             Decide(s1.baseline, Measure(env2).value, s1.coarse) != CommitNow
    ensures var t := TimerFires(Update(Update(s, env1), env2));
            var h2 := Measure(env2).value.height;
            && t.baseline.lastHeight == Some(h2)
            && t.published.viewportUnit == Some(h2)
            && t.debounce == Debounce(None, false, 0)
  {
    var s1 := Update(s, env1);
    HeightOnlyUpdateIsBuffered(s, env1);
    UpdateKeepsInv(s, env1);
    var s2 := Update(s1, env2);
    if Decide(s1.baseline, Measure(env2).value, s1.coarse) == Defer {
      HeightOnlyUpdateIsBuffered(s1, env2);
    } else {
      NoUpdateRefreshesBaselines(s1, env2);
    }
    UpdateKeepsInv(s1, env2);
    TimerCommitsPendingValue(s2);
  }

  /** A commit records the height, sets the lock exactly when asked to,
      always writes the slot, and notifies exactly when the value is new. */
  lemma CommitPublishes(s: State, v: int, lock: bool)
    requires Inv(s) && v > 0
    ensures var t := ApplyViewportHeight(s, v, lock);
            && t.baseline.lastHeight == Some(v)
            && (t.baseline.lock == Some(v) <==> lock || s.baseline.lock == Some(v))
            && (!lock ==> t.baseline.lock == s.baseline.lock)
            && t.published.viewportUnit == Some(v)
            && t.published.sharedSlot == Some(v)
            && (|t.published.events| == |s.published.events| + 1 <==> s.published.lastBroadcast != Some(v))
            && (s.published.lastBroadcast == Some(v) ==> t.published.events == s.published.events)
            && t.published.events[|t.published.events| - 1] == v
  {
  }

  /** Repeated commits of one value notify at most once. */
  lemma RepeatedCommitNotifiesOnce(s: State, v: int, l1: bool, l2: bool)
    requires Inv(s) && v > 0
    ensures var t1 := ApplyViewportHeight(s, v, l1);
            var t2 := ApplyViewportHeight(t1, v, l2);
            && t2.published.events == t1.published.events
            && |t2.published.events| <= |s.published.events| + 1
  {
    CommitPublishes(s, v, l1);
  }

  /** Teardown cancels the retry frame and the timer, empties the slot,
      detaches every listener, clears the lock and both properties; the
      height baseline and the last broadcast value survive it. */
  lemma CleanupReleasesEverything(s: State)
    requires Inv(s)
    ensures var t := Cleanup(s);
            && t.retry == Retry(false, 0)
            && t.debounce == Debounce(None, false, 0)
            && t.life.bindings == [] && t.life.attached == multiset{}
            && t.baseline.lock.None?
            && t.published.viewportUnit.None? && t.published.effectsUnit.None?
            && t.baseline.lastHeight == s.baseline.lastHeight
            && t.published.lastBroadcast == s.published.lastBroadcast
  {
    CleanupKeepsInv(s);
  }

  /** Activation attaches each listener exactly once, however often it is
      repeated, installs the cleanup handle and the page-hide listener, and
      takes the pointer kind from the query. */
  lemma InitializeAttachesOnce(s: State, env: Env, q: PointerQuery)
    requires Inv(s)
    ensures var t := Initialize(s, env, q);
            && t.life.cleanupInstalled && t.life.pageHideBound
            && t.life.attached == multiset(NewBindings(env, q))
            && (forall b :: t.life.attached[b] <= 1)
            && t.coarse == (q.PointerQuery? && q.matches)
  {
    InitializeKeepsInv(s, env, q);
    var a := Initialize(s, env, q).life.attached;
    NewBindingsDistinct(env, q);
    forall b ensures a[b] <= 1 {
      DistinctCountsOnce(NewBindings(env, q), b);
    }
  }

  /** Activation forgets the old baseline, so its first usable sample is
      committed at once. */
  lemma InitializeCommitsFirstSample(s: State, env: Env, q: PointerQuery)
    requires Inv(s) && Measure(env).Some?
    ensures var t := Initialize(s, env, q);
            var h := Measure(env).value.height;
            && t.baseline.lastHeight == Some(h)
            && t.published.viewportUnit == Some(h)
            && t.debounce == Debounce(None, false, 0)
  {
    var s1 := if s.life.cleanupInstalled then Cleanup(s) else s;
    if s.life.cleanupInstalled {
      CleanupKeepsInv(s);
    }
    var s2 := RefreshPointerMatch(s1.(life := s1.life.(pageHideBound := false)), q);
    var s3 := Bind(s2.(baseline := Baseline(None, None, None, None)), NewBindings(env, q));
    assert s3 == Prepare(s, env, q);
    assert CoreInv(s3);
    FirstSampleCommitsImmediately(s3, env);
  }

  lemma {:induction false} DistinctCountsOnce(bs: seq<Binding>, b: Binding)
    requires Distinct(bs)
    ensures multiset(bs)[b] <= 1
  {
    if bs != [] {
      var rest := bs[1..];
      assert bs == [bs[0]] + rest;
      assert Distinct(rest) by {
        forall i, j | 0 <= i < j < |rest| ensures rest[i] != rest[j] {
          assert rest[i] == bs[i + 1] && rest[j] == bs[j + 1];
        }
      }
      DistinctCountsOnce(rest, b);
      if bs[0] == b {
        assert forall k :: 0 <= k < |rest| ==> rest[k] == bs[k + 1];
      }
    }
  }

  /** Leaving the page tears the stabiliser down and drops the handle. */
  lemma PageHideTearsDown(s: State)
    requires Inv(s)
    ensures !HandlePageHide(s).life.cleanupInstalled
    ensures s.life.cleanupInstalled ==>
            var t := HandlePageHide(s);
            && !t.life.pageHideBound
            && t.life.attached == multiset{}
            && t.debounce == Debounce(None, false, 0)
            && t.retry == Retry(false, 0)
    ensures !s.life.cleanupInstalled ==>
            HandlePageHide(s) == s.(life := s.life.(pageHideBound := false))
  {
  }

  /** A page restored from the cache is re-activated only when inactive. */
  lemma PageShowReactivatesOnlyWhenInactive(s: State, persisted: bool, env: Env, q: PointerQuery)
    requires Inv(s)
    ensures HandlePageShow(s, persisted, env, q).life.cleanupInstalled ==
              (persisted || s.life.cleanupInstalled)
    ensures !persisted || s.life.cleanupInstalled ==> HandlePageShow(s, persisted, env, q) == s
  {
  }
}
