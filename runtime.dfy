/** The stabiliser as the source keeps it: module-level variables updated in
    place by its helpers and its host callbacks. Each method is proved to
    leave exactly the state the matching Transitions function describes, and
    the entry points keep Transitions.Inv. */
module Runtime {
  import opened Measurement
  import opened Classifier
  import T = Transitions
  import I = Invariants

  class Stabilizer {
    // The baseline and the lock.
    var lastViewportWidth: Option<int>
    var lastViewportHeight: Option<int>
    var lastOrientation: Option<Orientation>
    var lockedViewportHeight: Option<int>
    var hasCoarsePointer: bool
    // The debounce slot, its timer handle, and the timers the host holds.
    var pendingHeight: Option<T.Pending>
    var pendingTimeoutId: bool
    var timers: nat
    // The retry frame handle and the frames the host holds.
    var pendingFrame: bool
    var frames: nat
    // What the page sees.
    var viewportUnit: Option<int>
    var effectsUnit: Option<int>
    var sharedSlot: Option<int>
    var lastBroadcastViewportHeight: Option<int>
    var events: seq<int>
    // The active set and the host's listeners.
    var bindings: seq<T.Binding>
    var attached: multiset<T.Binding>
    var cleanupInstalled: bool
    var pageHideBound: bool

    function Model(): T.State
      reads this
    {
      T.State(
        Baseline(lastViewportWidth, lastViewportHeight, lastOrientation, lockedViewportHeight),
        hasCoarsePointer,
        T.Debounce(pendingHeight, pendingTimeoutId, timers),
        T.Retry(pendingFrame, frames),
        T.Published(viewportUnit, effectsUnit, sharedSlot, lastBroadcastViewportHeight, events),
        T.Lifecycle(bindings, attached, cleanupInstalled, pageHideBound))
    }

    predicate Valid()
      reads this
    {
      T.Inv(Model())
    }

    /** Script load: the first activation runs at once. */
    constructor (env: Env, q: T.PointerQuery)
      ensures Model() == T.Initialize(T.Loaded(q), env, q)
      ensures Valid()
    {
      lastViewportWidth, lastViewportHeight, lastOrientation, lockedViewportHeight := None, None, None, None;
      hasCoarsePointer := q.PointerQuery? && q.matches;
      pendingHeight, pendingTimeoutId, timers := None, false, 0;
      pendingFrame, frames := false, 0;
      viewportUnit, effectsUnit, sharedSlot, lastBroadcastViewportHeight, events := None, None, None, None, [];
      bindings, attached, cleanupInstalled, pageHideBound := [], multiset{}, false, false;
      new;
      I.LoadedSatisfiesInv(q);
      Initialize(env, q);
    }

    method StoreViewportHeight(value: int)
      modifies this
      ensures Model() == old(Model()).(published := T.StoreViewportHeight(old(Model()).published, value))
    {
      if value > 0 {
        sharedSlot := Some(value);
      }
    }

    method BroadcastViewportHeight(value: int)
      modifies this
      ensures Model() == old(Model()).(published := T.BroadcastViewportHeight(old(Model()).published, value))
    {
      StoreViewportHeight(value);
      if lastBroadcastViewportHeight == Some(value) {
        return;
      }
      lastBroadcastViewportHeight := Some(value);
      events := events + [value];
    }

    method ScheduleRetry()
      modifies this
      ensures Model() == old(Model()).(retry := T.ScheduleRetry(old(Model()).retry))
    {
      if pendingFrame {
        return;
      }
      pendingFrame, frames := true, frames + 1;
    }

    method CancelRetry()
      modifies this
      ensures Model() == old(Model()).(retry := T.CancelRetry(old(Model()).retry))
    {
      if pendingFrame {
        pendingFrame, frames := false, T.Dec(frames);
      }
    }

    /** applyViewportEffectsHeight, resolved or not. */
    method ApplyViewportEffectsHeight(value: int, resolved: bool)
      modifies this
      ensures Model() == old(Model()).(published := T.WriteEffects(old(Model()).published,
                 if resolved then value else T.ResolveLockedEffectsHeight(lockedViewportHeight, value)))
    {
      var effects := if resolved then value else T.ResolveLockedEffectsHeight(lockedViewportHeight, value);
      if effects <= 0 {
        return;
      }
      effectsUnit := Some(effects);
    }

    method ApplyViewportHeight(value: int, lock: bool)
      modifies this
      ensures Model() == T.ApplyViewportHeight(old(Model()), value, lock)
    {
      lastViewportHeight := Some(value);
      if lock {
        lockedViewportHeight := Some(value);
      }
      viewportUnit := Some(value);
      var effects := T.ResolveLockedEffectsHeight(lockedViewportHeight, value);
      ApplyViewportEffectsHeight(effects, true);
      BroadcastViewportHeight(value);
    }

    method CommitPendingHeightUpdate()
      modifies this
      ensures Model() == T.CommitPendingHeightUpdate(old(Model()))
    {
      if pendingHeight.None? {
        return;
      }
      var p := pendingHeight.value;
      pendingHeight := None;
      ApplyViewportHeight(p.value, p.lock);
    }

    method CancelTimer()
      modifies this
      ensures Model() == old(Model()).(debounce := T.CancelTimer(old(Model()).debounce))
    {
      if pendingTimeoutId {
        pendingTimeoutId, timers := false, T.Dec(timers);
      }
    }

    method SchedulePendingHeightUpdate(height: int, lock: bool)
      modifies this
      ensures Model() == old(Model()).(debounce :=
                 T.SchedulePendingHeightUpdate(old(Model()).debounce, height, lock))
    {
      pendingHeight := Some(T.Pending(height, lock));
      CancelTimer();
      pendingTimeoutId, timers := true, timers + 1;
    }

    method ClearPendingHeightUpdate()
      modifies this
      ensures Model() == old(Model()).(debounce := T.ClearPendingHeightUpdate(old(Model()).debounce))
    {
      CancelTimer();
      pendingHeight := None;
    }

    /** updateViewportUnit: measure, classify, then skip, buffer or commit. */
    method UpdateViewportUnit(env: Env)
      modifies this
      ensures Model() == T.Update(old(Model()), env)
    {
      var sample := Measure(env);
      if sample.None? {
        ScheduleRetry();
        return;
      }
      var m := sample.value;
      var b := Baseline(lastViewportWidth, lastViewportHeight, lastOrientation, lockedViewportHeight);
      var coarse := hasCoarsePointer;
      Dispatch(m, Decide(b, m, coarse), GeometryChanged(b, m, coarse), !IsKeyboard(m, coarse));
    }

    method Dispatch(m: Sample, outcome: Outcome, geometry: bool, lockOnCommit: bool)
      modifies this
      ensures Model() == T.Dispatch(old(Model()), m, outcome, geometry, lockOnCommit)
    {
      ApplyViewportEffectsHeight(m.height, false);
      CancelRetry();
      if outcome == Skip {
        RefreshBaselines(m, lockOnCommit);
      } else {
        AcceptSample(m, outcome == Defer, geometry, lockOnCommit);
      }
    }

    method RefreshBaselines(m: Sample, lockOnCommit: bool)
      modifies this
      ensures Model() == T.RefreshBaselines(old(Model()), m, lockOnCommit)
    {
      lastViewportWidth := if m.width.Some? then m.width else lastViewportWidth;
      if m.orientation.Some? {
        lastOrientation := m.orientation;
      }
      if pendingTimeoutId {
        SchedulePendingHeightUpdate(m.height, lockOnCommit);
      }
    }

    method AcceptSample(m: Sample, buffer: bool, geometry: bool, lockOnCommit: bool)
      modifies this
      ensures Model() == T.AcceptSample(old(Model()), m, buffer, geometry, lockOnCommit)
    {
      TakeGeometry(m, geometry);
      if buffer {
        SchedulePendingHeightUpdate(m.height, lockOnCommit);
        return;
      }
      ClearPendingHeightUpdate();
      ApplyViewportHeight(m.height, lockOnCommit);
    }

    /** Take the new width, known or not, and a known orientation as the
        baseline; a geometry change also drops the lock. */
    method TakeGeometry(m: Sample, geometry: bool)
      modifies this
      ensures Model() == old(Model()).(baseline := old(Model()).baseline.(
                 lastWidth := m.width,
                 lastOrientation := T.KnownOr(m.orientation, old(lastOrientation)),
                 lock := if geometry then None else old(lockedViewportHeight)))
    {
      lastViewportWidth := m.width;
      if m.orientation.Some? {
        lastOrientation := m.orientation;
      }
      if geometry {
        lockedViewportHeight := None;
      }
    }

    /** The debounce timer's callback. */
    method TimerFires()
      requires Valid() && timers > 0
      modifies this
      ensures Model() == T.TimerFires(old(Model()))
      ensures Valid()
    {
      I.TimerFiresKeepsInv(Model());
      pendingTimeoutId, timers := false, T.Dec(timers);
      CommitPendingHeightUpdate();
    }

    /** The retry frame's callback. */
    method RetryFrameFires(env: Env)
      requires Valid() && frames > 0
      modifies this
      ensures Model() == T.RetryFrameFires(old(Model()), env)
      ensures Valid()
    {
      I.RetryFrameFiresKeepsInv(Model(), env);
      pendingFrame, frames := false, T.Dec(frames);
      UpdateViewportUnit(env);
    }

    /** A resize or orientation listener, or a resize of the visual viewport. */
    method HandleResize(env: Env)
      requires Valid()
      modifies this
      ensures Model() == T.Update(old(Model()), env)
      ensures Valid()
    {
      I.UpdateKeepsInv(Model(), env);
      UpdateViewportUnit(env);
    }

    /** refreshPointerMatch, also the pointer query's change listener. */
    method RefreshPointerMatch(q: T.PointerQuery)
      modifies this
      ensures Model() == T.RefreshPointerMatch(old(Model()), q)
    {
      if q.NoMatchMedia? {
        hasCoarsePointer := false;
        return;
      }
      hasCoarsePointer := q.matches;
    }

    /** The pointer query's change listener. */
    method HandlePointerChange(q: T.PointerQuery)
      requires Valid()
      modifies this
      ensures Model() == T.RefreshPointerMatch(old(Model()), q)
      ensures Valid()
    {
      I.RefreshPointerMatchKeepsInv(Model(), q);
      RefreshPointerMatch(q);
    }

    /** A call of the cleanup handle installed on window, from any caller. */
    method CallCleanupHandle()
      requires Valid() && cleanupInstalled
      modifies this
      ensures Model() == T.Cleanup(old(Model()))
      ensures Valid()
    {
      I.CleanupKeepsInv(Model());
      Cleanup();
    }

    /** The cleanup closure: cancel, clear, run every removal, unbind
        pagehide, drop the lock and both properties. */
    method Cleanup()
      modifies this
      ensures Model() == T.Cleanup(old(Model()))
    {
      CancelRetry();
      ClearPendingHeightUpdate();
      RemoveBindings();
      UnbindPageHide();
      ReleaseLock();
    }

    /** Drop the lock and remove both custom properties. */
    method ReleaseLock()
      modifies this
      ensures Model() == old(Model()).(baseline := old(Model()).baseline.(lock := None),
                 published := old(Model()).published.(viewportUnit := None, effectsUnit := None))
    {
      lockedViewportHeight := None;
      viewportUnit, effectsUnit := None, None;
    }

    /** Pop each removal closure, last first, and run it: each run takes
        its listener off the host. */
    method RemoveBindings()
      modifies this
      ensures Model() == old(Model()).(life := old(Model()).life.(bindings := [],
                 attached := old(attached) - multiset(old(bindings))))
    {
      var remaining, host := PopAll(bindings, attached);
      bindings, attached := remaining, host;
    }

    /** handlePageHide */
    method HandlePageHide()
      requires Valid()
      modifies this
      ensures Model() == T.HandlePageHide(old(Model()))
      ensures Valid()
    {
      I.HandlePageHideKeepsInv(Model());
      pageHideBound := false;
      if cleanupInstalled {
        Cleanup();
      }
      cleanupInstalled := false;
    }

    /** initialize */
    method Initialize(env: Env, q: T.PointerQuery)
      requires Valid()
      modifies this
      ensures Model() == T.Initialize(old(Model()), env, q)
      ensures Valid()
    {
      I.InitializeKeepsInv(Model(), env, q);
      Prepare(env, q);
      UpdateViewportUnit(env);
      ghost var b := Model();
      Install();
      assert Model() == b.(life := b.life.(cleanupInstalled := true, pageHideBound := true));
    }

    /** Install the cleanup handle on window and bind pagehide once. */
    method Install()
      modifies this
      ensures Model() == old(Model()).(life := old(Model()).life.(cleanupInstalled := true, pageHideBound := true))
    {
      cleanupInstalled, pageHideBound := true, true;
    }

    method Prepare(env: Env, q: T.PointerQuery)
      modifies this
      ensures Model() == T.Prepare(old(Model()), env, q)
    {
      if cleanupInstalled {
        Cleanup();
      }
      ghost var s1 := Model();
      UnbindPageHide();
      RefreshPointerMatch(q);
      ResetBaseline();
      assert Model() == T.RefreshPointerMatch(s1.(life := s1.life.(pageHideBound := false)), q)
                          .(baseline := Baseline(None, None, None, None));
      var bs := NewBindings(env, q);
      Bind(bs);
    }

    /** window.removeEventListener('pagehide', handlePageHide) */
    method UnbindPageHide()
      modifies this
      ensures Model() == old(Model()).(life := old(Model()).life.(pageHideBound := false))
    {
      pageHideBound := false;
    }

    /** Forget the last accepted geometry and the lock. */
    method ResetBaseline()
      modifies this
      ensures Model() == old(Model()).(baseline := Baseline(None, None, None, None))
    {
      lastViewportWidth, lastViewportHeight, lastOrientation, lockedViewportHeight := None, None, None, None;
    }

    /** Register the active set's listeners and keep their removals. */
    method Bind(bs: seq<T.Binding>)
      modifies this
      ensures Model() == T.Bind(old(Model()), bs)
    {
      bindings, attached := bs, attached + multiset(bs);
    }

    /** handlePageShow */
    method HandlePageShow(persisted: bool, env: Env, q: T.PointerQuery)
      requires Valid()
      modifies this
      ensures Model() == T.HandlePageShow(old(Model()), persisted, env, q)
      ensures Valid()
    {
      if !persisted || cleanupInstalled {
        return;
      }
      Initialize(env, q);
    }
  }

  /** Popping the removal at index k takes its listener off the host. */
  lemma DetachOne(a0: multiset<T.Binding>, b0: seq<T.Binding>, k: nat)
    requires k < |b0|
    ensures a0 - multiset(b0[k..]) == (a0 - multiset(b0[k + 1..])) - multiset{b0[k]}
  {
    assert b0[k..] == [b0[k]] + b0[k + 1..];
  }

  /** The pop loop over the closure's own array: what is left, and the
      host's listeners after each removal has run. */
  method PopAll(bs: seq<T.Binding>, attached: multiset<T.Binding>)
    returns (remaining: seq<T.Binding>, host: multiset<T.Binding>)
    ensures remaining == []
    ensures host == attached - multiset(bs)
  {
    remaining, host := bs, attached;
    while |remaining| > 0
      invariant |remaining| <= |bs| && remaining == bs[..|remaining|]
      invariant host == attached - multiset(bs[|remaining|..])
      decreases |remaining|
    {
      var k := |remaining| - 1;
      var remove := remaining[k];
      assert remaining[..k] == bs[..k];
      remaining := remaining[..k];
      DetachOne(attached, bs, k);
      host := host - multiset{remove};
    }
    assert bs[0..] == bs;
  }

  /** The listeners initialize adds, built in the order it adds them. */
  method NewBindings(env: Env, q: T.PointerQuery) returns (bs: seq<T.Binding>)
    ensures bs == T.NewBindings(env, q)
  {
    bs := [];
    if q.PointerQuery? && q.listenable {
      bs := bs + [T.PointerChange];
    }
    bs := bs + [T.WindowResize];
    bs := bs + [T.WindowOrientationChange];
    if env.visualViewport.Some? {
      bs := bs + [T.VisualViewportResize];
    }
  }
}
