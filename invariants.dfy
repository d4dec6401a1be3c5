/** Every operation of the stabiliser keeps Transitions.Inv: the effects value
    covers the lock, one pending value and one timer at most (and together),
    one retry frame at most, notifications without repeats, and the host's
    listeners equal to the active set. */
module Invariants {
  import opened Measurement
  import opened Classifier
  import opened Transitions

  lemma BroadcastKeepsInv(p: Published, v: int)
    requires PublishedInv(p) && v > 0
    ensures PublishedInv(BroadcastViewportHeight(p, v))
  {
    var t := BroadcastViewportHeight(p, v);
    if p.lastBroadcast != Some(v) {
      assert t.events == p.events + [v];
      forall i | 0 < i < |t.events| ensures t.events[i - 1] != t.events[i] {
        if i < |p.events| {
          assert t.events[i - 1] == p.events[i - 1] && t.events[i] == p.events[i];
        }
      }
    }
  }

  lemma ApplyViewportHeightKeepsInv(s: State, v: int, lock: bool)
    requires CoreInv(s) && v > 0
    ensures CoreInv(ApplyViewportHeight(s, v, lock))
  {
    var b := s.baseline.(lastHeight := Some(v),
                         lock := if lock then Some(v) else s.baseline.lock);
    var p1 := s.published.(viewportUnit := Some(v));
    var p2 := WriteEffects(p1, ResolveLockedEffectsHeight(b.lock, v));
    assert PublishedInv(p2);
    BroadcastKeepsInv(p2, v);
  }

  lemma ScheduleKeepsInv(d: Debounce, h: int, lock: bool)
    requires DebounceInv(d) && h > 0
    ensures DebounceInv(SchedulePendingHeightUpdate(d, h, lock))
  {
  }

  lemma DispatchKeepsInv(s: State, m: Sample, outcome: Outcome, geometry: bool, lockOnCommit: bool)
    requires CoreInv(s) && m.height > 0
    ensures CoreInv(Dispatch(s, m, outcome, geometry, lockOnCommit))
  {
    var s1 := ApplyViewportEffectsHeight(s, m.height).(retry := CancelRetry(s.retry));
    assert CoreInv(s1);
    if outcome != Skip {
      AcceptSampleKeepsInv(s1, m, outcome == Defer, geometry, lockOnCommit);
    }
  }

  lemma AcceptSampleKeepsInv(s: State, m: Sample, buffer: bool, geometry: bool, lockOnCommit: bool)
    requires CoreInv(s) && m.height > 0
    ensures CoreInv(AcceptSample(s, m, buffer, geometry, lockOnCommit))
  {
    if !buffer {
      var b := s.baseline.(lastWidth := m.width,
                           lastOrientation := KnownOr(m.orientation, s.baseline.lastOrientation),
                           lock := if geometry then None else s.baseline.lock);
      ApplyViewportHeightKeepsInv(s.(baseline := b, debounce := ClearPendingHeightUpdate(s.debounce)),
                                  m.height, lockOnCommit);
    }
  }

  lemma UpdateKeepsInv(s: State, env: Env)
    requires CoreInv(s)
    ensures CoreInv(Update(s, env))
    ensures Update(s, env).life == s.life
  {
    match Measure(env)
    case None =>
    case Some(m) =>
      var b := s.baseline;
      DispatchKeepsInv(s, m, Decide(b, m, s.coarse), GeometryChanged(b, m, s.coarse), !IsKeyboard(m, s.coarse));
  }

  lemma TimerFiresKeepsInv(s: State)
    requires Inv(s) && s.debounce.timers > 0
    ensures Inv(TimerFires(s))
  {
    var p := s.debounce.pending.value;
    var s2 := s.(debounce := Debounce(None, false, 0));
    ApplyViewportHeightKeepsInv(s2, p.value, p.lock);
  }

  lemma RetryFrameFiresKeepsInv(s: State, env: Env)
    requires Inv(s) && s.retry.frames > 0
    ensures Inv(RetryFrameFires(s, env))
  {
    UpdateKeepsInv(s.(retry := Retry(false, Dec(s.retry.frames))), env);
  }

  lemma RefreshPointerMatchKeepsInv(s: State, q: PointerQuery)
    requires Inv(s)
    ensures Inv(RefreshPointerMatch(s, q))
  {
  }

  lemma CleanupKeepsInv(s: State)
    requires Inv(s)
    ensures Inv(Cleanup(s))
    ensures Cleanup(s).life.attached == multiset{}
  {
  }

  lemma HandlePageHideKeepsInv(s: State)
    requires Inv(s)
    ensures Inv(HandlePageHide(s))
  {
    if s.life.cleanupInstalled {
      CleanupKeepsInv(s.(life := s.life.(pageHideBound := false)));
    }
  }

  lemma NewBindingsDistinct(env: Env, q: PointerQuery)
    ensures Distinct(NewBindings(env, q))
  {
  }

  lemma InitializeKeepsInv(s: State, env: Env, q: PointerQuery)
    requires Inv(s)
    ensures Inv(Initialize(s, env, q))
    ensures Initialize(s, env, q).life.attached == multiset(NewBindings(env, q))
  {
    var s1 := if s.life.cleanupInstalled then Cleanup(s) else s;
    if s.life.cleanupInstalled {
      CleanupKeepsInv(s);
    }
    assert s1.life.attached == multiset{};
    NewBindingsDistinct(env, q);
    var s2 := RefreshPointerMatch(s1.(life := s1.life.(pageHideBound := false)), q);
    var s3 := Bind(s2.(baseline := Baseline(None, None, None, None)), NewBindings(env, q));
    assert s3 == Prepare(s, env, q);
    assert CoreInv(s3);
    UpdateKeepsInv(s3, env);
  }

  lemma HandlePageShowKeepsInv(s: State, persisted: bool, env: Env, q: PointerQuery)
    requires Inv(s)
    ensures Inv(HandlePageShow(s, persisted, env, q))
  {
    if persisted && !s.life.cleanupInstalled {
      InitializeKeepsInv(s, env, q);
    }
  }

  lemma LoadedSatisfiesInv(q: PointerQuery)
    ensures Inv(Loaded(q))
  {
  }
}
