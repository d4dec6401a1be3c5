/** The stabiliser's whole state as a value, and one function per operation
    of the source: each gives the state after the operation from the state
    before it. The class in module Runtime is proved to follow these. */
module Transitions {
  import opened Measurement
  import opened Classifier

  /** A buffered height and whether committing it sets the lock. */
  datatype Pending = Pending(value: int, lock: bool)

  /** The single pending slot, the debounce timer handle, and the number of
      debounce timers the host holds for the stabiliser. */
  datatype Debounce = Debounce(pending: Option<Pending>, pendingTimeout: bool, timers: nat)

  /** The retry frame handle and the number of animation frames the host holds. */
  datatype Retry = Retry(pendingFrame: bool, frames: nat)

  /** What consumers see: the two custom properties (as heights in pixels),
      the shared window slot, the last broadcast value, and the
      viewportheightchange events dispatched so far, in order. */
  datatype Published = Published(
    viewportUnit: Option<int>,
    effectsUnit: Option<int>,
    sharedSlot: Option<int>,
    lastBroadcast: Option<int>,
    events: seq<int>)

  /** Listeners the stabiliser registers while it is active. */
  datatype Binding = PointerChange | WindowResize | WindowOrientationChange | VisualViewportResize

  /** The removal closures of the active set, the listeners the host has
      registered, whether the cleanup handle is installed on window, and
      whether the pagehide listener is bound. */
  datatype Lifecycle = Lifecycle(
    bindings: seq<Binding>,
    attached: multiset<Binding>,
    cleanupInstalled: bool,
    pageHideBound: bool)

  /** The coarse-pointer media query: absent when matchMedia is missing;
      `listenable` when it supports addEventListener or addListener. */
  datatype PointerQuery = NoMatchMedia | PointerQuery(matches: bool, listenable: bool)

  datatype State = State(
    baseline: Baseline,
    coarse: bool,
    debounce: Debounce,
    retry: Retry,
    published: Published,
    life: Lifecycle)

  predicate Positive(o: Option<int>)
  {
    o.Some? ==> o.value > 0
  }

  predicate NoRepeats(events: seq<int>)
  {
    forall i :: 0 < i < |events| ==> events[i - 1] != events[i]
  }

  predicate Distinct(bs: seq<Binding>)
  {
    forall i, j :: 0 <= i < j < |bs| ==> bs[i] != bs[j]
  }

  /** The lock is a floor of the effects value. */
  predicate FloorInv(b: Baseline, p: Published)
  {
    && Positive(b.lastHeight) && Positive(b.lock)
    && Positive(p.viewportUnit) && Positive(p.effectsUnit)
    && (b.lock.Some? ==> p.effectsUnit.Some? && p.effectsUnit.value >= b.lock.value)
  }

  /** One pending value at most, exactly while one timer is outstanding. */
  predicate DebounceInv(d: Debounce)
  {
    && (d.pending.Some? <==> d.pendingTimeout)
    && (d.pending.Some? ==> d.pending.value.value > 0)
    && d.timers == (if d.pendingTimeout then 1 else 0)
  }

  /** One retry frame at most. */
  predicate RetryInv(r: Retry)
  {
    r.frames == (if r.pendingFrame then 1 else 0)
  }

  /** The shared slot and the notifications follow the last broadcast value,
      and no two consecutive notifications carry the same height. */
  predicate PublishedInv(p: Published)
  {
    && p.sharedSlot == p.lastBroadcast
    && (p.events == [] <==> p.lastBroadcast.None?)
    && (p.events != [] ==> p.lastBroadcast == Some(p.events[|p.events| - 1]))
    && NoRepeats(p.events)
  }

  /** The host holds exactly the listeners of the active set, each once. */
  predicate LifecycleInv(l: Lifecycle)
  {
    && l.attached == multiset(l.bindings)
    && Distinct(l.bindings)
    && (!l.cleanupInstalled ==> l.bindings == [])
  }

  /** The part of Inv that measurements, timers and frames maintain. */
  predicate CoreInv(s: State)
  {
    FloorInv(s.baseline, s.published) && DebounceInv(s.debounce) &&
    RetryInv(s.retry) && PublishedInv(s.published)
  }

  /** What every reachable state satisfies. */
  predicate Inv(s: State)
  {
    CoreInv(s) && LifecycleInv(s.life)
  }

  function Dec(n: nat): nat
  {
    if n > 0 then n - 1 else 0
  }

  /** resolveLockedEffectsHeight: the larger of a positive lock and a positive value. */
  function ResolveLockedEffectsHeight(lock: Option<int>, value: int): (r: int)
    ensures Usable(lock) ==> r >= lock.value
    ensures value > 0 ==> r >= value
    ensures r == value || (lock.Some? && r == lock.value)
    ensures !Usable(lock) ==> r == value
  {
    if !Usable(lock) then value
    else if value > 0 then (if lock.value >= value then lock.value else value)
    else lock.value
  }

  /** storeViewportHeight */
  function StoreViewportHeight(p: Published, value: int): Published
  {
    if value > 0 then p.(sharedSlot := Some(value)) else p
  }

  /** broadcastViewportHeight: store, then notify only on a new value. */
  function BroadcastViewportHeight(p: Published, value: int): Published
  {
    var p1 := StoreViewportHeight(p, value);
    if p1.lastBroadcast == Some(value) then p1
    else p1.(lastBroadcast := Some(value), events := p1.events + [value])
  }

  /** scheduleRetry: ask for a frame unless one is already outstanding. */
  function ScheduleRetry(r: Retry): Retry
  {
    if r.pendingFrame then r else Retry(true, r.frames + 1)
  }

  /** cancelAnimationFrame on the outstanding retry frame, if any. */
  function CancelRetry(r: Retry): Retry
  {
    if r.pendingFrame then Retry(false, Dec(r.frames)) else r
  }

  /** applyViewportEffectsHeight with an already resolved value. */
  function WriteEffects(p: Published, effects: int): Published
  {
    if effects > 0 then p.(effectsUnit := Some(effects)) else p
  }

  /** applyViewportEffectsHeight with a value still to be resolved against the lock. */
  function ApplyViewportEffectsHeight(s: State, value: int): State
  {
    s.(published := WriteEffects(s.published, ResolveLockedEffectsHeight(s.baseline.lock, value)))
  }

  /** applyViewportHeight: the commit. */
  function ApplyViewportHeight(s: State, value: int, lock: bool): State
  {
    var b := s.baseline.(lastHeight := Some(value),
                         lock := if lock then Some(value) else s.baseline.lock);
    var p1 := s.published.(viewportUnit := Some(value));
    var p2 := WriteEffects(p1, ResolveLockedEffectsHeight(b.lock, value));
    s.(baseline := b, published := BroadcastViewportHeight(p2, value))
  }

  /** commitPendingHeightUpdate */
  function CommitPendingHeightUpdate(s: State): State
  {
    match s.debounce.pending
    case None => s
    case Some(p) =>
      ApplyViewportHeight(s.(debounce := s.debounce.(pending := None)), p.value, p.lock)
  }

  /** clearTimeout on the outstanding debounce timer, if any. */
  function CancelTimer(d: Debounce): Debounce
  {
    if d.pendingTimeout then d.(pendingTimeout := false, timers := Dec(d.timers)) else d
  }

  /** schedulePendingHeightUpdate: overwrite the slot and restart the one timer. */
  function SchedulePendingHeightUpdate(d: Debounce, height: int, lock: bool): Debounce
  {
    var d1 := CancelTimer(d.(pending := Some(Pending(height, lock))));
    d1.(pendingTimeout := true, timers := d1.timers + 1)
  }

  /** clearPendingHeightUpdate */
  function ClearPendingHeightUpdate(d: Debounce): Debounce
  {
    CancelTimer(d).(pending := None)
  }

  /** updateViewportUnit: one measurement and what follows from it. */
  function Update(s: State, env: Env): State
  {
    match Measure(env)
    case None => s.(retry := ScheduleRetry(s.retry))
    case Some(m) => ApplySample(s, m)
  }

  /** The part of updateViewportUnit after a height was found. */
  function ApplySample(s: State, m: Sample): State
  {
    var b := s.baseline;
    Dispatch(s, m, Decide(b, m, s.coarse), GeometryChanged(b, m, s.coarse), !IsKeyboard(m, s.coarse))
  }

  /** What updateViewportUnit does once the sample is classified: always write
      the effects value and drop the retry frame; then refresh the baselines
      on Skip, or accept the sample (buffered on Defer, at once on CommitNow). */
  function Dispatch(s: State, m: Sample, outcome: Outcome, geometry: bool, lockOnCommit: bool): State
  {
    var s1 := ApplyViewportEffectsHeight(s, m.height).(retry := CancelRetry(s.retry));
    if outcome == Skip then RefreshBaselines(s1, m, lockOnCommit)
    else AcceptSample(s1, m, outcome == Defer, geometry, lockOnCommit)
  }

  /** The known one of a new and an old reading. */
  function KnownOr<X>(reading: Option<X>, previous: Option<X>): Option<X>
  {
    if reading.Some? then reading else previous
  }

  /** No update: take each known width and orientation as the baseline, and
      move the pending value to the new height only while its timer runs. */
  function RefreshBaselines(s: State, m: Sample, lockOnCommit: bool): State
  {
    var b := s.baseline.(lastWidth := KnownOr(m.width, s.baseline.lastWidth),
                         lastOrientation := KnownOr(m.orientation, s.baseline.lastOrientation));
    var d := if s.debounce.pendingTimeout
             then SchedulePendingHeightUpdate(s.debounce, m.height, lockOnCommit)
             else s.debounce;
    s.(baseline := b, debounce := d)
  }

  /** An update: take the new width (known or not) and a known orientation,
      drop the lock on a geometry change, then buffer or commit. */
  function AcceptSample(s: State, m: Sample, buffer: bool, geometry: bool, lockOnCommit: bool): State
  {
    var b := s.baseline.(lastWidth := m.width,
                         lastOrientation := KnownOr(m.orientation, s.baseline.lastOrientation),
                         lock := if geometry then None else s.baseline.lock);
    if buffer then
      s.(baseline := b, debounce := SchedulePendingHeightUpdate(s.debounce, m.height, lockOnCommit))
    else
      ApplyViewportHeight(s.(baseline := b, debounce := ClearPendingHeightUpdate(s.debounce)),
                          m.height, lockOnCommit)
  }

  /** The debounce timer's callback: the host drops the timer, then the slot is committed. */
  function TimerFires(s: State): State
  {
    var d := s.debounce.(pendingTimeout := false, timers := Dec(s.debounce.timers));
    CommitPendingHeightUpdate(s.(debounce := d))
  }

  /** The retry frame's callback: the host drops the frame, then one more measurement. */
  function RetryFrameFires(s: State, env: Env): State
  {
    Update(s.(retry := Retry(false, Dec(s.retry.frames))), env)
  }

  /** refreshPointerMatch */
  function RefreshPointerMatch(s: State, q: PointerQuery): State
  {
    s.(coarse := q.PointerQuery? && q.matches)
  }

  /** The cleanup closure: cancel frame and timer, detach the active set,
      clear the lock and remove both published properties. */
  function Cleanup(s: State): State
  {
    var l := s.life;
    s.(retry := CancelRetry(s.retry),
       debounce := ClearPendingHeightUpdate(s.debounce),
       life := l.(attached := l.attached - multiset(l.bindings), bindings := [], pageHideBound := false),
       baseline := s.baseline.(lock := None),
       published := s.published.(viewportUnit := None, effectsUnit := None))
  }

  /** handlePageHide: the once-listener is gone; run and drop the cleanup handle. */
  function HandlePageHide(s: State): State
  {
    var s1 := s.(life := s.life.(pageHideBound := false));
    var s2 := if s1.life.cleanupInstalled then Cleanup(s1) else s1;
    s2.(life := s2.life.(cleanupInstalled := false))
  }

  /** The listeners initialize registers, in order. */
  function NewBindings(env: Env, q: PointerQuery): seq<Binding>
  {
    (if q.PointerQuery? && q.listenable then [PointerChange] else [])
    + [WindowResize, WindowOrientationChange]
    + (if env.visualViewport.Some? then [VisualViewportResize] else [])
  }

  /** initialize: prepare a fresh active set, measure, then install the
      cleanup handle and bind pagehide. */
  function Initialize(s: State, env: Env, q: PointerQuery): State
  {
    var s1 := Update(Prepare(s, env, q), env);
    s1.(life := s1.life.(cleanupInstalled := true, pageHideBound := true))
  }

  /** The part of initialize before its measurement: tear down any active
      set, drop the pagehide listener, refresh the pointer kind, reset the
      baseline and bind the listeners. */
  function Prepare(s: State, env: Env, q: PointerQuery): State
  {
    var s1 := if s.life.cleanupInstalled then Cleanup(s) else s;
    var s2 := RefreshPointerMatch(s1.(life := s1.life.(pageHideBound := false)), q);
    Bind(s2.(baseline := Baseline(None, None, None, None)), NewBindings(env, q))
  }

  /** Register listeners on the host; a fresh active set records their removals. */
  function Bind(s: State, bs: seq<Binding>): State
  {
    s.(life := s.life.(bindings := bs, attached := s.life.attached + multiset(bs)))
  }

  /** handlePageShow: re-activate after a restore from the page cache, unless active. */
  function HandlePageShow(s: State, persisted: bool, env: Env, q: PointerQuery): State
  {
    if !persisted || s.life.cleanupInstalled then s else Initialize(s, env, q)
  }

  /** The state at script load, before the first initialize. */
  function Loaded(q: PointerQuery): State
  {
    State(Baseline(None, None, None, None), q.PointerQuery? && q.matches,
          Debounce(None, false, 0), Retry(false, 0),
          Published(None, None, None, None, []),
          Lifecycle([], multiset{}, false, false))
  }
}
