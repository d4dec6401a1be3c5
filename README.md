# Viewport-height stabiliser, modelled in Dafny

`script.js` begins with a self-contained script that keeps a CSS custom
property (`--viewport-unit`, one hundredth of the usable viewport height)
steady on browsers without dynamic viewport units. On every resize,
orientation change or visual-viewport resize it measures the viewport,
classifies the new sample against the last accepted one, and then does one
of three things:

- it ignores the sample and only refreshes the width and orientation baselines;
- it buffers a height-only change behind a 50 ms debounce timer;
- it commits at once when the geometry changed or nothing was accepted yet.

A second property, `--viewport-effects-unit`, never drops below a "locked"
height. Each commit updates a shared window slot. It dispatches a
`viewportheightchange` event only when the value differs from the last one
broadcast. On touch devices the script pays attention to the on-screen
keyboard and the browser chrome as it shows and hides. The script tears
itself down on `pagehide` and re-activates on a `pageshow` from the page cache.

The model has four layers:

- `Measurement`: the host readings (`Env`), `pickDimension`, `getOrientation`,
  and the one-sample measurement.
- `Classifier`: the thresholds and every predicate `updateViewportUnit`
  computes, ending in the three-way `Decide`.
- `Transitions`: the script's whole state as a value (`State`), and one
  function per helper or callback giving the state after it.
  `Invariants` proves that every operation keeps `Inv`:
  - the effects value stays at or above the lock;
  - there is one pending value at most, exactly while one debounce timer runs;
  - there is one retry frame at most;
  - no event repeats the height of the event before it;
  - the host's listeners are exactly the active set, each registered once.

  `Properties` states the behaviour over all inputs. `Scenarios` proves
  what the model does on concrete phone-like sequences of readings.
- `Runtime.Stabilizer`: a class whose fields are the script's module-level
  variables. Its methods update those fields in place, mostly in the order
  the script does. One difference that changes nothing: `Prepare` registers
  the pointer-change listener after the baseline reset, where the script
  registers it before. The cleanup closure's `while (bindings.length)` pop loop is
  `Runtime.PopAll`. Each method is proved to leave exactly the state the
  matching `Transitions` function describes. The host callbacks (`TimerFires`,
  `RetryFrameFires`, `HandleResize`, `HandlePointerChange`, `CallCleanupHandle`,
  `HandlePageHide`, `HandlePageShow`) keep `Valid()`.

Host effects are abstracted as follows:

- Each custom property is an optional height in pixels.
- The shared slot is an optional height.
- The dispatched events are a sequence of heights.
- The host's timers and animation frames are counters.
- The host's registered listeners are a multiset of `Binding` tags.
- Every reading is an integer standing for an already rounded pixel count.
  A reading that is absent, not a number or not finite is `None`.

The code is followed in two places where a reader might expect otherwise:

- The lock is not monotone. Every committed measurement that does not look
  like a keyboard overwrites it, so a shrinking viewport lowers both the lock
  and, at the next commit, the effects value. `Scenarios.LockCanGoDown`
  shows 1000 going down to 960.
- The effects value is written before classification, as the maximum of
  the lock and the new height. So on a touch device, growth that the
  chrome-hide rule ignores still raises the effects value, even though
  nothing is committed. `Scenarios.ChromeHideGrowthIsIgnored` shows this:
  screen 800, accepted 780, visual viewport 960, effects value 960.

## Model

| member | source | states |
|---|---|---|
| Measurement.PickDimension | script.js:114-116 | the result is None exactly when no candidate is a positive number; otherwise it is the first positive candidate |
| Measurement.GetOrientation | script.js:97-112 | the screen orientation type decides first, and it is landscape exactly when it starts with "landscape"; otherwise a legacy angle of plus or minus 90 is landscape; otherwise portrait exactly when the portrait query matches; None only when all three sources are missing |
| Measurement.Measure | script.js:210-300 | no sample exactly when no height source is usable; the height is the visual viewport height, else innerHeight, else clientHeight; the width is the first usable of visual viewport width, innerWidth and clientWidth; the orientation is getOrientation's; the screen height is the first usable of screen.height and availHeight; every reading taken is positive; the visual-viewport flag holds exactly when the visual viewport supplied the height |
| Classifier.Decide | script.js:249-322 | commits at once exactly when no height was accepted yet or the geometry changed; buffers exactly on same geometry with a decrease or a required increase; skips exactly otherwise |
| Classifier.KeyboardOpeningIsDecrease | script.js:282-285 | a sample entering the keyboard ratio counts as a decrease, whatever its size, and is never skipped |
| Classifier.KeyboardClosingForcesUpdate | script.js:291-294 | leaving the keyboard ratio always requires an update; it is buffered exactly when the geometry is unchanged |
| Classifier.NoiseIsSkipped | script.js:282-290 | a same-geometry change strictly inside both thresholds, with no keyboard transition, is skipped |
| Classifier.CoarseGrowthIsSkipped | script.js:305-316 | on a coarse pointer, visual-viewport growth past the threshold above a lower lock is ignored and skipped |
| Classifier.FineGrowthIsBuffered | script.js:287-290 | on a fine pointer, growth of at least 120 with the same geometry is buffered |
| Transitions.ResolveLockedEffectsHeight | script.js:131-148 | the result is the value or the lock, at least the lock when the lock is usable, at least the value when it is positive, and the value when there is no usable lock |
| Invariants.BroadcastKeepsInv | script.js:37-60 | broadcasting keeps the slot equal to the last broadcast value and adds no repeated consecutive event |
| Invariants.ApplyViewportHeightKeepsInv | script.js:167-179 | a commit keeps the effects value at or above the lock |
| Invariants.ScheduleKeepsInv | script.js:190-199 | buffering leaves a single pending value and a single timer |
| Invariants.DispatchKeepsInv | script.js:220-356 | every classification branch keeps the core invariant |
| Invariants.AcceptSampleKeepsInv | script.js:334-356 | buffering or committing an accepted sample keeps the core invariant |
| Invariants.UpdateKeepsInv | script.js:209-357 | every measurement keeps the core invariant and never touches the listeners |
| Invariants.TimerFiresKeepsInv | script.js:195-198 | the debounce callback keeps the invariant |
| Invariants.RetryFrameFiresKeepsInv | script.js:123-126 | the retry frame callback keeps the invariant |
| Invariants.RefreshPointerMatchKeepsInv | script.js:88-95 | refreshing the pointer kind keeps the invariant |
| Invariants.CleanupKeepsInv | script.js:414-430 | cleanup keeps the invariant and leaves no listener attached |
| Invariants.HandlePageHideKeepsInv | script.js:359-362 | the pagehide handler keeps the invariant |
| Invariants.NewBindingsDistinct | script.js:373-410 | initialize binds each listener kind at most once |
| Invariants.InitializeKeepsInv | script.js:364-433 | initialize keeps the invariant; afterwards the attached listeners are exactly the new active set |
| Invariants.HandlePageShowKeepsInv | script.js:435-445 | the pageshow handler keeps the invariant |
| Invariants.LoadedSatisfiesInv | script.js:13-23 | the state at script load satisfies the invariant |
| Properties.MissingHeightOnlyRequestsRetry | script.js:216-219 | with no usable height, only the retry frame changes, one frame is outstanding, and a second such update changes nothing |
| Properties.EffectsCoverLock | script.js:221 | after a measured update the effects value is the maximum of the new height and the lock; on a non-commit it is that maximum with the lock held before the update |
| Properties.EffectsFollowLock | script.js:150-179 | the effects value an update leaves is the new height resolved against the lock it leaves, and the lock changes only on a commit |
| Properties.FirstSampleCommitsImmediately | script.js:318-356 | with no accepted height the sample is committed, stored and broadcast at once, and no timer is left |
| Properties.GeometryChangeCommitsImmediately | script.js:334-356 | a geometry change commits at once after clearing the lock, so the effects value is exactly the new height; the pending value and the timer are cancelled |
| Properties.NoUpdateRefreshesBaselines | script.js:324-333 | without an update, nothing is committed or notified; each known width or orientation becomes the baseline; the pending value moves to the new height only while its timer runs |
| Properties.NoiseCommitsNothing | script.js:282-333 | noise inside both thresholds commits and notifies nothing |
| Properties.HeightOnlyUpdateIsBuffered | script.js:344-352 | a height-only update fills the single slot with the new height and one timer, and publishes nothing but the effects value |
| Properties.KeyboardClosingIsBuffered | script.js:291-352 | a keyboard closing on unchanged geometry is buffered with the lock to be set, whatever its size |
| Properties.SuppressedGrowthCommitsNothing | script.js:305-333 | ignored chrome-hide growth commits nothing, but the effects value becomes the new height |
| Properties.TimerCommitsPendingValue | script.js:181-199 | the timer callback commits exactly the buffered value and empties the slot |
| Properties.ScheduleSupersedes | script.js:190-199 | buffering twice is buffering once with the later height |
| Properties.LatestBufferedHeightWins | script.js:190-199 | after two buffered measurements, the timer commits the second height |
| Properties.CommitPublishes | script.js:37-45 | a commit records the height, sets the lock exactly when asked, always writes the slot, and adds an event exactly when the value differs from the last broadcast |
| Properties.RepeatedCommitNotifiesOnce | script.js:37-45 | committing one value twice notifies at most once |
| Properties.CleanupReleasesEverything | script.js:414-430 | cleanup cancels the frame and the timer, empties the slot, detaches every listener, and clears the lock and both properties; the height baseline and the last broadcast value survive it |
| Properties.InitializeAttachesOnce | script.js:364-433 | after initialize, however often it is repeated, each listener is attached exactly once; the cleanup handle and the pagehide listener are installed; the pointer kind comes from the query |
| Properties.InitializeCommitsFirstSample | script.js:392-412 | initialize forgets the baseline, so its first usable sample commits at once |
| Properties.DistinctCountsOnce | script.js:373-410 | a list without repeats holds each listener at most once |
| Properties.PageHideTearsDown | script.js:359-362 | pagehide runs cleanup when a handle is installed and always drops the handle |
| Properties.PageShowReactivatesOnlyWhenInactive | script.js:435-445 | pageshow re-activates exactly when the page was persisted and no handle is installed; otherwise nothing changes |
| Scenarios.MeasureReading | script.js:97-116 | a host whose sources agree is measured as that portrait viewport |
| Scenarios.MeasureTurned | script.js:97-116 | the same host with a landscape orientation type is measured as that landscape viewport |
| Scenarios.PrepareFromLoad | script.js:364-410 | from script load, initialize's preparation changes nothing but the listeners |
| Scenarios.LoadThenActivate | script.js:447 | the load-time activation commits the first reading, locks it unless it looks like a keyboard, and attaches the listeners |
| Scenarios.LockCanGoDown | script.js:167-179 | a fine-pointer shrink from 1000 to 960 lowers both the lock and the effects value to 960 |
| Scenarios.ChromeHideGrowthIsIgnored | script.js:305-333 | on a touch screen of 800, growth from 780 to 960 commits nothing, while the effects value becomes 960 |
| Scenarios.KeyboardOpeningKeepsFloor | script.js:249-258 | a keyboard opening from 780 to 500 is buffered without lock, and after the timer the effects value keeps 780 |
| Scenarios.RotationCommitsAtOnce | script.js:270-280 | a rotation that changes the width and the orientation commits at once, takes landscape as the baseline and re-locks at the new height |
| Scenarios.OrientationFlipAloneCommits | script.js:275-280 | an orientation flip with the width unchanged and a height that would otherwise be noise commits at once, with the old lock cleared |
| Runtime.Stabilizer.constructor | script.js:13-23 | the load-time state followed by the first initialize, satisfying the invariant |
| Runtime.Stabilizer.StoreViewportHeight | script.js:25-35 | the shared slot takes only a positive value |
| Runtime.Stabilizer.BroadcastViewportHeight | script.js:37-60 | the slot is always stored; an event is added only for a new value |
| Runtime.Stabilizer.ScheduleRetry | script.js:118-127 | a frame is requested only when none is outstanding |
| Runtime.Stabilizer.CancelRetry | script.js:223-226 | the outstanding frame, if any, is cancelled |
| Runtime.Stabilizer.ApplyViewportEffectsHeight | script.js:150-165 | the effects property takes the resolved value when that value is positive |
| Runtime.Stabilizer.ApplyViewportHeight | script.js:167-179 | the height becomes the baseline and the property, the lock is set when asked, and both the effects property and the broadcast follow |
| Runtime.Stabilizer.CommitPendingHeightUpdate | script.js:181-188 | the pending value, if any, is taken out of the slot and committed |
| Runtime.Stabilizer.CancelTimer | script.js:192-194 | the outstanding debounce timer, if any, is cancelled |
| Runtime.Stabilizer.SchedulePendingHeightUpdate | script.js:190-199 | the slot is overwritten and the one timer restarted |
| Runtime.Stabilizer.ClearPendingHeightUpdate | script.js:201-207 | the timer is cancelled and the slot emptied |
| Runtime.Stabilizer.UpdateViewportUnit | script.js:209-357 | one measurement leaves exactly the state the update transition gives |
| Runtime.Stabilizer.Dispatch | script.js:221-356 | the effects write and the frame cancel, then skip, buffer or commit |
| Runtime.Stabilizer.RefreshBaselines | script.js:324-333 | the no-update branch |
| Runtime.Stabilizer.AcceptSample | script.js:335-356 | the update branch: take the geometry, then buffer or commit |
| Runtime.Stabilizer.TakeGeometry | script.js:335-342 | the width (known or not) and a known orientation become the baseline; a geometry change drops the lock |
| Runtime.Stabilizer.TimerFires | script.js:195-198 | the debounce callback commits the slot and keeps the invariant |
| Runtime.Stabilizer.RetryFrameFires | script.js:123-126 | the frame callback measures again and keeps the invariant |
| Runtime.Stabilizer.HandleResize | script.js:398-410 | a resize or orientation listener runs one update and keeps the invariant |
| Runtime.Stabilizer.RefreshPointerMatch | script.js:88-95 | the pointer kind follows the query, or is fine without matchMedia |
| Runtime.Stabilizer.HandlePointerChange | script.js:376-378 | the pointer query's change listener refreshes the pointer kind and keeps the invariant |
| Runtime.Stabilizer.CallCleanupHandle | script.js:414-430 | a call of the installed cleanup handle leaves the cleanup transition's state and keeps the invariant |
| Runtime.Stabilizer.Cleanup | script.js:414-430 | the cleanup closure leaves exactly the state the cleanup transition gives |
| Runtime.Stabilizer.RemoveBindings | script.js:422-425 | every removal runs and the active set is emptied |
| Runtime.PopAll | script.js:422-425 | the pop loop leaves nothing and takes each removed listener off the host |
| Runtime.Stabilizer.ReleaseLock | script.js:427-429 | the lock and both properties are removed |
| Runtime.Stabilizer.HandlePageHide | script.js:359-362 | the pagehide handler runs cleanup when installed, drops the handle, and keeps the invariant |
| Runtime.Stabilizer.Initialize | script.js:364-433 | initialize leaves exactly the state the initialize transition gives, and keeps the invariant |
| Runtime.Stabilizer.Prepare | script.js:365-410 | teardown, pagehide removal, pointer refresh, baseline reset and binding |
| Runtime.Stabilizer.UnbindPageHide | script.js:369 | the pagehide listener is removed |
| Runtime.Stabilizer.ResetBaseline | script.js:392-395 | the baseline and the lock are forgotten |
| Runtime.Stabilizer.Bind | script.js:398-410 | the new active set is registered with the host |
| Runtime.NewBindings | script.js:375-410 | the listeners are built in the order initialize adds them |
| Runtime.Stabilizer.Install | script.js:414-432 | the cleanup handle is installed and pagehide is bound |
| Runtime.Stabilizer.HandlePageShow | script.js:435-445 | pageshow re-activates only a persisted page without a handle, and keeps the invariant |

## Left out

- The dynamic-viewport-unit gate and the missing-root check (script.js:2-11) only decide whether the script runs at all. The model assumes it runs.
- Property strings: `toViewportUnit` and the read-before-write comparisons only format values and avoid redundant writes. Each property is modelled as the height it encodes.
- Floating point. All readings are integers that stand for already rounded values, so `Math.round`, the sub-pixel 0.5 visual-viewport comparison, and NaN or infinite readings (both become `None`) are not modelled apart.
- Two comparisons in the script use unrounded values: the broadcast check against `lastBroadcastViewportHeight` (script.js:39) and `Math.max` with the lock (script.js:144). Two fractional heights that round alike notify twice in the script and once in the model.
- A NaN `window.orientation` is a number to the script and gives portrait (script.js:103-104). The model maps it to `None`, which falls through to the portrait media query.
- The keyboard ratio 0.78 is compared as `100 * h <= 78 * screen` on positive integers.
- Event construction: `CustomEvent` versus `createEvent`, and a missing `dispatchEvent`. The model records one event per broadcast of a new value, that is, it assumes an event can be built and dispatched. `lastBroadcastViewportHeight` is updated in all cases, as in the code.
- `typeof window` checks: the model assumes a window exists.
- Real time. The 50 ms delay and the animation-frame timing are not modelled. Each host callback is its own method that may run in any order. `TimerFires` requires an outstanding timer and `RetryFrameFires` an outstanding frame, because the host only fires callbacks it holds.
- Listener identity. Listeners are `Binding` tags. `addEventListener` and `addListener` on the pointer query are one `listenable` flag, since both register and remove the same handler.
- The coarse-pointer media query is created once at load (script.js:81-84). The model passes it, and its live `matches` value, as a parameter of each call that reads it. So the model also allows calls where the query appears or disappears between calls, which the script cannot do.
- The `pageshow` listener registered at script.js:448 is always bound and is not state in the model.
- The scroll-reveal and menu scripts later in script.js are not part of this model.
- Runtime.PopAll: the pop loop runs on the closure's own copy of the removal list, which is a local array in the script. The fields take the result afterwards.
