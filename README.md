# Traveling sphere and project filter: a Dafny model

This project models the behaviour in `js/libraries/main.js` of the
portfolio site that is not DOM or WebGL plumbing. It covers five areas:

- **Section camera** (`Sections`, `Camera`). Each page section (`hero`, `about`, `work`, `contact`) asks for a camera pose around the centred sphere.
  - `updateSpherePosition` either retargets the camera (animated) or snaps it to the pose.
  - The debounced scroll handler picks the section of the current viewport-height band.
  - On every animation tick the camera glides 5% of the way to its target. The tick also recomputes `isTransitioning` from the L1 distance and updates `rollRotation`: a constant spin while transitioning, otherwise a velocity-driven spin with a 0.985 decay.
- **Theme rules** (`Sections`). Which sections get the dark header/footer/toggle styling, the up-arrow scroll icon and the half-transparent canvas.
- **Hold to explode** (`HoldToExplode`). The `mousedown`, `mouseup` and `mouseleave` listeners, plus the page timers they start:
  - shake after 500 ms;
  - explode after 3000 ms;
  - fade out 4000 ms after that, and hide 1000 ms later.

  Host timers are a queue of pending timers on a logical millisecond clock. `TimerFires` runs the earliest timer, so timers run by due time and, on a tie, in the order they were started. `Wait(ms)` lets time pass up to the next due timer. `Step` is the machine. The class `HoldController` holds the same fields. Each of its five handler methods (`HandleMouseDown`, `HandleMouseUp`, `HandleMouseLeave`, `RunNextTimer`, `AdvanceClock`) performs exactly one `Step`; the others are the pieces they are built from.
- **Mouse influence** (`MouseInfluence`). Each `mousemove` eases the influence 8% toward `0.3 *` the normalised pointer position and clamps it to [-0.3, 0.3]. A 50 ms interval multiplies it by 0.95 once the pointer has been still for more than 2000 ms.
- **Project filter** (`ProjectFilter`). `filterProjects` records the filter, marks the matching filter buttons active and selects the projects to render. `updateProjectCount` writes the "Showing ..." line. The line is given a parser, and the model proves that the parser reads back the counts and the category name the line was written from.

Two behaviours of the code are modelled as written and proved as such:

- **The shake timer is never cancelled.** `mouseup` and `mouseleave` clear only `sphereHoldTimeout`, so a 500 ms timer left over from an earlier press can set `isShaking` early in a later hold (`ShakeTimerOutlivesRelease`).
- **A second `mousedown` while held overwrites `sphereHoldTimeout`.** This can happen with a second mouse button. The first explode timer then survives the release and can explode the sphere 100 ms into a later hold (`OrphanedExplodeTimer`).

With one button, the model proves two things. On the model's clock, where a timer fires exactly at its due time, the explosion happens 3000 ms after the press of the current hold, with the pointer still held. And holding through the timer always reaches it.

Numbers are Dafny `real`s: exact, with no rounding and no NaN. Clock readings are passed in as parameters: `now` for `Date.now()`, and the scroll offset and viewport size. The exception is the hold machine, whose logical millisecond clock is part of its state and moves only when time passes or a timer fires.

## Model

| member | source | states |
|---|---|---|
| Sections.SectionPose | js/libraries/main.js:3947-3975 | the pose mapping is total, with b = 1.2 × sphere size: `about` gives (1.1b, 0.1b, 0.7b), `work` gives (-1.3b, -0.1b, 0.7b), and every other id (`hero`, `contact`, unknown ids) gives (0, 0, b) |
| Sections.PoseScalesWithSphere | js/libraries/main.js:3947-3975 | every pose is the unit-size pose scaled by the sphere size, so a resize moves the camera along the same direction |
| Sections.PosesInFrontAndDistinct | js/libraries/main.js:3950-3975 | for a positive size the camera is always in front of the sphere, `hero`/`about`/`work` are three different poses and `contact` shares `hero`'s |
| Sections.ScrollIndex | js/libraries/main.js:4110 | the index is the floor of scrollY / innerHeight |
| Sections.ScrollTarget | js/libraries/main.js:4108-4121 | a section is chosen exactly when the index is in range and its section is not the current one; a chosen section is one of the four and differs from the current one; a zero-height viewport changes nothing |
| Sections.ScrollBandSelectsSection | js/libraries/main.js:4108-4121 | a scroll offset in the k-th viewport-height band selects section k, unless section k is already current |
| Sections.ScrollOutsidePageKeepsSection | js/libraries/main.js:4108-4121 | above the page top or past the fourth band the scroll rule selects nothing |
| Sections.CanvasOpacity | js/libraries/main.js:4055-4062 | the opacity is in (0, 1]; it is 0.5 on `hero` and `contact` and 1 everywhere else |
| Sections.DarkChrome | js/libraries/main.js:4370-4415 | the header, footer and mobile toggle take their dark styling on `hero` and `work`, light otherwise (the page-order consequence is `ThemeAlongThePage`) |
| Sections.ScrollIconIsArrowUp | js/libraries/main.js:4423-4430 | the footer shows the up-arrow on `contact` and the scroll mouse elsewhere |
| Sections.ThemeAlongThePage | js/libraries/main.js:4370-4430 | along the page order the header/footer/toggle styling alternates dark/light starting dark; the up-arrow icon shows exactly on the last section; the canvas is translucent exactly on the first and last |
| Camera.L1 | js/libraries/main.js:3854-3863 | the transition distance is non-negative |
| Camera.L1ZeroIffEqual | js/libraries/main.js:3854-3863 | the transition distance is zero exactly when the camera is at the target |
| Camera.LerpAxis | js/libraries/main.js:3869-3877 | after one tick the gap to the target on an axis is 0.95 × the old gap |
| Camera.LerpNeverOvershoots | js/libraries/main.js:3869-3877 | a tick lands each axis between where it was and the target |
| Camera.LerpShrinksDistance | js/libraries/main.js:3853-3877 | one tick leaves exactly 95% of the L1 distance to the target |
| Camera.GlideOneMore | js/libraries/main.js:3853-3877 | every further tick of a glide leaves 95% of the remaining distance |
| Camera.GlideProgress | js/libraries/main.js:3853-3877 | after k ticks the camera is within distance 1, or at least 0.05 × k closer than it started |
| Camera.GlideNonIncreasing | js/libraries/main.js:3853-3877 | the distance to a fixed target never grows from one tick to a later one |
| Camera.GlideAxisGap | js/libraries/main.js:3869-3877 | on each axis n ticks leave exactly 0.95^n of the starting gap, on the same side of the target |
| Camera.GlideAxisSettles | js/libraries/main.js:3869-3877 | on each axis the camera is within eps of the target after \|gap\| / (0.05 × eps) ticks |
| Camera.GlideConverges | js/libraries/main.js:3853-3877 | the camera converges on a fixed target: the L1 distance is at most 3 eps after L1 / (0.05 × eps) ticks |
| Camera.GlideSettles | js/libraries/main.js:3853-3866 | after L1 / 0.05 ticks toward a fixed target, and on every later tick, the distance is at most 1, so `isTransitioning` is computed false |
| Camera.Velocity | js/libraries/main.js:3894-3899 | the tick velocity, the absolute value of the signed sum of the axis moves, is between 0 and the L1 length of the move |
| Camera.CancellingMoveHasNoVelocity | js/libraries/main.js:3894-3899 | a move whose axis components cancel has zero velocity but a positive L1 length |
| Camera.NextRoll | js/libraries/main.js:3909-3925 | transitioning adds 0.015; otherwise the roll is × 0.985 when the velocity is at most 0.001, else 0.985 × (roll + 0.005 + 0.01 × min(20 × velocity, 1)), a spin in (0.005, 0.015] |
| Camera.SpinGrowsWithVelocity | js/libraries/main.js:3912-3925 | outside a transition a faster camera never spins the roll less, and from velocity 0.05 on the spin is the full 0.015 |
| Camera.RollBoundedWhenSettled | js/libraries/main.js:3912-3925 | outside a transition a roll in [0, 1] stays in [0, 1] |
| Camera.StillRollGeometric | js/libraries/main.js:3912-3925 | with the camera still the roll after n ticks is 0.985^n × the start |
| Camera.StillRollSettles | js/libraries/main.js:3912-3925 | with the camera still the roll is within eps of zero after \|roll\| / (0.015 × eps) ticks |
| Camera.TravelingCamera.constructor | js/libraries/main.js:3192-3200 | the camera starts on `hero`, at the hero pose, with current = previous = target, not transitioning and no roll |
| Camera.TravelingCamera.UpdateSpherePosition | js/libraries/main.js:3984-4013 | animated: only the target changes, to the pose, and `isTransitioning` is set; immediate: target, current and previous all become the pose; both set the current section |
| Camera.TravelingCamera.AnimateTick | js/libraries/main.js:3853-3925 | `isTransitioning` is the pre-step L1 distance > 1; current moves 5% toward the target; the distance to the target becomes 0.95 × the old distance; previous becomes the new current; the roll is `NextRoll` of the flag and the velocity against the old previous |
| Camera.TravelingCamera.OnScroll | js/libraries/main.js:4108-4121 | when the scroll rule selects a section the camera retargets to that section's pose with animation; otherwise nothing changes |
| HoldToExplode.Schedule | js/libraries/main.js:4248-4273 | starting a timer adds exactly that timer to the pending ones |
| HoldToExplode.ScheduleSorted | js/libraries/main.js:4248-4273 | starting a timer keeps the pending timers ordered by due time |
| HoldToExplode.ScheduleIdsDistinct | js/libraries/main.js:4248-4273 | a fresh handle keeps timer handles distinct |
| HoldToExplode.Cancel | js/libraries/main.js:4283 | `clearTimeout` removes exactly the timers with that handle and keeps the others |
| HoldToExplode.CancelSorted | js/libraries/main.js:4283 | cancelling keeps the pending timers ordered |
| HoldToExplode.CancelIdsDistinct | js/libraries/main.js:4283 | cancelling keeps handles distinct |
| HoldToExplode.Initial | js/libraries/main.js:3202-3205 | the initial state (not held, not shaking, not exploding, no timers) satisfies the hold invariant |
| HoldToExplode.OnMouseDown | js/libraries/main.js:4236-4276 | outside the explosion a press sets `isBeingHeld`, stamps the hold, adds exactly a shake timer due in 500 ms and an explode timer due in 3000 ms, and records only the explode timer's handle in `sphereHoldTimeout`; every other field (the explosion, fade-out and hide state included) is unchanged |
| HoldToExplode.OnRelease | js/libraries/main.js:4278-4295 | release clears `isBeingHeld` and `isShaking` and cancels exactly the timer `sphereHoldTimeout` names; every other timer (the shake timers included), the clock and the explosion state stay as they were |
| HoldToExplode.RunCallback | js/libraries/main.js:4248-4273 | the shake callback shakes only a held sphere; the explode callback, only when held, starts the explosion at the current time, clears both hold flags and adds a fade-out timer 4000 ms out; fade-out adds a hide timer 1000 ms out; hide hides; each callback changes only those fields, a released explode timer changes nothing at all, and only the callbacks that start a timer add one, under the next handle; no callback removes a timer or moves the clock |
| HoldToExplode.OnTimerFires | js/libraries/main.js:4248-4273 | with no timer nothing happens; otherwise the clock moves to the earliest timer's due time and every other pending timer stays pending |
| HoldToExplode.FiredTimerLeavesQueue | js/libraries/main.js:4248-4273 | a timer is one-shot: on a well-formed queue the timer that fires is no longer pending afterwards |
| HoldToExplode.OnWait | js/libraries/main.js:4248-4273 | only the clock moves, by at most ms: fully when no timer falls due sooner, otherwise stopping at the earliest due time |
| HoldToExplode.Step | js/libraries/main.js:4236-4295 | no event ever clears `isExploding`, and a `mousedown` while exploding changes nothing (the guard at line 4238) |
| HoldToExplode.StepWellFormed | js/libraries/main.js:4236-4295 | every event keeps the pending timers ordered, due no earlier than now, with distinct handles below the next handle |
| HoldToExplode.ExplodesOnlyFromHeldTimer | js/libraries/main.js:4255-4260 | `isExploding` becomes true only when an explode timer fires while held, and that step clears `isBeingHeld` and `isShaking` and records the explosion time |
| HoldToExplode.StepHoldInv | js/libraries/main.js:4236-4295 | with no second `mousedown` while held: shaking only while held; while held exactly one explode timer, the current hold's, due 3000 ms after the press; none otherwise; fade-out and hide timers only after the explosion |
| HoldToExplode.ExplosionNeedsFullHold | js/libraries/main.js:4236-4295 | with one button the explosion happens with the pointer held, exactly 3000 ms after the press that began the hold |
| HoldToExplode.NoPressNoExplosion | js/libraries/main.js:4236-4295 | with one button, a released sphere never explodes on any trace without a new `mousedown` |
| HoldToExplode.HeldThroughTimerExplodes | js/libraries/main.js:4236-4273 | held throughout, firing the pending timers in order reaches the explosion, at 3000 ms after the press |
| HoldToExplode.FiringReachesExplosion | js/libraries/main.js:4248-4273 | with only shake timers ahead of the current hold's explode timer, firing up to it explodes the sphere at its due time |
| HoldToExplode.RunAppend | js/libraries/main.js:4236-4295 | running two event traces one after the other is running their concatenation |
| HoldToExplode.ShakeTimerOutlivesRelease | js/libraries/main.js:4248-4252 | press, release after 100 ms, press again at 400 ms: the first press's shake timer sets `isShaking` 100 ms into the second hold |
| HoldToExplode.OrphanedExplodeTimer | js/libraries/main.js:4255-4293 | two presses 100 ms apart, one release: the first explode timer is not cancelled and explodes the sphere 100 ms into a later hold |
| HoldToExplode.HoldController.constructor | js/libraries/main.js:3202-3205 | the controller starts in the initial state, well formed |
| HoldToExplode.HoldController.SetTimeout | js/libraries/main.js:4248-4273 | `setTimeout` returns the next handle and queues the timer under it |
| HoldToExplode.HoldController.HandleMouseDown | js/libraries/main.js:4236-4276 | performs the `mousedown` step and keeps the timers well formed |
| HoldToExplode.HoldController.StartHold | js/libraries/main.js:4239-4273 | a press outside the explosion stamps the hold, starts the shake and explode timers, and records the explode timer's handle |
| HoldToExplode.HoldController.HandleMouseUp | js/libraries/main.js:4278-4285 | performs the `mouseup` step and keeps the timers well formed |
| HoldToExplode.HoldController.HandleMouseLeave | js/libraries/main.js:4288-4295 | performs the `mouseleave` step and keeps the timers well formed |
| HoldToExplode.HoldController.Release | js/libraries/main.js:4281-4283 | the shared release body: the new state is the release step |
| HoldToExplode.HoldController.Callback | js/libraries/main.js:4248-4273 | each timer kind's callback: the new state is `RunCallback` of the old one |
| HoldToExplode.HoldController.StartExplosion | js/libraries/main.js:4256-4271 | with the pointer held, the explode callback's state change: the new state is that callback's |
| HoldToExplode.HoldController.RunNextTimer | js/libraries/main.js:4248-4273 | the host running the earliest due timer is the timer step, and keeps the timers well formed |
| HoldToExplode.HoldController.PopNextTimer | js/libraries/main.js:4248-4273 | the host's dequeue: the earliest timer leaves the queue and the clock moves to its due time |
| HoldToExplode.HoldController.AdvanceClock | js/libraries/main.js:4248-4273 | time passing is the wait step: the clock stops at the next due timer; the timers stay well formed |
| MouseInfluence.ViewportNormalises | js/libraries/main.js:4201-4202 | a pointer inside the viewport normalises into [-1, 1]; left/bottom edge to -1, right/top to 1 |
| MouseInfluence.NormaliseX | js/libraries/main.js:4201 | the horizontal pointer position scaled to [-1, 1], left to right (its range is `ViewportNormalises`) |
| MouseInfluence.NormaliseY | js/libraries/main.js:4202 | the vertical pointer position scaled to [-1, 1], bottom to top (its range is `ViewportNormalises`) |
| MouseInfluence.IsIdle | js/libraries/main.js:4225 | the pointer counts as idle when strictly more than 2000 ms passed since the last move |
| MouseInfluence.SmoothAxis | js/libraries/main.js:4205-4218 | after a `mousemove` each component lies in [-0.3, 0.3] |
| MouseInfluence.SmoothApproachesTarget | js/libraries/main.js:4205-4218 | inside the viewport the clamp never bites: a move leaves 0.92 of the gap to 0.3 × the pointer position |
| MouseInfluence.SmoothRepeatedGap | js/libraries/main.js:4205-4218 | n moves at a fixed pointer position leave 0.92^n of the gap |
| MouseInfluence.SmoothRepeatedInRange | js/libraries/main.js:4211-4218 | repeated moves stay in [-0.3, 0.3] |
| MouseInfluence.SmoothSettles | js/libraries/main.js:4205-4218 | the influence gets within eps of its target after \|gap\| / (0.08 × eps) moves |
| MouseInfluence.DecayAxis | js/libraries/main.js:4227-4228 | the idle decay never grows the influence (so it keeps the ±0.3 bound) and keeps its sign |
| MouseInfluence.DecayRepeatedGeometric | js/libraries/main.js:4223-4230 | n idle ticks leave 0.95^n of the influence |
| MouseInfluence.DecaySettles | js/libraries/main.js:4223-4230 | an idle pointer's influence is within eps of neutral after \|influence\| / (0.05 × eps) ticks |
| MouseInfluence.MouseTracker.constructor | js/libraries/main.js:3201 | the influence starts at the origin |
| MouseInfluence.MouseTracker.MouseMove | js/libraries/main.js:4196-4220 | records the move time and smooths each component toward its target, keeping both in [-0.3, 0.3] |
| MouseInfluence.MouseTracker.DecayTick | js/libraries/main.js:4223-4230 | decays both components by 0.95 exactly when more than 2000 ms passed since the last move, keeping the bound |
| ProjectFilter.FilterBy | js/libraries/main.js:430-433 | keeps exactly the projects that list the category, each as often as it occurs |
| ProjectFilter.HasCategory | js/libraries/main.js:432 | a project matches when its `categories` list is present and contains the id |
| ProjectFilter.Filter | js/libraries/main.js:426-434 | `all` gives every project unchanged; any other id gives exactly the projects with that category |
| ProjectFilter.FilterIsSubsequence | js/libraries/main.js:430-433 | the kept projects are in their original order |
| ProjectFilter.FilterAppend | js/libraries/main.js:430-433 | the filter works project by project: filtering a concatenation filters each part |
| ProjectFilter.FilterIdempotent | js/libraries/main.js:426-434 | filtering twice by the same id is filtering once |
| ProjectFilter.FindCategory | js/libraries/main.js:456-457 | `find` gives nothing exactly when no category has the id, else a category with that id |
| ProjectFilter.FindCategoryFirst | js/libraries/main.js:456-457 | `find` gives the first category with the id |
| ProjectFilter.CategoryLabel | js/libraries/main.js:455-458 | the shown name is the raw id or the non-empty name of a category with that id, and the raw id when no category has it (that the first match decides it is `CategoryLabelFirstMatch`) |
| ProjectFilter.CategoryLabelFirstMatch | js/libraries/main.js:455-458 | the first category with the id decides the label: its name when present and non-empty, the raw id otherwise |
| ProjectFilter.CountMessage | js/libraries/main.js:453-460 | the two template literals; what they say is `CountMessageRoundTrip` |
| ProjectFilter.Decimal | js/libraries/main.js:453-459 | a count prints as decimal digits with no leading zero |
| ProjectFilter.DecimalRoundTrip | js/libraries/main.js:453-459 | the printed count reads back as the same number |
| ProjectFilter.CountMessageRoundTrip | js/libraries/main.js:449-461 | the count line reads back as "all T" for `all`, otherwise as "F of T in NAME" with NAME the category label |
| ProjectFilter.ActiveFlags | js/libraries/main.js:417-423 | a button is active exactly when its filter is the chosen id |
| ProjectFilter.OneActiveButton | js/libraries/main.js:417-423 | with one button per category at most one button is active |
| ProjectFilter.ToggleActive | js/libraries/main.js:418-423 | the loop over the buttons produces exactly the active flags |
| ProjectFilter.Gallery.constructor | js/libraries/main.js:244-252 | the loaded projects and categories are stored and every project is rendered; the filter starts at `all` (main.js line 4); the buttons' active flags and the count text are the page's own |
| ProjectFilter.Gallery.FilterProjects | js/libraries/main.js:413-442 | records the filter, marks the buttons, renders the filtered projects and writes their count |
| ProjectFilter.Gallery.UpdateProjectCount | js/libraries/main.js:449-461 | without a count element nothing changes; otherwise its text becomes the count line |

## Left out

- Everything THREE.js does: scene, camera and renderer construction, `camera.position.set`/`lookAt` and rendering. These are calls into the 3D library. The model keeps the camera positions and stops there.
- The particle and line animation: explosion physics, idle float and shake jitter, line breathing, star twinkle and colours. It relies on `Math.random`, trigonometry and the 3D library's vector methods.
- The mouse influence's effect on the particle rotation. Only the influence value is modelled.
- The frame-skip timing and `requestAnimationFrame` scheduling. The model's `AnimateTick` is one frame that is not skipped.
- Real time. `Date.now()`, `setTimeout` and `setInterval` become the explicit `now` parameter, the timer queue and the `DecayTick` method.
- Late timers. A browser runs a timer no earlier than its due time, possibly later; the model runs it exactly at its due time. So "3000 ms after the press" (`ExplosionNeedsFullHold`, `HeldThroughTimerExplodes`) holds on the model's clock only; in a browser the explosion comes at least 3000 ms after the press.
- The 100 ms debounce around the scroll handler; `OnScroll` is the debounced callback.
- The intersection observer, resize handler and section navigation.
- The `portfolio.currentSection` global, which the scroll handler writes just before `updateSpherePosition` and which `updateSpherePosition` writes again. The model keeps the section on the camera.
- The guards for a missing sphere object (`if (sphere)`) and a missing sphere container.
  - The modelled handlers assume the sphere exists.
  - The fade-out callback always adds the fade-out and hide states.
- The three `carouselState` resets that close `filterProjects`. That name is defined neither in `main.js` nor in `script.js`, so, unless another script defines it, they would throw once the count is written. The model ends with the count update.
- `renderProjects`, `renderCategoryFilters` and all other DOM templating, the modals, forms, toast, swiper and menu code, and the content and form network requests.
- The earlier near-duplicate copy of the 3D and navigation code (main.js:676-2408); the later definitions are the ones in force.
- Top-level load-order effects and `script.js`, which is light/dark toggle and `localStorage` plumbing.
- Numbers are exact reals.
  - There is no floating-point rounding, NaN or Infinity.
  - `ScrollTarget` gets a zero viewport height by its own case.
  - `MouseMove` requires a positive viewport width and height, where the browser would divide by zero.
- `HasCategory`: a project's `categories` field is a list of ids and `includes` is list membership; a string-valued `categories` (substring search) is not modelled.
- The JS `sphere` object is split into three classes by concern: `TravelingCamera`, `HoldController` and `MouseTracker`. None of the modelled operations reads fields of another group.
- The exact power law for the L1 distance over n ticks, 0.95^n of the start, is stated per axis (`GlideAxisGap`). For the L1 distance itself, the model proves one tick exactly (`LerpShrinksDistance`) and convergence over many (`GlideConverges`, `GlideSettles`).
- HoldToExplode.StepHoldInv: the single-button invariant assumes no second `mousedown` while held. The two-press behaviour is shown by the concrete trace `OrphanedExplodeTimer`.
