# Model of the scultura.info 3D viewer script

The viewer script (`javascript/three.js`) shows one glTF model in a web page.
It lights the model with an HDR environment and lets the user orbit the camera.
The camera rotates on its own while the page is idle. This project models the
parts of the script that carry logic of their own:

- **Idle/interaction handling** (module `Interaction`). These are the pointer,
  control and wheel handlers, the variables `isInteracting` and `resumeTimeout`
  they share, and the `controls.autoRotate` flag. The transitions are given as
  functions on a `State` value (`Step`, `Run`), and their properties are proved
  as lemmas over any sequence of events. The handlers themselves are the methods
  of `IdleController`, a class whose fields are the script's variables. Each
  method is proved to perform exactly one `Step`. Timers are modelled by the
  host's table of pending `setTimeout` callbacks (`TimerHost`). A handle stays
  pending until its callback runs or `clearTimeout` removes it. The host hands
  out a fresh positive handle each time. Time itself is not modelled: a pending
  timer may fire at any point.
- **Fitting the model to the view** (module `ModelFit`). The root node's
  position is updated with `p += (p - center)` on each axis, exactly as the
  source writes it. The root then gets a uniform scale of `1.6 / maxDim` when
  the bounding box's largest side `maxDim` is positive.
- **The material pass** (module `Materials`). Every material of a mesh is made
  double-sided. As written, line 107 raises `needsUpdate` on what `n.material`
  holds: a single material is flagged, but for an array only the array itself
  is, never its materials (see "## Findings"). A corrected pass that flags
  every material is modelled beside it.
- **The load callback** (module `LoadModel`), which runs the fit and the
  as-written material pass, then aims the controls at the origin. A second
  version runs the corrected pass instead.
- **Resizing** (module `Resize`). The camera's aspect becomes the container's
  width divided by its height, and the drawing surface takes the container's
  size.

Module `Three` holds the few three.js entities the script touches, reduced to
the fields it reads or writes. Module `Wrappers` holds an `Option` type. Sizes
and coordinates are `real`. A division by a zero height is modelled as
JavaScript computes it: `+Infinity` for a positive width and `NaN` when both
are zero.

Two points where the behaviour differs from what one might expect:

- A wheel tick is not invisible to the rotation. It turns `autoRotate` off,
  and rotation stays off until the timer the tick armed fires
  (`Step`, `WheelThenResume`).
- The comment at line 90 says the shift puts the centre at the origin. The
  code moves the root by `p - center`, so right after the shift the box centre
  lands on the root's *old* position. That is the origin only when the root
  started there (`Recentre`, `CentredIffRootAtOrigin`). Line 99 then scales the
  root about its own origin, which moves the box centre again. For a glTF scene
  root (at the origin, scale 1) the fitted box is centred only when its centre
  was already the origin or the new scale is 1 (`FittedCentredIff`). A box of
  size (2, 1, 4) centred at (0, 0.5, 0) ends centred at (0, -0.3, 0)
  (`FittedCentreExample`).

## Model

| member | source | states |
|---|---|---|
| `Interaction.Step` | javascript/three.js:135-154 | After any handler, at most one resume timer is pending, and it is the one `resumeTimeout` holds. Rotation is off only while a gesture runs or a resume is pending. Only a timer firing turns rotation back on, and the only timer that can fire is the pending one. A start stops rotation and cancels the pending timer. An end, or a wheel tick, replaces the pending timer with a fresh one. A wheel tick always leaves rotation off. |
| `Interaction.Run` | javascript/three.js:131-158 | Every sequence of handler calls and timer callbacks keeps the single-pending-timer invariant, and host handles only grow. |
| `Interaction.RunKeepsPausedForAReason` | javascript/three.js:135-147 | If rotation is off only while busy before a run, it still is after the run. |
| `Interaction.PausedOnlyWhileBusy` | javascript/three.js:131-147 | From page load (rotation on, line 30), after any events, rotation is off only while a gesture is in progress or a resume timer is pending. |
| `Interaction.StaysPausedUntilFire` | javascript/three.js:137-146 | Once rotation is off, it stays off along every run in which no timer fires. |
| `Interaction.GestureHoldsUntilEnd` | javascript/three.js:135-139 | After a start, and until an end or a wheel tick, nothing changes: more starts are no-ops and no timer can fire. |
| `Interaction.RetiredTimerNeverFires` | javascript/three.js:137-146 | A handle that was handed out and is no longer pending never fires again. |
| `Interaction.SupersededTimerNeverFires` | javascript/three.js:137-146 | The timer pending before a start, an end or a wheel tick never fires afterwards (cancel, then re-arm). |
| `Interaction.EndBurstKeepsLastTimer` | javascript/three.js:140-147 | After n >= 1 consecutive ends, only the timer armed by the last end is pending. |
| `Interaction.WheelThenResume` | javascript/three.js:154 | A wheel tick turns rotation off and arms a fresh timer. Once that timer fires, the controller is idle and rotating, with nothing pending. |
| `Interaction.TimerHost.SetTimeout` | javascript/three.js:143 | `setTimeout` returns a fresh handle, which becomes pending. |
| `Interaction.TimerHost.ClearTimeout` | javascript/three.js:137 | `clearTimeout` removes the handle from the pending table. |
| `Interaction.IdleController.constructor` | javascript/three.js:131-132 | The controller starts from the page-load state: not interacting, nothing pending, rotation on. |
| `Interaction.IdleController.OnInteractionStart` | javascript/three.js:135-139 | Performs a start step: interacting, rotation off, the pending timer cleared and `resumeTimeout` set to null. Only `autoRotate` of the controls may change; the orbit target is untouched. |
| `Interaction.IdleController.OnInteractionEnd` | javascript/three.js:140-147 | Performs an end step: not interacting, the old timer cleared, and exactly the freshly armed timer pending. Only `autoRotate` of the controls may change; the orbit target is untouched. |
| `Interaction.IdleController.OnResumeTimer` | javascript/three.js:143-146 | Performs a fire step for a pending handle: rotation on, `resumeTimeout` null, nothing pending. Only `autoRotate` of the controls may change; the orbit target is untouched. |
| `Interaction.IdleController.OnWheel` | javascript/three.js:154 | Performs a wheel step (a start, then an end): rotation off, not interacting, a fresh timer pending. Only `autoRotate` of the controls may change; the orbit target is untouched. |
| `Three.OrbitControls.constructor` | javascript/three.js:25-30 | The controls start with idle rotation on and the target at the origin. |
| `ModelFit.Max3` | javascript/three.js:96 | `Math.max` of three reals is one of them and at least each of them. |
| `ModelFit.MaxDim` | javascript/three.js:96 | `maxDim` is the box's largest side: one of the three sides, and at least each of them. |
| `ModelFit.FitScale` | javascript/three.js:97-98 | For a positive `maxDim`, the scale is positive and `maxDim * scale == 1.6`. |
| `ModelFit.Recentre` | javascript/three.js:91-93 | Each axis moves by `old - center` on that axis. The moved box centre lands on the old root position. The new position equals the centre exactly when the old one did. |
| `ModelFit.CentredIffRootAtOrigin` | javascript/three.js:90-93 | After the shift, the box centre is at the origin exactly when the root started at the origin. |
| `ModelFit.FittedCentreAxis` | javascript/three.js:91-99 | On one axis, with the root at p and uniform scale s0, the box centre after the shift and `setScalar(s1)` is `p + (s1/s0 - 1) * (center - p)`. |
| `ModelFit.FittedCentredIff` | javascript/three.js:90-99 | For a root at the origin with scale 1, the fitted box is centred on the origin exactly when the box centre was the origin or the new scale is 1. |
| `ModelFit.FittedCentreExample` | javascript/three.js:91-99 | A box of size (2, 1, 4) centred at (0, 0.5, 0) gets the scale 0.4, and its centre ends at (0, -0.3, 0). |
| `ModelFit.RecentreAxesIndependent` | javascript/three.js:91-93 | Each new coordinate depends only on that axis of the old position and of the centre. |
| `ModelFit.FitToView` | javascript/three.js:91-100 | The root's position becomes `Recentre(old, center)`. The scale becomes `FitScale(maxDim)` on every axis when `maxDim > 0`; otherwise the scale is unchanged. |
| `ModelFit.FitExample` | javascript/three.js:96-99 | A box of size (2, 1, 4) has `maxDim` 4 and gets the scale 0.4 on every axis. |
| `Materials.SetSidesDouble` | javascript/three.js:109 | The `forEach` makes every material of the array double-sided and leaves their update flags alone. |
| `Materials.ForceDoubleSidedAsWritten` | javascript/three.js:105-114 | As written: every material held by a mesh ends double-sided. A material's own `needsUpdate` is raised only if some mesh holds it as its single material. A mesh's material array gets the flag instead of its elements. Materials held by no mesh keep their side and flag. |
| `Materials.ArrayMaterialMissesUpdate` | javascript/three.js:107-109 | Take a mesh whose material is a one-element array. As written, the traversal leaves that material double-sided but not flagged. |
| `Materials.MarkAllDoubleSided` | javascript/three.js:107-109 | Corrected `forEach`: every material of the array ends double-sided and flagged. |
| `Materials.ForceDoubleSided` | javascript/three.js:105-114 | Corrected traversal: every material held by a mesh ends double-sided and flagged, whether the mesh holds one material or an array. Materials held by no mesh keep their side and flag. |
| `Materials.ArrayMaterialGetsUpdate` | javascript/three.js:107-109 | The same one-element-array mesh, after the corrected traversal: its material is double-sided and flagged. |
| `LoadModel.OnModelLoaded` | javascript/three.js:82-118 | The load callback as written fits the root (position and scale as in `FitToView`). It makes every mesh material double-sided. It raises `needsUpdate` on exactly the materials a mesh holds singly, and on each array a mesh holds. It sets the orbit target to the origin and leaves `autoRotate` alone. |
| `LoadModel.OnModelLoadedCorrected` | javascript/three.js:82-118 | The same callback with the corrected material pass: every mesh material ends double-sided and flagged. |
| `Resize.AspectOf` | javascript/three.js:163 | The aspect is finite exactly when the height is positive, and then aspect × height == width. It is +Infinity for a zero height with a positive width, and NaN when both are zero. |
| `Resize.AspectScaleInvariant` | javascript/three.js:163 | Scaling the width and the height by the same positive factor leaves the aspect unchanged. |
| `Resize.OnWindowResize` | javascript/three.js:162-166 | The camera's aspect becomes `AspectOf(clientWidth, clientHeight)`, and the surface takes exactly the container's size. |
| `Resize.AspectExample` | javascript/three.js:163 | An 800 × 600 container gives the aspect 4/3. |

## Findings

| source | as written | input that shows it | evidently intended | confidence | as-written member | corrected member |
|---|---|---|---|---|---|---|
| javascript/three.js:107-109 | `n.material.needsUpdate = true` writes to whatever `n.material` holds. For a multi-material mesh that is a JavaScript array, so the flag becomes a plain property of the array, which three.js never reads. The array's materials are never flagged. | A mesh whose material is the array `[m]`, with m not flagged. Afterwards m is double-sided but still not flagged. | Every material of every mesh flagged for update. | medium, not executed. In practice a model that has not yet been rendered compiles its materials on first render anyway. | `Materials.ArrayMaterialMissesUpdate` (over `Materials.ForceDoubleSidedAsWritten`) | `Materials.ForceDoubleSided` (used by `LoadModel.OnModelLoadedCorrected`) |

## Left out

- Renderer set-up, tone mapping, the PMREM environment map, the fallback lights and scene insertion (lines 9-48, 59-63, 102) are calls into three.js, which is not part of this model.
- The HDR-then-model load chain and its failure callbacks (lines 55-81, 120-127) are asynchronous I/O. The logging on the failure paths is left out too.
- `Box3.setFromObject`, `getSize` and `getCenter` (lines 86-88) are three.js. The box's size and centre are inputs to `FitToView`.
- `root.traverse` (line 105) belongs to three.js. The traversal is modelled by the sequence of nodes it visits, in any order.
- `OrbitControls` damping and rotation, `controls.update()` (lines 118, 179) and the `requestAnimationFrame` render loop (lines 173-183) are library behaviour and frame scheduling.
- Timer durations (`RESUME_DELAY_MS`, line 133) are left out: a pending timer may fire at any point.
- Event-listener registration (lines 150-158, 161) is DOM plumbing. The empty `pointermove` listener (line 151) changes nothing. Which DOM or controls event maps to which `Event` is written in `Interaction.Event`.
- `camera.updateProjectionMatrix()` and the pixel-ratio handling of `renderer.setSize` (lines 11, 164-165) are three.js.
- `FittedCentreAxis` assumes the root starts with a uniform scale and no rotation or parent transform, as a freshly loaded glTF scene root does; three.js's general world-matrix computation is not modelled.
- Floating-point rounding is left out: sizes and positions are exact reals. `Math.max` with a `NaN` side is not modelled.
- `Three.Material.needsUpdate` is a boolean flag. In three.js it is a setter that bumps an internal version, so a material flagged twice is bumped twice; the model records only that the flag was raised.
