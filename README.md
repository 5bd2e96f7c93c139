# Animated grid backgrounds

A model of the two animated backgrounds on the site's landing page.

- **Particle field** (`ParticleBackground.tsx`): a 50 by 50 lattice of point sprites.
  - Every frame, each sprite gets its wave height and its sprite scale.
  - Each row also drifts toward the camera and wraps around in depth, so the field seems endless.
- **Wave texture** (`WaveTexture.tsx`): a 100 by 70 lattice of points.
  - It is laid out flat once, into a live buffer and a base buffer.
  - Every frame, only the heights in the live buffer are rewritten.

In both, the camera eases 5% of the way toward the pointer every frame. A touch counts only while exactly one finger is down.

## How the model is organised

Each component's closure state is a class: `ParticleBackground.ParticleScene` and `WaveTexture.WaveScene`.

- The buffers are `array<real>` fields that the methods write in place, with the same nested `ix`/`iy` loops and running indices as the source.
- The counters (`count`, `time`), the pointer, the half extents and the camera position are fields.
- Set-up is the constructor. One frame is `RenderFrame` or `Animate`. Each event handler is a method. Mounting, which is set-up followed at once by the first frame, is `Mount` in each module.

Each loop is proved against a predicate on the buffer contents:

- `AtRest` and `Flat`: the layout after set-up;
- `Animated` and `Waved`: the values one frame writes;
- `ColumnsLaidOut` and `Ground`: the slots a frame never changes.

Lemmas then read single points back out of those predicates (`AtRestAt`, `AnimatedAt`, `FlatAt`, `WavedAt`).

The pure pieces are functions:

- `Wave.Height` and `Wave.Scale`: the wave formulas.
- `ParticleBackground.Wrap`: the depth wrap, built on `JsMath.JsRem`. `JsRem` is JavaScript's `%`, where the remainder takes the sign of the dividend.
- `Pointer.Follow`: the camera step.

`Math.sin` is passed in as a function value `sin` that satisfies `IsSine`, meaning every value lies in [-1, 1]. Numbers are mathematical reals.

Two points of timing and frame of reference:

- Both components advance `count` (and `time`) only after the loop (`ParticleBackground.tsx` lines 193-194, `WaveTexture.tsx` line 142), so a frame draws the phase the clocks had when it began. `RenderFrame` and `Animate` state their results in terms of `old(count)`.
- The wave texture's pointer is the event position minus the container's bounding-box offset (`rectLeft`, `rectTop`) and minus the half extents.

## Model

| member | source | states |
|---|---|---|
| JsMath.Trunc | client/src/components/ParticleBackground.tsx:176 | The quotient JavaScript's `%` uses, rounded toward zero: 0 <= t <= x < t+1 for x >= 0, and t-1 < x <= t <= 0 for x < 0. |
| JsMath.JsRem | client/src/components/ParticleBackground.tsx:176 | For a positive divisor d, `a % d` lies strictly between -d and d. It is non-negative for a >= 0 and non-positive for a <= 0, i.e. it has the sign of the dividend. |
| JsMath.FloorMod | client/src/components/ParticleBackground.tsx:176-179 | The floored remainder, which always lies in [0, d). It is the reference the corrected wrap is compared with. |
| JsMath.JsRemVersusFloorMod | client/src/components/ParticleBackground.tsx:176-179 | A non-negative JS remainder equals the floored remainder. A negative one is exactly one divisor below it. |
| JsMath.FloorModPeriodic | client/src/components/ParticleBackground.tsx:176-179 | Adding one divisor to the dividend leaves the floored remainder unchanged. |
| Grid.Coord | client/src/components/WaveTexture.tsx:49-50 | Defines the lattice coordinate along one axis, `i * SEPARATION - (AMOUNT * SEPARATION) / 2`. It is x for ix (with AMOUNTX) and z for iy (with AMOUNTY), in both components (also ParticleBackground.tsx lines 74 and 76). |
| Grid.Index | client/src/components/ParticleBackground.tsx:70-81 | Defines the number of point (ix, iy) in the row-major walk, ix·AMOUNTY + iy. It is the value the running counter `j` (WaveTexture: `i`, `idx`) holds when the loops reach (ix, iy). |
| Grid.XSlot | client/src/components/ParticleBackground.tsx:74 | Defines the x slot of point p as 3p. It is the running index `i` (WaveTexture: `idx` at line 48, `i` at line 126) at point p. |
| Grid.YSlot | client/src/components/WaveTexture.tsx:133 | Defines the y slot of point p as 3p + 1, the `i + 1` of the height stores (also ParticleBackground.tsx lines 75 and 161). |
| Grid.ZSlot | client/src/components/ParticleBackground.tsx:181 | Defines the z slot of point p as 3p + 2, the `i + 2` of the depth stores (also line 76 and WaveTexture.tsx line 54). |
| Grid.IndexInRange | client/src/components/ParticleBackground.tsx:66-83 | Every lattice point (ix, iy) gets a number ix*AMOUNTY+iy in [0, AMOUNTX*AMOUNTY). So slots 3p..3p+2 and p lie inside buffers of length 3·N and N. |
| Grid.IndexDecodes | client/src/components/WaveTexture.tsx:45-62 | Division and remainder by AMOUNTY give back (ix, iy) from point number ix*AMOUNTY+iy, so the row-major walk visits each point once. |
| Grid.PointEncodes | client/src/components/WaveTexture.tsx:45-62 | Every number below AMOUNTX*AMOUNTY is the number of the lattice point (p / AMOUNTY, p % AMOUNTY). |
| Grid.ColumnDecodes | client/src/components/ParticleBackground.tsx:72-83 | The inner loop for column ix covers exactly the AMOUNTY consecutive numbers that start at ix*AMOUNTY, in order of iy. The next column starts where it ends. |
| Grid.IndexInjective | client/src/components/WaveTexture.tsx:45-62 | Distinct lattice points get distinct numbers, so no point's slots overwrite another's. |
| Wave.Height | client/src/components/WaveTexture.tsx:130-131 | Height of point (ix, iy) at phase count is sin((ix+count)·0.3)·50 + sin((iy+count)·0.5)·50. Every height lies in [-100, 100]. |
| Wave.Scale | client/src/components/ParticleBackground.tsx:164 | Sprite scale (sin((ix+count)·0.3)+1)·8 + (sin((iy+count)·0.5)+1)·8. Every scale lies in [0, 32]. |
| Wave.ScaleTracksHeight | client/src/components/ParticleBackground.tsx:161-164 | Scale = 16 + 0.16·height at every point and phase. A point at height 0 has scale 16. |
| Wave.ClockAfter | client/src/components/ParticleBackground.tsx:193-194 | Defines a clock after n frames, each adding `step` (`count += 0.1`, `time += 1`; also WaveTexture.tsx line 142). n successive RenderFrame or Animate calls, each ensuring `count == old(count) + COUNT_STEP`, leave `count` at ClockAfter(c, COUNT_STEP, n), and ClockAfterIsLinear puts that at c + n·0.1. |
| Wave.ClockAfterIsLinear | client/src/components/ParticleBackground.tsx:193-194 | After n frames a clock that starts at c and steps by s reads c + n·s. That is n·0.1 for `count` and n for `time`. |
| Wave.ClockAfterCompose | client/src/components/WaveTexture.tsx:142 | m frames followed by n frames is m+n frames. The clock carries no state beyond its value. |
| Pointer.SingleTouch | client/src/components/ParticleBackground.tsx:44 | Defines the one-finger test `event.touches.length === 1` that guards every touch handler (also line 52 and WaveTexture.tsx line 97). |
| Pointer.Follow | client/src/components/ParticleBackground.tsx:138-139 | One camera step leaves 95% of the distance to the target. The new value lies between the old value and the target, and reaches the target only if it was already there. |
| Pointer.FollowFrames | client/src/components/WaveTexture.tsx:116-117 | Defines a camera coordinate after n frames of `cam += (target - cam) * 0.05` with the pointer held still (also ParticleBackground.tsx lines 138-139). n successive frames, each ensuring `cameraX == Follow(old(cameraX), mouseX)`, leave the camera at FollowFrames(c, mouseX, n). FollowFramesDistance and FollowFramesBetween say where that is. |
| Pointer.Remaining | client/src/components/WaveTexture.tsx:116-117 | The share of the distance still to go after n frames, 0.95^n, always lies in (0, 1]. |
| Pointer.FollowFramesDistance | client/src/components/WaveTexture.tsx:116-117 | Against a fixed target, the distance left after n frames is 0.95^n times the starting distance (exponential smoothing). |
| Pointer.FollowFramesBetween | client/src/components/ParticleBackground.tsx:138-139 | Any number of frames against a fixed target keeps the camera between its start and the target: it never overshoots. |
| ParticleBackground.TotalMovement | client/src/components/ParticleBackground.tsx:148-150 | Defines how far the field has moved: `time * 2.0 + scrollY * 0.5`. |
| ParticleBackground.Wrap | client/src/components/ParticleBackground.tsx:168-179 | The wrapped depth (JS `%`, shift back, add one depth if still below -depth/2) lies in [-depth/2, depth/2) for every raw value, negative ones included. |
| ParticleBackground.DepthZ | client/src/components/ParticleBackground.tsx:168-181 | Every row's depth after a movement lies in [-2500, 2500). |
| ParticleBackground.WrapIsFloorMod | client/src/components/ParticleBackground.tsx:176-179 | The sign-corrected wrap equals the floored remainder of raw + depth/2 by depth, minus depth/2. |
| ParticleBackground.WrapKeepsInRange | client/src/components/ParticleBackground.tsx:168-179 | A raw depth already in [-depth/2, depth/2) comes out of the wrap unchanged. |
| ParticleBackground.WrapPeriodic | client/src/components/ParticleBackground.tsx:168-179 | Raising the raw depth by one whole depth gives the same wrapped value. |
| ParticleBackground.DepthZPeriodic | client/src/components/ParticleBackground.tsx:148-181 | Raising the total movement by one depth (5000) leaves every row's depth unchanged. |
| ParticleBackground.DepthCycle | client/src/components/ParticleBackground.tsx:148-150 | With movement time·2 + scrollY·0.5, the depths repeat every 2500 frames at a fixed scroll position. |
| ParticleBackground.DepthAtRest | client/src/components/ParticleBackground.tsx:168-179 | With no movement yet, the wrap leaves every row at its laid-out depth iy·100 - 2500. |
| ParticleBackground.AtRestStep | client/src/components/ParticleBackground.tsx:74-81 | Writing point j's x, height 0, z and scale 1 extends the laid-out prefix from j to j+1 points and keeps earlier points. |
| ParticleBackground.AtRestColumns | client/src/components/ParticleBackground.tsx:66-83 | Once all 2500 points are laid out, every x slot holds its column's lattice coordinate. |
| ParticleBackground.AnimatedStep | client/src/components/ParticleBackground.tsx:158-185 | Writing point j's height, wrapped depth and scale extends the animated prefix by one point and leaves every x slot as it was. |
| ParticleBackground.ColumnsFixed | client/src/components/ParticleBackground.tsx:158-186 | Two buffers that both keep the lattice columns agree on every x slot. RenderFrame uses it to show that a frame moves no particle sideways. |
| ParticleBackground.AtRestAt | client/src/components/ParticleBackground.tsx:66-83 | After set-up, point (ix, iy) sits at slot 3·(ix·50+iy) with x = 100·ix - 2500, y = 0 and z = 100·iy - 2500. Its scale is 1. |
| ParticleBackground.AnimatedAt | client/src/components/ParticleBackground.tsx:158-186 | After a frame, point (ix, iy) has height Height(ix, iy, count) in [-100, 100], its row's wrapped depth in [-2500, 2500) and scale Scale(ix, iy, count) in [0, 32]. |
| ParticleBackground.ParticleScene.constructor | client/src/components/ParticleBackground.tsx:19-83 | Set-up: buffers of length 7500 and 2500 laid out flat (every point at rest, every scale 1). Clocks and pointer at 0, half extents half the window, camera at (0, 400). |
| ParticleBackground.ParticleScene.RenderFrame | client/src/components/ParticleBackground.tsx:136-195 | One frame moves the camera one Follow step toward (mouseX, -mouseY + 200). Every point gets the height, wrapped depth and scale of the frame's starting clocks. Every x slot is equal to its value before the frame, `count` gains 0.1 and `time` gains 1. |
| ParticleBackground.ParticleScene.UpdateParticle | client/src/components/ParticleBackground.tsx:160-181 | The loop body for particle j = Index(ix, iy), whose running index i is XSlot(j), changes exactly three values. Slot i+1 becomes Height(ix, iy, count), scale j becomes Scale(ix, iy, count), and slot i+2 becomes the row's wrapped depth DepthZ(iy, totalMovement), computed by the inline JS `%` and sign correction. |
| ParticleBackground.ParticleScene.OnMouseMove | client/src/components/ParticleBackground.tsx:38-41 | The pointer becomes the event position minus the half-window extents. |
| ParticleBackground.ParticleScene.OnTouch | client/src/components/ParticleBackground.tsx:43-57 | `preventDefault` is called exactly when one touch is active, and only then does the pointer move, to that touch minus the half extents. Otherwise the pointer is unchanged. |
| ParticleBackground.ParticleScene.OnTouchStart | client/src/components/ParticleBackground.tsx:43-49 | Touch start follows the one-finger rule of OnTouch: `preventDefault` is called and the pointer moves exactly when one touch is active. |
| ParticleBackground.ParticleScene.OnTouchMove | client/src/components/ParticleBackground.tsx:51-57 | Touch move follows the one-finger rule of OnTouch: `preventDefault` is called and the pointer moves exactly when one touch is active. |
| ParticleBackground.ParticleScene.OnWindowResize | client/src/components/ParticleBackground.tsx:28-30 | The half extents become half the new window size. |
| ParticleBackground.Mount | client/src/components/ParticleBackground.tsx:197-204 | Set-up followed at once by the first frame. The camera goes from (0, 400) to (0, 390), `count` becomes 0.1 and `time` 1, and every point holds the wave at phase 0 and the depth of movement scrollY·0.5. With the page unscrolled, every z slot keeps its laid-out depth 100·iy - 2500 (by DepthAtRest). |
| WaveTexture.FlatStep | client/src/components/WaveTexture.tsx:48-60 | Writing point i's x, height 0 and z extends the flat prefix from i to i+1 points and keeps earlier points. |
| WaveTexture.FlatGround | client/src/components/WaveTexture.tsx:42-62 | A fully laid-out buffer has every point's lattice x and z. |
| WaveTexture.WavedStep | client/src/components/WaveTexture.tsx:126-135 | Writing point idx's height extends the waved prefix by one point and keeps every x and z slot. |
| WaveTexture.FlatAt | client/src/components/WaveTexture.tsx:42-62 | After set-up, point (ix, iy) sits at slot 3·(ix·70+iy) with x = 100·ix - 5000, y = 0 and z = 100·iy - 3500. |
| WaveTexture.WavedAt | client/src/components/WaveTexture.tsx:124-137 | After a frame, point (ix, iy) holds Height(ix, iy, count) of the frame's starting phase, within [-100, 100]. |
| WaveTexture.GroundMatchesBase | client/src/components/WaveTexture.tsx:124-137 | After any number of frames, the live buffer agrees with the base buffer on every x and z slot. |
| WaveTexture.FlatEqual | client/src/components/WaveTexture.tsx:52-58 | Two fully laid-out buffers are equal, so `positions` and `basePositions` are filled identically. |
| WaveTexture.LayOutPoint | client/src/components/WaveTexture.tsx:52-58 | The six set-up stores change exactly point p's three slots in each buffer. |
| WaveTexture.WriteHeight | client/src/components/WaveTexture.tsx:133 | The per-frame store changes exactly point p's y slot. |
| WaveTexture.WaveScene.constructor | client/src/components/WaveTexture.tsx:19-109 | Set-up: both buffers of length 21000 hold the flat lattice and are equal. The pointer is (85, -342), the half extents half the container, the camera (0, 0) and `count` 0. |
| WaveTexture.WaveScene.Animate | client/src/components/WaveTexture.tsx:112-143 | One frame moves the camera one Follow step toward (mouse.x, -mouse.y). Every y slot gets the height of the starting phase, x and z are kept, the base buffer is unchanged and `count` gains 0.1. |
| WaveTexture.WaveScene.HandleMouseMove | client/src/components/WaveTexture.tsx:90-94 | The pointer becomes the event position minus the container's offset and minus the current half extents. |
| WaveTexture.WaveScene.HandleTouchMove | client/src/components/WaveTexture.tsx:96-103 | `preventDefault` is called (suppressing scrolling, as the listener is registered non-passive) exactly when one touch is active, and only then does the pointer move. Otherwise it is unchanged. |
| WaveTexture.WaveScene.HandleResize | client/src/components/WaveTexture.tsx:145-151 | With the container present, the half extents become half its new size. With it gone, nothing changes. |
| WaveTexture.Mount | client/src/components/WaveTexture.tsx:109-161 | Set-up followed by the first frame: the camera goes from (0, 0) to (4.25, 17.1), the wave is drawn at phase 0 and `count` becomes 0.1. |

## Left out

- Three.js and WebGL are not modelled: scene, camera and renderer objects, shader programs, buffer attributes, `needsUpdate` flags and `render` calls. These are library calls with no state the model tracks.
- The camera's `lookAt`, its fixed z position of 1000, and the projection update and renderer resize in the resize handlers are left out. They affect only what the library draws.
- Frame scheduling (`requestAnimationFrame`), listener registration and removal, and React's effect cleanup are not modelled. A frame and an event are method calls on the scene. `ParticleBackground.tsx` never cancels its frame callback (lines 206-214), so the model claims nothing about teardown.
- Listener options are not modelled, nor is whether the browser honours a `preventDefault` call. The touch handlers model only that the call is made. `ParticleBackground.tsx` registers its touch listeners on `document` without `{ passive: false }` (lines 131-132), so browsers that treat such listeners as passive ignore the call there.
- Buffers are `Float32Array`s in the source and reals in the model, so float32 rounding is not modelled.
- The clocks `count` and `time`, the pointer and the camera coordinates are float64 JavaScript numbers in the source and reals in the model, so their rounding is not modelled either. For instance, ten steps of `count += 0.1` give 0.9999999999999999 in JavaScript, where Wave.ClockAfterIsLinear gives exactly 1.
- `Math.sin` is known only through its range [-1, 1]. Page scroll (`window.scrollY`), window and container sizes, and the container's bounding box are parameters of the methods.
- `originalZ`, the copy of the positions that `ParticleBackground.tsx` stores at line 128 and never reads, is not modelled.
- JsMath.JsRem: defined for a positive divisor only. The one use divides by the depth 5000, and JavaScript's `%` by zero or a negative divisor is not modelled.
- ParticleBackground.ParticleScene.UpdateParticle: the source's inline loop body (lines 160-181) is factored into this method. WaveTexture.LayOutPoint and WaveTexture.WriteHeight do the same for the wave texture's stores. The order of stores within a point is the source's.
- The page markup, the logo strip, the build configuration and the e-mail forwarding function are not part of this model.
