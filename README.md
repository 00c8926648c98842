# Ray-tracing scene component: sphere placement and progressive sample counter

This project models the two pieces of logic in `MainScript`, the Unity
component of a GPU ray tracer. It proves properties of both.

1. **Sphere placement** (`isValid`, `GetSpheres`). The component scatters
   `numSpheres` spheres on the ground plane by rejection sampling. Each slot
   draws a radius, a colour and a specular tint once. It then draws candidate
   origins in the square `[rMax, 30 + rMax]` on x and on z, with `y = radius`.
   A candidate is rejected when its x-z centre lies in the closed box recorded
   for any slot in the array `occupiedRegions`. Entries that were never written
   are tested too; they stay `(0, 0, 0, 0)`. When a slot is accepted, its entry
   becomes `origin ± 2·radius` in x and z, and the sphere is appended to a list.
   The buffer is sized to the number of accepted spheres. The code as written
   has a quirk that the model keeps: `success` is set once per slot and never
   reset, and `numTries` grows only on a conflict. So a slot is accepted only
   when its *first* candidate is free. After one conflict, the loop keeps
   drawing until 60 conflicts have been seen, and the slot is then dropped.
2. **Progressive accumulation** (`Render`, `Update`, `OnDisable`). `Render`
   creates the accumulation texture on first use and restarts `sampleCount`.
   It dispatches `⌈w/8⌉ × ⌈h/8⌉ × 1` thread groups and passes the current
   `sampleCount` to the blend material. It then increments the counter, which
   is a `uint` and wraps at 2^32. `Update` restarts the counter and clears both
   flags when the camera's or the light's `hasChanged` flag is set.
   `OnDisable` releases the sphere buffer.

Randomness is an input: a finite sequence of draws, each a real in [0, 1].
`Random.Range(lo, hi)` is `lo + u·(hi − lo)`. Draws are consumed in the code's
order: radius, red, green, blue, specular selector, then x and z for each
candidate.

Files:
- `wrappers.dfy`: the `Option` type.
- `placement.dfy`: module `Placement`. It holds the placement as pure
  functions (`RetryLoop`, `PlaceSlot`, `GenerateFrom`, `Generate`) and the
  lemmas about them. It also holds the imperative loops (`ScanRegions`,
  `RetrySlot`, `FillSlot`, `PlaceSpheres`), which are proved equal to those functions.
- `rendering.dfy`: module `Rendering`. It holds the render/update state machine
  as step functions, a frame-by-frame run, and lemmas about the sample indices.
- `main_script.dfy`: module `Script`, the class `MainScript`. Its fields and
  callbacks are proved against the two modules above.

The model follows the code as written, in particular:
- The overlap test is the bounding-box test. There is no centre-distance test.
- The candidate square does not shrink by the slot's own radius.
- Only the origin is redrawn on a retry.
- A slot is accepted only on its first candidate.
- A selector draw above 0.5 gives the black specular `(0, 0, 0, 1)`. Otherwise
  the specular is `(0.6, 0.6, 0.6, 1)`.

## Model

| member | source | states |
|---|---|---|
| `Placement.IsValid` | Assets/Assets/MainScript.cs:40-47 | A region rejects a sphere exactly when the centre's x lies in [vec.x, vec.y] and its z lies in [vec.z, vec.w], both bounds closed |
| `Placement.IsValidIgnoresHeightAndRadius` | Assets/Assets/MainScript.cs:40-47 | Two spheres with the same centre x and z get the same verdict from any region: the centre's y and the radius play no part |
| `Placement.ScanRegions` | Assets/Assets/MainScript.cs:71-79 | The `foreach` reports a conflict exactly when some entry of the whole `occupiedRegions` array rejects the candidate, unwritten entries included |
| `Placement.UnwrittenRegionNeverRejects` | Assets/Assets/MainScript.cs:52-52 | A never-written (0,0,0,0) entry cannot reject any candidate when the largest radius is positive, because every candidate has x ≥ rMax |
| `Placement.DrawSlot` | Assets/Assets/MainScript.cs:60-64 | Each slot draws its radius (within [rMin, rMax] when rMin ≤ rMax), its colour (channels in [0, 1], alpha 1) and one of the two specular tints once, from five draws. It starts at the placeholder origin (-1, -1, -1) |
| `Placement.WithCandidate` | Assets/Assets/MainScript.cs:67-69 | A candidate changes only the origin: y is the slot's radius, x is in [rMax, 30 + rMax] and z is in [rMax, 30 + rMax], whatever the slot's own radius. Radius, colour and specular are kept |
| `Placement.Range` | Assets/Assets/MainScript.cs:61-61 | A float `Random.Range(lo, hi)` lands in [lo, hi], and both ends can be hit |
| `Placement.RetryLoop` | Assets/Assets/MainScript.cs:58-90 | An accepted slot's sphere is the slot's sphere with the last drawn candidate origin. That candidate conflicts with no recorded region, and the next slot starts reading after it |
| `Placement.ConflictIsFinal` | Assets/Assets/MainScript.cs:73-80 | Once a candidate has conflicted (`success` false), the slot is never accepted, whatever the later draws are |
| `Placement.FirstCandidateDecides` | Assets/Assets/MainScript.cs:58-89 | A slot is accepted if and only if its first candidate conflicts with no region, and then it is accepted with that candidate |
| `Placement.RetryBudgetCountsConflicts` | Assets/Assets/MainScript.cs:59-79 | `numTries` counts conflicts only. A dropped slot's candidates hold exactly the remaining NUM_RETRIES − numTries conflicts; an accepted slot's candidates hold fewer. Conflict-free candidates after a conflict use none of the budget |
| `Placement.PlaceSlot` | Assets/Assets/MainScript.cs:54-90 | Slot i changes only `occupiedRegions[i]`. On acceptance that entry becomes (ox − 2r, ox + 2r, oz − 2r, oz + 2r), and the accepted sphere conflicted with none of the earlier entries. A dropped slot changes nothing |
| `Placement.Footprint` | Assets/Assets/MainScript.cs:83-86 | The recorded region is a box centred on the sphere's centre in x and z, with side 4·radius in both directions |
| `Placement.ConflictsIffCentreInSomeBox` | Assets/Assets/MainScript.cs:71-79 | A candidate conflicts exactly when its centre's x and z lie in the closed box of some entry of `occupiedRegions`, unwritten entries included |
| `Placement.CentreInsideOwnFootprint` | Assets/Assets/MainScript.cs:83-86 | The region recorded for a sphere with a non-negative radius contains its own centre |
| `Placement.GenerateFrom` | Assets/Assets/MainScript.cs:54-91 | Slots i onwards keep `occupiedRegions` at exactly `numSpheres` entries |
| `Placement.Generate` | Assets/Assets/MainScript.cs:52-91 | `GetSpheres`'s loop leaves one region per slot and at most one sphere per slot |
| `Placement.SceneSize` | Assets/Assets/MainScript.cs:52-54 | At most `numSpheres` spheres are produced, and `occupiedRegions` has exactly `numSpheres` entries. A named corollary of the contract of `Generate` |
| `Placement.GenerateFromShape` | Assets/Assets/MainScript.cs:54-91 | Each later slot adds at most one sphere and never removes or reorders earlier ones, so the list is in acceptance order |
| `Placement.AcceptedOutsideEarlierRegions` | Assets/Assets/MainScript.cs:71-87 | Every accepted sphere's centre lies outside the region recorded for every sphere accepted before it, and every accepted sphere's region is recorded |
| `Placement.GenerateFromKeepsApart` | Assets/Assets/MainScript.cs:54-91 | The loop invariant behind the previous row: the spheres stay apart from earlier regions, and their regions stay recorded, slot after slot |
| `Placement.AcceptedSpheresOnGround` | Assets/Assets/MainScript.cs:67-69 | Every accepted sphere rests on the ground (centre height equals its radius) with x and z in [rMax, 30 + rMax] |
| `Placement.FirstSlotAlwaysPlaced` | Assets/Assets/MainScript.cs:52-88 | With a positive largest radius and enough draws, the first slot is always accepted, because it meets only zero entries |
| `Placement.RetrySlot` | Assets/Assets/MainScript.cs:65-90 | The imperative retry loop returns exactly what `RetryLoop` returns. It writes `occupiedRegions[i]` on acceptance and nothing otherwise |
| `Placement.FillSlot` | Assets/Assets/MainScript.cs:58-90 | One iteration of the outer loop on the array returns exactly what `PlaceSlot` gives. The array ends as `PlaceSlot`'s regions: entry i holds the accepted sphere's region, and nothing else changes |
| `Placement.PlaceSpheres` | Assets/Assets/MainScript.cs:50-92 | The imperative placement (array written in place, list appended) computes exactly `Generate`. At most `numSpheres` spheres, each outside the regions of the spheres before it |
| `Script.MainScript.GetSpheres` | Assets/Assets/MainScript.cs:50-95 | The buffer holds the accepted spheres in acceptance order. Its count is the accepted count, not `numSpheres`, and its stride is 48. The method also reports whether the draws sufficed to decide every slot |
| `Script.MainScript.OnDisable` | Assets/Assets/MainScript.cs:107-113 | A buffer that exists is released, and nothing else changes. Without a buffer nothing happens. The class invariant is kept |
| `Script.MainScript.constructor` | Assets/Assets/MainScript.cs:21-31 | The field initialisers: count 0, no texture, no blend material, no buffer |
| `Rendering.TilesCovering` | Assets/Assets/MainScript.cs:139-139 | `Mathf.CeilToInt(n / 8.0f)` is the least t with 8t ≥ n |
| `Rendering.DispatchGrid` | Assets/Assets/MainScript.cs:139-139 | The dispatch grid is the least number of 8×8 tiles that covers the screen in x and y, and 1 in z |
| `Rendering.RenderStep` | Assets/Assets/MainScript.cs:122-149 | After `Render` the texture exists. The blend gets the current count, or 0 on the frame that creates the texture. The count is then one more, modulo 2^32, and the flags are untouched |
| `Rendering.UpdateStep` | Assets/Assets/MainScript.cs:150-158 | After `Update` both flags are clear. The count is 0 if either flag was set and unchanged otherwise, and the texture is untouched |
| `Rendering.RunFrame` | Assets/Assets/MainScript.cs:115-158 | One engine frame (flags raised, `Update`, then `Render`): it blends 0 when it restarts and the current count otherwise, ends with the texture created, both flags clear and the count one past the blended index modulo 2^32, and dispatches the screen's tile grid |
| `Script.MainScript.Render` | Assets/Assets/MainScript.cs:122-149 | The method's new fields and output are those of `RenderStep`, and the blend material exists afterwards |
| `Script.MainScript.Update` | Assets/Assets/MainScript.cs:150-158 | The method's new fields are those of `UpdateStep` |
| `Rendering.StillFramesCountUp` | Assets/Assets/MainScript.cs:146-148 | While nothing moves, frame k blends sample index (count + k) modulo 2^32, across the wrap as well, and the count ends higher by the number of frames, modulo 2^32 |
| `Rendering.StillFrameIndex` | Assets/Assets/MainScript.cs:146-148 | In a run of still frames, frame k blends (count + k) modulo 2^32 |
| `Rendering.StillFramesFinalState` | Assets/Assets/MainScript.cs:148-148 | After a run of still frames, the count has advanced by the number of frames modulo 2^32, and the texture and flags are unchanged |
| `Rendering.RestartBlendsFirstSample` | Assets/Assets/MainScript.cs:124-157 | A frame where the texture is first created, or where a transform moved, blends index 0. It leaves the flags clear and one sample counted |
| `Rendering.NoRestartBlendsCurrentCount` | Assets/Assets/MainScript.cs:146-146 | Without a restart, a frame blends the current count. A named corollary of the contract of `RunFrame` |
| `Rendering.RestartThenCountUp` | Assets/Assets/MainScript.cs:122-158 | After a restarting frame, a run of still frames of any length blends the indices 0, 1, 2, … in order, each modulo 2^32 |
| `Rendering.CounterWrapsAtTop` | Assets/Assets/MainScript.cs:148-148 | The `uint` counter wraps: after the frame that blends 2^32 − 1, the count is 0 |

## Left out

- Engine and GPU calls are not modelled: `SetMatrix`, `SetVector`, `SetBuffer`, `SetTexture`, `Dispatch`, `Graphics.Blit`, `Shader.Find`, texture creation, and the `ComputeBuffer` upload and release. Of these, the model keeps the dispatch grid, the sample index given to the blend, the spheres uploaded to the buffer with its count and stride, and three flags: texture created, material created, buffer released.
- The camera matrices and their inverse, and the light vector with its intensity, are left out. They are the engine's floating-point linear algebra.
- The random sub-pixel jitter that `Render` draws from `Random.value` is left out. It affects only the image.
- `Random.Range` and `Random.value` are replaced by a finite sequence of draws. When the draws run out, the model stops and reports `complete = false` (`Starved`). This is an artefact of finite draws: the real loop can spin for any number of iterations on conflict-free candidates after a conflict.
- Float arithmetic is not modelled: coordinates are reals, and `Random.Range(lo, hi)` is `lo + u·(hi − lo)`. `Screen.width / 8.0f` is taken as an exact integer ceiling, as it is for realistic widths. `SetFloat("sampleNum", …)` turns the count into a float, which loses precision above 2^24; this is not modelled.
- The byte layout of the 48-byte records is not modelled. The buffer keeps the uploaded spheres as values, with the count and the stride.
- `Debug.Log`, `Awake` (fetching the camera), the `OnEnable` wiring (it only calls `GetSpheres`), `OnRenderImage` (it sets the matrices and calls `Render`) and the editor `[Range]` attributes are left out. `numSpheres` is any natural number, and the radii are any reals. A negative `numSpheres` would make the array allocation throw; that case is not modelled.
- `Script.MainScript.GetSpheres`: when no sphere is accepted, the code creates `new ComputeBuffer(0, 48)`, which the engine refuses with an exception, so `GetSpheres` throws and the field keeps its old value. The model instead records an empty buffer of count 0. Within the editor ranges (`numSpheres` at least 1, `sphereRadiusMax` at least 3) the first slot is always accepted (`Placement.FirstSlotAlwaysPlaced`), so this case arises only outside those ranges or when the finite draws run out before the first candidate.
- What the engine does with a buffer that is missing or released when `Render` binds it is not modelled.
- The engine raising the `hasChanged` flags is modelled only in `Rendering.RunFrame`, as the frame's `cameraMoved` and `lightMoved` inputs. The class takes the flags' initial values in its constructor.
