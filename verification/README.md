# pixi-shapes: a Dafny model of the shape simulation core

pixi-shapes is a small falling-shapes toy. Every tick, the controller adds the
elapsed time to a spawn timer. While a whole spawn interval (`60 / spawnRate`)
fits, it takes one interval off and spawns a random shape above the viewport.
It then walks a snapshot of the live shapes from the back. Each shape gets a
symplectic-Euler step (velocity first, then height with the new velocity). A
shape more than 100 units below the viewport is removed. Clicking the
background spawns a shape at the click point. Clicking a shape removes it.
Four buttons move gravity (by 0.1, clamped at 0) and the spawn rate (by 1,
clamped at 0).

The model has one module per source file, plus the small `Wrappers` module:

- `ShapesFactory` (`shapes_factory.dfy`, for `src/view/ShapesFactory.ts`).
  - The shape kinds and the `sidesMap` table.
  - The per-kind area formulas of `calculateArea` and
    `approximateRegularPolygonArea`.
  - The polar-area approximation `approximatePolarArea` for the irregular
    kind, written as a loop and proved against a recursive sum.
  - The record `drawShape` returns, without its drawing commands.
- `Model` (`shapes_model.dfy`, for `src/model/ShapesModel.ts`).
  - The module-level id counter, as an `IdCounter` object.
  - `generateRandomShape` over injected random draws.
  - The registry class `ShapesModel`, with its list as a `seq` field that
    `Add` and `Remove` reassign.
- `Controller` (`application_controller.dfy`, for
  `src/controller/ApplicationController.ts`).
  - The controller class, with gravity, spawn rate and spawn timer as fields.
  - The spawn loop and the integrate-and-cull loop of `update`, as `while`
    loops with invariants. Each loop's body is one helper method.
  - The four controls and the two pointer handlers.

`wrappers.dfy` holds the `Option` type.

Numbers are reals. The host's `Math.PI` and `Math.sin` are a parameter,
`MathEnv`. All that is known of them is π > 0 and -1 ≤ sin x ≤ 1. Each
`Math.random()` value is a `RandomDraw` in [0, 1), passed in by the caller.
`update` takes `rand(k)`, the draws of the k-th spawn of that tick. The Pixi
`Graphics` object is a `Graphic` handle: it is compared by identity and holds
a mutable `x`/`y`. `ShapeData` is a class, because `update` changes
`velocityY` and `shape.y` through the snapshot's aliases.

## Model

| member | source | states |
|---|---|---|
| ShapesFactory.ShapeKind.Code | src/view/ShapesFactory.ts:3-11 | each kind's run-time number lies in 0..6 |
| ShapesFactory.KindOf | src/view/ShapesFactory.ts:3-11 | a number names a kind exactly when it lies in 0..6, and then that kind's number is the input |
| ShapesFactory.KindCodeRoundTrip | src/view/ShapesFactory.ts:3-11 | turning a kind into its number and back gives the kind |
| ShapesFactory.Graphic.constructor | src/view/ShapesFactory.ts:37-40 | a new handle stands at the given position |
| ShapesFactory.ShapeData.constructor | src/view/ShapesFactory.ts:83-88 | a new record holds the handle, area and metadata, and velocity 0 |
| ShapesFactory.RegularPolygonArea | src/view/ShapesFactory.ts:156-162 | defines `approximateRegularPolygonArea`: 0 without a table entry, else `sides·r²·sin(2π/sides)/2` with r = size/2; its properties are MissingSidesGiveZero, PolygonAreas and PolygonAreaBounds |
| ShapesFactory.CalculateArea | src/view/ShapesFactory.ts:137-154 | defines `calculateArea` by kind number; its properties are ClosedFormAreas, PolygonAreas and UnknownKindHasNoArea |
| ShapesFactory.Sides | src/view/ShapesFactory.ts:28-33 | a kind has a side count exactly when it has a table entry, and then it is the table's value |
| ShapesFactory.MissingSidesGiveZero | src/view/ShapesFactory.ts:156-159 | exactly Square, Circle and Ellipse lack an entry, and for them the polygon formula gives 0 |
| ShapesFactory.ClosedFormAreas | src/view/ShapesFactory.ts:137-145 | Square's area is size², Circle's π(size/2)², Ellipse's π(size/2)(size/3), and all three are non-negative |
| ShapesFactory.PolygonAreas | src/view/ShapesFactory.ts:146-162 | Triangle, Pentagon and Hexagon get `sides·r²·sin(2π/sides)/2` with r = size/2 and 3, 5, 6 sides |
| ShapesFactory.PolygonAreaBounds | src/view/ShapesFactory.ts:156-162 | the polygon area lies within ±`sides·(size/2)²/2`, whatever the host's sine returns |
| ShapesFactory.PolygonAreaNonNegative | src/view/ShapesFactory.ts:156-162 | a polygon kind's area is non-negative whenever the sine at its angle 2π/sides is |
| ShapesFactory.UnknownKindHasNoArea | src/view/ShapesFactory.ts:151-153 | a number outside the enumeration gets area 0 |
| ShapesFactory.BumpCount | src/view/ShapesFactory.ts:71 | the irregular kind's bump count lies in 3..7 |
| ShapesFactory.Repeated | src/controller/ApplicationController.ts:81 | defines a value added n times, one addition at a time: the total `spawnTimer -= interval` takes off over n passes; SectorSumBounds also uses it as the shape of its bounds |
| ShapesFactory.RepeatedIsProduct | src/controller/ApplicationController.ts:81 | adding a value n times gives n times that value |
| ShapesFactory.SectorSum | src/view/ShapesFactory.ts:95-104 | defines the accumulator after n iterations: the sum of the first n sector terms; its properties are SectorSumNonNegative, SectorSumBounds and RoundSectorSum |
| ShapesFactory.PolarArea | src/view/ShapesFactory.ts:91-107 | defines `approximatePolarArea`: half the sum of `steps` sector terms at angle step 2π/steps; its properties are PolarAreaBounds and PolarAreaOfRoundBlob |
| ShapesFactory.SampledRadiusBounds | src/view/ShapesFactory.ts:99-100 | a sampled radius lies between 0.7 and 1.3 times the base radius |
| ShapesFactory.SectorTermNonNegative | src/view/ShapesFactory.ts:103 | each term the loop adds is non-negative |
| ShapesFactory.SectorTermBounds | src/view/ShapesFactory.ts:99-103 | each term lies between 0.49 and 1.69 times radius²·Δθ |
| ShapesFactory.SectorSumNonNegative | src/view/ShapesFactory.ts:95-104 | the accumulator is never negative |
| ShapesFactory.SectorSumBounds | src/view/ShapesFactory.ts:95-104 | after n iterations the accumulator lies between 0.49·radius²·Δθ added n times and 1.69·radius²·Δθ added n times |
| ShapesFactory.PolarAreaBounds | src/view/ShapesFactory.ts:91-107 | the halved sum lies between the areas of the discs of radius 0.7·radius and 1.3·radius |
| ShapesFactory.PolarAreaOfRoundBlob | src/view/ShapesFactory.ts:91-107 | given sin 0 = 0 (which `MathEnv` does not promise), with no bumps the result is exactly π·radius²: a check that the final halving makes the sector sum an area, not a reachable blob, since BumpCount is at least 3 |
| ShapesFactory.RoundSectorSum | src/view/ShapesFactory.ts:95-104 | with no bumps, n iterations accumulate n·radius²·Δθ |
| ShapesFactory.ApproximatePolarArea | src/view/ShapesFactory.ts:91-107 | the loop returns half the sum of the `steps` sector terms, which is non-negative |
| ShapesFactory.ShapeAreaNonNegative | src/view/ShapesFactory.ts:43-76 | every area `drawShape` records for a kind in 0..6 and a non-negative size is non-negative, given the sine is non-negative at 2π/3, 2π/5 and 2π/6 (as the host's is, each angle lying in (0, π)) |
| ShapesFactory.ShapeArea | src/view/ShapesFactory.ts:44-76 | defines the area `drawShape` records: the polar approximation at the drawn bump count for the irregular kind, `calculateArea` otherwise; DrawShape's contract connects it to the method |
| ShapesFactory.DrawShape | src/view/ShapesFactory.ts:36-89 | a fresh record and handle at the metadata's position, with velocity 0 and the metadata itself; the area is the polar approximation for the irregular kind and `calculateArea` otherwise |
| Model.IdCounter.constructor | src/model/ShapesModel.ts:11 | the counter starts at 0 |
| Model.RandomShape | src/model/ShapesModel.ts:16-31 | the id is the given one, the kind is in 0..6, the colour is in [0, 0xffffff), the size in [30, 90); a given x or y is kept, else x is in [0, 800) and y is -size |
| Model.IndexOfHandle | src/model/ShapesModel.ts:38 | -1 exactly when no record holds the handle; otherwise the first position holding it |
| Model.Without | src/model/ShapesModel.ts:46 | one record shorter, with the records before i kept and the ones after i moved up by one |
| Model.AreaSum | src/model/ShapesModel.ts:58-60 | defines `getTotalArea`'s reduction: the areas added from the front; its properties are AreaSumConcat, AreaSumWithout and AreaSumNonNegative |
| Model.AreaSumConcat | src/model/ShapesModel.ts:58-60 | the total area of two lists joined is the sum of their totals |
| Model.AreaSumWithout | src/model/ShapesModel.ts:37-48 | splicing out record i lowers the total area by that record's area |
| Model.AreaSumNonNegative | src/model/ShapesModel.ts:58-60 | with non-negative areas the total is non-negative |
| Model.IndexAfterAppend | src/model/ShapesModel.ts:33-38 | a handle appended to a list lacking it is found at the old length |
| Model.WithoutKeepsInvariants | src/model/ShapesModel.ts:37-48 | splicing keeps handles distinct and ids increasing, and with distinct handles the removed handle is gone |
| Model.AreaSumNonNegativeIf | src/model/ShapesModel.ts:58-60 | the total is non-negative whenever every area is |
| Model.ShapesModel.constructor | src/model/ShapesModel.ts:14 | the registry starts empty |
| Model.ShapesModel.GenerateRandomShape | src/model/ShapesModel.ts:16-31 | the record for the counter's current value, after which the counter has moved on by one |
| Model.ShapesModel.Add | src/model/ShapesModel.ts:33-35 | the record is appended; the count rises by 1 and the total area by its area; handles stay distinct when the new handle was absent |
| Model.ShapesModel.Remove | src/model/ShapesModel.ts:37-48 | an absent handle changes nothing; otherwise its first record is spliced out, the count falls by 1 and the total area by that area; distinct handles and increasing ids are kept and the handle is gone |
| Model.ShapesModel.GetAll | src/model/ShapesModel.ts:50-52 | the live records in order, as many as the count |
| Model.ShapesModel.GetCount | src/model/ShapesModel.ts:54-56 | zero exactly when the registry is empty |
| Model.ShapesModel.GetTotalArea | src/model/ShapesModel.ts:58-60 | 0 for an empty registry; non-negative when every area is |
| Model.AddThenRemove | src/model/ShapesModel.ts:33-48 | adding a record with a new handle and removing that handle restores the list, count and total area, and leaves the handle absent, so that by Remove's first clause a second removal changes nothing |
| Controller.Interval | src/controller/ApplicationController.ts:78 | at a positive rate the interval is positive |
| Controller.MaxZero | src/controller/ApplicationController.ts:38 | `Math.max(0, v)`: at least 0 and at least v, and equal to one of them |
| Controller.Heights | src/controller/ApplicationController.ts:90 | defines the list of handle heights, in record order: the vocabulary Update and IntegrateAndCull are stated in |
| Controller.Velocities | src/controller/ApplicationController.ts:89 | defines the list of velocities, in record order: the vocabulary Update and IntegrateAndCull are stated in |
| Controller.Xs | src/view/ShapesFactory.ts:39 | defines the list of handle x positions, in record order: the vocabulary Update and IntegrateAndCull are stated in |
| Controller.KeptFrom | src/controller/ApplicationController.ts:86-95 | defines the cull from position i on: the records whose height is at most the limit, in order; its properties are KeptFromOrigin, KeptFromComplete, KeptFromAll and KeptFromInvariants |
| Controller.KeptFromOrigin | src/controller/ApplicationController.ts:86-95 | every record the cull keeps comes from the list and is at or above the limit |
| Controller.KeptFromComplete | src/controller/ApplicationController.ts:86-95 | every record at or above the limit is kept |
| Controller.KeptFromAll | src/controller/ApplicationController.ts:86-95 | when nothing is past the limit the cull keeps the whole list |
| Controller.KeptFromInvariants | src/controller/ApplicationController.ts:86-95 | the cull keeps handles distinct and ids increasing |
| Controller.KeptFromRegistry | src/controller/ApplicationController.ts:86-95 | the cull keeps the registry invariant, with every id below the counter |
| Controller.RegistryWithout | src/model/ShapesModel.ts:37-48 | splicing out one record keeps the registry invariant |
| Controller.FloorAtLeast | src/controller/ApplicationController.ts:80-83 | if j intervals fit in the timer, then j ≤ ⌊timer/interval⌋ |
| Controller.SpawnCountIsFloor | src/controller/ApplicationController.ts:80-83 | if n intervals were taken and less than one interval remains, then n = ⌊timer/interval⌋ |
| Controller.SpawnLoopExit | src/controller/ApplicationController.ts:77-83 | when the spawn loop stops: at a positive rate and non-negative timer, ⌊timer/interval⌋ spawns happened and the remainder lies in [0, interval); otherwise none happened and the timer is untouched |
| Controller.NothingDue | src/controller/ApplicationController.ts:77-83 | with less than one interval on the timer (or rate 0) the spawn loop takes nothing and leaves the timer as it is |
| Controller.Accelerate | src/controller/ApplicationController.ts:89 | defines the velocity half of the step, `v + gravity·delta`; Sped and Step apply it |
| Controller.Advance | src/controller/ApplicationController.ts:90 | defines the position half of the step, `y + v·delta` with the new velocity; Fallen and Step apply it |
| Controller.ZeroTick | src/controller/ApplicationController.ts:85-95 | a tick of length 0 that spawns nothing, over records all within the limit, changes no velocity, height or x and culls nothing |
| Controller.Step | src/controller/ApplicationController.ts:89-90 | velocity becomes `v + gravity·delta`, then height becomes `y + v'·delta` with the new velocity; x is untouched |
| Controller.StepAt | src/controller/ApplicationController.ts:86-90 | stepping record i of a list whose later records are already stepped leaves the records from i onward stepped and the rest untouched |
| Controller.Sped | src/controller/ApplicationController.ts:89 | defines the velocities after one step, each accelerated by gravity·delta (Accelerate applied point by point) |
| Controller.Fallen | src/controller/ApplicationController.ts:90 | defines the heights after one step, each advanced by its new velocity times delta (Advance applied point by point) |
| Controller.Stepped | src/controller/ApplicationController.ts:86-90 | defines the values a walk from the back leaves once it has passed position i: stepped values after i, starting values up to i; StepAt advances it, StillAtStart and AllStepped give its two ends |
| Controller.CullDrop | src/controller/ApplicationController.ts:92-94 | a record past the limit is found by its handle at its own position, and splicing it out leaves the list culled from that position on |
| Controller.StartYs | src/view/ShapesFactory.ts:40 | defines the list of each record's metadata y, the height DrawShape places its handle at; AtStart and Update use it |
| Controller.StartXs | src/view/ShapesFactory.ts:39 | defines the list of each record's metadata x, the x DrawShape places its handle at; AtStart and Update use it |
| Controller.ApplicationController.constructor | src/controller/ApplicationController.ts:7-10 | an empty registry, gravity 1, rate 1, timer 0; the invariant holds |
| Controller.ApplicationController.IncreaseGravity | src/controller/ApplicationController.ts:32-35 | gravity rises by 0.1; rate and timer are untouched |
| Controller.ApplicationController.DecreaseGravity | src/controller/ApplicationController.ts:37-40 | gravity falls by 0.1 but never below 0; rate and timer are untouched |
| Controller.ApplicationController.IncreaseRate | src/controller/ApplicationController.ts:42-45 | the rate rises by 1 and stays whole; gravity and timer are untouched |
| Controller.ApplicationController.DecreaseRate | src/controller/ApplicationController.ts:47-50 | the rate falls by 1 but never below 0, and stays whole; gravity and timer are untouched |
| Controller.ApplicationController.SpawnShape | src/controller/ApplicationController.ts:63-74 | the new record goes at the end; its metadata is generateRandomShape's for the counter's value; it is fresh, at rest, at its metadata's position; its area is ShapeArea of its metadata and bump draw; the counter moves on by one; the invariant is kept |
| Controller.ApplicationController.OnBackgroundClick | src/controller/ApplicationController.ts:55-60 | a fresh record is appended, at rest at the click point, with generateRandomShape's metadata for that point and the counter's value and ShapeArea's area; the counter moves on by one; the invariant is kept |
| Controller.ApplicationController.OnShapeClick | src/controller/ApplicationController.ts:67-70 | the clicked handle's record is spliced out (nothing changes if absent), the handle is gone afterwards and the invariant is kept |
| Controller.ApplicationController.SpawnOne | src/controller/ApplicationController.ts:80-83 | one pass of the spawn loop takes one interval off the timer and appends one record spawned from the next draws, whose area is ShapeArea of its metadata and the next bump draw |
| Controller.ApplicationController.SpawnLoop | src/controller/ApplicationController.ts:80-83 | the loop takes the interval off n times and appends n records spawned from consecutive draws and ids, each with the area drawShape computes from its bump draw, and stops only when less than one interval is left or the rate is 0 |
| Controller.ApplicationController.SpawnDue | src/controller/ApplicationController.ts:77-83 | the timer gains delta; then the number of spawns is the floor of timer/interval and the remainder lies in [0, interval) (nothing at rate 0 or a negative timer); the new records are fresh, appended in order, at rest at their drawn positions, with consecutive ids, and the k-th has ShapeArea of its metadata and the k-th bump draw as its area |
| Controller.ApplicationController.CullAt | src/controller/ApplicationController.ts:92-94 | removing a record past the limit extends the culled suffix to its position |
| Controller.ApplicationController.StepAndCull | src/controller/ApplicationController.ts:86-94 | one pass of the backward walk: record i is stepped and culled if past the limit; the records before i are untouched |
| Controller.ApplicationController.IntegrateAndCull | src/controller/ApplicationController.ts:85-95 | every record of the snapshot gets the velocity and then the height step, and x is unchanged; the registry becomes the snapshot filtered to heights at most `height + 100`, in order; controller fields and counter are untouched |
| Controller.ApplicationController.Update | src/controller/ApplicationController.ts:76-95 | the spawn phase's outcome as in SpawnDue, including the spawned records' areas; less than one interval on the timer spawns nothing; then the old records followed by the new ones are stepped once from where they stood (new ones from rest at their drawn position), keep their x, and the registry is that list culled at `height + 100`; the invariant is kept |
| Controller.ApplicationController.PausedTick | src/controller/ApplicationController.ts:76-95 | `update(0)` with less than one interval on the timer, every shape within the limit, spawns nothing and leaves the registry, every velocity, height and x, the timer and the counter as they were |

Proof helpers, which state steps of the proofs above rather than anything of
the source: `SectorTermIs`, `FullTurn` and `HalfBetween` (polar area);
`AreaSumSnoc` and `SplitAt` (total area); `StillAtStart`, `AllStepped`,
`CullKeep` and `ViewsConcat` (the integrate-and-cull loop); `StartSnoc`,
`SpawnedSnoc` and `AreasSnoc` (the spawn loop); `QuotientBounds` (the spawn count);
`SquareBetween`, `SquareSumBounds` and `ScaleBetween` (the sector-term
bounds).

## Left out

- Drawing: `beginFill`/`endFill`, the path commands, `drawPolygonShape`, `drawRandomShape`, `interactive`/`buttonMode`. They only produce pixels. `Graphic` keeps only the position.
- The area keeps the source's radius: `drawPolygonShape` draws Pentagon and Hexagon with radius `size`, but the area formula uses radius `size/2` (`src/view/ShapesFactory.ts:160`). The drawn isosceles triangle is likewise not the regular triangle the formula measures. The model keeps the formula as written.
- The display tree: `shape.parent.removeChild` in `remove`, `addToStage`, `addBackground`. GameView and Startup are not part of this model.
- The DOM labels and `updateLabels`. They display `GetCount`, `GetTotalArea` and the control values; text formatting (`toFixed`) is not modelled.
- Event wiring: the pointer and click listeners become the methods `OnBackgroundClick`, `OnShapeClick` and the four controls. `event.stopPropagation` is not modelled.
- IEEE-754 arithmetic: all numbers are unbounded reals. `gravity += 0.1` is exact, and ids never lose precision.
- `60 / spawnRate` at rate 0 is Infinity in the source. The model uses 0 there, because the loop guard rejects rate 0 before the interval matters. The same holds for `approximatePolarArea` at 0 steps.
- `Math.PI`, `Math.sin` and `Math.random` are parameters (`MathEnv`, `RandomDraw`, `rand`). Only π > 0 and -1 ≤ sin x ≤ 1 are built in.
- ShapesFactory.PolygonAreaBounds: bounds the polygon area by ±`sides·(size/2)²/2` only, because `MathEnv` lets sin be negative at 2π/sides. The non-negative area the host's sine gives is ShapeAreaNonNegative, which takes sin ≥ 0 at 2π/3, 2π/5 and 2π/6 as a hypothesis.
- The viewport height is the constant field `height`. The ShapesFactory instance has no state and is not an object in the model.
- Model.ShapesModel.GetAll: returns the list as a value. The source returns the live array; `update` copies it anyway before mutating.
- ShapesFactory.DrawShape: requires a kind number in 0..6. For any other number the source's switch leaves the area `undefined`, and `generateRandomShape` never produces such a number.
- Controller.ApplicationController.Update: says nothing about the label text it writes.
- Controller.ApplicationController.SpawnDue: states the remainder through `Repeated`, which subtracts the interval one spawn at a time. `RepeatedIsProduct` proves this equals n·interval.
