# Lightning trees over a weighted Voronoi partition

The visualiser divides the screen among N moving seeds and grows one lightning
tree in each seed's region. This project models the engine behind that.

- **`BorderSystem`** (`src/border.js`) owns the seeds. `initSeeds` creates them
  with random positions and weights. Every frame, `update` moves each seed by
  noise and swells its weight with one audio band. `getOwnerId` hands a point
  to the seed with the least distance divided by weight, so the partition is a
  multiplicatively weighted Voronoi diagram.
- **`Tree`** (`src/tree.js`) and **`VoiceTree`** (`src/voice.js`) are two
  near-identical growth units. Each one:
  - grows a random skeleton of zig-zag segments into a flat, append-only array
    (`regenerate` / `growBranch`);
  - fills a colour buffer from it (`updateColorBuffer`);
  - runs a flash / cooldown state machine driven by audio;
  - projects the skeleton each frame into a fixed-size position buffer. A
    segment starts where its parent ended, is clipped against its own
    territory, collapses when its parent did, and the unused tail is zeroed.

  `VoiceTree` adds a master fade, a noise gate on the mid band and `toggle`.

The model is imperative where the code is:

- `BorderSystem`, the growth unit and the random-number source are classes.
- The skeleton and the seeds are `seq` fields that the methods reassign.
- The two `Float32Array` buffers are `array<real>`, written in place with the
  source's running index and its zero-fill loop.
- The `validTips` map is a local `map` that the projection loop extends.

Each method is proved against a pure specification function. `Spawned`,
`Updated` and `OwnerId` specify the border methods. `Tick` and `Fade` specify
the lifecycle, and `Struck` the regrowth of a frame that fires.
`GrownBranch`, `Branched`, `Trunks` and `Regrown` specify growth, and `Forest`
is the invariant it keeps. `ProjectUpTo` and `Rendered` specify the projection. Lemmas then prove the properties the
code promises about those functions.

`Tree` and `VoiceTree` share one class, `Growth.GrowthUnit`, which is told
apart by its `kind`. Every constant in which the two files differ lives in
`Profile`: caps, depth limits, early-stop rule, trunk counts and lengths,
scales, palettes and the child-count draws.

Randomness is one injected stream of draws in [0,1) with a cursor
(`Random.Rng`). Every draw is read in the source's own order, so the
specification functions can name exactly which draw a value came from.

The library calls `rotateAround`, `normalize`, `Math.cos`/`Math.sin` and
`offsetHSL` become the opaque function fields of `Geometry.Three`. `noise3D`
is the opaque parameter `Border.Noise`.

Comparing `distance / weight` uses the squared score
`dist² / weight²` (`Border.Score`). `DistanceOrderIsScoreOrder` proves that it
orders seeds the same way for positive weights, so no square root is needed.

A growth unit reaches its seed as `border.seeds[seedId]`. The source instead
keeps a reference to the seed object, and `update` mutates that object in
place. Both reach the same record because ids equal indices.

Two behaviours of the code worth noting:

- `Tree` applies jitter on every frame. Its strength `0.1 + treble * 4 + r * 0.3`
  has no gate (`src/tree.js:220`, `src/tree.js:242-243`).
- A partition with no seeds is allowed, and `getOwnerId` then answers -1.

## Model

| member | source | states |
|---|---|---|
| Border.Spread | src/border.js:63-64 | `(r - 0.5) * extent` lies in `[-extent/2, extent/2)` for a draw r in [0,1) |
| Border.Spawn | src/border.js:63-73 | a pushed seed has the given id, `currPos == basePos`, weight 1, `baseWeight` in [1,4), `reactivity` in [5,15), `freqType` in {0,1,2}, and a position inside the canvas |
| Border.SpawnedOk | src/border.js:61-75 | the seeds created for ids 0..n-1 are numbered by their index and all keep the seed ranges |
| Border.SpawnedGrows | src/border.js:62-75 | one more loop iteration appends exactly the next seed, which reads the next five draws |
| Border.BorderSystem.constructor | src/border.js:54-59 | the system starts with exactly the `count` seeds `initSeeds` creates from an empty list and is valid |
| Border.BorderSystem.InitSeeds | src/border.js:61-76 | appends exactly `count` seeds, the i-th built from draws `5i .. 5i+4`, leaves the old seeds untouched and consumes five draws per seed |
| Border.BorderSystem.DrawSeed | src/border.js:63-73 | one pushed seed literal, its five draws read in source order |
| Border.Energy | src/border.js:101-104 | a seed reacts to bass (type 0), mid (type 1) or treble (otherwise): one of the three bands, non-negative for non-negative bands, zero for silence |
| Border.Moved | src/border.js:89-107 | only `currPos` and `currentWeight` change; with non-negative audio the weight is at least `baseWeight` |
| Border.Updated | src/border.js:89-107 | the loop moves every seed in its own place: the same length, and seed i becomes `Moved` of seed i |
| Audio.Safe | src/border.js:79 | a missing frame reads as all zeros; a present one is passed through |
| Border.BorderSystem.Update | src/border.js:78-108 | the new seed list is `Updated(old seeds, time, Safe(audio), noise)` and the system stays valid |
| Border.MovedForgetsHistory | src/border.js:83-106 | two seeds that agree on everything except `currPos` and `currentWeight` move to the same seed |
| Border.UpdateIdempotent | src/border.js:78-107 | updating twice with the same (time, audio) gives the same seeds as updating once |
| Border.UpdatedWeightsAtLeastBase | src/border.js:101-106 | with non-negative bands every `currentWeight >= baseWeight >= 1` and the seed ranges are kept |
| Border.MissingAudioRestsAtBaseWeight | src/border.js:79-106 | with a missing audio frame every `currentWeight == baseWeight` |
| Border.OwnerIndexUpTo | src/border.js:110-121 | the scan over the first n seeds yields -1 exactly when n is 0, and otherwise an index below n |
| Border.ScanIsArgmin | src/border.js:113-119 | the scan's answer has the least score among the first n seeds and is strictly better than every earlier seed |
| Border.ArgminUnique | src/border.js:115 | because of the strict `<`, there is only one earliest argmin |
| Border.OwnerIsEarliestArgmin | src/border.js:110-121 | `OwnerId`, the answer of `getOwnerId`, is the id of the earliest seed of least distance/weight; a seed index is that argmin if and only if it is the owner's |
| Border.NoOwnerIffNoSeeds | src/border.js:111-120 | the answer is -1 if and only if there are no seeds, and otherwise it is a valid id |
| Border.DistanceOrderIsScoreOrder | src/border.js:114-115 | `d1/w1 < d2/w2` if and only if the squared scores compare the same way, for positive weights |
| Border.ScoreShrinks | src/border.js:114 | a heavier weight never raises a seed's score |
| Border.HeavierSeedKeepsItsPoints | src/border.js:114-118 | raising the owner's weight keeps it the owner of the point |
| Border.FourSitesScenario | src/border.js:110-121 | on four sites, (-5,0) belongs to the site at (-10,0), and so does (5,0) once that site weighs 4 |
| Border.BorderSystem.GetOwnerId | src/border.js:110-121 | the loop over `minDist`/`id` returns `OwnerId(seeds, point)` |
| Random.Rng.Next | src/tree.js:18 | `Math.random()`: the draw at the cursor, in [0,1), after which the cursor moves on by one |
| Profile.MaxSegments | src/tree.js:15 | the segment cap (12000 for Tree, 15000 for VoiceTree at src/voice.js:15) is positive, so the buffers hold at least one segment |
| Profile.MaxDepth | src/tree.js:17 | the depth limit (6 for Tree, 7 for VoiceTree at src/voice.js:16) is positive, so `depth / maxDepth` is defined |
| Profile.TreeScale | src/tree.js:18 | treeScale in [0.7,1.5) for Tree and [1.0,1.8) for VoiceTree (src/voice.js:18) |
| Profile.TriggerThreshold | src/tree.js:22 | Tree's threshold is in [0.15,0.4); VoiceTree's is fixed at 0.3 (src/voice.js:26) |
| Profile.TrunkCount | src/tree.js:51 | 2..4 trunks for Tree, 2..3 for VoiceTree (src/voice.js:56) |
| Profile.TrunkLength | src/tree.js:56 | trunk length before scaling is in [15,25) for Tree and [30,45) for VoiceTree (src/voice.js:61) |
| Profile.Palette | src/tree.js:24-29 | each kind has four palette entries, all 24-bit colours (src/voice.js:28-33) |
| Profile.PaletteIndex | src/tree.js:59 | `floor(r * 4)` is a valid palette index |
| Profile.ChildDraws | src/voice.js:98 | Tree always draws twice at depth 0 and once below; VoiceTree's short-circuit draws once or twice |
| Profile.ChildCount | src/tree.js:102-107 | 2..4 children at depth 0 and 1..3 below, from the draws the source reads |
| Skeleton.ForestPrefix | src/tree.js:82-83 | any prefix of a forest is a forest, so stopping at the cap keeps what was emitted intact |
| Skeleton.ForestAppend | src/tree.js:88-97 | pushing a segment whose id is the next index and whose parent is earlier, at the same or the next depth keeps the forest invariant |
| Skeleton.RootOf | src/tree.js:86-98 | following `parentId` always ends at a depth-0 root no later in the array, so there are no cycles |
| Skeleton.DepthBelowIndex | src/tree.js:88-98 | a segment's depth is at most its distance in the array from its root |
| Skeleton.Roots | src/tree.js:62 | the number of `parentId == -1` segments is at most the length |
| Skeleton.RootsNoneAfter | src/tree.js:109-117 | a tail with no roots (the children of a trunk) adds no roots |
| Skeleton.RootsOneAfter | src/tree.js:62 | a tail that starts with a single root adds exactly one |
| Skeleton.Steps | src/tree.js:77 | `max(2, floor(length / 2))`: at least 2, and the floor of length/2 once that is 2 or more |
| Skeleton.Kink | src/tree.js:85 | a kink lies in [-0.4, 0.4) |
| Skeleton.Decay | src/tree.js:113 | a child's length factor lies in [0.6, 0.9) |
| Skeleton.ChildSpread | src/tree.js:110 | the spread `1.6 - depth * 0.2` is at most 1.6 and positive exactly below depth 8, so at every depth a branch can have |
| Skeleton.Glow | src/tree.js:153-158 | `min(1, c + depth/maxDepth*0.8)` is at most 1, non-negative for non-negative c, and one of its two arguments |
| Skeleton.ColorAt | src/tree.js:145-161 | the colour-buffer value at flat index j is that glow of channel j % 3 of segment j / 6, and at most 1 |
| Skeleton.ColorsInUnitRange | src/tree.js:155-158 | with non-negative base colours every buffer value lies in [0,1] |
| Growth.ChainLength | src/tree.js:82-83 | a chain gets all its `steps` links, or as many as still fit under the cap (at least one) |
| Growth.Link | src/tree.js:85-98 | link i has id i, the call's depth and colour, and hangs off the previous link (or the call's parent); `steps` links of `length/steps` make up `length` |
| Growth.GuardDraws | src/tree.js:71-73 | the guards consume at most one draw |
| Growth.LinkLength | src/tree.js:76-78 | the `steps` links of a chain, each `length / steps` long, add up to `length` |
| Growth.LinksAt | src/tree.js:82-99 | the j-th link pushed by the zig-zag loop is `Link` of index `n0 + j`, built from its own kink draw |
| Growth.LinksForest | src/tree.js:88-98 | a chain pushed under a parent one level up, or as a root at depth 0, keeps the forest invariant |
| Growth.ChainAppended | src/tree.js:82-99 | a skeleton that keeps the old segments and adds exactly the links `Link` gives is the old skeleton followed by `Chain` |
| Growth.ChainFacts | src/tree.js:80-99 | the chain of a call that passed its guards keeps the forest, adds exactly `ChainLength` links after the old segments, and ends at the call's depth |
| Growth.GrownBranchStops | src/tree.js:71-73 | a call stopped by a guard leaves the skeleton as it was and reads only the stop draw, when that test is reached |
| Growth.GrownBranchProceeds | src/tree.js:70-117 | a call that passes the guards is its body, `Sprouted`, from the draw after the stop test |
| Growth.SproutedIs | src/tree.js:76-117 | the body is the chain, then the child-count draws right after the kinks, then the branching loop under the chain's last link |
| Growth.BranchedStep | src/tree.js:109-117 | one iteration of the branching loop reads the turn draw and the decay draw, then grows the child one level deeper under the last link |
| Growth.TrunksStep | src/tree.js:53-63 | one iteration of the trunk loop reads the angle, length, palette and shade draws, then grows a trunk from no parent at depth 0 |
| Growth.RegrownIs | src/tree.js:44-53 | `regenerate` starts from an empty skeleton with the scale draw and then the trunk-count draw |
| Growth.SproutShape | src/tree.js:76-117 | the chain followed by deeper subtrees in the same colour is a subtree of the call: at or below its depth, in its colour, hanging off its own segments, the first under the call's parent |
| Growth.ChildrenCompose | src/tree.js:109-117 | the subtrees of successive children together are still children of the same link |
| Growth.GrownBranchFacts | src/tree.js:70-118 | what `growBranch` leaves: a forest within the cap; the old segments kept; new ones at or below the call's depth and in its colour, the first under `parentId`; new segments exactly when the three guards pass, and then the whole chain first; a stopped call reads only its guard draw |
| Growth.SproutedFacts | src/tree.js:76-117 | a call past its guards always adds segments: its chain first, then subtrees, all in the call's colour and at or below its depth, the first hanging off `parentId` |
| Growth.BranchedFacts | src/tree.js:109-117 | the branching loop adds only segments strictly deeper than the branch, in its colour, none hanging off a segment before the last link, and keeps the forest and the cap |
| Growth.TrunkFacts | src/tree.js:54-62 | one trunk adds exactly one root when there is room, and nothing at the cap |
| Growth.TrunksFacts | src/tree.js:53-63 | the trunk loop keeps the forest and the cap and adds one root per trunk until the cap is hit, never more |
| Growth.RegrownFacts | src/tree.js:44-63 | `regenerate` grows a forest within the cap, reads at least its two opening draws, and has at most `trunkCount` roots, exactly that many when the cap is not hit |
| Growth.DrawProfile | src/tree.js:18-22 | the constructor's draws in order: the scale, the cooldown and, for Tree only, the threshold (VoiceTree fixes it, src/voice.js:26), so two or three draws are read |
| Growth.GrowthUnit.constructor | src/tree.js:4-38 | treeScale is `TreeScale` of the first draw, the cooldown `Initial` of the second and Tree's threshold `TriggerThreshold` of the third; the unit starts dark (opacity and material opacity 0), visible as a new mesh is, not flashing, inactive, with master fade 0 and fresh zeroed buffers; the skeleton and cursor are `Regrown` from the next draw, with a matching colour buffer |
| Growth.GrowthUnit.DrawChildCount | src/tree.js:102-107 | the child count is `ChildCount` of the draws read, and as many draws as `ChildDraws` are consumed |
| Growth.GrowthUnit.EmitChain | src/tree.js:76-99 | pushes exactly `ChainLength` links, each `Link(...)` of its own kink draw, keeps the earlier segments and the forest, and returns the last link's id |
| Growth.GrowthUnit.GrowBranch | src/tree.js:70-118 | the skeleton and cursor afterwards are exactly `GrownBranch` of the old ones (whose shape GrownBranchFacts states) |
| Growth.GrowthUnit.Sprout | src/tree.js:76-117 | past the guards, the skeleton and cursor afterwards are exactly `Sprouted`: the chain, the child-count draws and the children |
| Growth.GrowthUnit.Branch | src/tree.js:101-117 | the child count is read as `ChildCount` says, consuming `ChildDraws`, and then the skeleton and cursor are exactly `Branched` from child 0 |
| Growth.GrowthUnit.GrowChildren | src/tree.js:109-117 | the loop over `childCount` children leaves exactly `Branched` from child 0 of the old skeleton and cursor |
| Growth.GrowthUnit.GrowChild | src/tree.js:110-116 | one iteration takes `Branched` from child i to child i + 1: what remains to grow is unchanged |
| Growth.GrowthUnit.PlantTrunk | src/tree.js:54-62 | one iteration takes `Trunks` from trunk i to trunk i + 1: what remains to grow is unchanged |
| Growth.GrowthUnit.Regenerate | src/tree.js:44-68 | the skeleton and cursor afterwards are exactly `Regrown` of the old cursor; the unit stays valid; the colour buffer matches the new skeleton and is untouched past it |
| Growth.GrowthUnit.UpdateColorBuffer | src/tree.js:145-163 | writes `ColorAt` at every index below `6 * skeleton.length` and nothing beyond |
| Growth.GrowthUnit.WriteColor | src/tree.js:146-160 | the six colour floats of one segment, and no other index |
| Lifecycle.Initial | src/tree.js:10-21 | a unit starts dark with cooldown `r * 2` in [0,2) |
| Lifecycle.Ignited | src/tree.js:199-200 | ignition sets opacity 1 and flashing and keeps the cooldown |
| Lifecycle.Evicted | src/tree.js:170-175 | leaving the territory sets opacity 0 and not flashing, keeps the cooldown and keeps the state machine's invariant |
| Lifecycle.Tick | src/tree.js:178-207 | keeps opacity in [0,1] (positive exactly while flashing); an expiring flash ends at 0 with a cooldown in [0.2,1.7); otherwise a flash loses 0.04; a waiting unit loses `dt`; an armed unit flashes exactly when the trigger fires |
| Lifecycle.TickDraws | src/tree.js:183-195 | a tick reads one draw when the flash expires or when Tree's trigger test is reached, and none otherwise |
| Lifecycle.Flux | src/tree.js:195 | Tree's flux lies in [-0.075, 0.075) |
| Lifecycle.TreeEnergyRange | src/tree.js:194 | the weighted energy is 0 for silence and lies in [0, 2.9] for bands in [0,1] |
| Lifecycle.IgnitionBand | src/tree.js:195-197 | an energy of at least threshold + 0.075 always ignites, one of at most threshold - 0.075 never does |
| Lifecycle.SilenceNeverIgnitesTree | src/tree.js:194-197 | all-zero audio never beats `threshold + flux` |
| Lifecycle.TreeRun | src/tree.js:178-207 | n ticks keep the state machine's invariant |
| Lifecycle.QuietTickStaysDark | src/tree.js:188-205 | a dark unit whose trigger does not fire stays dark |
| Lifecycle.SilentTreeStaysDark | src/tree.js:178-207 | a dark Tree fed silence stays dark for any number of ticks and any draws |
| Lifecycle.FlashDecaysLinearly | src/tree.js:179-181 | k < 25 ticks into a flash the opacity is `1 - 0.04 k` |
| Lifecycle.FlashLasts25Ticks | src/tree.js:179-187 | a flash is still lit after 24 ticks and dark after 25, with a cooldown in [0.2,1.7) |
| Lifecycle.TreeRunLast | src/tree.js:178-207 | a run of k + 1 ticks is one tick after the run of k |
| Growth.GrowthUnit.TreeTick | src/tree.js:178-207 | the fields move as `Tick` says; draws are consumed as `TickDraws` says; the result says whether the unit was armed and fired |
| Growth.GrowthUnit.TreeStrike | src/tree.js:177-207 | `TreeTicked`: the fields move as `Tick` says, the skeleton and cursor are `Struck` (regrown from the draw after the tick when the frame fires, unchanged otherwise), and the colours are untouched unless it fires and still match |
| Lifecycle.VoiceEnergy | src/voice.js:183-196 | the gated energy is 0 below 0.35 and `3 * mid²` from 0.35 on |
| Lifecycle.VoiceTriggerIff | src/voice.js:183-203 | the energy beats 0.3 if and only if `mid >= 0.35` |
| Growth.GrowthUnit.VoiceTick | src/voice.js:168-206 | the fields move as `Tick` with the noise gate says; an armed VoiceTree fires if and only if `mid >= 0.35`, which is exactly `VoiceFires` |
| Growth.GrowthUnit.VoiceStrike | src/voice.js:168-206 | `VoiceTicked`: the gated `Tick`, regrowth by `Struck` exactly when an armed unit hears `mid >= 0.35`, colours kept otherwise and matching |
| Lifecycle.Fade | src/voice.js:152-153 | masterAlpha closes 5% of its distance to 1 (active) or 0 (inactive), stays in [0,1] and never passes its target |
| Lifecycle.FadeRun | src/voice.js:152-153 | any number of fading frames keeps masterAlpha in [0,1] |
| Lifecycle.FadeNeverOvershoots | src/voice.js:152-158 | repeated fading moves monotonically towards the target and never reaches 0 exactly from above |
| Projection.Step | src/tree.js:222-267 | one loop iteration appends exactly one slot |
| Projection.FullEndNearTip | src/tree.js:237-243 | the end is the stretched tip moved by at most half the jitter on each axis, and the tip itself when jitter is off (src/voice.js:240) |
| Projection.StubEndLength | src/tree.js:246-247 | the clipped end lies a tenth of the stretched length from the start when `normalize` gives a unit vector; it normalises the direction that `multiplyScalar` already stretched in place |
| Projection.ProjectUpTo | src/tree.js:222-268 | after n segments there are n slots |
| Projection.CollapseSound | src/tree.js:264-267 | a collapsed segment keeps the projection sound |
| Projection.DrawSound | src/tree.js:254-263 | a drawn segment that starts at the anchor or at its parent's recorded end, and ends in the territory, keeps the projection sound |
| Projection.StepSound | src/tree.js:224-267 | every loop iteration keeps the projection sound |
| Projection.ProjectSound | src/tree.js:222-268 | for a forest: the recorded tips are exactly the drawn segments; drawn ends are owned by the unit's seed; roots start at the anchor; every other drawn segment starts at its drawn parent's end; a child of a collapsed segment is collapsed |
| Projection.NoJitterReadsNoDraws | src/voice.js:240-243 | without jitter the projection reads no draws and does not depend on them |
| Projection.StepIgnoresDraws | src/voice.js:240-243 | one loop iteration without jitter reads no draw, and its slot and tip do not depend on the draws |
| Projection.SlotValue | src/tree.js:257-266 | a drawn slot writes start x, y, 0, end x, y, 0; a collapsed one writes six zeros |
| Projection.PositionAtPrefix | src/tree.js:257-266 | writing a slot leaves the earlier slots' floats in place |
| Projection.PositionAtLast | src/tree.js:257-266 | the new slot's six floats follow at index 6i |
| Growth.GrowthUnit.WriteSlot | src/tree.js:257-266 | writes the six floats of one slot at posIndex and nothing else |
| Growth.GrowthUnit.Resolve | src/tree.js:224-251 | start, stretch, jitter, clip and stub of one segment, exactly as `Step` specifies, with the draws its jitter reads |
| Growth.GrowthUnit.ProjectSegment | src/tree.js:222-267 | one iteration of the projection loop, matching `Step`, writes slot i |
| Growth.GrowthUnit.ZeroTail | src/tree.js:270-274 | zeros from the last slot to the end of the buffer |
| Growth.GrowthUnit.Project | src/tree.js:217-274 | the buffer afterwards is `Rendered` from `ProjectUpTo`: the slots' floats, then zeros to the end; nothing stale remains |
| Growth.TreeEnv | src/tree.js:220-243 | Tree stretches by `1 + bass*0.15` and always jitters, by at least 0.1 |
| Growth.VoiceEnv | src/voice.js:215-243 | the bass stretches only above 0.2; the jitter is 0 and off for `mid <= 0.3`, and `mid * 2` and on above |
| Growth.QuietVoiceFrameIsSteady | src/voice.js:220-243 | with `mid <= 0.3` a VoiceTree frame reads no draws, so the geometry is the same whatever the random stream |
| Growth.GrowthUnit.UpdateTree | src/tree.js:165-277 | out of territory: opacity 0, not flashing, hidden, with skeleton, colours, material opacity, positions and the draw cursor `rng.pos` untouched; inside it: `TreeTicked` and then `TreeShown`: visible exactly at opacity >= 0.01 with the material opacity equal to it and the positions `Rendered` from `ProjectUpTo` with `TreeEnv` at the jitter draw after the tick; a hidden frame keeps the positions and the material opacity and reads no draw |
| Growth.GrowthUnit.TreeLit | src/tree.js:177-277 | an in-territory Tree frame: `TreeTicked`, then `TreeShown`, with every draw's position pinned; a frame hidden below opacity 0.01 keeps the positions and the material opacity |
| Growth.GrowthUnit.TreeDraw | src/tree.js:214-274 | with opacity at least 0.01: visible, the material opacity equal to it, one jitter draw at the cursor, then the positions `Rendered` from `ProjectUpTo` with `TreeEnv` from the next draw |
| Growth.GrowthUnit.UpdateVoice | src/voice.js:148-271 | masterAlpha becomes `Fade` of the old one; inactive below 0.01: hidden, with the state, skeleton, colours, material opacity, positions and cursor untouched; otherwise visible, and the frame is VoiceLit's at `currPos` |
| Growth.GrowthUnit.VoiceLit | src/voice.js:162-271 | out of territory: `Evicted`, skeleton, colours and cursor kept, material opacity 0; inside it: `VoiceTicked`; then `VoiceShown`: material opacity `opacity * masterAlpha`, below 0.01 no geometry and no draw, otherwise the positions `Rendered` with `VoiceEnv` from the cursor the tick left |
| Growth.GrowthUnit.Toggle | src/voice.js:40-51 | a VoiceTree method only; `toggle(true)`: active, visible, flashing at opacity 1, the skeleton and cursor `Regrown`, a matching colour buffer and exactly `TrunkCount` roots when uncapped; `toggle(false)`: only the flag changes, with visibility, state, skeleton, colours and cursor untouched |

## Left out

- `noise3D` and its permutation table (`src/border.js:10-51`) are not modelled. Noise is an opaque parameter of `Update`.
- Float32 storage, floating-point rounding, `Infinity` and `sqrt` are not modelled. Buffers hold reals, and the squared score replaces the quotient of distances.
- THREE.js numerics (`rotateAround`, `normalize`, `cos`/`sin`, `offsetHSL`) are opaque functions. The colour and direction values they return are not constrained.
- Meshes, materials, `BufferGeometry`, `needsUpdate` flags, the scene, `initMesh` and the `if (!this.mesh) return` guard are not modelled, because they are rendering plumbing. `mesh.visible` and `material.opacity` are kept as the fields `visible` and `materialOpacity`.
- `console.log` calls and the unused `time` argument of the two `update` methods are not modelled.
- `Math.random` is not modelled as a distribution. It is an injected stream of draws in [0,1).
- Border.BorderSystem.Update: requires non-negative bands. The analyser delivers an average of bytes divided by 255, and negative bands could make a weight non-positive.
- Border.BorderSystem.InitSeeds: proves the system valid only when called on an empty list, as the constructor does. A second call would restart ids at 0, and they would no longer equal indices.
- A growth unit finds its seed by index in `border.seeds` rather than through a shared object reference. Aliasing between the seed record and the partition is therefore not modelled.
- Growth.GrowthUnit.UpdateTree: takes `Bands`, so it cannot express that `Tree.update` reads `audio.bass`, `audio.mid` and `audio.treble` without `BorderSystem`'s `safeAudio` default (`src/tree.js:194`, `src/tree.js:237`), which would throw on a missing frame.
- Growth.GrowthUnit.UpdateVoice: takes `Bands` for the same reason (`src/voice.js:183`, `src/voice.js:215`).
