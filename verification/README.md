# World assembly of the Mooege game server, in Dafny

This project models how the game server assembles a world from its authored template
(`WorldGenerator.Generate`), and proves properties of that model.

A world template either lists authored scene chunks or it does not.

- **Authored world.** The generator indexes the template's scene clusters by id. It counts
  how many chunks name each known cluster. For every counted cluster it builds a selection
  pool of exactly that many subscene entries: each subscene group supplies up to its `I0`
  quota in authored order, and the cluster's default group fills any shortfall. It then walks
  the chunks in order. Every chunk gives one top-level scene, placed at the chunk's position
  minus `(minX, minY, 0)`. A chunk that names a known cluster draws one entry from that
  cluster's pool and removes it. If the chunk's scene has an anchor marker (the first marker
  of kind 16), a subscene for the drawn entry is attached at the parent position plus the
  anchor.
- **Template without chunks.** The generator builds a stand-in world: one scene from an
  Entrance tile of the template's tile catalog, at the origin, with a fixed placeholder
  specification.

Modules, one file each:

- `Wrappers`: Option and Result.
- `Vectors`: real-valued 3-vectors.
- `FileFormats`: the asset records and the asset store.
- `Faults`: the ways a run can abort.
- `RandomHelper`: the random source.
- `GameMap`: scenes and the `World` class that records them.
- `SubScenePosition`: the anchor search.
- `ClusterPools`: the cluster index, the tally and pool building.
- `WorldGenerator`: the chunk walk, the fallback and the entry point.

The asset store is a value of maps from id to record: worlds, scenes and marker sets. A
lookup of a missing id aborts the run with a `Fault` naming the id; the server throws there.
The random helper is a value threaded through the methods (`RandomSource`). It can return
any valid index into a non-empty list, so every statement here holds for every sequence of
random choices.

The central result: at every draw, the pool of the chunk's cluster still has an entry. So
the null-entry dereference at `WorldGenerator.cs:142` can never be reached. The chunk step
`PlaceChunk` models that dereference as written, as the `NullSubSceneEntry` fault.
`Generate` proves the fault is never returned. After the walk, every pool is empty, and the
entries drawn for a cluster's chunks are exactly the entries of its pool.

The fallback picks an entrance tile uniformly at random (`WorldGenerator.cs:177`), and so
does the model.

## Model

| member | source | states |
|---|---|---|
| `SubScenePosition.FirstAnchor` | src/Mooege/Core/GS/Generators/WorldGenerator.cs:232-234 | The result is None exactly when no marker has kind 16. Otherwise it is the position of a marker of kind 16 with no marker of that kind before it. |
| `SubScenePosition.SearchMarkerSets` | src/Mooege/Core/GS/Generators/WorldGenerator.cs:229-237 | The search fails exactly when it reaches a missing marker set, that is, when every set before it resolves and has no anchor. A missing set after an anchor is never looked up. A failure names the missing set it reached. |
| `SubScenePosition.FindSubScenePosition` | src/Mooege/Core/GS/Generators/WorldGenerator.cs:225-238 | A scene without an asset fails with `SceneAssetMissing` for that scene. Any failure is a missing scene asset or a missing marker-set asset. |
| `SubScenePosition.SearchFindsFirstOfAll` | src/Mooege/Core/GS/Generators/WorldGenerator.cs:225-238 | When every marker set resolves, the set-by-set search with early return equals the first anchor over all markers of all sets in order. It finds nothing exactly when no marker of any set has kind 16. |
| `SubScenePosition.FirstAnchorAppend` | src/Mooege/Core/GS/Generators/WorldGenerator.cs:229-235 | Searching two marker lists one after the other finds the first list's anchor if it has one, else the second's. |
| `ClusterPools.IndexClusters` | src/Mooege/Core/GS/Generators/WorldGenerator.cs:55-58 | The index has a key exactly for each cluster id that occurs. Each key maps to the last cluster with that id, so later clusters overwrite earlier ones. |
| `ClusterPools.IndexStep` | src/Mooege/Core/GS/Generators/WorldGenerator.cs:57-58 | Assigning cluster `k` to its id turns an index of the first `k` clusters into an index of the first `k+1`. |
| `ClusterPools.OccurrencesOfNamed` | src/Mooege/Core/GS/Generators/WorldGenerator.cs:66-75 | A cluster id named by some chunk is counted at least once. |
| `ClusterPools.TallyClusters` | src/Mooege/Core/GS/Generators/WorldGenerator.cs:64-76 | The tally has a key exactly for each id that is not -1, is in the index and is named by some chunk. Its value is the number of chunks naming it, so every value is at least 1. The returned key list holds the keys once each, ordered by the position of each id's first naming chunk (the order they were first counted). |
| `ClusterPools.FirstNaming` | src/Mooege/Core/GS/Generators/WorldGenerator.cs:66-75 | The position of the first chunk naming the id: no earlier chunk names it, and the chunk there does (the chunk count when none does). |
| `ClusterPools.SlotOwner` | src/Mooege/Core/GS/Generators/WorldGenerator.cs:85-95 | In the group phase, pool slot `j` belongs to the one group `g` with quota-prefix(g) <= j < quota-prefix(g) + quota(g). So the groups fill consecutive slots in authored order, each up to its `I0` quota. |
| `ClusterPools.SlotOwnerOf` | src/Mooege/Core/GS/Generators/WorldGenerator.cs:87-91 | The `i`-th pick of group `g`, below its quota, lands in a slot inside the group phase, and `g` owns that slot. |
| `ClusterPools.PoolRulesOutImpossible` | src/Mooege/Core/GS/Generators/WorldGenerator.cs:85-102 | If a complete pool exists, no slot among the first `n` lacks candidates. |
| `ClusterPools.BuildPool` | src/Mooege/Core/GS/Generators/WorldGenerator.cs:82-102 | On success the pool has exactly `n` entries. Each entry in the group phase (the first min(n, sum of quotas) slots) comes from its owning group's entries; every later entry comes from the default group's entries. Building fails exactly when some slot below `n` has an empty candidate list, and then the fault names the cluster. |
| `ClusterPools.BuildPools` | src/Mooege/Core/GS/Generators/WorldGenerator.cs:79-103 | On success there is one pool per tallied cluster, each a pool of that cluster's count. Building fails exactly when some tallied cluster cannot fill its pool, and the fault is then `NoSubSceneCandidates`. |
| `ClusterPools.FirstIndex` | src/Mooege/Core/GS/Generators/WorldGenerator.cs:129 | The position of the first element equal to `x`: it holds `x` and no earlier element does. |
| `ClusterPools.RemoveFirst` | src/Mooege/Core/GS/Generators/WorldGenerator.cs:129 | Removing a present entry shortens the list by one and takes exactly one copy of that entry out of its multiset. Removing an absent entry changes nothing. |
| `RandomHelper.RandomIndex` | src/Mooege/Core/GS/Generators/WorldGenerator.cs:128 | The pick is a valid index into the non-empty list, and exactly one draw is spent. |
| `RandomHelper.RandomIndexReachesEvery` | src/Mooege/Core/GS/Generators/WorldGenerator.cs:128 | Every valid index is the pick of some random source, so the model does not restrict the helper's choices. |
| `GameMap.World.constructor` | src/Mooege/Core/GS/Generators/WorldGenerator.cs:53 | A new world carries its world id and has no scenes. |
| `GameMap.World.Enter` | src/Mooege/Core/GS/Generators/WorldGenerator.cs:155 | Populating a top-level scene appends it to the world's scenes, in order. |
| `WorldGenerator.MinCoordinate` | src/Mooege/Core/GS/Generators/WorldGenerator.cs:61-62 | The result is at most every chunk's coordinate on that axis, and some chunk attains it. |
| `WorldGenerator.NormalizedOrigin` | src/Mooege/Core/GS/Generators/WorldGenerator.cs:109 | Once top-level scenes are placed at chunk position minus `(minX, minY, 0)`, every X and Y is at least 0, some scene has X = 0 and some has Y = 0, and Z is as authored. |
| `WorldGenerator.PlaceChunk` | src/Mooege/Core/GS/Generators/WorldGenerator.cs:107-155 | The top-level scene has the chunk's scene id, shifted position, orientation, visibility Visited, group -1 and the chunk's specification. An entry is drawn exactly when the cluster is known and its pool is non-empty, and the draw comes before the anchor search. A drawn entry comes from the pool and exactly one copy of it is removed; otherwise the pools are unchanged. A subscene is attached exactly when the cluster is known and an anchor is found: it is placed at parent position plus anchor, with the chunk's orientation and specification. The step fails exactly when the cluster is known and either the anchor search fails, with its fault, or an anchor is found with no drawn entry, which is the null dereference. |
| `WorldGenerator.WalkStep` | src/Mooege/Core/GS/Generators/WorldGenerator.cs:107-155 | Placing the next chunk keeps the walk invariant: pool accounting and the placed prefix. It fails only on a failed anchor search for a known cluster, with that search's fault. |
| `WorldGenerator.PoolLeftForNext` | src/Mooege/Core/GS/Generators/WorldGenerator.cs:123-130 | Under the pool accounting, a chunk with a known cluster always finds an entry left in its cluster's pool. So the empty-pool branch at lines 131-132 and the null use at line 142 are unreachable. |
| `WorldGenerator.PoolAccountingStep` | src/Mooege/Core/GS/Generators/WorldGenerator.cs:126-130 | After a draw, each pool still holds as many entries as its cluster has chunks left to walk. Each pool's remaining entries plus its drawn entries still make up the original pool. |
| `WorldGenerator.PoolAccountingStepFor` | src/Mooege/Core/GS/Generators/WorldGenerator.cs:126-130 | The same accounting step for the pool of a single cluster. |
| `WorldGenerator.PlacedSoFarStep` | src/Mooege/Core/GS/Generators/WorldGenerator.cs:105-156 | Appending the next chunk's placed scene keeps every earlier chunk's scene in place. |
| `WorldGenerator.WalkStepCounts` | src/Mooege/Core/GS/Generators/WorldGenerator.cs:105 | Passing a chunk lowers the count of chunks still to walk for that chunk's cluster by one, and for no other cluster. |
| `WorldGenerator.WalkStepDraws` | src/Mooege/Core/GS/Generators/WorldGenerator.cs:128 | The entries drawn so far grow by the new chunk's draw, and only under that chunk's cluster. |
| `WorldGenerator.WalkComplete` | src/Mooege/Core/GS/Generators/WorldGenerator.cs:105-156 | After the walk every pool is empty, and the entries drawn for a cluster's chunks are, as a multiset, exactly its pool. |
| `WorldGenerator.WalkChunks` | src/Mooege/Core/GS/Generators/WorldGenerator.cs:105-156 | The walk fails exactly when some chunk with a known cluster has a failing anchor search, and never with the null-entry fault. On success there is one top-level scene per chunk, in chunk order, each placed as `PlaceChunk` states with an entry drawn exactly for the chunks with a known cluster. Every pool is used up exactly. |
| `WorldGenerator.GenerateAuthored` | src/Mooege/Core/GS/Generators/WorldGenerator.cs:53-158 | The run aborts exactly when some tallied cluster cannot fill its pool, or some chunk with a known cluster has a failing anchor search. It never aborts with the null-entry fault. A built world is fresh, carries the world id, and satisfies everything `WalkChunks` states for pools built as `BuildPools` states. |
| `WorldGenerator.FallbackSpecification` | src/Mooege/Core/GS/Generators/WorldGenerator.cs:187-213 | The fallback specification has cluster id -1, and its two cached bounding boxes are the scene asset's bounds and marker-set bounds. |
| `WorldGenerator.TilesOfType` | src/Mooege/Core/GS/Generators/WorldGenerator.cs:169-174 | The result holds exactly the catalog's tiles of the given type. |
| `WorldGenerator.TilesOfTypeStep` | src/Mooege/Core/GS/Generators/WorldGenerator.cs:173 | Adding a tile to the catalog extends only its own type's list, by that tile. |
| `WorldGenerator.GroupTiles` | src/Mooege/Core/GS/Generators/WorldGenerator.cs:167-174 | There is a key exactly for each tile type that occurs, and it maps to that type's tiles in catalog order. |
| `WorldGenerator.GenerateRandomDungeon` | src/Mooege/Core/GS/Generators/WorldGenerator.cs:161-220 | A built world has exactly one scene. That scene comes from an Entrance tile of the catalog and sits at the origin, with rotation axis 0 and amount 1, visibility Visited, group -1, the fallback specification and no subscenes. Without an Entrance tile the run aborts with `NoEntranceTile`. The only other abort is a missing scene asset for the chosen entrance. When every Entrance tile's scene has an asset, a world is built. |
| `WorldGenerator.Generate` | src/Mooege/Core/GS/Generators/WorldGenerator.cs:36-159 | The result is NotFound exactly when the world id has no world asset. A template without chunks gives the fallback result; otherwise the result is as `GenerateAuthored` states. No run aborts with the null-entry fault. |

## Left out

- `RandomIndex`: the weighted distribution of the game's random helper (probability weights for pool building, weight 1 for the walk and the fallback) is not modelled. A pick is only some valid index. The random helper's source is not part of this model.
- `BuildPool`: the random helper's behaviour on an empty list is not visible, so a pick due from an empty group or default list is modelled as the `NoSubSceneCandidates` fault, which aborts the run.
- `RemoveFirst`: the server's `Remove` finds the entry by object identity, while the model compares entries by value. Value-equal entries that are distinct objects may leave the remaining pool in a different order. The multiset of remaining entries is the same either way.
- Missing assets (world data cast, scene asset, marker-set asset, the `Entrance` key of the tile groups) become faults that abort the run, where the server throws. A failed `as` cast that yields null is not modelled.
- Floating-point behaviour of vector subtraction, vector addition and `Min`: coordinates are reals.
- Scene actor loading, logging, the game reference and the side effects of the `World` and `Scene` constructors are left out. `World.Enter` records a top-level scene where it is populated. A subscene's own population hook (line 149) is not recorded separately; the subscene lives inside its parent scene.
- Scene fields the generator never sets keep no defaults in the model. `sceneGroupSno` is None for subscenes because the generator leaves it unset.
- The fixed fallback specification values are written out as literals in `FallbackSpecification`. Only the cluster id and the copied bounding boxes are stated in its contract.
- The enumeration order of the tally dictionary is taken to be first-counted order. Pools are built in that order, which fixes the order of random draws.
- The network message file for looping animation powers is not part of this model. It only forwards integer reads and writes to a bit buffer that is not shown.
