/**
 * World assembly. For an authored world: index the clusters, tally the chunks per cluster, build
 * a selection pool per cluster, then walk the chunks in order, placing one scene per chunk and
 * attaching a subscene drawn from the chunk's cluster pool at the scene's anchor. For a world
 * without authored chunks: a single scene from an entrance tile of the dungeon-tile catalog.
 */
module WorldGenerator {
  import opened Wrappers
  import opened Vectors
  import opened FileFormats
  import opened Faults
  import opened RandomHelper
  import opened GameMap
  import opened SubScenePosition
  import opened ClusterPools

  /** The outcome of a generation run: no world definition, a world, or an aborted run. */
  datatype Generated = NotFound | Built(world: World) | Aborted(fault: Fault)

  // ---------------------------------------------------------------- normalization offset

  datatype Axis = X | Y

  function Component(v: Vector3, axis: Axis): real
  {
    match axis
    case X => v.x
    case Y => v.y
  }

  /** The least coordinate on `axis` over all chunk positions. */
  function MinCoordinate(chunks: seq<SceneChunk>, axis: Axis): (m: real)
    requires chunks != []
    ensures forall i :: 0 <= i < |chunks| ==> m <= Component(chunks[i].transform.vector, axis)
    ensures exists i :: 0 <= i < |chunks| && Component(chunks[i].transform.vector, axis) == m
  {
    var first := Component(chunks[0].transform.vector, axis);
    if |chunks| == 1 then
      first
    else
      var rest := MinCoordinate(chunks[1..], axis);
      assert forall i :: 1 <= i < |chunks| ==> chunks[i] == chunks[1..][i - 1];
      assert exists i :: 0 <= i < |chunks| && Component(chunks[i].transform.vector, axis) == rest by {
        var i :| 0 <= i < |chunks[1..]| && Component(chunks[1..][i].transform.vector, axis) == rest;
        assert chunks[i + 1] == chunks[1..][i];
      }
      if first <= rest then first else rest
  }

  /** What every authored position is shifted by: the least X, the least Y, and no Z shift. */
  function Offset(chunks: seq<SceneChunk>): Vector3
    requires chunks != []
  {
    Vector3(MinCoordinate(chunks, X), MinCoordinate(chunks, Y), 0.0)
  }

  // ---------------------------------------------------------------- one chunk

  /** A top-level scene placed for `chunk`: the chunk's scene, shifted position, orientation and specification. */
  ghost predicate RootPlaced(scene: Scene, chunk: SceneChunk, offset: Vector3)
  {
    && scene.snoScene == chunk.snoName
    && scene.position == Sub(chunk.transform.vector, offset)
    && scene.rotationAxis == chunk.transform.quaternion.vector
    && scene.rotationAmount == chunk.transform.quaternion.w
    && scene.miniMapVisibility == Visited
    && scene.sceneGroupSno == Some(-1)
    && scene.specification == chunk.specification
  }

  /** A subscene for `chunk` built from pool entry `entry` at `position`, inheriting the chunk's orientation and specification. */
  ghost predicate SubscenePlaced(sub: Scene, chunk: SceneChunk, entry: SubSceneEntry, position: Vector3)
  {
    && sub.snoScene == entry.snoScene
    && sub.position == position
    && sub.rotationAxis == chunk.transform.quaternion.vector
    && sub.rotationAmount == chunk.transform.quaternion.w
    && sub.miniMapVisibility == Visited
    && sub.sceneGroupSno == None
    && sub.specification == chunk.specification
    && sub.subscenes == []
  }

  /** The anchor search for the chunk's scene succeeds and finds an anchor. */
  ghost predicate AnchorFound(store: Store, chunk: SceneChunk)
  {
    var found := FindSubScenePosition(store, chunk.snoName);
    found.Success? && found.value.Some?
  }

  ghost function Anchor(store: Store, chunk: SceneChunk): Vector3
    requires AnchorFound(store, chunk)
  {
    FindSubScenePosition(store, chunk.snoName).value.value
  }

  /**
   * What the walk leaves for one chunk whose known cluster (if any) still had pool entries:
   * the top-level scene; an entry drawn exactly when the cluster is known; a subscene exactly
   * when, in addition, the anchor is found, placed at the scene's position plus the anchor.
   */
  ghost predicate ChunkPlaced(store: Store, index: map<int, SceneCluster>, offset: Vector3,
                              chunk: SceneChunk, draw: Option<SubSceneEntry>, scene: Scene)
  {
    && RootPlaced(scene, chunk, offset)
    && (draw.Some? <==> Known(chunk, index))
    && (scene.subscenes != [] <==> Known(chunk, index) && AnchorFound(store, chunk))
    && (scene.subscenes != [] ==>
          && draw.Some? && AnchorFound(store, chunk) && |scene.subscenes| == 1
          && SubscenePlaced(scene.subscenes[0], chunk, draw.value, Add(scene.position, Anchor(store, chunk))))
  }

  /** The result of placing one chunk: its scene, the entry drawn for it, and the updated pools and random source. */
  datatype Placement = Placement(
    scene: Scene,
    draw: Option<SubSceneEntry>,
    pools: map<int, seq<SubSceneEntry>>,
    rng: RandomSource)

  /**
   * Places one chunk. When the chunk names a known cluster, one entry is drawn from that
   * cluster's pool and removed from it (if the pool has one) BEFORE the anchor is searched, so
   * a missing anchor still spends the entry. A subscene is attached only when an anchor is
   * found; with an anchor but no drawn entry the source dereferences null, which is the
   * NullSubSceneEntry fault here.
   */
  method PlaceChunk(store: Store, index: map<int, SceneCluster>, offset: Vector3, chunk: SceneChunk,
                    pools: map<int, seq<SubSceneEntry>>, rng0: RandomSource)
    returns (r: Result<Placement, Fault>)
    requires Known(chunk, index) ==> chunk.specification.clusterId in pools
    ensures r.Failure? <==>
      Known(chunk, index) &&
      (FindSubScenePosition(store, chunk.snoName).Failure? ||
       (AnchorFound(store, chunk) && pools[chunk.specification.clusterId] == []))
    ensures r.Failure? ==>
      r.error == (if FindSubScenePosition(store, chunk.snoName).Failure?
                  then FindSubScenePosition(store, chunk.snoName).error else NullSubSceneEntry)
    ensures r.Success? ==> RootPlaced(r.value.scene, chunk, offset)
    ensures r.Success? ==>
      (r.value.draw.Some? <==> Known(chunk, index) && pools[chunk.specification.clusterId] != [])
    ensures r.Success? && r.value.draw.Some? ==>
      var cid := chunk.specification.clusterId;
      && r.value.draw.value in pools[cid]
      && r.value.pools == pools[cid := RemoveFirst(pools[cid], r.value.draw.value)]
    ensures r.Success? && r.value.draw.None? ==> r.value.pools == pools
    ensures r.Success? ==>
      (r.value.scene.subscenes != [] <==> Known(chunk, index) && AnchorFound(store, chunk))
    ensures r.Success? && r.value.scene.subscenes != [] ==>
      && r.value.draw.Some? && AnchorFound(store, chunk) && |r.value.scene.subscenes| == 1
      && SubscenePlaced(r.value.scene.subscenes[0], chunk, r.value.draw.value,
                        Add(r.value.scene.position, Anchor(store, chunk)))
  {
    var cid := chunk.specification.clusterId;
    var position := Sub(chunk.transform.vector, offset);
    var subscenes: seq<Scene> := [];
    var draw: Option<SubSceneEntry> := None;
    var pools' := pools;
    var rng := rng0;
    if cid != NoCluster {
      if cid !in index {
        // The source logs a warning and attaches nothing.
      } else {
        var entries := pools[cid];
        if |entries| > 0 {
          var pick := RandomIndex(rng, |entries|);
          draw := Some(entries[pick.0]);
          rng := pick.1;
          pools' := pools[cid := RemoveFirst(entries, entries[pick.0])];
        } else {
          // The source logs an error and leaves the entry null.
        }
        var found := FindSubScenePosition(store, chunk.snoName);
        if found.Failure? {
          return Failure(found.error);
        }
        match found.value {
          case None =>
            // The source logs an error and attaches nothing.
          case Some(anchor) =>
            if draw.None? {
              return Failure(NullSubSceneEntry);
            }
            subscenes := [Scene(draw.value.snoScene, Add(position, anchor),
                                chunk.transform.quaternion.vector, chunk.transform.quaternion.w,
                                Visited, None, chunk.specification, [])];
        }
      }
    }
    var scene := Scene(chunk.snoName, position,
                       chunk.transform.quaternion.vector, chunk.transform.quaternion.w,
                       Visited, Some(-1), chunk.specification, subscenes);
    r := Success(Placement(scene, draw, pools', rng));
  }

  // ---------------------------------------------------------------- the authored world

  /** The entries drawn for the chunks that name cluster `id`, in chunk order. */
  ghost function DrawnFor(chunks: seq<SceneChunk>, draws: seq<Option<SubSceneEntry>>, id: int): seq<SubSceneEntry>
    requires |draws| == |chunks|
  {
    if chunks == [] then []
    else
      var n := |chunks| - 1;
      DrawnFor(chunks[..n], draws[..n], id)
        + (if draws[n].Some? && chunks[n].specification.clusterId == id then [draws[n].value] else [])
  }

  /** One pool per counted cluster, each a selection pool sized to the cluster's chunk count. */
  ghost predicate PoolsBuilt(chunks: seq<SceneChunk>, index: map<int, SceneCluster>, pools: map<int, seq<SubSceneEntry>>)
  {
    && (forall id :: id in pools <==> Counted(chunks, index, id))
    && (forall id :: id in pools ==> IsPool(index[id], Occurrences(chunks, id), pools[id]))
  }

  /**
   * The outcome for a world with authored chunks. The run aborts exactly when some counted
   * cluster cannot fill its pool or the anchor search fails for some chunk with a known
   * cluster. A built world has one top-level scene per chunk, in chunk order; each pool was
   * built for its cluster's chunk count, and the entries drawn for a cluster's chunks are
   * exactly the entries of its pool, each used once.
   */
  ghost predicate AuthoredWorld(store: Store, data: WorldData, r: Generated, index: map<int, SceneCluster>,
                                pools: map<int, seq<SubSceneEntry>>, draws: seq<Option<SubSceneEntry>>)
    requires data.sceneChunks != []
    reads if r.Built? then {r.world} else {}
  {
    var chunks := data.sceneChunks;
    && !r.NotFound?
    && IndexesClusters(data.sceneClusters, index)
    && (r.Aborted? <==>
          || (exists id :: Counted(chunks, index, id) && PoolImpossible(index[id], Occurrences(chunks, id)))
          || (exists j :: 0 <= j < |chunks| && Known(chunks[j], index)
                          && FindSubScenePosition(store, chunks[j].snoName).Failure?))
    && (r.Built? ==>
          && PoolsBuilt(chunks, index, pools)
          && |draws| == |chunks| == |r.world.scenes|
          && (forall j :: 0 <= j < |chunks| ==>
                ChunkPlaced(store, index, Offset(chunks), chunks[j], draws[j], r.world.scenes[j]))
          && (forall id :: id in pools ==> multiset(DrawnFor(chunks, draws, id)) == multiset(pools[id])))
  }

  /**
   * After normalization the least X and the least Y over the top-level scenes are 0, and Z is
   * as authored.
   */
  lemma NormalizedOrigin(chunks: seq<SceneChunk>, scenes: seq<Scene>)
    requires chunks != [] && |scenes| == |chunks|
    requires forall j :: 0 <= j < |chunks| ==> RootPlaced(scenes[j], chunks[j], Offset(chunks))
    ensures forall j :: 0 <= j < |scenes| ==>
      && scenes[j].position.x >= 0.0 && scenes[j].position.y >= 0.0
      && scenes[j].position.z == chunks[j].transform.vector.z
    ensures exists j :: 0 <= j < |scenes| && scenes[j].position.x == 0.0
    ensures exists j :: 0 <= j < |scenes| && scenes[j].position.y == 0.0
  {
    var jx :| 0 <= jx < |chunks| && Component(chunks[jx].transform.vector, X) == MinCoordinate(chunks, X);
    var jy :| 0 <= jy < |chunks| && Component(chunks[jy].transform.vector, Y) == MinCoordinate(chunks, Y);
    assert scenes[jx].position.x == 0.0;
    assert scenes[jy].position.y == 0.0;
    forall j | 0 <= j < |scenes|
      ensures scenes[j].position.x >= 0.0 && scenes[j].position.y >= 0.0
    {
      assert MinCoordinate(chunks, X) <= Component(chunks[j].transform.vector, X);
      assert MinCoordinate(chunks, Y) <= Component(chunks[j].transform.vector, Y);
    }
  }

  // ---------------------------------------------------------------- the fallback world

  /** The specification the fallback gives its single scene: fixed placeholder values and the scene asset's bounds. */
  function FallbackSpecification(sceneData: SceneData): (spec: SceneSpecification)
    ensures spec.clusterId == NoCluster
    ensures spec.sceneCachedValues.aabb1 == sceneData.aabbBounds
    ensures spec.sceneCachedValues.aabb2 == sceneData.aabbMarkerSetBounds
  {
    SceneSpecification(
      cellX := 0, cellY := 0, cellZ := 0,
      snoLevelAreas := [154588, -1, -1, -1],
      snoPrevWorld := -1, snoPrevLevelArea := -1,
      snoNextWorld := -1, snoNextLevelArea := -1,
      snoMusic := -1, snoCombatMusic := -1, snoAmbient := -1, snoReverb := -1, snoWeather := 50542,
      snoPresetWorld := -1,
      unknown1 := 14, unknown3 := 5, unknown4 := -1, unknown5 := 0,
      clusterId := -1,
      sceneCachedValues := SceneCachedValues(
        unknown1 := 63, unknown2 := 96, unknown3 := 96,
        aabb1 := sceneData.aabbBounds, aabb2 := sceneData.aabbMarkerSetBounds,
        unknown4 := [0, 0, 0, 0]))
  }

  /** The tiles of type `t`, in catalog order. */
  function TilesOfType(tiles: seq<TileInfo>, t: TileType): (r: seq<TileInfo>)
    ensures forall x :: x in r <==> x in tiles && x.tileType == t
  {
    if tiles == [] then []
    else
      var n := |tiles| - 1;
      assert tiles == tiles[..n] + [tiles[n]];
      TilesOfType(tiles[..n], t) + (if tiles[n].tileType == t then [tiles[n]] else [])
  }

  /** Groups the tile catalog by tile type, keeping catalog order within each type. */
  method GroupTiles(tiles: seq<TileInfo>) returns (groups: map<TileType, seq<TileInfo>>)
    ensures forall t :: t in groups <==> TilesOfType(tiles, t) != []
    ensures forall t :: t in groups ==> groups[t] == TilesOfType(tiles, t)
  {
    groups := map[];
    var k := 0;
    while k < |tiles|
      invariant 0 <= k <= |tiles|
      invariant forall t :: t in groups <==> TilesOfType(tiles[..k], t) != []
      invariant forall t :: t in groups ==> groups[t] == TilesOfType(tiles[..k], t)
    {
      var tile := tiles[k];
      TilesOfTypeStep(tiles, k);
      if tile.tileType !in groups {
        groups := groups[tile.tileType := []];
      }
      groups := groups[tile.tileType := groups[tile.tileType] + [tile]];
      k := k + 1;
    }
    assert tiles[..k] == tiles;
  }

  lemma TilesOfTypeStep(tiles: seq<TileInfo>, k: nat)
    requires k < |tiles|
    ensures forall t ::
      TilesOfType(tiles[..k + 1], t)
        == TilesOfType(tiles[..k], t) + (if tiles[k].tileType == t then [tiles[k]] else [])
  {
    assert tiles[..k + 1][..k] == tiles[..k];
  }

  ghost predicate IsEntrance(tiles: seq<TileInfo>, i: int)
  {
    0 <= i < |tiles| && tiles[i].tileType == Entrance
  }

  ghost predicate HasEntrance(tiles: seq<TileInfo>)
  {
    exists i :: IsEntrance(tiles, i)
  }

  /**
   * The fallback's single scene: an entrance tile's scene at the origin, with a zero rotation
   * axis, rotation amount 1, no cluster and no subscenes.
   */
  ghost predicate EntranceRoom(store: Store, tiles: seq<TileInfo>, scene: Scene)
  {
    && (exists i :: IsEntrance(tiles, i) && scene.snoScene == tiles[i].snoScene)
    && scene.snoScene in store.scenes
    && scene.position == Origin
    && scene.rotationAxis == Origin
    && scene.rotationAmount == 1.0
    && scene.miniMapVisibility == Visited
    && scene.sceneGroupSno == Some(-1)
    && scene.specification == FallbackSpecification(store.scenes[scene.snoScene])
    && scene.subscenes == []
  }

  /**
   * The outcome for a world without authored chunks: one entrance room; or an abort because the
   * catalog has no entrance tile or the chosen entrance's scene asset is missing.
   */
  ghost predicate FallbackWorld(store: Store, tiles: seq<TileInfo>, r: Generated)
    reads if r.Built? then {r.world} else {}
  {
    && !r.NotFound?
    && (r.Built? ==> |r.world.scenes| == 1 && EntranceRoom(store, tiles, r.world.scenes[0]))
    && (!HasEntrance(tiles) ==> r == Aborted(NoEntranceTile))
    && (r.Aborted? ==>
          || (r.fault == NoEntranceTile && !HasEntrance(tiles))
          || (exists i :: IsEntrance(tiles, i) && tiles[i].snoScene !in store.scenes
                          && r.fault == SceneAssetMissing(tiles[i].snoScene)))
    && (HasEntrance(tiles) && (forall i :: IsEntrance(tiles, i) ==> tiles[i].snoScene in store.scenes) ==> r.Built?)
  }

  /** Builds the single-scene stand-in world from an entrance tile chosen uniformly at random. */
  method GenerateRandomDungeon(store: Store, worldSno: int, data: WorldData, rng0: RandomSource)
    returns (r: Generated, rng: RandomSource)
    ensures FallbackWorld(store, data.drlgTiles, r)
    ensures r.Built? ==> fresh(r.world) && r.world.worldSno == worldSno
  {
    rng := rng0;
    var world := new World(worldSno);
    var tiles := data.drlgTiles;
    var tilesByType := GroupTiles(tiles);
    assert forall i :: IsEntrance(tiles, i) ==> tiles[i] in TilesOfType(tiles, Entrance);
    if Entrance !in tilesByType {
      return Aborted(NoEntranceTile), rng;
    }
    var candidates := tilesByType[Entrance];
    var pick := RandomIndex(rng, |candidates|);
    rng := pick.1;
    var entrance := candidates[pick.0];
    assert entrance in tiles && entrance.tileType == Entrance;
    ghost var e :| 0 <= e < |tiles| && tiles[e] == entrance;
    assert IsEntrance(tiles, e);
    if entrance.snoScene !in store.scenes {
      return Aborted(SceneAssetMissing(entrance.snoScene)), rng;
    }
    var scene := Scene(entrance.snoScene, Origin, Origin, 1.0, Visited, Some(-1),
                       FallbackSpecification(store.scenes[entrance.snoScene]), []);
    world.Enter(scene);
    r := Built(world);
  }

  // ---------------------------------------------------------------- the entry point

  /**
   * Generates the world `worldSno`. No world definition: NotFound and no world is built. No
   * authored chunks: the fallback world. Otherwise the authored world. The null pool entry is
   * never dereferenced.
   */
  method Generate(store: Store, worldSno: int, rng0: RandomSource)
    returns (r: Generated, rng: RandomSource, ghost index: map<int, SceneCluster>,
             ghost pools: map<int, seq<SubSceneEntry>>, ghost draws: seq<Option<SubSceneEntry>>)
    ensures r.NotFound? <==> worldSno !in store.worlds
    ensures r.Built? ==> fresh(r.world) && r.world.worldSno == worldSno
    ensures r.Aborted? ==> r.fault != NullSubSceneEntry
    ensures worldSno in store.worlds && store.worlds[worldSno].sceneChunks == [] ==>
      FallbackWorld(store, store.worlds[worldSno].drlgTiles, r)
    ensures worldSno in store.worlds && store.worlds[worldSno].sceneChunks != [] ==>
      AuthoredWorld(store, store.worlds[worldSno], r, index, pools, draws)
  {
    rng, index, pools, draws := rng0, map[], map[], [];
    if worldSno !in store.worlds {
      // The source logs an error and returns null.
      return NotFound, rng, index, pools, draws;
    }
    var data := store.worlds[worldSno];
    if data.sceneChunks == [] {
      r, rng := GenerateRandomDungeon(store, worldSno, data, rng0);
    } else {
      r, rng, index, pools, draws := GenerateAuthored(store, worldSno, data, rng0);
    }
  }

  /** Builds a world from its authored chunks: clusters indexed, pools built, chunks walked. */
  method GenerateAuthored(store: Store, worldSno: int, data: WorldData, rng0: RandomSource)
    returns (r: Generated, rng: RandomSource, ghost index: map<int, SceneCluster>,
             ghost pools: map<int, seq<SubSceneEntry>>, ghost draws: seq<Option<SubSceneEntry>>)
    requires data.sceneChunks != []
    ensures r.Built? ==> fresh(r.world) && r.world.worldSno == worldSno
    ensures r.Aborted? ==> r.fault != NullSubSceneEntry
    ensures AuthoredWorld(store, data, r, index, pools, draws)
  {
    rng, pools, draws := rng0, map[], [];
    var chunks := data.sceneChunks;
    var world := new World(worldSno);
    var clusters := IndexClusters(data.sceneClusters);
    index := clusters;
    var counts, keys := TallyClusters(chunks, clusters);
    var built := BuildPools(clusters, counts, keys, rng);
    if built.Failure? {
      ghost var id :| id in counts && PoolImpossible(index[id], counts[id]);
      assert Counted(chunks, index, id) && PoolImpossible(index[id], Occurrences(chunks, id));
      return Aborted(built.error), rng, index, pools, draws;
    }
    var selected := built.value.0;
    pools, rng := selected, built.value.1;
    assert PoolsBuilt(chunks, index, pools);
    assert forall id :: Counted(chunks, index, id) ==> !PoolImpossible(index[id], Occurrences(chunks, id));
    var walked := WalkChunks(store, clusters, chunks, selected, world, rng);
    if walked.Failure? {
      return Aborted(walked.error), rng, index, pools, draws;
    }
    draws, rng := walked.value.0, walked.value.1;
    r := Built(world);
  }

  /**
   * Walks the chunks in order, entering one top-level scene per chunk into `world`. Stops at
   * the first chunk whose anchor search fails; otherwise every pool is used up exactly.
   */
  method WalkChunks(store: Store, index: map<int, SceneCluster>, chunks: seq<SceneChunk>,
                    pools: map<int, seq<SubSceneEntry>>, world: World, rng0: RandomSource)
    returns (r: Result<(seq<Option<SubSceneEntry>>, RandomSource), Fault>)
    requires chunks != []
    requires PoolsBuilt(chunks, index, pools)
    requires world.scenes == []
    modifies world
    ensures r.Failure? <==>
      exists j :: 0 <= j < |chunks| && Known(chunks[j], index)
                  && FindSubScenePosition(store, chunks[j].snoName).Failure?
    ensures r.Failure? ==> r.error != NullSubSceneEntry
    ensures r.Success? ==>
      var draws := r.value.0;
      && |draws| == |chunks| == |world.scenes|
      && (forall j :: 0 <= j < |chunks| ==>
            ChunkPlaced(store, index, Offset(chunks), chunks[j], draws[j], world.scenes[j]))
      && (forall id :: id in pools ==> multiset(DrawnFor(chunks, draws, id)) == multiset(pools[id]))
  {
    var rng := rng0;
    var remaining := pools;
    var draws: seq<Option<SubSceneEntry>> := [];
    var i := 0;
    assert chunks[i..] == chunks && chunks[..i] == [];
    assert forall id :: id in pools ==> |pools[id]| == Occurrences(chunks, id);
    while i < |chunks|
      invariant 0 <= i <= |chunks| && |world.scenes| == i
      invariant Accounted(chunks, i, pools, remaining, draws)
      invariant PlacedSoFar(store, index, chunks, draws, world.scenes)
    {
      var step := WalkStep(store, index, chunks, pools, i, remaining, draws, world, rng);
      if step.Failure? {
        return Failure(step.error);
      }
      var draw;
      remaining, draw, rng := step.value.0, step.value.1, step.value.2;
      draws := draws + [draw];
      i := i + 1;
    }
    WalkComplete(chunks, pools, remaining, draws);
    r := Success((draws, rng));
  }

  /**
   * Places chunk `i` and enters its scene into `world`: fails only when the chunk's cluster is
   * known and its anchor search fails, with that search's fault.
   */
  method WalkStep(store: Store, index: map<int, SceneCluster>, chunks: seq<SceneChunk>,
                  pools: map<int, seq<SubSceneEntry>>, i: nat, remaining: map<int, seq<SubSceneEntry>>,
                  draws: seq<Option<SubSceneEntry>>, world: World, rng0: RandomSource)
    returns (r: Result<(map<int, seq<SubSceneEntry>>, Option<SubSceneEntry>, RandomSource), Fault>)
    requires i < |chunks| && |world.scenes| == i
    requires PoolsBuilt(chunks, index, pools)
    requires Accounted(chunks, i, pools, remaining, draws)
    requires PlacedSoFar(store, index, chunks, draws, world.scenes)
    modifies world
    ensures r.Failure? ==>
      && Known(chunks[i], index) && FindSubScenePosition(store, chunks[i].snoName).Failure?
      && r.error == FindSubScenePosition(store, chunks[i].snoName).error
    ensures r.Success? ==>
      && |world.scenes| == i + 1
      && Accounted(chunks, i + 1, pools, r.value.0, draws + [r.value.1])
      && PlacedSoFar(store, index, chunks, draws + [r.value.1], world.scenes)
  {
    var chunk := chunks[i];
    ghost var cid := chunk.specification.clusterId;
    if Known(chunk, index) {
      PoolLeftForNext(chunks, i, index, pools, remaining, draws);
    }
    var placed := PlaceChunk(store, index, Offset(chunks), chunk, remaining, rng0);
    if placed.Failure? {
      return Failure(placed.error);
    }
    var draw := placed.value.draw;
    assert ChunkPlaced(store, index, Offset(chunks), chunk, draw, placed.value.scene);
    assert draw.None? ==> cid !in remaining;
    PoolAccountingStep(chunks, i, pools, remaining, placed.value.pools, draws, draw);
    PlacedSoFarStep(store, index, chunks, draws, world.scenes, draw, placed.value.scene);
    world.Enter(placed.value.scene);
    r := Success((placed.value.pools, draw, placed.value.rng));
  }

  /** At the end of the walk every pool has been drawn exactly: the drawn entries are the pool. */
  lemma WalkComplete(chunks: seq<SceneChunk>, pools: map<int, seq<SubSceneEntry>>,
                     remaining: map<int, seq<SubSceneEntry>>, draws: seq<Option<SubSceneEntry>>)
    requires Accounted(chunks, |chunks|, pools, remaining, draws)
    ensures forall id :: id in remaining ==> remaining[id] == []
    ensures forall id :: id in pools ==> multiset(DrawnFor(chunks, draws, id)) == multiset(pools[id])
  {
    assert chunks[..|chunks|] == chunks;
    assert chunks[|chunks|..] == [];
    forall id | id in pools
      ensures remaining[id] == []
      ensures multiset(DrawnFor(chunks, draws, id)) == multiset(pools[id])
    {
      assert |remaining[id]| == 0;
    }
  }

  /**
   * The pool accounting after `i` chunks: each remaining pool holds as many entries as its
   * cluster has chunks still to walk, and its remaining plus its drawn entries are the pool.
   */
  ghost predicate Accounted(chunks: seq<SceneChunk>, i: nat, pools: map<int, seq<SubSceneEntry>>,
                            remaining: map<int, seq<SubSceneEntry>>, draws: seq<Option<SubSceneEntry>>)
  {
    && i <= |chunks| && |draws| == i
    && (forall id :: id in remaining <==> id in pools)
    && (forall id :: id in remaining ==> |remaining[id]| == Occurrences(chunks[i..], id))
    && (forall id :: id in remaining ==>
          multiset(remaining[id]) + multiset(DrawnFor(chunks[..i], draws, id)) == multiset(pools[id]))
  }

  /** The chunks walked so far each have their top-level scene, and their anchor searches succeeded. */
  ghost predicate PlacedSoFar(store: Store, index: map<int, SceneCluster>, chunks: seq<SceneChunk>,
                              draws: seq<Option<SubSceneEntry>>, scenes: seq<Scene>)
    requires chunks != []
  {
    && |draws| == |scenes| <= |chunks|
    && (forall j :: 0 <= j < |scenes| ==>
          ChunkPlaced(store, index, Offset(chunks), chunks[j], draws[j], scenes[j]))
    && (forall j :: 0 <= j < |scenes| && Known(chunks[j], index) ==>
          FindSubScenePosition(store, chunks[j].snoName).Success?)
  }

  lemma PlacedSoFarStep(store: Store, index: map<int, SceneCluster>, chunks: seq<SceneChunk>,
                        draws: seq<Option<SubSceneEntry>>, scenes: seq<Scene>, d: Option<SubSceneEntry>, scene: Scene)
    requires chunks != [] && PlacedSoFar(store, index, chunks, draws, scenes) && |scenes| < |chunks|
    requires ChunkPlaced(store, index, Offset(chunks), chunks[|scenes|], d, scene)
    requires Known(chunks[|scenes|], index) ==> FindSubScenePosition(store, chunks[|scenes|].snoName).Success?
    ensures PlacedSoFar(store, index, chunks, draws + [d], scenes + [scene])
  {
    var n := |scenes|;
    forall j | 0 <= j < n + 1
      ensures ChunkPlaced(store, index, Offset(chunks), chunks[j], (draws + [d])[j], (scenes + [scene])[j])
    {
      if j < n {
        assert (draws + [d])[j] == draws[j] && (scenes + [scene])[j] == scenes[j];
      }
    }
  }

  /** A chunk with a known cluster still finds at least one entry left in its cluster's pool. */
  lemma PoolLeftForNext(chunks: seq<SceneChunk>, i: nat, index: map<int, SceneCluster>,
                        pools: map<int, seq<SubSceneEntry>>, remaining: map<int, seq<SubSceneEntry>>,
                        draws: seq<Option<SubSceneEntry>>)
    requires i < |chunks| && PoolsBuilt(chunks, index, pools) && Accounted(chunks, i, pools, remaining, draws)
    requires Known(chunks[i], index)
    ensures chunks[i].specification.clusterId in remaining
    ensures remaining[chunks[i].specification.clusterId] != []
  {
    var cid := chunks[i].specification.clusterId;
    OccurrencesOfNamed(chunks, i);
    assert Counted(chunks, index, cid);
    assert chunks[i..][0] == chunks[i];
    OccurrencesOfNamed(chunks[i..], 0);
  }

  /** One step of the walk keeps the pool accounting. */
  lemma PoolAccountingStep(chunks: seq<SceneChunk>, i: nat, pools: map<int, seq<SubSceneEntry>>,
                           remaining: map<int, seq<SubSceneEntry>>, remaining': map<int, seq<SubSceneEntry>>,
                           draws: seq<Option<SubSceneEntry>>, d: Option<SubSceneEntry>)
    requires i < |chunks| && Accounted(chunks, i, pools, remaining, draws)
    requires d.Some? ==>
      var cid := chunks[i].specification.clusterId;
      && cid in remaining && d.value in remaining[cid]
      && remaining' == remaining[cid := RemoveFirst(remaining[cid], d.value)]
    requires d.None? ==> remaining' == remaining && chunks[i].specification.clusterId !in remaining
    ensures Accounted(chunks, i + 1, pools, remaining', draws + [d])
  {
    var cid := chunks[i].specification.clusterId;
    forall id | id in remaining'
      ensures |remaining'[id]| == Occurrences(chunks[i + 1..], id)
      ensures multiset(remaining'[id]) + multiset(DrawnFor(chunks[..i + 1], draws + [d], id)) == multiset(pools[id])
    {
      PoolAccountingStepFor(chunks, i, remaining[id], pools[id], draws, d, id);
      if d.Some? && id == cid {
        assert remaining'[id] == RemoveFirst(remaining[id], d.value);
      } else {
        assert remaining'[id] == remaining[id];
      }
    }
  }

  /** One step of the walk keeps the accounting of the pool of cluster `id`. */
  lemma PoolAccountingStepFor(chunks: seq<SceneChunk>, i: nat, left: seq<SubSceneEntry>, pool: seq<SubSceneEntry>,
                              draws: seq<Option<SubSceneEntry>>, d: Option<SubSceneEntry>, id: int)
    requires i < |chunks| && |draws| == i
    requires |left| == Occurrences(chunks[i..], id)
    requires multiset(left) + multiset(DrawnFor(chunks[..i], draws, id)) == multiset(pool)
    requires d.Some? && chunks[i].specification.clusterId == id ==> d.value in left
    requires d.None? ==> chunks[i].specification.clusterId != id
    ensures var left' := if d.Some? && chunks[i].specification.clusterId == id then RemoveFirst(left, d.value) else left;
      && |left'| == Occurrences(chunks[i + 1..], id)
      && multiset(left') + multiset(DrawnFor(chunks[..i + 1], draws + [d], id)) == multiset(pool)
  {
    WalkStepCounts(chunks, i, id);
    WalkStepDraws(chunks, draws, i, d, id);
  }

  /** Taking the next chunk off the walk lowers its cluster's remaining count by one and no other. */
  lemma WalkStepCounts(chunks: seq<SceneChunk>, i: nat, id: int)
    requires i < |chunks|
    ensures Occurrences(chunks[i..], id)
      == Occurrences(chunks[i + 1..], id) + (if chunks[i].specification.clusterId == id then 1 else 0)
  {
    assert chunks[i..][1..] == chunks[i + 1..];
  }

  /** The entries drawn so far grow by the new chunk's draw, under its cluster only. */
  lemma WalkStepDraws(chunks: seq<SceneChunk>, draws: seq<Option<SubSceneEntry>>, i: nat,
                      d: Option<SubSceneEntry>, id: int)
    requires i < |chunks| && |draws| == i
    ensures DrawnFor(chunks[..i + 1], draws + [d], id)
      == DrawnFor(chunks[..i], draws, id)
         + (if d.Some? && chunks[i].specification.clusterId == id then [d.value] else [])
  {
    assert chunks[..i + 1][..i] == chunks[..i];
    assert (draws + [d])[..i] == draws;
  }
}
