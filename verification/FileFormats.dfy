/**
 * The authored, read-only asset records the generator consumes, and the asset store that
 * resolves them by id. Loading and decoding of the archive files is not modelled: the store
 * is given as maps from id to record.
 */
module FileFormats {
  import opened Vectors

  /** An orientation as stored: a scalar part `w` and a vector part. */
  datatype Quaternion = Quaternion(w: real, vector: Vector3)

  /** A placement: orientation plus position. */
  datatype PRTransform = PRTransform(quaternion: Quaternion, vector: Vector3)

  datatype AABB = AABB(min: Vector3, max: Vector3)

  datatype SceneCachedValues = SceneCachedValues(
    unknown1: int, unknown2: int, unknown3: int,
    aabb1: AABB, aabb2: AABB,
    unknown4: seq<int>)

  /** Per-scene specification: level areas, music, weather, cluster reference and cached bounds. */
  datatype SceneSpecification = SceneSpecification(
    cellX: int, cellY: int, cellZ: int,
    snoLevelAreas: seq<int>,
    snoPrevWorld: int, snoPrevLevelArea: int,
    snoNextWorld: int, snoNextLevelArea: int,
    snoMusic: int, snoCombatMusic: int, snoAmbient: int, snoReverb: int, snoWeather: int,
    snoPresetWorld: int,
    unknown1: int, unknown3: int, unknown4: int, unknown5: int,
    clusterId: int,
    sceneCachedValues: SceneCachedValues)

  /** One candidate subscene of a cluster and its selection weight. */
  datatype SubSceneEntry = SubSceneEntry(snoScene: int, probability: real)

  /** A group of candidates and `i0`, the number of picks the group must supply. */
  datatype SubSceneGroup = SubSceneGroup(i0: int, entries: seq<SubSceneEntry>)

  datatype SceneCluster = SceneCluster(
    clusterId: int,
    subSceneGroups: seq<SubSceneGroup>,
    defaultGroup: SubSceneGroup)

  /** An authored placement of a scene in a world. */
  datatype SceneChunk = SceneChunk(snoName: int, transform: PRTransform, specification: SceneSpecification)

  /** Tile kinds of the dungeon-tile catalog; only the entrance kind matters to the generator. */
  datatype TileType = Entrance | OtherTile(code: int)

  datatype TileInfo = TileInfo(tileType: TileType, snoScene: int)

  datatype WorldData = WorldData(
    sceneChunks: seq<SceneChunk>,
    sceneClusters: seq<SceneCluster>,
    drlgTiles: seq<TileInfo>)

  datatype Marker = Marker(int0: int, transform: PRTransform)

  datatype MarkerSet = MarkerSet(markers: seq<Marker>)

  /** A scene asset: the ids of its marker sets and its bounding boxes. */
  datatype SceneData = SceneData(markerSets: seq<int>, aabbBounds: AABB, aabbMarkerSetBounds: AABB)

  /** The asset store: world, scene and marker-set records by id. */
  datatype Store = Store(
    worlds: map<int, WorldData>,
    scenes: map<int, SceneData>,
    markerSets: map<int, MarkerSet>)
}
