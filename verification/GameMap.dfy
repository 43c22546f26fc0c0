/** The generation product: placed scenes and the world that owns them. */
module GameMap {
  import opened Wrappers
  import opened Vectors
  import opened FileFormats

  datatype MiniMapVisibility = Hidden | Revealed | Visited

  /**
   * A placed scene. A subscene is nested in its parent's `subscenes`; that nesting is the
   * parent link. `sceneGroupSno` is None where the generator leaves it unset.
   */
  datatype Scene = Scene(
    snoScene: int,
    position: Vector3,
    rotationAxis: Vector3,
    rotationAmount: real,
    miniMapVisibility: MiniMapVisibility,
    sceneGroupSno: Option<int>,
    specification: SceneSpecification,
    subscenes: seq<Scene>)

  /** A world under construction: it records each top-level scene as the scene is populated. */
  class World {
    const worldSno: int
    var scenes: seq<Scene>

    constructor (worldSno: int)
      ensures this.worldSno == worldSno && scenes == []
    {
      this.worldSno := worldSno;
      scenes := [];
    }

    /** Records a populated top-level scene (the scene's actor-loading hook). */
    method Enter(scene: Scene)
      modifies this
      ensures scenes == old(scenes) + [scene]
    {
      scenes := scenes + [scene];
    }
  }
}
