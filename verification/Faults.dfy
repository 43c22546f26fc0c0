/** The ways a generation run can end abnormally (the source throws in each case). */
module Faults {

  datatype Fault =
    /** A random pick was asked of an empty list of subscene entries. */
    | NoSubSceneCandidates(clusterId: int)
    /** A scene id has no scene asset. */
    | SceneAssetMissing(snoScene: int)
    /** A marker-set id has no marker-set asset. */
    | MarkerSetAssetMissing(snoMarkerSet: int)
    /** The dungeon-tile catalog holds no entrance tile. */
    | NoEntranceTile
    /** A subscene was to be built from a pool entry that was never drawn (null). */
    | NullSubSceneEntry
}
