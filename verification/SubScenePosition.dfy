/**
 * The anchor search: where a cluster's subscene attaches inside a scene. The anchor is the
 * first marker of the subscene-anchor kind, taking the scene's marker sets in order and the
 * markers of each set in order.
 */
module SubScenePosition {
  import opened Wrappers
  import opened Vectors
  import opened FileFormats
  import opened Faults

  /** Marker kind that tags the attachment point of a subscene. */
  const SubSceneAnchorKind := 16

  ghost predicate IsFirstAnchor(markers: seq<Marker>, i: int)
  {
    && 0 <= i < |markers|
    && markers[i].int0 == SubSceneAnchorKind
    && forall j :: 0 <= j < i ==> markers[j].int0 != SubSceneAnchorKind
  }

  /** The position of the first anchor marker of one marker set, if it has one. */
  function FirstAnchor(markers: seq<Marker>): (r: Option<Vector3>)
    ensures r.None? <==> forall i :: 0 <= i < |markers| ==> markers[i].int0 != SubSceneAnchorKind
    ensures r.Some? ==> exists i :: IsFirstAnchor(markers, i) && r.value == markers[i].transform.vector
  {
    if markers == [] then None
    else if markers[0].int0 == SubSceneAnchorKind then
      assert IsFirstAnchor(markers, 0);
      Some(markers[0].transform.vector)
    else
      var rest := FirstAnchor(markers[1..]);
      assert rest.Some? ==> exists i :: IsFirstAnchor(markers, i) && rest.value == markers[i].transform.vector by {
        if rest.Some? {
          var i :| IsFirstAnchor(markers[1..], i) && rest.value == markers[1..][i].transform.vector;
          assert IsFirstAnchor(markers, i + 1);
        }
      }
      rest
  }

  /**
   * The search reaches set `ids[i]` and finds it missing: every set before it resolves and has
   * no anchor.
   */
  ghost predicate ReachesMissingSet(store: Store, ids: seq<int>, i: int)
  {
    && 0 <= i < |ids|
    && ids[i] !in store.markerSets
    && forall k :: 0 <= k < i ==> ids[k] in store.markerSets && FirstAnchor(store.markerSets[ids[k]].markers).None?
  }

  /**
   * The anchor search over a list of marker-set ids, stopping at the first set with an anchor.
   * It fails exactly when it reaches a missing set before any anchor; sets after an anchor are
   * never looked up.
   */
  function SearchMarkerSets(store: Store, ids: seq<int>): (r: Result<Option<Vector3>, Fault>)
    ensures r.Failure? <==> exists i :: ReachesMissingSet(store, ids, i)
    ensures r.Failure? ==> exists i :: ReachesMissingSet(store, ids, i) && r.error == MarkerSetAssetMissing(ids[i])
  {
    if ids == [] then Success(None)
    else if ids[0] !in store.markerSets then
      assert ReachesMissingSet(store, ids, 0);
      Failure(MarkerSetAssetMissing(ids[0]))
    else match FirstAnchor(store.markerSets[ids[0]].markers)
      case Some(p) =>
        assert forall i :: ReachesMissingSet(store, ids, i) ==> i == 0;
        Success(Some(p))
      case None =>
        var rest := SearchMarkerSets(store, ids[1..]);
        ReachesMissingSetShift(store, ids);
        assert (exists i :: ReachesMissingSet(store, ids, i)) ==> exists i :: ReachesMissingSet(store, ids[1..], i) by {
          if exists i :: ReachesMissingSet(store, ids, i) {
            var i :| ReachesMissingSet(store, ids, i);
            assert ReachesMissingSet(store, ids[1..], i - 1);
          }
        }
        assert rest.Failure? ==> exists i :: ReachesMissingSet(store, ids, i) && rest.error == MarkerSetAssetMissing(ids[i]) by {
          if rest.Failure? {
            var i :| ReachesMissingSet(store, ids[1..], i) && rest.error == MarkerSetAssetMissing(ids[1..][i]);
            assert ReachesMissingSet(store, ids, i + 1);
          }
        }
        rest
  }

  /** Past a first set that resolves without an anchor, the search of the rest reaches the same sets. */
  lemma ReachesMissingSetShift(store: Store, ids: seq<int>)
    requires ids != [] && ids[0] in store.markerSets && FirstAnchor(store.markerSets[ids[0]].markers).None?
    ensures forall i :: 0 <= i < |ids| - 1 ==>
      (ReachesMissingSet(store, ids[1..], i) <==> ReachesMissingSet(store, ids, i + 1))
    ensures !ReachesMissingSet(store, ids, 0)
  {
    forall i | 0 <= i < |ids| - 1
      ensures ReachesMissingSet(store, ids[1..], i) <==> ReachesMissingSet(store, ids, i + 1)
    {
      assert forall k :: 0 <= k < i ==> ids[1..][k] == ids[k + 1];
      assert ids[1..][i] == ids[i + 1];
    }
  }

  /** Finds the subscene anchor of the scene with id `snoScene`; None when it has no anchor marker. */
  function FindSubScenePosition(store: Store, snoScene: int): (r: Result<Option<Vector3>, Fault>)
    ensures snoScene !in store.scenes ==> r == Failure(SceneAssetMissing(snoScene))
    ensures r.Failure? ==> r.error.SceneAssetMissing? || r.error.MarkerSetAssetMissing?
  {
    if snoScene !in store.scenes then Failure(SceneAssetMissing(snoScene))
    else SearchMarkerSets(store, store.scenes[snoScene].markerSets)
  }

  /** Every id of `ids` names a marker-set asset. */
  ghost predicate Resolvable(store: Store, ids: seq<int>)
  {
    forall i :: 0 <= i < |ids| ==> ids[i] in store.markerSets
  }

  /** All markers of the listed marker sets, set after set: the reference order of the search. */
  ghost function AllMarkers(store: Store, ids: seq<int>): seq<Marker>
    requires Resolvable(store, ids)
  {
    if ids == [] then [] else store.markerSets[ids[0]].markers + AllMarkers(store, ids[1..])
  }

  /** Searching a concatenation finds the first part's anchor if it has one, else the second's. */
  lemma {:induction false} FirstAnchorAppend(a: seq<Marker>, b: seq<Marker>)
    ensures FirstAnchor(a + b) == if FirstAnchor(a).Some? then FirstAnchor(a) else FirstAnchor(b)
  {
    if a == [] {
      assert a + b == b;
    } else {
      assert (a + b)[0] == a[0];
      assert (a + b)[1..] == a[1..] + b;
      FirstAnchorAppend(a[1..], b);
    }
  }

  /**
   * When every marker set resolves, the set-by-set search with early return finds exactly the
   * first anchor of all markers in order; in particular it finds nothing exactly when no marker
   * of any set has the anchor kind.
   */
  lemma {:induction false} SearchFindsFirstOfAll(store: Store, ids: seq<int>)
    requires Resolvable(store, ids)
    ensures SearchMarkerSets(store, ids) == Success(FirstAnchor(AllMarkers(store, ids)))
    ensures SearchMarkerSets(store, ids) == Success(None) <==>
      forall m :: m in AllMarkers(store, ids) ==> m.int0 != SubSceneAnchorKind
  {
    if ids != [] {
      assert Resolvable(store, ids[1..]) by {
        forall i | 0 <= i < |ids[1..]| ensures ids[1..][i] in store.markerSets {
          assert ids[1..][i] == ids[i + 1];
        }
      }
      SearchFindsFirstOfAll(store, ids[1..]);
      FirstAnchorAppend(store.markerSets[ids[0]].markers, AllMarkers(store, ids[1..]));
    }
    var all := AllMarkers(store, ids);
    if FirstAnchor(all).None? {
      forall m | m in all ensures m.int0 != SubSceneAnchorKind {
        var i :| 0 <= i < |all| && all[i] == m;
      }
    } else {
      var i :| IsFirstAnchor(all, i) && FirstAnchor(all).value == all[i].transform.vector;
      assert all[i] in all;
    }
  }
}
