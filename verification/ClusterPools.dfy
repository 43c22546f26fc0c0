/**
 * Cluster bookkeeping of the world generator: the index of clusters by id, the tally of chunks
 * per cluster, and the per-cluster selection pools that the chunk walk later draws from.
 */
module ClusterPools {
  import opened Wrappers
  import opened FileFormats
  import opened Faults
  import opened RandomHelper

  /** The cluster id that means "no cluster". */
  const NoCluster := -1

  // ---------------------------------------------------------------- cluster index

  /** `clusters[i]` is the last cluster carrying `id`. */
  ghost predicate IsLastWithId(clusters: seq<SceneCluster>, id: int, i: int)
  {
    && 0 <= i < |clusters|
    && clusters[i].clusterId == id
    && forall j :: i < j < |clusters| ==> clusters[j].clusterId != id
  }

  /** `index` maps every cluster id that occurs to the last cluster with that id. */
  ghost predicate IndexesClusters(clusters: seq<SceneCluster>, index: map<int, SceneCluster>)
  {
    && (forall id :: id in index <==> exists i :: 0 <= i < |clusters| && clusters[i].clusterId == id)
    && (forall id :: id in index ==> exists i :: IsLastWithId(clusters, id, i) && index[id] == clusters[i])
  }

  /** Builds the id-to-cluster dictionary; a later cluster with the same id overwrites an earlier one. */
  method IndexClusters(clusters: seq<SceneCluster>) returns (index: map<int, SceneCluster>)
    ensures IndexesClusters(clusters, index)
  {
    index := map[];
    var k := 0;
    while k < |clusters|
      invariant 0 <= k <= |clusters|
      invariant IndexesClusters(clusters[..k], index)
    {
      IndexStep(clusters, k, index);
      index := index[clusters[k].clusterId := clusters[k]];
      k := k + 1;
    }
    assert clusters[..k] == clusters;
  }

  /** Entering cluster `k` into the index of the clusters before it indexes the clusters up to `k`. */
  lemma IndexStep(clusters: seq<SceneCluster>, k: nat, index: map<int, SceneCluster>)
    requires k < |clusters| && IndexesClusters(clusters[..k], index)
    ensures IndexesClusters(clusters[..k + 1], index[clusters[k].clusterId := clusters[k]])
  {
    var before, c, after := clusters[..k], clusters[k], clusters[..k + 1];
    assert after == before + [c];
    var index' := index[c.clusterId := c];
    IndexStepKeys(before, c, after, index, index');
    forall id | id in index'
      ensures exists i :: IsLastWithId(after, id, i) && index'[id] == after[i]
    {
      if id == c.clusterId {
        assert IsLastWithId(after, id, k);
      } else {
        var i :| IsLastWithId(before, id, i) && index[id] == before[i];
        LastWithIdExtends(before, c, after, id, i);
      }
    }
  }

  /** The ids of the index grow by the id of the added cluster. */
  lemma IndexStepKeys(before: seq<SceneCluster>, c: SceneCluster, after: seq<SceneCluster>,
                      index: map<int, SceneCluster>, index': map<int, SceneCluster>)
    requires after == before + [c] && IndexesClusters(before, index) && index' == index[c.clusterId := c]
    ensures forall id :: id in index' <==> exists i :: 0 <= i < |after| && after[i].clusterId == id
  {
    assert after[|before|] == c;
    forall i | 0 <= i < |after|
      ensures after[i].clusterId in index'
    {
      if i < |before| { assert before[i] == after[i]; }
    }
    forall id | id in index
      ensures exists i :: 0 <= i < |after| && after[i].clusterId == id
    {
      var i :| 0 <= i < |before| && before[i].clusterId == id;
      assert after[i] == before[i];
    }
  }

  /** A last occurrence stays the last one once a cluster with another id is appended. */
  lemma LastWithIdExtends(before: seq<SceneCluster>, c: SceneCluster, after: seq<SceneCluster>, id: int, i: int)
    requires after == before + [c] && c.clusterId != id
    requires IsLastWithId(before, id, i)
    ensures IsLastWithId(after, id, i) && after[i] == before[i]
  {
    forall j | i < j < |after|
      ensures after[j].clusterId != id
    {
      if j < |before| {
        assert after[j] == before[j];
      }
    }
  }

  // ---------------------------------------------------------------- tally

  /** Number of chunks whose specification names cluster `id`. */
  function Occurrences(chunks: seq<SceneChunk>, id: int): nat
  {
    if chunks == [] then 0
    else (if chunks[0].specification.clusterId == id then 1 else 0) + Occurrences(chunks[1..], id)
  }

  lemma {:induction false} OccurrencesAppend(chunks: seq<SceneChunk>, chunk: SceneChunk, id: int)
    ensures Occurrences(chunks + [chunk], id)
         == Occurrences(chunks, id) + (if chunk.specification.clusterId == id then 1 else 0)
  {
    if chunks != [] {
      assert (chunks + [chunk])[1..] == chunks[1..] + [chunk];
      OccurrencesAppend(chunks[1..], chunk, id);
    }
  }

  /** A cluster named by some chunk is counted at least once. */
  lemma {:induction false} OccurrencesOfNamed(chunks: seq<SceneChunk>, j: nat)
    requires j < |chunks|
    ensures Occurrences(chunks, chunks[j].specification.clusterId) >= 1
  {
    if j > 0 {
      assert chunks[1..][j - 1] == chunks[j];
      OccurrencesOfNamed(chunks[1..], j - 1);
    }
  }

  /** The chunk names a cluster (not "no cluster") that the index knows. */
  predicate Known(chunk: SceneChunk, index: map<int, SceneCluster>)
  {
    chunk.specification.clusterId != NoCluster && chunk.specification.clusterId in index
  }

  /** Position of the first chunk naming cluster `id`; the chunk count when none does. */
  function FirstNaming(chunks: seq<SceneChunk>, id: int): (i: nat)
    ensures i <= |chunks|
    ensures forall j :: 0 <= j < i ==> chunks[j].specification.clusterId != id
    ensures i < |chunks| ==> chunks[i].specification.clusterId == id
  {
    if chunks == [] then 0
    else if chunks[0].specification.clusterId == id then 0
    else
      var i := FirstNaming(chunks[1..], id);
      assert forall j :: 1 <= j < i + 1 ==> chunks[j] == chunks[1..][j - 1];
      1 + i
  }

  /** A chunk whose cluster no earlier chunk names is that cluster's first naming chunk. */
  lemma FirstNamingAt(chunks: seq<SceneChunk>, k: nat)
    requires k < |chunks| && Occurrences(chunks[..k], chunks[k].specification.clusterId) == 0
    ensures FirstNaming(chunks, chunks[k].specification.clusterId) == k
  {
    var id := chunks[k].specification.clusterId;
    forall j | 0 <= j < k
      ensures chunks[j].specification.clusterId != id
    {
      OccurrencesOfNamed(chunks[..k], j);
      assert chunks[..k][j] == chunks[j];
    }
  }

  /** `keys` are ids first named before chunk `k`, in the order of their first naming chunks. */
  ghost predicate KeysInNamingOrder(chunks: seq<SceneChunk>, keys: seq<int>, k: nat)
  {
    && (forall a :: 0 <= a < |keys| ==> FirstNaming(chunks, keys[a]) < k)
    && (forall a, b :: 0 <= a < b < |keys| ==> FirstNaming(chunks, keys[a]) < FirstNaming(chunks, keys[b]))
  }

  /** Appending the cluster first named by chunk `k` keeps the naming order. */
  lemma KeysInNamingOrderAppend(chunks: seq<SceneChunk>, keys: seq<int>, k: nat)
    requires k < |chunks| && KeysInNamingOrder(chunks, keys, k)
    requires FirstNaming(chunks, chunks[k].specification.clusterId) == k
    ensures KeysInNamingOrder(chunks, keys + [chunks[k].specification.clusterId], k + 1)
  {
    var keys' := keys + [chunks[k].specification.clusterId];
    assert forall a :: 0 <= a < |keys| ==> keys'[a] == keys[a];
  }

  /** A cluster id that gets a pool: known to the index and named by at least one chunk. */
  ghost predicate Counted(chunks: seq<SceneChunk>, index: map<int, SceneCluster>, id: int)
  {
    id != NoCluster && id in index && Occurrences(chunks, id) > 0
  }

  /**
   * Counts, per known cluster id, the chunks that name it. Ids equal to "no cluster" and ids
   * the index does not know are skipped. `keys` lists the counted ids once each, in the order
   * they were first counted, which is the order the dictionary enumerates them in.
   */
  method TallyClusters(chunks: seq<SceneChunk>, index: map<int, SceneCluster>)
    returns (counts: map<int, nat>, keys: seq<int>)
    ensures forall id :: id in counts <==> Counted(chunks, index, id)
    ensures forall id :: id in counts ==> counts[id] == Occurrences(chunks, id) && counts[id] >= 1
    ensures forall id :: id in keys <==> id in counts
    ensures forall a, b :: 0 <= a < b < |keys| ==> keys[a] != keys[b]
    ensures forall a, b :: 0 <= a < b < |keys| ==> FirstNaming(chunks, keys[a]) < FirstNaming(chunks, keys[b])
  {
    counts, keys := map[], [];
    var k := 0;
    while k < |chunks|
      invariant 0 <= k <= |chunks|
      invariant forall id :: id in counts <==> Counted(chunks[..k], index, id)
      invariant forall id :: id in counts ==> counts[id] == Occurrences(chunks[..k], id)
      invariant forall id :: id in keys <==> id in counts
      invariant forall a, b :: 0 <= a < b < |keys| ==> keys[a] != keys[b]
      invariant KeysInNamingOrder(chunks, keys, k)
    {
      var cid := chunks[k].specification.clusterId;
      assert chunks[..k + 1] == chunks[..k] + [chunks[k]];
      forall id ensures Occurrences(chunks[..k + 1], id)
                     == Occurrences(chunks[..k], id) + (if cid == id then 1 else 0) {
        OccurrencesAppend(chunks[..k], chunks[k], id);
      }
      if cid != NoCluster && cid in index {
        if cid !in counts {
          FirstNamingAt(chunks, k);
          KeysInNamingOrderAppend(chunks, keys, k);
          counts, keys := counts[cid := 0], keys + [cid];
        }
        counts := counts[cid := counts[cid] + 1];
      }
      k := k + 1;
    }
    assert chunks[..k] == chunks;
  }

  // ---------------------------------------------------------------- pool layout

  /** The number of picks a group must supply (`i0`; a non-positive value supplies none). */
  function Quota(group: SubSceneGroup): nat
  {
    if group.i0 > 0 then group.i0 else 0
  }

  /** Total quota of the first `k` groups. */
  function QuotaPrefix(groups: seq<SubSceneGroup>, k: nat): nat
    requires k <= |groups|
  {
    if k == 0 then 0 else QuotaPrefix(groups, k - 1) + Quota(groups[k - 1])
  }

  function QuotaSum(groups: seq<SubSceneGroup>): nat
  {
    QuotaPrefix(groups, |groups|)
  }

  lemma {:induction false} QuotaPrefixMonotone(groups: seq<SubSceneGroup>, a: nat, b: nat)
    requires a <= b <= |groups|
    ensures QuotaPrefix(groups, a) <= QuotaPrefix(groups, b)
  {
    if a < b {
      QuotaPrefixMonotone(groups, a, b - 1);
    }
  }

  function SlotOwnerFrom(groups: seq<SubSceneGroup>, k: nat, j: nat): (g: nat)
    requires k <= |groups| && QuotaPrefix(groups, k) <= j < QuotaSum(groups)
    ensures k <= g < |groups| && QuotaPrefix(groups, g) <= j < QuotaPrefix(groups, g + 1)
    decreases |groups| - k
  {
    if j < QuotaPrefix(groups, k + 1) then k else SlotOwnerFrom(groups, k + 1, j)
  }

  /**
   * The group that supplies pool slot `j` in the group phase. Group `g` owns exactly the slots
   * from the total quota of the groups before it up to that plus its own quota: the groups fill
   * the pool in authored order, each with at most its quota of consecutive slots.
   */
  function SlotOwner(groups: seq<SubSceneGroup>, j: nat): (g: nat)
    requires j < QuotaSum(groups)
    ensures g < |groups| && QuotaPrefix(groups, g) <= j < QuotaPrefix(groups, g) + Quota(groups[g])
  {
    SlotOwnerFrom(groups, 0, j)
  }

  /** Conversely, the `i`-th pick of group `g` (below its quota) lands in a slot that `g` owns. */
  lemma {:induction false} SlotOwnerOf(groups: seq<SubSceneGroup>, g: nat, i: nat)
    requires g < |groups| && i < Quota(groups[g])
    ensures QuotaPrefix(groups, g) + i < QuotaSum(groups)
    ensures SlotOwner(groups, QuotaPrefix(groups, g) + i) == g
  {
    var j := QuotaPrefix(groups, g) + i;
    assert QuotaPrefix(groups, g + 1) == QuotaPrefix(groups, g) + Quota(groups[g]);
    QuotaPrefixMonotone(groups, g + 1, |groups|);
    var o := SlotOwner(groups, j);
    if o < g {
      QuotaPrefixMonotone(groups, o + 1, g);
      assert false;
    } else if o > g {
      QuotaPrefixMonotone(groups, g + 1, o);
      assert false;
    }
  }

  /**
   * The entries slot `j` of a cluster's pool is drawn from: the owning group's entries while the
   * group quotas last, the default group's entries after that.
   */
  function SlotCandidates(cluster: SceneCluster, j: nat): seq<SubSceneEntry>
  {
    if j < QuotaSum(cluster.subSceneGroups)
    then cluster.subSceneGroups[SlotOwner(cluster.subSceneGroups, j)].entries
    else cluster.defaultGroup.entries
  }

  /** `pool` is a selection pool of `n` picks for `cluster`: each slot holds one of its candidates. */
  ghost predicate IsPool(cluster: SceneCluster, n: nat, pool: seq<SubSceneEntry>)
  {
    |pool| == n && forall j :: 0 <= j < n ==> pool[j] in SlotCandidates(cluster, j)
  }

  /** Some slot among the first `n` has no candidate, so `n` picks cannot be made. */
  ghost predicate PoolImpossible(cluster: SceneCluster, n: nat)
  {
    exists j :: 0 <= j < n && SlotCandidates(cluster, j) == []
  }

  /** A complete pool shows that no slot lacks candidates. */
  lemma PoolRulesOutImpossible(cluster: SceneCluster, n: nat, pool: seq<SubSceneEntry>)
    requires IsPool(cluster, n, pool)
    ensures !PoolImpossible(cluster, n)
  {
    forall j | 0 <= j < n ensures SlotCandidates(cluster, j) != [] {
      assert pool[j] in SlotCandidates(cluster, j);
    }
  }

  // ---------------------------------------------------------------- pool building

  /**
   * Builds the selection pool of one cluster for `n` chunks: up to each group's quota from the
   * groups in order, then the shortfall from the default group. Fails when a pick is due from
   * an empty list of entries.
   */
  method BuildPool(cluster: SceneCluster, n: nat, rng0: RandomSource)
    returns (r: Result<(seq<SubSceneEntry>, RandomSource), Fault>)
    ensures r.Success? ==> IsPool(cluster, n, r.value.0)
    ensures r.Failure? <==> PoolImpossible(cluster, n)
    ensures r.Failure? ==> r.error == NoSubSceneCandidates(cluster.clusterId)
  {
    var groups := cluster.subSceneGroups;
    var selected: seq<SubSceneEntry> := [];
    var count: nat := n;
    var rng := rng0;
    var g := 0;
    while g < |groups|
      invariant 0 <= g <= |groups|
      invariant |selected| == QuotaPrefix(groups, g) && count + |selected| == n
      invariant forall j :: 0 <= j < |selected| ==> selected[j] in SlotCandidates(cluster, j)
    {
      var group := groups[g];
      var i := 0;
      while i < group.i0 && count > 0
        invariant 0 <= i <= Quota(group)
        invariant |selected| == QuotaPrefix(groups, g) + i && count + |selected| == n
        invariant forall j :: 0 <= j < |selected| ==> selected[j] in SlotCandidates(cluster, j)
      {
        SlotOwnerOf(groups, g, i);
        assert SlotCandidates(cluster, |selected|) == group.entries;
        if group.entries == [] {
          return Failure(NoSubSceneCandidates(cluster.clusterId));
        }
        var pick := RandomIndex(rng, |group.entries|);
        selected := selected + [group.entries[pick.0]];
        rng := pick.1;
        i, count := i + 1, count - 1;
      }
      if count == 0 {
        break;
      }
      assert i == Quota(group);
      assert QuotaPrefix(groups, g + 1) == QuotaPrefix(groups, g) + Quota(group);
      g := g + 1;
    }
    while count > 0
      invariant count + |selected| == n
      invariant count > 0 ==> |selected| >= QuotaSum(groups)
      invariant forall j :: 0 <= j < |selected| ==> selected[j] in SlotCandidates(cluster, j)
    {
      assert SlotCandidates(cluster, |selected|) == cluster.defaultGroup.entries;
      if cluster.defaultGroup.entries == [] {
        return Failure(NoSubSceneCandidates(cluster.clusterId));
      }
      var pick := RandomIndex(rng, |cluster.defaultGroup.entries|);
      selected := selected + [cluster.defaultGroup.entries[pick.0]];
      rng := pick.1;
      count := count - 1;
    }
    r := Success((selected, rng));
    PoolRulesOutImpossible(cluster, n, selected);
  }

  /**
   * Builds one pool per counted cluster, visiting the ids in `keys`; the first cluster whose
   * pool cannot be built aborts.
   */
  method BuildPools(index: map<int, SceneCluster>, counts: map<int, nat>, keys: seq<int>, rng0: RandomSource)
    returns (r: Result<(map<int, seq<SubSceneEntry>>, RandomSource), Fault>)
    requires forall id :: id in counts ==> id in index
    requires forall id :: id in keys <==> id in counts
    ensures r.Success? ==> forall id :: id in r.value.0 <==> id in counts
    ensures r.Success? ==> forall id :: id in counts ==> IsPool(index[id], counts[id], r.value.0[id])
    ensures r.Failure? <==> exists id :: id in counts && PoolImpossible(index[id], counts[id])
    ensures r.Failure? ==> r.error.NoSubSceneCandidates?
  {
    var pools: map<int, seq<SubSceneEntry>> := map[];
    var rng := rng0;
    var k := 0;
    while k < |keys|
      invariant 0 <= k <= |keys|
      invariant forall id :: id in pools <==> id in keys[..k]
      invariant forall id :: id in pools ==> IsPool(index[id], counts[id], pools[id])
    {
      var id := keys[k];
      assert keys[..k + 1] == keys[..k] + [id];
      var built := BuildPool(index[id], counts[id], rng);
      if built.Failure? {
        assert PoolImpossible(index[id], counts[id]);
        return Failure(built.error);
      }
      pools := pools[id := built.value.0];
      rng := built.value.1;
      k := k + 1;
    }
    assert keys[..k] == keys;
    r := Success((pools, rng));
    forall id | id in counts ensures !PoolImpossible(index[id], counts[id]) {
      PoolRulesOutImpossible(index[id], counts[id], pools[id]);
    }
  }

  // ---------------------------------------------------------------- pool consumption

  /** Position of the first element equal to `x`. */
  function FirstIndex<T(==)>(s: seq<T>, x: T): (i: nat)
    requires x in s
    ensures i < |s| && s[i] == x && x !in s[..i]
  {
    if s[0] == x then
      0
    else
      assert x in s[1..] by {
        var k :| 0 <= k < |s| && s[k] == x;
        assert s[1..][k - 1] == x;
      }
      var i := FirstIndex(s[1..], x);
      assert s[..i + 1] == [s[0]] + s[1..][..i];
      i + 1
  }

  /**
   * Removes the first element equal to `x` (the list's `Remove`); no change when `x` is absent.
   * When `x` is present the list loses exactly one copy of it.
   */
  function RemoveFirst<T(==)>(s: seq<T>, x: T): (r: seq<T>)
    ensures x !in s ==> r == s
    ensures x in s ==> |r| == |s| - 1 && multiset(r) == multiset(s) - multiset{x}
  {
    if x in s then
      var i := FirstIndex(s, x);
      assert s == s[..i] + [x] + s[i + 1..];
      s[..i] + s[i + 1..]
    else
      s
  }
}
