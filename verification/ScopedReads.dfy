/** The API keys' own cluster lists, which narrow what a key reads. */
module ApiTokens {
  import opened Filters

  /** The named ids, each once, in the order they first came. */
  function Normalized(ids: seq<string>): (out: seq<string>)
    ensures forall id :: id in out <==> id in ids && id != ""
    ensures forall i, j | 0 <= i < j < |out| :: out[i] != out[j]
  {
    if ids == [] then []
    else
      var n := |ids| - 1;
      assert ids == ids[..n] + [ids[n]];
      var before := Normalized(ids[..n]);
      if ids[n] == "" || ids[n] in before then before else before + [ids[n]]
  }

  predicate NamedFirst(ids: seq<string>, i: nat)
    requires i < |ids|
  {
    ids[i] != "" && forall j | 0 <= j < i :: ids[j] != ids[i]
  }

  /** Where each named id first comes. */
  ghost function FirstNamed(ids: seq<string>): (from: seq<nat>)
    ensures Rising(from, |ids|)
    ensures forall i | 0 <= i < |ids| :: i in from <==> NamedFirst(ids, i)
  {
    if ids == [] then []
    else
      var n := |ids| - 1;
      var before := FirstNamed(ids[..n]);
      assert forall i | 0 <= i < n :: ids[..n][i] == ids[i];
      assert forall i | 0 <= i < n :: NamedFirst(ids, i) <==> NamedFirst(ids[..n], i);
      if NamedFirst(ids, n) then before + [n] else before
  }

  lemma NormalizedLast(ids: seq<string>)
    requires ids != []
    ensures var n := |ids| - 1;
            Normalized(ids) == Normalized(ids[..n]) + if NamedFirst(ids, n) then [ids[n]] else []
  {
    var n := |ids| - 1;
    assert ids[n] in ids[..n] <==> exists j | 0 <= j < n :: ids[j] == ids[n];
  }

  lemma {:induction false} NormalizedInOrder(ids: seq<string>)
    ensures var from, out := FirstNamed(ids), Normalized(ids);
            |from| == |out| && forall k | 0 <= k < |out| :: out[k] == ids[from[k]]
  {
    if ids != [] {
      var n := |ids| - 1;
      NormalizedInOrder(ids[..n]);
      NormalizedLast(ids);
    }
  }

  method NormalizeClusterList(ids: seq<string>) returns (out: seq<string>, ghost from: seq<nat>)
    ensures out == Normalized(ids)
    ensures |from| == |out| && Rising(from, |ids|) && forall k | 0 <= k < |out| :: out[k] == ids[from[k]]
    ensures forall i | 0 <= i < |ids| :: i in from <==> NamedFirst(ids, i)
  {
    from := FirstNamed(ids);
    NormalizedInOrder(ids);
    out := [];
    var seen: set<string> := {};
    for i := 0 to |ids|
      invariant out == Normalized(ids[..i])
      invariant forall id :: id in seen <==> id in out
    {
      assert ids[..i + 1][..i] == ids[..i];
      if ids[i] != "" && ids[i] !in seen {
        seen := seen + {ids[i]};
        out := out + [ids[i]];
      }
    }
    assert ids[..|ids|] == ids;
  }

  /** The keys and their lists; an empty list is every cluster of the org. */
  class ApiTokenStore {
    var lists: map<string, seq<string>>

    /** No key ever lists the nameless cluster. */
    ghost predicate Valid()
      reads this
    {
      forall key | key in lists :: "" !in lists[key]
    }

    constructor ()
      ensures Valid() && lists == map[]
    {
      lists := map[];
    }

    method Issue(key: string)
      requires Valid()
      modifies this
      ensures Valid() && lists == old(lists)[key := []]
    {
      lists := lists[key := []];
    }

    method SetClusters(key: string, ids: seq<string>) returns (found: bool)
      requires Valid()
      modifies this
      ensures Valid() && found == (key in old(lists))
      ensures lists == if found then old(lists)[key := Normalized(ids)] else old(lists)
    {
      if key !in lists {
        return false;
      }
      var list;
      ghost var from;
      list, from := NormalizeClusterList(ids);
      lists := lists[key := list];
      found := true;
    }
  }
}

/** What one caller may read. */
module ClusterScopes {
  import opened Options
  import opened Sorting
  import opened ApiTokens

  datatype ClusterScope = ClusterScope(requested: string, allowed: set<string>, narrowed: bool)
  {
    predicate May(id: string) {
      if !narrowed then true
      else if requested != "" then id == requested && requested in allowed
      else id in allowed
    }

    function Readable(): set<string> { set id | id in allowed && May(id) }

    /** Among listed clusters, the readable ones each once, in byte order; only a narrowed scope lists any. */
    method AllowedIDs() returns (ids: seq<string>, limited: bool)
      ensures limited == narrowed
      ensures multiset(ids) == if narrowed then multiset(Readable()) else multiset{}
      ensures InOrder(ids, id => SortKey(0, 0.0, id, "", ""))
    {
      ids := [];
      if !narrowed { return ids, false; }
      var rest := allowed;
      while rest != {}
        invariant rest <= allowed
        invariant multiset(ids) == multiset(Readable() - rest)
        decreases rest
      {
        var id :| id in rest;
        TakenOut(Readable(), rest, id);
        if May(id) { ids := ids + [id]; }
        rest := rest - {id};
      }
      ids := SortBy(ids, id => SortKey(0, 0.0, id, "", ""));
      limited := true;
    }

    predicate EntitledToNothing() {
      narrowed && requested == "" && allowed == {}
    }
  }

  lemma TakenOut(pool: set<string>, rest: set<string>, id: string)
    requires id in rest
    ensures multiset(pool - (rest - {id})) == multiset(pool - rest) + if id in pool then multiset{id} else multiset{}
  {
    assert pool - (rest - {id}) == (pool - rest) + if id in pool then {id} else {};
  }

  // ---- how a request gets its scope ----

  datatype Caller = Session | ServiceToken | ApiKey(clusters: seq<string>)

  /** An API key's list as the store holds it. */
  predicate Issued(caller: Caller) { caller.ApiKey? ==> "" !in caller.clusters }

  lemma StoredKeyIsIssued(store: ApiTokenStore, key: string)
    requires store.Valid() && key in store.lists
    ensures Issued(ApiKey(store.lists[key]))
  {
  }

  /** Only an API key with a list is restricted by one. */
  predicate Restricted(caller: Caller) { caller.ApiKey? && caller.clusters != [] }

  /** A multi-tenant request without an org reads no cluster. */
  predicate Orgless(org: string, narrow: bool) { narrow && org == "" }

  /** The scope the middleware leaves for the handlers. */
  function ScopeOf(caller: Caller, org: string, narrow: bool, requested: string): ClusterScope {
    ClusterScope(requested,
                 if Orgless(org, narrow) || !Restricted(caller) then {} else (set id | id in caller.clusters),
                 Orgless(org, narrow) || Restricted(caller))
  }

  /** The caller's ids and whether anything narrows them. */
  method AllowedClusterIDs(caller: Caller, org: string, narrow: bool) returns (ids: seq<string>, narrowed: bool)
    ensures narrowed <==> (narrow && org == "") || (caller.ApiKey? && caller.clusters != [])
    ensures narrowed ==> forall id :: id in ids <==> !(narrow && org == "") && id in caller.clusters
  {
    ids, narrowed := [], narrow && org == "";
    if caller.ApiKey? && |caller.clusters| > 0 {
      var list: set<string> := {};
      for i := 0 to |caller.clusters|
        invariant forall id :: id in list <==> id in caller.clusters[..i]
      {
        list := list + {caller.clusters[i]};
      }
      assert caller.clusters[..|caller.clusters|] == caller.clusters;
      ids, narrowed := NarrowIDsByToken(ids, narrowed, list);
    }
  }

  /** A key's list takes the place of "everything", and intersects anything else. */
  method NarrowIDsByToken(ids: seq<string>, narrowed: bool, list: set<string>) returns (out: seq<string>, limited: bool)
    ensures limited
    ensures forall id :: id in out <==> id in list && (narrowed ==> id in ids)
  {
    out, limited := [], true;
    if !narrowed {
      var rest := list;
      while rest != {}
        invariant rest <= list
        invariant forall id :: id in out <==> id in list && id !in rest
        decreases rest
      {
        var id :| id in rest;
        out, rest := out + [id], rest - {id};
      }
    } else {
      for i := 0 to |ids|
        invariant forall id :: id in out <==> id in list && id in ids[..i]
      {
        if ids[i] in list { out := out + [ids[i]]; }
      }
      assert ids[..|ids|] == ids;
    }
  }

  method WithClusterScope(caller: Caller, org: string, narrow: bool, requested: string) returns (scope: ClusterScope)
    ensures scope == ScopeOf(caller, org, narrow, requested)
    ensures scope.requested == requested
    ensures scope.narrowed <==> (narrow && org == "") || (caller.ApiKey? && caller.clusters != [])
    ensures forall id :: scope.May(id) <==>
              && !(narrow && org == "")
              && (caller.ApiKey? && caller.clusters != [] ==>
                    id in caller.clusters && (requested == "" || id == requested))
  {
    var ids, narrowed := AllowedClusterIDs(caller, org, narrow);
    scope := ClusterScope(requested, {}, narrowed);
    if narrowed {
      for i := 0 to |ids|
        invariant scope == ClusterScope(requested, (set id | id in ids[..i]), narrowed)
      {
        scope := scope.(allowed := scope.allowed + {ids[i]});
      }
      assert ids[..|ids|] == ids;
    }
  }

  /** No scope so built lists the nameless cluster. */
  lemma NoNamelessScope(caller: Caller, org: string, narrow: bool, requested: string)
    requires Issued(caller)
    ensures "" !in ScopeOf(caller, org, narrow, requested).allowed
  {
  }
}

/** findingSource.List and runtimeEventSource.List: one algorithm over two kinds
    of rows. A narrowed caller's rows are read cluster by cluster, merged and
    cut again, and must be what one capped read over its rows would give. */
module ScopedReads {
  import opened Options
  import opened Numbers
  import opened Filters
  import opened Sorting
  import opened ClusterScopes

  /** A finding or a runtime event; at orders it, id tells it from any other. */
  datatype Row = Row(cluster: string, at: int, id: nat)

  /** What the store answers for a cluster id, None when it fails. */
  type Store = string -> Option<seq<Row>>

  datatype Listing = Rows(rows: seq<Row>) | NoReadableCluster | StoreFailed

  ghost predicate NewestFirst(rows: seq<Row>) {
    forall i, j | 0 <= i < j < |rows| :: rows[i].at >= rows[j].at
  }

  /** out is the `limit` newest of rows (all of them without a limit), newest
      first, each as often as it is there, none newer left out. */
  ghost predicate TopOf(rows: seq<Row>, limit: int, out: seq<Row>) {
    && NewestFirst(out)
    && multiset(out) <= multiset(rows)
    && |out| == (if limit > 0 then Min(limit, |rows|) else |rows|)
    && forall r, o | multiset(out)[r] < multiset(rows)[r] && o in out :: o.at >= r.at
  }

  function OfId(rows: seq<Row>, id: string): seq<Row> {
    Filter(rows, (r: Row) => id == "" || r.cluster == id)
  }

  /** The store holds rows and caps what it returns for a cluster ("" is the whole org). */
  ghost predicate Serves(store: Store, rows: seq<Row>, limit: int) {
    forall id :: store(id).Some? && TopOf(OfId(rows, id), limit, store(id).value)
  }

  /** The rows the answer is about. */
  function Wanted(scope: ClusterScope, rows: seq<Row>, id: string): seq<Row> {
    Filter(rows, (r: Row) => (id == "" || r.cluster == id) && scope.May(r.cluster))
  }

  function Own(rows: seq<Row>, id: string): seq<Row> {
    Filter(rows, (r: Row) => r.cluster == id)
  }

  function Merge(ids: seq<string>, store: Store): seq<Row>
    requires forall id | id in ids :: store(id).Some?
  {
    if ids == [] then []
    else
      var n := |ids| - 1;
      assert ids == ids[..n] + [ids[n]];
      Merge(ids[..n], store) + Own(store(ids[n]).value, ids[n])
  }

  function Cut(rows: seq<Row>, limit: int): seq<Row> {
    if limit > 0 && |rows| > limit then rows[..limit] else rows
  }

  function Resolved(scope: ClusterScope, cluster: string, allClusters: bool): string {
    if allClusters then "" else if cluster == "" then scope.requested else cluster
  }

  /** The per-cluster reads, merged, sorted (ties anyhow) and cut. */
  ghost predicate Merged(ids: seq<string>, store: Store, limit: int, out: seq<Row>) {
    && (forall id | id in ids :: store(id).Some?)
    && exists s :: multiset(s) == multiset(Merge(ids, store)) && NewestFirst(s) && out == Cut(s, limit)
  }

  /** What List may answer for a cluster id already resolved. */
  ghost predicate Answers(scope: ClusterScope, id: string, limit: int, store: Store, r: Listing) {
    if scope.narrowed && scope.Readable() == {} then r == NoReadableCluster
    else if scope.narrowed && id == "" then
      if exists c | c in scope.Readable() :: store(c).None? then r == StoreFailed
      else r.Rows? && exists ids :: multiset(ids) == multiset(scope.Readable()) && Merged(ids, store, limit, r.rows)
    else if store(id).None? then r == StoreFailed
    else r == Rows(Filter(store(id).value, (x: Row) => scope.May(x.cluster)))
  }

  function ByAge(r: Row): SortKey { SortKey(0, r.at as real, "", "", "") }

  method Keep(rows: seq<Row>, keep: Row -> bool) returns (out: seq<Row>)
    ensures out == Filter(rows, keep)
  {
    out := [];
    for i := 0 to |rows|
      invariant out == Filter(rows[..i], keep)
    {
      assert rows[..i + 1][..i] == rows[..i];
      if keep(rows[i]) { out := out + [rows[i]]; }
    }
    assert rows[..|rows|] == rows;
  }

  method ReadEach(ids: seq<string>, store: Store) returns (recs: Option<seq<Row>>)
    ensures recs.None? <==> exists id | id in ids :: store(id).None?
    ensures recs.Some? ==> recs.value == Merge(ids, store)
  {
    var all: seq<Row> := [];
    for i := 0 to |ids|
      invariant forall id | id in ids[..i] :: store(id).Some?
      invariant all == Merge(ids[..i], store)
    {
      var id := ids[i];
      assert ids[..i + 1][..i] == ids[..i];
      var rows := store(id);
      if rows.None? { return None; }
      var own := Keep(rows.value, (r: Row) => r.cluster == id);
      all := all + own;
    }
    assert ids[..|ids|] == ids;
    recs := Some(all);
  }

  method List(scope: ClusterScope, cluster: string, limit: int, allClusters: bool, store: Store) returns (r: Listing)
    ensures Answers(scope, Resolved(scope, cluster, allClusters), limit, store, r)
  {
    var ids, narrowed := scope.AllowedIDs();
    forall id ensures id in ids <==> narrowed && id in scope.Readable() {
      assert id in ids <==> id in multiset(ids);
    }
    if narrowed && |ids| == 0 {
      assert scope.Readable() == {};
      return NoReadableCluster;
    }
    var id := cluster;
    if allClusters { id := ""; } else if cluster == "" { id := scope.requested; }
    if narrowed && id == "" {
      assert ids[0] in scope.Readable();
      var recs := ReadEach(ids, store);
      if recs.None? { return StoreFailed; }
      var s := SortBy(recs.value, ByAge);
      assert NewestFirst(s) by {
        forall i, j | 0 <= i < j < |s| ensures s[i].at >= s[j].at {
          assert !Below(ByAge(s[j]), ByAge(s[i]));
        }
      }
      r := Rows(Cut(s, limit));
      assert Merged(ids, store, limit, r.rows);
    } else {
      if narrowed { assert ids[0] in scope.Readable(); }
      var recs := store(id);
      if recs.None? { return StoreFailed; }
      var out := Keep(recs.value, (x: Row) => scope.May(x.cluster));
      r := Rows(out);
    }
  }

  // ---- whatever the store answers ----

  lemma {:induction false} MergeIsOwn(ids: seq<string>, store: Store, r: Row)
    requires forall id | id in ids :: store(id).Some?
    ensures r in Merge(ids, store) ==> r.cluster in ids
  {
    if ids != [] {
      MergeIsOwn(ids[..|ids| - 1], store, r);
    }
  }

  lemma CutIn(s: seq<Row>, limit: int, r: Row)
    requires r in Cut(s, limit)
    ensures r in s
  {
  }

  /** Even a store that answers for the wrong cluster opens nothing: every row returned may be read. */
  lemma NothingForeign(scope: ClusterScope, id: string, limit: int, store: Store, r: Listing)
    requires Answers(scope, id, limit, store, r) && r.Rows?
    ensures forall x | x in r.rows :: scope.May(x.cluster)
  {
    if scope.narrowed && id == "" {
      var ids :| multiset(ids) == multiset(scope.Readable()) && Merged(ids, store, limit, r.rows);
      var s :| multiset(s) == multiset(Merge(ids, store)) && NewestFirst(s) && r.rows == Cut(s, limit);
      forall x | x in r.rows ensures scope.May(x.cluster) {
        CutIn(s, limit, x);
        assert x in multiset(s);
        MergeIsOwn(ids, store, x);
        assert x.cluster in multiset(ids);
      }
    }
  }

  // ---- the narrowed merge is one capped read ----

  lemma {:induction false} MergeCounts(ids: seq<string>, store: Store, r: Row)
    requires forall id | id in ids :: store(id).Some?
    requires forall i, j | 0 <= i < j < |ids| :: ids[i] != ids[j]
    ensures multiset(Merge(ids, store))[r] == if r.cluster in ids then multiset(store(r.cluster).value)[r] else 0
  {
    if ids != [] {
      var n := |ids| - 1;
      var init, last := ids[..n], ids[n];
      assert ids == init + [last];
      assert last !in init;
      MergeCounts(init, store, r);
      FilterCounts(store(last).value, (x: Row) => x.cluster == last, r);
      assert Merge(ids, store) == Merge(init, store) + Own(store(last).value, last);
    }
  }

  lemma {:induction false} MergeHoldsEach(ids: seq<string>, store: Store, id: string)
    requires forall x | x in ids :: store(x).Some?
    requires id in ids
    ensures |Merge(ids, store)| >= |Own(store(id).value, id)|
  {
    var n := |ids| - 1;
    if id != ids[n] {
      MergeHoldsEach(ids[..n], store, id);
    }
  }

  /** A list sorted newest first that holds many rows no older than t starts with them. */
  lemma {:induction false} ManyNew(s: seq<Row>, t: int, k: nat)
    requires NewestFirst(s) && |Filter(s, (r: Row) => r.at >= t)| >= k
    ensures k <= |s| && forall i | 0 <= i < k :: s[i].at >= t
  {
    FilterAll(s, (r: Row) => r.at >= t);
    if s != [] {
      var n := |s| - 1;
      if s[n].at >= t {
        forall i | 0 <= i < k ensures s[i].at >= t { assert s[i].at >= s[n].at; }
      } else {
        assert NewestFirst(s[..n]);
        ManyNew(s[..n], t, k);
        assert forall i | 0 <= i < k :: s[..n][i] == s[i];
      }
    }
  }

  /** A read of one cluster returns that cluster's rows. */
  lemma OwnIsAll(store: Store, rows: seq<Row>, limit: int, id: string)
    requires Serves(store, rows, limit) && id != ""
    ensures Own(store(id).value, id) == store(id).value
  {
    forall r | r in store(id).value ensures r.cluster == id {
      assert r in multiset(store(id).value) && r in multiset(OfId(rows, id));
      assert r in OfId(rows, id);
    }
    FilterAll(store(id).value, (r: Row) => r.cluster == id);
  }

  /** A read that did not reach its limit left nothing out. */
  lemma ShortReadIsWhole(rows: seq<Row>, limit: int, out: seq<Row>)
    requires TopOf(rows, limit, out) && (limit <= 0 || |out| < limit)
    ensures multiset(out) == multiset(rows)
  {
    assert |multiset(out)| == |out| && |multiset(rows)| == |rows|;
    WholePart(multiset(out), multiset(rows));
  }

  /** How often a row of a readable cluster is wanted, read, and merged. */
  lemma RowCounts(scope: ClusterScope, rows: seq<Row>, limit: int, store: Store, ids: seq<string>, r: Row)
    requires scope.narrowed && Serves(store, rows, limit) && DistinctIds(ids, scope)
    ensures multiset(Wanted(scope, rows, ""))[r] == if r.cluster in ids then multiset(OfId(rows, r.cluster))[r] else 0
    ensures multiset(Merge(ids, store))[r] == if r.cluster in ids then multiset(store(r.cluster).value)[r] else 0
    ensures multiset(Merge(ids, store))[r] <= multiset(Wanted(scope, rows, ""))[r]
  {
    FilterCounts(rows, (x: Row) => ("" == "" || x.cluster == "") && scope.May(x.cluster), r);
    FilterCounts(rows, (x: Row) => r.cluster == "" || x.cluster == r.cluster, r);
    MergeCounts(ids, store, r);
  }

  ghost predicate DistinctIds(ids: seq<string>, scope: ClusterScope) {
    && (forall i, j | 0 <= i < j < |ids| :: ids[i] != ids[j])
    && (forall id :: id in ids <==> scope.narrowed && id in scope.Readable())
  }

  /** The merge is part of what is wanted, and all of it when no read was cut. */
  lemma MergeIsPart(scope: ClusterScope, rows: seq<Row>, limit: int, store: Store, ids: seq<string>)
    requires scope.narrowed && Serves(store, rows, limit) && DistinctIds(ids, scope)
    ensures multiset(Merge(ids, store)) <= multiset(Wanted(scope, rows, ""))
    ensures (forall id | id in ids :: limit <= 0 || |store(id).value| < limit) ==>
              multiset(Merge(ids, store)) == multiset(Wanted(scope, rows, ""))
  {
    forall r ensures multiset(Merge(ids, store))[r] <= multiset(Wanted(scope, rows, ""))[r] {
      RowCounts(scope, rows, limit, store, ids, r);
    }
    if forall id | id in ids :: limit <= 0 || |store(id).value| < limit {
      forall r ensures multiset(Merge(ids, store))[r] == multiset(Wanted(scope, rows, ""))[r] {
        RowCounts(scope, rows, limit, store, ids, r);
        if r.cluster in ids {
          ShortReadIsWhole(OfId(rows, r.cluster), limit, store(r.cluster).value);
        }
      }
    }
  }

  lemma {:induction false} MergeHoldsNew(ids: seq<string>, store: Store, id: string, t: int)
    requires forall x | x in ids :: store(x).Some?
    requires id in ids && forall r | r in Own(store(id).value, id) :: r.at >= t
    ensures |Filter(Merge(ids, store), (r: Row) => r.at >= t)| >= |Own(store(id).value, id)|
  {
    var n := |ids| - 1;
    var recent := (r: Row) => r.at >= t;
    var before, last := Merge(ids[..n], store), Own(store(ids[n]).value, ids[n]);
    assert Merge(ids, store) == before + last;
    FilterConcat(before, last, recent);
    if id != ids[n] {
      assert id in ids[..n];
      MergeHoldsNew(ids[..n], store, id, t);
    } else {
      FilterAll(last, recent);
    }
  }

  /** The merged answer is as long as one capped read over the wanted rows. */
  lemma MergedLength(scope: ClusterScope, rows: seq<Row>, limit: int, store: Store, ids: seq<string>, s: seq<Row>)
    requires scope.narrowed && Serves(store, rows, limit) && DistinctIds(ids, scope)
    requires "" !in ids || limit <= 0
    requires multiset(s) == multiset(Merge(ids, store))
    ensures |Cut(s, limit)| == if limit > 0 then Min(limit, |Wanted(scope, rows, "")|) else |Wanted(scope, rows, "")|
  {
    MergeIsPart(scope, rows, limit, store, ids);
    var w, m := Wanted(scope, rows, ""), Merge(ids, store);
    SameLength(s, m);
    assert |multiset(w)| == |w| && |multiset(m)| == |m|;
    PartIsShorter(multiset(m), multiset(w));
    if limit > 0 && exists id | id in ids :: |store(id).value| >= limit {
      var id :| id in ids && |store(id).value| >= limit;
      FullReadFillsMerge(rows, limit, store, ids, id);
    }
  }

  lemma FullReadFillsMerge(rows: seq<Row>, limit: int, store: Store, ids: seq<string>, id: string)
    requires Serves(store, rows, limit) && "" !in ids && id in ids && |store(id).value| >= limit
    ensures |Merge(ids, store)| >= limit
  {
    OwnIsAll(store, rows, limit, id);
    MergeHoldsEach(ids, store, id);
  }

  lemma PartIsShorter<T>(a: multiset<T>, b: multiset<T>)
    requires a <= b
    ensures |a| <= |b|
  {
    assert b == a + (b - a);
  }

  /** A row its own cluster's read left out is no newer than the first `limit` merged. */
  lemma CutReadsAreNewer(scope: ClusterScope, rows: seq<Row>, limit: int, store: Store, ids: seq<string>, s: seq<Row>,
                         r: Row, i: nat)
    requires scope.narrowed && Serves(store, rows, limit) && DistinctIds(ids, scope)
    requires ("" !in ids || limit <= 0) && r.cluster in ids
    requires multiset(s) == multiset(Merge(ids, store)) && NewestFirst(s) && i < |Cut(s, limit)|
    requires multiset(store(r.cluster).value)[r] < multiset(OfId(rows, r.cluster))[r]
    ensures s[i].at >= r.at
  {
    var id := r.cluster;
    if limit <= 0 || |store(id).value| < limit {
      ShortReadIsWhole(OfId(rows, id), limit, store(id).value);
    }
    OwnIsAll(store, rows, limit, id);
    MergeHoldsNew(ids, store, id, r.at);
    FilterOrderFree(s, Merge(ids, store), (x: Row) => x.at >= r.at);
    ManyNew(s, r.at, limit);
  }

  /** No wanted row left out is newer than one returned. */
  lemma MergedLeavesOlder(scope: ClusterScope, rows: seq<Row>, limit: int, store: Store, ids: seq<string>, s: seq<Row>,
                          r: Row, o: Row)
    requires scope.narrowed && Serves(store, rows, limit) && DistinctIds(ids, scope)
    requires "" !in ids || limit <= 0
    requires multiset(s) == multiset(Merge(ids, store)) && NewestFirst(s)
    requires multiset(Cut(s, limit))[r] < multiset(Wanted(scope, rows, ""))[r] && o in Cut(s, limit)
    ensures o.at >= r.at
  {
    RowCounts(scope, rows, limit, store, ids, r);
    var i: nat :| i < |Cut(s, limit)| && Cut(s, limit)[i] == o;
    assert s[i] == o;
    if multiset(s)[r] < multiset(Wanted(scope, rows, ""))[r] {
      CutReadsAreNewer(scope, rows, limit, store, ids, s, r, i);
    } else {
      LeftOutIsLater(s, limit, r, i);
    }
  }

  lemma LeftOutIsLater(s: seq<Row>, limit: int, r: Row, i: nat)
    requires NewestFirst(s) && i < |Cut(s, limit)| && multiset(Cut(s, limit))[r] < multiset(s)[r]
    ensures s[i].at >= r.at
  {
    assert s == s[..limit] + s[limit..];
    assert r in multiset(s[limit..]);
    var j :| 0 <= j < |s[limit..]| && s[limit..][j] == r;
    assert s[limit + j] == r;
  }

  lemma CutIsPart(s: seq<Row>, limit: int)
    ensures multiset(Cut(s, limit)) <= multiset(s)
    ensures NewestFirst(s) ==> NewestFirst(Cut(s, limit))
  {
    if limit > 0 && |s| > limit {
      assert s == s[..limit] + s[limit..];
    }
  }

  /** A narrowed caller's merged read is one capped read over its own rows. */
  lemma MergedIsTop(scope: ClusterScope, rows: seq<Row>, limit: int, store: Store, ids: seq<string>, out: seq<Row>)
    requires scope.narrowed && Serves(store, rows, limit) && DistinctIds(ids, scope)
    requires "" !in ids || limit <= 0
    requires Merged(ids, store, limit, out)
    ensures TopOf(Wanted(scope, rows, ""), limit, out)
  {
    var s :| multiset(s) == multiset(Merge(ids, store)) && NewestFirst(s) && out == Cut(s, limit);
    CutIsPart(s, limit);
    MergeIsPart(scope, rows, limit, store, ids);
    MergedLength(scope, rows, limit, store, ids, s);
    forall r, o | multiset(out)[r] < multiset(Wanted(scope, rows, ""))[r] && o in out ensures o.at >= r.at {
      MergedLeavesOlder(scope, rows, limit, store, ids, s, r, o);
    }
  }

  // ---- any caller ----

  /** A read of one cluster, or of the org by a caller nothing narrows: what may be read is already the top. */
  lemma DirectIsTop(scope: ClusterScope, rows: seq<Row>, limit: int, id: string, out: seq<Row>)
    requires !scope.narrowed || id != ""
    requires TopOf(OfId(rows, id), limit, out)
    ensures TopOf(Wanted(scope, rows, id), limit, Filter(out, (x: Row) => scope.May(x.cluster)))
  {
    var may := (x: Row) => scope.May(x.cluster);
    var wanted := (r: Row) => (id == "" || r.cluster == id) && scope.May(r.cluster);
    forall x | x in out ensures id == "" || x.cluster == id {
      assert x in multiset(out) && x in multiset(OfId(rows, id));
      assert x in OfId(rows, id);
    }
    if scope.May(id) || !scope.narrowed {
      SameFilter(rows, (r: Row) => id == "" || r.cluster == id, wanted);
      FilterAll(out, may);
    } else {
      NoneKept(out, may);
      NoneKept(rows, wanted);
    }
  }

  lemma {:induction false} SameFilter<T>(xs: seq<T>, p: T -> bool, q: T -> bool)
    requires forall x | x in xs :: p(x) == q(x)
    ensures Filter(xs, p) == Filter(xs, q)
  {
    if xs != [] {
      assert xs == xs[..|xs| - 1] + [xs[|xs| - 1]];
      SameFilter(xs[..|xs| - 1], p, q);
    }
  }

  lemma NoneKept<T>(xs: seq<T>, p: T -> bool)
    requires forall x | x in xs :: !p(x)
    ensures Filter(xs, p) == []
  {
  }

  /** The nameless cluster listed as readable, read with a limit across all clusters.
      List takes its scope as it comes, so the case is stated and shown to fail. */
  predicate NamelessListed(scope: ClusterScope, id: string, limit: int) {
    scope.narrowed && id == "" && "" in scope.Readable() && limit > 0
  }

  /** For every scope, request and limit, outside that one case, the answer is
      one capped read over exactly the rows the scope lets through. */
  lemma ScopedReadIsTopK(scope: ClusterScope, id: string, limit: int, rows: seq<Row>, store: Store, r: Listing)
    requires Serves(store, rows, limit) && Answers(scope, id, limit, store, r)
    requires !NamelessListed(scope, id, limit)
    ensures if scope.narrowed && scope.Readable() == {} then r == NoReadableCluster
            else r.Rows? && TopOf(Wanted(scope, rows, id), limit, r.rows)
  {
    if scope.narrowed && scope.Readable() == {} {
    } else if scope.narrowed && id == "" {
      var ids :| multiset(ids) == multiset(scope.Readable()) && Merged(ids, store, limit, r.rows);
      OnceEach(ids, scope.Readable());
      MergedIsTop(scope, rows, limit, store, ids, r.rows);
    } else {
      DirectIsTop(scope, rows, limit, id, store(id).value);
    }
  }

  /** What a caller may read: nothing without an org in a multi-tenant install, a key
      with a list the clusters on it, of those only the one asked for if one was. */
  predicate CallerMay(caller: Caller, org: string, narrow: bool, requested: string, id: string) {
    && !(narrow && org == "")
    && (caller.ApiKey? && caller.clusters != [] ==> id in caller.clusters && (requested == "" || id == requested))
  }

  /** What a read is about: every cluster if it says so, else the cluster it names, else
      the one the request is on, if it is on one. */
  predicate AsksFor(cluster: string, allClusters: bool, requested: string, id: string) {
    || allClusters
    || (cluster != "" && id == cluster)
    || (cluster == "" && requested != "" && id == requested)
    || (cluster == "" && requested == "")
  }

  lemma MayIs(caller: Caller, org: string, narrow: bool, requested: string, id: string)
    ensures ScopeOf(caller, org, narrow, requested).May(id) <==> CallerMay(caller, org, narrow, requested, id)
  {
  }

  lemma AsksIs(scope: ClusterScope, cluster: string, allClusters: bool, c: string)
    ensures var id := Resolved(scope, cluster, allClusters);
            (id == "" || c == id) <==> AsksFor(cluster, allClusters, scope.requested, c)
  {
  }

  lemma WantedIs(caller: Caller, org: string, narrow: bool, requested: string, cluster: string, allClusters: bool,
                 rows: seq<Row>)
    ensures var scope := ScopeOf(caller, org, narrow, requested);
            Wanted(scope, rows, Resolved(scope, cluster, allClusters)) ==
            Filter(rows, (x: Row) => CallerMay(caller, org, narrow, requested, x.cluster)
                                     && AsksFor(cluster, allClusters, requested, x.cluster))
  {
    var scope := ScopeOf(caller, org, narrow, requested);
    var id := Resolved(scope, cluster, allClusters);
    forall x | x in rows
      ensures ((id == "" || x.cluster == id) && scope.May(x.cluster)) ==
              (CallerMay(caller, org, narrow, requested, x.cluster)
               && AsksFor(cluster, allClusters, requested, x.cluster))
    {
      MayIs(caller, org, narrow, requested, x.cluster);
      AsksIs(scope, cluster, allClusters, x.cluster);
    }
    SameFilter(rows, (x: Row) => (id == "" || x.cluster == id) && scope.May(x.cluster),
               (x: Row) => CallerMay(caller, org, narrow, requested, x.cluster)
                           && AsksFor(cluster, allClusters, requested, x.cluster));
  }

  lemma ToldNoCluster(caller: Caller, org: string, narrow: bool, requested: string, id: string, limit: int,
                      store: Store, r: Listing)
    requires Answers(ScopeOf(caller, org, narrow, requested), id, limit, store, r)
    ensures r == NoReadableCluster <==>
            || (narrow && org == "")
            || (caller.ApiKey? && caller.clusters != [] && requested != "" && requested !in caller.clusters)
  {
    var scope := ScopeOf(caller, org, narrow, requested);
    ForeignRequestOpensNothing(scope, id, limit, store, r);
    if caller.ApiKey? && caller.clusters != [] && !(narrow && org == "") {
      assert caller.clusters[0] in scope.allowed;
    }
  }

  /** Every request of every caller: the answer is one capped read over exactly the rows
      of the clusters it asks for that the caller may read. The exception above is of no
      scope the middleware builds. */
  lemma EveryCallerReadsTopK(caller: Caller, org: string, narrow: bool, requested: string, cluster: string,
                             limit: int, allClusters: bool, rows: seq<Row>, store: Store, r: Listing)
    requires Issued(caller) && Serves(store, rows, limit)
    requires var scope := ScopeOf(caller, org, narrow, requested);
             Answers(scope, Resolved(scope, cluster, allClusters), limit, store, r)
    ensures r == NoReadableCluster <==>
            || (narrow && org == "")
            || (caller.ApiKey? && caller.clusters != [] && requested != "" && requested !in caller.clusters)
    ensures r != NoReadableCluster ==>
              r.Rows? && TopOf(Filter(rows, (x: Row) => CallerMay(caller, org, narrow, requested, x.cluster)
                                                        && AsksFor(cluster, allClusters, requested, x.cluster)),
                               limit, r.rows)
  {
    var scope := ScopeOf(caller, org, narrow, requested);
    var id := Resolved(scope, cluster, allClusters);
    NoNamelessScope(caller, org, narrow, requested);
    ScopedReadIsTopK(scope, id, limit, rows, store, r);
    ToldNoCluster(caller, org, narrow, requested, id, limit, store, r);
    WantedIs(caller, org, narrow, requested, cluster, allClusters, rows);
  }

  /** One read, from the request to its rows. */
  method ReadForCaller(caller: Caller, org: string, narrow: bool, requested: string, cluster: string, limit: int,
                       allClusters: bool, store: Store, ghost rows: seq<Row>)
    returns (r: Listing)
    requires Issued(caller) && Serves(store, rows, limit)
    ensures r == NoReadableCluster <==>
            || (narrow && org == "")
            || (caller.ApiKey? && caller.clusters != [] && requested != "" && requested !in caller.clusters)
    ensures r != NoReadableCluster ==>
              r.Rows? && TopOf(Filter(rows, (x: Row) => CallerMay(caller, org, narrow, requested, x.cluster)
                                                        && AsksFor(cluster, allClusters, requested, x.cluster)),
                               limit, r.rows)
    ensures r.Rows? ==> forall x | x in r.rows ::
              && CallerMay(caller, org, narrow, requested, x.cluster)
              && (!allClusters && cluster != "" ==> x.cluster == cluster)
              && (!allClusters && cluster == "" && requested != "" ==> x.cluster == requested)
  {
    var scope := WithClusterScope(caller, org, narrow, requested);
    r := List(scope, cluster, limit, allClusters, store);
    EveryCallerReadsTopK(caller, org, narrow, requested, cluster, limit, allClusters, rows, store, r);
    if r.Rows? {
      ghost var wanted := Filter(rows, (x: Row) => CallerMay(caller, org, narrow, requested, x.cluster)
                                                   && AsksFor(cluster, allClusters, requested, x.cluster));
      forall x | x in r.rows ensures x in wanted {
        assert x in multiset(r.rows);
      }
    }
  }

  /** A caller is told it reads no cluster exactly when it asked by name for one it
      is not entitled to, or asked for none and is entitled to nothing. */
  lemma ForeignRequestOpensNothing(scope: ClusterScope, id: string, limit: int, store: Store, r: Listing)
    requires Answers(scope, id, limit, store, r)
    ensures r == NoReadableCluster <==>
            && scope.narrowed
            && (scope.EntitledToNothing() || (scope.requested != "" && scope.requested !in scope.allowed))
  {
    if scope.narrowed && scope.requested != "" && scope.requested in scope.allowed {
      assert scope.requested in scope.Readable();
    }
    if scope.narrowed && scope.requested == "" && scope.allowed != {} {
      var c :| c in scope.allowed;
      assert c in scope.Readable();
    }
  }

  // ---- the one case that fails ----

  function Letters(n: nat): string { seq(n, _ => 'x') }

  /** Some cluster is not among finitely many. */
  lemma {:induction false} SomeOther(ids: set<string>) returns (n: nat)
    ensures 0 < n && forall m: nat | m >= n :: Letters(m) !in ids
    decreases |ids|
  {
    if ids == {} {
      n := 1;
    } else {
      var id :| id in ids;
      n := SomeOther(ids - {id});
      n := n + |id| + 1;
    }
  }

  /** Rows of one cluster, all newer than time 0. */
  function Foreign(cluster: string, n: nat): seq<Row> { seq(n, (i: nat) => Row(cluster, 1, i)) }

  const NAMELESS := Row("", 0, 0)

  /** As many newer rows of a cluster the caller may not read as the limit lets through, and one of its own. */
  function Crowd(other: string, limit: nat): seq<Row> { Foreign(other, limit) + [NAMELESS] }

  function CrowdStore(other: string, limit: nat): Store {
    id => Some(if id == "" || id == other then Foreign(other, limit) else [])
  }

  lemma CrowdOf(other: string, limit: nat, id: string)
    requires other != "" && limit > 0
    ensures OfId(Crowd(other, limit), id) ==
            if id == "" then Crowd(other, limit) else if id == other then Foreign(other, limit) else []
  {
    var keep := (r: Row) => id == "" || r.cluster == id;
    FilterConcat(Foreign(other, limit), [NAMELESS], keep);
    FilterAll(Foreign(other, limit), keep);
    FilterAll([NAMELESS], keep);
    if id != "" {
      NoneKept([NAMELESS], keep);
      if id != other { NoneKept(Foreign(other, limit), keep); }
    }
  }

  lemma CrowdIsServed(other: string, limit: nat)
    requires other != "" && limit > 0
    ensures Serves(CrowdStore(other, limit), Crowd(other, limit), limit)
  {
    CrowdTop(other, limit);
    forall id ensures CrowdStore(other, limit)(id).Some?
                      && TopOf(OfId(Crowd(other, limit), id), limit, CrowdStore(other, limit)(id).value)
    {
      CrowdOf(other, limit, id);
    }
  }

  lemma CrowdTop(other: string, limit: nat)
    requires limit > 0
    ensures TopOf(Crowd(other, limit), limit, Foreign(other, limit))
    ensures TopOf(Foreign(other, limit), limit, Foreign(other, limit))
  {
  }

  lemma {:induction false} CrowdMergesToNothing(other: string, limit: nat, ids: seq<string>)
    requires other != "" && other !in ids
    ensures Merge(ids, CrowdStore(other, limit)) == []
  {
    if ids != [] {
      var n := |ids| - 1;
      CrowdMergesToNothing(other, limit, ids[..n]);
      NoneKept(CrowdStore(other, limit)(ids[n]).value, (r: Row) => r.cluster == ids[n]);
    }
  }

  lemma CrowdAnswersNothing(scope: ClusterScope, other: string, limit: nat, r: Listing)
    requires NamelessListed(scope, "", limit) && other != "" && other !in scope.allowed
    requires Answers(scope, "", limit, CrowdStore(other, limit), r)
    ensures r == Rows([])
  {
    var store := CrowdStore(other, limit);
    var ids :| multiset(ids) == multiset(scope.Readable()) && Merged(ids, store, limit, r.rows);
    OnceEach(ids, scope.Readable());
    CrowdMergesToNothing(other, limit, ids);
    var s :| multiset(s) == multiset(Merge(ids, store)) && NewestFirst(s) && r.rows == Cut(s, limit);
    SameLength(s, Merge(ids, store));
  }

  /** In that case some store, answering as promised, makes List lose the
      caller's own row: an id of "" asks the store for the whole org. */
  lemma NamelessListedFails(scope: ClusterScope, limit: int) returns (rows: seq<Row>, store: Store)
    requires NamelessListed(scope, "", limit)
    ensures Serves(store, rows, limit)
    ensures forall r | Answers(scope, "", limit, store, r) :: r == Rows([])
    ensures !TopOf(Wanted(scope, rows, ""), limit, [])
  {
    var n := SomeOther(scope.allowed);
    var other := Letters(n);
    rows, store := Crowd(other, limit), CrowdStore(other, limit);
    CrowdIsServed(other, limit);
    forall r | Answers(scope, "", limit, store, r) ensures r == Rows([]) {
      CrowdAnswersNothing(scope, other, limit, r);
    }
    assert rows[limit] == NAMELESS;
    assert NAMELESS in Wanted(scope, rows, "");
  }
}
