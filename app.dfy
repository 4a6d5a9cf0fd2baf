/**
 * The container hands its whole state record to the topology view as `data`. The
 * record carries routers, services and the query, but no overview, entrypoints,
 * middlewares or certificates, so in the running application those are always absent.
 */
module App {
  import opened Wrappers
  import opened Text
  import opened Dicts
  import opened Topology
  import opened Filter
  import opened Filtering
  import opened Trees
  import opened Flow
  import opened Reducer

  function SnapshotOf(s: DataState): Snapshot {
    Snapshot(s.routers, s.services, "", None, None, None, s.searchQuery)
  }

  /** Filtering empty collections leaves them empty. */
  lemma FilterOfNothing(c: Collections, q: string)
    requires c.entrypoints.keys == [] && c.middlewares.keys == [] && c.certificates == []
    ensures FilterAll(c, q).view.entrypoints.keys == []
    ensures FilterAll(c, q).view.middlewares.keys == []
    ensures FilterAll(c, q).view.certificates == []
  {
    SelectUpToKeys(c.entrypoints, EntrypointKeep(q), 0);
    SelectUpToKeys(c.middlewares, MiddlewareKeep(q), 0);
  }

  /** The application's snapshots show no entrypoint, middleware or certificate, filtered or not. */
  lemma AppShowsNoExtras(s: DataState)
    requires s.routers.Some? && s.services.Some?
    ensures Shown(SnapshotOf(s)).entrypoints.keys == [] && Shown(SnapshotOf(s)).middlewares.keys == []
    ensures Shown(SnapshotOf(s)).certificates == []
  {
    var snap := SnapshotOf(s);
    if Lower(snap.searchQuery) != "" {
      FilterOfNothing(Defaulted(snap), Lower(snap.searchQuery));
    }
  }

  /** Without middlewares and certificates the backend holds only service nodes. */
  lemma BackendWithoutGroups(v: Collections)
    requires v.middlewares.keys == [] && v.certificates == []
    ensures forall i :: 0 <= i < |SidesOf(v).backend| ==> SidesOf(v).backend[i].key.Some?
  {
    BackendShape(v);
    var sm := ServiceMapOf(Values(v.services));
    var ks := FirstRefs(Values(v.routers), sm);
    assert BackendGroups(v.middlewares, v.certificates) == [];
    assert SidesOf(v).backend == EntryNodes(sm, ks);
  }

  /** Without entrypoints the frontage holds at most the routes group. */
  lemma FrontageWithoutEntrypoints(v: Collections)
    requires v.entrypoints.keys == []
    ensures |SidesOf(v).frontage| <= 1
  {
    FrontageShape(v);
    assert EntrypointNodesOf(v.entrypoints) == [];
  }

  /**
   * In the application the backend tree holds only service nodes, and the frontage
   * tree at most the routes group: no entrypoint, middleware or certificate ever shows.
   */
  lemma AppTrees(s: DataState)
    requires s.routers.Some? && s.services.Some?
    ensures forall i :: 0 <= i < |SidesOf(Shown(SnapshotOf(s))).backend| ==> SidesOf(Shown(SnapshotOf(s))).backend[i].key.Some?
    ensures |SidesOf(Shown(SnapshotOf(s))).frontage| <= 1
    ensures View(SnapshotOf(s)).Drawn? ==> View(SnapshotOf(s)) == Render(Shown(SnapshotOf(s)), "")
  {
    AppShowsNoExtras(s);
    BackendWithoutGroups(Shown(SnapshotOf(s)));
    FrontageWithoutEntrypoints(Shown(SnapshotOf(s)));
  }
}
