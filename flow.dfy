/**
 * `loadData` of the topology view: the availability check, the search filter, the
 * "No results" cases, the two trees and their width hints. Drawing a tree is its
 * `Drawing` value; the SVG itself is not modelled.
 */
module Flow {
  import opened Wrappers
  import opened Text
  import opened Dicts
  import opened Topology
  import opened Filter
  import opened Filtering
  import opened Trees

  /** What one call of `loadData` leaves in the SVG. */
  datatype Outcome =
    | NotAvailable                 // routers or services missing: the SVG stays empty
    | NoResults(query: string)     // only the text `No results found for "<query>"`
    | Drawn(backend: Option<Drawing>, frontage: Option<Drawing>)

  predicate Available(snap: Snapshot) {
    snap.routers.Some? && snap.services.Some?
  }

  /** The collections with `|| {}` and `|| []` applied to the optional ones. */
  function Defaulted(snap: Snapshot): Collections
    requires Available(snap)
  {
    Collections(snap.routers.value, snap.services.value,
      snap.entrypoints.GetOr(Empty()), snap.middlewares.GetOr(Empty()), snap.tlsCertificates.GetOr([]))
  }

  /** The children of both roots once the router loop is done. */
  function SidesOf(v: Collections): Sides {
    Linked(Values(v.routers), ServiceMapOf(Values(v.services)),
      Sides(EntrypointNodesOf(v.entrypoints), BackendGroups(v.middlewares, v.certificates)))
  }

  /** The two trees, each drawn only when its root has children. */
  function Render(v: Collections, version: string): Outcome {
    var sides := SidesOf(v);
    Drawn(
      if sides.backend == [] then None
      else Some(Drawing(InstanceRoot(version).(children := sides.backend), LeftToRight, Width(Leaves(sides.backend), BackendSpacing))),
      if sides.frontage == [] then None
      else Some(Drawing(InternetRoot().(children := sides.frontage), RightToLeft, Width(|sides.frontage|, FrontageSpacing))))
  }

  /** The collections the trees are built from: the filtered ones under a query, else the snapshot's own. */
  function Shown(snap: Snapshot): Collections
    requires Available(snap)
  {
    if Lower(snap.searchQuery) != "" then FilterAll(Defaulted(snap), Lower(snap.searchQuery)).view else Defaulted(snap)
  }

  /** The whole of `loadData` as a function of the snapshot. */
  function View(snap: Snapshot): (o: Outcome)
    ensures o.NotAvailable? <==> !Available(snap)
    ensures o.NoResults? ==> o.query == Lower(snap.searchQuery)
    ensures o.Drawn? ==> o == Render(Shown(snap), snap.overviewVersion)
  {
    if !Available(snap) then NotAvailable
    else
      var c := Defaulted(snap);
      var q := Lower(snap.searchQuery);
      if q != "" && !FilterAll(c, q).anyMatched then NoResults(q)
      else
        var v := Shown(snap);
        if v.routers.keys == [] && v.services.keys == [] && q == "" then NoResults(q)
        else Render(v, snap.overviewVersion)
  }

  method LoadData(snap: Snapshot) returns (out: Outcome)
    ensures out == View(snap)
  {
    if snap.routers.None? || snap.services.None? {
      return NotAvailable;
    }
    var c := Defaulted(snap);
    var query := Lower(snap.searchQuery);
    var v := c;
    if query != "" {
      var f := ApplyFilter(c, query);
      if !f.anyMatched {
        return NoResults(query);
      }
      v := f.view;
    }
    if |v.routers.keys| == 0 && |v.services.keys| == 0 && query == "" {
      return NoResults(query);
    }
    out := Draw(v, snap.overviewVersion);
  }

  /** The tree-building and sizing part of `loadData`, once the collections to show are known. */
  method Draw(v: Collections, version: string) returns (out: Outcome)
    ensures out == Render(v, version)
  {
    var frontage := EntrypointNodes(v.entrypoints);
    var backend: seq<Node> := [];
    var middlewares := MiddlewareGroup(v.middlewares);
    if middlewares.Some? {
      backend := backend + [middlewares.value];
    }
    var certificates := CertificateGroup(v.certificates);
    if certificates.Some? {
      backend := backend + [certificates.value];
    }
    assert backend == BackendGroups(v.middlewares, v.certificates);
    var serviceMap := BuildServiceMap(v.services);
    var sides := LinkRouters(v.routers, serviceMap, Sides(frontage, backend));
    assert sides == SidesOf(v);
    var backendDrawing: Option<Drawing> := None;
    if |sides.backend| > 0 {
      backendDrawing := Some(Drawing(InstanceRoot(version).(children := sides.backend), LeftToRight, Width(Leaves(sides.backend), BackendSpacing)));
    }
    var frontageDrawing: Option<Drawing> := None;
    if |sides.frontage| > 0 {
      frontageDrawing := Some(Drawing(InternetRoot().(children := sides.frontage), RightToLeft, Width(|sides.frontage|, FrontageSpacing)));
    }
    out := Drawn(backendDrawing, frontageDrawing);
  }

  // ---------------------------------------------------------------------------------
  // Terminal and pass-through cases
  // ---------------------------------------------------------------------------------

  /** Nothing is built exactly when routers or services are missing. */
  lemma ViewNotAvailable(snap: Snapshot)
    ensures View(snap) == NotAvailable <==> snap.routers.None? || snap.services.None?
  {
  }

  /** Without a query the snapshot's collections are drawn as they are, unless routers and services are both empty. */
  lemma ViewPassThrough(snap: Snapshot)
    requires Available(snap) && snap.searchQuery == ""
    ensures snap.routers.value.keys == [] && snap.services.value.keys == [] ==> View(snap) == NoResults("")
    ensures snap.routers.value.keys != [] || snap.services.value.keys != [] ==>
      View(snap) == Render(Defaulted(snap), snap.overviewVersion)
  {
  }

  /**
   * With a query, only the "No results" message is produced exactly when the filter
   * leaves every collection empty; otherwise the filtered collections are drawn.
   */
  lemma ViewFiltered(snap: Snapshot)
    requires Available(snap) && snap.searchQuery != ""
    ensures Lower(snap.searchQuery) != ""
    ensures View(snap) == NoResults(Lower(snap.searchQuery)) <==>
      && FilterAll(Defaulted(snap), Lower(snap.searchQuery)).view.routers.keys == []
      && FilterAll(Defaulted(snap), Lower(snap.searchQuery)).view.services.keys == []
      && FilterAll(Defaulted(snap), Lower(snap.searchQuery)).view.entrypoints.keys == []
      && FilterAll(Defaulted(snap), Lower(snap.searchQuery)).view.middlewares.keys == []
      && FilterAll(Defaulted(snap), Lower(snap.searchQuery)).view.certificates == []
    ensures View(snap) != NoResults(Lower(snap.searchQuery)) ==>
      View(snap) == Render(FilterAll(Defaulted(snap), Lower(snap.searchQuery)).view, snap.overviewVersion)
  {
    FilterNothingMatched(Defaulted(snap), Lower(snap.searchQuery));
  }

  // ---------------------------------------------------------------------------------
  // The frontage tree
  // ---------------------------------------------------------------------------------

  /**
   * The frontage root's children are the entrypoint nodes, in order, then one
   * "Configured Routes" group holding one node per router that names a service, when
   * some router does and no entrypoint is named like the group.
   */
  lemma FrontageShape(v: Collections)
    requires RoutesGroupName !in v.entrypoints.keys
    ensures SidesOf(v).frontage ==
      EntrypointNodesOf(v.entrypoints) +
      (if RoutesOf(Values(v.routers), ServiceMapOf(Values(v.services))) == [] then []
       else [Group(RoutesGroupName).(children := RoutesOf(Values(v.routers), ServiceMapOf(Values(v.services))))])
  {
    EntrypointNodesNames(v.entrypoints);
    var start := Sides(EntrypointNodesOf(v.entrypoints), BackendGroups(v.middlewares, v.certificates));
    LinkedFrontage(Values(v.routers), ServiceMapOf(Values(v.services)), start);
  }

  /**
   * An entrypoint named "Configured Routes" takes the route nodes as its own children:
   * the frontage then has exactly one child per entrypoint.
   */
  lemma FrontageCollision(v: Collections)
    requires RoutesGroupName in v.entrypoints.keys
    ensures |SidesOf(v).frontage| == |v.entrypoints.keys|
    ensures exists i :: 0 <= i < |SidesOf(v).frontage| && SidesOf(v).frontage[i].name == RoutesGroupName &&
                        SidesOf(v).frontage[i].children == RoutesOf(Values(v.routers), ServiceMapOf(Values(v.services)))
  {
    EntrypointNodesNames(v.entrypoints);
    var eps := EntrypointNodesOf(v.entrypoints);
    var g := FindByName(eps, RoutesGroupName);
    var start := Sides(eps, BackendGroups(v.middlewares, v.certificates));
    LinkedFrontageCollision(Values(v.routers), ServiceMapOf(Values(v.services)), start, g);
    assert eps[g].children == [];
    assert SidesOf(v).frontage[g].children == [] + RoutesOf(Values(v.routers), ServiceMapOf(Values(v.services)));
  }

  // ---------------------------------------------------------------------------------
  // The backend tree
  // ---------------------------------------------------------------------------------

  /** The backend root's children: the optional groups, then the service nodes in first-reference order. */
  lemma BackendShape(v: Collections)
    ensures forall i :: 0 <= i < |FirstRefs(Values(v.routers), ServiceMapOf(Values(v.services)))| ==>
      FirstRefs(Values(v.routers), ServiceMapOf(Values(v.services)))[i] in ServiceMapOf(Values(v.services))
    ensures SidesOf(v).backend ==
      BackendGroups(v.middlewares, v.certificates) +
      EntryNodes(ServiceMapOf(Values(v.services)), FirstRefs(Values(v.routers), ServiceMapOf(Values(v.services))))
  {
    BackendGroupsShape(v.middlewares, v.certificates);
    ServiceMapKeys(Values(v.services));
    var start := Sides(EntrypointNodesOf(v.entrypoints), BackendGroups(v.middlewares, v.certificates));
    LinkedBackend(Values(v.routers), ServiceMapOf(Values(v.services)), start);
  }

  /**
   * The backend has a node for a service key exactly when some router references the
   * key and some load-balancer service with a server list has it, and at most one.
   */
  lemma BackendServiceNodes(v: Collections)
    ensures forall k :: HasKey(SidesOf(v).backend, k) <==>
      && (exists i :: 0 <= i < |Values(v.routers)| && ServiceRef(Values(v.routers)[i]) == Some(k))
      && (exists j :: 0 <= j < |Values(v.services)| && Mapped(Values(v.services)[j]) && ServiceKey(Values(v.services)[j]) == k)
    ensures forall i, j :: 0 <= i < j < |SidesOf(v).backend| && SidesOf(v).backend[i].key.Some? ==>
      SidesOf(v).backend[i].key != SidesOf(v).backend[j].key
  {
    var sm := ServiceMapOf(Values(v.services));
    BackendShape(v);
    BackendGroupsShape(v.middlewares, v.certificates);
    ServiceMapKeys(Values(v.services));
    FirstRefsSpec(Values(v.routers), sm);
    EntryNodesKeys(BackendGroups(v.middlewares, v.certificates), sm, FirstRefs(Values(v.routers), sm));
  }

  /**
   * A route is marked "Not Found/Visualized" exactly when no load-balancer service with
   * a server list has its key; otherwise it shows the name and provider of the last one.
   */
  lemma RouteServiceMarker(r: Router, services: seq<Service>)
    requires r.service != ""
    ensures RouteNode(r, ServiceMapOf(services)).details.service == NotFound(ServiceRef(r).value) <==>
      !exists j :: 0 <= j < |services| && Mapped(services[j]) && ServiceKey(services[j]) == ServiceRef(r).value
    ensures RouteNode(r, ServiceMapOf(services)).details.service.Resolved? ==>
      exists j :: 0 <= j < |services| && Mapped(services[j]) && ServiceKey(services[j]) == ServiceRef(r).value &&
        RouteNode(r, ServiceMapOf(services)).details.service == Resolved(services[j].name, services[j].provider) &&
        forall j' :: j < j' < |services| ==> !(Mapped(services[j']) && ServiceKey(services[j']) == ServiceRef(r).value)
  {
    var key := ServiceRef(r).value;
    var sm := ServiceMapOf(services);
    assert RouteNode(r, sm).details.service == ServiceLinkOf(key, sm);
    ServiceMapKeys(services);
    if key in sm {
      var j := ServiceMapLast(services, key);
      ServiceMapLastWins(services, j);
    }
  }

  // ---------------------------------------------------------------------------------
  // Sizing
  // ---------------------------------------------------------------------------------

  /**
   * The backend tree is drawn exactly when it has a group or a service node, and its
   * width counts a leaf per middleware, per certificate and per server of each service node.
   */
  lemma BackendSizing(v: Collections, version: string)
    ensures Render(v, version).backend.Some? <==>
      v.middlewares.keys != [] || v.certificates != [] || FirstRefs(Values(v.routers), ServiceMapOf(Values(v.services))) != []
    ensures forall i :: 0 <= i < |FirstRefs(Values(v.routers), ServiceMapOf(Values(v.services)))| ==>
      FirstRefs(Values(v.routers), ServiceMapOf(Values(v.services)))[i] in ServiceMapOf(Values(v.services))
    ensures Render(v, version).backend.Some? ==>
      Render(v, version).backend.value.width == Width(Leaves(SidesOf(v).backend), BackendSpacing)
    ensures Leaves(SidesOf(v).backend) ==
      |v.middlewares.keys| + |v.certificates| +
      ServerCount(ServiceMapOf(Values(v.services)), FirstRefs(Values(v.routers), ServiceMapOf(Values(v.services))))
  {
    var sm := ServiceMapOf(Values(v.services));
    var ks := FirstRefs(Values(v.routers), sm);
    BackendShape(v);
    BackendChildrenSizing(v.middlewares, v.certificates, sm, ks);
  }

  /**
   * The frontage tree is drawn exactly when there is an entrypoint or a router naming a
   * service; its width counts the entrypoints and the routes group.
   */
  lemma FrontageSizing(v: Collections, version: string)
    ensures Render(v, version).frontage.Some? <==>
      v.entrypoints.keys != [] || exists i :: 0 <= i < |Values(v.routers)| && Values(v.routers)[i].service != ""
    ensures RoutesGroupName !in v.entrypoints.keys && Render(v, version).frontage.Some? ==>
      Render(v, version).frontage.value.width ==
        Width(|v.entrypoints.keys| + (if exists i :: 0 <= i < |Values(v.routers)| && Values(v.routers)[i].service != "" then 1 else 0),
              FrontageSpacing)
  {
    RoutesOfSpec(Values(v.routers), ServiceMapOf(Values(v.services)));
    if RoutesGroupName in v.entrypoints.keys {
      FrontageCollision(v);
    } else {
      FrontageShape(v);
    }
  }
}
