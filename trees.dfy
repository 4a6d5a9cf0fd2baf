/**
 * The two trees the view draws: the backend tree rooted at the proxy instance
 * (middleware group, TLS group, one node per linked service with its servers) and the
 * frontage tree rooted at the internet (one node per entrypoint and the group of
 * configured routes). Nodes hold what the view shows of each entity; colours, images
 * and markup are not modelled.
 */
module Trees {
  import opened Wrappers
  import opened Text
  import opened Dicts
  import opened Topology
  import opened Links

  const InstanceName := "Traefik Instance"
  const InternetName := "Internet / Entrypoints"
  const MiddlewaresName := "Middlewares"
  const CertificatesName := "TLS Certificates"
  const RoutesGroupName := "Configured Routes"
  const UnknownCertificate := "Unknown Certificate"
  const UnknownStatus := "Unknown"
  const DefaultTransport := "TCP"
  const NoEntryPoints := "N/A"
  const ListSeparator := ", "

  /** What a route node says about the service it names. */
  datatype ServiceLink = Resolved(name: string, provider: string) | NotFound(key: string)

  /** Where a certificate node's name comes from. */
  datatype CertificateName = FromMain(main: string) | FromDomains(main: string) | Unnamed

  datatype Details =
    | NoDetails
    | InstanceInfo(summary: string)
    | EntrypointInfo(address: string, transport: string)
    | MiddlewareInfo(provider: string, kind: string, stripPrefixes: Option<string>, headersModified: bool)
    | CertificateInfo(source: CertificateName, sans: Option<string>)
    | ServerInfo(url: string, status: string)
    | ServiceInfo(provider: string, kind: string)
    | RouteInfo(
        rule: string, entryPoints: string, provider: string, middlewares: Option<string>,
        backend: string, service: ServiceLink, link: Option<string>)

  /** A tree node; `key` is set on service nodes only, which the router loop looks up by it. */
  datatype Node = Node(name: string, key: Option<string>, details: Details, children: seq<Node>)

  function Group(name: string): Node {
    Node(name, None, NoDetails, [])
  }

  function JoinedOpt(xs: Option<seq<string>>): Option<string> {
    if xs.Some? then Some(Join(xs.value, ListSeparator)) else None
  }

  // ---------------------------------------------------------------------------------
  // Roots, entrypoints, middlewares and certificates
  // ---------------------------------------------------------------------------------

  /** The backend root; its details show the version when the overview has one. */
  function InstanceRoot(version: string): Node {
    Node(InstanceName, None, InstanceInfo(if version != "" then "Version: " + version else "Traefik Core"), [])
  }

  function InternetRoot(): Node {
    Group(InternetName)
  }

  function EntrypointNode(key: string, ep: Entrypoint): Node {
    Node(key, None, EntrypointInfo(ep.address, if ep.protocol != "" then ep.protocol else DefaultTransport), [])
  }

  /** The entrypoint nodes, in the order of `Object.entries(entrypoints)`. */
  function EntrypointNodesOf(eps: Object<Entrypoint>): seq<Node> {
    seq(|eps.keys|, i requires 0 <= i < |eps.keys| => EntrypointNode(eps.keys[i], eps.entries[eps.keys[i]]))
  }

  method EntrypointNodes(eps: Object<Entrypoint>) returns (nodes: seq<Node>)
    ensures nodes == EntrypointNodesOf(eps)
    ensures |nodes| == |eps.keys|
    ensures forall i :: 0 <= i < |nodes| ==> nodes[i] == EntrypointNode(eps.keys[i], eps.entries[eps.keys[i]])
  {
    nodes := [];
    var i := 0;
    while i < |eps.keys|
      invariant 0 <= i <= |eps.keys|
      invariant |nodes| == i
      invariant forall j :: 0 <= j < i ==> nodes[j] == EntrypointNode(eps.keys[j], eps.entries[eps.keys[j]])
    {
      var key := eps.keys[i];
      nodes := nodes + [EntrypointNode(key, eps.entries[key])];
      i := i + 1;
    }
  }

  /** A middleware node, named by the part of its key before the last '@'. */
  function MiddlewareNode(key: string, mw: Middleware): Node {
    var split := SplitAtLastAt(key);
    Node(split.0, None, MiddlewareInfo(split.1, mw.kind, JoinedOpt(mw.stripPrefixes), mw.customHeaders), [])
  }

  /** The middleware nodes, in the order of `Object.keys(middlewares)`. */
  function MiddlewareNodesOf(mws: Object<Middleware>): seq<Node> {
    seq(|mws.keys|, i requires 0 <= i < |mws.keys| => MiddlewareNode(mws.keys[i], mws.entries[mws.keys[i]]))
  }

  function MiddlewareGroupOf(mws: Object<Middleware>): Option<Node> {
    if mws.keys == [] then None else Some(Group(MiddlewaresName).(children := MiddlewareNodesOf(mws)))
  }

  /** The "Middlewares" group, present exactly when there are middlewares. */
  method MiddlewareGroup(mws: Object<Middleware>) returns (group: Option<Node>)
    ensures group == MiddlewareGroupOf(mws)
    ensures group.Some? <==> mws.keys != []
    ensures group.Some? ==> group.value.name == MiddlewaresName && group.value.key.None?
    ensures group.Some? ==> |group.value.children| == |mws.keys|
    ensures group.Some? ==>
      forall i :: 0 <= i < |mws.keys| ==> group.value.children[i] == MiddlewareNode(mws.keys[i], mws.entries[mws.keys[i]])
  {
    if mws.keys == [] {
      return None;
    }
    var children: seq<Node> := [];
    var i := 0;
    while i < |mws.keys|
      invariant 0 <= i <= |mws.keys| && |children| == i
      invariant forall j :: 0 <= j < i ==> children[j] == MiddlewareNodesOf(mws)[j]
    {
      var key := mws.keys[i];
      children := children + [MiddlewareNode(key, mws.entries[key])];
      i := i + 1;
    }
    assert children == MiddlewareNodesOf(mws);
    group := Some(Group(MiddlewaresName).(children := children));
  }

  /** A certificate node: named by `main`, else `domains.main`, else "Unknown Certificate". */
  function CertificateNode(c: Certificate): (n: Node)
    ensures n.name == if c.main != "" then c.main else if c.domainsMain != "" then c.domainsMain else UnknownCertificate
  {
    var source := if c.main != "" then FromMain(c.main) else if c.domainsMain != "" then FromDomains(c.domainsMain) else Unnamed;
    var name := match source case FromMain(m) => m case FromDomains(m) => m case Unnamed => UnknownCertificate;
    var sans :=
      if c.sans.Some? && |c.sans.value| > 0 then Some(Join(c.sans.value, ListSeparator))
      else if c.domainsSans.Some? && |c.domainsSans.value| > 0 then Some(Join(c.domainsSans.value, ListSeparator))
      else None;
    Node(name, None, CertificateInfo(source, sans), [])
  }

  function CertificateGroupOf(certs: seq<Certificate>): Option<Node> {
    if certs == [] then None
    else Some(Group(CertificatesName).(children := seq(|certs|, i requires 0 <= i < |certs| => CertificateNode(certs[i]))))
  }

  /** The "TLS Certificates" group, present exactly when there are certificates. */
  method CertificateGroup(certs: seq<Certificate>) returns (group: Option<Node>)
    ensures group == CertificateGroupOf(certs)
    ensures group.Some? <==> certs != []
    ensures group.Some? ==> group.value.name == CertificatesName && group.value.key.None?
    ensures group.Some? ==> |group.value.children| == |certs|
    ensures group.Some? ==> forall i :: 0 <= i < |certs| ==> group.value.children[i] == CertificateNode(certs[i])
  {
    if certs == [] {
      return None;
    }
    var children: seq<Node> := [];
    var i := 0;
    while i < |certs|
      invariant 0 <= i <= |certs| && |children| == i
      invariant forall j :: 0 <= j < i ==> children[j] == CertificateNode(certs[j])
    {
      children := children + [CertificateNode(certs[i])];
      i := i + 1;
    }
    assert children == CertificateGroupOf(certs).value.children;
    group := Some(Group(CertificatesName).(children := children));
  }

  function AsList(n: Option<Node>): seq<Node> {
    if n.Some? then [n.value] else []
  }

  /** The backend root's children before the router loop: the optional groups, in this order. */
  function BackendGroups(mws: Object<Middleware>, certs: seq<Certificate>): seq<Node> {
    AsList(MiddlewareGroupOf(mws)) + AsList(CertificateGroupOf(certs))
  }

  /** The groups carry no key, and each contributes one leaf per middleware or certificate. */
  lemma BackendGroupsShape(mws: Object<Middleware>, certs: seq<Certificate>)
    ensures forall i :: 0 <= i < |BackendGroups(mws, certs)| ==> BackendGroups(mws, certs)[i].key.None?
    ensures |BackendGroups(mws, certs)| == (if mws.keys == [] then 0 else 1) + (if certs == [] then 0 else 1)
    ensures Leaves(BackendGroups(mws, certs)) == |mws.keys| + |certs|
  {
    var a := AsList(MiddlewareGroupOf(mws));
    var b := AsList(CertificateGroupOf(certs));
    LeavesAppend(a, b);
    assert Leaves(a) == |mws.keys| by {
      if a != [] { assert a[..0] == []; }
    }
    assert Leaves(b) == |certs| by {
      if b != [] { assert b[..0] == []; }
    }
  }

  /** The entrypoint nodes are named by their keys, so the routes group is missing exactly when no entrypoint is named like it. */
  lemma EntrypointNodesNames(eps: Object<Entrypoint>)
    ensures FindByName(EntrypointNodesOf(eps), RoutesGroupName) < 0 <==> RoutesGroupName !in eps.keys
  {
    var nodes := EntrypointNodesOf(eps);
    if RoutesGroupName in eps.keys {
      var i :| 0 <= i < |eps.keys| && eps.keys[i] == RoutesGroupName;
      assert nodes[i].name == RoutesGroupName;
    }
  }

  // ---------------------------------------------------------------------------------
  // The service map
  // ---------------------------------------------------------------------------------

  /** Only load-balancer services with a `servers` list are visualised. */
  predicate Mapped(s: Service) {
    s.kind == LoadBalancer && s.servers.Some?
  }

  /** A server's status is its `serverStatus` entry when that is set, else "Unknown". */
  function ServerNode(s: Service, srv: Server): (n: Node)
    ensures n.name == srv.address && n.details.ServerInfo? && n.details.url == srv.address
    ensures n.details.status == UnknownStatus <==>
      srv.address !in s.serverStatus || s.serverStatus[srv.address] in {"", UnknownStatus}
    ensures srv.address in s.serverStatus && s.serverStatus[srv.address] != "" ==>
      n.details.status == s.serverStatus[srv.address]
  {
    var status :=
      if srv.address in s.serverStatus && s.serverStatus[srv.address] != "" then s.serverStatus[srv.address]
      else UnknownStatus;
    Node(srv.address, None, ServerInfo(srv.address, status), [])
  }

  /** An entry of `serviceMap`. */
  datatype ServiceEntry = ServiceEntry(key: string, name: string, provider: string, children: seq<Node>, details: Details)

  function EntryOf(s: Service): (e: ServiceEntry)
    requires Mapped(s)
    ensures e.key == ServiceKey(s) && |e.children| == |s.servers.value|
    ensures forall i :: 0 <= i < |e.children| ==> e.children[i] == ServerNode(s, s.servers.value[i])
  {
    var servers := s.servers.value;
    ServiceEntry(ServiceKey(s), s.name, s.provider,
      seq(|servers|, i requires 0 <= i < |servers| => ServerNode(s, servers[i])),
      ServiceInfo(s.provider, s.kind))
  }

  /** The service node added to the backend tree for an entry. */
  function EntryNode(e: ServiceEntry): Node {
    Node(e.name, Some(e.key), e.details, e.children)
  }

  /** The service loop as a fold over `Object.values(services)`; a later service overwrites an earlier one. */
  function ServiceMapOf(vals: seq<Service>): map<string, ServiceEntry>
    decreases |vals|
  {
    if vals == [] then map[]
    else
      var m := ServiceMapOf(vals[..|vals| - 1]);
      var s := vals[|vals| - 1];
      if Mapped(s) then m[ServiceKey(s) := EntryOf(s)] else m
  }

  method BuildServiceMap(services: Object<Service>) returns (m: map<string, ServiceEntry>)
    ensures m == ServiceMapOf(Values(services))
  {
    var vals := Values(services);
    m := map[];
    var i := 0;
    while i < |vals|
      invariant 0 <= i <= |vals|
      invariant m == ServiceMapOf(vals[..i])
    {
      assert vals[..i + 1][..i] == vals[..i];
      assert ServiceMapOf(vals[..i + 1]) ==
        if Mapped(vals[i]) then ServiceMapOf(vals[..i])[ServiceKey(vals[i]) := EntryOf(vals[i])] else ServiceMapOf(vals[..i]);
      var s := vals[i];
      if Mapped(s) {
        m := m[ServiceKey(s) := EntryOf(s)];
      }
      i := i + 1;
    }
    assert vals[..|vals|] == vals;
  }

  /** Every entry is stored under its own key. */
  ghost predicate EntriesKeyed(sm: map<string, ServiceEntry>) {
    forall k :: k in sm ==> sm[k].key == k
  }

  /** A key is in the service map exactly when a visualised service has it, stored under that key. */
  lemma {:induction false} ServiceMapKeys(vals: seq<Service>)
    ensures EntriesKeyed(ServiceMapOf(vals))
    ensures forall k :: k in ServiceMapOf(vals) <==> exists i :: 0 <= i < |vals| && Mapped(vals[i]) && ServiceKey(vals[i]) == k
    decreases |vals|
  {
    if vals != [] {
      var p := vals[..|vals| - 1];
      ServiceMapKeys(p);
      forall k ensures k in ServiceMapOf(vals) <==> exists i :: 0 <= i < |vals| && Mapped(vals[i]) && ServiceKey(vals[i]) == k {
        if k in ServiceMapOf(p) {
          var i :| 0 <= i < |p| && Mapped(p[i]) && ServiceKey(p[i]) == k;
          assert vals[i] == p[i];
        }
        if exists i :: 0 <= i < |vals| && Mapped(vals[i]) && ServiceKey(vals[i]) == k {
          var i :| 0 <= i < |vals| && Mapped(vals[i]) && ServiceKey(vals[i]) == k;
          if i < |p| {
            assert p[i] == vals[i];
          }
        }
      }
    }
  }

  /** A key of the service map has a last visualised service carrying it. */
  lemma {:induction false} ServiceMapLast(vals: seq<Service>, k: string) returns (i: nat)
    requires k in ServiceMapOf(vals)
    ensures i < |vals| && Mapped(vals[i]) && ServiceKey(vals[i]) == k
    ensures forall j :: i < j < |vals| ==> !(Mapped(vals[j]) && ServiceKey(vals[j]) == k)
    decreases |vals|
  {
    var p := vals[..|vals| - 1];
    var s := vals[|vals| - 1];
    if Mapped(s) && ServiceKey(s) == k {
      i := |vals| - 1;
    } else {
      i := ServiceMapLast(p, k);
      assert p[i] == vals[i];
      forall j | i < j < |p| ensures !(Mapped(vals[j]) && ServiceKey(vals[j]) == k) {
        assert p[j] == vals[j];
      }
    }
  }

  /** Where several visualised services share a key, the entry is built from the last of them. */
  lemma {:induction false} ServiceMapLastWins(vals: seq<Service>, i: nat)
    requires i < |vals| && Mapped(vals[i])
    requires forall j :: i < j < |vals| ==> !(Mapped(vals[j]) && ServiceKey(vals[j]) == ServiceKey(vals[i]))
    ensures ServiceKey(vals[i]) in ServiceMapOf(vals)
    ensures ServiceMapOf(vals)[ServiceKey(vals[i])] == EntryOf(vals[i])
    decreases |vals|
  {
    var p := vals[..|vals| - 1];
    if i < |p| {
      assert p[i] == vals[i];
      forall j | i < j < |p| ensures !(Mapped(p[j]) && ServiceKey(p[j]) == ServiceKey(p[i])) {
        assert p[j] == vals[j];
      }
      ServiceMapLastWins(p, i);
    }
  }

  // ---------------------------------------------------------------------------------
  // The router loop
  // ---------------------------------------------------------------------------------

  /** `children.find(c => c.name === name)`, as the index of the first such node, or -1. */
  function FindByName(nodes: seq<Node>, name: string): (i: int)
    ensures -1 <= i < |nodes|
    ensures 0 <= i ==> nodes[i].name == name
    ensures forall j :: 0 <= j < |nodes| && (i < 0 || j < i) ==> nodes[j].name != name
  {
    if nodes == [] then -1
    else if nodes[0].name == name then 0
    else var j := FindByName(nodes[1..], name); if j < 0 then -1 else j + 1
  }

  /** `children.find(n => n.key === key)` finds something. */
  predicate HasKey(nodes: seq<Node>, key: string) {
    exists i | 0 <= i < |nodes| :: nodes[i].key == Some(key)
  }

  /** What a route's details say about its service key: the entry's name and provider, or not found. */
  function ServiceLinkOf(key: string, sm: map<string, ServiceEntry>): ServiceLink {
    if key in sm then Resolved(sm[key].name, sm[key].provider) else NotFound(key)
  }

  /** The node of a route, for a router that names a service. */
  function RouteNode(r: Router, sm: map<string, ServiceEntry>): Node
    requires r.service != ""
  {
    var key := ServiceRef(r).value;
    var entryPoints := if r.entryPoints.Some? then Join(r.entryPoints.value, ListSeparator) else NoEntryPoints;
    Node(r.name, None, RouteInfo(r.rule, entryPoints, r.provider, JoinedOpt(r.middlewares), key, ServiceLinkOf(key, sm), RuleLink(r)), [])
  }

  /**
   * A route node is a leaf named after its router. It records the router's `service@provider`
   * key, resolves that key through `serviceMap` or marks it not found, and carries the rule's link.
   */
  lemma RouteNodeDetails(r: Router, sm: map<string, ServiceEntry>)
    requires r.service != ""
    ensures var n := RouteNode(r, sm);
      && n.name == r.name && n.key.None? && n.children == [] && n.details.RouteInfo?
      && n.details.backend == r.service + "@" + r.provider
      && (n.details.service.NotFound? <==> n.details.backend !in sm)
      && (n.details.service.Resolved? ==>
            n.details.service == Resolved(sm[n.details.backend].name, sm[n.details.backend].provider))
      && n.details.link == RuleLink(r)
  {
  }

  /** The children of the two roots, which the router loop extends. */
  datatype Sides = Sides(frontage: seq<Node>, backend: seq<Node>)

  /** `frontage[at].children.push(node)` */
  function PushChild(frontage: seq<Node>, at: nat, node: Node): seq<Node>
    requires at < |frontage|
  {
    frontage[at := frontage[at].(children := frontage[at].children + [node])]
  }

  /** One router: its node goes to the routes group (added when missing), its service node to the backend once. */
  function LinkStep(sides: Sides, r: Router, sm: map<string, ServiceEntry>): Sides {
    if r.service == "" then sides
    else
      var key := ServiceRef(r).value;
      var g := FindByName(sides.frontage, RoutesGroupName);
      var frontage := if g < 0 then sides.frontage + [Group(RoutesGroupName)] else sides.frontage;
      var at := if g < 0 then |sides.frontage| else g;
      var backend := if key in sm && !HasKey(sides.backend, key) then sides.backend + [EntryNode(sm[key])] else sides.backend;
      Sides(PushChild(frontage, at, RouteNode(r, sm)), backend)
  }

  /** The router loop as a fold over `Object.values(routers)`. */
  function Linked(vals: seq<Router>, sm: map<string, ServiceEntry>, start: Sides): Sides
    decreases |vals|
  {
    if vals == [] then start
    else LinkStep(Linked(vals[..|vals| - 1], sm, start), vals[|vals| - 1], sm)
  }

  /** The `forEach` callback of the router loop, on the children of the two roots. */
  method LinkOne(frontage0: seq<Node>, backend0: seq<Node>, r: Router, sm: map<string, ServiceEntry>)
    returns (frontage: seq<Node>, backend: seq<Node>)
    ensures Sides(frontage, backend) == LinkStep(Sides(frontage0, backend0), r, sm)
  {
    frontage, backend := frontage0, backend0;
    if r.service != "" {
      var key := ServiceRef(r).value;
      var at := FindByName(frontage, RoutesGroupName);
      if at < 0 {
        frontage := frontage + [Group(RoutesGroupName)];
        at := |frontage| - 1;
      }
      frontage := PushChild(frontage, at, RouteNode(r, sm));
      if key in sm && !HasKey(backend, key) {
        backend := backend + [EntryNode(sm[key])];
      }
    }
  }

  method LinkRouters(routers: Object<Router>, sm: map<string, ServiceEntry>, start: Sides) returns (sides: Sides)
    ensures sides == Linked(Values(routers), sm, start)
  {
    var vals := Values(routers);
    var frontage := start.frontage;
    var backend := start.backend;
    var i := 0;
    while i < |vals|
      invariant 0 <= i <= |vals|
      invariant Sides(frontage, backend) == Linked(vals[..i], sm, start)
    {
      assert vals[..i + 1][..i] == vals[..i];
      frontage, backend := LinkOne(frontage, backend, vals[i], sm);
      i := i + 1;
    }
    assert vals[..|vals|] == vals;
    sides := Sides(frontage, backend);
  }

  /** The route nodes of the routers that name a service, in router order. */
  function RoutesOf(vals: seq<Router>, sm: map<string, ServiceEntry>): seq<Node>
    decreases |vals|
  {
    if vals == [] then []
    else
      var rs := RoutesOf(vals[..|vals| - 1], sm);
      var r := vals[|vals| - 1];
      if r.service != "" then rs + [RouteNode(r, sm)] else rs
  }

  /** One route node per router that names a service, and no other. */
  lemma RoutesOfSpec(vals: seq<Router>, sm: map<string, ServiceEntry>)
    ensures RoutesOf(vals, sm) == [] <==> forall i :: 0 <= i < |vals| ==> vals[i].service == ""
    ensures forall n :: n in RoutesOf(vals, sm) <==>
      exists i :: 0 <= i < |vals| && vals[i].service != "" && n == RouteNode(vals[i], sm)
  {
    RoutesOfEmpty(vals, sm);
    RoutesOfMembers(vals, sm);
  }

  lemma {:induction false} RoutesOfEmpty(vals: seq<Router>, sm: map<string, ServiceEntry>)
    ensures RoutesOf(vals, sm) == [] <==> forall i :: 0 <= i < |vals| ==> vals[i].service == ""
    decreases |vals|
  {
    if vals != [] {
      var p := vals[..|vals| - 1];
      RoutesOfEmpty(p, sm);
      assert forall i :: 0 <= i < |p| ==> p[i] == vals[i];
    }
  }

  lemma {:induction false} RoutesOfMembers(vals: seq<Router>, sm: map<string, ServiceEntry>)
    ensures forall n :: n in RoutesOf(vals, sm) <==>
      exists i :: 0 <= i < |vals| && vals[i].service != "" && n == RouteNode(vals[i], sm)
    decreases |vals|
  {
    if vals != [] {
      var p := vals[..|vals| - 1];
      var r := vals[|vals| - 1];
      RoutesOfMembers(p, sm);
      assert forall i :: 0 <= i < |p| ==> p[i] == vals[i];
      if r.service != "" {
        var node := RouteNode(r, sm);
        InAppend(RoutesOf(p, sm), node);
        assert vals[|vals| - 1].service != "" && node == RouteNode(vals[|vals| - 1], sm);
      }
    }
  }

  lemma InAppend<T>(xs: seq<T>, y: T)
    ensures forall x :: x in xs + [y] <==> x in xs || x == y
  {
  }

  /** The service keys in the order the routers first reference them, when the service map has them. */
  function FirstRefs(vals: seq<Router>, sm: map<string, ServiceEntry>): seq<string>
    decreases |vals|
  {
    if vals == [] then []
    else
      var ks := FirstRefs(vals[..|vals| - 1], sm);
      var ref := ServiceRef(vals[|vals| - 1]);
      if ref.Some? && ref.value in sm && ref.value !in ks then ks + [ref.value] else ks
  }

  /** The service nodes for a list of keys of the service map. */
  function EntryNodes(sm: map<string, ServiceEntry>, ks: seq<string>): (r: seq<Node>)
    requires forall i :: 0 <= i < |ks| ==> ks[i] in sm
    ensures |r| == |ks|
    ensures forall i :: 0 <= i < |ks| ==> r[i] == EntryNode(sm[ks[i]])
  {
    seq(|ks|, i requires 0 <= i < |ks| => EntryNode(sm[ks[i]]))
  }

  /** The routes group holds one node per router naming a service, in router order, when no entrypoint takes its name. */
  lemma {:induction false} LinkedFrontage(vals: seq<Router>, sm: map<string, ServiceEntry>, start: Sides)
    requires FindByName(start.frontage, RoutesGroupName) < 0
    ensures Linked(vals, sm, start).frontage ==
      if RoutesOf(vals, sm) == [] then start.frontage
      else start.frontage + [Group(RoutesGroupName).(children := RoutesOf(vals, sm))]
    decreases |vals|
  {
    if vals != [] {
      var p := vals[..|vals| - 1];
      var r := vals[|vals| - 1];
      LinkedFrontage(p, sm, start);
      var f := Linked(p, sm, start).frontage;
      if r.service != "" {
        var node := RouteNode(r, sm);
        assert RoutesOf(vals, sm) == RoutesOf(p, sm) + [node];
        if RoutesOf(p, sm) == [] {
          LinkStepNewGroup(Linked(p, sm, start), r, sm);
          assert RoutesOf(vals, sm) == [node];
        } else {
          var g := |start.frontage|;
          assert f[g].name == RoutesGroupName;
          assert FindByName(f, RoutesGroupName) == g;
          LinkStepFrontage(Linked(p, sm, start), r, sm, g);
          assert PushChild(f, g, node) == start.frontage + [Group(RoutesGroupName).(children := RoutesOf(p, sm) + [node])];
        }
      } else {
        assert Linked(vals, sm, start).frontage == f;
        assert RoutesOf(vals, sm) == RoutesOf(p, sm);
      }
    }
  }

  /** A router naming a service, with no routes group yet, adds the group holding its node. */
  lemma LinkStepNewGroup(sides: Sides, r: Router, sm: map<string, ServiceEntry>)
    requires r.service != "" && FindByName(sides.frontage, RoutesGroupName) < 0
    ensures LinkStep(sides, r, sm).frontage == sides.frontage + [Group(RoutesGroupName).(children := [RouteNode(r, sm)])]
  {
    var f := sides.frontage + [Group(RoutesGroupName)];
    assert Group(RoutesGroupName).children + [RouteNode(r, sm)] == [RouteNode(r, sm)];
    assert PushChild(f, |sides.frontage|, RouteNode(r, sm)) == sides.frontage + [Group(RoutesGroupName).(children := [RouteNode(r, sm)])];
  }

  /**
   * When a frontage child is already named like the routes group (an entrypoint of that
   * name), the route nodes are appended to that child's children and no group is added.
   */
  lemma {:induction false} LinkedFrontageCollision(vals: seq<Router>, sm: map<string, ServiceEntry>, start: Sides, g: nat)
    requires g == FindByName(start.frontage, RoutesGroupName)
    ensures Linked(vals, sm, start).frontage ==
      start.frontage[g := start.frontage[g].(children := start.frontage[g].children + RoutesOf(vals, sm))]
    decreases |vals|
  {
    if vals == [] {
      assert start.frontage[g].children + [] == start.frontage[g].children;
    } else {
      var p := vals[..|vals| - 1];
      var r := vals[|vals| - 1];
      LinkedFrontageCollision(p, sm, start, g);
      var f := Linked(p, sm, start).frontage;
      assert forall j :: 0 <= j < |f| ==> f[j].name == start.frontage[j].name;
      assert FindByName(f, RoutesGroupName) == g;
      if r.service != "" {
        var node := RouteNode(r, sm);
        LinkStepFrontage(Linked(p, sm, start), r, sm, g);
        PushAfterUpdate(start.frontage, g, RoutesOf(p, sm), node);
        assert RoutesOf(vals, sm) == RoutesOf(p, sm) + [node];
      } else {
        assert Linked(vals, sm, start).frontage == f;
        assert RoutesOf(vals, sm) == RoutesOf(p, sm);
      }
    }
  }

  /** A router naming a service, with the routes group found at `g`, adds its node there. */
  lemma LinkStepFrontage(sides: Sides, r: Router, sm: map<string, ServiceEntry>, g: nat)
    requires r.service != "" && g == FindByName(sides.frontage, RoutesGroupName)
    ensures LinkStep(sides, r, sm).frontage == PushChild(sides.frontage, g, RouteNode(r, sm))
  {
  }

  lemma PushAfterUpdate(nodes: seq<Node>, g: nat, c: seq<Node>, node: Node)
    requires g < |nodes|
    ensures PushChild(nodes[g := nodes[g].(children := nodes[g].children + c)], g, node) ==
      nodes[g := nodes[g].(children := nodes[g].children + (c + [node]))]
  {
    assert nodes[g].children + c + [node] == nodes[g].children + (c + [node]);
  }

  /** Each referenced service key that the map has appears once, in first-reference order. */
  lemma {:induction false} FirstRefsSpec(vals: seq<Router>, sm: map<string, ServiceEntry>)
    ensures forall i, j :: 0 <= i < j < |FirstRefs(vals, sm)| ==> FirstRefs(vals, sm)[i] != FirstRefs(vals, sm)[j]
    ensures forall k :: k in FirstRefs(vals, sm) <==>
      k in sm && exists i :: 0 <= i < |vals| && ServiceRef(vals[i]) == Some(k)
    decreases |vals|
  {
    if vals != [] {
      var p := vals[..|vals| - 1];
      FirstRefsSpec(p, sm);
      assert forall i :: 0 <= i < |p| ==> p[i] == vals[i];
    }
  }

  lemma HasKeyEntryNodes(start: seq<Node>, sm: map<string, ServiceEntry>, ks: seq<string>, k: string)
    requires forall i :: 0 <= i < |start| ==> start[i].key.None?
    requires EntriesKeyed(sm)
    requires forall i :: 0 <= i < |ks| ==> ks[i] in sm
    ensures HasKey(start + EntryNodes(sm, ks), k) <==> k in ks
  {
    var all := start + EntryNodes(sm, ks);
    if k in ks {
      var i :| 0 <= i < |ks| && ks[i] == k;
      assert all[|start| + i].key == Some(k);
    }
  }

  /** After key-less groups, distinct keys give service nodes found by exactly those keys, each once. */
  lemma EntryNodesKeys(groups: seq<Node>, sm: map<string, ServiceEntry>, ks: seq<string>)
    requires forall i :: 0 <= i < |groups| ==> groups[i].key.None?
    requires EntriesKeyed(sm)
    requires forall i :: 0 <= i < |ks| ==> ks[i] in sm
    requires forall i, j :: 0 <= i < j < |ks| ==> ks[i] != ks[j]
    ensures forall k :: HasKey(groups + EntryNodes(sm, ks), k) <==> k in ks
    ensures forall i, j :: 0 <= i < j < |groups + EntryNodes(sm, ks)| && (groups + EntryNodes(sm, ks))[i].key.Some? ==>
      (groups + EntryNodes(sm, ks))[i].key != (groups + EntryNodes(sm, ks))[j].key
  {
    forall k ensures HasKey(groups + EntryNodes(sm, ks), k) <==> k in ks {
      HasKeyEntryNodes(groups, sm, ks, k);
    }
    var b := groups + EntryNodes(sm, ks);
    forall i, j | 0 <= i < j < |b| && b[i].key.Some? ensures b[i].key != b[j].key {
      assert b[i].key == Some(ks[i - |groups|]) && b[j].key == Some(ks[j - |groups|]);
    }
  }

  /**
   * The backend gains, after its key-less groups, one service node per service key the
   * routers reference and the map has, in first-reference order.
   */
  lemma {:induction false} LinkedBackend(vals: seq<Router>, sm: map<string, ServiceEntry>, start: Sides)
    requires forall i :: 0 <= i < |start.backend| ==> start.backend[i].key.None?
    requires EntriesKeyed(sm)
    ensures forall i :: 0 <= i < |FirstRefs(vals, sm)| ==> FirstRefs(vals, sm)[i] in sm
    ensures Linked(vals, sm, start).backend == start.backend + EntryNodes(sm, FirstRefs(vals, sm))
    decreases |vals|
  {
    FirstRefsSpec(vals, sm);
    if vals != [] {
      var p := vals[..|vals| - 1];
      LinkedBackend(p, sm, start);
      var r := vals[|vals| - 1];
      var ks := FirstRefs(p, sm);
      if r.service != "" {
        HasKeyEntryNodes(start.backend, sm, ks, ServiceRef(r).value);
        if ServiceRef(r).value in sm && ServiceRef(r).value !in ks {
          assert EntryNodes(sm, ks + [ServiceRef(r).value]) == EntryNodes(sm, ks) + [EntryNode(sm[ServiceRef(r).value])];
        }
      }
    }
  }

  // ---------------------------------------------------------------------------------
  // Sizing
  // ---------------------------------------------------------------------------------

  const MinimumWidth := 300
  const BackendSpacing := 150
  const FrontageSpacing := 170

  /** `children.reduce((sum, c) => sum + (c.children ? c.children.length : 0), 0)` */
  function Leaves(nodes: seq<Node>): nat
    decreases |nodes|
  {
    if nodes == [] then 0 else Leaves(nodes[..|nodes| - 1]) + |nodes[|nodes| - 1].children|
  }

  lemma {:induction false} LeavesAppend(a: seq<Node>, b: seq<Node>)
    ensures Leaves(a + b) == Leaves(a) + Leaves(b)
    decreases |b|
  {
    if b == [] {
      assert a + b == a;
    } else {
      var b' := b[..|b| - 1];
      LeavesAppend(a, b');
      assert (a + b)[..|a + b| - 1] == a + b';
    }
  }

  /** The service nodes contribute their server counts. */
  lemma {:induction false} LeavesOfEntries(sm: map<string, ServiceEntry>, ks: seq<string>)
    requires forall i :: 0 <= i < |ks| ==> ks[i] in sm
    ensures Leaves(EntryNodes(sm, ks)) == ServerCount(sm, ks)
    decreases |ks|
  {
    if ks != [] {
      var p := ks[..|ks| - 1];
      LeavesOfEntries(sm, p);
      assert EntryNodes(sm, ks)[..|ks| - 1] == EntryNodes(sm, p);
    }
  }

  function ServerCount(sm: map<string, ServiceEntry>, ks: seq<string>): nat
    requires forall i :: 0 <= i < |ks| ==> ks[i] in sm
    decreases |ks|
  {
    if ks == [] then 0 else ServerCount(sm, ks[..|ks| - 1]) + |sm[ks[|ks| - 1]].children|
  }

  /** The backend's children: none exactly when there is nothing to show, and their leaf count. */
  lemma BackendChildrenSizing(mws: Object<Middleware>, certs: seq<Certificate>, sm: map<string, ServiceEntry>, ks: seq<string>)
    requires forall i :: 0 <= i < |ks| ==> ks[i] in sm
    ensures BackendGroups(mws, certs) + EntryNodes(sm, ks) == [] <==> (mws.keys == [] && certs == [] && ks == [])
    ensures Leaves(BackendGroups(mws, certs) + EntryNodes(sm, ks)) == |mws.keys| + |certs| + ServerCount(sm, ks)
  {
    BackendGroupsShape(mws, certs);
    LeavesAppend(BackendGroups(mws, certs), EntryNodes(sm, ks));
    LeavesOfEntries(sm, ks);
  }

  /** `Math.max(leaves * spacing, 300)` */
  function Width(leaves: nat, spacing: nat): (w: nat)
    ensures w >= MinimumWidth && w >= leaves * spacing
    ensures w == MinimumWidth || w == leaves * spacing
  {
    if leaves * spacing > MinimumWidth then leaves * spacing else MinimumWidth
  }

  /** More leaves never make a narrower tree. */
  lemma WidthMonotone(a: nat, b: nat, spacing: nat)
    requires a <= b
    ensures Width(a, spacing) <= Width(b, spacing)
  {
    assert a * spacing <= b * spacing;
  }

  datatype Direction = LeftToRight | RightToLeft

  /** One call of `createTree(svg, root, direction, width)`. */
  datatype Drawing = Drawing(root: Node, direction: Direction, width: nat)
}
