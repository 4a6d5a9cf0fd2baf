/**
 * The search filter of the topology view (the first half of `loadData` in
 * src/components/ThreeJSFlow.js): a lower-cased query is matched against all five
 * entity kinds, with a cross-reference step between routers and services.
 *
 * Each `forEach` loop of the source is a method with a `while` loop, proved equal to a
 * fold written as a function; what the source promises is proved about the folds.
 */
module Filter {
  import opened Wrappers
  import opened Text
  import opened Dicts
  import opened Topology

  // ---------------------------------------------------------------------------
  // Direct-match predicates
  // ---------------------------------------------------------------------------

  /** `field && field.toLowerCase().includes(q)` */
  predicate Mentions(field: string, q: string) {
    field != "" && Contains(Lower(field), q)
  }

  /** `field.toLowerCase().includes(q)`, used where the source does not test the field first. */
  predicate Includes(field: string, q: string) {
    Contains(Lower(field), q)
  }

  /** A service matches on its name, its provider, a server address (load balancers only) or a status. */
  predicate ServiceMatches(s: Service, q: string) {
    || Mentions(s.name, q)
    || Mentions(s.provider, q)
    || (s.kind == LoadBalancer && s.servers.Some? &&
        exists i :: 0 <= i < |s.servers.value| && Mentions(s.servers.value[i].address, q))
    || (exists a :: a in s.serverStatus && Mentions(s.serverStatus[a], q))
  }

  /** A router matches on its own text: name, provider, rule or one of its entrypoints. */
  predicate RouterMatchesDirectly(r: Router, q: string) {
    || Mentions(r.name, q)
    || Mentions(r.provider, q)
    || Mentions(r.rule, q)
    || (r.entryPoints.Some? &&
        exists i :: 0 <= i < |r.entryPoints.value| && Mentions(r.entryPoints.value[i], q))
  }

  /** An entrypoint matches on its key or its address. */
  predicate EntrypointMatches(key: string, ep: Entrypoint, q: string) {
    Includes(key, q) || Mentions(ep.address, q)
  }

  /** A middleware matches on the name or the provider part of its key, split at the last '@'. */
  predicate MiddlewareMatches(key: string, q: string) {
    var (name, provider) := SplitAtLastAt(key);
    Includes(name, q) || Includes(provider, q)
  }

  /** A certificate matches on one of its `sans` entries (never on `domains.sans`). */
  predicate CertificateMatches(c: Certificate, q: string) {
    c.sans.Some? && exists i :: 0 <= i < |c.sans.value| && Includes(c.sans.value[i], q)
  }

  // Every test is a substring search, so shortening the query never loses a match:
  // whatever matches a query also matches any text the query contains.

  lemma MentionsNarrows(field: string, q: string, q': string)
    requires Contains(q, q')
    ensures Mentions(field, q) ==> Mentions(field, q')
    ensures Includes(field, q) ==> Includes(field, q')
  {
    if Contains(Lower(field), q) {
      ContainsTransitive(Lower(field), q, q');
    }
  }

  lemma ServiceMatchesNarrows(s: Service, q: string, q': string)
    requires Contains(q, q')
    ensures ServiceMatches(s, q) ==> ServiceMatches(s, q')
  {
    MentionsNarrows(s.name, q, q');
    MentionsNarrows(s.provider, q, q');
    if s.kind == LoadBalancer && s.servers.Some? &&
       exists i :: 0 <= i < |s.servers.value| && Mentions(s.servers.value[i].address, q) {
      var i :| 0 <= i < |s.servers.value| && Mentions(s.servers.value[i].address, q);
      MentionsNarrows(s.servers.value[i].address, q, q');
    }
    if exists a :: a in s.serverStatus && Mentions(s.serverStatus[a], q) {
      var a :| a in s.serverStatus && Mentions(s.serverStatus[a], q);
      MentionsNarrows(s.serverStatus[a], q, q');
    }
  }

  lemma RouterMatchesNarrows(r: Router, q: string, q': string)
    requires Contains(q, q')
    ensures RouterMatchesDirectly(r, q) ==> RouterMatchesDirectly(r, q')
  {
    MentionsNarrows(r.name, q, q');
    MentionsNarrows(r.provider, q, q');
    MentionsNarrows(r.rule, q, q');
    if r.entryPoints.Some? && exists i :: 0 <= i < |r.entryPoints.value| && Mentions(r.entryPoints.value[i], q) {
      var i :| 0 <= i < |r.entryPoints.value| && Mentions(r.entryPoints.value[i], q);
      MentionsNarrows(r.entryPoints.value[i], q, q');
    }
  }

  lemma EntrypointMatchesNarrows(key: string, ep: Entrypoint, q: string, q': string)
    requires Contains(q, q')
    ensures EntrypointMatches(key, ep, q) ==> EntrypointMatches(key, ep, q')
  {
    MentionsNarrows(key, q, q');
    MentionsNarrows(ep.address, q, q');
  }

  lemma MiddlewareMatchesNarrows(key: string, q: string, q': string)
    requires Contains(q, q')
    ensures MiddlewareMatches(key, q) ==> MiddlewareMatches(key, q')
  {
    var (name, provider) := SplitAtLastAt(key);
    MentionsNarrows(name, q, q');
    MentionsNarrows(provider, q, q');
  }

  lemma CertificateMatchesNarrows(c: Certificate, q: string, q': string)
    requires Contains(q, q')
    ensures CertificateMatches(c, q) ==> CertificateMatches(c, q')
  {
    if CertificateMatches(c, q) {
      var i :| 0 <= i < |c.sans.value| && Includes(c.sans.value[i], q);
      MentionsNarrows(c.sans.value[i], q, q');
    }
  }

  /** The direct-match tests as values, so that the folds below are stated once for any test. */
  function ServiceTest(q: string): Service -> bool {
    (s: Service) => ServiceMatches(s, q)
  }

  function RouterTest(q: string): Router -> bool {
    (r: Router) => RouterMatchesDirectly(r, q)
  }

  // ---------------------------------------------------------------------------
  // Services: the first pass
  // ---------------------------------------------------------------------------

  /**
   * The state the filter threads through its loops: the filtered services (`services`
   * in the source, reassigned to `filteredServices`), `matchedServiceKeys` and
   * `someDataMatched`.
   */
  datatype ServicePass = ServicePass(services: Object<Service>, matched: set<string>, any: bool)

  /** The service loop as a fold over `Object.values(originalServices)`. */
  function ServicesPassed(vals: seq<Service>, matches: Service -> bool): ServicePass
    decreases |vals|
  {
    if vals == [] then ServicePass(Empty(), {}, false)
    else
      var p := ServicesPassed(vals[..|vals| - 1], matches);
      var s := vals[|vals| - 1];
      if matches(s) then
        ServicePass(Put(p.services, ServiceKey(s), s), p.matched + {ServiceKey(s)}, true)
      else p
  }

  method FilterServices(original: Object<Service>, q: string) returns (p: ServicePass)
    ensures p == ServicesPassed(Values(original), ServiceTest(q))
  {
    var vals := Values(original);
    var filtered: Object<Service> := Empty();
    var matched: set<string> := {};
    var any := false;
    var i := 0;
    while i < |vals|
      invariant 0 <= i <= |vals|
      invariant ServicePass(filtered, matched, any) == ServicesPassed(vals[..i], ServiceTest(q))
    {
      assert vals[..i + 1][..i] == vals[..i];
      var s := vals[i];
      if ServiceTest(q)(s) {
        var key := ServiceKey(s);
        filtered := Put(filtered, key, s);
        matched := matched + {key};
        any := true;
      }
      i := i + 1;
    }
    assert vals[..|vals|] == vals;
    p := ServicePass(filtered, matched, any);
  }

  /** After the service loop, a key is matched exactly when some matching service has it. */
  lemma {:induction false} ServicesPassedKeys(vals: seq<Service>, matches: Service -> bool)
    ensures ServicesPassed(vals, matches).matched == ServicesPassed(vals, matches).services.entries.Keys
    ensures forall k :: k in ServicesPassed(vals, matches).matched <==>
      exists i :: 0 <= i < |vals| && ServiceKey(vals[i]) == k && matches(vals[i])
  {
    if vals != [] {
      var init := vals[..|vals| - 1];
      ServicesPassedKeys(init, matches);
      forall i | 0 <= i < |init| ensures init[i] == vals[i] { }
    }
  }

  /** The value kept under a key is a matching service of the snapshot with that key. */
  /** In an object keyed by `name@provider`, the service pass keeps the object's own entries. */
  lemma ServicesPassedSub(o: Object<Service>, matches: Service -> bool)
    requires KeyedByIdentity(o)
    ensures SubObject(ServicesPassed(Values(o), matches).services, o)
  {
    var vals := Values(o);
    ServicesPassedValues(vals, matches);
    var p := ServicesPassed(vals, matches).services;
    forall k | k in p.entries ensures k in o.entries && p.entries[k] == o.entries[k] {
      var s := p.entries[k];
      var i :| 0 <= i < |vals| && vals[i] == s;
      assert ServiceKey(o.entries[o.keys[i]]) == o.keys[i];
    }
  }

  lemma {:induction false} ServicesPassedValues(vals: seq<Service>, matches: Service -> bool)
    ensures forall k :: k in ServicesPassed(vals, matches).services.entries ==>
      var s := ServicesPassed(vals, matches).services.entries[k];
      s in vals && ServiceKey(s) == k && matches(s)
  {
    if vals != [] {
      var init := vals[..|vals| - 1];
      ServicesPassedValues(init, matches);
      var p := ServicesPassed(init, matches);
      var s := vals[|vals| - 1];
      assert forall x :: x in init ==> x in vals;
      if matches(s) {
        assert ServicesPassed(vals, matches).services.entries == p.services.entries[ServiceKey(s) := s];
      }
    }
  }

  /** `someDataMatched` is set by the service loop exactly when some service matches. */
  lemma {:induction false} ServicesPassedAny(vals: seq<Service>, matches: Service -> bool)
    ensures ServicesPassed(vals, matches).any <==> exists i :: 0 <= i < |vals| && matches(vals[i])
    ensures ServicesPassed(vals, matches).any <==> ServicesPassed(vals, matches).services.keys != []
  {
    if vals != [] {
      var init := vals[..|vals| - 1];
      ServicesPassedAny(init, matches);
      forall i | 0 <= i < |init| ensures init[i] == vals[i] { }
    }
  }

  // ---------------------------------------------------------------------------
  // Routers: the second pass, with the cross-reference step
  // ---------------------------------------------------------------------------

  datatype RouterPass = RouterPass(
    routers: Object<Router>,
    services: Object<Service>,
    matched: set<string>,
    any: bool)

  /** The router test of the second loop, against the state reached so far. */
  predicate KeptInPass(r: Router, p: RouterPass, direct: Router -> bool) {
    || direct(r)
    || (ServiceRef(r).Some? && ServiceRef(r).value in p.matched)
    || (ServiceRef(r).Some? && ServiceRef(r).value in p.services.entries)
  }

  /** One iteration of the router loop: keep the router, pull its service back, note its key. */
  function RouterStep(p: RouterPass, r: Router, original: Object<Service>, direct: Router -> bool): RouterPass {
    if !KeptInPass(r, p, direct) then p
    else
      var routers := Put(p.routers, RouterKey(r), r);
      match ServiceRef(r)
      case None => RouterPass(routers, p.services, p.matched, true)
      case Some(sk) =>
        if sk in original.entries && sk !in p.services.entries then
          RouterPass(routers, Put(p.services, sk, original.entries[sk]), p.matched + {sk}, true)
        else
          RouterPass(routers, p.services, p.matched + {sk}, true)
  }

  /** The router loop as a fold over `Object.values(originalRouters)`. */
  function RoutersPassed(vals: seq<Router>, original: Object<Service>, direct: Router -> bool, start: RouterPass): RouterPass
    decreases |vals|
  {
    if vals == [] then start
    else RouterStep(RoutersPassed(vals[..|vals| - 1], original, direct, start), vals[|vals| - 1], original, direct)
  }

  method FilterRouters(originalRouters: Object<Router>, original: Object<Service>, q: string, sp: ServicePass)
    returns (p: RouterPass)
    ensures p == RoutersPassed(Values(originalRouters), original, RouterTest(q), StartOf(sp))
  {
    var vals := Values(originalRouters);
    var routers: Object<Router> := Empty();
    var services := sp.services;
    var matched := sp.matched;
    var any := sp.any;
    var i := 0;
    while i < |vals|
      invariant 0 <= i <= |vals|
      invariant RouterPass(routers, services, matched, any) == RoutersPassed(vals[..i], original, RouterTest(q), StartOf(sp))
    {
      assert vals[..i + 1][..i] == vals[..i];
      assert RoutersPassed(vals[..i + 1], original, RouterTest(q), StartOf(sp)) ==
        RouterStep(RoutersPassed(vals[..i], original, RouterTest(q), StartOf(sp)), vals[i], original, RouterTest(q));
      var r := vals[i];
      var serviceKey := ServiceRef(r);
      var isMatch := RouterTest(q)(r);
      if !isMatch && serviceKey.Some? && serviceKey.value in matched { isMatch := true; }
      if !isMatch && serviceKey.Some? && serviceKey.value in services.entries { isMatch := true; }
      if isMatch {
        routers := Put(routers, RouterKey(r), r);
        if serviceKey.Some? && serviceKey.value in original.entries && serviceKey.value !in services.entries {
          services := Put(services, serviceKey.value, original.entries[serviceKey.value]);
          matched := matched + {serviceKey.value};
        } else if serviceKey.Some? {
          matched := matched + {serviceKey.value};
        }
        any := true;
      }
      i := i + 1;
    }
    assert vals[..|vals|] == vals;
    p := RouterPass(routers, services, matched, any);
  }

  /** The router loop starts from an empty `filteredRouters` and the service pass's state. */
  function StartOf(sp: ServicePass): RouterPass {
    RouterPass(Empty(), sp.services, sp.matched, sp.any)
  }

  /**
   * The reference definition of which routers the single pass keeps: the router at
   * position `i` is kept when it matches directly, when its service key was matched by
   * the service pass (`m0`), or when an EARLIER kept router refers to the same service.
   * A later router never helps an earlier one: the pass does not iterate to a fixed point.
   */
  ghost predicate KeptRef(vals: seq<Router>, direct: Router -> bool, m0: set<string>, i: nat)
    requires i < |vals|
    decreases i
  {
    || direct(vals[i])
    || (ServiceRef(vals[i]).Some? && ServiceRef(vals[i]).value in m0)
    || (ServiceRef(vals[i]).Some? &&
        exists j :: 0 <= j < i && KeptRef(vals, direct, m0, j) && ServiceRef(vals[j]) == ServiceRef(vals[i]))
  }

  /**
   * The fixed-point closure the single pass approximates: the service keys reached from
   * the directly matched services (`m0`) and the directly matched routers.
   */
  ghost function ClosureKeys(vals: seq<Router>, direct: Router -> bool, m0: set<string>): set<string> {
    m0 + set j | 0 <= j < |vals| && direct(vals[j]) && ServiceRef(vals[j]).Some? :: ServiceRef(vals[j]).value
  }

  /** A router of the fixed-point closure: it matches directly or refers to a closure key. */
  ghost predicate InClosure(vals: seq<Router>, direct: Router -> bool, m0: set<string>, i: nat)
    requires i < |vals|
  {
    direct(vals[i]) || (ServiceRef(vals[i]).Some? && ServiceRef(vals[i]).value in ClosureKeys(vals, direct, m0))
  }

  /** The single pass keeps no router outside the fixed-point closure. */
  lemma {:induction false} KeptWithinClosure(vals: seq<Router>, direct: Router -> bool, m0: set<string>, i: nat)
    requires i < |vals|
    ensures KeptRef(vals, direct, m0, i) ==> InClosure(vals, direct, m0, i)
    decreases i
  {
    if KeptRef(vals, direct, m0, i) && !direct(vals[i]) && !(ServiceRef(vals[i]).Some? && ServiceRef(vals[i]).value in m0) {
      var j :| 0 <= j < i && KeptRef(vals, direct, m0, j) && ServiceRef(vals[j]) == ServiceRef(vals[i]);
      KeptWithinClosure(vals, direct, m0, j);
      if direct(vals[j]) {
        assert ServiceRef(vals[j]).value in ClosureKeys(vals, direct, m0);
      }
    }
  }

  /** The service keys of the kept routers among the first `n`. */
  ghost function KeptServiceKeys(vals: seq<Router>, direct: Router -> bool, m0: set<string>, n: nat): set<string>
    requires n <= |vals|
  {
    set j | 0 <= j < n && KeptRef(vals, direct, m0, j) && ServiceRef(vals[j]).Some? :: ServiceRef(vals[j]).value
  }

  /**
   * Every router of `routers` whose service exists in `original` finds that service in
   * `services`: filtering never leaves a router pointing at a service it dropped.
   */
  ghost predicate ReferencesResolved(routers: Object<Router>, services: Object<Service>, original: Object<Service>) {
    forall k :: k in routers.entries ==>
      var sk := ServiceRef(routers.entries[k]);
      sk.Some? && sk.value in original.entries ==> sk.value in services.entries
  }

  /** What the router loop keeps true: the facts behind the closure property. */
  ghost predicate PassInvariant(p: RouterPass, original: Object<Service>) {
    && p.services.entries.Keys <= p.matched
    && ReferencesResolved(p.routers, p.services, original)
  }

  /**
   * After `n` routers, `matchedServiceKeys` is the service-pass keys plus the service
   * keys of the routers kept so far.
   */
  lemma {:induction false} RoutersPassedMatched(vals: seq<Router>, original: Object<Service>, direct: Router -> bool, sp: ServicePass, n: nat)
    requires n <= |vals|
    requires sp.services.entries.Keys <= sp.matched
    ensures MatchedSoFar(vals, original, direct, sp, n)
  {
    if n > 0 {
      RoutersPassedMatched(vals, original, direct, sp, n - 1);
      KeptAt(vals, original, direct, sp, n - 1);
      assert vals[..n][..n - 1] == vals[..n - 1];
      assert vals[..n][n - 1] == vals[n - 1];
      KeptServiceKeysStep(vals, direct, sp.matched, n);
    }
  }

  /**
   * The single pass keeps exactly the routers `KeptRef` describes: the loop's test on
   * the router at position `i` succeeds if and only if `KeptRef` holds there.
   */
  lemma RoutersKeptIff(vals: seq<Router>, original: Object<Service>, direct: Router -> bool, sp: ServicePass)
    requires sp.services.entries.Keys <= sp.matched
    ensures forall i :: 0 <= i < |vals| ==>
      (KeptInPass(vals[i], RoutersPassed(vals[..i], original, direct, StartOf(sp)), direct) <==>
       KeptRef(vals, direct, sp.matched, i))
  {
    forall i | 0 <= i < |vals|
      ensures KeptInPass(vals[i], RoutersPassed(vals[..i], original, direct, StartOf(sp)), direct) <==>
              KeptRef(vals, direct, sp.matched, i)
    {
      RoutersPassedMatched(vals, original, direct, sp, i);
      KeptAt(vals, original, direct, sp, i);
    }
  }

  /** `matchedServiceKeys` after `n` routers, and the filtered services' keys among them. */
  ghost predicate MatchedSoFar(vals: seq<Router>, original: Object<Service>, direct: Router -> bool, sp: ServicePass, n: nat)
    requires n <= |vals|
  {
    var p := RoutersPassed(vals[..n], original, direct, StartOf(sp));
    && p.matched == sp.matched + KeptServiceKeys(vals, direct, sp.matched, n)
    && p.services.entries.Keys <= p.matched
  }

  /** Given the state after `i` routers, the loop's test on router `i` is `KeptRef`. */
  lemma KeptAt(vals: seq<Router>, original: Object<Service>, direct: Router -> bool, sp: ServicePass, i: nat)
    requires i < |vals|
    requires MatchedSoFar(vals, original, direct, sp, i)
    ensures KeptInPass(vals[i], RoutersPassed(vals[..i], original, direct, StartOf(sp)), direct) <==>
      KeptRef(vals, direct, sp.matched, i)
  {
    var r := vals[i];
    if ServiceRef(r).Some? {
      var sk := ServiceRef(r).value;
      assert sk in KeptServiceKeys(vals, direct, sp.matched, i) <==>
        exists j :: 0 <= j < i && KeptRef(vals, direct, sp.matched, j) && ServiceRef(vals[j]) == ServiceRef(r);
    }
  }

  lemma KeptServiceKeysStep(vals: seq<Router>, direct: Router -> bool, m0: set<string>, n: nat)
    requires 0 < n <= |vals|
    ensures KeptServiceKeys(vals, direct, m0, n) ==
      KeptServiceKeys(vals, direct, m0, n - 1) +
      (if KeptRef(vals, direct, m0, n - 1) && ServiceRef(vals[n - 1]).Some? then {ServiceRef(vals[n - 1]).value} else {})
  {
  }

  /** The router loop keeps `PassInvariant`: a kept router's existing service is always filtered. */
  lemma {:induction false} RoutersPassedInvariant(vals: seq<Router>, original: Object<Service>, direct: Router -> bool, sp: ServicePass)
    requires sp.services.entries.Keys <= sp.matched
    ensures PassInvariant(RoutersPassed(vals, original, direct, StartOf(sp)), original)
  {
    if vals != [] {
      RoutersPassedInvariant(vals[..|vals| - 1], original, direct, sp);
    }
  }

  /** Every router the loop keeps is a router of the snapshot, under its own `name@provider`. */
  lemma {:induction false} RoutersPassedRouters(vals: seq<Router>, original: Object<Service>, direct: Router -> bool, sp: ServicePass)
    ensures forall k :: k in RoutersPassed(vals, original, direct, StartOf(sp)).routers.entries ==>
      RoutersPassed(vals, original, direct, StartOf(sp)).routers.entries[k] in vals &&
      RouterKey(RoutersPassed(vals, original, direct, StartOf(sp)).routers.entries[k]) == k
  {
    if vals != [] {
      var init := vals[..|vals| - 1];
      var r := vals[|vals| - 1];
      RoutersPassedRouters(init, original, direct, sp);
      assert forall x :: x in init ==> x in vals;
      var p := RoutersPassed(init, original, direct, StartOf(sp));
      assert RoutersPassed(vals, original, direct, StartOf(sp)) == RouterStep(p, r, original, direct);
      RouterStepRouters(p, r, original, direct);
    }
  }

  /** One router step keeps the routers already kept and may add this router under its key. */
  lemma RouterStepRouters(p: RouterPass, r: Router, original: Object<Service>, direct: Router -> bool)
    ensures forall k :: k in RouterStep(p, r, original, direct).routers.entries ==>
      || (k in p.routers.entries && RouterStep(p, r, original, direct).routers.entries[k] == p.routers.entries[k])
      || (k == RouterKey(r) && RouterStep(p, r, original, direct).routers.entries[k] == r)
  {
  }

  /** One router step keeps the services already there and may add the snapshot's own. */
  lemma RouterStepServices(p: RouterPass, r: Router, original: Object<Service>, direct: Router -> bool)
    ensures forall k :: k in p.services.entries ==>
      k in RouterStep(p, r, original, direct).services.entries &&
      RouterStep(p, r, original, direct).services.entries[k] == p.services.entries[k]
    ensures forall k :: k in RouterStep(p, r, original, direct).services.entries && k !in p.services.entries ==>
      k in original.entries && RouterStep(p, r, original, direct).services.entries[k] == original.entries[k]
  {
  }

  /**
   * The loop only adds services: what the service pass kept stays as it was, and an
   * added service is the snapshot's own value under that key.
   */
  lemma {:induction false} RoutersPassedServices(vals: seq<Router>, original: Object<Service>, direct: Router -> bool, sp: ServicePass)
    ensures var p := RoutersPassed(vals, original, direct, StartOf(sp));
      && (forall k :: k in sp.services.entries ==>
            k in p.services.entries && p.services.entries[k] == sp.services.entries[k])
      && (forall k :: k in p.services.entries && k !in sp.services.entries ==>
            k in original.entries && p.services.entries[k] == original.entries[k])
  {
    if vals != [] {
      var init := vals[..|vals| - 1];
      RoutersPassedServices(init, original, direct, sp);
      var p := RoutersPassed(init, original, direct, StartOf(sp));
      assert RoutersPassed(vals, original, direct, StartOf(sp)) == RouterStep(p, vals[|vals| - 1], original, direct);
      RouterStepServices(p, vals[|vals| - 1], original, direct);
    }
  }

  /**
   * A key is among the kept routers exactly when the loop's test succeeded on a router
   * with that key; `someDataMatched` is set by the router loop exactly when it kept one.
   */
  lemma {:induction false} RoutersPassedKeys(vals: seq<Router>, original: Object<Service>, direct: Router -> bool, sp: ServicePass, n: nat)
    requires n <= |vals|
    ensures forall k :: k in RoutersPassed(vals[..n], original, direct, StartOf(sp)).routers.entries <==>
      exists i :: 0 <= i < n && RouterKey(vals[i]) == k &&
        KeptInPass(vals[i], RoutersPassed(vals[..i], original, direct, StartOf(sp)), direct)
    ensures RoutersPassed(vals[..n], original, direct, StartOf(sp)).any ==
      (sp.any || RoutersPassed(vals[..n], original, direct, StartOf(sp)).routers.keys != [])
  {
    if n > 0 {
      RoutersPassedKeys(vals, original, direct, sp, n - 1);
      assert vals[..n][..n - 1] == vals[..n - 1];
      assert vals[..n][n - 1] == vals[n - 1];
      var p := RoutersPassed(vals[..n - 1], original, direct, StartOf(sp));
      assert RoutersPassed(vals[..n], original, direct, StartOf(sp)) == RouterStep(p, vals[n - 1], original, direct);
      RouterStepKeys(p, vals[n - 1], original, direct);
    }
  }

  /** One router step adds the router's key when the router is kept, and sets the flag then. */
  lemma RouterStepKeys(p: RouterPass, r: Router, original: Object<Service>, direct: Router -> bool)
    ensures forall k :: k in RouterStep(p, r, original, direct).routers.entries <==>
      (k in p.routers.entries || (KeptInPass(r, p, direct) && k == RouterKey(r)))
    ensures RouterStep(p, r, original, direct).any == (p.any || KeptInPass(r, p, direct))
    ensures RouterStep(p, r, original, direct).routers.keys != [] <==>
      (p.routers.keys != [] || KeptInPass(r, p, direct))
  {
  }

  /** While the router loop has kept nothing, it has changed neither the services nor the flag. */
  lemma {:induction false} RoutersPassedUntouched(vals: seq<Router>, original: Object<Service>, direct: Router -> bool, sp: ServicePass)
    ensures RoutersPassed(vals, original, direct, StartOf(sp)).routers.keys == [] ==>
      RoutersPassed(vals, original, direct, StartOf(sp)).services == sp.services &&
      RoutersPassed(vals, original, direct, StartOf(sp)).any == sp.any
  {
    if vals != [] {
      RoutersPassedUntouched(vals[..|vals| - 1], original, direct, sp);
    }
  }

  /** The service of every router kept among the first `n` is filtered by then, when it exists. */
  lemma {:induction false} RoutersPassedPullsServices(vals: seq<Router>, original: Object<Service>, direct: Router -> bool, sp: ServicePass, n: nat)
    requires n <= |vals|
    requires sp.services.entries.Keys <= sp.matched
    ensures forall k :: k in KeptServiceKeys(vals, direct, sp.matched, n) && k in original.entries ==>
      k in RoutersPassed(vals[..n], original, direct, StartOf(sp)).services.entries
  {
    if n > 0 {
      RoutersPassedPullsServices(vals, original, direct, sp, n - 1);
      RoutersPassedMatched(vals, original, direct, sp, n - 1);
      KeptAt(vals, original, direct, sp, n - 1);
      KeptServiceKeysStep(vals, direct, sp.matched, n);
      assert vals[..n][..n - 1] == vals[..n - 1];
      assert vals[..n][n - 1] == vals[n - 1];
      var p := RoutersPassed(vals[..n - 1], original, direct, StartOf(sp));
      assert RoutersPassed(vals[..n], original, direct, StartOf(sp)) == RouterStep(p, vals[n - 1], original, direct);
    }
  }

  // ---------------------------------------------------------------------------
  // The third loop: services of the kept routers
  // ---------------------------------------------------------------------------

  /** One iteration of the loop over `Object.values(routers)` that adds missing services. */
  function RestoreStep(services: Object<Service>, r: Router, original: Object<Service>): Object<Service> {
    match ServiceRef(r)
    case None => services
    case Some(sk) =>
      if sk in original.entries && sk !in services.entries then Put(services, sk, original.entries[sk])
      else services
  }

  function Restored(vals: seq<Router>, original: Object<Service>, services: Object<Service>): Object<Service>
    decreases |vals|
  {
    if vals == [] then services
    else RestoreStep(Restored(vals[..|vals| - 1], original, services), vals[|vals| - 1], original)
  }

  method RestoreServices(routers: Object<Router>, original: Object<Service>, services0: Object<Service>)
    returns (services: Object<Service>)
    ensures services == Restored(Values(routers), original, services0)
  {
    var vals := Values(routers);
    services := services0;
    var i := 0;
    while i < |vals|
      invariant 0 <= i <= |vals|
      invariant services == Restored(vals[..i], original, services0)
    {
      assert vals[..i + 1][..i] == vals[..i];
      var serviceKey := ServiceRef(vals[i]);
      if serviceKey.Some? && serviceKey.value in original.entries && serviceKey.value !in services.entries {
        services := Put(services, serviceKey.value, original.entries[serviceKey.value]);
      }
      i := i + 1;
    }
    assert vals[..|vals|] == vals;
  }

  /**
   * When every router already has its (existing) service, the third loop adds nothing.
   * The router loop leaves exactly that state behind, so this loop never changes the result.
   */
  lemma {:induction false} RestoredNoOp(vals: seq<Router>, original: Object<Service>, services: Object<Service>)
    requires forall i :: 0 <= i < |vals| ==>
      var sk := ServiceRef(vals[i]); sk.Some? && sk.value in original.entries ==> sk.value in services.entries
    ensures Restored(vals, original, services) == services
  {
    if vals != [] {
      RestoredNoOp(vals[..|vals| - 1], original, services);
    }
  }

  // ---------------------------------------------------------------------------
  // Entrypoints, middlewares, certificates
  // ---------------------------------------------------------------------------

  function EntrypointKeep(q: string): (string, Entrypoint) -> bool {
    (k: string, ep: Entrypoint) => EntrypointMatches(k, ep, q)
  }

  function MiddlewareKeep(q: string): (string, Middleware) -> bool {
    (k: string, mw: Middleware) => MiddlewareMatches(k, q)
  }

  /**
   * The entrypoint and middleware loops: copy the entries that `keep` accepts into a
   * fresh object, and say whether any was copied.
   */
  method FilterEntries<V>(original: Object<V>, keep: (string, V) -> bool) returns (filtered: Object<V>, any: bool)
    ensures filtered == Select(original, keep)
    ensures any <==> filtered.keys != []
  {
    filtered := Empty();
    any := false;
    var i := 0;
    while i < |original.keys|
      invariant 0 <= i <= |original.keys|
      invariant filtered == SelectUpTo(original, keep, i)
      invariant any <==> filtered.keys != []
    {
      var key := original.keys[i];
      assert SelectUpTo(original, keep, i + 1) ==
        if keep(key, original.entries[key]) then Put(SelectUpTo(original, keep, i), key, original.entries[key])
        else SelectUpTo(original, keep, i);
      if keep(key, original.entries[key]) {
        filtered := Put(filtered, key, original.entries[key]);
        any := true;
      }
      i := i + 1;
    }
  }

  /** The certificates whose `sans` mention the query, in their original order. */
  function CertificatesMatching(certs: seq<Certificate>, q: string): (r: seq<Certificate>)
    ensures |r| <= |certs|
    ensures forall c :: c in r <==> c in certs && CertificateMatches(c, q)
  {
    if certs == [] then []
    else
      var p := CertificatesMatching(certs[..|certs| - 1], q);
      var c := certs[|certs| - 1];
      assert forall x :: x in certs <==> x in certs[..|certs| - 1] || x == c;
      if CertificateMatches(c, q) then p + [c] else p
  }

  method FilterCertificates(certs: seq<Certificate>, q: string) returns (filtered: seq<Certificate>, any: bool)
    ensures filtered == CertificatesMatching(certs, q)
    ensures any <==> filtered != []
  {
    filtered := [];
    any := false;
    var i := 0;
    while i < |certs|
      invariant 0 <= i <= |certs|
      invariant filtered == CertificatesMatching(certs[..i], q)
      invariant any <==> filtered != []
    {
      assert certs[..i + 1][..i] == certs[..i];
      assert CertificatesMatching(certs[..i + 1], q) ==
        if CertificateMatches(certs[i], q) then CertificatesMatching(certs[..i], q) + [certs[i]]
        else CertificatesMatching(certs[..i], q);
      if CertificateMatches(certs[i], q) {
        filtered := filtered + [certs[i]];
        any := true;
      }
      i := i + 1;
    }
    assert certs[..|certs|] == certs;
  }
}

module Filtering {
  import opened Wrappers
  import opened Text
  import opened Dicts
  import opened Topology
  import opened Filter

  /** The five collections after filtering, and `someDataMatched`. */
  datatype Filtered = Filtered(view: Collections, anyMatched: bool)

  function ServicePassOf(c: Collections, q: string): ServicePass {
    ServicesPassed(Values(c.services), ServiceTest(q))
  }

  function RouterPassOf(c: Collections, q: string): RouterPass {
    RoutersPassed(Values(c.routers), c.services, RouterTest(q), StartOf(ServicePassOf(c, q)))
  }

  /** The whole filter for a non-empty query, as the composition of its loops. */
  function FilterAll(c: Collections, q: string): Filtered {
    var rp := RouterPassOf(c, q);
    var restored := Restored(Values(rp.routers), c.services, rp.services);
    var fe := Select(c.entrypoints, EntrypointKeep(q));
    var fm := Select(c.middlewares, MiddlewareKeep(q));
    var fc := CertificatesMatching(c.certificates, q);
    Filtered(Collections(rp.routers, restored, fe, fm, fc), rp.any || fe.keys != [] || fm.keys != [] || fc != [])
  }

  /** The filtering block of `loadData`, run when the lower-cased query is not empty. */
  method ApplyFilter(c: Collections, q: string) returns (f: Filtered)
    ensures f == FilterAll(c, q)
  {
    var sp := FilterServices(c.services, q);
    var rp := FilterRouters(c.routers, c.services, q, sp);
    var services := RestoreServices(rp.routers, c.services, rp.services);
    var someDataMatched := rp.any;
    var entrypoints, anyE := FilterEntries(c.entrypoints, EntrypointKeep(q));
    someDataMatched := someDataMatched || anyE;
    var middlewares, anyM := FilterEntries(c.middlewares, MiddlewareKeep(q));
    someDataMatched := someDataMatched || anyM;
    var certificates, anyC := FilterCertificates(c.certificates, q);
    someDataMatched := someDataMatched || anyC;
    f := Filtered(Collections(rp.routers, services, entrypoints, middlewares, certificates), someDataMatched);
  }

  /** The keys of the services that match the query on their own. */
  ghost function MatchingServiceKeys(c: Collections, q: string): set<string> {
    set i | 0 <= i < |Values(c.services)| && ServiceMatches(Values(c.services)[i], q) :: ServiceKey(Values(c.services)[i])
  }

  /** The service pass's `matchedServiceKeys` are the keys of the directly matching services. */
  lemma ServicePassMatched(c: Collections, q: string)
    ensures ServicePassOf(c, q).matched == MatchingServiceKeys(c, q)
    ensures ServicePassOf(c, q).services.entries.Keys == MatchingServiceKeys(c, q)
  {
    ServicesPassedKeys(Values(c.services), ServiceTest(q));
  }

  /** The third loop of the filter adds nothing to what the router loop left. */
  lemma ThirdLoopAddsNothing(c: Collections, q: string)
    ensures FilterAll(c, q).view.services == RouterPassOf(c, q).services
  {
    var sp := ServicePassOf(c, q);
    ServicePassMatched(c, q);
    var vals := Values(c.routers);
    RoutersPassedInvariant(vals, c.services, RouterTest(q), sp);
    var rp := RouterPassOf(c, q);
    RestoredNoOp(Values(rp.routers), c.services, rp.services);
  }

  /**
   * A router is kept exactly when `KeptRef` says so: it matches directly, or its
   * service key was matched by the service pass, or an earlier kept router has that key.
   */
  lemma FilterRoutersIff(c: Collections, q: string)
    ensures forall k :: k in FilterAll(c, q).view.routers.entries <==>
      exists i :: 0 <= i < |Values(c.routers)| && RouterKey(Values(c.routers)[i]) == k &&
        KeptRef(Values(c.routers), RouterTest(q), MatchingServiceKeys(c, q), i)
  {
    var vals := Values(c.routers);
    var sp := ServicePassOf(c, q);
    ServicePassMatched(c, q);
    RoutersPassedKeys(vals, c.services, RouterTest(q), sp, |vals|);
    assert vals[..|vals|] == vals;
    RoutersKeptIff(vals, c.services, RouterTest(q), sp);
  }

  /**
   * A service is kept exactly when it matches on its own, or when it exists in the
   * snapshot and some kept router refers to it.
   */
  lemma FilterServicesIff(c: Collections, q: string)
    ensures forall k :: k in FilterAll(c, q).view.services.entries <==>
      || k in MatchingServiceKeys(c, q)
      || (k in c.services.entries &&
          k in KeptServiceKeys(Values(c.routers), RouterTest(q), MatchingServiceKeys(c, q), |Values(c.routers)|))
  {
    var vals := Values(c.routers);
    var sp := ServicePassOf(c, q);
    ServicePassMatched(c, q);
    ThirdLoopAddsNothing(c, q);
    RoutersPassedMatched(vals, c.services, RouterTest(q), sp, |vals|);
    RoutersPassedPullsServices(vals, c.services, RouterTest(q), sp, |vals|);
    RoutersPassedServices(vals, c.services, RouterTest(q), sp);
    assert vals[..|vals|] == vals;
  }

  /** No kept router refers to an existing service that the filter dropped. */
  lemma FilterClosure(c: Collections, q: string)
    ensures ReferencesResolved(FilterAll(c, q).view.routers, FilterAll(c, q).view.services, c.services)
  {
    ServicePassMatched(c, q);
    RoutersPassedInvariant(Values(c.routers), c.services, RouterTest(q), ServicePassOf(c, q));
    ThirdLoopAddsNothing(c, q);
  }

  /**
   * When the snapshot is keyed by `name@provider`, every kept entry of every kind is the
   * snapshot's own value under its key.
   */
  lemma FilterKeepsOriginals(c: Collections, q: string)
    requires KeyedByIdentity(c.services) && RoutersKeyedByIdentity(c.routers)
    ensures SubObject(FilterAll(c, q).view.routers, c.routers)
    ensures SubObject(FilterAll(c, q).view.services, c.services)
    ensures SubObject(FilterAll(c, q).view.entrypoints, c.entrypoints)
    ensures SubObject(FilterAll(c, q).view.middlewares, c.middlewares)
    ensures forall x :: x in FilterAll(c, q).view.certificates ==> x in c.certificates
  {
    FilterKeepsRouters(c, q);
    FilterKeepsServices(c, q);
    SelectUpToEntries(c.entrypoints, EntrypointKeep(q), |c.entrypoints.keys|);
    SelectUpToEntries(c.middlewares, MiddlewareKeep(q), |c.middlewares.keys|);
  }

  lemma FilterKeepsRouters(c: Collections, q: string)
    requires RoutersKeyedByIdentity(c.routers)
    ensures SubObject(FilterAll(c, q).view.routers, c.routers)
  {
    var vals := Values(c.routers);
    var sp := ServicePassOf(c, q);
    RoutersPassedRouters(vals, c.services, RouterTest(q), sp);
    var f := RouterPassOf(c, q).routers;
    assert FilterAll(c, q).view.routers == f;
    forall k | k in f.entries ensures k in c.routers.entries && f.entries[k] == c.routers.entries[k] {
      var r := f.entries[k];
      var i :| 0 <= i < |vals| && vals[i] == r;
      assert RouterKey(c.routers.entries[c.routers.keys[i]]) == c.routers.keys[i];
    }
  }

  lemma FilterKeepsServices(c: Collections, q: string)
    requires KeyedByIdentity(c.services)
    ensures SubObject(FilterAll(c, q).view.services, c.services)
  {
    var sp := ServicePassOf(c, q);
    ServicesPassedSub(c.services, ServiceTest(q));
    RoutersPassedServices(Values(c.routers), c.services, RouterTest(q), sp);
    ThirdLoopAddsNothing(c, q);
  }

  /**
   * `someDataMatched` stays false exactly when every filtered collection is empty, which
   * is when the view shows only the "No results" message.
   */
  lemma FilterNothingMatched(c: Collections, q: string)
    ensures !FilterAll(c, q).anyMatched <==>
      && FilterAll(c, q).view.routers.keys == []
      && FilterAll(c, q).view.services.keys == []
      && FilterAll(c, q).view.entrypoints.keys == []
      && FilterAll(c, q).view.middlewares.keys == []
      && FilterAll(c, q).view.certificates == []
  {
    var vals := Values(c.routers);
    var sp := ServicePassOf(c, q);
    ServicePassMatched(c, q);
    ServicesPassedAny(Values(c.services), ServiceTest(q));
    ThirdLoopAddsNothing(c, q);
    RoutersPassedKeys(vals, c.services, RouterTest(q), sp, |vals|);
    RoutersPassedUntouched(vals, c.services, RouterTest(q), sp);
    assert vals[..|vals|] == vals;
  }

  /** An entrypoint or a middleware is kept, in its original order, exactly when it matches. */
  lemma FilterEntrypointsAndMiddlewares(c: Collections, q: string)
    ensures forall k :: k in FilterAll(c, q).view.entrypoints.entries <==>
      k in c.entrypoints.entries && EntrypointMatches(k, c.entrypoints.entries[k], q)
    ensures FilterAll(c, q).view.entrypoints.keys == KeptKeys(c.entrypoints, EntrypointKeep(q), c.entrypoints.keys)
    ensures forall k :: k in FilterAll(c, q).view.middlewares.entries <==>
      k in c.middlewares.entries && MiddlewareMatches(k, q)
    ensures FilterAll(c, q).view.middlewares.keys == KeptKeys(c.middlewares, MiddlewareKeep(q), c.middlewares.keys)
  {
    SelectUpToEntries(c.entrypoints, EntrypointKeep(q), |c.entrypoints.keys|);
    SelectUpToKeys(c.entrypoints, EntrypointKeep(q), |c.entrypoints.keys|);
    SelectUpToEntries(c.middlewares, MiddlewareKeep(q), |c.middlewares.keys|);
    SelectUpToKeys(c.middlewares, MiddlewareKeep(q), |c.middlewares.keys|);
    assert c.entrypoints.keys[..|c.entrypoints.keys|] == c.entrypoints.keys;
    assert c.middlewares.keys[..|c.middlewares.keys|] == c.middlewares.keys;
  }

  // ---------------------------------------------------------------------------------
  // Order dependence of the router pass
  // ---------------------------------------------------------------------------------

  /** Two routers of provider `p` sharing the service `w@p`; only the first matches the query "a". */
  function RouterA(): Router { Router("a", "p", "", None, "w", None) }
  function RouterB(): Router { Router("b", "p", "", None, "w", None) }

  /** The two routers, `a@p` first when `aFirst`, and the one service they share. */
  function OrderExample(aFirst: bool): Collections {
    var routers: Object<Router> :=
      if aFirst then Dict(["a@p", "b@p"], map["a@p" := RouterA(), "b@p" := RouterB()])
      else Dict(["b@p", "a@p"], map["a@p" := RouterA(), "b@p" := RouterB()]);
    var services: Object<Service> := Dict(["w@p"], map["w@p" := Service("w", "p", "", None, map[])]);
    Collections(routers, services, Empty(), Empty(), [])
  }

  lemma OrderExampleFacts(aFirst: bool)
    ensures RouterTest("a")(RouterA()) && !RouterTest("a")(RouterB())
    ensures ServiceRef(RouterA()) == ServiceRef(RouterB()) == Some("w@p")
    ensures MatchingServiceKeys(OrderExample(aFirst), "a") == {}
    ensures Values(OrderExample(aFirst).routers) == if aFirst then [RouterA(), RouterB()] else [RouterB(), RouterA()]
  {
    assert Lower("a") == "a" && Lower("b") == "b" && Lower("p") == "p" && Lower("w") == "w";
    assert Contains("a", "a") by { assert OccursAt("a", "a", 0); }
    assert !Contains("b", "a") && !Contains("p", "a") && !Contains("w", "a");
    assert Values(OrderExample(aFirst).services) == [Service("w", "p", "", None, map[])];
    assert "w" + "@" + "p" == "w@p";
  }

  /** Listed after `a@p`, the router `b@p` is kept through the service it shares with it. */
  lemma RouterKeptAfterMatch()
    ensures "b@p" in FilterAll(OrderExample(true), "a").view.routers.entries
  {
    OrderExampleFacts(true);
    FilterRoutersIff(OrderExample(true), "a");
    var vals := [RouterA(), RouterB()];
    assert KeptRef(vals, RouterTest("a"), {}, 0);
    assert KeptRef(vals, RouterTest("a"), {}, 1);
    assert RouterKey(vals[1]) == "b@p";
  }

  /**
   * Listed before `a@p`, the same router is dropped, although the fixed-point closure
   * holds both routers: the kept routers depend on their order.
   */
  lemma RouterDroppedBeforeMatch()
    ensures "b@p" !in FilterAll(OrderExample(false), "a").view.routers.entries
    ensures forall i :: 0 <= i < |Values(OrderExample(false).routers)| ==>
      InClosure(Values(OrderExample(false).routers), RouterTest("a"), MatchingServiceKeys(OrderExample(false), "a"), i)
  {
    RouterDropped();
    OrderExampleClosure();
  }

  lemma RouterDropped()
    ensures "b@p" !in FilterAll(OrderExample(false), "a").view.routers.entries
  {
    OrderExampleFacts(false);
    FilterRoutersIff(OrderExample(false), "a");
    var vals := [RouterB(), RouterA()];
    assert !KeptRef(vals, RouterTest("a"), {}, 0);
    assert RouterKey(vals[1]) == "a@p";
  }

  lemma OrderExampleClosure()
    ensures forall i :: 0 <= i < |Values(OrderExample(false).routers)| ==>
      InClosure(Values(OrderExample(false).routers), RouterTest("a"), MatchingServiceKeys(OrderExample(false), "a"), i)
  {
    OrderExampleFacts(false);
    var vals := [RouterB(), RouterA()];
    assert "w@p" in ClosureKeys(vals, RouterTest("a"), {}) by {
      assert RouterTest("a")(vals[1]) && ServiceRef(vals[1]).value == "w@p";
    }
  }
}
