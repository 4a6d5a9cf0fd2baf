# Topology view, store reducer and polling controller of react-traefik, in Dafny

This project models three parts of react-traefik, a web front end for the Traefik reverse proxy, and proves properties of each:

- **The topology view's `loadData`** (`src/components/ThreeJSFlow.js`). It takes a snapshot of the proxy's routers, services, entrypoints, middlewares and TLS certificates. It applies a lower-cased substring search to all five kinds, including the cross-reference step between routers and services. It then builds two view-model trees:
  - the backend tree, rooted at "Traefik Instance";
  - the frontage tree, rooted at "Internet / Entrypoints".
  Along the way it resolves each route to its service and guesses a link from the rule's `Host(`…`)` and `PathPrefix(`…`)` parts. Finally it computes a width hint for each tree.
- **The store's `data` reducer** (`src/reducers/index.js`). It is a total function from a state record and an action to the next record.
- **The container's polling controller** (`src/containers/AsyncApp.js`). After every update it decides whether to load the data, and it keeps at most one polling interval in its `timer` field.

## How the model is organised

- **Imperative code becomes methods.** Every `forEach` loop of `loadData` is a method with a `while` loop. Its postcondition equates its result with a fold written as a function, and the lemmas are proved about the folds. These methods are `FilterServices`, `FilterRouters`, `RestoreServices`, `FilterEntries`, `FilterCertificates`, `EntrypointNodes`, `MiddlewareGroup`, `CertificateGroup`, `BuildServiceMap` and `LinkRouters`.
- **`loadData` itself** is `Flow.LoadData`. It is proved equal to the function `Flow.View`.
- **The reducer** is a function over a datatype.
- **The container** is a class with the `timer` field. Loads and `setInterval`/`clearInterval` calls are recorded as events.

### Data representation

- A JavaScript object is a `Dict`: its keys in insertion order plus a map. `Object.values` and `Object.entries` follow that order.
- A falsy string field is the empty string.
- A missing list is `None`. An empty list stays `Some([])`, because `[]` is truthy.
- Node details are structured values, not markup. A route names its service as either `Resolved(name, provider)` or `NotFound(key)`, and carries an optional link.

### What the code does that a reader might not expect

These behaviours are easy to miss when reading the code, and the model keeps each of them.

- **The query** is only lower-cased. It is never trimmed.
- **The router–service closure is one pass, not a fixed point.** A router is kept if any of these holds:
  - it matches directly;
  - its service key was matched by the service pass;
  - an earlier kept router refers to the same service key.

  So whether a router is kept depends on the order of the routers. `Filter.KeptWithinClosure` shows the pass keeps nothing outside the fixed-point closure. `Filtering.RouterDroppedBeforeMatch` shows a router of the closure that the pass drops.
- **The third filter loop** (lines 99-106) can add nothing, as `Filtering.ThirdLoopAddsNothing` shows.
- **A certificate** matches on `sans` only, never on `domains.sans`.
- **`serviceMap`** holds only `loadbalancer` services that have a `servers` list. A router that refers to any other service shows "Not Found/Visualized", even when the service exists.
- **Service nodes** sit directly under the backend root. There is no provider-group layer.
- **The backend width** counts the children of every child of the root. That includes the middleware and certificate groups, not just servers.
- **The "Configured Routes" group** is looked up by name. An entrypoint with that name receives the route nodes itself (`Flow.FrontageCollision`).
- **In the running application no middleware, certificate or entrypoint ever appears.** The store's state record has no overview, entrypoints, middlewares or certificates, and it is what the container hands to the view. `App.AppTrees` states this.

## Model

| member | source | states |
|---|---|---|
| Text.SplitAtLastAt | src/components/ThreeJSFlow.js:128-129 | With an '@', name + "@" + provider rebuilds the key and the provider has no '@'. Without one, the name is empty and the provider is the whole key. |
| Filter.ServiceMatchesNarrows | src/components/ThreeJSFlow.js:49-61 | The service test searches name, provider, load-balancer server addresses and statuses for the query. Any text the query contains matches whatever the query matches. |
| Filter.RouterMatchesNarrows | src/components/ThreeJSFlow.js:78-81 | The same holds for the router's direct test on name, provider, rule and entrypoints. |
| Filter.EntrypointMatchesNarrows | src/components/ThreeJSFlow.js:114-115 | The same holds for the entrypoint test on key and address. |
| Filter.MiddlewareMatchesNarrows | src/components/ThreeJSFlow.js:128-132 | The same holds for the middleware test on the two parts of its key. |
| Filter.CertificateMatchesNarrows | src/components/ThreeJSFlow.js:147 | The same holds for the certificate test on `sans`. |
| Filter.FilterServices | src/components/ThreeJSFlow.js:42-68 | The service loop computes the service fold over `Object.values(originalServices)`. |
| Filter.ServicesPassedKeys | src/components/ThreeJSFlow.js:45-66 | `matchedServiceKeys` equals the keys of the filtered services. A key is in it exactly when some matching service has that key. |
| Filter.ServicesPassedValues | src/components/ThreeJSFlow.js:61-64 | Every filtered service is a matching service of the snapshot, stored under its own `name@provider`. |
| Filter.ServicesPassedAny | src/components/ThreeJSFlow.js:61-65 | `someDataMatched` is set exactly when some service matches, which is exactly when the filtered services are not empty. |
| Filter.FilterRouters | src/components/ThreeJSFlow.js:71-96 | The router loop computes the router fold over `Object.values(originalRouters)`, starting from the service pass's state. |
| Filter.RoutersKeptIff | src/components/ThreeJSFlow.js:77-83 | The loop keeps the router at position i exactly when `KeptRef` holds: direct match, a service key matched by the service pass, or an earlier kept router with the same key. |
| Filter.KeptWithinClosure | src/components/ThreeJSFlow.js:81-92 | Every router the single pass keeps belongs to the fixed-point closure of direct matches. |
| Filter.RoutersPassedMatched | src/components/ThreeJSFlow.js:85-92 | After n routers, `matchedServiceKeys` is the service pass's keys plus the service keys of the routers kept so far. |
| Filter.RoutersPassedInvariant | src/components/ThreeJSFlow.js:85-89 | Every kept router whose service exists in the snapshot finds that service among the filtered services. |
| Filter.RoutersPassedRouters | src/components/ThreeJSFlow.js:84-85 | Every kept router is one of the snapshot's routers, stored under its `name@provider`. |
| Filter.RoutersPassedServices | src/components/ThreeJSFlow.js:86-89 | The router loop keeps every service the service pass kept. It adds only services of the snapshot, under their own keys. |
| Filter.RoutersPassedKeys | src/components/ThreeJSFlow.js:84-93 | A router key is kept exactly when a kept router has it. `someDataMatched` ends up as the service pass's flag or "some router kept". |
| Filter.RoutersPassedUntouched | src/components/ThreeJSFlow.js:84-93 | When no router is kept, the router loop changes neither the services nor the flag. |
| Filter.RoutersPassedPullsServices | src/components/ThreeJSFlow.js:86-89 | When the snapshot has the service a kept router refers to, the filtered services contain it. |
| Filter.RestoreServices | src/components/ThreeJSFlow.js:98-106 | The third loop computes the restore fold over the kept routers. |
| Filter.RestoredNoOp | src/components/ThreeJSFlow.js:98-106 | Given what the router loop leaves, the third loop returns the services unchanged. |
| Filter.FilterEntries | src/components/ThreeJSFlow.js:108-140 | The entrypoint and middleware loops select the accepted entries in their original order, and report whether any was kept. |
| Filter.CertificatesMatching | src/components/ThreeJSFlow.js:142-154 | The kept certificates are exactly those whose `sans` mention the query, and never more than the input. |
| Filter.FilterCertificates | src/components/ThreeJSFlow.js:142-154 | The certificate loop computes `CertificatesMatching` and reports whether it is not empty. |
| Filtering.ApplyFilter | src/components/ThreeJSFlow.js:40-167 | The filtering block computes `FilterAll`, the composition of the five loops. |
| Filtering.ServicePassMatched | src/components/ThreeJSFlow.js:45-66 | The service pass's matched keys, and its kept keys, are exactly the keys of the directly matching services. |
| Filtering.ThirdLoopAddsNothing | src/components/ThreeJSFlow.js:98-106 | The filtered services equal what the router loop left. |
| Filtering.FilterRoutersIff | src/components/ThreeJSFlow.js:72-96 | A router key is in the filtered routers exactly when a snapshot router with that key satisfies `KeptRef`. |
| Filtering.FilterServicesIff | src/components/ThreeJSFlow.js:42-106 | A service key is kept exactly when it matches directly, or when it exists in the snapshot and a kept router refers to it. |
| Filtering.FilterClosure | src/components/ThreeJSFlow.js:84-106 | No kept router refers to a snapshot service that the filter dropped. |
| Filtering.FilterKeepsOriginals | src/components/ThreeJSFlow.js:62-150 | When the snapshot is keyed by `name@provider`, every kept entry of each kind is the snapshot's own value, and every kept certificate is a snapshot certificate. |
| Filtering.FilterNothingMatched | src/components/ThreeJSFlow.js:159-166 | `someDataMatched` stays false exactly when all five filtered collections are empty. |
| Filtering.FilterEntrypointsAndMiddlewares | src/components/ThreeJSFlow.js:108-140 | An entrypoint is kept, in order, exactly when its key or address mentions the query. A middleware is kept, in order, exactly when the name or provider part of its key does. |
| Filtering.RouterKeptAfterMatch | src/components/ThreeJSFlow.js:81-92 | Listed after a directly matching router with the same service, a non-matching router is kept. |
| Filtering.RouterDroppedBeforeMatch | src/components/ThreeJSFlow.js:81-92 | Listed before that router, the same router is dropped, although the fixed-point closure holds both. |
| Links.FirstCaptureLeftmost | src/components/ThreeJSFlow.js:382 | `match` finds a capture exactly when the pattern matches somewhere. The capture found is the one at the leftmost position that matches. |
| Links.CaptureSound | src/components/ThreeJSFlow.js:382 | A capture is non-empty, has no backtick, and stands between the opening text and "`)" in the rule. |
| Links.CaptureComplete | src/components/ThreeJSFlow.js:382 | A non-empty, backtick-free text between the opening text and "`)" is what the pattern captures at that position. |
| Links.Scheme | src/components/ThreeJSFlow.js:385 | The scheme is `https://` exactly when some entrypoint, lower-cased, contains "https"; otherwise it is `http://`. |
| Links.RuleLinkSound | src/components/ThreeJSFlow.js:379-397 | A link is the scheme plus a host written in the rule. For a rule not starting with `Host(`, a path written in the rule follows the host. |
| Links.RuleLinkOfHostRule | src/components/ThreeJSFlow.js:381-387 | A rule starting with a complete `Host(`h`)` links to the scheme followed by h. |
| Links.RuleLink | src/components/ThreeJSFlow.js:379-397 | Only a non-empty rule that starts with `Host(` or contains `PathPrefix(` gets a link, and every link begins with the scheme. |
| Links.RuleLinkOfPathRule | src/components/ThreeJSFlow.js:389-396 | A rule not starting with `Host(` in which both a complete `Host(`h`)` and a complete `PathPrefix(`p`)` are written links to the scheme, then the leftmost host capture, then the leftmost path capture. |
| Links.RuleLinkOfHostRuleAny | src/components/ThreeJSFlow.js:381-387 | A rule that starts with `Host(` and has a complete `Host(`h`)` anywhere links to the scheme followed by the leftmost host capture, even when the opening clause is not one the pattern matches. |
| Links.RuleLinkNeedsHost | src/components/ThreeJSFlow.js:379-397 | A rule with no `Host(`…`)` in it gets no link. |
| Trees.EntrypointNodes | src/components/ThreeJSFlow.js:223-234 | One node per entrypoint, in key order, named by its key. The transport defaults to TCP. |
| Trees.MiddlewareGroup | src/components/ThreeJSFlow.js:237-269 | The "Middlewares" group exists exactly when there are middlewares. It holds one node per middleware, in order. |
| Trees.CertificateNode | src/components/ThreeJSFlow.js:282-290 | A certificate is named by `main`, else `domains.main`, else "Unknown Certificate". |
| Trees.CertificateGroup | src/components/ThreeJSFlow.js:272-311 | The "TLS Certificates" group exists exactly when there are certificates. It holds one node per certificate, in order. |
| Trees.BackendGroupsShape | src/components/ThreeJSFlow.js:237-311 | The optional groups carry no key, and together they contribute one leaf per middleware and per certificate. |
| Trees.EntrypointNodesNames | src/components/ThreeJSFlow.js:223-234 | The routes group cannot be found among the entrypoint nodes exactly when no entrypoint is named "Configured Routes". |
| Trees.ServerNode | src/components/ThreeJSFlow.js:321-337 | A server node is labelled by the address. When the `serverStatus` entry for the address is set and not empty, the status is that entry. The status is "Unknown" exactly when the entry is missing, empty or itself "Unknown". |
| Trees.EntryOf | src/components/ThreeJSFlow.js:321-349 | A `serviceMap` entry has the service's key and one server node per server, in order. |
| Trees.BuildServiceMap | src/components/ThreeJSFlow.js:313-350 | The service loop computes the service-map fold. |
| Trees.ServiceMapKeys | src/components/ThreeJSFlow.js:319-342 | A key is in `serviceMap` exactly when a `loadbalancer` service with a server list has it, and each entry is stored under its own key. |
| Trees.ServiceMapLast | src/components/ThreeJSFlow.js:341-342 | Every key of `serviceMap` has a last visualised service carrying it. |
| Trees.ServiceMapLastWins | src/components/ThreeJSFlow.js:342 | When several services share a key, the entry is built from the last of them. |
| Trees.FindByName | src/components/ThreeJSFlow.js:368 | `find` returns the first child with the name, or nothing when no child has it. |
| Trees.LinkRouters | src/components/ThreeJSFlow.js:353-443 | The router loop computes the linking fold over `Object.values(routers)`. |
| Trees.RouteNodeDetails | src/components/ThreeJSFlow.js:400-412 | A route node is a leaf named after its router. It records the `service@provider` key, names the mapped service or marks the key not found, and carries the rule's link. |
| Trees.RoutesOfSpec | src/components/ThreeJSFlow.js:355-413 | There is one route node per router that names a service, and none for any other router. |
| Trees.LinkedFrontage | src/components/ThreeJSFlow.js:367-413 | When no child is named "Configured Routes", the loop appends one such group, holding the route nodes in router order. It appends none when no router names a service. |
| Trees.LinkedFrontageCollision | src/components/ThreeJSFlow.js:368-413 | When a child already has that name, the route nodes go to that child and nothing is appended. |
| Trees.FirstRefsSpec | src/components/ThreeJSFlow.js:416-436 | The keys that get service nodes are distinct. A key is among them exactly when `serviceMap` has it and some router refers to it. |
| Trees.EntryNodesKeys | src/components/ThreeJSFlow.js:417 | After the key-less groups, `find` by key succeeds exactly for the added keys, and no key appears twice. |
| Trees.LinkedBackend | src/components/ThreeJSFlow.js:416-436 | The backend gains, after its groups, one service node per referenced key found in `serviceMap`, in first-reference order. |
| Trees.LeavesAppend | src/components/ThreeJSFlow.js:447 | The leaf count of two child lists together is the sum of their counts. |
| Trees.LeavesOfEntries | src/components/ThreeJSFlow.js:447 | Service nodes contribute their server counts to the leaf count. |
| Trees.Width | src/components/ThreeJSFlow.js:453-460 | The width is at least 300 and at least leaves times spacing, and it is one of the two. |
| Trees.WidthMonotone | src/components/ThreeJSFlow.js:453-460 | More leaves never give a narrower tree. |
| Flow.LoadData | src/components/ThreeJSFlow.js:10-461 | `loadData` computes `View`. |
| Flow.Draw | src/components/ThreeJSFlow.js:205-460 | The tree building and sizing compute `Render`. |
| Flow.View | src/components/ThreeJSFlow.js:25-183 | Nothing is built exactly when routers or services are missing. The message carries the lower-cased query. A drawing is the rendering of the collections shown. |
| Flow.ViewNotAvailable | src/components/ThreeJSFlow.js:25-28 | Nothing is built exactly when routers or services are missing. |
| Flow.ViewPassThrough | src/components/ThreeJSFlow.js:170-183 | Without a query, the snapshot's collections are drawn unchanged. The only exception is when routers and services are both empty: then `No results found for ""` is shown. |
| Flow.ViewFiltered | src/components/ThreeJSFlow.js:37-166 | With a query, only the message is produced exactly when the filter leaves every collection empty. Otherwise the filtered collections are drawn. |
| Flow.FrontageShape | src/components/ThreeJSFlow.js:223-413 | The frontage children are the entrypoint nodes in order, then the routes group with one node per router that names a service. The group is present when some router names a service and no entrypoint takes its name. |
| Flow.FrontageCollision | src/components/ThreeJSFlow.js:224-368 | An entrypoint named "Configured Routes" gets the route nodes, and the frontage has one child per entrypoint. |
| Flow.BackendShape | src/components/ThreeJSFlow.js:237-436 | The backend children are the optional middleware group, then the optional certificate group, then the service nodes in first-reference order. |
| Flow.BackendServiceNodes | src/components/ThreeJSFlow.js:319-436 | A service node for a key exists exactly when a router refers to the key and a `loadbalancer` service with servers has it. There is at most one per key. |
| Flow.RouteServiceMarker | src/components/ThreeJSFlow.js:358-409 | A route shows "Not Found/Visualized" exactly when no `loadbalancer` service with servers has its key. Otherwise it shows the last such service's name and provider. |
| Flow.BackendSizing | src/components/ThreeJSFlow.js:447-456 | The backend tree is drawn exactly when there are middlewares, certificates or service nodes. Its width counts one leaf per middleware, per certificate and per server of each service node. |
| Flow.FrontageSizing | src/components/ThreeJSFlow.js:448-460 | The frontage tree is drawn exactly when there is an entrypoint or a router naming a service. Its width counts the entrypoints plus the routes group. |
| Reducer.Reduce | src/reducers/index.js:22-119 | Each action changes only the fields its object literal names. |
| Reducer.Data | src/reducers/index.js:22 | A present state is reduced as it is. An absent state with an action of unknown type, the store's first call, gives the initial record. |
| Reducer.InitialState | src/reducers/index.js:10-22 | An absent state is the initial record, with every field at its initial value. |
| Reducer.UnknownIsIdentity | src/reducers/index.js:116-117 | An action of any other type returns the state unchanged. |
| Reducer.RequestsStartFetching | src/reducers/index.js:30-79 | Both request actions set fetching, clear invalidation and error, change nothing else, and have the same effect. |
| Reducer.FetchCycle | src/reducers/index.js:30-66 | A request, then routers, then services: the fetch ends with both stored, no error, valid data and the routers' time stamp. |
| Reducer.ReceivesAndFetching | src/reducers/index.js:46-66 | Routers alone leave `isFetching` as it was. Services clear it and keep `lastUpdated`. |
| Reducer.DataErrorKeepsData | src/reducers/index.js:67-73 | A data error ends the fetch, marks the data stale, stores the error and the time, and keeps routers and services. |
| Reducer.ConfigFallbacks | src/reducers/index.js:80-88 | A configuration sets readiness. A falsy URL or error keeps the previous one. Routers and services stay. |
| Reducer.SetUrlResets | src/reducers/index.js:89-100 | A new URL drops the data, clears the error, and marks the data invalid and the configuration ready. The query stays. |
| Reducer.SearchLastWins | src/reducers/index.js:101-110 | A search changes only the query. The last search wins, and repeating one changes nothing. |
| Reducer.InvalidateOnly | src/reducers/index.js:111-115 | Invalidating sets `didInvalidate`, clears the error, and changes nothing else. |
| Poller.AsyncApp.ComponentDidUpdate | src/containers/AsyncApp.js:30-71 | With no data, nothing happens. On a load: a load event, the held interval cleared, a fresh 15000 ms interval installed and held. Without a ready configuration the timer is cleared and dropped. Otherwise nothing changes. At most one interval is ever live. |
| Poller.AsyncApp.ComponentWillUnmount | src/containers/AsyncApp.js:84-88 | A held interval is cleared, leaving none live. The field itself is kept. |
| Poller.LoadDecision | src/containers/AsyncApp.js:39-48 | A load needs a ready configuration and either no routers or an invalidation. An update whose previous record equals the current one never loads. |
| Poller.AtMostOneInterval | src/containers/AsyncApp.js:52-62 | The controller never has more than one live interval. |
| Poller.NoLoadWithoutConfig | src/containers/AsyncApp.js:45-48 | Without a ready configuration nothing is loaded. |
| Poller.DataUpdatesDoNotReload | src/containers/AsyncApp.js:43-48 | An update that keeps the URL, when the configuration was already ready, never reloads. |
| Poller.FirstUpdate | src/containers/AsyncApp.js:39-48 | With no previous record, a load happens exactly when the configuration is ready and routers are absent or stale. |
| Poller.LoadAfterSetUrl | src/containers/AsyncApp.js:43-48 | After setting a URL, a load happens exactly when the URL is new or the configuration was not ready. |
| Poller.LoadWhenConfigBecomesReady | src/containers/AsyncApp.js:44-48 | A configuration that becomes ready loads when no routers were fetched yet. |
| App.AppShowsNoExtras | src/containers/AsyncApp.js:170 | The view of the store's state shows no entrypoint, middleware or certificate, filtered or not. |
| App.AppTrees | src/containers/AsyncApp.js:170 | In the application the backend holds only service nodes and the frontage at most the routes group. Drawing uses the collections shown. |

## Left out

- **Rendering:**
  - the d3 calls that clear and draw the SVG;
  - the `Tree` component;
  - the overview box;
  - images, class names and the exact HTML of the details.
  A tree drawing is the `Drawing` value handed to `createTree`. Details are structured fields.
- **Node sharing:** the service nodes of the backend share their server arrays with `serviceMap` in the source. The model builds the trees as values, so that sharing (aliasing) is not modelled.
- **Absent `children`:** nodes without a `children` field (middleware, certificate, server and route nodes) have an empty child list here.
- **Lower-casing and regular expressions:**
  - lower-casing is ASCII only;
  - the two regular expressions are modelled by their leftmost-match meaning, not by a regex engine.
- **JavaScript objects:**
  - integer-like keys, which JavaScript orders first, are not modelled;
  - lookups of keys such as `__proto__` or `constructor` in `serviceMap` and in a service's `serverStatus` are not modelled; for a server address of "constructor" the source reads an inherited function as the status and then throws when lower-casing it, while `Trees.ServerNode` gives "Unknown".
- **Exceptions:** the `try`/`catch` around link extraction is not modelled as such. No well-typed input makes that code throw (see the next item).
- **Well-typed input:** every field is taken to be a string, a list or an object of the expected type, with a falsy string standing for a missing one. These source behaviours on other input are not modelled:
  - an absent `name` is spelled "undefined" in the key templates at ThreeJSFlow.js lines 48 and 75, so the key is "undefined@provider"; the model's key is "@provider";
  - a non-string entrypoint makes `ep.toLowerCase()` throw at lines 385 and 394; the `catch` at line 397 logs and keeps `'#'`;
  - a non-string `san` throws, uncaught, at line 147;
  - the reducer's `error` is a string here, but the action creators also store the status object or the network error, and both are always truthy.
- **`componentDidUpdate` of the view:** its lodash deep-equality check only decides whether `loadData` runs again; in the model it is value equality, and it is not modelled separately.
- **I/O and timing:**
  - the HTTP API routes;
  - the action creators' `fetch` and Promise chains;
  - `Date.now()`;
  - the real timers.
  Received data and time stamps are action parameters. Interval firings are not modelled.
- **Container:** its `render` method and the input components are not modelled.
- Trees.ServerNode: the status class name, which lower-cases the status, is not modelled.
