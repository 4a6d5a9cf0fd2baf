/**
 * The `data` reducer of the application's store: a total function from a state record
 * and an action to the next state record. Each action writes a fixed set of fields;
 * every other field is copied from the previous state.
 */
module Reducer {
  import opened Wrappers
  import opened Dicts
  import opened Topology

  /**
   * The state record. `traefikUrl`, `routers`, `services`, `error` and `lastUpdated`
   * are `None` where the source holds `null`.
   */
  datatype DataState = DataState(
    isFetching: bool,
    didInvalidate: bool,
    configReady: bool,
    traefikUrl: Option<string>,
    routers: Option<Object<Router>>,
    services: Option<Object<Service>>,
    searchQuery: string,
    error: Option<string>,
    lastUpdated: Option<int>)

  /** The actions the reducer handles, with their payloads; `Unknown` stands for any other type. */
  datatype Action =
    | RequestTraefikData
    | ReceiveTraefikRouters(routers: Option<Object<Router>>, receivedAt: int)
    | ReceiveTraefikServices(services: Option<Object<Service>>)
    | ReceiveTraefikDataError(error: Option<string>, receivedAt: int)
    | RequestConfig
    | ReceiveConfig(ready: bool, configError: Option<string>, url: Option<string>)
    | SetUrl(newUrl: string)
    | Search(query: string)
    | InvalidateData
    | Unknown(kind: string)

  function Initial(): DataState {
    DataState(false, false, false, None, None, None, "", None, None)
  }

  /** JavaScript truthiness of an optional string: present and not empty. */
  predicate Truthy(s: Option<string>) {
    s.Some? && s.value != ""
  }

  /** `a || b` on optional strings. */
  function Or(a: Option<string>, b: Option<string>): (r: Option<string>)
    ensures Truthy(a) ==> r == a
    ensures !Truthy(a) ==> r == b
  {
    if Truthy(a) then a else b
  }

  datatype Field =
    | IsFetching | DidInvalidate | ConfigReady | TraefikUrl | Routers | Services | SearchQuery | Error | LastUpdated

  /** The fields in which two states differ. */
  function Changed(s: DataState, t: DataState): set<Field> {
    (if s.isFetching != t.isFetching then {IsFetching} else {}) +
    (if s.didInvalidate != t.didInvalidate then {DidInvalidate} else {}) +
    (if s.configReady != t.configReady then {ConfigReady} else {}) +
    (if s.traefikUrl != t.traefikUrl then {TraefikUrl} else {}) +
    (if s.routers != t.routers then {Routers} else {}) +
    (if s.services != t.services then {Services} else {}) +
    (if s.searchQuery != t.searchQuery then {SearchQuery} else {}) +
    (if s.error != t.error then {Error} else {}) +
    (if s.lastUpdated != t.lastUpdated then {LastUpdated} else {})
  }

  /** The fields each action's object literal names. */
  function Writes(a: Action): set<Field> {
    match a
    case RequestTraefikData => {IsFetching, DidInvalidate, Error}
    case ReceiveTraefikRouters(_, _) => {DidInvalidate, Routers, Error, LastUpdated}
    case ReceiveTraefikServices(_) => {IsFetching, DidInvalidate, Services, Error}
    case ReceiveTraefikDataError(_, _) => {IsFetching, DidInvalidate, Error, LastUpdated}
    case RequestConfig => {IsFetching, DidInvalidate, Error}
    case ReceiveConfig(_, _, _) => {IsFetching, ConfigReady, Error, TraefikUrl}
    case SetUrl(_) => {TraefikUrl, Routers, Services, Error, DidInvalidate, ConfigReady}
    case Search(_) => {SearchQuery}
    case InvalidateData => {DidInvalidate, Error}
    case Unknown(_) => {}
  }

  /** One step of the reducer; it writes only the fields its action names. */
  function Reduce(s: DataState, a: Action): (t: DataState)
    ensures Changed(s, t) <= Writes(a)
  {
    match a
    case RequestTraefikData => s.(isFetching := true, didInvalidate := false, error := None)
    case ReceiveTraefikRouters(routers, receivedAt) =>
      s.(didInvalidate := false, routers := routers, error := None, lastUpdated := Some(receivedAt))
    case ReceiveTraefikServices(services) =>
      s.(isFetching := false, didInvalidate := false, services := services, error := None)
    case ReceiveTraefikDataError(error, receivedAt) =>
      s.(isFetching := false, didInvalidate := true, error := error, lastUpdated := Some(receivedAt))
    case RequestConfig => s.(isFetching := true, didInvalidate := false, error := None)
    case ReceiveConfig(ready, configError, url) =>
      s.(isFetching := false, configReady := ready, error := Or(configError, s.error), traefikUrl := Or(url, s.traefikUrl))
    case SetUrl(newUrl) =>
      s.(traefikUrl := Some(newUrl), routers := None, services := None, error := None, didInvalidate := true, configReady := true)
    case Search(query) => s.(searchQuery := query)
    case InvalidateData => s.(didInvalidate := true, error := None)
    case Unknown(_) => s
  }

  /** `data(state = initialDataState, action)`: an absent state is the initial one. */
  function Data(s: Option<DataState>, a: Action): (next: DataState)
    ensures s.Some? ==> next == Reduce(s.value, a)
    ensures s.None? && a.Unknown? ==> next == Initial()
  {
    Reduce(s.GetOr(Initial()), a)
  }

  /** The initial record, which an absent state stands for. */
  lemma InitialState(a: Action)
    ensures Data(None, a) == Reduce(Initial(), a)
    ensures var s := Initial();
      && !s.isFetching && !s.didInvalidate && !s.configReady && s.traefikUrl.None?
      && s.routers.None? && s.services.None? && s.searchQuery == "" && s.error.None? && s.lastUpdated.None?
  {
  }

  /** An action of any other type leaves the state as it is. */
  lemma UnknownIsIdentity(s: DataState, kind: string)
    ensures Reduce(s, Unknown(kind)) == s
  {
  }

  /** The two request actions start a fetch and clear the error, with the same effect. */
  lemma RequestsStartFetching(s: DataState)
    ensures Reduce(s, RequestTraefikData) == Reduce(s, RequestConfig)
    ensures var t := Reduce(s, RequestTraefikData);
      t.isFetching && !t.didInvalidate && t.error.None? && Changed(s, t) <= {IsFetching, DidInvalidate, Error}
  {
  }

  /**
   * A request followed by routers and then services ends the fetch with both stored, no
   * error, valid data and the routers' time stamp; configuration, URL and query are kept.
   */
  lemma FetchCycle(s: DataState, routers: Option<Object<Router>>, services: Option<Object<Service>>, at: int)
    ensures var t := Reduce(Reduce(Reduce(s, RequestTraefikData), ReceiveTraefikRouters(routers, at)), ReceiveTraefikServices(services));
      && !t.isFetching && !t.didInvalidate && t.error.None?
      && t.routers == routers && t.services == services && t.lastUpdated == Some(at)
      && t.configReady == s.configReady && t.traefikUrl == s.traefikUrl && t.searchQuery == s.searchQuery
  {
  }

  /** Routers alone do not end the fetch; services do. */
  lemma ReceivesAndFetching(s: DataState, routers: Option<Object<Router>>, services: Option<Object<Service>>, at: int)
    ensures Reduce(s, ReceiveTraefikRouters(routers, at)).isFetching == s.isFetching
    ensures !Reduce(s, ReceiveTraefikServices(services)).isFetching
    ensures Reduce(s, ReceiveTraefikServices(services)).lastUpdated == s.lastUpdated
  {
  }

  /** A data error ends the fetch and marks the data stale, keeping whatever data there was. */
  lemma DataErrorKeepsData(s: DataState, error: Option<string>, at: int)
    ensures var t := Reduce(s, ReceiveTraefikDataError(error, at));
      && !t.isFetching && t.didInvalidate && t.error == error && t.lastUpdated == Some(at)
      && t.routers == s.routers && t.services == s.services
  {
  }

  /** A configuration without a URL or an error keeps the previous ones; routers and services stay. */
  lemma ConfigFallbacks(s: DataState, ready: bool, configError: Option<string>, url: Option<string>)
    ensures var t := Reduce(s, ReceiveConfig(ready, configError, url));
      && !t.isFetching && t.configReady == ready
      && (t.traefikUrl == if Truthy(url) then url else s.traefikUrl)
      && (t.error == if Truthy(configError) then configError else s.error)
      && t.routers == s.routers && t.services == s.services
  {
  }

  /** A new URL drops the data and marks it invalid and the configuration ready; the query stays. */
  lemma SetUrlResets(s: DataState, url: string)
    ensures var t := Reduce(s, SetUrl(url));
      && t.traefikUrl == Some(url) && t.routers.None? && t.services.None? && t.error.None?
      && t.didInvalidate && t.configReady && t.searchQuery == s.searchQuery
      && t.isFetching == s.isFetching && t.lastUpdated == s.lastUpdated
  {
  }

  /** Searching changes only the query, so the last search wins and repeating it changes nothing. */
  lemma SearchLastWins(s: DataState, q1: string, q2: string)
    ensures Changed(s, Reduce(s, Search(q1))) <= {SearchQuery}
    ensures Reduce(Reduce(s, Search(q1)), Search(q2)) == Reduce(s, Search(q2))
    ensures Reduce(Reduce(s, Search(q1)), Search(q1)) == Reduce(s, Search(q1))
  {
  }

  /** Invalidating marks the data stale and clears the error, and nothing else. */
  lemma InvalidateOnly(s: DataState)
    ensures var t := Reduce(s, InvalidateData);
      t.didInvalidate && t.error.None? && t == s.(didInvalidate := true, error := None)
  {
  }
}
