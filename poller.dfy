/**
 * The polling controller of the application's container component: after every
 * update it decides whether to load the data, and it keeps at most one polling
 * interval in its `timer` field. Loads and interval calls are recorded as events;
 * nothing runs, and the interval's later firings are not modelled.
 */
module Poller {
  import opened Wrappers
  import opened Reducer

  const PollInterval := 15000

  datatype Event =
    | Load(url: Option<string>)
    | SetInterval(handle: nat, delay: nat, url: Option<string>)
    | ClearInterval(handle: nat)

  /** The live handles after one more event. */
  function AfterEvent(live: set<nat>, e: Event): set<nat> {
    match e
    case Load(_) => live
    case SetInterval(h, _, _) => live + {h}
    case ClearInterval(h) => live - {h}
  }

  /** The handles of the intervals installed and not cleared yet. */
  function Live(events: seq<Event>): set<nat>
    decreases |events|
  {
    if events == [] then {} else AfterEvent(Live(events[..|events| - 1]), events[|events| - 1])
  }

  lemma LiveStep(events: seq<Event>, e: Event)
    ensures Live(events + [e]) == AfterEvent(Live(events), e)
  {
    assert (events + [e])[..|events|] == events;
  }

  /** `clearInterval(this.timer)` when a timer is held. */
  function Clears(timer: Option<nat>): seq<Event> {
    if timer.Some? then [ClearInterval(timer.value)] else []
  }

  /** `traefikData.traefik_url !== prevTraefikUrl`, where a missing previous record gives `undefined`. */
  predicate UrlChanged(prev: Option<DataState>, cur: DataState) {
    prev.None? || prev.value.traefikUrl != cur.traefikUrl
  }

  predicate JustReady(prev: Option<DataState>, cur: DataState) {
    cur.configReady && !(prev.Some? && prev.value.configReady)
  }

  /** Whether the update loads the data and (re)installs the polling interval. */
  predicate LoadDecision(prev: Option<DataState>, cur: DataState): (load: bool)
    ensures load ==> cur.configReady && (cur.routers.None? || cur.didInvalidate)
    ensures prev == Some(cur) ==> !load
  {
    (UrlChanged(prev, cur) || JustReady(prev, cur)) && cur.configReady && (cur.routers.None? || cur.didInvalidate)
  }

  class AsyncApp {
    var timer: Option<nat>
    var nextHandle: nat
    var events: seq<Event>

    ghost function TimerSet(): set<nat>
      reads this
    {
      if timer.Some? then {timer.value} else {}
    }

    /** Interval handles are positive and fresh, and every live interval is the held one. */
    ghost predicate Valid()
      reads this
    {
      && 1 <= nextHandle
      && (timer.Some? ==> 1 <= timer.value < nextHandle)
      && Live(events) <= TimerSet()
    }

    constructor ()
      ensures Valid() && timer.None? && events == []
    {
      timer := None;
      nextHandle := 1;
      events := [];
    }

    method ComponentDidUpdate(prev: Option<DataState>, cur: Option<DataState>)
      requires Valid()
      modifies this
      ensures Valid()
      ensures cur.None? ==> timer == old(timer) && nextHandle == old(nextHandle) && events == old(events)
      ensures cur.Some? && LoadDecision(prev, cur.value) ==>
        && timer == Some(old(nextHandle)) && nextHandle == old(nextHandle) + 1
        && events == old(events) + [Load(cur.value.traefikUrl)] + Clears(old(timer)) +
                     [SetInterval(old(nextHandle), PollInterval, cur.value.traefikUrl)]
        && Live(events) == {old(nextHandle)}
      ensures cur.Some? && !LoadDecision(prev, cur.value) && !cur.value.configReady ==>
        && timer.None? && nextHandle == old(nextHandle) && events == old(events) + Clears(old(timer))
        && Live(events) == {}
      ensures cur.Some? && !LoadDecision(prev, cur.value) && cur.value.configReady ==>
        timer == old(timer) && nextHandle == old(nextHandle) && events == old(events)
    {
      if cur.None? {
        return;
      }
      var data := cur.value;
      var held := timer;
      var log := events;
      if LoadDecision(prev, data) {
        LiveStep(log, Load(data.traefikUrl));
        log := log + [Load(data.traefikUrl)];
        if held.Some? {
          LiveStep(log, ClearInterval(held.value));
          log := log + [ClearInterval(held.value)];
          held := None;
        }
        assert Live(log) == {};
        if data.configReady {
          var handle := nextHandle;
          LiveStep(log, SetInterval(handle, PollInterval, data.traefikUrl));
          log := log + [SetInterval(handle, PollInterval, data.traefikUrl)];
          nextHandle := nextHandle + 1;
          held := Some(handle);
        }
      }
      if !data.configReady && held.Some? {
        LiveStep(log, ClearInterval(held.value));
        log := log + [ClearInterval(held.value)];
        held := None;
      }
      timer := held;
      events := log;
    }

    method ComponentWillUnmount()
      requires Valid()
      modifies this
      ensures Valid()
      ensures timer == old(timer) && nextHandle == old(nextHandle)
      ensures events == old(events) + Clears(old(timer))
      ensures Live(events) == {}
    {
      if timer.Some? {
        LiveStep(events, ClearInterval(timer.value));
        events := events + [ClearInterval(timer.value)];
      }
    }
  }

  /** The controller never holds more than one live interval. */
  lemma AtMostOneInterval(app: AsyncApp)
    requires app.Valid()
    ensures |Live(app.events)| <= 1
  {
    assert |app.TimerSet()| <= 1;
    SubsetCard(Live(app.events), app.TimerSet());
  }

  lemma SubsetCard(a: set<nat>, b: set<nat>)
    requires a <= b
    ensures |a| <= |b|
  {
    assert b == a + (b - a);
  }

  /** Without a ready configuration nothing is loaded. */
  lemma NoLoadWithoutConfig(prev: Option<DataState>, cur: DataState)
    requires !cur.configReady
    ensures !LoadDecision(prev, cur)
  {
  }

  /** An update that keeps the URL and a configuration that was already ready never reloads, whatever data arrived. */
  lemma DataUpdatesDoNotReload(prev: DataState, cur: DataState)
    requires prev.traefikUrl == cur.traefikUrl && prev.configReady
    ensures !LoadDecision(Some(prev), cur)
  {
  }

  /** The first update with a ready configuration loads when there are no routers yet or they are stale. */
  lemma FirstUpdate(cur: DataState)
    ensures LoadDecision(None, cur) <==> cur.configReady && (cur.routers.None? || cur.didInvalidate)
  {
  }

  /** Setting a URL reloads exactly when the URL is new or the configuration was not ready. */
  lemma LoadAfterSetUrl(s: DataState, url: string)
    ensures LoadDecision(Some(s), Reduce(s, SetUrl(url))) <==> s.traefikUrl != Some(url) || !s.configReady
  {
  }

  /** A configuration that becomes ready loads when no routers were fetched yet. */
  lemma LoadWhenConfigBecomesReady(s: DataState, configError: Option<string>, url: Option<string>)
    requires !s.configReady && s.routers.None?
    ensures LoadDecision(Some(s), Reduce(s, ReceiveConfig(true, configError, url)))
  {
  }
}
