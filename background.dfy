/** The background service worker: a repeating timer that polls the
    geolocation service, compares the reported country with the last one seen,
    and reflects the result in the toolbar icon and title. The network call
    is an input (PollResult); the speech alert, the icon and the title are
    recorded as outputs. */
module Background {
  import opened Common

  /** What one `fetch` of the geolocation endpoint yields. Failed covers a
      response that is not ok, a rejected fetch and a body that is not JSON:
      each throws before any state is touched. Fetched carries the `country`
      and `ip` fields of the body, None where a field is missing. */
  datatype PollResult = Failed | Fetched(country: Option<string>, ip: Option<string>)

  /** The toolbar icon path and title as last set by the poller. */
  datatype Indicator = Indicator(iconPath: string, title: string)

  /** What the catch block shows. */
  const ErrorIndicator: Indicator := Indicator("icons/error.png", "Ошибка получения IP")

  /** `toLowerCase` on the ASCII letters of a country code. */
  function LowerChar(c: char): char {
    if 'A' <= c <= 'Z' then (c as int + 32) as char else c
  }

  function Lower(s: string): (r: string)
    ensures |r| == |s|
    ensures forall i :: 0 <= i < |s| ==> r[i] == LowerChar(s[i])
  {
    if s == [] then [] else [LowerChar(s[0])] + Lower(s[1..])
  }

  /** The icon shown for a country code. */
  function IconPath(country: string): string {
    "icons/" + Lower(country) + ".png"
  }

  /** How a template literal renders the `ip` field. */
  function IpText(ip: Option<string>): string {
    if ip.Some? then ip.value else "undefined"
  }

  /** The title shown for a country and an IP. */
  function Title(country: string, ip: Option<string>): string {
    "Страна: " + country + "\nIP: " + IpText(ip)
  }

  /** The icon path is "icons/", the lowered country code, then ".png". */
  lemma IconPathShape(country: string)
    ensures |IconPath(country)| == |country| + 10
    ensures IconPath(country)[..6] == "icons/"
    ensures IconPath(country)[6..6 + |country|] == Lower(country)
    ensures IconPath(country)[6 + |country|..] == ".png"
  {
  }

  /** The title holds the country right after its 8-character label
      "Страна: ", then "\nIP: ", and ends with the IP. */
  lemma TitleShowsCountryAndIp(country: string, ip: Option<string>)
    ensures |Title(country, ip)| == 8 + |country| + 5 + |IpText(ip)|
    ensures Title(country, ip)[..8] == "Страна: "
    ensures Title(country, ip)[8..8 + |country|] == country
    ensures Title(country, ip)[8 + |country|..8 + |country| + 5] == "\nIP: "
    ensures Title(country, ip)[|Title(country, ip)| - |IpText(ip)|..] == IpText(ip)
  {
    assert |"Страна: "| == 8;
  }

  /** The part of the worker's state that one poll can change: the in-memory
      `lastCountry`, the number of speech alerts played, the number of fetches
      issued, the indicator (None until the first poll sets one) and the
      storage. */
  datatype PollState = PollState(
    lastCountry: Option<string>,
    alerts: nat,
    fetches: nat,
    indicator: Option<Indicator>,
    storage: map<Key, Value>)

  /** One run of `updateIPInfo` with the given fetch result. A response
      without `country` goes through the alert check and the `lastCountry`
      overwrite before `country.toLowerCase()` throws and the catch block
      shows the error indicator; writing an undefined `lastCountry` stores
      nothing. */
  function Poll(v: PollState, r: PollResult): (w: PollState)
    ensures w.fetches == v.fetches + 1
    ensures w.alerts == v.alerts + 1 <==> r.Fetched? && Truthy(v.lastCountry) && v.lastCountry != r.country
    ensures w.alerts == v.alerts || w.alerts == v.alerts + 1
    ensures r.Failed? ==> w.lastCountry == v.lastCountry && w.storage == v.storage
    ensures r.Fetched? ==> w.lastCountry == r.country
    ensures r.Fetched? && r.country.Some? ==>
      && w.storage == v.storage[LastCountry := Str(r.country.value)]
      && w.indicator == Some(Indicator(IconPath(r.country.value), Title(r.country.value, r.ip)))
    ensures r.Failed? || r.country.None? ==> w.indicator == Some(ErrorIndicator)
    ensures r.Fetched? && r.country.None? ==> w.storage == v.storage
  {
    match r
    case Failed =>
      v.(fetches := v.fetches + 1, indicator := Some(ErrorIndicator))
    case Fetched(country, ip) =>
      var alerts := if Truthy(v.lastCountry) && v.lastCountry != country then v.alerts + 1 else v.alerts;
      var storage := if country.Some? then v.storage[LastCountry := Str(country.value)] else v.storage;
      var updated := v.(lastCountry := country, alerts := alerts, fetches := v.fetches + 1, storage := storage);
      if country.None? then updated.(indicator := Some(ErrorIndicator))
      else updated.(indicator := Some(Indicator(IconPath(country.value), Title(country.value, ip))))
  }

  /** A series of polls, one per result, in order. */
  function Run(v: PollState, rs: seq<PollResult>): PollState
    decreases |rs|
  {
    if rs == [] then v else Run(Poll(v, rs[0]), rs[1..])
  }

  /** The `country` fields of the responses in a series, in order; failed
      fetches contribute nothing. */
  function Countries(rs: seq<PollResult>): seq<Option<string>> {
    if rs == [] then []
    else (if rs[0].Fetched? then [rs[0].country] else []) + Countries(rs[1..])
  }

  /** The countries that were present in the responses, in order. */
  function PresentCountries(rs: seq<PollResult>): seq<string> {
    if rs == [] then []
    else (if rs[0].Fetched? && rs[0].country.Some? then [rs[0].country.value] else []) + PresentCountries(rs[1..])
  }

  /** How many times a known country is followed by a different value in a
      sequence of observed countries. */
  function Changes(cs: seq<Option<string>>): nat {
    if |cs| < 2 then 0
    else (if Truthy(cs[0]) && cs[0] != cs[1] then 1 else 0) + Changes(cs[1..])
  }

  function Last<T>(s: seq<T>): T
    requires s != []
  {
    s[|s| - 1]
  }

  /** Over any series of polls: one fetch per poll; `lastCountry` is the
      country of the most recent response (unchanged if every fetch failed);
      and the alerts played are exactly the changes away from a known
      country along the observed countries. */
  lemma {:induction false} RunObserves(v: PollState, rs: seq<PollResult>)
    ensures Run(v, rs).fetches == v.fetches + |rs|
    ensures Run(v, rs).lastCountry == Last([v.lastCountry] + Countries(rs))
    ensures Run(v, rs).alerts == v.alerts + Changes([v.lastCountry] + Countries(rs))
    decreases |rs|
  {
    if rs != [] {
      var w := Poll(v, rs[0]);
      RunObserves(w, rs[1..]);
      var tail := [w.lastCountry] + Countries(rs[1..]);
      if rs[0].Fetched? {
        assert [v.lastCountry] + Countries(rs) == [v.lastCountry] + tail;
      } else {
        assert [v.lastCountry] + Countries(rs) == tail;
      }
    }
  }

  /** Over any series of polls, the stored `lastCountry` is the last country
      a response actually carried; with none, storage is untouched. A
      response without `country` clears the in-memory value but not the
      stored one. */
  lemma {:induction false} RunStores(v: PollState, rs: seq<PollResult>)
    ensures Run(v, rs).storage ==
      if PresentCountries(rs) == [] then v.storage
      else v.storage[LastCountry := Str(Last(PresentCountries(rs)))]
    decreases |rs|
  {
    if rs != [] {
      var w := Poll(v, rs[0]);
      RunStores(w, rs[1..]);
      if rs[0].Fetched? && rs[0].country.Some? {
        assert PresentCountries(rs) == [rs[0].country.value] + PresentCountries(rs[1..]);
      } else {
        assert PresentCountries(rs) == PresentCountries(rs[1..]);
      }
    }
  }

  /** While every response reports the same country `c`, and the worker
      starts with no country or with `c`, no alert is played. */
  lemma {:induction false} StableCountryNeverAlerts(v: PollState, rs: seq<PollResult>, c: string)
    requires v.lastCountry == None || v.lastCountry == Some(c)
    requires forall i :: 0 <= i < |rs| && rs[i].Fetched? ==> rs[i].country == Some(c)
    ensures Run(v, rs).alerts == v.alerts
    decreases |rs|
  {
    if rs != [] {
      StableCountryNeverAlerts(Poll(v, rs[0]), rs[1..], c);
    }
  }

  /** A series of failed fetches leaves the country, the alerts and the
      storage as they were, and ends on the error indicator. */
  lemma {:induction false} FailuresChangeNothing(v: PollState, rs: seq<PollResult>)
    requires forall i :: 0 <= i < |rs| ==> rs[i].Failed?
    ensures Run(v, rs).lastCountry == v.lastCountry
    ensures Run(v, rs).alerts == v.alerts
    ensures Run(v, rs).storage == v.storage
    ensures rs != [] ==> Run(v, rs).indicator == Some(ErrorIndicator)
    decreases |rs|
  {
    if rs != [] {
      FailuresChangeNothing(Poll(v, rs[0]), rs[1..]);
    }
  }

  /** The service worker's module state (`lastCountry`, `updateTimer`), the
      browser's live interval timers, and the outputs of the polls. */
  class Poller {
    const store: LocalStorage
    var lastCountry: Option<string>
    /** The handle of the timer `startTimer` armed last, None before that. */
    var updateTimer: Option<nat>
    /** The live `setInterval` timers: handle -> period in seconds. */
    var timers: map<nat, int>
    /** The browser's next timer handle; handles are positive, hence truthy. */
    var nextHandle: nat
    var alerts: nat
    var fetches: nat
    var indicator: Option<Indicator>

    /** At most one timer is live, and it is the one `updateTimer` holds. */
    ghost predicate Valid()
      reads this
    {
      && 1 <= nextHandle
      && timers.Keys == (if updateTimer.Some? then {updateTimer.value} else {})
      && (updateTimer.Some? ==> 1 <= updateTimer.value < nextHandle)
    }

    ghost function State(): PollState
      reads this, store
    {
      PollState(lastCountry, alerts, fetches, indicator, store.data)
    }

    /** A fresh worker: `lastCountry` and `updateTimer` are null. */
    constructor (store: LocalStorage)
      ensures Valid() && this.store == store
      ensures lastCountry == None && updateTimer == None && timers == map[]
      ensures alerts == 0 && fetches == 0 && indicator == None
    {
      this.store := store;
      lastCountry := None;
      updateTimer := None;
      timers := map[];
      nextHandle := 1;
      alerts := 0;
      fetches := 0;
      indicator := None;
    }

    /** `updateIPInfo`, given what the fetch returned. */
    method UpdateIPInfo(r: PollResult)
      requires Valid()
      modifies this`lastCountry, this`alerts, this`fetches, this`indicator, store
      ensures Valid()
      ensures State() == Poll(old(State()), r)
    {
      fetches := fetches + 1;
      match r {
        case Failed =>
          indicator := Some(ErrorIndicator);
        case Fetched(country, ip) =>
          if Truthy(lastCountry) && lastCountry != country {
            alerts := alerts + 1;
          }
          lastCountry := country;
          if country.Some? {
            store.Set(map[LastCountry := Str(country.value)]);
          }
          if country.None? {
            indicator := Some(ErrorIndicator);
          } else {
            indicator := Some(Indicator(IconPath(country.value), Title(country.value, ip)));
          }
      }
    }

    /** `startTimer`: reads the interval, clears the previous timer, arms a
        new one and polls once at once (with result `r`). */
    method StartTimer(r: PollResult)
      requires Valid()
      modifies this, store
      ensures Valid()
      ensures updateTimer == Some(old(nextHandle))
      ensures timers == map[old(nextHandle) := IntervalOrDefault(old(store.data))]
      ensures old(updateTimer).Some? ==> old(updateTimer).value !in timers
      ensures State() == Poll(old(State()), r)
    {
      var intervalSec := IntervalOrDefault(store.data);
      if updateTimer.Some? {
        timers := timers - {updateTimer.value};
      }
      updateTimer := Some(nextHandle);
      timers := timers[nextHandle := intervalSec];
      nextHandle := nextHandle + 1;
      UpdateIPInfo(r);
    }

    /** The timer with the given handle fires: a live timer runs one poll,
        a cleared one does nothing. */
    method Tick(handle: nat, r: PollResult)
      requires Valid()
      modifies this`lastCountry, this`alerts, this`fetches, this`indicator, store
      ensures Valid()
      ensures State() == if handle in timers then Poll(old(State()), r) else old(State())
    {
      if handle in timers {
        UpdateIPInfo(r);
      }
    }

    /** `restoreLastCountry`: the stored country, or null. */
    method RestoreLastCountry()
      requires Valid()
      modifies this`lastCountry
      ensures Valid()
      ensures lastCountry == TruthyString(store.data, LastCountry)
    {
      lastCountry := TruthyString(store.data, LastCountry);
    }

    /** The `onInstalled` listener: restore, store interval 3, start. */
    method OnInstalled(r: PollResult)
      requires Valid()
      modifies this, store
      ensures Valid()
      ensures updateTimer == Some(old(nextHandle))
      ensures timers == map[old(nextHandle) := DefaultIntervalSec]
      ensures State() == Poll(old(State()).(
        lastCountry := TruthyString(old(store.data), LastCountry),
        storage := old(store.data)[Interval := Int(DefaultIntervalSec)]), r)
    {
      ghost var before := State();
      RestoreLastCountry();
      store.Set(map[Interval := Int(DefaultIntervalSec)]);
      assert store.data == old(store.data)[Interval := Int(DefaultIntervalSec)];
      assert IntervalOrDefault(store.data) == DefaultIntervalSec;
      ghost var restored := State();
      assert restored == before.(
        lastCountry := TruthyString(old(store.data), LastCountry),
        storage := old(store.data)[Interval := Int(DefaultIntervalSec)]);
      StartTimer(r);
    }

    /** The `onStartup` listener: restore, start. */
    method OnStartup(r: PollResult)
      requires Valid()
      modifies this, store
      ensures Valid()
      ensures updateTimer == Some(old(nextHandle))
      ensures timers == map[old(nextHandle) := IntervalOrDefault(old(store.data))]
      ensures State() == Poll(old(State()).(lastCountry := TruthyString(old(store.data), LastCountry)), r)
    {
      RestoreLastCountry();
      StartTimer(r);
    }

    /** The `onMessage` listener: only `restartTimer` is handled; any other
        action, `enableExtension` and `disableExtension` included, changes
        nothing. */
    method OnMessage(msg: Message, r: PollResult)
      requires Valid()
      modifies this, store
      ensures Valid()
      ensures msg.action != RestartTimer ==> unchanged(this, store)
      ensures msg.action == RestartTimer ==>
        && updateTimer == Some(old(nextHandle))
        && timers == map[old(nextHandle) := IntervalOrDefault(old(store.data))]
        && State() == Poll(old(State()), r)
    {
      if msg.action == RestartTimer {
        StartTimer(r);
      }
    }
  }
}
