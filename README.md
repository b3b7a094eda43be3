# geo-ip: a Dafny model of the poller and the control panel

geo-ip is a browser extension that polls an IP-geolocation service on a
repeating timer, shows the reported country as the toolbar icon and the
country and IP as its title, and speaks an alert when the country changes.
A popup panel lets the user switch the extension on and off, set the polling
interval and the audio alert, and copy the current IP.

This project models the two pieces of that extension that hold state:

- `background.dfy` (module `Background`): the service worker of
  `background.js`. The pure step `Poll` is one run of `updateIPInfo` on a
  `PollState` (in-memory `lastCountry`, alert count, fetch count, indicator,
  storage); `Run` folds it over a series of fetch results, and the lemmas
  about `Run` state what the worker observes over time. The class `Poller`
  holds the module state (`lastCountry`, `updateTimer`), the browser's live
  interval timers and the outputs; each of its methods is one function or
  listener of the script; the polling methods are proved against `Poll`
  (`RestoreLastCountry` against `TruthyString`), and its invariant `Valid`
  says that at most one timer is live and that it is the one `updateTimer`
  holds.
- `popup.dfy` (module `Popup`): the panel of `popup.js`. `LoadSettings` gives
  the defaults shown on load, `ValidInterval` is the save handler's range
  check, `Saved` is the storage after a successful save. The class
  `ControlPanel` holds the page state the script changes (`currentIP`, the
  toggle, the inputs, the displayed IP and country, the copy button, the
  settings panel, the status banner) plus the messages it sent and the texts
  it copied; its invariant says the copy button is enabled exactly while an
  IP is known and displayed.
- `common.dfy` (module `Common`): the storage as a synchronous map from
  `Key` to `Value` inside the class `LocalStorage`, which both scripts share;
  runtime messages; and the JavaScript truthiness rules the scripts rely on
  (`lastCountry && …`, `res.interval || 3`, `res.key !== false`).
- `extension.dfy` (module `Extension`): the two together, such as a valid
  save making the next timer run at the saved interval, and client methods
  that walk through a country change, a failed fetch, a rejected interval, a
  restart from the panel and a disable.

Inputs from outside become parameters: the result of each fetch is a
`PollResult` (`Failed`, or `Fetched` with the `country` and `ip` fields,
either possibly missing), the interval and audio values the user has typed
are arguments of `OnSave`, and a click's target is an argument of
`OnIpClick`. Outputs are recorded as data: the number of speech alerts, the
number of fetches, the icon path and title, the storage writes, the messages
sent and the clipboard writes.

Four things the code does that a reader might not expect, all kept by the
model:

- The background script has no handler for `enableExtension` or
  `disableExtension`; only `restartTimer` is acted on, so switching the
  extension off in the panel stores the flag and stops nothing
  (`Poller.OnMessage`).
- The speech alert does not consult the stored `audioAlert` flag; every
  detected change plays it (`Poll` counts it unconditionally).
- A response without `country` is not kept away from the observed state: the
  alert check runs (and fires when a country was known) and `lastCountry`
  becomes undefined before `country.toLowerCase()` throws and the error icon
  is shown.
- The background script never sends `updatePopup` and never writes
  `currentIP` or `currentCountry`; the panel reads them and handles the
  message, but in this extension nothing produces them.

## Model

| member | source | states |
|---|---|---|
| Common.Truthy | background.js:36 | the test `lastCountry && …`: a country counts as known exactly when it is neither null/undefined nor the empty string |
| Common.NotStoredFalse | popup.js:25 | `res.key !== false`: true when the key is absent and whenever it holds anything but the boolean false |
| Common.TruthyString | background.js:77 | `res.lastCountry` or null (and the `if (res.currentIP)` guard): a stored non-empty string is returned, anything else, absence included, gives null |
| Common.IntervalOrDefault | background.js:63 | `res.interval` or `DEFAULT_INTERVAL_SEC`: the stored non-zero interval, or 3 when it is missing or zero; never 0 |
| Common.LocalStorage.constructor | background.js:62 | the storage as persisted before the worker or panel starts |
| Common.LocalStorage.Set | background.js:43 | `chrome.storage.local.set`: the written keys take the new values, every other key keeps its value |
| Background.Lower | background.js:45 | `toLowerCase` keeps the length and lowers each ASCII letter |
| Background.Poll | background.js:24-58 | one poll: one fetch; an alert exactly when the previous country was truthy and differs from the response's; a failed fetch keeps country and storage and shows the error icon; a response sets `lastCountry` to its country; with a country it is stored and the icon is `icons/<lowercase>.png` with the country/IP title; without one storage is kept and the error icon is shown |
| Background.RunObserves | background.js:36-42 | over any series of polls: one fetch each, `lastCountry` is the country of the last response (unchanged if all failed), and the alert count equals the number of changes away from a known country along the observed countries, so the first poll from a null state never alerts |
| Background.RunStores | background.js:41-43 | over any series of polls the stored `lastCountry` is the last country a response actually carried, or untouched if none did |
| Background.StableCountryNeverAlerts | background.js:36-39 | while all responses report the same country and the worker starts with none or that one, no alert is played |
| Background.FailuresChangeNothing | background.js:53-57 | a series of failed fetches leaves the country, alert count and storage as they were and ends on the error indicator |
| Background.IconPathShape | background.js:45 | the icon path is `icons/`, then the lowered country code, then `.png` |
| Background.TitleShowsCountryAndIp | background.js:50 | the title is the label `Страна: `, the country, `\nIP: `, then the IP (`undefined` if missing) |
| Background.Poller.constructor | background.js:4-5 | the worker starts with `lastCountry` and `updateTimer` null, no timer live and nothing shown |
| Background.Poller.UpdateIPInfo | background.js:24-58 | the worker's state after `updateIPInfo` is `Poll` of its state before; the timers are not touched |
| Background.Poller.StartTimer | background.js:61-72 | the previous timer is cleared, exactly one new timer is live at the stored interval (3 if missing or zero), and one poll runs at once |
| Background.Poller.Tick | background.js:68 | a live timer's tick runs one poll; a cleared timer's tick changes nothing |
| Background.Poller.RestoreLastCountry | background.js:75-80 | `lastCountry` becomes the stored country, or null if none is stored; nothing else changes |
| Background.Poller.OnInstalled | background.js:83-88 | restore, then interval 3 is stored, then one timer at 3 seconds and one poll from the restored country |
| Background.Poller.OnStartup | background.js:90-94 | restore, then one timer at the stored interval and one poll from the restored country |
| Background.Poller.OnMessage | background.js:97-102 | `restartTimer` restarts the timer as `StartTimer` does; every other action changes nothing |
| Popup.LoadSettings | popup.js:23-32 | enabled unless stored as false; interval the stored one unless missing or zero, then 3; audio alert on unless stored as false |
| Popup.ValidInterval | popup.js:113 | an interval is accepted exactly when it lies between 1 and 3600 inclusive, so an accepted one is never 0 |
| Popup.Saved | popup.js:118 | a valid save writes exactly `interval` and `audioAlert` and keeps every other key |
| Popup.SaveThenLoad | popup.js:109-124 | reopening the panel after a valid save shows the saved interval and audio flag and the same enabled state |
| Popup.ToggleThenLoad | popup.js:47-49 | reopening the panel after the toggle shows the toggle as left and the other settings unchanged |
| Popup.ControlPanel.constructor | popup.js:15-44 | on load the inputs show `LoadSettings`; a stored truthy IP becomes current and displayed and enables copying; a stored truthy country is displayed |
| Popup.ControlPanel.OnToggle | popup.js:47-57 | the toggle flips, `extensionEnabled` is stored as the new state, then `enableExtension` or `disableExtension` is sent accordingly |
| Popup.ControlPanel.OnSave | popup.js:109-124 | an interval below 1 or above 3600 shows the error and stores and sends nothing; otherwise exactly `interval` and `audioAlert` are stored and one `restartTimer` is sent |
| Popup.ControlPanel.OnMessage | popup.js:139-151 | `updatePopup` with a truthy `ip` makes it current, displayed and copyable; with a truthy `country` displays it; anything else changes nothing |
| Popup.ControlPanel.CopyIPToClipboard | popup.js:72-76 | nothing is copied while `currentIP` is empty; otherwise `currentIP` is copied |
| Popup.ControlPanel.OnIpClick | popup.js:65-69 | a click copies only when it lands on the displayed IP span |
| Popup.ControlPanel.OnSettingsHeaderClick | popup.js:96-106 | the settings panel flips between open and closed, so two clicks restore it |
| Extension.SavedIntervalDrivesTimer | popup.js:118-122 | after a valid save, the interval the worker reads for its next timer is the saved one |

## Left out

- The `fetch` of the geolocation endpoint, its token and JSON parsing: each fetch's outcome is a `PollResult` argument. A `country` field that is present but not a string is not modelled.
- The asynchrony of `chrome.storage` and of `fetch`: every read, write and poll completes at once and in program order, so overlapping polls and callbacks that run in another order (a restore finishing after a poll) are not modelled.
- Real time: the timer's period is recorded, but ticks happen only when `Tick` is called; the `* 1000` conversion to milliseconds is not modelled.
- `chrome.tts.speak`, `chrome.action.setIcon` and `setTitle`: recorded as the alert count and the indicator; their own failures are not modelled.
- Background.Lower: lowers only the ASCII letters A to Z, not the full Unicode case mapping of `toLowerCase`; country codes are ASCII.
- Popup.ControlPanel.OnSave: takes the interval as an integer, so the `Number(...)` conversion of the input text (NaN and fractional values passing the range check) is not modelled.
- The DOM rendering, the `innerHTML` markup, CSS classes and styles, the "Copied!"/"Error" button feedback and the timed hiding of the status banner, the clipboard's own success or failure, the footer and the manifest version.
- The popup page's markup is not part of this model; the panel is taken to open with the copy button disabled and the settings closed.
- Writing an undefined `lastCountry` to storage is taken to store nothing, as undefined properties are dropped when the object is serialised.
