/** The control panel (the extension's popup): it shows the stored settings
    and the last IP and country it knows of, lets the user switch the
    extension on and off, edit the polling interval and the audio alert, and
    copy the IP. Elements of the page become fields; the DOM rendering
    itself, the clipboard and the transient status banner's fading are
    outputs recorded as data. */
module Popup {
  import opened Common

  /** The settings as the panel's inputs show them. */
  datatype Settings = Settings(enabled: bool, interval: int, audioAlert: bool)

  /** The status banner: its text and whether it is styled as an error. */
  datatype Status = Status(text: string, isError: bool)

  const MinIntervalSec: int := 1
  const MaxIntervalSec: int := 3600

  /** The settings the panel shows on load: the extension and the audio
      alert are on unless stored as false, and the interval is the stored
      one unless it is missing or zero, when it is 3. */
  function LoadSettings(data: map<Key, Value>): (s: Settings)
    ensures s.enabled <==> !(ExtensionEnabled in data && data[ExtensionEnabled] == Bool(false))
    ensures s.audioAlert <==> !(AudioAlert in data && data[AudioAlert] == Bool(false))
    ensures s.interval != 0
    ensures Interval !in data || data[Interval] == Int(0) ==> s.interval == DefaultIntervalSec
    ensures Interval in data && data[Interval].Int? && data[Interval].i != 0 ==> s.interval == data[Interval].i
  {
    Settings(NotStoredFalse(data, ExtensionEnabled), IntervalOrDefault(data), NotStoredFalse(data, AudioAlert))
  }

  /** The interval check of the save handler, which rejects values below 1
      or above 3600. */
  predicate ValidInterval(n: int)
    ensures ValidInterval(n) <==> MinIntervalSec <= n <= MaxIntervalSec
    ensures ValidInterval(n) ==> n != 0
  {
    !(n < MinIntervalSec || n > MaxIntervalSec)
  }

  /** The storage after a successful save: exactly `interval` and
      `audioAlert` are written. */
  function Saved(data: map<Key, Value>, interval: int, audioAlert: bool): (d: map<Key, Value>)
    ensures d.Keys == data.Keys + {Interval, AudioAlert}
    ensures d[Interval] == Int(interval) && d[AudioAlert] == Bool(audioAlert)
    ensures forall k :: k in data && k != Interval && k != AudioAlert ==> d[k] == data[k]
  {
    data + map[Interval := Int(interval), AudioAlert := Bool(audioAlert)]
  }

  /** Reopening the panel after a valid save shows the saved interval and
      audio alert, and the same enabled state as before. */
  lemma SaveThenLoad(data: map<Key, Value>, interval: int, audioAlert: bool)
    requires ValidInterval(interval)
    ensures LoadSettings(Saved(data, interval, audioAlert)) ==
      LoadSettings(data).(interval := interval, audioAlert := audioAlert)
  {
  }

  /** Reopening the panel after the toggle shows the toggle as it was left,
      and the same interval and audio alert as before. */
  lemma ToggleThenLoad(data: map<Key, Value>, checked: bool)
    ensures LoadSettings(data[ExtensionEnabled := Bool(checked)]) ==
      LoadSettings(data).(enabled := checked)
  {
  }

  /** The panel's state: the page's elements that the script changes and the
      script's own `currentIP`, plus what it has sent and copied. */
  class ControlPanel {
    const store: LocalStorage
    /** Messages sent with `chrome.runtime.sendMessage`, in order. */
    var outbox: seq<Message>
    var currentIP: string
    /** The extension toggle, the interval input and the audio checkbox. */
    var enabledChecked: bool
    var intervalShown: int
    var audioAlertChecked: bool
    /** The IP and country on display: None while the placeholder is shown. */
    var ipShown: Option<string>
    var countryShown: Option<string>
    var copyEnabled: bool
    var settingsOpen: bool
    var status: Option<Status>
    /** Texts written to the clipboard, in order. */
    var clipboard: seq<string>

    /** The copy button is enabled exactly when an IP is known, and that IP
        is the one on display. */
    ghost predicate Valid()
      reads this
    {
      && copyEnabled == (currentIP != "")
      && ipShown == (if currentIP == "" then None else Some(currentIP))
    }

    /** Opening the panel: `currentIP` starts empty, then the storage read
        fills the inputs and shows the stored IP and country, if any. The
        page starts with the copy button disabled and the settings closed. */
    constructor (store: LocalStorage)
      ensures Valid() && this.store == store
      ensures Settings(enabledChecked, intervalShown, audioAlertChecked) == LoadSettings(store.data)
      ensures copyEnabled <==> TruthyString(store.data, CurrentIP).Some?
      ensures TruthyString(store.data, CurrentIP).Some? ==> currentIP == TruthyString(store.data, CurrentIP).value
      ensures countryShown == TruthyString(store.data, CurrentCountry)
      ensures outbox == [] && clipboard == [] && status == None && !settingsOpen
    {
      this.store := store;
      outbox := [];
      clipboard := [];
      status := None;
      settingsOpen := false;
      currentIP := "";
      ipShown := None;
      countryShown := None;
      copyEnabled := false;
      var s := LoadSettings(store.data);
      enabledChecked := s.enabled;
      intervalShown := s.interval;
      audioAlertChecked := s.audioAlert;
      var ip := TruthyString(store.data, CurrentIP);
      if ip.Some? {
        currentIP := ip.value;
        ipShown := Some(ip.value);
        copyEnabled := true;
      }
      var country := TruthyString(store.data, CurrentCountry);
      if country.Some? {
        countryShown := Some(country.value);
      }
    }

    /** The toggle's change handler: the box flips, the new state is
        stored, then the matching command is sent. */
    method OnToggle()
      requires Valid()
      modifies this`enabledChecked, this`outbox, this`status, store
      ensures Valid()
      ensures enabledChecked == !old(enabledChecked)
      ensures store.data == old(store.data)[ExtensionEnabled := Bool(enabledChecked)]
      ensures outbox == old(outbox) + [Command(if enabledChecked then EnableExtension else DisableExtension)]
      ensures status == Some(Status(if enabledChecked then "Extension enabled" else "Extension disabled", false))
    {
      enabledChecked := !enabledChecked;
      var isEnabled := enabledChecked;
      store.Set(map[ExtensionEnabled := Bool(isEnabled)]);
      outbox := outbox + [Command(if isEnabled then EnableExtension else DisableExtension)];
      status := Some(Status(if isEnabled then "Extension enabled" else "Extension disabled", false));
    }

    /** The save handler, given what the interval input and the audio box
        hold when the button is clicked. An out-of-range interval shows an
        error and stores and sends nothing; otherwise both settings are
        stored and one `restartTimer` is sent. */
    method OnSave(interval: int, audioAlert: bool)
      requires Valid()
      modifies this`outbox, this`status, store
      ensures Valid()
      ensures !ValidInterval(interval) ==>
        && store.data == old(store.data)
        && outbox == old(outbox)
        && status == Some(Status("Invalid interval value!", true))
      ensures ValidInterval(interval) ==>
        && store.data == Saved(old(store.data), interval, audioAlert)
        && outbox == old(outbox) + [Command(RestartTimer)]
        && status == Some(Status("Settings saved successfully!", false))
    {
      if interval < MinIntervalSec || interval > MaxIntervalSec {
        status := Some(Status("Invalid interval value!", true));
        return;
      }
      store.Set(map[Interval := Int(interval), AudioAlert := Bool(audioAlert)]);
      status := Some(Status("Settings saved successfully!", false));
      outbox := outbox + [Command(RestartTimer)];
    }

    /** The panel's `onMessage` listener: an `updatePopup` message with a
        truthy `ip` makes it the current, displayed and copyable IP; one with
        a truthy `country` displays it; anything else changes nothing. */
    method OnMessage(msg: Message)
      requires Valid()
      modifies this`currentIP, this`ipShown, this`copyEnabled, this`countryShown
      ensures Valid()
      ensures currentIP == if msg.action == UpdatePopup && Truthy(msg.ip) then msg.ip.value else old(currentIP)
      ensures countryShown == if msg.action == UpdatePopup && Truthy(msg.country) then msg.country else old(countryShown)
    {
      if msg.action == UpdatePopup {
        if Truthy(msg.ip) {
          currentIP := msg.ip.value;
          ipShown := Some(msg.ip.value);
          copyEnabled := true;
        }
        if Truthy(msg.country) {
          countryShown := msg.country;
        }
      }
    }

    /** `copyIPToClipboard`, which both the copy button and a click on the
        displayed IP call: nothing happens while no IP is known. */
    method CopyIPToClipboard()
      requires Valid()
      modifies this`clipboard
      ensures Valid()
      ensures clipboard == if currentIP == "" then old(clipboard) else old(clipboard) + [currentIP]
    {
      if currentIP == "" {
        return;
      }
      clipboard := clipboard + [currentIP];
    }

    /** A click inside the IP element copies only when it lands on the
        clickable IP span, which exists only while an IP is displayed. */
    method OnIpClick(onIpSpan: bool)
      requires Valid()
      modifies this`clipboard
      ensures Valid()
      ensures clipboard == if onIpSpan && ipShown.Some? then old(clipboard) + [currentIP] else old(clipboard)
    {
      if onIpSpan && ipShown.Some? {
        CopyIPToClipboard();
      }
    }

    /** The settings header's click handler: open becomes closed and closed
        becomes open. */
    method OnSettingsHeaderClick()
      requires Valid()
      modifies this`settingsOpen
      ensures Valid()
      ensures settingsOpen == !old(settingsOpen)
    {
      var isOpen := settingsOpen;
      if isOpen {
        settingsOpen := false;
      } else {
        settingsOpen := true;
      }
    }
  }
}
