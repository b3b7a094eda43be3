/** The two scripts together, sharing one storage: what the control panel
    writes and sends, and what the background worker then does with it. */
module Extension {
  import opened Common
  import opened Background
  import opened Popup

  /** After a valid save, the timer the worker arms next runs at the saved
      interval. */
  lemma SavedIntervalDrivesTimer(data: map<Key, Value>, interval: int, audioAlert: bool)
    requires ValidInterval(interval)
    ensures IntervalOrDefault(Saved(data, interval, audioAlert)) == interval
  {
  }

  /** The worker restarts from storage holding "US", sees "US" again and no
      alert is played; on the next tick it sees "DE": one alert, the new
      country in memory and in storage, and the "de" icon. */
  method CountryChangeScenario() {
    var store := new LocalStorage(map[LastCountry := Str("US")]);
    var poller := new Poller(store);
    poller.OnStartup(Fetched(Some("US"), Some("1.2.3.4")));
    assert poller.alerts == 0 && poller.lastCountry == Some("US");
    assert poller.timers.Keys == {poller.updateTimer.value};
    poller.Tick(poller.updateTimer.value, Fetched(Some("DE"), Some("5.6.7.8")));
    assert poller.alerts == 1 && poller.lastCountry == Some("DE");
    assert store.data[LastCountry] == Str("DE");
    assert Lower("DE") == "de";
    assert IconPath("DE") == "icons/de.png";
    assert poller.indicator == Some(Indicator("icons/de.png", Title("DE", Some("5.6.7.8"))));
  }

  /** A failed fetch shows the error icon and changes neither the country
      nor the alerts. */
  method HttpErrorScenario() {
    var store := new LocalStorage(map[]);
    var poller := new Poller(store);
    poller.OnInstalled(Fetched(Some("US"), Some("1.2.3.4")));
    poller.Tick(poller.updateTimer.value, Failed);
    assert poller.lastCountry == Some("US") && poller.alerts == 0;
    assert poller.indicator == Some(ErrorIndicator);
  }

  /** An interval of 0 or 5000 is rejected: nothing is stored or sent. */
  method InvalidIntervalScenario() {
    var store := new LocalStorage(map[Interval := Int(3)]);
    var panel := new ControlPanel(store);
    assert panel.intervalShown == 3 && panel.enabledChecked && panel.audioAlertChecked;
    panel.OnSave(0, true);
    panel.OnSave(5000, true);
    assert panel.outbox == [] && store.data == map[Interval := Int(3)];
  }

  /** Saving 10 seconds in the panel and delivering its message re-arms the
      worker's single timer at 10 seconds. */
  method SaveRestartsTimerScenario() {
    var store := new LocalStorage(map[]);
    var poller := new Poller(store);
    poller.OnInstalled(Failed);
    var first := poller.updateTimer.value;
    var panel := new ControlPanel(store);
    panel.OnSave(10, false);
    assert panel.outbox == [Command(RestartTimer)];
    poller.OnMessage(panel.outbox[0], Failed);
    assert first !in poller.timers;
    assert poller.timers == map[poller.updateTimer.value := 10];
  }

  /** Disabling the extension sends a message the worker ignores; two clicks
      on the settings header leave it as it was. */
  method DisableScenario() {
    var store := new LocalStorage(map[]);
    var poller := new Poller(store);
    poller.OnStartup(Failed);
    var panel := new ControlPanel(store);
    panel.OnToggle();
    assert !panel.enabledChecked && panel.outbox == [Command(DisableExtension)];
    var timers := poller.timers;
    poller.OnMessage(panel.outbox[0], Failed);
    assert poller.timers == timers;
    panel.OnSettingsHeaderClick();
    panel.OnSettingsHeaderClick();
    assert !panel.settingsOpen;
  }
}
