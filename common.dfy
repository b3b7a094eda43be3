/** Definitions shared by the background poller and the control panel: the
    extension's local storage seen as a synchronous key-value map, the runtime
    messages the two send each other, and the bits of JavaScript truthiness
    the two rely on. */
module Common {

  datatype Option<T> = None | Some(value: T)

  /** JavaScript truthiness of a string-valued variable that may also be null
      or undefined (both written None here): null, undefined and "" are falsy. */
  predicate Truthy(s: Option<string>)
    ensures Truthy(s) <==> s != None && s != Some("")
  {
    s.Some? && s.value != ""
  }

  /** DEFAULT_INTERVAL_SEC, the polling period used when none is stored. */
  const DefaultIntervalSec: int := 3

  /** The storage keys either script reads or writes. */
  datatype Key = Interval | ExtensionEnabled | AudioAlert | LastCountry | CurrentIP | CurrentCountry

  /** The values this extension keeps in storage. */
  datatype Value = Int(i: int) | Bool(b: bool) | Str(s: string)

  /** `res.key` after a storage read: None when the key is absent (undefined). */
  function Lookup(data: map<Key, Value>, k: Key): (v: Option<Value>)
    ensures v.Some? <==> k in data
    ensures v.Some? ==> data[k] == v.value
  {
    if k in data then Some(data[k]) else None
  }

  /** `res.key` where the script only uses it when it is truthy: the stored
      string when it is a non-empty string, None (null) otherwise. This is
      both `res.lastCountry || null` and the guard `if (res.currentIP)`. */
  function TruthyString(data: map<Key, Value>, k: Key): (r: Option<string>)
    ensures Truthy(r) <==> k in data && data[k].Str? && data[k].s != ""
    ensures r.Some? ==> k in data && data[k] == Str(r.value)
    ensures k !in data ==> r == None
  {
    match Lookup(data, k)
    case Some(Str(s)) => if s != "" then Some(s) else None
    case _ => None
  }

  /** `res.interval || 3`: the stored interval unless it is missing or zero
      (the integer values that are falsy), in which case the default. */
  function IntervalOrDefault(data: map<Key, Value>): (sec: int)
    ensures sec != 0
    ensures Interval !in data || data[Interval] == Int(0) ==> sec == DefaultIntervalSec
    ensures Interval in data && data[Interval].Int? && data[Interval].i != 0 ==> sec == data[Interval].i
  {
    match Lookup(data, Interval)
    case Some(Int(n)) => if n != 0 then n else DefaultIntervalSec
    case _ => DefaultIntervalSec
  }

  /** `res.key !== false`: true unless the key holds exactly the boolean false. */
  predicate NotStoredFalse(data: map<Key, Value>, k: Key)
    ensures k !in data ==> NotStoredFalse(data, k)
    ensures NotStoredFalse(data, k) <==> !(k in data && data[k] == Bool(false))
  {
    Lookup(data, k) != Some(Bool(false))
  }

  /** chrome.storage.local, with every read and write completing at once. */
  class LocalStorage {
    var data: map<Key, Value>

    /** The storage as the browser hands it over: empty on first install,
        whatever was persisted before on a later start. */
    constructor (persisted: map<Key, Value>)
      ensures data == persisted
    {
      data := persisted;
    }

    /** `chrome.storage.local.set(entries)`: the given keys are overwritten,
        every other key keeps its value. */
    method Set(entries: map<Key, Value>)
      modifies this
      ensures data == old(data) + entries
    {
      data := data + entries;
    }
  }

  /** The action names carried by runtime messages. */
  const RestartTimer: string := "restartTimer"
  const EnableExtension: string := "enableExtension"
  const DisableExtension: string := "disableExtension"
  const UpdatePopup: string := "updatePopup"

  /** A runtime message `{action, ip, country}`; a field that is absent is None. */
  datatype Message = Message(action: string, ip: Option<string>, country: Option<string>)

  /** A control message that carries only its action. */
  function Command(action: string): Message {
    Message(action, None, None)
  }
}
