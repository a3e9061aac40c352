/**
 * The machine-wide `Run` key (`HKLM\SOFTWARE\Microsoft\Windows\CurrentVersion\Run`)
 * as both startup registrars use it: a key that may be missing, holding
 * named string values, plus whether opening it for reading or for writing
 * is refused (the caller lacks the rights).
 */
module Registry {

  /** The key's contents; `Missing` is what makes `OpenSubKey` answer null. */
  datatype RunKey = Missing | Present(values: map<string, string>)

  class LocalMachine {
    var runKey: RunKey
    const readDenied: bool
    const writeDenied: bool

    constructor (runKey: RunKey, readDenied: bool, writeDenied: bool)
      ensures this.runKey == runKey && this.readDenied == readDenied && this.writeDenied == writeDenied
    {
      this.runKey := runKey;
      this.readDenied := readDenied;
      this.writeDenied := writeDenied;
    }
  }

  /** `key?.GetValue(name) != null`. */
  predicate HasValue(key: RunKey, name: string) {
    key.Present? && name in key.values
  }

  /** `key?.SetValue(name, data)`: a missing key is left missing. */
  function SetValue(key: RunKey, name: string, data: string): (k: RunKey)
    ensures k.Present? == key.Present?
    ensures key.Present? ==> k.values == key.values[name := data]
  {
    match key
    case Missing => Missing
    case Present(values) => Present(values[name := data])
  }

  /** `key?.DeleteValue(name, false)`: an absent value is not an error. */
  function DeleteValue(key: RunKey, name: string): (k: RunKey)
    ensures k.Present? == key.Present?
    ensures key.Present? ==> k.values == key.values - {name}
  {
    match key
    case Missing => Missing
    case Present(values) => Present(values - {name})
  }

  /**
   * What the registrars' `IsSetToStartup` answers: the key opens, exists
   * and holds the value; a refused open answers false.
   */
  predicate IsRegistered(key: RunKey, readDenied: bool, name: string) {
    !readDenied && HasValue(key, name)
  }

  /** "Register" on a key: `SetValue` when the key opens for writing. */
  function Register(key: RunKey, writeDenied: bool, name: string, data: string): RunKey {
    if writeDenied then key else SetValue(key, name, data)
  }

  /** "Ensure registered": register only when the query answers false. */
  function Ensure(key: RunKey, readDenied: bool, writeDenied: bool, name: string, data: string): RunKey {
    if IsRegistered(key, readDenied, name) then key else Register(key, writeDenied, name, data)
  }

  /**
   * Ensuring twice is ensuring once, and afterwards the value is there
   * whenever the key exists and may be both read and written.
   */
  lemma EnsureIdempotent(key: RunKey, readDenied: bool, writeDenied: bool, name: string, data: string)
    ensures var once := Ensure(key, readDenied, writeDenied, name, data);
      && Ensure(once, readDenied, writeDenied, name, data) == once
      && (key.Present? && !readDenied && !writeDenied ==> IsRegistered(once, readDenied, name))
      && (IsRegistered(key, readDenied, name) ==> once == key)
  {
  }
}
