/**
 * The platform's default SharedPreferences, the key-value store that the consent
 * storage writes and the configuration record reads back.
 */
module SharedPreferences {
  import opened Numerals

  /** A stored value: `putString` or `putInt`. */
  datatype Pref = StrPref(s: string) | IntPref(i: Int32)

  type Entries = map<string, Pref>

  /** The store object; `apply()`-commit durability is not modelled. */
  class Preferences {
    var entries: Entries

    constructor ()
      ensures entries == map[]
    {
      entries := map[];
    }
  }

  /** `getString` would throw ClassCastException if `key` held an Int. */
  predicate HoldsNoInt(entries: Entries, key: string) {
    key !in entries || entries[key].StrPref?
  }

  /** `getString(key, default)`: the stored string, or `default` when the key is absent. */
  function GetString(entries: Entries, key: string, default: string): (r: string)
    requires HoldsNoInt(entries, key)
    ensures key !in entries ==> r == default
    ensures key in entries ==> entries[key] == StrPref(r)
  {
    if key in entries then entries[key].s else default
  }
}
