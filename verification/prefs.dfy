/**
 * The app's "FlutterSharedPreferences" file, shared by the activity (which
 * writes the UDP mode) and the VPN service (which reads it and records
 * whether the native tunnel is running).
 */
module Prefs {
  import opened Wrappers

  datatype Value = Str(s: string) | Flag(b: bool)

  type Store = map<string, Value>

  /**
   * `getString(key, default)`: the stored string, or `default` when the key
   * is absent. A key holding a boolean makes Android throw
   * ClassCastException, modelled as `None`.
   */
  function GetString(p: Store, key: string, default: string): (r: Option<string>)
    ensures key !in p ==> r == Some(default)
    ensures key in p && p[key].Str? ==> r == Some(p[key].s)
    ensures r.None? <==> key in p && p[key].Flag?
  {
    if key !in p then Some(default)
    else match p[key]
      case Str(s) => Some(s)
      case Flag(_) => None
  }

  /** `edit().putString(key, value).apply()`: only `key` changes. */
  function PutString(p: Store, key: string, value: string): (r: Store)
    ensures GetString(r, key, "") == Some(value)
    ensures forall k :: k != key ==> (k in r <==> k in p)
    ensures forall k :: k != key && k in p ==> r[k] == p[k]
  {
    p[key := Str(value)]
  }

  /** `edit().putBoolean(key, value).apply()`: only `key` changes. */
  function PutFlag(p: Store, key: string, value: bool): (r: Store)
    ensures key in r && r[key] == Flag(value)
    ensures forall k :: k != key ==> (k in r <==> k in p)
    ensures forall k :: k != key && k in p ==> r[k] == p[k]
  {
    p[key := Flag(value)]
  }
}
