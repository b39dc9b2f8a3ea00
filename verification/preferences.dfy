/**
 * The shared key-value store (Android `SharedPreferences`) that the service writes and the
 * controller reads. Edits are modelled as taking effect immediately.
 */
module Preferences {

  type Store = map<string, string>

  /** `getString(key, default)`: the stored value, or `default` when the key is absent. */
  function GetString(store: Store, key: string, default: string): (v: string)
    ensures key in store ==> v == store[key]
    ensures key !in store ==> v == default
  {
    if key in store then store[key] else default
  }

  /** `edit().putString(key, value).apply()`: upsert one key, leaving every other key alone. */
  function PutString(store: Store, key: string, value: string): (r: Store)
    ensures key in r && r[key] == value
    ensures r.Keys == store.Keys + {key}
    ensures r - {key} == store - {key}
  {
    store[key := value]
  }

  /** `edit().remove(key).apply()`: drop one key, leaving every other key alone. */
  function Remove(store: Store, key: string): (r: Store)
    ensures key !in r
    ensures r.Keys == store.Keys - {key}
    ensures r - {key} == store - {key}
  {
    store - {key}
  }

  /** A read after a write of the same key returns what was written, whatever the default. */
  lemma GetAfterPut(store: Store, key: string, value: string, default: string)
    ensures GetString(PutString(store, key, value), key, default) == value
  {
  }

  /** A read after removing the key falls back to the default, whatever was stored before. */
  lemma GetAfterRemove(store: Store, key: string, default: string)
    ensures GetString(Remove(store, key), key, default) == default
  {
  }

  /** Writing or removing one key does not change what a read of another key returns. */
  lemma OtherKeysUntouched(store: Store, key: string, other: string, value: string, default: string)
    requires other != key
    ensures GetString(PutString(store, key, value), other, default) == GetString(store, other, default)
    ensures GetString(Remove(store, key), other, default) == GetString(store, other, default)
  {
  }
}
