/**
 * The values the session controller handles: JavaScript values kept in the
 * component's state, and the entries of the browser's durable key-value
 * store (`localStorage`) with its `getItem`, `setItem` and `removeItem`.
 */
module JsValues {
  import opened Wrappers

  /** A session field as JavaScript holds it: `null`, a boolean, or a string. */
  datatype Value = Null | Bool(b: bool) | Str(s: string)

  /** JavaScript truthiness: `null`, `false` and the empty string are falsy. */
  predicate Truthy(v: Value)
  {
    match v
    case Null => false
    case Bool(b) => b
    case Str(s) => s != ""
  }

  /**
   * The text the store keeps when it is given `v` (the store converts every
   * value with `String(v)`): a string is kept as it is, `null` and the
   * booleans become their names. The text is empty only for the empty string,
   * so whatever else was written reads back as truthy.
   */
  function ToStorageString(v: Value): (text: string)
    ensures v.Str? ==> text == v.s
    ensures text == "" <==> v == Str("")
  {
    match v
    case Null => "null"
    case Bool(b) => if b then "true" else "false"
    case Str(s) => s
  }

  /**
   * One store entry. Every entry is text in the browser; the expiry instant is
   * kept here as milliseconds since the epoch instead of its ISO-8601 text.
   */
  datatype Entry = Text(text: string) | Millis(ms: int)

  type Store = map<string, Entry>

  const TokenKey: string := "token"
  const UserIdKey: string := "userId"
  const IsAdminKey: string := "isAdmin"
  const ExpiryKey: string := "expiryDate"

  /** The controller's four keys hold entries of the kind it writes there. */
  predicate WellFormed(store: Store)
  {
    && (TokenKey in store ==> store[TokenKey].Text?)
    && (UserIdKey in store ==> store[UserIdKey].Text?)
    && (IsAdminKey in store ==> store[IsAdminKey].Text?)
    && (ExpiryKey in store ==> store[ExpiryKey].Millis?)
  }

  /** `getItem` for a text key: the stored string, or `null` when there is none. */
  function GetItem(store: Store, key: string): (v: Value)
    ensures v == Null <==> !(key in store && store[key].Text?)
    ensures v != Null ==> v.Str? && store[key] == Text(v.s)
  {
    if key in store && store[key].Text? then Str(store[key].text) else Null
  }

  /** `getItem("expiryDate")` read as an instant: absent unless an instant is stored. */
  function GetExpiry(store: Store): (e: Option<int>)
    ensures e.None? <==> !(ExpiryKey in store && store[ExpiryKey].Millis?)
    ensures e.Some? ==> store[ExpiryKey] == Millis(e.value)
  {
    if ExpiryKey in store && store[ExpiryKey].Millis? then Some(store[ExpiryKey].ms) else None
  }

  /** `setItem(key, v)`: `key` now holds the text of `v`; every other entry stays. */
  function SetItem(store: Store, key: string, v: Value): (r: Store)
    ensures r.Keys == store.Keys + {key}
    ensures r[key] == Text(ToStorageString(v))
    ensures forall k :: k in store && k != key ==> r[k] == store[k]
  {
    store[key := Text(ToStorageString(v))]
  }

  /** `setItem("expiryDate", date.toISOString())` with the instant kept as milliseconds. */
  function SetExpiry(store: Store, ms: int): (r: Store)
    ensures r.Keys == store.Keys + {ExpiryKey}
    ensures r[ExpiryKey] == Millis(ms)
    ensures forall k :: k in store && k != ExpiryKey ==> r[k] == store[k]
  {
    store[ExpiryKey := Millis(ms)]
  }

  /** `removeItem(key)`: `key` is gone; every other entry stays. Removing a missing key changes nothing. */
  function RemoveItem(store: Store, key: string): (r: Store)
    ensures r.Keys == store.Keys - {key}
    ensures forall k :: k in r ==> r[k] == store[k]
    ensures key !in store ==> r == store
  {
    store - {key}
  }

  /** What `setItem` wrote, `getItem` reads back as a string, converted as the store converts it. */
  lemma GetAfterSet(store: Store, key: string, v: Value)
    ensures GetItem(SetItem(store, key, v), key) == Str(ToStorageString(v))
    ensures Truthy(GetItem(SetItem(store, key, v), key)) <==> v != Str("")
  {
  }
}
