/**
 * The browser facilities the client relies on: the durable key-value store
 * (`localStorage`) and the current location. Router pushes and assignments to
 * `window.location.href` both land in `location`; the model records the target
 * and does not follow it.
 */
module Browser {
  import opened Wrappers

  const TokenKey := "token"
  const UserKey := "user"
  const LoginRoute := "/login"
  const TodosRoute := "/todos"

  /** What the browser holds at one moment: the stored entries and the navigation target. */
  datatype Env = Env(storage: map<string, string>, location: string)

  /** `localStorage.getItem`: `null` (None) for a key that is not stored. */
  function Lookup(storage: map<string, string>, key: string): (r: Option<string>)
    ensures r.Some? <==> key in storage
    ensures r.Some? ==> r.value == storage[key]
  {
    if key in storage then Some(storage[key]) else None
  }

  /** JavaScript truthiness of a string-or-null value: present and non-empty. */
  predicate Truthy(s: Option<string>)
  {
    s.Some? && s.value != ""
  }

  /** The store after `localStorage.setItem(key, value)`. */
  function Put(storage: map<string, string>, key: string, value: string): (r: map<string, string>)
    ensures Lookup(r, key) == Some(value)
    ensures forall k :: k != key ==> Lookup(r, k) == Lookup(storage, k)
  {
    storage[key := value]
  }

  /** The store after `localStorage.removeItem(key)`. */
  function Drop(storage: map<string, string>, key: string): (r: map<string, string>)
    ensures Lookup(r, key) == None
    ensures forall k :: k != key ==> Lookup(r, k) == Lookup(storage, k)
  {
    storage - {key}
  }

  /**
   * Removal of both session keys, token first, as logout, the 401 handler and
   * the rehydration of a malformed user all do it.
   */
  function ClearSession(storage: map<string, string>): (r: map<string, string>)
    ensures TokenKey !in r && UserKey !in r
    ensures forall k :: k != TokenKey && k != UserKey ==> Lookup(r, k) == Lookup(storage, k)
  {
    Drop(Drop(storage, TokenKey), UserKey)
  }

  /** The session keys are stored together or not at all. */
  predicate KeysPaired(storage: map<string, string>)
  {
    TokenKey in storage <==> UserKey in storage
  }

  lemma ClearSessionIdempotent(storage: map<string, string>)
    ensures ClearSession(ClearSession(storage)) == ClearSession(storage)
    ensures KeysPaired(ClearSession(storage))
  {
  }

  /** The window object: its `localStorage` and its location. */
  class Window {
    var storage: map<string, string>
    var location: string

    constructor (storage: map<string, string>, location: string)
      ensures this.storage == storage && this.location == location
    {
      this.storage := storage;
      this.location := location;
    }

    function Snapshot(): Env
      reads this
    {
      Env(storage, location)
    }

    method GetItem(key: string) returns (r: Option<string>)
      ensures r == Lookup(storage, key)
    {
      r := if key in storage then Some(storage[key]) else None;
    }

    method SetItem(key: string, value: string)
      modifies this
      ensures storage == Put(old(storage), key, value)
      ensures location == old(location)
    {
      storage := storage[key := value];
    }

    method RemoveItem(key: string)
      modifies this
      ensures storage == Drop(old(storage), key)
      ensures location == old(location)
    {
      storage := storage - {key};
    }

    method Navigate(route: string)
      modifies this
      ensures location == route
      ensures storage == old(storage)
    {
      location := route;
    }
  }
}
