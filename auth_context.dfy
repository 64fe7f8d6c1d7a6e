/** The session store of client/src/context/AuthContext.jsx: one `user`
    cell holding the logged-in account as a JavaScript object (or null),
    its login, logout and merge-update operations, and the effect that
    mirrors the cell into browser storage under 'dorm_user'. Objects are
    maps from keys to values; the JSON text in storage is abstracted as
    the object it encodes. */
module AuthContext {
  import opened Common
  import opened ServerUsers

  /** A field value of the stored object. */
  datatype Value = Num(n: int) | Str(s: string) | Null

  /** A plain JavaScript object. */
  type Record = map<string, Value>

  /** The storage key the session lives under. */
  const STORAGE_KEY: string := "dorm_user"

  /** `{ ...prev, ...data }`: every key of `data` with its new value, every
      other key of `prev` with its old one; spreading null adds nothing. */
  function Merge(prev: Option<Record>, data: Record): (r: Record)
    ensures forall k :: k in data ==> k in r && r[k] == data[k]
    ensures prev.Some? ==> forall k :: k in prev.value && k !in data ==> k in r && r[k] == prev.value[k]
    ensures forall k :: k in r ==> k in data || (prev.Some? && k in prev.value)
  {
    if prev.None? then data else prev.value + data
  }

  /** Merging the same data a second time changes nothing. */
  lemma MergeIdempotent(prev: Option<Record>, data: Record)
    ensures Merge(Some(Merge(prev, data)), data) == Merge(prev, data)
  {
  }

  /** Storage after the effect: the object under the key, or the key
      removed when there is no user. */
  function Persisted(storage: map<string, Record>, user: Option<Record>): (s: map<string, Record>)
    ensures user.Some? ==> STORAGE_KEY in s && s[STORAGE_KEY] == user.value
    ensures user.None? ==> STORAGE_KEY !in s
    ensures forall k :: k != STORAGE_KEY ==> (k in s <==> k in storage)
    ensures forall k :: k != STORAGE_KEY && k in storage ==> s[k] == storage[k]
  {
    if user.Some? then storage[STORAGE_KEY := user.value] else storage - {STORAGE_KEY}
  }

  /** The initial cell: the stored object when there is one, else null. */
  function Restored(storage: map<string, Record>): (user: Option<Record>)
    ensures user.Some? <==> STORAGE_KEY in storage
    ensures user.Some? ==> user.value == storage[STORAGE_KEY]
  {
    if STORAGE_KEY in storage then Some(storage[STORAGE_KEY]) else None
  }

  /** A reload after the effect restores exactly the cell it stored. */
  lemma RestoreAfterPersist(storage: map<string, Record>, user: Option<Record>)
    ensures Restored(Persisted(storage, user)) == user
  {
  }

  /** The object the server's account replies turn into. */
  function AccountRecord(a: Account): (r: Record)
    ensures r.Keys == {"id", "username", "role", "name", "avatar"}
    ensures r["id"] == Num(a.id) && r["username"] == Str(a.username) && r["name"] == Str(a.name)
    ensures r["role"] == Str(a.role)
    ensures a.avatar.Some? ==> r["avatar"] == Str(a.avatar.value)
    ensures a.avatar.None? ==> r["avatar"] == Null
  {
    map["id" := Num(a.id), "username" := Str(a.username), "role" := Str(a.role), "name" := Str(a.name),
        "avatar" := if a.avatar.Some? then Str(a.avatar.value) else Null]
  }

  /** Merging an account reply into the object of an account replaces
      it: both have the same five keys. */
  lemma MergeAccountReplaces(a: Account, b: Account)
    ensures Merge(Some(AccountRecord(a)), AccountRecord(b)) == AccountRecord(b)
  {
    var m := Merge(Some(AccountRecord(a)), AccountRecord(b));
    assert m.Keys == AccountRecord(b).Keys;
  }

  class Auth {
    var user: Option<Record>
    var storage: map<string, Record>

    /** The lazy initial state: read back from storage. */
    constructor (stored: map<string, Record>)
      ensures user == Restored(stored) && storage == stored
    {
      storage := stored;
      user := Restored(stored);
    }

    /** `login(userData)`. */
    method Login(data: Record)
      modifies this`user
      ensures user == Some(data)
    {
      user := Some(data);
    }

    /** `logout()`. */
    method Logout()
      modifies this`user
      ensures user.None?
    {
      user := None;
    }

    /** `updateUser(updatedData)`: the merge of the current object with
        the new data. */
    method UpdateUser(data: Record)
      modifies this`user
      ensures user == Some(Merge(old(user), data))
    {
      user := Some(Merge(user, data));
    }

    /** The effect that runs after every change of the cell. */
    method Persist()
      modifies this`storage
      ensures storage == Persisted(old(storage), user)
    {
      if user.Some? {
        storage := storage[STORAGE_KEY := user.value];
      } else {
        storage := storage - {STORAGE_KEY};
      }
    }
  }
}
