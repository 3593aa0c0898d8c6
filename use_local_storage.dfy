/** The storage hook of src/hooks/useLocalStorage.ts: a value mirrored into the
    browser's key-value store under one key, with a one-time move of data from
    the application's former key. The store is a map of strings; JSON
    encoding and decoding are parameters (`None` when `JSON.parse` throws). */
module UseLocalStorage {
  import opened Wrappers

  const OldStorageKey := "ai-answer-engine-messages"

  /** `localStorage.getItem(k)` is truthy. */
  predicate Holds(store: map<string, string>, k: string) {
    k in store && store[k] != ""
  }

  /** The migration: data under the old key moves to `key` when `key` holds
      nothing, and the old key is removed. */
  function Migrate(store: map<string, string>, key: string): (r: map<string, string>)
    ensures Holds(store, OldStorageKey) && !Holds(store, key) ==>
      r == (store[key := store[OldStorageKey]]) - {OldStorageKey}
    ensures !(Holds(store, OldStorageKey) && !Holds(store, key)) ==> r == store
  {
    if Holds(store, OldStorageKey) && !Holds(store, key) then
      (store[key := store[OldStorageKey]]) - {OldStorageKey}
    else store
  }

  /** Migrating twice is migrating once. */
  lemma MigrateIdempotent(store: map<string, string>, key: string)
    requires key != OldStorageKey
    ensures Migrate(Migrate(store, key), key) == Migrate(store, key)
  {
    var m := Migrate(store, key);
    if Holds(store, OldStorageKey) && !Holds(store, key) {
      assert OldStorageKey !in m;
    }
  }

  /** Nothing is lost: after the migration `key` holds whatever either key
      held, preferring its own data. */
  lemma MigrateKeepsData(store: map<string, string>, key: string)
    requires key != OldStorageKey
    ensures Holds(store, key) ==> Holds(Migrate(store, key), key) && Migrate(store, key)[key] == store[key]
    ensures !Holds(store, key) && Holds(store, OldStorageKey) ==>
      Holds(Migrate(store, key), key) && Migrate(store, key)[key] == store[OldStorageKey]
  {
  }

  /** The value after the initial read: the parsed item when present and
      parseable, the current value otherwise. */
  function Loaded<T>(store: map<string, string>, key: string, current: T, decode: string -> Option<T>): (r: T)
    ensures Holds(store, key) && decode(store[key]).Some? ==> r == decode(store[key]).value
    ensures !(Holds(store, key) && decode(store[key]).Some?) ==> r == current
  {
    if Holds(store, key) && decode(store[key]).Some? then decode(store[key]).value else current
  }

  /** What `setValue` is given: a value, or an updater of the previous one. */
  datatype Update<!T> = Value(value: T) | Updater(apply: T -> T)

  function Apply<T>(u: Update<T>, prev: T): T {
    match u
    case Value(v) => v
    case Updater(f) => f(prev)
  }

  /** The hook's state. */
  class StorageHook<T> {
    const key: string
    var store: map<string, string>
    var value: T
    var initialized: bool

    /** The first render: the initial value, not yet initialised. */
    constructor(key: string, initial: T, store: map<string, string>)
      ensures this.key == key && this.store == store && value == initial && !initialized
    {
      this.key := key;
      this.store := store;
      value := initial;
      initialized := false;
    }

    /** The mount effect. `available` is false when the store throws on
        access; initialisation completes either way. */
    method Initialize(decode: string -> Option<T>, available: bool)
      modifies this
      ensures initialized
      ensures available ==> store == Migrate(old(store), key) && value == Loaded(store, key, old(value), decode)
      ensures !available ==> store == old(store) && value == old(value)
    {
      if available {
        if Holds(store, OldStorageKey) && !Holds(store, key) {
          store := store[key := store[OldStorageKey]];
          store := store - {OldStorageKey};
        }
        if Holds(store, key) {
          var parsed := decode(store[key]);
          if parsed.Some? {
            value := parsed.value;
          }
        }
      }
      initialized := true;
    }

    /** `setValue(u)`: the new value is kept even when the write fails. */
    method SetValue(u: Update<T>, encode: T -> string, writeFails: bool)
      modifies this
      ensures value == Apply(u, old(value))
      ensures !writeFails ==> store == old(store)[key := encode(value)]
      ensures writeFails ==> store == old(store)
      ensures initialized == old(initialized)
    {
      var next := Apply(u, value);
      if !writeFails {
        store := store[key := encode(next)];
      }
      value := next;
    }
  }

  /** A written value survives a reload: a new hook on the same store reads
      it back when decoding undoes encoding and the encoding is not empty. */
  lemma ReloadReadsWrite<T>(store: map<string, string>, key: string, v: T, initial: T,
                            encode: T -> string, decode: string -> Option<T>)
    requires key != OldStorageKey && encode(v) != "" && decode(encode(v)) == Some(v)
    ensures var written := store[key := encode(v)];
      Loaded(Migrate(written, key), key, initial, decode) == v
  {
    var written := store[key := encode(v)];
    assert Holds(written, key);
    assert Migrate(written, key) == written;
  }
}
