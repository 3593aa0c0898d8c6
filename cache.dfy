/** The scrape cache of src/lib/cache.ts: a key builder, a lazily created
    store client and two fail-open operations. The remote key-value store is
    the `entries` map; whether a store call throws is an input. Expiry is
    recorded with each entry but time is not modelled. */
module Cache {
  import opened Wrappers

  const KeyPrefix := "scrape:"
  const DefaultTtl := 3600

  /** `cacheKey(url)`: the prefix followed by the URL, untouched. */
  function CacheKey(url: string): (k: string)
    ensures |k| == |KeyPrefix| + |url|
    ensures k[..|KeyPrefix|] == KeyPrefix && k[|KeyPrefix|..] == url
  {
    KeyPrefix + url
  }

  /** No two URLs share a key. */
  lemma CacheKeyInjective(u: string, v: string)
    requires CacheKey(u) == CacheKey(v)
    ensures u == v
  {
    assert u == CacheKey(u)[|KeyPrefix|..];
  }

  /** The connection settings a client is built from. */
  datatype Client = Client(url: string, token: string)

  /** A stored value with the expiry it was written with, in seconds. */
  datatype Entry<T> = Entry(value: T, ttl: nat)

  /** What a read answers: the stored value, or `null` when the client is
      missing, the store throws or the key is absent. */
  function Lookup<T>(entries: map<string, Entry<T>>, key: string, connected: bool, fails: bool): (r: Option<T>)
    ensures r.Some? <==> connected && !fails && key in entries
    ensures r.Some? ==> r.value == entries[key].value
  {
    if connected && !fails && key in entries then Some(entries[key].value) else None
  }

  /** The store after a write: the key is overwritten only when the client
      exists and the store does not throw. */
  function Store<T>(entries: map<string, Entry<T>>, key: string, value: T, ttl: nat, connected: bool, fails: bool): (r: map<string, Entry<T>>)
    ensures connected && !fails ==> key in r && r[key] == Entry(value, ttl)
    ensures !(connected && !fails) ==> r == entries
    ensures forall k :: k != key ==> (k in r <==> k in entries) && (k in r ==> r[k] == entries[k])
  {
    if connected && !fails then entries[key := Entry(value, ttl)] else entries
  }

  /** A successful write is read back. */
  lemma ReadYourWrite<T>(entries: map<string, Entry<T>>, key: string, value: T, ttl: nat)
    ensures Lookup(Store(entries, key, value, ttl, true, false), key, true, false) == Some(value)
  {
  }

  /** A write under one key never changes what another key reads. */
  lemma WriteIsolated<T>(entries: map<string, Entry<T>>, key: string, other: string, value: T, ttl: nat, connected: bool, fails: bool, readFails: bool)
    requires other != key
    ensures Lookup(Store(entries, key, value, ttl, connected, fails), other, connected, readFails) ==
      Lookup(entries, other, connected, readFails)
  {
  }

  /** The module state of src/lib/cache.ts: the environment it reads, the
      `redis` variable and the remote store. An empty environment string is
      an unset variable. */
  class ScrapeCache<T> {
    const envUrl: string
    const envToken: string
    var client: Option<Client>
    var entries: map<string, Entry<T>>
    /** How many clients have been built so far. */
    ghost var built: nat

    /** Both connection settings are present. */
    predicate Configured() {
      envUrl != "" && envToken != ""
    }

    /** The client, once built, is the one for the environment, and it is
        built at most once. */
    ghost predicate Valid()
      reads this
    {
      && (client.Some? ==> Configured() && client.value == Client(envUrl, envToken))
      && built == (if client.Some? then 1 else 0)
    }

    constructor(url: string, token: string, stored: map<string, Entry<T>>)
      ensures Valid()
      ensures envUrl == url && envToken == token && entries == stored && client.None?
    {
      envUrl := url;
      envToken := token;
      client := None;
      entries := stored;
      built := 0;
    }

    /** `getRedis`: reuse the client if there is one; otherwise build it when
        both settings are present. */
    method GetRedis() returns (c: Option<Client>)
      requires Valid()
      modifies this
      ensures Valid()
      ensures c.Some? <==> Configured()
      ensures c.Some? ==> c.value == Client(envUrl, envToken)
      ensures client == c && entries == old(entries)
      ensures old(client).Some? ==> built == old(built)
    {
      if client.Some? {
        return client;
      }
      if envUrl == "" || envToken == "" {
        return None;
      }
      client := Some(Client(envUrl, envToken));
      built := built + 1;
      c := client;
    }

    /** `getCached(key)`: never throws; `fails` says whether the store call throws. */
    method Get(key: string, fails: bool) returns (r: Option<T>)
      requires Valid()
      modifies this
      ensures Valid()
      ensures r == Lookup(entries, key, Configured(), fails)
      ensures entries == old(entries)
    {
      var c := GetRedis();
      if c.None? {
        return None;
      }
      if fails {
        return None;
      }
      r := if key in entries then Some(entries[key].value) else None;
    }

    /** `setCache(key, value, ttl)`: never throws; a store failure is swallowed. */
    method Set(key: string, value: T, ttl: nat, fails: bool)
      requires Valid()
      modifies this
      ensures Valid()
      ensures entries == Store(old(entries), key, value, ttl, Configured(), fails)
    {
      var c := GetRedis();
      if c.None? {
        return;
      }
      if !fails {
        entries := entries[key := Entry(value, ttl)];
      }
    }
  }
}
