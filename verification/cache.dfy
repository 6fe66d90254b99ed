/** `RedisCache` (backend/src/clients/redisClient.ts): a connection flag, the
    presence of a client, and the key-value store of the Redis server it
    talks to. Every operation degrades instead of failing: when there is no
    client, when the client is not connected, or when the server call throws,
    reads answer "absent" and writes change nothing.

    The server is the field `store`; each entry keeps the value (the JSON
    round trip `JSON.parse(JSON.stringify(v))` is taken to be the identity)
    and the expiry in seconds it was written with. Whether a server call
    throws is the parameter `fails` of each operation. */
module Cache {
  import opened Wrappers
  import opened RiotTypes

  datatype CacheEntry = CacheEntry(value: ApiValue, ttl: int)

  type Store = map<string, CacheEntry>

  /** What `TTL` answers for a key the server does not hold. */
  const TTL_MISSING: int := -2
  /** What `ttl` answers when the cache is unavailable. */
  const TTL_UNAVAILABLE: int := -1

  // ------------------------------------------------ the operations on values
  // `up` is "there is a connected client and the server call does not throw".

  /** `get`: the stored value, or nothing. */
  function GetResult(up: bool, store: Store, key: string): (r: Option<ApiValue>)
    ensures r.Some? <==> up && key in store
  {
    if up && key in store then Some(store[key].value) else None
  }

  /** `set` (`SETEX key ttl value`); the server refuses a non-positive
      expiry, and that error is swallowed like any other. */
  function SetResult(up: bool, store: Store, key: string, value: ApiValue, ttl: int): (s: Store)
    ensures s.Keys == if up && ttl > 0 then store.Keys + {key} else store.Keys
  {
    if up && ttl > 0 then store[key := CacheEntry(value, ttl)] else store
  }

  /** `delete` */
  function DeleteResult(up: bool, store: Store, key: string): (s: Store)
    ensures s.Keys == if up then store.Keys - {key} else store.Keys
  {
    if up then store - {key} else store
  }

  /** `deletePattern`: `KEYS pattern` then `DEL` of what it listed. */
  function DeletePatternResult(up: bool, store: Store, pattern: string): (s: Store)
    ensures s.Keys <= store.Keys
  {
    if up then map k | k in store && !GlobMatch(pattern, k) :: store[k] else store
  }

  /** `exists`: the server's count is 1 exactly when it holds the key. */
  function ExistsResult(up: bool, store: Store, key: string): bool {
    up && key in store
  }

  /** `ttl` */
  function TtlResult(up: bool, store: Store, key: string): (t: int)
    ensures !up ==> t == TTL_UNAVAILABLE
    ensures up && key !in store ==> t == TTL_MISSING
  {
    if !up then TTL_UNAVAILABLE else if key in store then store[key].ttl else TTL_MISSING
  }

  /** Redis glob matching as `KEYS` applies it: `*` matches any run, `?`
      any one character, a backslash makes the next character literal. */
  function GlobMatch(pattern: string, s: string): bool
    decreases |pattern| + |s|
  {
    if |pattern| == 0 then |s| == 0
    else if pattern[0] == '*' then
      GlobMatch(pattern[1..], s) || (|s| > 0 && GlobMatch(pattern, s[1..]))
    else if pattern[0] == '?' then
      |s| > 0 && GlobMatch(pattern[1..], s[1..])
    else if pattern[0] == '\\' && |pattern| >= 2 then
      |s| > 0 && s[0] == pattern[1] && GlobMatch(pattern[2..], s[1..])
    else
      |s| > 0 && s[0] == pattern[0] && GlobMatch(pattern[1..], s[1..])
  }

  predicate Plain(c: char) {
    c != '*' && c != '?' && c != '\\'
  }

  // ------------------------------------------------------ properties

  /** When unavailable, every read answers "absent" and every write leaves
      the server as it was. */
  lemma Degraded(store: Store, key: string, value: ApiValue, ttl: int, pattern: string)
    ensures GetResult(false, store, key) == None
    ensures !ExistsResult(false, store, key)
    ensures TtlResult(false, store, key) == TTL_UNAVAILABLE
    ensures SetResult(false, store, key, value, ttl) == store
    ensures DeleteResult(false, store, key) == store
    ensures DeletePatternResult(false, store, pattern) == store
  {
  }

  /** A successful `set` is read back by `get`, with its expiry reported
      by `ttl`, and leaves every other key alone. */
  lemma SetThenGet(store: Store, key: string, other: string, value: ApiValue, ttl: int)
    requires ttl > 0
    ensures GetResult(true, SetResult(true, store, key, value, ttl), key) == Some(value)
    ensures ExistsResult(true, SetResult(true, store, key, value, ttl), key)
    ensures TtlResult(true, SetResult(true, store, key, value, ttl), key) == ttl
    ensures other != key ==> GetResult(true, SetResult(true, store, key, value, ttl), other) == GetResult(true, store, other)
  {
  }

  /** After a successful `delete` the key is absent; other keys are kept. */
  lemma DeleteThenGet(store: Store, key: string, other: string)
    ensures GetResult(true, DeleteResult(true, store, key), key) == None
    ensures TtlResult(true, DeleteResult(true, store, key), key) == TTL_MISSING
    ensures other != key ==> GetResult(true, DeleteResult(true, store, key), other) == GetResult(true, store, other)
  {
  }

  /** `exists` agrees with `get`. */
  lemma ExistsIffGet(up: bool, store: Store, key: string)
    ensures ExistsResult(up, store, key) <==> GetResult(up, store, key).Some?
  {
  }

  /** `deletePattern` removes exactly the keys the pattern matches and
      keeps the entries of the others. */
  lemma DeletePatternExactly(store: Store, pattern: string, key: string)
    ensures key in DeletePatternResult(true, store, pattern) <==> key in store && !GlobMatch(pattern, key)
    ensures key in DeletePatternResult(true, store, pattern) ==> DeletePatternResult(true, store, pattern)[key] == store[key]
  {
  }

  /** A pattern without wildcards or escapes matches exactly itself. */
  lemma {:induction false} GlobLiteral(pattern: string, s: string)
    requires forall i :: 0 <= i < |pattern| ==> Plain(pattern[i])
    ensures GlobMatch(pattern, s) <==> s == pattern
  {
    if |pattern| > 0 && |s| > 0 {
      GlobLiteral(pattern[1..], s[1..]);
      if s[0] == pattern[0] && s[1..] == pattern[1..] {
        assert s == [s[0]] + s[1..] && pattern == [pattern[0]] + pattern[1..];
      }
    }
  }

  /** `*` alone matches every key. */
  lemma {:induction false} GlobStarMatchesAll(s: string)
    ensures GlobMatch("*", s)
  {
    if |s| > 0 {
      GlobStarMatchesAll(s[1..]);
    }
  }

  /** `prefix*`, for a plain prefix, matches exactly the keys that start
      with that prefix (how a family of keys such as `summoner:*` is
      cleared). */
  lemma {:induction false} GlobPrefix(prefix: string, s: string)
    requires forall i :: 0 <= i < |prefix| ==> Plain(prefix[i])
    ensures GlobMatch(prefix + "*", s) <==> |prefix| <= |s| && s[..|prefix|] == prefix
  {
    if |prefix| == 0 {
      assert prefix + "*" == "*";
      GlobStarMatchesAll(s);
    } else {
      assert (prefix + "*")[1..] == prefix[1..] + "*";
      if |s| > 0 {
        GlobPrefix(prefix[1..], s[1..]);
        if |prefix| <= |s| {
          assert s[..|prefix|] == [s[0]] + s[1..][..|prefix| - 1];
          assert prefix == [prefix[0]] + prefix[1..];
        }
      }
    }
  }

  // ------------------------------------------------------------ the class

  class RedisCache {
    /** `client !== null` */
    var hasClient: bool
    var isConnected: bool
    /** The Redis server's keys, shared with whoever else writes to it. */
    var store: Store

    /** Requests reach the server only through a connected client. */
    predicate Connected()
      reads this
    {
      hasClient && isConnected
    }

    /** Only a client can be connected. */
    predicate Valid()
      reads this
    {
      isConnected ==> hasClient
    }

    /** The singleton, before `connect`: no client. */
    constructor(server: Store)
      ensures Valid() && !hasClient && !isConnected && store == server
    {
      hasClient := false;
      isConnected := false;
      store := server;
    }

    /** `connect`: a no-op when connected; otherwise a new client is made,
        and it becomes connected (its `connect` event fires) exactly when the
        server is reachable. `ok` is false when `client.connect()` rejects,
        an error the caller catches. */
    method Connect(reachable: bool) returns (ok: bool)
      requires Valid()
      ensures Valid()
      modifies this
      ensures old(isConnected) ==> ok && unchanged(this)
      ensures !old(isConnected) ==> hasClient && isConnected == reachable && ok == reachable
      ensures store == old(store)
    {
      if isConnected {
        return true;
      }
      hasClient := true;
      if reachable {
        OnConnect();
      }
      ok := reachable;
    }

    /** The client's `connect` event. */
    method OnConnect()
      requires hasClient
      modifies this
      ensures Valid()
      ensures isConnected && hasClient && store == old(store)
    {
      isConnected := true;
    }

    /** The client's `disconnect` event. */
    method OnDisconnect()
      requires Valid()
      ensures Valid()
      modifies this
      ensures !isConnected && hasClient == old(hasClient) && store == old(store)
    {
      isConnected := false;
    }

    /** `disconnect`: quits only a connected client; afterwards the cache
        is not connected either way. */
    method Disconnect()
      requires Valid()
      ensures Valid()
      modifies this
      ensures !isConnected && hasClient == old(hasClient) && store == old(store)
      ensures !old(Connected()) ==> unchanged(this)
    {
      if hasClient && isConnected {
        isConnected := false;
      }
    }

    /** `get` */
    method Get(key: string, fails: bool) returns (r: Option<ApiValue>)
      ensures r == GetResult(Connected() && !fails, store, key)
      ensures r.Some? ==> Connected() && key in store && r.value == store[key].value
    {
      if !hasClient || !isConnected {
        return None;
      }
      if fails {
        return None;
      }
      if key in store {
        r := Some(store[key].value);
      } else {
        r := None;
      }
    }

    /** `set`: writes only through a connected client whose call succeeds. */
    method Set(key: string, value: ApiValue, ttl: int, fails: bool)
      modifies this
      ensures store == SetResult(old(Connected()) && !fails, old(store), key, value, ttl)
      ensures hasClient == old(hasClient) && isConnected == old(isConnected)
    {
      if !hasClient || !isConnected {
        return;
      }
      if !fails && ttl > 0 {
        store := store[key := CacheEntry(value, ttl)];
      }
    }

    /** `delete` */
    method Delete(key: string, fails: bool)
      modifies this
      ensures store == DeleteResult(old(Connected()) && !fails, old(store), key)
      ensures hasClient == old(hasClient) && isConnected == old(isConnected)
    {
      if !hasClient || !isConnected {
        return;
      }
      if !fails {
        store := store - {key};
      }
    }

    /** `deletePattern`: `fails` covers both the `KEYS` and the `DEL` call;
        either failing leaves the server as it was. */
    method DeletePattern(pattern: string, fails: bool)
      modifies this
      ensures store == DeletePatternResult(old(Connected()) && !fails, old(store), pattern)
      ensures hasClient == old(hasClient) && isConnected == old(isConnected)
    {
      if !hasClient || !isConnected {
        return;
      }
      if !fails {
        var matched := set k | k in store && GlobMatch(pattern, k);
        if |matched| > 0 {
          store := map k | k in store && k !in matched :: store[k];
        } else {
          assert forall k :: k in store ==> k !in matched;
          assert store == DeletePatternResult(true, store, pattern);
        }
      }
    }

    /** `exists` */
    method Exists(key: string, fails: bool) returns (r: bool)
      ensures r == ExistsResult(Connected() && !fails, store, key)
      ensures r ==> key in store
    {
      if !hasClient || !isConnected {
        return false;
      }
      if fails {
        return false;
      }
      r := key in store;
    }

    /** `ttl` */
    method Ttl(key: string, fails: bool) returns (t: int)
      ensures t == TtlResult(Connected() && !fails, store, key)
      ensures !Connected() || fails ==> t == TTL_UNAVAILABLE
    {
      if !hasClient || !isConnected {
        return TTL_UNAVAILABLE;
      }
      if fails {
        return TTL_UNAVAILABLE;
      }
      t := if key in store then store[key].ttl else TTL_MISSING;
    }
  }
}
