/** The file cache with a time to live (utils/cache.py).  The cache
    directory is a map from cache key to entry: file names are digests of
    the key, taken here as injective.  Time is a parameter counted in
    seconds, and the outcome of writing a file is an oracle. */
module Caching {
  import opened Wrappers
  import opened Strings
  import opened Dicts

  const SecondsPerHour: int := 3600

  /** A cache file: either readable, with its `value` (absent when the key
      is missing), `cached_at` and `ttl_hours` (absent when missing), or
      unreadable (bad JSON, no `cached_at`, or a bad time stamp). */
  datatype Entry<V> = Entry(value: Option<V>, cachedAt: int, ttlHours: Option<int>) | Corrupt

  /** How writing a cache file ends: written, the file could not be opened
      (the old file is left alone), or the value could not be serialised
      after the file was opened for writing (a truncated file is left). */
  datatype WriteOutcome = Written | OpenFailed | DumpFailed

  type Store<V> = map<string, Entry<V>>

  /** `now > cached_at + ttl`: an entry is still fresh at its expiry instant. */
  predicate Expired(cachedAt: int, ttlHours: int, now: int) {
    now > cachedAt + ttlHours * SecondsPerHour
  }

  /** What `get` returns and the store it leaves: an expired or unreadable
      entry, or one without a value, is deleted. */
  function Lookup<V>(store: Store<V>, key: string, now: int, ttlHours: int): (r: (Option<V>, Store<V>))
    ensures r.0.Some? <==> key in store && store[key].Entry? && store[key].value.Some? && !Expired(store[key].cachedAt, ttlHours, now)
    ensures r.0.Some? ==> r.0 == store[key].value && r.1 == store
    ensures r.0.None? ==> r.1 == store - {key}
  {
    if key !in store then (None, store)
    else
      match store[key]
      case Corrupt => (None, store - {key})
      case Entry(value, cachedAt, _) =>
        if Expired(cachedAt, ttlHours, now) || value.None? then (None, store - {key})
        else (value, store)
  }

  /** The store after `set`. */
  function Stored<V>(store: Store<V>, key: string, value: V, now: int, ttlHours: int, outcome: WriteOutcome): (s: Store<V>)
    ensures s.Keys == if outcome == OpenFailed then store.Keys else store.Keys + {key}
    ensures forall k :: k in store && k != key ==> s[k] == store[k]
  {
    match outcome
    case Written => store[key := Entry(Some(value), now, Some(ttlHours))]
    case OpenFailed => store
    case DumpFailed => store[key := Corrupt]
  }

  /** What `clear_expired` and `get_stats` count as expired: unreadable, or
      past the entry's own time to live (the cache's when the file has none). */
  predicate Stale<V>(e: Entry<V>, now: int, ttlHours: int) {
    match e
    case Corrupt => true
    case Entry(_, cachedAt, ttl) => Expired(cachedAt, ttl.GetOr(ttlHours), now)
  }

  function ExpiredKeys<V>(store: Store<V>, now: int, ttlHours: int): (ks: set<string>)
    ensures ks <= store.Keys
  {
    set k | k in store && Stale(store[k], now, ttlHours)
  }

  /** The store with its expired entries removed. */
  function Purged<V>(store: Store<V>, now: int, ttlHours: int): Store<V> {
    map k | k in store && !Stale(store[k], now, ttlHours) :: store[k]
  }

  /** `get_stats`, without the byte sizes and the directory name. */
  datatype Stats = Stats(totalEntries: nat, expiredEntries: nat, validEntries: int, enabled: bool)

  class Cache<V> {
    /** The cache files, by key. */
    var entries: Store<V>
    const ttlHours: int
    const enabled: bool

    /** `Cache(ttl_hours=...)` over a directory that already holds `files`:
        a missing or zero time to live falls back to the configured one. */
    constructor (files: Store<V>, ttl: Option<int>, configuredTtl: int, cacheEnabled: bool)
      ensures entries == files && enabled == cacheEnabled
      ensures ttlHours == if ttl.Some? && ttl.value != 0 then ttl.value else configuredTtl
    {
      entries := files;
      ttlHours := if ttl.Some? && ttl.value != 0 then ttl.value else configuredTtl;
      enabled := cacheEnabled;
    }

    /** `get`: nothing when disabled; otherwise the lookup, which deletes a
        stale entry. */
    method Get(key: string, now: int) returns (value: Option<V>)
      modifies this
      ensures !enabled ==> value.None? && entries == old(entries)
      ensures enabled ==> (value, entries) == Lookup(old(entries), key, now, ttlHours)
    {
      if !enabled {
        return None;
      }
      if key !in entries {
        return None;
      }
      match entries[key]
      case Corrupt =>
        entries := entries - {key};
        value := None;
      case Entry(v, cachedAt, _) =>
        if Expired(cachedAt, ttlHours, now) {
          entries := entries - {key};
          value := None;
        } else if v.None? {
          entries := entries - {key};
          value := None;
        } else {
          value := v;
        }
    }

    /** `set`: false without touching the store when disabled; otherwise
        true exactly when the file was written. */
    method Set(key: string, value: V, now: int, outcome: WriteOutcome) returns (ok: bool)
      modifies this
      ensures ok <==> enabled && outcome == Written
      ensures !enabled ==> entries == old(entries)
      ensures enabled ==> entries == Stored(old(entries), key, value, now, ttlHours, outcome)
    {
      if !enabled {
        return false;
      }
      match outcome
      case Written =>
        entries := entries[key := Entry(Some(value), now, Some(ttlHours))];
        ok := true;
      case OpenFailed =>
        ok := false;
      case DumpFailed =>
        entries := entries[key := Corrupt];
        ok := false;
    }

    /** `delete`: true exactly when there was an entry; none is left.  It
        does not look at `enabled`. */
    method Delete(key: string) returns (deleted: bool)
      modifies this
      ensures deleted <==> key in old(entries)
      ensures entries == old(entries) - {key}
    {
      deleted := key in entries;
      entries := entries - {key};
    }

    /** `clear_all`: every file is deleted and counted. */
    method ClearAll() returns (count: nat)
      modifies this
      ensures entries == map[]
      ensures count == |old(entries).Keys|
    {
      count := 0;
      var files := entries.Keys;
      while files != {}
        invariant entries.Keys == files
        invariant count + |files| == |old(entries).Keys|
        decreases |files|
      {
        var f :| f in files;
        entries := entries - {f};
        files := files - {f};
        count := count + 1;
      }
      assert entries.Keys == {};
      entries := map[];
    }

    /** `clear_expired`: deletes exactly the stale files, by each file's own
        time to live, and counts them. */
    method ClearExpired(now: int) returns (count: nat)
      modifies this
      ensures entries == Purged(old(entries), now, ttlHours)
      ensures count == |ExpiredKeys(old(entries), now, ttlHours)|
    {
      ghost var stale := ExpiredKeys(entries, now, ttlHours);
      count := 0;
      var files := entries.Keys;
      while files != {}
        invariant files <= old(entries).Keys
        invariant entries.Keys <= old(entries).Keys
        invariant forall k :: k in old(entries) ==> (k in entries <==> k in files || k !in stale)
        invariant forall k :: k in entries ==> entries[k] == old(entries)[k]
        invariant count == |stale - files|
        decreases |files|
      {
        var f :| f in files;
        RemovedCount(stale, files, f);
        if Stale(entries[f], now, ttlHours) {
          entries := entries - {f};
          count := count + 1;
        }
        files := files - {f};
      }
      assert stale - files == stale;
      assert entries.Keys == Purged(old(entries), now, ttlHours).Keys;
    }

    /** `get_stats`: every file counts towards the total, the stale ones
        towards the expired, the rest are valid. */
    method GetStats(now: int) returns (stats: Stats)
      ensures stats.totalEntries == |entries.Keys|
      ensures stats.expiredEntries == |ExpiredKeys(entries, now, ttlHours)|
      ensures stats.validEntries == stats.totalEntries - stats.expiredEntries
      ensures stats.enabled == enabled
    {
      var store := entries;
      var total: nat := 0;
      var expired: nat := 0;
      ghost var stale := ExpiredKeys(store, now, ttlHours);
      var files := store.Keys;
      while files != {}
        invariant files <= store.Keys
        invariant total == |store.Keys - files|
        invariant expired == |stale - files|
        decreases |files|
      {
        var f :| f in files;
        RemovedCount(store.Keys, files, f);
        RemovedCount(stale, files, f);
        total := total + 1;
        if Stale(store[f], now, ttlHours) {
          expired := expired + 1;
        }
        files := files - {f};
      }
      assert store.Keys - files == store.Keys;
      assert stale - files == stale;
      stats := Stats(total, expired, total - expired, enabled);
    }
  }

  /** Taking one more file out of the still-to-visit set adds it to the
      visited part of `s` exactly when it belongs to `s`. */
  lemma RemovedCount(s: set<string>, files: set<string>, f: string)
    requires f in files
    ensures |s - (files - {f})| == |s - files| + (if f in s then 1 else 0)
  {
    if f in s {
      assert s - (files - {f}) == (s - files) + {f};
    } else {
      assert s - (files - {f}) == s - files;
    }
  }

  /** A value just written is read back until its time to live has run
      out, the expiry instant included; other keys are not affected. */
  lemma SetThenGet<V>(store: Store<V>, key: string, value: V, setAt: int, now: int, ttlHours: int, other: string)
    requires now <= setAt + ttlHours * SecondsPerHour
    requires other != key
    ensures Lookup(Stored(store, key, value, setAt, ttlHours, Written), key, now, ttlHours).0 == Some(value)
    ensures Lookup(Stored(store, key, value, setAt, ttlHours, Written), other, now, ttlHours).0 == Lookup(store, other, now, ttlHours).0
  {
  }

  /** Once the time to live has run out the value is gone, and so is the file. */
  lemma GetAfterExpiry<V>(store: Store<V>, key: string, value: V, setAt: int, now: int, ttlHours: int)
    requires now > setAt + ttlHours * SecondsPerHour
    ensures var r := Lookup(Stored(store, key, value, setAt, ttlHours, Written), key, now, ttlHours);
      r.0.None? && key !in r.1
  {
  }

  /** A failed write never makes `get` return the new value: an unopened
      file keeps the old entry, a truncated one reads as nothing. */
  lemma FailedSetNeverReturnsValue<V>(store: Store<V>, key: string, value: V, setAt: int, now: int, ttlHours: int)
    ensures Lookup(Stored(store, key, value, setAt, ttlHours, OpenFailed), key, now, ttlHours) == Lookup(store, key, now, ttlHours)
    ensures Lookup(Stored(store, key, value, setAt, ttlHours, DumpFailed), key, now, ttlHours).0.None?
  {
  }

  /** After `clear_expired` nothing is stale any more, and every fresh entry
      survives unchanged. */
  lemma {:induction false} PurgedHasNothingStale<V>(store: Store<V>, now: int, ttlHours: int)
    ensures ExpiredKeys(Purged(store, now, ttlHours), now, ttlHours) == {}
    ensures forall k :: k in store && !Stale(store[k], now, ttlHours) ==> k in Purged(store, now, ttlHours) && Purged(store, now, ttlHours)[k] == store[k]
    ensures |Purged(store, now, ttlHours).Keys| + |ExpiredKeys(store, now, ttlHours)| == |store.Keys|
  {
    var p := Purged(store, now, ttlHours);
    var e := ExpiredKeys(store, now, ttlHours);
    assert p.Keys == store.Keys - e;
    assert store.Keys == p.Keys + e;
    assert p.Keys !! e;
  }

  /** Statistics never report more expired entries than there are, so the
      valid count is never negative. */
  lemma StatsConsistent<V>(store: Store<V>, now: int, ttlHours: int)
    ensures |ExpiredKeys(store, now, ttlHours)| <= |store.Keys|
  {
    var e := ExpiredKeys(store, now, ttlHours);
    assert store.Keys == e + (store.Keys - e);
  }

  // ---------------------------------------------------------------------
  // make_cache_key

  /** Python's `<=` on strings: lexicographic by code point. */
  predicate LexLeq(a: string, b: string)
    decreases |a|
  {
    a == [] || (b != [] && (a[0] < b[0] || (a[0] == b[0] && LexLeq(a[1..], b[1..]))))
  }

  lemma {:induction false} LexTotal(a: string, b: string)
    ensures LexLeq(a, b) || LexLeq(b, a)
    decreases |a|
  {
    if a != [] && b != [] && a[0] == b[0] {
      LexTotal(a[1..], b[1..]);
    }
  }

  lemma {:induction false} LexTrans(a: string, b: string, c: string)
    requires LexLeq(a, b) && LexLeq(b, c)
    ensures LexLeq(a, c)
    decreases |a|
  {
    if a != [] && b != [] && c != [] && a[0] == b[0] == c[0] {
      LexTrans(a[1..], b[1..], c[1..]);
    }
  }

  /** Keyword arguments in order of their names. */
  predicate SortedByKey(d: Dict<string, string>) {
    forall i, j :: 0 <= i < j < |d| ==> LexLeq(d[i].0, d[j].0)
  }

  function Insert(e: (string, string), d: Dict<string, string>): (r: Dict<string, string>)
    ensures |r| == |d| + 1
  {
    if d == [] then [e]
    else if LexLeq(e.0, d[0].0) then [e] + d
    else [d[0]] + Insert(e, d[1..])
  }

  lemma {:induction false} InsertMultiset(e: (string, string), d: Dict<string, string>)
    ensures multiset(Insert(e, d)) == multiset(d) + multiset{e}
  {
    if d != [] && !LexLeq(e.0, d[0].0) {
      InsertMultiset(e, d[1..]);
      assert d == [d[0]] + d[1..];
    }
  }

  lemma {:induction false} InsertSorted(e: (string, string), d: Dict<string, string>)
    requires SortedByKey(d)
    ensures SortedByKey(Insert(e, d))
  {
    if d == [] {
    } else if LexLeq(e.0, d[0].0) {
      forall j | 0 <= j < |d| ensures LexLeq(e.0, d[j].0) {
        if j > 0 { LexTrans(e.0, d[0].0, d[j].0); }
      }
    } else {
      LexTotal(e.0, d[0].0);
      var rest := Insert(e, d[1..]);
      InsertSorted(e, d[1..]);
      InsertMultiset(e, d[1..]);
      forall j | 0 <= j < |rest| ensures LexLeq(d[0].0, rest[j].0) {
        assert rest[j] in multiset(rest);
        if rest[j] != e {
          assert rest[j] in multiset(d[1..]);
          var k :| 0 <= k < |d[1..]| && d[1..][k] == rest[j];
          assert d[k + 1] == rest[j];
        }
      }
    }
  }

  /** `sorted(kwargs.items())` for distinct names. */
  function SortByKey(d: Dict<string, string>): (r: Dict<string, string>)
    ensures SortedByKey(r)
    ensures multiset(r) == multiset(d)
  {
    if d == [] then []
    else
      var rest := SortByKey(d[1..]);
      InsertSorted(d[0], rest);
      InsertMultiset(d[0], rest);
      assert d == [d[0]] + d[1..];
      Insert(d[0], rest)
  }

  /** Arguments already in order are left as they are. */
  lemma {:induction false} SortSorted(d: Dict<string, string>)
    requires SortedByKey(d)
    ensures SortByKey(d) == d
  {
    if d != [] {
      SortSorted(d[1..]);
    }
  }

  function KeywordParts(d: Dict<string, string>): (parts: seq<string>)
    ensures |parts| == |d|
    ensures forall i :: 0 <= i < |d| ==> parts[i] == d[i].0 + "=" + d[i].1
  {
    seq(|d|, i requires 0 <= i < |d| => d[i].0 + "=" + d[i].1)
  }

  /** `make_cache_key(*args, **kwargs)`: the texts of the positional
      arguments, then `k=v` by name, joined with '|'. */
  function MakeCacheKey(args: seq<string>, kwargs: Dict<string, string>): string {
    Join(args + KeywordParts(SortByKey(kwargs)), "|")
  }

  /** When no part contains '|', splitting the key on '|' gives back the
      positional texts followed by the sorted `k=v` parts. */
  lemma CacheKeyParts(args: seq<string>, kwargs: Dict<string, string>)
    requires |args| + |kwargs| >= 1
    requires forall i :: 0 <= i < |args| ==> '|' !in args[i]
    requires forall i :: 0 <= i < |kwargs| ==> '|' !in kwargs[i].0 && '|' !in kwargs[i].1
    ensures SplitOn(MakeCacheKey(args, kwargs), '|') == args + KeywordParts(SortByKey(kwargs))
  {
    var sorted := SortByKey(kwargs);
    var parts := args + KeywordParts(sorted);
    forall k | 0 <= k < |parts| ensures '|' !in parts[k] {
      if k >= |args| {
        var e := sorted[k - |args|];
        assert e in multiset(kwargs);
        var i :| 0 <= i < |kwargs| && kwargs[i] == e;
        assert parts[k] == e.0 + "=" + e.1;
      }
    }
    assert |sorted| == |kwargs| by {
      assert |multiset(sorted)| == |multiset(kwargs)|;
    }
    SplitJoin(parts, '|');
  }

  /** Two keys whose first positional texts differ and contain no '|' are
      different, whatever the other parts hold. */
  lemma {:induction false} CacheKeyFirstPart(a: string, b: string, restA: seq<string>, restB: seq<string>)
    requires '|' !in a && '|' !in b && a != b
    ensures MakeCacheKey([a] + restA, []) != MakeCacheKey([b] + restB, [])
  {
    var ka := MakeCacheKey([a] + restA, []);
    var kb := MakeCacheKey([b] + restB, []);
    assert SortByKey([]) == [];
    assert ka[..|a|] == a && (|ka| == |a| || ka[|a|] == '|') by {
      JoinHead([a] + restA, "|");
    }
    assert kb[..|b|] == b && (|kb| == |b| || kb[|b|] == '|') by {
      JoinHead([b] + restB, "|");
    }
  }

  /** A joined text starts with its first part, followed by the separator
      or the end. */
  lemma JoinHead(parts: seq<string>, sep: string)
    requires |parts| >= 1
    ensures var s := Join(parts, sep);
      |parts[0]| <= |s| && s[..|parts[0]|] == parts[0] &&
      (|parts| > 1 ==> |s| >= |parts[0]| + |sep| && s[|parts[0]|..|parts[0]| + |sep|] == sep) &&
      (|parts| == 1 ==> s == parts[0])
  {
  }
}
