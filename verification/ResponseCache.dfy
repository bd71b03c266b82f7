/**
 * The response cache (services/gateway/cache/store.py): least recently used eviction over
 * an ordered dictionary, with a time to live counted from the write.
 *
 * `Get` and `Set` are what one call does.  The theorems read a whole history of calls: the
 * dictionary's order is the order of last use (`RecencyOrder`), a hit is the latest write
 * of that key and is in time (`HitIsLatestWrite`), a key that is in time is a hit unless as
 * many other keys as the cache can hold were used since (`GuaranteedHit`), and which keys
 * are there is known exactly (`PresentIff`).
 */
module ResponseCache {
  import opened Wrappers

  datatype CachedResponse = CachedResponse(
    text: string,
    stopReason: Option<string>,
    inputTokens: int,
    outputTokens: int,
    modelId: string)

  datatype Entry = Entry(cachedAt: real, value: CachedResponse)

  /** An ordered dictionary: `order` lists its keys, the next to be evicted first. */
  datatype Store = Store(order: seq<string>, entries: map<string, Entry>)

  const EMPTY := Store([], map[])

  datatype Settings = Settings(ttl: real, maxEntries: nat)

  function Evicted(s: Store, maxEntries: nat): Store
    decreases |s.order|
  {
    if |s.order| > maxEntries then Evicted(Store(s.order[1..], s.entries - {s.order[0]}), maxEntries) else s
  }

  function Get(cfg: Settings, s: Store, key: string, now: real): (r: (Store, Option<CachedResponse>)) {
    if key !in s.entries then (s, None)
    else if now - s.entries[key].cachedAt >= cfg.ttl then (Store(Without(s.order, key), s.entries - {key}), None)
    else (s.(order := Without(s.order, key) + [key]), Some(s.entries[key].value))
  }

  function Set(cfg: Settings, s: Store, key: string, value: CachedResponse, now: real): Store {
    Evicted(Store(Without(s.order, key) + [key], s.entries[key := Entry(now, value)]), cfg.maxEntries)
  }

  // ----- Histories -----

  datatype Op = Write(key: string, value: CachedResponse, at: real) | Read(key: string, at: real)

  function Apply(cfg: Settings, s: Store, op: Op): Store {
    match op
    case Write(key, value, at) => Set(cfg, s, key, value, at)
    case Read(key, at) => Get(cfg, s, key, at).0
  }

  function After(cfg: Settings, ops: seq<Op>, n: nat): Store
    requires n <= |ops|
  {
    if n == 0 then EMPTY else Apply(cfg, After(cfg, ops, n - 1), ops[n - 1])
  }

  /** Operation n uses its key: a write does, a read does when it hits. */
  predicate Uses(cfg: Settings, ops: seq<Op>, n: nat)
    requires n < |ops|
  {
    ops[n].Write? || Get(cfg, After(cfg, ops, n), ops[n].key, ops[n].at).1.Some?
  }

  /** One past the last of the first n operations that used the key; 0 when none did. */
  function LastUse(cfg: Settings, ops: seq<Op>, n: nat, key: string): (r: nat)
    requires n <= |ops|
    ensures r <= n
  {
    if n == 0 then 0
    else if ops[n - 1].key == key && Uses(cfg, ops, n - 1) then n
    else LastUse(cfg, ops, n - 1, key)
  }

  /** One past the last of the first n operations that wrote the key; 0 when none did. */
  function LastWrite(ops: seq<Op>, n: nat, key: string): (r: nat)
    requires n <= |ops|
    ensures r <= n && (r > 0 ==> ops[r - 1].Write? && ops[r - 1].key == key)
  {
    if n == 0 then 0
    else if ops[n - 1].Write? && ops[n - 1].key == key then n
    else LastWrite(ops, n - 1, key)
  }

  /** The other keys used since the key's own last use. */
  function OthersSince(cfg: Settings, ops: seq<Op>, n: nat, key: string): set<string>
    requires n <= |ops|
  {
    if n == 0 then {}
    else if !Uses(cfg, ops, n - 1) then OthersSince(cfg, ops, n - 1, key)
    else if ops[n - 1].key == key then {}
    else OthersSince(cfg, ops, n - 1, key) + {ops[n - 1].key}
  }

  // ----- The order of the dictionary -----

  /** Order and dictionary hold the same keys, each once. */
  ghost predicate Consistent(s: Store) {
    && (forall i, j | 0 <= i < j < |s.order| :: s.order[i] != s.order[j])
    && (forall k :: k in s.order <==> k in s.entries)
  }

  /** Keys stand in the order of their last use. */
  predicate InOrder(cfg: Settings, ops: seq<Op>, n: nat, order: seq<string>)
    requires n <= |ops|
  {
    forall i, j | 0 <= i < j < |order| ::
      && LastUse(cfg, ops, n, order[i]) < LastUse(cfg, ops, n, order[j])
      && order[j] in OthersSince(cfg, ops, n, order[i])
  }

  /** Taking a key out leaves the others, each once. */
  lemma WithoutConsistent(s: Store, key: string)
    requires Consistent(s)
    ensures Consistent(Store(Without(s.order, key), s.entries - {key}))
  {
    var r := Without(s.order, key);
    var from := WithoutPositions(s.order, key);
    WithoutKeepsOthers(s.order, key);
    forall k | k in r
      ensures k in s.entries && k != key
    {
      var i :| 0 <= i < |r| && r[i] == k;
      assert s.order[from[i]] == k;
    }
    forall i, j | 0 <= i < j < |r|
      ensures r[i] != r[j]
    {
      assert s.order[from[i]] == r[i] && s.order[from[j]] == r[j];
    }
  }

  lemma WithoutInOrder(cfg: Settings, ops: seq<Op>, n: nat, order: seq<string>, key: string)
    requires n <= |ops| && InOrder(cfg, ops, n, order)
    ensures InOrder(cfg, ops, n, Without(order, key))
  {
    var r := Without(order, key);
    var from := WithoutPositions(order, key);
    forall i, j | 0 <= i < j < |r|
      ensures LastUse(cfg, ops, n, r[i]) < LastUse(cfg, ops, n, r[j]) && r[j] in OthersSince(cfg, ops, n, r[i])
    {
      assert order[from[i]] == r[i] && order[from[j]] == r[j];
    }
  }

  lemma UnusedKeepsOrder(cfg: Settings, ops: seq<Op>, n: nat, order: seq<string>)
    requires n < |ops| && !Uses(cfg, ops, n) && InOrder(cfg, ops, n, order)
    ensures InOrder(cfg, ops, n + 1, order)
  {
    forall i, j | 0 <= i < j < |order|
      ensures LastUse(cfg, ops, n + 1, order[i]) < LastUse(cfg, ops, n + 1, order[j])
      ensures order[j] in OthersSince(cfg, ops, n + 1, order[i])
    {
    }
  }

  lemma AppendConsistent(rest: seq<string>, entries: map<string, Entry>, key: string)
    requires key in entries && Consistent(Store(rest, entries - {key}))
    ensures Consistent(Store(rest + [key], entries))
  {
    var order := rest + [key];
    forall k
      ensures k in order <==> k in entries
    {
      assert k in rest <==> k in entries - {key};
    }
    forall i, j | 0 <= i < j < |order|
      ensures order[i] != order[j]
    {
      assert order[i] == rest[i] && rest[i] in rest;
      if j < |rest| {
        assert order[j] == rest[j];
      } else {
        assert order[j] == key;
      }
    }
  }

  /** Using a key puts it last, after every other key. */
  lemma UseGoesLast(cfg: Settings, ops: seq<Op>, n: nat, order: seq<string>)
    requires n < |ops| && Uses(cfg, ops, n) && InOrder(cfg, ops, n, order) && ops[n].key !in order
    ensures InOrder(cfg, ops, n + 1, order + [ops[n].key])
  {
    var all := order + [ops[n].key];
    forall i, j | 0 <= i < j < |all|
      ensures LastUse(cfg, ops, n + 1, all[i]) < LastUse(cfg, ops, n + 1, all[j])
      ensures all[j] in OthersSince(cfg, ops, n + 1, all[i])
    {
      assert all[i] == order[i] && all[i] in order;
      if j < |order| {
        assert all[j] == order[j] && all[j] in order;
      }
    }
  }

  lemma PopConsistent(s: Store)
    requires Consistent(s) && s.order != []
    ensures Consistent(Store(s.order[1..], s.entries - {s.order[0]}))
  {
    var next := Store(s.order[1..], s.entries - {s.order[0]});
    forall k
      ensures k in next.order <==> k in next.entries
    {
      if k in next.entries {
        var i :| 0 <= i < |s.order| && s.order[i] == k;
        assert next.order[i - 1] == k;
      }
    }
  }

  lemma {:induction false} EvictionDropsOldest(s: Store, maxEntries: nat)
    requires Consistent(s)
    ensures var r := Evicted(s, maxEntries);
            && Consistent(r)
            && |r.order| <= maxEntries
            && r.order == s.order[if |s.order| > maxEntries then |s.order| - maxEntries else 0..]
            && (forall k | k in r.entries :: k in s.entries && r.entries[k] == s.entries[k])
    decreases |s.order|
  {
    if |s.order| > maxEntries {
      PopConsistent(s);
      EvictionDropsOldest(Store(s.order[1..], s.entries - {s.order[0]}), maxEntries);
    }
  }

  lemma SuffixInOrder(cfg: Settings, ops: seq<Op>, n: nat, order: seq<string>, suffix: seq<string>)
    requires n <= |ops| && InOrder(cfg, ops, n, order)
    requires |suffix| <= |order| && suffix == order[|order| - |suffix|..]
    ensures InOrder(cfg, ops, n, suffix)
  {
    var d := |order| - |suffix|;
    forall i, j | 0 <= i < j < |suffix|
      ensures LastUse(cfg, ops, n, suffix[i]) < LastUse(cfg, ops, n, suffix[j])
      ensures suffix[j] in OthersSince(cfg, ops, n, suffix[i])
    {
      assert suffix[i] == order[d + i] && suffix[j] == order[d + j];
    }
  }

  /** What a history leaves in the dictionary: the latest write of each key that is still there. */
  ghost predicate Faithful(cfg: Settings, ops: seq<Op>, n: nat, s: Store)
    requires n <= |ops|
  {
    forall k | k in s.entries ::
      var w := LastWrite(ops, n, k);
      w > 0 && s.entries[k] == Entry(ops[w - 1].at, ops[w - 1].value)
  }

  ghost predicate Good(cfg: Settings, ops: seq<Op>, n: nat, s: Store)
    requires n <= |ops|
  {
    Consistent(s) && |s.order| <= cfg.maxEntries && InOrder(cfg, ops, n, s.order) && Faithful(cfg, ops, n, s)
  }

  /** After any history: each key once, in the order of last use, never too many, each with its latest write. */
  lemma {:induction false} RecencyOrder(cfg: Settings, ops: seq<Op>, n: nat)
    requires n <= |ops|
    ensures Good(cfg, ops, n, After(cfg, ops, n))
  {
    if n > 0 {
      var m: nat := n - 1;
      RecencyOrder(cfg, ops, m);
      if ops[m].Write? {
        WriteKeepsGood(cfg, ops, m);
      } else {
        ReadKeepsGood(cfg, ops, m);
      }
    }
  }

  /** The dictionary keeps telling the latest writes when entries only leave it or the newest write enters. */
  lemma FaithfulNext(cfg: Settings, ops: seq<Op>, m: nat, s: Store, r: Store)
    requires m < |ops| && Faithful(cfg, ops, m, s)
    requires forall k | k in r.entries ::
               if ops[m].Write? && ops[m].key == k then r.entries[k] == Entry(ops[m].at, ops[m].value)
               else k in s.entries && r.entries[k] == s.entries[k]
    ensures Faithful(cfg, ops, m + 1, r)
  {
  }

  lemma ReadKeepsGood(cfg: Settings, ops: seq<Op>, m: nat)
    requires m < |ops| && ops[m].Read? && Good(cfg, ops, m, After(cfg, ops, m))
    ensures Good(cfg, ops, m + 1, After(cfg, ops, m + 1))
  {
    var s, r, key := After(cfg, ops, m), After(cfg, ops, m + 1), ops[m].key;
    assert r == Get(cfg, s, key, ops[m].at).0;
    FaithfulNext(cfg, ops, m, s, r);
    WithoutShorter(s.order, key);
    WithoutConsistent(s, key);
    WithoutInOrder(cfg, ops, m, s.order, key);
    if Uses(cfg, ops, m) {
      UseGoesLast(cfg, ops, m, Without(s.order, key));
      AppendConsistent(Without(s.order, key), s.entries, key);
    } else {
      UnusedKeepsOrder(cfg, ops, m, r.order);
    }
  }

  /** The dictionary as a write leaves it before the eviction loop. */
  function Full(s: Store, op: Op): Store
    requires op.Write?
  {
    Store(Without(s.order, op.key) + [op.key], s.entries[op.key := Entry(op.at, op.value)])
  }

  lemma WriteFills(cfg: Settings, ops: seq<Op>, m: nat, s: Store)
    requires m < |ops| && ops[m].Write? && Consistent(s) && InOrder(cfg, ops, m, s.order)
    ensures Consistent(Full(s, ops[m])) && InOrder(cfg, ops, m + 1, Full(s, ops[m]).order)
  {
    var key, entries := ops[m].key, Full(s, ops[m]).entries;
    WithoutConsistent(s, key);
    WithoutInOrder(cfg, ops, m, s.order, key);
    UseGoesLast(cfg, ops, m, Without(s.order, key));
    assert entries - {key} == s.entries - {key};
    AppendConsistent(Without(s.order, key), entries, key);
  }

  lemma WriteKeepsGood(cfg: Settings, ops: seq<Op>, m: nat)
    requires m < |ops| && ops[m].Write? && Good(cfg, ops, m, After(cfg, ops, m))
    ensures Good(cfg, ops, m + 1, After(cfg, ops, m + 1))
  {
    var s, r, full := After(cfg, ops, m), After(cfg, ops, m + 1), Full(After(cfg, ops, m), ops[m]);
    WriteFills(cfg, ops, m, s);
    EvictionDropsOldest(full, cfg.maxEntries);
    assert r == Evicted(full, cfg.maxEntries);
    SuffixInOrder(cfg, ops, m + 1, full.order, r.order);
    FaithfulNext(cfg, ops, m, s, r);
  }

  /**
   * A hit is the latest write of its key, younger than the time to live counted from that
   * write: a hit does not renew it.
   */
  lemma HitIsLatestWrite(cfg: Settings, ops: seq<Op>, n: nat)
    requires n < |ops| && ops[n].Read? && Uses(cfg, ops, n)
    ensures var w := LastWrite(ops, n, ops[n].key);
            && w > 0
            && Get(cfg, After(cfg, ops, n), ops[n].key, ops[n].at).1 == Some(ops[w - 1].value)
            && ops[n].at - ops[w - 1].at < cfg.ttl
  {
    RecencyOrder(cfg, ops, n);
  }

  lemma {:induction false} EvictionOnlyRemoves(s: Store, maxEntries: nat)
    ensures var r := Evicted(s, maxEntries).entries;
            forall k | k in r :: k in s.entries && r[k] == s.entries[k]
    decreases |s.order|
  {
    if |s.order| > maxEntries {
      EvictionOnlyRemoves(Store(s.order[1..], s.entries - {s.order[0]}), maxEntries);
    }
  }

  /** A write leaves nothing in the dictionary but what was there and what it wrote. */
  lemma SetEntries(cfg: Settings, s: Store, key: string, value: CachedResponse, now: real)
    ensures var r := Set(cfg, s, key, value, now).entries;
            forall k | k in r :: if k == key then r[k] == Entry(now, value) else k in s.entries && r[k] == s.entries[k]
  {
    EvictionOnlyRemoves(Store(Without(s.order, key) + [key], s.entries[key := Entry(now, value)]), cfg.maxEntries);
  }

  // ----- Exactly which keys are there -----

  predicate Present(cfg: Settings, ops: seq<Op>, n: nat, key: string)
    requires n <= |ops|
  {
    key in After(cfg, ops, n).entries
  }

  /** Operation n comes within the time to live of its key's latest write. */
  predicate InTime(cfg: Settings, ops: seq<Op>, n: nat)
    requires n < |ops|
  {
    var w := LastWrite(ops, n, ops[n].key);
    w > 0 && ops[n].at - ops[w - 1].at < cfg.ttl
  }

  /** The keys there at write n, its own included, that were used later than this one. */
  function Newer(cfg: Settings, ops: seq<Op>, n: nat, key: string): set<string>
    requires n < |ops|
  {
    set q | q in After(cfg, ops, n).entries.Keys + {ops[n].key}
            && LastUse(cfg, ops, n + 1, q) > LastUse(cfg, ops, n + 1, key)
  }

  /** A read that finds its key out of time deletes it; no other read changes which keys are there. */
  lemma ReadRule(cfg: Settings, ops: seq<Op>, n: nat)
    requires n < |ops| && ops[n].Read?
    ensures Uses(cfg, ops, n) <==> Present(cfg, ops, n, ops[n].key) && InTime(cfg, ops, n)
    ensures forall k ::
              Present(cfg, ops, n + 1, k) <==> Present(cfg, ops, n, k) && (k == ops[n].key ==> InTime(cfg, ops, n))
  {
    RecencyOrder(cfg, ops, n);
    assert After(cfg, ops, n + 1) == Get(cfg, After(cfg, ops, n), ops[n].key, ops[n].at).0;
  }

  /** A read that does not hit leaves its key out of the cache. */
  lemma MissLeavesOut(cfg: Settings, ops: seq<Op>, n: nat)
    requires n < |ops| && ops[n].Read? && !Uses(cfg, ops, n)
    ensures !Present(cfg, ops, n + 1, ops[n].key)
  {
    ReadRule(cfg, ops, n);
  }

  /** A write keeps a key that is there, its own included, exactly when fewer newer ones are there than fit. */
  lemma WriteRule(cfg: Settings, ops: seq<Op>, n: nat, key: string)
    requires n < |ops| && ops[n].Write?
    ensures Present(cfg, ops, n + 1, key)
            <==> && (Present(cfg, ops, n, key) || key == ops[n].key)
                 && |Newer(cfg, ops, n, key)| < cfg.maxEntries
  {
    var s := After(cfg, ops, n);
    var full := Full(s, ops[n]);
    RecencyOrder(cfg, ops, n);
    WriteFills(cfg, ops, n, s);
    EvictionDropsOldest(full, cfg.maxEntries);
    if key in full.entries {
      var i := Position(full, key);
      NewerStandAfter(cfg, ops, n, full, i, Newer(cfg, ops, n, key));
      var d := if |full.order| > cfg.maxEntries then |full.order| - cfg.maxEntries else 0;
      InSuffix(full.order, d, i);
    }
  }

  lemma Position(s: Store, key: string) returns (i: nat)
    requires Consistent(s) && key in s.entries
    ensures i < |s.order| && s.order[i] == key
  {
    i :| 0 <= i < |s.order| && s.order[i] == key;
  }

  lemma InSuffix(order: seq<string>, d: nat, i: nat)
    requires d <= |order| && i < |order| && forall i, j | 0 <= i < j < |order| :: order[i] != order[j]
    ensures order[i] in order[d..] <==> d <= i
  {
    if d <= i {
      assert order[d..][i - d] == order[i];
    }
  }

  lemma NewerStandAfter(cfg: Settings, ops: seq<Op>, n: nat, full: Store, i: nat, newer: set<string>)
    requires n < |ops| && ops[n].Write? && full == Full(After(cfg, ops, n), ops[n])
    requires Consistent(full) && InOrder(cfg, ops, n + 1, full.order)
    requires i < |full.order| && newer == Newer(cfg, ops, n, full.order[i])
    ensures |newer| == |full.order| - i - 1
  {
    var order, m := full.order, n + 1;
    forall q
      ensures q in newer <==> q in order[i + 1..]
    {
      if q in newer {
        var j := Position(full, q);
        assert j > i;
        InSuffix(order, i + 1, j);
      }
      if q in order[i + 1..] {
        var j :| 0 <= j < |order[i + 1..]| && order[i + 1..][j] == q;
        assert order[i + 1 + j] == q;
        assert q in order;
      }
    }
    DistinctSize(order[i + 1..], newer);
  }

  lemma {:induction false} DistinctSize(order: seq<string>, all: set<string>)
    requires forall i, j | 0 <= i < j < |order| :: order[i] != order[j]
    requires forall q :: q in all <==> q in order
    ensures |all| == |order|
  {
    if order == [] {
      assert all == {};
    } else {
      assert order == [order[0]] + order[1..];
      DistinctSize(order[1..], all - {order[0]});
    }
  }

  /** Operation m does not take the key out: it is no write with too many newer keys, and no late read of the key. */
  predicate Spares(cfg: Settings, ops: seq<Op>, m: nat, key: string)
    requires m < |ops|
  {
    if ops[m].Write? then |Newer(cfg, ops, m, key)| < cfg.maxEntries else ops[m].key == key ==> InTime(cfg, ops, m)
  }

  /**
   * Which keys are there, exactly: those that were used and that no operation since, their
   * last use included, took out.
   */
  lemma {:induction false} PresentIff(cfg: Settings, ops: seq<Op>, n: nat, key: string)
    requires n <= |ops|
    ensures Present(cfg, ops, n, key)
            <==> LastUse(cfg, ops, n, key) > 0
                 && forall m | LastUse(cfg, ops, n, key) - 1 <= m < n :: Spares(cfg, ops, m, key)
    decreases n, 1
  {
    if n > 0 {
      PresentFrom(cfg, ops, n - 1, n, key);
    }
  }

  lemma {:induction false} PresentFrom(cfg: Settings, ops: seq<Op>, m: nat, n: nat, key: string)
    requires n == m + 1 <= |ops|
    ensures Present(cfg, ops, n, key)
            <==> LastUse(cfg, ops, n, key) > 0
                 && forall i | LastUse(cfg, ops, n, key) - 1 <= i < n :: Spares(cfg, ops, i, key)
    decreases n, 0
  {
    PresentIff(cfg, ops, m, key);
    PresentNext(cfg, ops, m, key);
    if !(ops[m].key == key && Uses(cfg, ops, m)) {
      assert LastUse(cfg, ops, n, key) == LastUse(cfg, ops, m, key);
    }
  }

  lemma PresentNext(cfg: Settings, ops: seq<Op>, m: nat, key: string)
    requires m < |ops|
    ensures Present(cfg, ops, m + 1, key)
            <==> (Present(cfg, ops, m, key) || (ops[m].key == key && Uses(cfg, ops, m))) && Spares(cfg, ops, m, key)
  {
    if ops[m].Write? {
      WriteRule(cfg, ops, m, key);
    } else {
      ReadRule(cfg, ops, m);
    }
  }

  // ----- When a hit is guaranteed -----

  /** A key used later than another was used since the other's last use. */
  lemma {:induction false} UsedSince(cfg: Settings, ops: seq<Op>, n: nat, key: string, other: string)
    requires n <= |ops| && LastUse(cfg, ops, n, key) < LastUse(cfg, ops, n, other)
    ensures other in OthersSince(cfg, ops, n, key)
  {
    if ops[n - 1].key != other || !Uses(cfg, ops, n - 1) {
      UsedSince(cfg, ops, n - 1, key, other);
    }
  }

  /** A write evicts a key only when as many others as the cache holds were used since. */
  lemma WriteSpares(cfg: Settings, ops: seq<Op>, m: nat, key: string)
    requires m < |ops| && ops[m].Write?
    requires ops[m].key == key || key in After(cfg, ops, m).entries
    requires |OthersSince(cfg, ops, m + 1, key)| < cfg.maxEntries
    ensures key in After(cfg, ops, m + 1).entries
  {
    var newer, others := Newer(cfg, ops, m, key), OthersSince(cfg, ops, m + 1, key);
    forall q | q in newer
      ensures q in others
    {
      UsedSince(cfg, ops, m + 1, key, q);
    }
    Subset(newer, others);
    WriteRule(cfg, ops, m, key);
  }

  /** A read drops only a key that is out of time. */
  lemma ReadSpares(cfg: Settings, ops: seq<Op>, m: nat, key: string, now: real)
    requires m < |ops| && ops[m].Read? && ops[m].at <= now && key in After(cfg, ops, m).entries
    requires now - After(cfg, ops, m).entries[key].cachedAt < cfg.ttl
    ensures key in After(cfg, ops, m + 1).entries && (ops[m].key == key ==> Uses(cfg, ops, m))
  {
    var s := After(cfg, ops, m);
    assert After(cfg, ops, m + 1) == Get(cfg, s, ops[m].key, ops[m].at).0;
  }

  /** The key was last written in time, all operations come no later than now, and few enough others were used since. */
  predicate InUse(cfg: Settings, ops: seq<Op>, n: nat, key: string, now: real)
    requires n <= |ops|
  {
    && (forall i | 0 <= i < n :: ops[i].at <= now)
    && LastWrite(ops, n, key) > 0 && now - ops[LastWrite(ops, n, key) - 1].at < cfg.ttl
    && |OthersSince(cfg, ops, n, key)| < cfg.maxEntries
  }

  /** The operation before was not about the key, or did not use it. */
  lemma InUseBefore(cfg: Settings, ops: seq<Op>, m: nat, n: nat, key: string, now: real)
    requires n == m + 1 <= |ops| && InUse(cfg, ops, n, key, now) && (ops[m].key != key || !Uses(cfg, ops, m))
    ensures InUse(cfg, ops, m, key, now)
  {
    FewerOthers(cfg, ops, m, key);
  }

  lemma KeptNext(cfg: Settings, ops: seq<Op>, m: nat, n: nat, key: string, now: real)
    requires n == m + 1 <= |ops| && InUse(cfg, ops, n, key, now)
    requires InUse(cfg, ops, m, key, now) && key in After(cfg, ops, m).entries
    ensures key in After(cfg, ops, n).entries
  {
    if ops[m].Write? {
      WriteSpares(cfg, ops, m, key);
    } else {
      LatestKept(cfg, ops, m, key);
      ReadSpares(cfg, ops, m, key, now);
    }
  }

  lemma {:induction false} KeptWhileInTime(cfg: Settings, ops: seq<Op>, n: nat, key: string, now: real)
    requires n <= |ops| && InUse(cfg, ops, n, key, now)
    ensures key in After(cfg, ops, n).entries
    decreases n, 1
  {
    KeptFrom(cfg, ops, n - 1, n, key, now);
  }

  lemma {:induction false} KeptFrom(cfg: Settings, ops: seq<Op>, m: nat, n: nat, key: string, now: real)
    requires n == m + 1 <= |ops| && InUse(cfg, ops, n, key, now)
    ensures key in After(cfg, ops, n).entries
    decreases n, 0
  {
    if ops[m].Write? && ops[m].key == key {
      WriteSpares(cfg, ops, m, key);
    } else if ops[m].key == key && Uses(cfg, ops, m) {
      UsedStays(cfg, ops, m, n);
    } else {
      InUseBefore(cfg, ops, m, n, key, now);
      KeptWhileInTime(cfg, ops, m, key, now);
      KeptNext(cfg, ops, m, n, key, now);
    }
  }

  lemma UsedStays(cfg: Settings, ops: seq<Op>, m: nat, n: nat)
    requires n == m + 1 <= |ops| && ops[m].Read? && Uses(cfg, ops, m)
    ensures ops[m].key in After(cfg, ops, n).entries
  {
    assert After(cfg, ops, n) == Get(cfg, After(cfg, ops, m), ops[m].key, ops[m].at).0;
  }

  lemma LatestKept(cfg: Settings, ops: seq<Op>, n: nat, key: string)
    requires n <= |ops| && key in After(cfg, ops, n).entries
    ensures LastWrite(ops, n, key) > 0
    ensures After(cfg, ops, n).entries[key].cachedAt == ops[LastWrite(ops, n, key) - 1].at
  {
    RecencyOrder(cfg, ops, n);
  }

  lemma FewerOthers(cfg: Settings, ops: seq<Op>, m: nat, key: string)
    requires m < |ops| && (ops[m].key != key || !Uses(cfg, ops, m))
    ensures |OthersSince(cfg, ops, m, key)| <= |OthersSince(cfg, ops, m + 1, key)|
  {
    Subset(OthersSince(cfg, ops, m, key), OthersSince(cfg, ops, m + 1, key));
  }

  lemma {:induction false} Subset(a: set<string>, b: set<string>)
    requires a <= b
    ensures |a| <= |b|
  {
    if a != {} {
      var x :| x in a;
      Subset(a - {x}, b - {x});
    }
  }

  /**
   * A key written within the time to live is a hit unless at least maxEntries other keys
   * were used since its own last use.
   */
  lemma GuaranteedHit(cfg: Settings, ops: seq<Op>, n: nat)
    requires n < |ops| && ops[n].Read? && forall i | 0 <= i < n :: ops[i].at <= ops[n].at
    requires var w := LastWrite(ops, n, ops[n].key); w > 0 && ops[n].at - ops[w - 1].at < cfg.ttl
    requires |OthersSince(cfg, ops, n, ops[n].key)| < cfg.maxEntries
    ensures Get(cfg, After(cfg, ops, n), ops[n].key, ops[n].at).1
            == Some(ops[LastWrite(ops, n, ops[n].key) - 1].value)
  {
    KeptWhileInTime(cfg, ops, n, ops[n].key, ops[n].at);
    RecencyOrder(cfg, ops, n);
    HitIsLatestWrite(cfg, ops, n);
  }

  // ----- The class -----

  class InMemoryResponseCache {
    const cfg: Settings
    var order: seq<string>
    var entries: map<string, Entry>

    ghost function Contents(): Store
      reads this
    {
      Store(order, entries)
    }

    ghost predicate Valid()
      reads this
    {
      Consistent(Contents())
    }

    constructor (cfg: Settings)
      ensures this.cfg == cfg && Valid() && Contents() == EMPTY
    {
      this.cfg := cfg;
      order, entries := [], map[];
    }

    method Fetch(key: string, now: real) returns (cached: Option<CachedResponse>)
      requires Valid()
      modifies this
      ensures Valid() && (Contents(), cached) == Get(cfg, old(Contents()), key, now)
    {
      WithoutConsistent(Contents(), key);
      if key !in entries {
        return None;
      }
      var entry := entries[key];
      if now - entry.cachedAt >= cfg.ttl {
        order, entries := Without(order, key), entries - {key};
        return None;
      }
      AppendConsistent(Without(order, key), entries, key);
      order := Without(order, key) + [key];
      cached := Some(entry.value);
    }

    method Put(key: string, value: CachedResponse, now: real)
      requires Valid()
      modifies this
      ensures Valid() && Contents() == Set(cfg, old(Contents()), key, value, now)
    {
      WithoutConsistent(Contents(), key);
      entries := entries[key := Entry(now, value)];
      assert entries - {key} == old(entries) - {key};
      AppendConsistent(Without(order, key), entries, key);
      order := Without(order, key) + [key];
      while |order| > cfg.maxEntries
        invariant Valid()
        invariant Evicted(Contents(), cfg.maxEntries) == Set(cfg, old(Contents()), key, value, now)
      {
        PopConsistent(Contents());
        order, entries := order[1..], entries - {order[0]};
      }
    }
  }
}
