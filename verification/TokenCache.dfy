/**
 * The bounded TTL cache of service tokens (proxy/token.go:33-89), its refinement of an unbounded
 * TTL map, and what its empty-string sentinel costs. Time is an integer; the iteration order of
 * the map is an arbitrary enumeration of its keys.
 */
module TokenCache {
  import opened Prelude

  const MAX_TOKEN_CACHE_ENTRIES := 4096

  datatype Entry = Entry(token: string, expiresAt: int)

  type Entries = map<string, Entry>

  /** `expiresAt.After(now)`. */
  predicate Live(e: Entry, now: int) {
    e.expiresAt > now
  }

  function Purged(entries: Entries, now: int): Entries {
    map k | k in entries && Live(entries[k], now) :: entries[k]
  }

  /** One iteration over the cache. */
  predicate Enumerates(order: seq<string>, entries: Entries) {
    Lists(order, entries.Keys)
  }

  // ----- set and get, one iteration at a time -----

  /** The loop variables of `set`; the empty key doubles as "none found yet". */
  datatype Scan = Scan(entries: Entries, earliestKey: string, earliestExpiry: int)

  function ScanStep(s: Scan, key: string, now: int): Scan {
    if key !in s.entries then s
    else if !Live(s.entries[key], now) then s.(entries := s.entries - {key})
    else if s.earliestKey == "" || s.entries[key].expiresAt < s.earliestExpiry then
      s.(earliestKey := key, earliestExpiry := s.entries[key].expiresAt)
    else s
  }

  function ScanAll(entries: Entries, order: seq<string>, now: int): Scan {
    if order == [] then Scan(entries, "", 0)
    else ScanStep(ScanAll(entries, order[..|order| - 1], now), order[|order| - 1], now)
  }

  function SetEntries(entries: Entries, key: string, token: string, now: int, ttl: int, cap: nat,
      order: seq<string>): Entries
  {
    var s := ScanAll(entries, order, now);
    var room := if key !in s.entries && |s.entries| >= cap then s.entries - {s.earliestKey} else s.entries;
    room[key := Entry(token, now + ttl)]
  }

  function GetToken(entries: Entries, key: string, now: int): Option<string> {
    if key in entries && Live(entries[key], now) then Some(entries[key].token) else None
  }

  function GetEntries(entries: Entries, key: string, now: int): Entries {
    if key in entries && !Live(entries[key], now) then entries - {key} else entries
  }

  // ----- what the scan computes, whatever the order -----

  lemma {:induction false} ScanKeeps(entries: Entries, order: seq<string>, now: int)
    requires Distinct(order) && forall k :: k in order ==> k in entries
    ensures var s := ScanAll(entries, order, now);
      && (forall k :: k in s.entries <==> k in entries && (k in order ==> Live(entries[k], now)))
      && (forall k :: k in s.entries ==> s.entries[k] == entries[k])
      && ((s.earliestKey == "" && forall k :: k in order ==> !Live(entries[k], now))
          || (s.earliestKey in order && Live(entries[s.earliestKey], now) &&
                s.earliestExpiry == entries[s.earliestKey].expiresAt))
    decreases |order|
  {
    if order == [] {
    } else {
      var before, key := order[..|order| - 1], order[|order| - 1];
      assert order == before + [key];
      ScanKeeps(entries, before, now);
    }
  }

  /** The scan leaves exactly the live entries, and its pick is one of them. */
  lemma ScanPurges(entries: Entries, order: seq<string>, now: int)
    requires Enumerates(order, entries)
    ensures var s := ScanAll(entries, order, now);
      s.entries == Purged(entries, now) && (s.entries != map[] ==> s.earliestKey in s.entries)
  {
    ScanKeeps(entries, order, now);
    var s := ScanAll(entries, order, now);
    assert forall k :: k in s.entries <==> k in Purged(entries, now);
    if s.entries != map[] {
      var k :| k in s.entries;
    }
  }

  /** A live, non-empty key that does not expire after the empty key bounds the pick once it is seen. */
  lemma {:induction false} PickBelow(entries: Entries, order: seq<string>, now: int, bound: string)
    requires Distinct(order) && forall k :: k in order ==> k in entries
    requires bound != "" && bound in order && Live(entries[bound], now)
    requires "" in entries && Live(entries[""], now) ==> entries[bound].expiresAt <= entries[""].expiresAt
    ensures var s := ScanAll(entries, order, now);
      s.earliestKey != "" && s.earliestExpiry <= entries[bound].expiresAt
    decreases |order|
  {
    var before, key := order[..|order| - 1], order[|order| - 1];
    assert order == before + [key];
    ScanKeeps(entries, before, now);
    if bound in before {
      PickBelow(entries, before, now, bound);
    }
  }

  /** The pick has the least expiry of all. */
  ghost predicate Earliest(live: Entries, pick: string) {
    pick in live && forall k :: k in live ==> live[pick].expiresAt <= live[k].expiresAt
  }

  /** The empty key is absent, alone, or not strictly ahead of every other key. */
  ghost predicate EmptyKeyHarmless(live: Entries) {
    || "" !in live
    || live.Keys == {""}
    || exists k :: k in live && k != "" && live[k].expiresAt <= live[""].expiresAt
  }

  lemma HarmlessPickIsEarliest(entries: Entries, order: seq<string>, now: int)
    requires Enumerates(order, entries) && Purged(entries, now) != map[]
    requires EmptyKeyHarmless(Purged(entries, now))
    ensures Earliest(Purged(entries, now), ScanAll(entries, order, now).earliestKey)
  {
    ScanPurges(entries, order, now);
    ScanKeeps(entries, order, now);
    var live, pick := Purged(entries, now), ScanAll(entries, order, now).earliestKey;
    forall k | k in live ensures live[pick].expiresAt <= live[k].expiresAt {
      if "" !in live || (k != "" && live[k].expiresAt <= live[""].expiresAt) {
        PickBelow(entries, order, now, k);
      } else if live.Keys == {""} {
        assert pick in live.Keys && k in live.Keys;
      } else {
        var other :| other in live && other != "" && live[other].expiresAt <= live[""].expiresAt;
        PickBelow(entries, order, now, other);
      }
    }
  }

  lemma {:induction false} EmptyKeyFirstIsOverwritten(entries: Entries, order: seq<string>, now: int, other: string)
    requires Distinct(order) && (forall k :: k in order ==> k in entries)
    requires order != [] && order[0] == "" && other != "" && other in order && Live(entries[other], now)
    ensures ScanAll(entries, order, now).earliestKey != ""
    decreases |order|
  {
    var before, key := order[..|order| - 1], order[|order| - 1];
    assert order == before + [key];
    ScanKeeps(entries, before, now);
    if other in before {
      EmptyKeyFirstIsOverwritten(entries, before, now, other);
    }
  }

  /** The scan finds the earliest entry under every iteration order exactly when the empty key is harmless. */
  lemma ScanExactly(entries: Entries, now: int)
    requires Purged(entries, now) != map[]
    ensures EmptyKeyHarmless(Purged(entries, now))
      <==> forall order :: Enumerates(order, entries) ==>
             Earliest(Purged(entries, now), ScanAll(entries, order, now).earliestKey)
  {
    var live := Purged(entries, now);
    if EmptyKeyHarmless(live) {
      forall order | Enumerates(order, entries)
        ensures Earliest(live, ScanAll(entries, order, now).earliestKey)
      {
        HarmlessPickIsEarliest(entries, order, now);
      }
    } else {
      var other :| other in live && other != "";
      var rest := ListKeys(entries.Keys - {""});
      var order := [""] + rest;
      assert Enumerates(order, entries);
      EmptyKeyFirstIsOverwritten(entries, order, now, other);
      ScanPurges(entries, order, now);
      assert !Earliest(live, ScanAll(entries, order, now).earliestKey);
    }
  }

  // ----- whole runs against an unbounded TTL map -----

  datatype Action =
    | Set(key: string, token: string, now: int, order: seq<string>)
    | Get(key: string, now: int)

  /** The cache beside the reference: `shadow` remembers every key ever set and forgets nothing. */
  datatype World = World(clock: int, entries: Entries, shadow: Entries)

  /** An action that would turn the clock back, or iterate over something else than the map, does nothing. */
  function Apply(w: World, a: Action, ttl: int, cap: nat): World {
    if a.now < w.clock then w
    else match a
      case Set(key, token, now, order) =>
        if !Enumerates(order, w.entries) then w
        else World(now, SetEntries(w.entries, key, token, now, ttl, cap, order),
          w.shadow[key := Entry(token, now + ttl)])
      case Get(key, now) =>
        World(now, GetEntries(w.entries, key, now), w.shadow)
  }

  function Run(w: World, actions: seq<Action>, ttl: int, cap: nat): World {
    if actions == [] then w
    else Apply(Run(w, actions[..|actions| - 1], ttl, cap), actions[|actions| - 1], ttl, cap)
  }

  function Empty(clock: int): World {
    World(clock, map[], map[])
  }

  ghost predicate NonEmptyKeys(actions: seq<Action>) {
    forall i :: 0 <= i < |actions| && actions[i].Set? ==> actions[i].key != ""
  }

  ghost predicate Sound(w: World, ttl: int, cap: nat) {
    && |w.entries| <= cap
    && (forall k :: k in w.entries ==> k in w.shadow && w.entries[k] == w.shadow[k])
    && (forall k :: k in w.shadow ==> w.shadow[k].expiresAt <= w.clock + ttl)
  }

  /** `key` was crowded out: the cache is full of entries that expire no earlier. */
  ghost predicate CrowdedOut(entries: Entries, e: Entry, cap: nat) {
    |entries| == cap && forall k :: k in entries ==> entries[k].expiresAt >= e.expiresAt
  }

  ghost predicate Complete(w: World, cap: nat) {
    && "" !in w.entries
    && forall k :: k in w.shadow && Live(w.shadow[k], w.clock) && k !in w.entries ==>
       CrowdedOut(w.entries, w.shadow[k], cap)
  }

  lemma RemoveOne(m: Entries, k: string)
    requires k in m
    ensures |m - {k}| == |m| - 1
  {
    assert (m - {k}).Keys == m.Keys - {k};
  }

  lemma InsertOne(m: Entries, k: string, e: Entry)
    ensures |m[k := e]| == if k in m then |m| else |m| + 1
  {
    assert m[k := e].Keys == m.Keys + {k};
  }

  lemma PurgedSize(entries: Entries, now: int)
    ensures |Purged(entries, now)| <= |entries|
    ensures (forall k :: k in entries ==> Live(entries[k], now)) ==> Purged(entries, now) == entries
  {
    SubsetSize(Purged(entries, now).Keys, entries.Keys);
  }

  /** `set` stays within the bound, keeps only what was there and enters what it was given. */
  lemma SetBounded(entries: Entries, key: string, token: string, now: int, ttl: int, cap: nat, order: seq<string>)
    requires cap > 0 && |entries| <= cap && Enumerates(order, entries)
    ensures var entries' := SetEntries(entries, key, token, now, ttl, cap, order);
      && |entries'| <= cap && key in entries' && entries'[key] == Entry(token, now + ttl)
      && forall k :: k in entries' && k != key ==> k in entries && entries'[k] == entries[k]
  {
    ScanPurges(entries, order, now);
    PurgedSize(entries, now);
    var s := ScanAll(entries, order, now);
    if key !in s.entries && |s.entries| >= cap {
      RemoveOne(s.entries, s.earliestKey);
      InsertOne(s.entries - {s.earliestKey}, key, Entry(token, now + ttl));
    } else {
      InsertOne(s.entries, key, Entry(token, now + ttl));
    }
  }

  lemma SetKeepsSound(w: World, key: string, token: string, now: int, order: seq<string>, ttl: int, cap: nat)
    requires cap > 0 && Sound(w, ttl, cap) && now >= w.clock && Enumerates(order, w.entries)
    ensures Sound(Apply(w, Set(key, token, now, order), ttl, cap), ttl, cap)
  {
    SetBounded(w.entries, key, token, now, ttl, cap, order);
  }

  /** What a key that was crowded out, or is now, may rely on after `set`: the cache is full of later entries. */
  lemma StillCrowdedOut(live: Entries, pick: string, key: string, added: Entry, lost: Entry, cap: nat)
    requires cap > 0 && |live| <= cap && lost.expiresAt <= added.expiresAt
    requires key !in live && |live| >= cap ==>
      Earliest(live, pick) && (CrowdedOut(live, lost, cap) || lost == live[pick])
    requires !(key !in live && |live| >= cap) ==> CrowdedOut(live, lost, cap)
    ensures CrowdedOut((if key !in live && |live| >= cap then live - {pick} else live)[key := added], lost, cap)
  {
    if key !in live && |live| >= cap {
      RemoveOne(live, pick);
      InsertOne(live - {pick}, key, added);
    } else {
      InsertOne(live, key, added);
    }
  }

  lemma SetKeepsComplete(w: World, key: string, token: string, now: int, order: seq<string>, ttl: int, cap: nat)
    requires cap > 0 && Sound(w, ttl, cap) && Complete(w, cap) && key != ""
    requires now >= w.clock && Enumerates(order, w.entries)
    ensures Complete(Apply(w, Set(key, token, now, order), ttl, cap), cap)
  {
    var w' := Apply(w, Set(key, token, now, order), ttl, cap);
    var live, pick := Purged(w.entries, now), ScanAll(w.entries, order, now).earliestKey;
    ScanPurges(w.entries, order, now);
    PurgedSize(w.entries, now);
    forall k | k in w'.shadow && Live(w'.shadow[k], w'.clock) && k !in w'.entries
      ensures CrowdedOut(w'.entries, w'.shadow[k], cap)
    {
      if k !in w.entries {
        // Crowded out before: every entry outlives k, so nothing was purged and the cache is full.
        assert CrowdedOut(w.entries, w.shadow[k], cap);
        assert live == w.entries;
      }
      if key !in live && |live| >= cap {
        HarmlessPickIsEarliest(w.entries, order, now);
      }
      StillCrowdedOut(live, pick, key, Entry(token, now + ttl), w.shadow[k], cap);
    }
  }

  lemma GetKeeps(w: World, key: string, now: int, ttl: int, cap: nat)
    requires Sound(w, ttl, cap) && now >= w.clock
    ensures Sound(Apply(w, Get(key, now), ttl, cap), ttl, cap)
    ensures Complete(w, cap) ==> Complete(Apply(w, Get(key, now), ttl, cap), cap)
  {
    if key in w.entries {
      RemoveOne(w.entries, key);
    }
  }

  lemma {:induction false} RunKeeps(clock: int, actions: seq<Action>, ttl: int, cap: nat)
    requires cap > 0
    ensures Sound(Run(Empty(clock), actions, ttl, cap), ttl, cap)
    ensures NonEmptyKeys(actions) ==> Complete(Run(Empty(clock), actions, ttl, cap), cap)
    decreases |actions|
  {
    if actions == [] {
    } else {
      var before, a := actions[..|actions| - 1], actions[|actions| - 1];
      RunKeeps(clock, before, ttl, cap);
      var w := Run(Empty(clock), before, ttl, cap);
      if a.now >= w.clock {
        match a
        case Get(key, now) =>
          GetKeeps(w, key, now, ttl, cap);
        case Set(key, token, now, order) =>
          if Enumerates(order, w.entries) {
            SetKeepsSound(w, key, token, now, order, ttl, cap);
            if NonEmptyKeys(actions) {
              assert a.key != "" && NonEmptyKeys(before);
              SetKeepsComplete(w, key, token, now, order, ttl, cap);
            }
          }
      }
    }
  }

  // ----- what a hit returns -----

  /** The Set of this key that took effect last: neither out of time nor with a false iteration. */
  function LastSet(clock: int, actions: seq<Action>, ttl: int, cap: nat, key: string): Option<Action> {
    if actions == [] then None
    else
      var before, a := actions[..|actions| - 1], actions[|actions| - 1];
      var w := Run(Empty(clock), before, ttl, cap);
      if a.Set? && a.key == key && a.now >= w.clock && Lists(a.order, w.entries.Keys) then Some(a)
      else LastSet(clock, before, ttl, cap, key)
  }

  /** The reference map holds what was set last, with the time it was set plus the lifetime. */
  lemma {:induction false} ShadowIsLastSet(clock: int, actions: seq<Action>, ttl: int, cap: nat, key: string)
    ensures var w, last := Run(Empty(clock), actions, ttl, cap), LastSet(clock, actions, ttl, cap, key);
      && (key in w.shadow <==> last.Some?)
      && (last.Some? ==> last.value.Set? && w.shadow[key] == Entry(last.value.token, last.value.now + ttl))
    decreases |actions|
  {
    if actions == [] {
    } else {
      ShadowIsLastSet(clock, actions[..|actions| - 1], ttl, cap, key);
    }
  }

  /**
   * After any run with a monotone clock and any iteration orders: the bound holds; a hit returns the
   * token of the last Set of that key, and that has not expired; and, keys being non-empty digests, a
   * miss on a key whose last Set has not expired means that the cache holds `cap` other entries, all
   * unexpired and none expiring before the missing one.
   */
  lemma CacheRefinesTtlMap(clock: int, actions: seq<Action>, ttl: int, cap: nat, key: string, now: int)
    requires cap > 0
    requires now >= Run(Empty(clock), actions, ttl, cap).clock
    ensures var w, last := Run(Empty(clock), actions, ttl, cap), LastSet(clock, actions, ttl, cap, key);
      && |w.entries| <= cap
      && (last.Some? ==> last.value.Set?)
      && (forall t :: GetToken(w.entries, key, now) == Some(t) ==>
            last.Some? && last.value.token == t && last.value.now + ttl > now)
      && (NonEmptyKeys(actions) && last.Some? && last.value.now + ttl > now && GetToken(w.entries, key, now).None? ==>
            && key !in w.entries
            && |w.entries| == cap
            && forall k :: k in w.entries ==>
                 w.entries[k].expiresAt > now && w.entries[k].expiresAt >= last.value.now + ttl)
  {
    RunKeeps(clock, actions, ttl, cap);
    ShadowIsLastSet(clock, actions, ttl, cap, key);
  }

  // ----- an empty key and a full cache, for every capacity -----

  /** The empty key expires first, n others after it, their names no longer than n. */
  ghost predicate Filled(w: World, n: nat) {
    && w.clock <= 1 && |w.entries| == n + 1 && "" in w.entries && w.entries[""] == Entry("t", 10)
    && (forall k :: k in w.entries ==> |k| <= n && k in w.shadow && w.shadow[k] == w.entries[k])
    && (forall k :: k in w.entries && k != "" ==> w.entries[k] == Entry("t", 11))
  }

  lemma FillFirst(cap: nat)
    requires cap >= 1
    ensures Filled(Run(Empty(0), [Set("", "t", 0, [])], 10, cap), 0)
  {
    var a := Set("", "t", 0, []);
    assert [a][..0] == [] && Run(Empty(0), [], 10, cap) == Empty(0);
    var w := Apply(Empty(0), a, 10, cap);
    assert w.entries == map["" := Entry("t", 10)] && w.entries.Keys == {""};
  }

  /** While there is room, setting a longer name adds it and evicts nothing. */
  lemma FillOne(w: World, n: nat, cap: nat, order: seq<string>)
    requires Filled(w, n) && n + 1 < cap && Enumerates(order, w.entries)
    ensures Filled(Apply(w, Set(seq(n + 1, _ => 'a'), "t", 1, order), 10, cap), n + 1)
  {
    var key := seq(n + 1, _ => 'a');
    ScanPurges(w.entries, order, 1);
    PurgedSize(w.entries, 1);
    InsertOne(w.entries, key, Entry("t", 11));
    assert SetEntries(w.entries, key, "t", 1, 10, cap, order) == w.entries[key := Entry("t", 11)];
  }

  lemma {:induction false} Fill(n: nat, cap: nat) returns (actions: seq<Action>)
    requires n + 1 <= cap
    ensures Filled(Run(Empty(0), actions, 10, cap), n)
    decreases n
  {
    if n == 0 {
      actions := [Set("", "t", 0, [])];
      FillFirst(cap);
    } else {
      var before := Fill(n - 1, cap);
      var w := Run(Empty(0), before, 10, cap);
      var order := ListKeys(w.entries.Keys);
      FillOne(w, n - 1, cap, order);
      actions := before + [Set(seq(n, _ => 'a'), "t", 1, order)];
      assert actions[..|before|] == before;
    }
  }

  /** The empty key, scanned first, is taken for none: the scan picks another. */
  lemma WrongPick(w: World, n: nat, rest: seq<string>)
    requires n >= 1 && Filled(w, n) && Lists(rest, w.entries.Keys - {""})
    ensures var s := ScanAll(w.entries, [""] + rest, 2);
      Enumerates([""] + rest, w.entries) && s.entries == w.entries && s.earliestKey in w.entries && s.earliestKey != ""
  {
    var order := [""] + rest;
    assert Enumerates(order, w.entries);
    ScanPurges(w.entries, order, 2);
    PurgedSize(w.entries, 2);
    RemoveOne(w.entries, "");
    assert w.entries - {""} != map[];
    var other :| other in w.entries - {""};
    EmptyKeyFirstIsOverwritten(w.entries, order, 2, other);
  }

  /** The full cache is then made to take one more. */
  lemma WrongOneEvicted(w: World, cap: nat, key: string, rest: seq<string>) returns (lost: string)
    requires cap >= 2 && Filled(w, cap - 1) && |key| == cap && Lists(rest, w.entries.Keys - {""})
    ensures var w' := Apply(w, Set(key, "t", 2, [""] + rest), 10, cap);
      && GetToken(w'.shadow, lost, 2).Some? && GetToken(w'.entries, lost, 2).None?
      && "" in w'.entries && w'.entries[""].expiresAt < w'.shadow[lost].expiresAt
  {
    WrongPick(w, cap - 1, rest);
    lost := ScanAll(w.entries, [""] + rest, 2).earliestKey;
    assert SetEntries(w.entries, key, "t", 2, 10, cap, [""] + rest) == (w.entries - {lost})[key := Entry("t", 12)];
  }

  /**
   * With an empty key the crowding-out clause fails, at every capacity from 2 on: a key is lost
   * although an entry that is kept expires earlier.
   */
  lemma EmptyKeyBreaksEviction(cap: nat) returns (actions: seq<Action>, lost: string)
    requires cap >= 2
    ensures var w := Run(Empty(0), actions, 10, cap);
      && GetToken(w.shadow, lost, 2).Some? && GetToken(w.entries, lost, 2).None?
      && "" in w.entries && w.entries[""].expiresAt < w.shadow[lost].expiresAt
  {
    var before := Fill(cap - 1, cap);
    var w := Run(Empty(0), before, 10, cap);
    var rest := ListKeys(w.entries.Keys - {""});
    var key := seq(cap, _ => 'a');
    lost := WrongOneEvicted(w, cap, key, rest);
    actions := before + [Set(key, "t", 2, [""] + rest)];
    assert actions[..|before|] == before;
  }

  // ----- the object -----

  class Cache {
    const ttl: int
    var entries: Entries

    constructor (ttl: int)
      ensures this.ttl == ttl && entries == map[]
    {
      this.ttl := ttl;
      entries := map[];
    }

    /** Purges, evicts if needed and inserts; `order` is the iteration the loop happened to make. */
    method Set(key: string, token: string, now: int) returns (ghost order: seq<string>)
      modifies this
      ensures Enumerates(order, old(entries))
      ensures entries == SetEntries(old(entries), key, token, now, ttl, MAX_TOKEN_CACHE_ENTRIES, order)
      ensures key in entries && entries[key] == Entry(token, now + ttl)
      ensures |old(entries)| <= 4096 ==> |entries| <= 4096
    {
      var earliestKey, earliestExpiry := "", 0;
      var pending := entries.Keys;
      order := [];
      while pending != {}
        invariant Distinct(order) && pending <= old(entries).Keys
        invariant forall k :: k in order <==> k in old(entries) && k !in pending
        invariant Scan(entries, earliestKey, earliestExpiry) == ScanAll(old(entries), order, now)
        invariant forall k :: k in pending ==> k in entries
        decreases pending
      {
        var existing :| existing in pending;
        pending := pending - {existing};
        ghost var before := order;
        order := order + [existing];
        assert order[..|order| - 1] == before;
        if !Live(entries[existing], now) {
          entries := entries - {existing};
        } else if earliestKey == "" || entries[existing].expiresAt < earliestExpiry {
          earliestKey, earliestExpiry := existing, entries[existing].expiresAt;
        }
      }
      if key !in entries && |entries| >= MAX_TOKEN_CACHE_ENTRIES {
        entries := entries - {earliestKey};
      }
      entries := entries[key := Entry(token, now + ttl)];
      if |old(entries)| <= MAX_TOKEN_CACHE_ENTRIES {
        SetBounded(old(entries), key, token, now, ttl, MAX_TOKEN_CACHE_ENTRIES, order);
      }
    }

    method Get(key: string, now: int) returns (token: string, ok: bool)
      modifies this
      ensures entries == GetEntries(old(entries), key, now)
      ensures GetToken(old(entries), key, now) == if ok then Some(token) else None
      ensures ok <==> key in old(entries) && old(entries)[key].expiresAt > now
      ensures token == if ok then old(entries)[key].token else ""
      ensures entries == if key in old(entries) && !ok then old(entries) - {key} else old(entries)
    {
      if key !in entries {
        return "", false;
      }
      var entry := entries[key];
      if !Live(entry, now) {
        entries := entries - {key};
        return "", false;
      }
      return entry.token, true;
    }
  }
}
