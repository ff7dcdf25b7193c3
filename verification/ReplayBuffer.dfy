/** The byte-bounded replay buffer of a console session (proxy/persistent_session_handler.go:581-592). */
module ReplayBuffer {
  datatype Entry = Entry(sequence: nat, data: string)

  function FrameBytes(e: Entry): nat {
    |e.data| + 32
  }

  function Bytes(s: seq<Entry>): nat {
    if s == [] then 0 else FrameBytes(s[0]) + Bytes(s[1..])
  }

  /** The eviction loop: drop from the front while over the limit. */
  function Evict(replay: seq<Entry>, bytes: int, max: nat): (seq<Entry>, int)
    decreases |replay|
  {
    if bytes > max && replay != [] then Evict(replay[1..], bytes - FrameBytes(replay[0]), max) else (replay, bytes)
  }

  /** An entry small enough is stored, and what no longer fits is evicted. */
  function Stored(replay: seq<Entry>, bytes: int, entry: Entry, max: nat): (seq<Entry>, int) {
    if FrameBytes(entry) <= max then Evict(replay + [entry], bytes + FrameBytes(entry), max) else (replay, bytes)
  }

  /** Output too large to be kept is shown but not stored. */
  function Storable(all: seq<Entry>, max: nat): seq<Entry> {
    if all == [] then []
    else Storable(all[..|all| - 1], max) + if FrameBytes(all[|all| - 1]) <= max then [all[|all| - 1]] else []
  }

  function BytesFrom(s: seq<Entry>, j: nat): nat
    requires j <= |s|
  {
    Bytes(s[j..])
  }

  /** `stored[k..]` fits and nothing longer does. */
  ghost predicate LongestFitAt(stored: seq<Entry>, max: nat, k: nat) {
    && k <= |stored|
    && BytesFrom(stored, k) <= max
    && forall j :: 0 <= j < k ==> BytesFrom(stored, j) > max
  }

  /** The longest suffix of the stored output that fits the limit. */
  ghost predicate IsLongestFit(replay: seq<Entry>, all: seq<Entry>, max: nat) {
    exists k: nat :: CutAt(replay, Storable(all, max), max, k)
  }

  ghost predicate CutAt(replay: seq<Entry>, stored: seq<Entry>, max: nat, k: nat) {
    LongestFitAt(stored, max, k) && replay == stored[k..]
  }

  lemma {:induction false} BytesAppend(a: seq<Entry>, e: Entry)
    ensures Bytes(a + [e]) == Bytes(a) + FrameBytes(e)
    decreases |a|
  {
    if a == [] {
      assert a + [e] == [e];
    } else {
      assert (a + [e])[1..] == a[1..] + [e];
      BytesAppend(a[1..], e);
    }
  }

  /** From a suffix whose longer neighbours are all too large, eviction stops at the longest fit. */
  lemma {:induction false} EvictFindsLongestFit(stored: seq<Entry>, max: nat, k: nat) returns (k': nat)
    requires k <= |stored| && forall j :: 0 <= j < k ==> BytesFrom(stored, j) > max
    ensures k <= k' <= |stored| && LongestFitAt(stored, max, k')
    ensures Evict(stored[k..], Bytes(stored[k..]), max) == (stored[k'..], Bytes(stored[k'..]))
    decreases |stored| - k
  {
    if BytesFrom(stored, k) > max {
      assert stored[k..][1..] == stored[k + 1..];
      k' := EvictFindsLongestFit(stored, max, k + 1);
    } else {
      k' := k;
    }
  }

  lemma SuffixesGrow(stored: seq<Entry>, e: Entry, j: nat)
    requires j <= |stored|
    ensures (stored + [e])[j..] == stored[j..] + [e]
    ensures BytesFrom(stored + [e], j) == BytesFrom(stored, j) + FrameBytes(e)
  {
    BytesAppend(stored[j..], e);
    assert (stored + [e])[j..] == stored[j..] + [e];
  }

  lemma AppendStored(stored: seq<Entry>, k: nat, e: Entry, max: nat) returns (k': nat)
    requires LongestFitAt(stored, max, k) && FrameBytes(e) <= max
    ensures k <= k' <= |stored| && LongestFitAt(stored + [e], max, k')
    ensures Evict(stored[k..] + [e], Bytes(stored[k..]) + FrameBytes(e), max)
      == ((stored + [e])[k'..], Bytes((stored + [e])[k'..]))
  {
    var stored' := stored + [e];
    forall j | 0 <= j < k ensures BytesFrom(stored', j) > max {
      SuffixesGrow(stored, e, j);
    }
    SuffixesGrow(stored, e, k);
    SuffixesGrow(stored, e, |stored|);
    assert stored[|stored|..] == [];
    k' := EvictFindsLongestFit(stored', max, k);
  }

  lemma StorableAppend(all: seq<Entry>, e: Entry, max: nat)
    ensures Storable(all + [e], max) == if FrameBytes(e) <= max then Storable(all, max) + [e] else Storable(all, max)
  {
    assert (all + [e])[..|all|] == all;
    assert Storable(all, max) + [] == Storable(all, max);
  }

  lemma LastOfSuffix(stored: seq<Entry>, e: Entry, k: nat)
    requires k <= |stored|
    ensures var r := (stored + [e])[k..]; r != [] && r[|r| - 1] == e
  {
  }

  /** The part of what follows for an entry that is stored. */
  lemma StoringKeepsLongestFit(replay: seq<Entry>, all: seq<Entry>, e: Entry, max: nat)
    requires IsLongestFit(replay, all, max) && FrameBytes(e) <= max
    ensures var after := Evict(replay + [e], Bytes(replay) + FrameBytes(e), max);
      && IsLongestFit(after.0, all + [e], max) && after.1 == Bytes(after.0) <= max
      && after.0 != [] && after.0[|after.0| - 1] == e
  {
    StorableAppend(all, e, max);
    var stored := Storable(all, max);
    var k: nat :| CutAt(replay, stored, max, k);
    var k' := AppendStored(stored, k, e, max);
    LastOfSuffix(stored, e, k');
    assert CutAt((stored + [e])[k'..], stored + [e], max, k');
  }

  /**
   * Appending keeps the buffer the longest fitting suffix of everything storable, keeps its byte
   * count exact, and never drops the newest storable frame.
   */
  lemma AppendKeepsLongestFit(replay: seq<Entry>, all: seq<Entry>, e: Entry, max: nat)
    requires IsLongestFit(replay, all, max)
    ensures var after := Stored(replay, Bytes(replay), e, max);
      && IsLongestFit(after.0, all + [e], max) && after.1 == Bytes(after.0) <= max
      && (FrameBytes(e) <= max ==> after.0 != [] && after.0[|after.0| - 1] == e)
  {
    if FrameBytes(e) <= max {
      StoringKeepsLongestFit(replay, all, e, max);
    } else {
      StorableAppend(all, e, max);
      var k: nat :| CutAt(replay, Storable(all, max), max, k);
      assert CutAt(replay, Storable(all + [e], max), max, k);
    }
  }

  lemma {:induction false} StorableFits(all: seq<Entry>, max: nat)
    ensures forall i :: 0 <= i < |Storable(all, max)| ==> FrameBytes(Storable(all, max)[i]) <= max
    ensures forall i :: 0 <= i < |Storable(all, max)| ==> Storable(all, max)[i] in all
    decreases |all|
  {
    if all == [] {
    } else {
      StorableFits(all[..|all| - 1], max);
    }
  }

  /** The newest storable frame is always in the buffer. */
  lemma NewestIsKept(replay: seq<Entry>, all: seq<Entry>, max: nat)
    requires IsLongestFit(replay, all, max) && Storable(all, max) != []
    ensures replay != [] && replay[|replay| - 1] == Storable(all, max)[|Storable(all, max)| - 1]
  {
    var stored := Storable(all, max);
    var k: nat :| CutAt(replay, stored, max, k);
    StorableFits(all, max);
    var last := |stored| - 1;
    var one := [stored[last]];
    assert stored[last..] == one && one[1..] == [];
    assert Bytes(one) == FrameBytes(one[0]) + Bytes(one[1..]);
    assert BytesFrom(stored, last) == FrameBytes(stored[last]);
  }

  ghost predicate Increasing(s: seq<Entry>) {
    forall i, j :: 0 <= i < j < |s| ==> s[i].sequence < s[j].sequence
  }

  lemma {:induction false} StorableIncreasing(all: seq<Entry>, max: nat)
    requires Increasing(all)
    ensures Increasing(Storable(all, max))
    decreases |all|
  {
    if all == [] {
    } else {
      StorableIncreasing(all[..|all| - 1], max);
      StorableFits(all[..|all| - 1], max);
    }
  }

  /** Kept in order, so a replay's sequence numbers strictly increase. */
  lemma ReplayIncreasing(replay: seq<Entry>, all: seq<Entry>, max: nat)
    requires IsLongestFit(replay, all, max) && Increasing(all)
    ensures Increasing(replay)
  {
    StorableIncreasing(all, max);
    var k: nat :| CutAt(replay, Storable(all, max), max, k);
  }
}
