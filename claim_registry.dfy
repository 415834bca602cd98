/**
 * The chunk claim registry of `ChunkLoaderFeature` as values: the map from
 * player to the set of keys the player has claimed, the global set of loaded
 * chunks, and the claim, unclaim and load transitions on them. The class in
 * module ChunkLoader updates its fields in place and is proved to follow these
 * transitions exactly.
 */
module ClaimRegistry {
  import opened Optional
  import opened ChunkKeys

  /** A player's `java.util.UUID`: its two 64-bit halves. */
  datatype PlayerId = PlayerId(mostSigBits: int, leastSigBits: int)

  /** `ChunkLoaderFeature.ClaimResult`, without its display text. */
  datatype ClaimResult = Success | AlreadyClaimed | ClaimedByOther | AtLimit | FeatureDisabled

  /** The fields `playerChunks` and `loadedChunks`. */
  datatype Registry = Registry(playerChunks: map<PlayerId, set<ChunkKey>>, loadedChunks: set<ChunkKey>)

  const Empty := Registry(map[], {})

  /** `getPlayerChunks`: the player's set, or the empty set when the player has no entry. */
  function Owned(s: Registry, p: PlayerId): set<ChunkKey> {
    if p in s.playerChunks then s.playerChunks[p] else {}
  }

  /** Some player other than `p` has `k` in its set. */
  predicate OwnedByOther(s: Registry, p: PlayerId, k: ChunkKey) {
    exists q :: q in s.playerChunks && q != p && k in s.playerChunks[q]
  }

  /** The union of all per-player sets. */
  function AllClaimed(pc: map<PlayerId, set<ChunkKey>>): set<ChunkKey> {
    set q, k | q in pc && k in pc[q] :: k
  }

  /** No chunk is in the sets of two different players. */
  ghost predicate Disjoint(pc: map<PlayerId, set<ChunkKey>>) {
    forall p, q :: p in pc && q in pc && p != q ==> pc[p] !! pc[q]
  }

  /** The registry invariant: owned sets are disjoint and `loadedChunks` is their union. */
  ghost predicate Valid(s: Registry) {
    Disjoint(s.playerChunks) && s.loadedChunks == AllClaimed(s.playerChunks)
  }

  /** No player holds more than `max` chunks. */
  ghost predicate WithinLimit(s: Registry, max: int) {
    forall p :: p in s.playerChunks ==> |s.playerChunks[p]| <= max
  }

  /** Same owned sets for every player and the same global set: entries may differ only by empty sets. */
  ghost predicate SameClaims(s: Registry, t: Registry) {
    s.loadedChunks == t.loadedChunks && forall p :: Owned(s, p) == Owned(t, p)
  }

  datatype Claimed = Claimed(result: ClaimResult, after: Registry)

  /**
   * `claimChunk(player, chunk)`: the checks run in the order disabled,
   * already own, owned by another, at limit; only the last case changes the
   * claims. `computeIfAbsent` has already given the player an (empty) entry
   * by the time the already-own check runs, so every enabled call leaves one.
   */
  function Claim(s: Registry, p: PlayerId, k: ChunkKey, enabled: bool, max: int): (c: Claimed)
    ensures c.result == FeatureDisabled <==> !enabled
    ensures c.result == AlreadyClaimed <==> enabled && k in Owned(s, p)
    ensures c.result == ClaimedByOther <==> enabled && k !in Owned(s, p) && OwnedByOther(s, p, k)
    ensures c.result == AtLimit <==>
      enabled && k !in Owned(s, p) && !OwnedByOther(s, p, k) && |Owned(s, p)| >= max
    ensures c.result == FeatureDisabled ==> c.after == s
    ensures c.result != Success ==> SameClaims(s, c.after)
    ensures c.result == Success ==>
      && Owned(c.after, p) == Owned(s, p) + {k}
      && |Owned(c.after, p)| == |Owned(s, p)| + 1 <= max
      && c.after.loadedChunks == s.loadedChunks + {k}
      && (forall q :: q != p ==> Owned(c.after, q) == Owned(s, q))
    ensures enabled ==> c.after.playerChunks.Keys == s.playerChunks.Keys + {p}
  {
    if !enabled then Claimed(FeatureDisabled, s)
    else
      var s1 := if p in s.playerChunks then s else s.(playerChunks := s.playerChunks[p := {}]);
      var owned := s1.playerChunks[p];
      assert OwnedByOther(s1, p, k) == OwnedByOther(s, p, k) by {
        if OwnedByOther(s1, p, k) {
          var q :| q in s1.playerChunks && q != p && k in s1.playerChunks[q];
          assert q in s.playerChunks && k in s.playerChunks[q];
        }
        if OwnedByOther(s, p, k) {
          var q :| q in s.playerChunks && q != p && k in s.playerChunks[q];
          assert q in s1.playerChunks && k in s1.playerChunks[q];
        }
      }
      if k in owned then Claimed(AlreadyClaimed, s1)
      else if OwnedByOther(s1, p, k) then Claimed(ClaimedByOther, s1)
      else if |owned| >= max then Claimed(AtLimit, s1)
      else Claimed(Success, Registry(s1.playerChunks[p := owned + {k}], s1.loadedChunks + {k}))
  }

  datatype Unclaimed = Unclaimed(removed: bool, after: Registry)

  /**
   * `unclaimChunk(player, chunk)`: only the owner can release a key; the
   * player's entry goes away with its last key.
   */
  function Unclaim(s: Registry, p: PlayerId, k: ChunkKey): (u: Unclaimed)
    ensures u.removed <==> k in Owned(s, p)
    ensures !u.removed ==> u.after == s
    ensures u.removed ==>
      && Owned(u.after, p) == Owned(s, p) - {k}
      && u.after.loadedChunks == s.loadedChunks - {k}
      && (forall q :: q != p ==> Owned(u.after, q) == Owned(s, q))
      && (p in u.after.playerChunks <==> Owned(s, p) != {k})
  {
    if p !in s.playerChunks || k !in s.playerChunks[p] then Unclaimed(false, s)
    else
      var owned := s.playerChunks[p] - {k};
      var pc := if owned == {} then s.playerChunks - {p} else s.playerChunks[p := owned];
      Unclaimed(true, Registry(pc, s.loadedChunks - {k}))
  }

  /** Under the invariant, a key belongs to at most one player. */
  lemma ExclusiveOwnership(s: Registry, p: PlayerId, q: PlayerId, k: ChunkKey)
    requires Valid(s)
    requires k in Owned(s, p) && k in Owned(s, q)
    ensures p == q
  {
  }

  /** Under the invariant, `isClaimed` (membership in `loadedChunks`) means some player owns the key. */
  lemma LoadedMeansOwned(s: Registry, k: ChunkKey)
    requires Valid(s)
    ensures k in s.loadedChunks <==> exists q :: k in Owned(s, q)
  {
    if k in s.loadedChunks {
      var q :| q in s.playerChunks && k in s.playerChunks[q];
      assert k in Owned(s, q);
    }
  }

  /** Membership in the union of the owned sets, read through `Owned`. */
  lemma AllClaimedByOwned(s: Registry, k: ChunkKey)
    ensures k in AllClaimed(s.playerChunks) <==> exists q :: k in Owned(s, q)
  {
    if exists q :: k in Owned(s, q) {
      var q :| k in Owned(s, q);
      assert q in s.playerChunks && k in s.playerChunks[q];
    }
    if k in AllClaimed(s.playerChunks) {
      var q :| q in s.playerChunks && k in s.playerChunks[q];
      assert k in Owned(s, q);
    }
  }

  /** The invariant only depends on the owned sets and the global set, not on empty entries. */
  lemma SameClaimsValid(s: Registry, t: Registry)
    requires Valid(s) && SameClaims(s, t)
    ensures Valid(t)
  {
    forall p, q | p in t.playerChunks && q in t.playerChunks && p != q
      ensures t.playerChunks[p] !! t.playerChunks[q]
    {
      assert t.playerChunks[p] == Owned(s, p) && t.playerChunks[q] == Owned(s, q);
    }
    forall k ensures k in t.loadedChunks <==> k in AllClaimed(t.playerChunks) {
      AllClaimedByOwned(s, k);
      AllClaimedByOwned(t, k);
    }
  }

  /** Claiming keeps the owned sets disjoint and `loadedChunks` equal to their union. */
  lemma ClaimPreservesValid(s: Registry, p: PlayerId, k: ChunkKey, enabled: bool, max: int)
    requires Valid(s)
    ensures Valid(Claim(s, p, k, enabled, max).after)
  {
    var c := Claim(s, p, k, enabled, max);
    var t := c.after;
    if c.result != Success {
      SameClaimsValid(s, t);
    } else {
      forall q | q in t.playerChunks && q != p ensures k !in t.playerChunks[q] {
        assert t.playerChunks[q] == Owned(s, q);
        assert q in s.playerChunks && !OwnedByOther(s, p, k);
      }
      forall q, r | q in t.playerChunks && r in t.playerChunks && q != r
        ensures t.playerChunks[q] !! t.playerChunks[r]
      {
        assert t.playerChunks[q] == Owned(t, q) && t.playerChunks[r] == Owned(t, r);
      }
      forall k' ensures k' in t.loadedChunks <==> k' in AllClaimed(t.playerChunks) {
        AllClaimedByOwned(s, k');
        AllClaimedByOwned(t, k');
        if k' == k { assert k in Owned(t, p); }
        else if exists q :: k' in Owned(s, q) {
          var q :| k' in Owned(s, q);
          assert k' in Owned(t, q);
        }
      }
    }
  }

  /** Unclaiming keeps the owned sets disjoint and `loadedChunks` equal to their union. */
  lemma UnclaimPreservesValid(s: Registry, p: PlayerId, k: ChunkKey)
    requires Valid(s)
    ensures Valid(Unclaim(s, p, k).after)
  {
    var u := Unclaim(s, p, k);
    var t := u.after;
    if u.removed {
      forall q, r | q in t.playerChunks && r in t.playerChunks && q != r
        ensures t.playerChunks[q] !! t.playerChunks[r]
      {
        assert t.playerChunks[q] == Owned(t, q) && t.playerChunks[r] == Owned(t, r);
      }
      forall k' ensures k' in t.loadedChunks <==> k' in AllClaimed(t.playerChunks) {
        AllClaimedByOwned(s, k');
        AllClaimedByOwned(t, k');
        if k' != k && exists q :: k' in Owned(s, q) {
          var q :| k' in Owned(s, q);
          assert k' in Owned(t, q);
        }
      }
    }
  }

  /** Claiming never takes a player above a limit it was within; other players are untouched. */
  lemma ClaimKeepsLimit(s: Registry, p: PlayerId, k: ChunkKey, enabled: bool, max: int)
    requires WithinLimit(s, max) && max >= 0
    ensures WithinLimit(Claim(s, p, k, enabled, max).after, max)
  {
    var c := Claim(s, p, k, enabled, max);
    forall q | q in c.after.playerChunks ensures |c.after.playerChunks[q]| <= max {
      assert c.after.playerChunks[q] == Owned(c.after, q);
    }
  }

  /**
   * A successful claim undone by `unclaimChunk` restores every player's set and
   * the global set; the map itself comes back exactly unless the player
   * started with an empty entry, which the unclaim then removes.
   */
  lemma ClaimThenUnclaim(s: Registry, p: PlayerId, k: ChunkKey, max: int)
    requires Valid(s)
    requires Claim(s, p, k, true, max).result == Success
    ensures var u := Unclaim(Claim(s, p, k, true, max).after, p, k);
      && u.removed
      && SameClaims(s, u.after)
      && (Owned(s, p) != {} || p !in s.playerChunks ==> u.after == s)
  {
    var c := Claim(s, p, k, true, max);
    var u := Unclaim(c.after, p, k);
    assert k !in s.loadedChunks by {
      AllClaimedByOwned(s, k);
    }
    assert Owned(u.after, p) == Owned(s, p);
    if Owned(s, p) != {} || p !in s.playerChunks {
      assert u.after.playerChunks.Keys == s.playerChunks.Keys;
      OwnedDeterminesMap(s, u.after);
    }
  }

  /** Two maps with the same players and the same owned sets are the same map. */
  lemma OwnedDeterminesMap(s: Registry, t: Registry)
    requires s.playerChunks.Keys == t.playerChunks.Keys
    requires forall q :: Owned(s, q) == Owned(t, q)
    ensures s.playerChunks == t.playerChunks
  {
    forall q | q in s.playerChunks ensures s.playerChunks[q] == t.playerChunks[q] {
      assert Owned(s, q) == Owned(t, q);
    }
  }

  /** Claiming a key the player just claimed answers `AlreadyClaimed` and changes no count. */
  lemma ClaimTwice(s: Registry, p: PlayerId, k: ChunkKey, max: int)
    requires Claim(s, p, k, true, max).result == Success
    ensures var c := Claim(s, p, k, true, max);
      var c2 := Claim(c.after, p, k, true, max);
      c2.result == AlreadyClaimed && c2.after == c.after
  {
  }

  /**
   * A player already holding `max` keys (or more) gets `AtLimit` for any key
   * nobody owns, and the claims stay as they were.
   */
  lemma ClaimAtLimit(s: Registry, p: PlayerId, k: ChunkKey, max: int)
    requires |Owned(s, p)| >= max
    requires k !in Owned(s, p) && !OwnedByOther(s, p, k)
    ensures var c := Claim(s, p, k, true, max);
      c.result == AtLimit && SameClaims(s, c.after) && |c.after.loadedChunks| == |s.loadedChunks|
  {
  }

  /** The number of keys summed over all players' sets. */
  ghost function ClaimCountSum(pc: map<PlayerId, set<ChunkKey>>): nat
    decreases |pc|
  {
    if pc == map[] then 0
    else
      var q :| q in pc;
      |pc[q]| + ClaimCountSum(pc - {q})
  }

  /** The sum may peel off any one player, not just the one its definition picks. */
  lemma {:induction false} ClaimCountSumRemove(pc: map<PlayerId, set<ChunkKey>>, q: PlayerId)
    requires q in pc
    ensures ClaimCountSum(pc) == |pc[q]| + ClaimCountSum(pc - {q})
    decreases |pc|
  {
    var q' :| q' in pc && ClaimCountSum(pc) == |pc[q']| + ClaimCountSum(pc - {q'});
    if q' != q {
      var rest := pc - {q'};
      assert |rest| < |pc| by { assert rest.Keys < pc.Keys; }
      ClaimCountSumRemove(rest, q);
      var both := pc - {q} - {q'};
      assert rest - {q} == both;
      assert |pc - {q}| < |pc| by { assert (pc - {q}).Keys < pc.Keys; }
      ClaimCountSumRemove(pc - {q}, q');
      assert (pc - {q}) - {q'} == both;
    }
  }

  /**
   * Under the invariant `getTotalLoadedChunks` equals the sum of every
   * player's `getClaimedCount`: the global set is the disjoint union.
   */
  lemma {:induction false} TotalIsSumOfCounts(pc: map<PlayerId, set<ChunkKey>>)
    requires Disjoint(pc)
    ensures |AllClaimed(pc)| == ClaimCountSum(pc)
    decreases |pc|
  {
    if pc != map[] {
      var q :| q in pc;
      var rest := pc - {q};
      assert |rest| < |pc| by { assert rest.Keys < pc.Keys; }
      TotalIsSumOfCounts(rest);
      ClaimCountSumRemove(pc, q);
      assert AllClaimed(pc) == pc[q] + AllClaimed(rest) by {
        forall k | k in AllClaimed(pc) ensures k in pc[q] + AllClaimed(rest) {
          var q' :| q' in pc && k in pc[q'];
          if q' != q { assert k in rest[q']; }
        }
      }
      assert pc[q] !! AllClaimed(rest);
    }
  }

  // ---------------------------------------------------------------------------
  // Loading persisted claims
  // ---------------------------------------------------------------------------

  /**
   * One player's saved list under `chunkloader.claims`: `player` is `None`
   * when `UUID.fromString` rejects the entry's name.
   */
  datatype SavedClaims = SavedClaims(player: Option<PlayerId>, chunks: seq<string>)

  /** The keys read from a saved list, skipping every entry `fromString` rejects. */
  function ParseKeys(strs: seq<string>): (keys: set<ChunkKey>)
    ensures forall k :: k in keys <==> exists i :: 0 <= i < |strs| && FromString(strs[i]) == Some(k)
  {
    if strs == [] then {}
    else
      var last := strs[|strs| - 1];
      var keys := ParseKeys(strs[..|strs| - 1]);
      assert forall i :: 0 <= i < |strs| - 1 ==> strs[..|strs| - 1][i] == strs[i];
      match FromString(last)
      case Some(k) => keys + {k}
      case None => keys
  }

  /** One more string read: its key, if `fromString` accepts it, joins the parsed set. */
  lemma ParseKeysStep(strs: seq<string>, j: nat)
    requires j < |strs|
    ensures ParseKeys(strs[..j + 1]) == ParseKeys(strs[..j]) + KeysOf(FromString(strs[j]))
  {
    assert strs[..j + 1][..j] == strs[..j];
  }

  /** The keys in an optional key: none or one. */
  function KeysOf(k: Option<ChunkKey>): set<ChunkKey> {
    if k.Some? then {k.value} else {}
  }

  /** The load loop's body for one saved entry. */
  function LoadEntry(s: Registry, e: SavedClaims): Registry {
    if e.player.None? then s
    else
      var keys := ParseKeys(e.chunks);
      Registry(if keys == {} then s.playerChunks else s.playerChunks[e.player.value := keys],
               s.loadedChunks + keys)
  }

  /** `loadChunkClaims` on the saved entries, in order, starting from the empty registry. */
  function LoadAll(saved: seq<SavedClaims>): (s: Registry)
    ensures forall p :: p in s.playerChunks ==> s.playerChunks[p] != {}
    ensures AllClaimed(s.playerChunks) <= s.loadedChunks
  {
    if saved == [] then Empty
    else
      var s0 := LoadAll(saved[..|saved| - 1]);
      var s1 := LoadEntry(s0, saved[|saved| - 1]);
      assert AllClaimed(s1.playerChunks) <= s1.loadedChunks by {
        forall k | k in AllClaimed(s1.playerChunks) ensures k in s1.loadedChunks {
          var q :| q in s1.playerChunks && k in s1.playerChunks[q];
          if q !in s0.playerChunks || s1.playerChunks[q] != s0.playerChunks[q] {
            assert k in ParseKeys(saved[|saved| - 1].chunks);
          }
        }
      }
      s1
  }

  /** The players named by the saved entries are pairwise different. */
  ghost predicate DistinctPlayers(saved: seq<SavedClaims>) {
    forall i, j :: 0 <= i < j < |saved| && saved[i].player.Some? ==> saved[i].player != saved[j].player
  }

  /** No key is read from the lists of two different saved entries. */
  ghost predicate DisjointLists(saved: seq<SavedClaims>) {
    forall i, j :: 0 <= i < j < |saved| && saved[i].player.Some? && saved[j].player.Some? ==>
      ParseKeys(saved[i].chunks) !! ParseKeys(saved[j].chunks)
  }

  /** Every key the load put in `loadedChunks` comes from the list of a well-named entry. */
  lemma {:induction false} LoadedKeysFromLists(saved: seq<SavedClaims>, k: ChunkKey)
    requires k in LoadAll(saved).loadedChunks
    ensures exists i :: 0 <= i < |saved| && saved[i].player.Some? && k in ParseKeys(saved[i].chunks)
  {
    var n := |saved| - 1;
    var init := saved[..n];
    if k in LoadAll(init).loadedChunks {
      LoadedKeysFromLists(init, k);
      var i :| 0 <= i < n && init[i].player.Some? && k in ParseKeys(init[i].chunks);
      assert saved[i] == init[i];
    } else {
      assert saved[n].player.Some? && k in ParseKeys(saved[n].chunks);
    }
  }

  /** Loading one more entry keeps every key already loaded and adds the entry's keys when its name is a UUID. */
  lemma LoadAllGrows(saved: seq<SavedClaims>)
    requires saved != []
    ensures var n := |saved| - 1;
      && LoadAll(saved[..n]).loadedChunks <= LoadAll(saved).loadedChunks
      && (saved[n].player.Some? ==> ParseKeys(saved[n].chunks) <= LoadAll(saved).loadedChunks)
  {
    var n := |saved| - 1;
    assert LoadAll(saved) == LoadEntry(LoadAll(saved[..n]), saved[n]);
  }

  /** Every key read from the list of an entry whose name is a UUID ends up in `loadedChunks`. */
  lemma {:induction false} LoadAllLoadsEveryKey(saved: seq<SavedClaims>, i: int, k: ChunkKey)
    requires 0 <= i < |saved| && saved[i].player.Some? && k in ParseKeys(saved[i].chunks)
    ensures k in LoadAll(saved).loadedChunks
  {
    var n := |saved| - 1;
    LoadAllGrows(saved);
    if i < n {
      var init := saved[..n];
      assert init[i] == saved[i];
      assert 0 <= i < |init| && init[i].player.Some? && k in ParseKeys(init[i].chunks);
      LoadAllLoadsEveryKey(init, i, k);
      assert k in LoadAll(init).loadedChunks;
    } else {
      assert i == n;
    }
  }

  /** Loading one more entry replaces `p`'s set when the entry names `p` with a readable key, and keeps it otherwise. */
  lemma LoadAllOwnedStep(saved: seq<SavedClaims>, p: PlayerId)
    requires saved != []
    ensures var n := |saved| - 1;
      Owned(LoadAll(saved), p) ==
        if saved[n].player == Some(p) && ParseKeys(saved[n].chunks) != {} then ParseKeys(saved[n].chunks)
        else Owned(LoadAll(saved[..n]), p)
  {
    var n := |saved| - 1;
    assert LoadAll(saved) == LoadEntry(LoadAll(saved[..n]), saved[n]);
  }

  /**
   * The last entry that names `p` with at least one readable key decides
   * `p`'s set: `put` overwrites earlier lists, and later entries for `p` with
   * no readable key leave it alone.
   */
  lemma {:induction false} LoadAllLastListWins(saved: seq<SavedClaims>, i: int, p: PlayerId)
    requires 0 <= i < |saved| && saved[i].player == Some(p) && ParseKeys(saved[i].chunks) != {}
    requires forall j :: i < j < |saved| && saved[j].player == Some(p) ==> ParseKeys(saved[j].chunks) == {}
    ensures Owned(LoadAll(saved), p) == ParseKeys(saved[i].chunks)
  {
    var n := |saved| - 1;
    LoadAllOwnedStep(saved, p);
    if i < n {
      var init := saved[..n];
      assert init[i] == saved[i];
      forall j | i < j < |init| && init[j].player == Some(p) ensures ParseKeys(init[j].chunks) == {} {
        assert init[j] == saved[j];
      }
      LoadAllLastListWins(init, i, p);
      assert Owned(LoadAll(init), p) == ParseKeys(saved[i].chunks);
      assert saved[n].player == Some(p) ==> ParseKeys(saved[n].chunks) == {};
    }
  }

  /** Each entry of the loaded map is the parsed list of a saved entry naming that player. */
  lemma {:induction false} LoadedEntryFromList(saved: seq<SavedClaims>, p: PlayerId)
    requires p in LoadAll(saved).playerChunks
    ensures exists i :: (0 <= i < |saved| && saved[i].player == Some(p) &&
                         LoadAll(saved).playerChunks[p] == ParseKeys(saved[i].chunks))
  {
    assert saved != [];
    var n := |saved| - 1;
    var init := saved[..n];
    var e := saved[n];
    LoadAllOwnedStep(saved, p);
    assert LoadAll(saved).playerChunks[p] == Owned(LoadAll(saved), p);
    if e.player == Some(p) && ParseKeys(e.chunks) != {} {
      assert LoadAll(saved).playerChunks[p] == ParseKeys(saved[n].chunks);
    } else {
      assert Owned(LoadAll(init), p) != {};
      LoadedEntryFromList(init, p);
      var i :| 0 <= i < n && init[i].player == Some(p) && LoadAll(init).playerChunks[p] == ParseKeys(init[i].chunks);
      assert saved[i] == init[i];
    }
  }

  /** Loading one entry for a new player with keys nobody holds keeps the invariant. */
  lemma LoadEntryValid(s: Registry, e: SavedClaims)
    requires Valid(s)
    requires e.player.Some? ==> e.player.value !in s.playerChunks && ParseKeys(e.chunks) !! s.loadedChunks
    ensures Valid(LoadEntry(s, e))
  {
    if e.player.Some? {
      var t := LoadEntry(s, e);
      var keys := ParseKeys(e.chunks);
      var p := e.player.value;
      forall q | q in s.playerChunks ensures s.playerChunks[q] !! keys {
        forall k | k in s.playerChunks[q] ensures k in s.loadedChunks {
          AllClaimedByOwned(s, k);
          assert k in Owned(s, q);
        }
      }
      forall k ensures k in t.loadedChunks <==> k in AllClaimed(t.playerChunks) {
        AllClaimedByOwned(s, k);
        AllClaimedByOwned(t, k);
        if k in keys {
          assert k in Owned(t, p);
        } else if exists q :: k in Owned(s, q) {
          var q :| k in Owned(s, q);
          assert k in Owned(t, q);
        }
      }
    }
  }

  /**
   * Saved data written from a valid registry (one entry per player, disjoint
   * lists) loads into a valid registry. Without those conditions it need not:
   * a player named twice keeps only the last list while `loadedChunks` keeps
   * the keys of both.
   */
  lemma {:induction false} LoadAllValid(saved: seq<SavedClaims>)
    requires DistinctPlayers(saved) && DisjointLists(saved)
    ensures Valid(LoadAll(saved))
  {
    if saved != [] {
      var n := |saved| - 1;
      var init := saved[..n];
      assert DistinctPlayers(init) && DisjointLists(init) by {
        forall i | 0 <= i < n ensures init[i] == saved[i] { }
      }
      LoadAllValid(init);
      var s0 := LoadAll(init);
      var e := saved[n];
      if e.player.Some? {
        forall q | q in s0.playerChunks ensures q != e.player.value {
          LoadedEntryFromList(init, q);
          var i :| 0 <= i < n && init[i].player == Some(q) && s0.playerChunks[q] == ParseKeys(init[i].chunks);
          assert saved[i] == init[i];
        }
        forall k | k in s0.loadedChunks ensures k !in ParseKeys(e.chunks) {
          LoadedKeysFromLists(init, k);
          var i :| 0 <= i < n && init[i].player.Some? && k in ParseKeys(init[i].chunks);
          assert saved[i] == init[i];
        }
      }
      LoadEntryValid(s0, e);
    }
  }
}
