/**
 * `ChunkLoaderFeature`: the object that owns the claim map and the global
 * set and updates them in place. Each method is proved to move the fields
 * exactly as the transition of the same name in module ClaimRegistry, whose
 * lemmas carry the invariants; the read-only queries state what they answer
 * in terms of the owned sets.
 */
module ChunkLoader {
  import opened Optional
  import opened ChunkKeys
  import opened ClaimRegistry

  class ChunkLoaderFeature {
    /** `playerChunks`: player to the set of keys it has claimed. */
    var playerChunks: map<PlayerId, set<ChunkKey>>
    /** `loadedChunks`: every claimed key, for quick lookup. */
    var loadedChunks: set<ChunkKey>

    /** The two fields as one registry value. */
    function Snapshot(): Registry
      reads this
    {
      Registry(playerChunks, loadedChunks)
    }

    /**
     * The constructor's `loadChunkClaims()`: the saved entries are loaded one
     * after another into an empty registry.
     */
    constructor (saved: seq<SavedClaims>)
      ensures Snapshot() == LoadAll(saved)
    {
      playerChunks := map[];
      loadedChunks := {};
      new;
      var i := 0;
      while i < |saved|
        invariant 0 <= i <= |saved|
        invariant Snapshot() == LoadAll(saved[..i])
      {
        LoadSavedEntry(saved[i]);
        assert saved[..i + 1][..i] == saved[..i];
        i := i + 1;
      }
      assert saved[..i] == saved;
    }

    /**
     * The body of the loop of `loadChunkClaims()` for one saved entry: an
     * entry whose name is not a UUID is skipped; otherwise every string that
     * `fromString` accepts goes into `loadedChunks` and into the player's new
     * set, which replaces the player's entry when it is not empty.
     */
    method LoadSavedEntry(entry: SavedClaims)
      modifies this
      ensures Snapshot() == LoadEntry(old(Snapshot()), entry)
    {
      if entry.player.None? {
        return;
      }
      var chunks: set<ChunkKey> := {};
      var j := 0;
      while j < |entry.chunks|
        invariant 0 <= j <= |entry.chunks|
        invariant chunks == ParseKeys(entry.chunks[..j])
        invariant playerChunks == old(playerChunks)
        invariant loadedChunks == old(loadedChunks) + chunks
      {
        var key := FromString(entry.chunks[j]);
        ParseKeysStep(entry.chunks, j);
        if key.Some? {
          chunks := chunks + {key.value};
          loadedChunks := loadedChunks + {key.value};
        }
        assert chunks == ParseKeys(entry.chunks[..j + 1]);
        j := j + 1;
      }
      assert entry.chunks[..j] == entry.chunks;
      assert chunks == ParseKeys(entry.chunks);
      if chunks != {} {
        playerChunks := playerChunks[entry.player.value := chunks];
      }
    }

    /**
     * `claimChunk(player, chunk)`, with `enabled` and `maxChunks` the two
     * configuration values it reads.
     */
    method ClaimChunk(player: PlayerId, key: ChunkKey, enabled: bool, maxChunks: int) returns (result: ClaimResult)
      modifies this
      ensures Claimed(result, Snapshot()) == Claim(old(Snapshot()), player, key, enabled, maxChunks)
    {
      if !enabled {
        return FeatureDisabled;
      }
      if player !in playerChunks {
        playerChunks := playerChunks[player := {}];
      }
      var owned := playerChunks[player];
      if key in owned {
        return AlreadyClaimed;
      }
      var byOther := ClaimedByAnother(player, key);
      if byOther {
        return ClaimedByOther;
      }
      if |owned| >= maxChunks {
        return AtLimit;
      }
      playerChunks := playerChunks[player := owned + {key}];
      loadedChunks := loadedChunks + {key};
      result := Success;
    }

    /** The loop of `claimChunk` over all entries, looking for another player that holds `key`. */
    method ClaimedByAnother(player: PlayerId, key: ChunkKey) returns (found: bool)
      ensures found <==> OwnedByOther(Snapshot(), player, key)
    {
      var pending := playerChunks.Keys;
      found := false;
      while pending != {}
        invariant pending <= playerChunks.Keys
        invariant !found
        invariant forall q :: q in playerChunks && q !in pending && q != player ==> key !in playerChunks[q]
        decreases pending
      {
        var q :| q in pending;
        if q != player && key in playerChunks[q] {
          return true;
        }
        pending := pending - {q};
      }
    }

    /** `unclaimChunk(player, chunk)`. */
    method UnclaimChunk(player: PlayerId, key: ChunkKey) returns (removed: bool)
      modifies this
      ensures Unclaimed(removed, Snapshot()) == Unclaim(old(Snapshot()), player, key)
    {
      if player !in playerChunks || key !in playerChunks[player] {
        return false;
      }
      var owned := playerChunks[player] - {key};
      if owned == {} {
        playerChunks := playerChunks - {player};
      } else {
        playerChunks := playerChunks[player := owned];
      }
      loadedChunks := loadedChunks - {key};
      removed := true;
    }

    /** `isClaimedBy(player, chunk)`. */
    function IsClaimedBy(player: PlayerId, key: ChunkKey): (b: bool)
      reads this
      ensures b <==> key in Owned(Snapshot(), player)
      ensures b && Valid(Snapshot()) ==> key in loadedChunks && !OwnedByOther(Snapshot(), player, key)
    {
      player in playerChunks && key in playerChunks[player]
    }

    /** `isClaimed(chunk)`: membership in the global set, which under the invariant means some player owns it. */
    function IsClaimed(key: ChunkKey): (b: bool)
      reads this
      ensures Valid(Snapshot()) ==> (b <==> exists q :: key in Owned(Snapshot(), q))
    {
      LoadedMeansOwnedIfValid(Snapshot(), key);
      key in loadedChunks
    }

    /** `getClaimedCount(player)`: the size of the player's set, 0 without an entry. */
    function GetClaimedCount(player: PlayerId): (n: nat)
      reads this
      ensures n == |Owned(Snapshot(), player)|
      ensures n == 0 <==> forall k :: !IsClaimedBy(player, k)
    {
      if player in playerChunks then
        var owned := playerChunks[player];
        assert owned != {} ==> var k :| k in owned; IsClaimedBy(player, k);
        |owned|
      else 0
    }

    /** `getPlayerChunks(playerId)`: a read-only view of the player's set, empty without an entry. */
    function GetPlayerChunks(player: PlayerId): (keys: set<ChunkKey>)
      reads this
      ensures forall k :: k in keys <==> IsClaimedBy(player, k)
      ensures |keys| == GetClaimedCount(player)
    {
      if player in playerChunks then playerChunks[player] else {}
    }

    /** `getTotalLoadedChunks()`: under the invariant, the sum of all players' claim counts. */
    function GetTotalLoadedChunks(): (n: nat)
      reads this
      ensures Valid(Snapshot()) ==> n == ClaimCountSum(playerChunks)
    {
      TotalIsSumOfCountsIfValid(Snapshot());
      |loadedChunks|
    }
  }

  lemma LoadedMeansOwnedIfValid(s: Registry, k: ChunkKey)
    ensures Valid(s) ==> (k in s.loadedChunks <==> exists q :: k in Owned(s, q))
  {
    if Valid(s) {
      LoadedMeansOwned(s, k);
    }
  }

  lemma TotalIsSumOfCountsIfValid(s: Registry)
    ensures Valid(s) ==> |s.loadedChunks| == ClaimCountSum(s.playerChunks)
  {
    if Valid(s) {
      TotalIsSumOfCounts(s.playerChunks);
    }
  }
}
