/**
 * `ActivationListener`: the event listener that turns a block break into a
 * tree-feller, vein-miner or auto-farm run, claims chunks while farming, and
 * cleans up when a player quits. Its calls into the state manager, the work
 * service and the action bar are appended to `calls`; the chunk loader is the
 * `ChunkLoaderFeature` object of module ChunkLoader, updated in place. Every
 * method is proved to produce what module BreakRouting specifies.
 */
module Listener {
  import opened Optional
  import opened JavaText
  import opened ClaimRegistry
  import opened ChunkLoader
  import opened BreakRouting

  class ActivationListener {
    /** `chunkLoader`, `null` when the chunk loader is not set up. */
    const chunkLoader: ChunkLoaderFeature?
    /** The calls made so far on events and into the collaborators, oldest first. */
    var calls: seq<Call>

    constructor (chunkLoader: ChunkLoaderFeature?)
      ensures this.chunkLoader == chunkLoader && calls == []
    {
      this.chunkLoader := chunkLoader;
      calls := [];
    }

    /**
     * `onBlockBreak(e)`; `active` is `states.isActive(p)`, `col` what the
     * three collectors answer for this block and `isLog` is `Materials.isLog`.
     */
    method OnBlockBreak(active: bool, e: BreakEvent, cfg: Settings, col: Collectors, isLog: Material -> bool)
      modifies this, chunkLoader
      ensures chunkLoader == null ==>
        calls == old(calls) + OnBreak(active, e, cfg, col, isLog, None).calls
      ensures chunkLoader != null ==>
        var r := OnBreak(active, e, cfg, col, isLog, Some(old(chunkLoader.Snapshot())));
        calls == old(calls) + r.calls && r.registry == Some(chunkLoader.Snapshot())
    {
      if active {
        return;
      }
      if cfg.treeFellerEnabled && e.sneaking && IsAxe(e.hand) {
        if col.treeCanTrigger {
          assert RouteOf(active, e, cfg, col) == Handle(TreeFeller);
          HandleTreeFeller(e, cfg, col.treeTargets, isLog);
          return;
        }
      }
      if cfg.veinMinerEnabled && IsPick(e.hand) {
        if col.veinCanTrigger {
          assert RouteOf(active, e, cfg, col) == Handle(VeinMiner);
          HandleVeinMiner(e, cfg, col.veinTargets, isLog);
          return;
        }
      }
      if cfg.autoFarmEnabled && IsHoe(e.hand) {
        if col.farmCanTrigger {
          assert RouteOf(active, e, cfg, col) == Handle(AutoFarm);
          ghost var before := calls;
          if e.sneaking && cfg.chunkLoaderEnabled && cfg.chunkLoaderClaimOnFarm {
            HandleChunkClaim(e, cfg);
          }
          ghost var feedback := calls[|before|..];
          assert calls == before + feedback;
          HandleAutoFarm(e, cfg, col.farmTargets, isLog);
          AppendTwo(before, feedback, HandlerCalls(AutoFarm, e, cfg, col.farmTargets, isLog));
          return;
        }
      }
      assert RouteOf(active, e, cfg, col) == NoFeature;
    }

    /** `handleTreeFeller(p, origin, e)` for the tree collector's `targets`. */
    method HandleTreeFeller(e: BreakEvent, cfg: Settings, targets: seq<Block>, isLog: Material -> bool)
      modifies this
      ensures calls == old(calls) + HandlerCalls(TreeFeller, e, cfg, targets, isLog)
    {
      var p := e.player;
      if |targets| == 0 {
        return;
      }
      var stump := FindStump(targets, isLog);
      var logType := e.block.material;
      var stumpLocation := if stump.Some? then stump.value.pos else e.block.pos;
      calls := calls + [CancelBreak, StartTreeFeller(p, logType, stumpLocation), SetActive(p)];
      var start := calls;
      var idx := 0;
      while idx < |targets|
        invariant 0 <= idx <= |targets|
        invariant calls == start + Enqueues(WorkList(TreeFeller, p, targets[..idx]))
      {
        var tb := targets[idx];
        var isLeaf := IsLeaves(tb);
        var delay := idx;
        TraceQueueStep(start, calls, TreeFeller, p, targets, idx);
        ghost var before := calls;
        assert ItemFor(TreeFeller, p, tb, idx) == WorkItem(if isLeaf then BreakLeaf else BreakLog, p, tb, idx);
        if isLeaf {
          calls := calls + [Enqueue(WorkItem(BreakLeaf, p, tb, delay))];
        } else {
          calls := calls + [Enqueue(WorkItem(BreakLog, p, tb, delay))];
        }
        assert calls == before + [Enqueue(ItemFor(TreeFeller, p, targets[idx], idx))];
        idx := idx + 1;
      }
      assert targets[..idx] == targets;
      ghost var queued := calls;
      if cfg.treeFellerReplant && stump.Some? {
        calls := calls + [ScheduleReplant(p, stump.value, logType)];
      }
      assert calls == queued + Replant(p, stump, logType, cfg.treeFellerReplant);
      calls := calls + [ClearIndicator(p), EnsureLoop(p)];
      TreeHandlerTrace(e, cfg, targets, isLog, stump, old(calls));
    }

    /** `handleVeinMiner(p, origin, e)` for the vein collector's `targets`. */
    method HandleVeinMiner(e: BreakEvent, cfg: Settings, targets: seq<Block>, isLog: Material -> bool)
      modifies this
      ensures calls == old(calls) + HandlerCalls(VeinMiner, e, cfg, targets, isLog)
    {
      var p := e.player;
      if |targets| == 0 || |targets| == 1 {
        return;
      }
      calls := calls + [CancelBreak, StartVeinMine(p, e.block.pos, e.block.material), SetActive(p)];
      var start := calls;
      var idx := 0;
      while idx < |targets|
        invariant 0 <= idx <= |targets|
        invariant calls == start + Enqueues(WorkList(VeinMiner, p, targets[..idx]))
      {
        var ore := targets[idx];
        var delay := idx / 4;
        TraceQueueStep(start, calls, VeinMiner, p, targets, idx);
        calls := calls + [Enqueue(WorkItem(BreakOre, p, ore, delay))];
        idx := idx + 1;
      }
      assert targets[..idx] == targets;
      calls := calls + [EnsureLoop(p)];
      HandlerCallsWhenProceeding(VeinMiner, e, cfg, targets, isLog);
      AppendThree(old(calls), [CancelBreak, StartVeinMine(p, e.block.pos, e.block.material), SetActive(p)],
                  Enqueues(WorkList(VeinMiner, p, targets)), [EnsureLoop(p)]);
    }

    /** `handleAutoFarm(p, origin, e)` for the farm collector's `targets`. */
    method HandleAutoFarm(e: BreakEvent, cfg: Settings, targets: seq<Block>, isLog: Material -> bool)
      modifies this
      ensures calls == old(calls) + HandlerCalls(AutoFarm, e, cfg, targets, isLog)
    {
      var p := e.player;
      if |targets| == 0 || |targets| == 1 {
        return;
      }
      calls := calls + [CancelBreak, SetActive(p)];
      var start := calls;
      var i := 0;
      while i < |targets|
        invariant 0 <= i <= |targets|
        invariant calls == start + Enqueues(WorkList(AutoFarm, p, targets[..i]))
      {
        var crop := targets[i];
        TraceQueueStep(start, calls, AutoFarm, p, targets, i);
        calls := calls + [Enqueue(WorkItem(BreakCrop, p, crop, 0))];
        i := i + 1;
      }
      assert targets[..i] == targets;
      calls := calls + [EnsureLoop(p)];
      HandlerCallsWhenProceeding(AutoFarm, e, cfg, targets, isLog);
      AppendThree(old(calls), [CancelBreak, SetActive(p)], Enqueues(WorkList(AutoFarm, p, targets)), [EnsureLoop(p)]);
    }

    /**
     * `handleChunkClaim(p, origin)`: claim the block's chunk through the
     * chunk loader, if there is one, and show the feedback for the result.
     */
    method HandleChunkClaim(e: BreakEvent, cfg: Settings)
      modifies this, chunkLoader
      ensures chunkLoader == null ==> calls == old(calls)
      ensures chunkLoader != null ==>
        var c := Claim(old(chunkLoader.Snapshot()), e.player, ChunkOf(e.block),
                       cfg.chunkLoaderEnabled, cfg.chunkLoaderMaxChunksPerPlayer);
        && chunkLoader.Snapshot() == c.after
        && calls == old(calls) + ClaimFeedback(e.player, c.result, cfg.chunkLoaderShowClaimMessage,
                                               |Owned(c.after, e.player)|, cfg.chunkLoaderMaxChunksPerPlayer)
    {
      if chunkLoader == null {
        return;
      }
      var p := e.player;
      var result := chunkLoader.ClaimChunk(p, ChunkOf(e.block), cfg.chunkLoaderEnabled, cfg.chunkLoaderMaxChunksPerPlayer);
      if cfg.chunkLoaderShowClaimMessage {
        if result == Success {
          var current := chunkLoader.GetClaimedCount(p);
          var max := cfg.chunkLoaderMaxChunksPerPlayer;
          calls := calls + [ShowTimed(p, ClaimedNotice(current, max), 60)];
        } else if result == AtLimit {
          calls := calls + [ShowTimed(p, LimitNotice, 40)];
        }
      }
    }

    /** `findStump(logs)`: the first log of least Y, or none when no log is among them. */
    method FindStump(logs: seq<Block>, isLog: Material -> bool) returns (stump: Option<Block>)
      ensures stump == Stump(logs, isLog)
      ensures stump.None? <==> forall i :: 0 <= i < |logs| ==> !StumpCandidate(logs[i], isLog)
      ensures stump.Some? ==> exists i :: FirstLowestLogAt(logs, isLog, i) && logs[i] == stump.value
    {
      var best: Option<Block> := None;
      var bestY: int := MAX_INT;
      var i := 0;
      while i < |logs|
        invariant 0 <= i <= |logs|
        invariant StumpScan(best, bestY) == ScanStump(logs[..i], isLog)
      {
        var b := logs[i];
        if isLog(b.material) {
          if b.pos.y < bestY {
            bestY := b.pos.y;
            best := Some(b);
          }
        }
        assert logs[..i + 1][..i] == logs[..i];
        i := i + 1;
      }
      assert logs[..i] == logs;
      ScanStumpFindsFirstLowestLog(logs, isLog);
      return best;
    }

    /** `onQuit(e)`: clean up the action bar, stop the work loop, reset the player's state. */
    method OnQuit(p: PlayerId)
      modifies this
      ensures calls == old(calls) + [CleanupIndicator(p), StopLoop(p), ResetState(p)]
    {
      calls := calls + [CleanupIndicator(p)];
      calls := calls + [StopLoop(p)];
      calls := calls + [ResetState(p)];
    }
  }
}
