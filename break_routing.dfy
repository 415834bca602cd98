/**
 * What `ActivationListener.onBlockBreak` decides, as functions: which feature
 * handles a break, whether a bulk operation starts, the work list with its
 * stagger, the replant stump, the claim made while farming and the feedback
 * shown for it. The collaborators whose code is not part of this model (the
 * tree, vein and farm collectors, the state manager, the work service, the
 * action bar and `Materials.isLog`) are opaque: the collectors' answers for
 * the event are inputs, `isLog` is a function parameter, and every call the
 * listener makes into the others is one `Call` in a trace, in order.
 */
module BreakRouting {
  import opened Optional
  import opened JavaText
  import opened ChunkKeys
  import opened ClaimRegistry

  /** A Bukkit `Material`, by its enum constant name (`DIAMOND_PICKAXE`, `OAK_LOG`, ...). */
  datatype Material = Material(name: string)

  datatype Pos = Pos(world: string, x: Int32, y: Int32, z: Int32)

  datatype Block = Block(pos: Pos, material: Material)

  // ---------------------------------------------------------------------------
  // Tool checks
  // ---------------------------------------------------------------------------

  /** `isAxe(hand)`: a non-null item whose material name ends in `_AXE`. */
  predicate IsAxe(hand: Option<Material>) {
    hand.Some? && EndsWith(hand.value.name, "_AXE")
  }

  /** `isPick(hand)`: the name ends in `_PICKAXE`. */
  predicate IsPick(hand: Option<Material>) {
    hand.Some? && EndsWith(hand.value.name, "_PICKAXE")
  }

  /** `isHoe(hand)`: the name ends in `_HOE`. */
  predicate IsHoe(hand: Option<Material>) {
    hand.Some? && EndsWith(hand.value.name, "_HOE")
  }

  /**
   * The three tool classes exclude each other: in particular a pickaxe is
   * never an axe, although `_PICKAXE` ends in `AXE`.
   */
  lemma ToolsExclusive(hand: Option<Material>)
    ensures IsPick(hand) ==> !IsAxe(hand) && !IsHoe(hand)
    ensures IsAxe(hand) ==> !IsHoe(hand)
  {
    if IsPick(hand) {
      var n := hand.value.name;
      assert n[|n| - 4] == "_PICKAXE"[4] && n[|n| - 3] == "_PICKAXE"[5];
    }
    if IsAxe(hand) {
      var n := hand.value.name;
      assert n[|n| - 3] == "_AXE"[1];
    }
  }

  // ---------------------------------------------------------------------------
  // Dispatch
  // ---------------------------------------------------------------------------

  /** The configuration values `onBlockBreak` and its handlers read. */
  datatype Settings = Settings(
    treeFellerEnabled: bool,
    treeFellerReplant: bool,
    veinMinerEnabled: bool,
    autoFarmEnabled: bool,
    chunkLoaderEnabled: bool,
    chunkLoaderClaimOnFarm: bool,
    chunkLoaderShowClaimMessage: bool,
    chunkLoaderMaxChunksPerPlayer: int)

  /** A `BlockBreakEvent`: who broke which block, with what in the main hand, sneaking or not. */
  datatype BreakEvent = BreakEvent(player: PlayerId, block: Block, hand: Option<Material>, sneaking: bool)

  /**
   * The answers of `tree`, `vein` and `farm` for this event: `canTrigger`
   * and, in the order the returned set is iterated, `collectTargets`.
   */
  datatype Collectors = Collectors(
    treeCanTrigger: bool, treeTargets: seq<Block>,
    veinCanTrigger: bool, veinTargets: seq<Block>,
    farmCanTrigger: bool, farmTargets: seq<Block>)

  datatype Feature = TreeFeller | VeinMiner | AutoFarm

  datatype Route = Busy | Handle(feature: Feature) | NoFeature

  /** A feature's enable flag and tool (and, for the tree feller, sneaking). */
  predicate Gate(f: Feature, e: BreakEvent, cfg: Settings) {
    match f
    case TreeFeller => cfg.treeFellerEnabled && e.sneaking && IsAxe(e.hand)
    case VeinMiner => cfg.veinMinerEnabled && IsPick(e.hand)
    case AutoFarm => cfg.autoFarmEnabled && IsHoe(e.hand)
  }

  predicate CanTrigger(f: Feature, col: Collectors) {
    match f
    case TreeFeller => col.treeCanTrigger
    case VeinMiner => col.veinCanTrigger
    case AutoFarm => col.farmCanTrigger
  }

  function Targets(f: Feature, col: Collectors): seq<Block> {
    match f
    case TreeFeller => col.treeTargets
    case VeinMiner => col.veinTargets
    case AutoFarm => col.farmTargets
  }

  /**
   * `onBlockBreak`'s dispatch: a busy player is skipped; otherwise the
   * features are tried tree, vein, farm, and the first whose gate and
   * `canTrigger` hold is the one handled.
   */
  function RouteOf(active: bool, e: BreakEvent, cfg: Settings, col: Collectors): (r: Route)
    ensures r == Busy <==> active
    ensures r.Handle? ==> Gate(r.feature, e, cfg) && CanTrigger(r.feature, col)
    ensures r.Handle? ==> forall g :: Earlier(g, r.feature) ==> !(Gate(g, e, cfg) && CanTrigger(g, col))
    ensures r == NoFeature <==> !active && forall g :: !(Gate(g, e, cfg) && CanTrigger(g, col))
  {
    if active then Busy
    else if Gate(TreeFeller, e, cfg) && CanTrigger(TreeFeller, col) then Handle(TreeFeller)
    else if Gate(VeinMiner, e, cfg) && CanTrigger(VeinMiner, col) then Handle(VeinMiner)
    else if Gate(AutoFarm, e, cfg) && CanTrigger(AutoFarm, col) then Handle(AutoFarm)
    else NoFeature
  }

  /** Priority order: tree feller before vein miner before auto farm. */
  predicate Earlier(g: Feature, f: Feature) {
    (g == TreeFeller && f != TreeFeller) || (g == VeinMiner && f == AutoFarm)
  }

  /**
   * Because the tools exclude each other, the feature handled is the one
   * the tool in hand selects: an axe never reaches the vein miner or the
   * farm, a pickaxe never the farm.
   */
  lemma RouteFollowsTool(active: bool, e: BreakEvent, cfg: Settings, col: Collectors)
    ensures RouteOf(active, e, cfg, col) == Handle(VeinMiner) ==> IsPick(e.hand) && !IsAxe(e.hand)
    ensures RouteOf(active, e, cfg, col) == Handle(AutoFarm) ==> IsHoe(e.hand) && !IsAxe(e.hand) && !IsPick(e.hand)
    ensures IsAxe(e.hand) ==> RouteOf(active, e, cfg, col) in {Busy, Handle(TreeFeller), NoFeature}
  {
    ToolsExclusive(e.hand);
  }

  // ---------------------------------------------------------------------------
  // Work lists
  // ---------------------------------------------------------------------------

  datatype WorkKind = BreakLog | BreakLeaf | BreakOre | BreakCrop

  /** A `WorkItem`: what to do to which block for whom, and its stagger in ticks. */
  datatype WorkItem = WorkItem(kind: WorkKind, player: PlayerId, target: Block, delay: nat)

  /** `tb.getType().name().endsWith("_LEAVES")`. */
  predicate IsLeaves(b: Block) {
    EndsWith(b.material.name, "_LEAVES")
  }

  /**
   * The item queued for the `idx`-th target: the tree feller breaks leaves
   * and logs with delay `idx`, the vein miner breaks ores four per tick, the
   * farm breaks crops with no stagger.
   */
  function ItemFor(f: Feature, p: PlayerId, b: Block, idx: nat): (item: WorkItem)
    ensures item.player == p && item.target == b && item.delay <= idx
    ensures item.kind == BreakCrop <==> f == AutoFarm
  {
    match f
    case TreeFeller => WorkItem(if IsLeaves(b) then BreakLeaf else BreakLog, p, b, idx)
    case VeinMiner => WorkItem(BreakOre, p, b, idx / 4)
    case AutoFarm => WorkItem(BreakCrop, p, b, 0)
  }

  /** The handler loop's items, built target by target as the loop does. */
  function WorkList(f: Feature, p: PlayerId, targets: seq<Block>): (items: seq<WorkItem>)
    ensures |items| == |targets|
    ensures forall i :: 0 <= i < |targets| ==> items[i] == ItemFor(f, p, targets[i], i)
  {
    if targets == [] then []
    else
      var n := |targets| - 1;
      assert forall i :: 0 <= i < n ==> targets[..n][i] == targets[i];
      WorkList(f, p, targets[..n]) + [ItemFor(f, p, targets[n], n)]
  }

  /** Exactly one item per target, in target order, each for the breaking player. */
  lemma WorkListCoversTargets(f: Feature, p: PlayerId, targets: seq<Block>)
    ensures |WorkList(f, p, targets)| == |targets|
    ensures forall i :: 0 <= i < |targets| ==>
      WorkList(f, p, targets)[i].target == targets[i] && WorkList(f, p, targets)[i].player == p
  {
  }

  /** Tree stagger: the item at index `i` waits `i` ticks, so the delays strictly increase. */
  lemma TreeStagger(p: PlayerId, targets: seq<Block>, i: nat, j: nat)
    requires i < j < |targets|
    ensures WorkList(TreeFeller, p, targets)[i].delay == i
    ensures WorkList(TreeFeller, p, targets)[i].delay < WorkList(TreeFeller, p, targets)[j].delay
  {
  }

  /** Vein stagger: delays never decrease along the list. */
  lemma VeinStaggerMonotone(p: PlayerId, targets: seq<Block>, i: nat, j: nat)
    requires i <= j < |targets|
    ensures WorkList(VeinMiner, p, targets)[i].delay <= WorkList(VeinMiner, p, targets)[j].delay
  {
    var w := WorkList(VeinMiner, p, targets);
    assert w[i].delay == i / 4 && w[j].delay == j / 4;
    assert 4 * (i / 4) <= i <= j < 4 * (j / 4) + 4;
  }

  /** Vein stagger: at most four items share a delay, so at most four ores break per tick. */
  lemma VeinAtMostFourPerTick(p: PlayerId, targets: seq<Block>, d: nat)
    ensures |set i | 0 <= i < |targets| && WorkList(VeinMiner, p, targets)[i].delay == d| <= 4
  {
    var w := WorkList(VeinMiner, p, targets);
    var same := set i | 0 <= i < |targets| && w[i].delay == d;
    var window := {4 * d, 4 * d + 1, 4 * d + 2, 4 * d + 3};
    forall i | i in same ensures i in window {
      assert w[i].delay == i / 4 == d;
      assert 4 * d <= i < 4 * d + 4;
    }
    assert same <= window;
    SubsetCard(same, window);
  }

  lemma SubsetCard(a: set<int>, b: set<int>)
    requires a <= b
    ensures |a| <= |b|
  {
    assert b == a + (b - a);
  }

  /** Farm items carry no stagger. */
  lemma FarmNoStagger(p: PlayerId, targets: seq<Block>, i: nat)
    requires i < |targets|
    ensures WorkList(AutoFarm, p, targets)[i] == WorkItem(BreakCrop, p, targets[i], 0)
  {
  }

  // ---------------------------------------------------------------------------
  // Stump selection
  // ---------------------------------------------------------------------------

  /** The scan state of `findStump`: the best block so far and its Y (`Integer.MAX_VALUE` at first). */
  datatype StumpScan = StumpScan(best: Option<Block>, bestY: int)

  /** A block that `findStump`'s strict `<` against the initial `Integer.MAX_VALUE` can pick. */
  predicate StumpCandidate(b: Block, isLog: Material -> bool) {
    isLog(b.material) && b.pos.y < MAX_INT
  }

  /** `findStump(targets)`'s loop after scanning `targets`, one block at a time in order. */
  function ScanStump(targets: seq<Block>, isLog: Material -> bool): StumpScan {
    if targets == [] then StumpScan(None, MAX_INT)
    else
      var n := |targets| - 1;
      var prev := ScanStump(targets[..n], isLog);
      var b := targets[n];
      if isLog(b.material) && b.pos.y < prev.bestY then StumpScan(Some(b), b.pos.y) else prev
  }

  /**
   * The scan picks the first log of least Y; it picks nothing exactly when no
   * log lies below `Integer.MAX_VALUE`, the initial `bestY`.
   */
  lemma {:induction false} ScanStumpFindsFirstLowestLog(targets: seq<Block>, isLog: Material -> bool)
    ensures var r := ScanStump(targets, isLog);
      && (r.best.None? <==> forall i :: 0 <= i < |targets| ==> !StumpCandidate(targets[i], isLog))
      && (r.best.None? ==> r.bestY == MAX_INT)
      && (r.best.Some? ==>
            r.bestY == r.best.value.pos.y &&
            exists i :: FirstLowestLogAt(targets, isLog, i) && targets[i] == r.best.value)
    decreases |targets|
  {
    if targets != [] {
      var n := |targets| - 1;
      var prev := ScanStump(targets[..n], isLog);
      var b := targets[n];
      ScanStumpFindsFirstLowestLog(targets[..n], isLog);
      assert forall i :: 0 <= i < n ==> targets[..n][i] == targets[i];
      if isLog(b.material) && b.pos.y < prev.bestY {
        assert FirstLowestLogAt(targets, isLog, n);
      } else if prev.best.Some? {
        var i :| FirstLowestLogAt(targets[..n], isLog, i) && targets[..n][i] == prev.best.value;
        assert FirstLowestLogAt(targets, isLog, i);
      }
    }
  }

  /** `targets[i]` is a log of least Y among the logs, and every earlier log lies strictly higher. */
  ghost predicate FirstLowestLogAt(targets: seq<Block>, isLog: Material -> bool, i: int) {
    && 0 <= i < |targets|
    && isLog(targets[i].material)
    && (forall j :: 0 <= j < |targets| && isLog(targets[j].material) ==> targets[i].pos.y <= targets[j].pos.y)
    && (forall j :: 0 <= j < i && isLog(targets[j].material) ==> targets[i].pos.y < targets[j].pos.y)
  }

  function Stump(targets: seq<Block>, isLog: Material -> bool): Option<Block> {
    ScanStump(targets, isLog).best
  }

  // ---------------------------------------------------------------------------
  // The whole event
  // ---------------------------------------------------------------------------

  /** The two action-bar notices of `handleChunkClaim`, without their text. */
  datatype Notice = ClaimedNotice(current: int, max: int) | LimitNotice

  /** A call the listener makes into a collaborator, or on the event itself. */
  datatype Call =
    | CancelBreak
    | StartTreeFeller(player: PlayerId, logType: Material, stump: Pos)
    | StartVeinMine(player: PlayerId, origin: Pos, oreType: Material)
    | SetActive(player: PlayerId)
    | Enqueue(item: WorkItem)
    | ScheduleReplant(player: PlayerId, at: Block, logType: Material)
    | ClearIndicator(player: PlayerId)
    | EnsureLoop(player: PlayerId)
    | ShowTimed(player: PlayerId, notice: Notice, ticks: int)
    | CleanupIndicator(player: PlayerId)
    | StopLoop(player: PlayerId)
    | ResetState(player: PlayerId)

  /** One `work.queue(p).add(item)` per item, in order. */
  function Enqueues(items: seq<WorkItem>): (calls: seq<Call>)
    ensures |calls| == |items|
    ensures forall i :: 0 <= i < |items| ==> calls[i] == Enqueue(items[i])
  {
    if items == [] then []
    else
      var n := |items| - 1;
      assert forall i :: 0 <= i < n ==> items[..n][i] == items[i];
      Enqueues(items[..n]) + [Enqueue(items[n])]
  }

  /** One more pass of a handler's queue loop enqueues the item for the next target. */
  lemma WorkQueueStep(f: Feature, p: PlayerId, targets: seq<Block>, idx: nat)
    requires idx < |targets|
    ensures Enqueues(WorkList(f, p, targets[..idx + 1])) ==
      Enqueues(WorkList(f, p, targets[..idx])) + [Enqueue(ItemFor(f, p, targets[idx], idx))]
  {
    var a := Enqueues(WorkList(f, p, targets[..idx + 1]));
    var b := Enqueues(WorkList(f, p, targets[..idx])) + [Enqueue(ItemFor(f, p, targets[idx], idx))];
    assert |a| == |b|;
    forall i | 0 <= i < |a| ensures a[i] == b[i] {
      if i < idx {
        assert targets[..idx + 1][i] == targets[..idx][i];
      }
    }
  }

  /** A trace that has enqueued the first `idx` items, extended by the next one. */
  lemma TraceQueueStep(start: seq<Call>, sofar: seq<Call>, f: Feature, p: PlayerId, targets: seq<Block>, idx: nat)
    requires idx < |targets|
    requires sofar == start + Enqueues(WorkList(f, p, targets[..idx]))
    ensures sofar + [Enqueue(ItemFor(f, p, targets[idx], idx))] == start + Enqueues(WorkList(f, p, targets[..idx + 1]))
  {
    WorkQueueStep(f, p, targets, idx);
  }

  /** Regrouping a trace: the handler's calls appended at once or piece by piece. */
  lemma AppendThree(a: seq<Call>, b: seq<Call>, c: seq<Call>, d: seq<Call>)
    ensures a + (b + c + d) == a + b + c + d
  {
  }

  lemma AppendTwo(a: seq<Call>, b: seq<Call>, c: seq<Call>)
    ensures a + b + c == a + (b + c)
  {
  }

  lemma AppendFour(a: seq<Call>, b: seq<Call>, c: seq<Call>, d: seq<Call>, e: seq<Call>)
    ensures a + (b + c + (d + e)) == a + b + c + d + e
  {
  }

  /** The items a trace hands to the work queue, in order. */
  function Queued(calls: seq<Call>): seq<WorkItem> {
    if calls == [] then []
    else
      var n := |calls| - 1;
      Queued(calls[..n]) + (if calls[n].Enqueue? then [calls[n].item] else [])
  }

  lemma {:induction false} QueuedAppend(a: seq<Call>, b: seq<Call>)
    ensures Queued(a + b) == Queued(a) + Queued(b)
    decreases |b|
  {
    if b != [] {
      var n := |b| - 1;
      assert (a + b)[..|a| + n] == a + b[..n];
      assert (a + b)[|a| + n] == b[n];
      QueuedAppend(a, b[..n]);
    } else {
      assert a + b == a;
    }
  }

  /** The queue receives exactly the items enqueued. */
  lemma {:induction false} QueuedEnqueues(items: seq<WorkItem>)
    ensures Queued(Enqueues(items)) == items
    decreases |items|
  {
    if items != [] {
      var n := |items| - 1;
      var calls := Enqueues(items);
      assert calls[..n] == Enqueues(items[..n]);
      QueuedEnqueues(items[..n]);
      assert items[..n] + [items[n]] == items;
    }
  }

  /** The size test of the handlers: a tree needs one target, a vein or a field more than one. */
  predicate Proceeds(f: Feature, targets: seq<Block>) {
    if f == TreeFeller then |targets| > 0 else |targets| > 1
  }

  /** Calls that neither queue work nor show a notice. */
  predicate Quiet(calls: seq<Call>) {
    forall i :: 0 <= i < |calls| ==> !calls[i].Enqueue? && !calls[i].ShowTimed?
  }

  /** The tree feller's session location: the stump found, or the broken block when there is none. */
  function StumpLocation(stump: Option<Block>, origin: Block): Pos {
    if stump.Some? then stump.value.pos else origin.pos
  }

  /** The replant the tree feller schedules: at the stump, when replanting is on and a stump was found. */
  function Replant(p: PlayerId, stump: Option<Block>, logType: Material, replant: bool): seq<Call> {
    if replant && stump.Some? then [ScheduleReplant(p, stump.value, logType)] else []
  }

  /** What a handler does before its queue loop: cancel the break, start the session, mark the player active. */
  function Opening(f: Feature, e: BreakEvent, targets: seq<Block>, isLog: Material -> bool): (calls: seq<Call>)
    ensures calls != [] && calls[0] == CancelBreak && Quiet(calls)
  {
    var p := e.player;
    match f
    case TreeFeller => [CancelBreak, StartTreeFeller(p, e.block.material, StumpLocation(Stump(targets, isLog), e.block)), SetActive(p)]
    case VeinMiner => [CancelBreak, StartVeinMine(p, e.block.pos, e.block.material), SetActive(p)]
    case AutoFarm => [CancelBreak, SetActive(p)]
  }

  /**
   * What a handler does after its queue loop: the tree feller schedules the
   * replant at the stump (when replanting is on and a stump was found) and
   * clears the indicator; every handler then starts the work loop.
   */
  function Closing(f: Feature, e: BreakEvent, cfg: Settings, targets: seq<Block>, isLog: Material -> bool): (calls: seq<Call>)
    ensures Quiet(calls) && CancelBreak !in calls
    ensures calls != [] && calls[|calls| - 1] == EnsureLoop(e.player)
  {
    var p := e.player;
    match f
    case TreeFeller =>
      Replant(p, Stump(targets, isLog), e.block.material, cfg.treeFellerReplant) + [ClearIndicator(p), EnsureLoop(p)]
    case VeinMiner => [EnsureLoop(p)]
    case AutoFarm => [EnsureLoop(p)]
  }

  /**
   * `handleTreeFeller`, `handleVeinMiner`, `handleAutoFarm`: nothing when the
   * targets are too few; otherwise cancel the break, start the session, mark
   * the player active, queue one item per target and start the work loop.
   */
  function HandlerCalls(f: Feature, e: BreakEvent, cfg: Settings, targets: seq<Block>, isLog: Material -> bool): seq<Call> {
    if !Proceeds(f, targets) then []
    else Opening(f, e, targets, isLog) + Enqueues(WorkList(f, e.player, targets)) + Closing(f, e, cfg, targets, isLog)
  }

  /** `handleChunkClaim`'s feedback: shown only for a success or for reaching the limit. */
  function ClaimFeedback(p: PlayerId, result: ClaimResult, show: bool, current: int, max: int): (calls: seq<Call>)
    ensures calls != [] <==> show && (result == Success || result == AtLimit)
    ensures forall c :: c in calls ==> c.ShowTimed? && c.player == p
    ensures result == Success && show ==> calls == [ShowTimed(p, ClaimedNotice(current, max), 60)]
  {
    if !show then []
    else if result == Success then [ShowTimed(p, ClaimedNotice(current, max), 60)]
    else if result == AtLimit then [ShowTimed(p, LimitNotice, 40)]
    else []
  }

  /** The key of the chunk holding the broken block (`origin.getChunk()`). */
  function ChunkOf(b: Block): (k: ChunkKey)
    ensures k.worldName == b.pos.world
    ensures 16 * k.x <= b.pos.x < 16 * k.x + 16 && 16 * k.z <= b.pos.z < 16 * k.z + 16
  {
    KeyOfBlock(b.pos.world, b.pos.x, b.pos.z)
  }

  /** The farm path claims the chunk when the player sneaks and the chunk loader and claim-on-farm are on. */
  predicate ClaimsOnFarm(e: BreakEvent, cfg: Settings) {
    e.sneaking && cfg.chunkLoaderEnabled && cfg.chunkLoaderClaimOnFarm
  }

  /** The calls of one break event and the chunk loader's registry afterwards (`None`: no chunk loader). */
  datatype Reaction = Reaction(calls: seq<Call>, registry: Option<Registry>)

  /** `onBlockBreak(e)` end to end. */
  function OnBreak(active: bool, e: BreakEvent, cfg: Settings, col: Collectors, isLog: Material -> bool,
                   registry: Option<Registry>): Reaction
  {
    match RouteOf(active, e, cfg, col)
    case Busy => Reaction([], registry)
    case NoFeature => Reaction([], registry)
    case Handle(f) =>
      var handled := HandlerCalls(f, e, cfg, Targets(f, col), isLog);
      if f == AutoFarm && ClaimsOnFarm(e, cfg) && registry.Some? then
        var c := Claim(registry.value, e.player, ChunkOf(e.block), cfg.chunkLoaderEnabled, cfg.chunkLoaderMaxChunksPerPlayer);
        var feedback := ClaimFeedback(e.player, c.result, cfg.chunkLoaderShowClaimMessage,
                                      |Owned(c.after, e.player)|, cfg.chunkLoaderMaxChunksPerPlayer);
        Reaction(feedback + handled, Some(c.after))
      else Reaction(handled, registry)
  }

  /** A busy player's break is left entirely to the server: no call, no claim. */
  lemma BusyPlayerIgnored(e: BreakEvent, cfg: Settings, col: Collectors, isLog: Material -> bool, registry: Option<Registry>)
    ensures OnBreak(true, e, cfg, col, isLog, registry) == Reaction([], registry)
  {
  }

  lemma {:induction false} QueuedQuiet(calls: seq<Call>)
    requires Quiet(calls)
    ensures Queued(calls) == []
    decreases |calls|
  {
    if calls != [] {
      QueuedQuiet(calls[..|calls| - 1]);
    }
  }

  /** A handler's queued items: one per target when it proceeds, none otherwise. */
  lemma HandlerQueued(f: Feature, e: BreakEvent, cfg: Settings, targets: seq<Block>, isLog: Material -> bool)
    ensures Queued(HandlerCalls(f, e, cfg, targets, isLog)) ==
      (if Proceeds(f, targets) then WorkList(f, e.player, targets) else [])
  {
    if Proceeds(f, targets) {
      var head := Opening(f, e, targets, isLog);
      var w := WorkList(f, e.player, targets);
      var tail := Closing(f, e, cfg, targets, isLog);
      QueuedQuiet(head);
      QueuedQuiet(tail);
      QueuedEnqueues(w);
      QueuedAppend(head, Enqueues(w));
      QueuedAppend(head + Enqueues(w), tail);
    }
  }

  /** The calls of a handler that proceeds, written out feature by feature. */
  lemma HandlerCallsWhenProceeding(f: Feature, e: BreakEvent, cfg: Settings, targets: seq<Block>, isLog: Material -> bool)
    requires Proceeds(f, targets)
    ensures var p := e.player;
      var q := Enqueues(WorkList(f, p, targets));
      var stump := Stump(targets, isLog);
      HandlerCalls(f, e, cfg, targets, isLog) ==
        match f
        case TreeFeller =>
          [CancelBreak, StartTreeFeller(p, e.block.material, StumpLocation(stump, e.block)), SetActive(p)] + q
          + (Replant(p, stump, e.block.material, cfg.treeFellerReplant) + [ClearIndicator(p), EnsureLoop(p)])
        case VeinMiner => [CancelBreak, StartVeinMine(p, e.block.pos, e.block.material), SetActive(p)] + q + [EnsureLoop(p)]
        case AutoFarm => [CancelBreak, SetActive(p)] + q + [EnsureLoop(p)]
  {
  }

  /** The tree feller's trace assembled piece by piece, in the order its handler appends the pieces. */
  lemma TreeHandlerTrace(e: BreakEvent, cfg: Settings, targets: seq<Block>, isLog: Material -> bool,
                         stump: Option<Block>, before: seq<Call>)
    requires |targets| > 0 && stump == Stump(targets, isLog)
    ensures var p := e.player;
      before + [CancelBreak, StartTreeFeller(p, e.block.material, StumpLocation(stump, e.block)), SetActive(p)]
        + Enqueues(WorkList(TreeFeller, p, targets)) + Replant(p, stump, e.block.material, cfg.treeFellerReplant)
        + [ClearIndicator(p), EnsureLoop(p)]
      == before + HandlerCalls(TreeFeller, e, cfg, targets, isLog)
  {
    var p := e.player;
    HandlerCallsWhenProceeding(TreeFeller, e, cfg, targets, isLog);
    AppendFour(before, [CancelBreak, StartTreeFeller(p, e.block.material, StumpLocation(stump, e.block)), SetActive(p)],
               Enqueues(WorkList(TreeFeller, p, targets)),
               Replant(p, stump, e.block.material, cfg.treeFellerReplant), [ClearIndicator(p), EnsureLoop(p)]);
  }

  /** A handler cancels the break exactly when it proceeds, and never shows a notice. */
  lemma HandlerCallsKinds(f: Feature, e: BreakEvent, cfg: Settings, targets: seq<Block>, isLog: Material -> bool)
    ensures var h := HandlerCalls(f, e, cfg, targets, isLog);
      && (CancelBreak in h <==> Proceeds(f, targets))
      && (forall i :: 0 <= i < |h| ==> !h[i].ShowTimed?)
  {
    if Proceeds(f, targets) {
      var head := Opening(f, e, targets, isLog);
      var q := Enqueues(WorkList(f, e.player, targets));
      var tail := Closing(f, e, cfg, targets, isLog);
      var h := head + q + tail;
      assert h[0] == CancelBreak;
      assert CancelBreak !in q;
      forall i | 0 <= i < |h| ensures !h[i].ShowTimed? {
        if i < |head| {
          assert h[i] == head[i];
        } else if i < |head| + |q| {
          assert h[i] == q[i - |head|];
        } else {
          assert h[i] == tail[i - |head| - |q|];
        }
      }
    }
  }

  /** Claim feedback queues nothing and never cancels the break. */
  lemma FeedbackShape(p: PlayerId, result: ClaimResult, show: bool, current: int, max: int)
    ensures var fb := ClaimFeedback(p, result, show, current, max);
      Queued(fb) == [] && CancelBreak !in fb
  {
  }

  /**
   * Only the feature chosen by the dispatch queues work, even when its
   * collector gives too few targets: the next feature in line is never tried.
   */
  lemma OnlyRoutedFeatureQueues(active: bool, e: BreakEvent, cfg: Settings, col: Collectors, isLog: Material -> bool,
                                registry: Option<Registry>)
    ensures var r := OnBreak(active, e, cfg, col, isLog, registry);
      match RouteOf(active, e, cfg, col)
      case Handle(f) =>
        Queued(r.calls) == if Proceeds(f, Targets(f, col)) then WorkList(f, e.player, Targets(f, col)) else []
      case _ => r.calls == []
  {
    var route := RouteOf(active, e, cfg, col);
    if route.Handle? {
      var f := route.feature;
      var handled := HandlerCalls(f, e, cfg, Targets(f, col), isLog);
      HandlerQueued(f, e, cfg, Targets(f, col), isLog);
      HandlerCallsKinds(f, e, cfg, Targets(f, col), isLog);
      if f == AutoFarm && ClaimsOnFarm(e, cfg) && registry.Some? {
        var c := Claim(registry.value, e.player, ChunkOf(e.block), cfg.chunkLoaderEnabled, cfg.chunkLoaderMaxChunksPerPlayer);
        var feedback := ClaimFeedback(e.player, c.result, cfg.chunkLoaderShowClaimMessage,
                                      |Owned(c.after, e.player)|, cfg.chunkLoaderMaxChunksPerPlayer);
        FeedbackShape(e.player, c.result, cfg.chunkLoaderShowClaimMessage,
                      |Owned(c.after, e.player)|, cfg.chunkLoaderMaxChunksPerPlayer);
        QueuedAppend(feedback, handled);
      }
    }
  }

  /**
   * The break is cancelled exactly when a feature is chosen and its targets
   * are enough; when they are not, no session starts and nothing is queued,
   * so the server's own single-block break goes ahead.
   */
  lemma CancelledIffBulk(active: bool, e: BreakEvent, cfg: Settings, col: Collectors, isLog: Material -> bool,
                         registry: Option<Registry>)
    ensures var r := OnBreak(active, e, cfg, col, isLog, registry);
      var route := RouteOf(active, e, cfg, col);
      && (CancelBreak in r.calls <==> route.Handle? && Proceeds(route.feature, Targets(route.feature, col)))
      && (route.Handle? && !Proceeds(route.feature, Targets(route.feature, col)) ==>
            forall c :: c in r.calls ==> c.ShowTimed?)
  {
    var route := RouteOf(active, e, cfg, col);
    if route.Handle? {
      var f := route.feature;
      HandlerQueued(f, e, cfg, Targets(f, col), isLog);
      HandlerCallsKinds(f, e, cfg, Targets(f, col), isLog);
      if f == AutoFarm && ClaimsOnFarm(e, cfg) && registry.Some? {
        var c := Claim(registry.value, e.player, ChunkOf(e.block), cfg.chunkLoaderEnabled, cfg.chunkLoaderMaxChunksPerPlayer);
        FeedbackShape(e.player, c.result, cfg.chunkLoaderShowClaimMessage,
                      |Owned(c.after, e.player)|, cfg.chunkLoaderMaxChunksPerPlayer);
      }
    }
  }

  /**
   * The chunk loader's registry changes only on the farm path while sneaking
   * with the chunk loader and claim-on-farm on; there the claim is made
   * whether or not the field is big enough to farm.
   */
  lemma ClaimOnlyWhileFarming(active: bool, e: BreakEvent, cfg: Settings, col: Collectors, isLog: Material -> bool,
                              registry: Option<Registry>)
    ensures var r := OnBreak(active, e, cfg, col, isLog, registry);
      r.registry != registry ==>
        RouteOf(active, e, cfg, col) == Handle(AutoFarm) && ClaimsOnFarm(e, cfg)
    ensures RouteOf(active, e, cfg, col) == Handle(AutoFarm) && ClaimsOnFarm(e, cfg) && registry.Some? ==>
      OnBreak(active, e, cfg, col, isLog, registry).registry ==
        Some(Claim(registry.value, e.player, ChunkOf(e.block), true, cfg.chunkLoaderMaxChunksPerPlayer).after)
  {
  }

  /**
   * Claim feedback appears only for `SUCCESS` (with the player's new count)
   * or `AT_LIMIT`; `ALREADY_CLAIMED`, `CLAIMED_BY_OTHER` and
   * `FEATURE_DISABLED` stay silent.
   */
  lemma FeedbackOnlySuccessOrLimit(active: bool, e: BreakEvent, cfg: Settings, col: Collectors, isLog: Material -> bool,
                                   s: Registry)
    requires RouteOf(active, e, cfg, col) == Handle(AutoFarm) && ClaimsOnFarm(e, cfg)
    ensures var c := Claim(s, e.player, ChunkOf(e.block), true, cfg.chunkLoaderMaxChunksPerPlayer);
      var r := OnBreak(active, e, cfg, col, isLog, Some(s));
      && ((exists i :: 0 <= i < |r.calls| && r.calls[i].ShowTimed?) <==>
            cfg.chunkLoaderShowClaimMessage && c.result in {Success, AtLimit})
      && (c.result == Success && cfg.chunkLoaderShowClaimMessage ==>
            r.calls[0] == ShowTimed(e.player, ClaimedNotice(|Owned(s, e.player)| + 1, cfg.chunkLoaderMaxChunksPerPlayer), 60))
  {
    var c := Claim(s, e.player, ChunkOf(e.block), true, cfg.chunkLoaderMaxChunksPerPlayer);
    var feedback := ClaimFeedback(e.player, c.result, cfg.chunkLoaderShowClaimMessage,
                                  |Owned(c.after, e.player)|, cfg.chunkLoaderMaxChunksPerPlayer);
    var handled := HandlerCalls(AutoFarm, e, cfg, col.farmTargets, isLog);
    var r := OnBreak(active, e, cfg, col, isLog, Some(s));
    assert r.calls == feedback + handled;
    HandlerCallsKinds(AutoFarm, e, cfg, col.farmTargets, isLog);
    assert forall i :: |feedback| <= i < |r.calls| ==> r.calls[i] == handled[i - |feedback|];
    if feedback != [] {
      assert r.calls[0] == feedback[0];
    }
  }

  /**
   * When the tree feller proceeds, the session's stump is the first lowest
   * log among the targets, or the broken block when there is no log.
   */
  lemma TreeSessionStump(active: bool, e: BreakEvent, cfg: Settings, col: Collectors, isLog: Material -> bool,
                         registry: Option<Registry>)
    requires RouteOf(active, e, cfg, col) == Handle(TreeFeller) && |col.treeTargets| > 0
    ensures var calls := OnBreak(active, e, cfg, col, isLog, registry).calls;
      && calls[0] == CancelBreak
      && calls[1].StartTreeFeller?
      && (Stump(col.treeTargets, isLog).None? ==> calls[1].stump == e.block.pos)
      && (Stump(col.treeTargets, isLog).Some? ==>
            exists i :: FirstLowestLogAt(col.treeTargets, isLog, i) && calls[1].stump == col.treeTargets[i].pos)
  {
    ScanStumpFindsFirstLowestLog(col.treeTargets, isLog);
  }
}
