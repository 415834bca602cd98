# EssentialUtils chunk loader and activation listener, in Dafny

EssentialUtils is a Minecraft server plugin. It has two parts modelled here.

- **`ChunkLoaderFeature`** keeps chunks loaded for the players who claimed them.
  - It holds a map from each player to the set of chunk keys the player has claimed (`playerChunks`).
  - It also holds the global set of claimed keys (`loadedChunks`).
  - `claimChunk` enforces a per-player limit and never gives a key held by one player to another. Loading saved claims checks neither.
  - Claims are read from the saved configuration at start-up.
  - A chunk key is stored as the text `world:x:z`.
- **`ActivationListener`** reacts when a player breaks a block. It chooses at most one feature:
  - tree feller: the player is sneaking and holds an axe;
  - vein miner: the player holds a pickaxe;
  - auto farm: the player holds a hoe.

  If the chosen feature has enough targets, the listener cancels the vanilla break, starts a session, queues one work item per target block and starts the player's work loop. A player who sneaks while farming also claims the chunk that holds the broken crop. That can be a neighbour of the chunk the player stands in.

The files, from the bottom up:

| file | module | contents |
|---|---|---|
| `java_text.dfy` | `Optional`, `JavaText` | The Java library behaviour the core relies on: `Integer.toString`, `Integer.parseInt` (32-bit range, optional sign), `String.split(":")` (trailing empty fields dropped) and `endsWith`. |
| `chunk_key.dfy` | `ChunkKeys` | The `ChunkKey` record, the block-to-chunk shift `>> 4`, `toString` and `fromString`, and their round trip. |
| `claim_registry.dfy` | `ClaimRegistry` | The registry as a value: `claimChunk`, `unclaimChunk` and `loadChunkClaims` as transitions, plus the invariant (owned sets are pairwise disjoint, and `loadedChunks` is their union) and the lemmas that these transitions keep it. |
| `chunk_loader.dfy` | `ChunkLoader` | The class `ChunkLoaderFeature`. Its two fields are updated in place, and each method is proved to move them exactly as the matching transition does. |
| `break_routing.dfy` | `BreakRouting` | What a break event should do, as functions: the dispatch, the per-feature work lists and their delays, the stump choice, each handler's sequence of calls, the claim feedback, and `OnBreak` for a whole event. It also holds the lemmas about them. |
| `activation_listener.dfy` | `Listener` | The class `ActivationListener`. Its handlers run the source's loops and are proved to produce exactly the calls that `BreakRouting` specifies. |

**How the listener's collaborators are modelled:**

- The calls the listener makes into the state manager, the work service and the action bar are appended to the field `calls`, as `Call` values.
  - Cancelling the event is recorded too, as `CancelBreak`.
- The three collectors are inputs, in a `Collectors` record: whether each one can trigger, and the targets it returns.
- `Materials.isLog` is a function parameter.
- The configuration is an input, as a `Settings` record.

All source paths below are relative to the repository root.

## Model

| member | source | states |
|---|---|---|
| JavaText.NatToString | src/main/java/net/ppekkungz/essentialUtils/features/chunkloader/ChunkLoaderFeature.java:348-350 | The decimal text of a natural number is non-empty and all digits. It has no leading zero, except for the number 0. |
| JavaText.DigitsValueOfNatToString | src/main/java/net/ppekkungz/essentialUtils/features/chunkloader/ChunkLoaderFeature.java:348-356 | Reading back the digits of a number's decimal text gives the number. |
| JavaText.ParseIntOfIntToString | src/main/java/net/ppekkungz/essentialUtils/features/chunkloader/ChunkLoaderFeature.java:348-356 | `Integer.parseInt` accepts the text `Integer.toString` writes for every 32-bit int, and returns that int. |
| JavaText.IntToStringAlphabet | src/main/java/net/ppekkungz/essentialUtils/features/chunkloader/ChunkLoaderFeature.java:348-350 | An int's text contains only digits and `-`. In particular it never contains the `:` separator. |
| JavaText.SplitFields | src/main/java/net/ppekkungz/essentialUtils/features/chunkloader/ChunkLoaderFeature.java:353 | Splitting at a separator gives at least one field, and no field contains the separator. Text without the separator is its own single field. |
| JavaText.JoinSplitFields | src/main/java/net/ppekkungz/essentialUtils/features/chunkloader/ChunkLoaderFeature.java:353 | Joining the fields back with the separator gives the original text. |
| JavaText.SplitFieldsFirst | src/main/java/net/ppekkungz/essentialUtils/features/chunkloader/ChunkLoaderFeature.java:353 | Text that starts with a separator-free field and a separator splits into that field followed by the split of the rest. |
| JavaText.DropTrailingEmpty | src/main/java/net/ppekkungz/essentialUtils/features/chunkloader/ChunkLoaderFeature.java:353 | `split` keeps a prefix of the fields. Every field it drops is empty, and the last field it keeps is not empty. |
| JavaText.Split | src/main/java/net/ppekkungz/essentialUtils/features/chunkloader/ChunkLoaderFeature.java:353 | No field `split(":")` returns contains the separator. Text without the separator comes back as its single field. Otherwise the last field returned, if any, is not empty. |
| JavaText.DropOneTrailingEmpty | src/main/java/net/ppekkungz/essentialUtils/features/chunkloader/ChunkLoaderFeature.java:353 | A single empty field after a non-empty last field is dropped, and nothing more. |
| JavaText.SplitJoin | src/main/java/net/ppekkungz/essentialUtils/features/chunkloader/ChunkLoaderFeature.java:353 | `split` loses only separators at the end of the text: the returned fields joined with the separator, followed by some number of separators, give back the text. |
| JavaText.IntToString | src/main/java/net/ppekkungz/essentialUtils/features/chunkloader/ChunkLoaderFeature.java:349 | `Integer.toString`: `-` followed by the digits of the magnitude for a negative int, the digits otherwise. `ParseIntOfIntToString` and `IntToStringAlphabet` state its properties. |
| JavaText.ParseInt | src/main/java/net/ppekkungz/essentialUtils/features/chunkloader/ChunkLoaderFeature.java:356 | `Integer.parseInt`: an optional `+` or `-`, then at least one ASCII digit, with the value in the 32-bit range; anything else is the `NumberFormatException` case. `ParseIntOfIntToString` and `ParseIntPlusSign` state its properties. |
| ChunkKeys.BlockToChunk | src/main/java/net/ppekkungz/essentialUtils/features/chunkloader/ChunkLoaderFeature.java:343-345 | `>> 4` of a block coordinate is the chunk `c` with `16c <= b < 16c + 16`, also for negative coordinates. |
| ChunkKeys.BlockToChunkUnique | src/main/java/net/ppekkungz/essentialUtils/features/chunkloader/ChunkLoaderFeature.java:343-345 | That chunk is the only one whose sixteen blocks contain `b`. |
| ChunkKeys.KeyOfBlock | src/main/java/net/ppekkungz/essentialUtils/features/chunkloader/ChunkLoaderFeature.java:343-345 | The key of a block location keeps the world name, and the chunk it names contains the block in both x and z. |
| ChunkKeys.ToString | src/main/java/net/ppekkungz/essentialUtils/features/chunkloader/ChunkLoaderFeature.java:347-350 | `worldName:x:z`. `RoundTrip` and `ToStringInjective` state its properties. |
| ChunkKeys.FromString | src/main/java/net/ppekkungz/essentialUtils/features/chunkloader/ChunkLoaderFeature.java:352-360 | A key parsed from text never has a `:` in its world name. What is accepted and what is rejected is stated by `RoundTrip`, `FromStringAccepts`, `FromStringTwoFields`, `FromStringFourFields`, `FromStringBadCoordinate` and `FromStringBadLastCoordinate`. |
| ChunkKeys.SplitThreeFields | src/main/java/net/ppekkungz/essentialUtils/features/chunkloader/ChunkLoaderFeature.java:348-353 | `w:x:z` splits into exactly the three fields `w`, `x`, `z`. |
| ChunkKeys.RoundTrip | src/main/java/net/ppekkungz/essentialUtils/features/chunkloader/ChunkLoaderFeature.java:347-360 | `fromString(toString(k)) == k` for every key whose world name has no `:`. |
| ChunkKeys.ParsedKeyReprints | src/main/java/net/ppekkungz/essentialUtils/features/chunkloader/ChunkLoaderFeature.java:347-360 | A key read from the saved text is written back and read again unchanged, so a save followed by a load keeps it. |
| ChunkKeys.ToStringInjective | src/main/java/net/ppekkungz/essentialUtils/features/chunkloader/ChunkLoaderFeature.java:347-350 | Two keys with colon-free world names that print the same are the same key. |
| ChunkKeys.FromStringTwoFields | src/main/java/net/ppekkungz/essentialUtils/features/chunkloader/ChunkLoaderFeature.java:354 | Text with only two fields is rejected. |
| ChunkKeys.FromStringFourFields | src/main/java/net/ppekkungz/essentialUtils/features/chunkloader/ChunkLoaderFeature.java:354 | Text with four non-empty fields is rejected. |
| ChunkKeys.FromStringBadCoordinate | src/main/java/net/ppekkungz/essentialUtils/features/chunkloader/ChunkLoaderFeature.java:355-359 | Text with three fields is rejected when its x field is not a 32-bit int. |
| ChunkKeys.FromStringBadLastCoordinate | src/main/java/net/ppekkungz/essentialUtils/features/chunkloader/ChunkLoaderFeature.java:355-359 | Text with three fields is rejected when its z field is not a 32-bit int. |
| ChunkKeys.FromStringAccepts | src/main/java/net/ppekkungz/essentialUtils/features/chunkloader/ChunkLoaderFeature.java:352-360 | The inverse of `RoundTrip`. Every accepted text is the key's world name, then `:`, a text `parseInt` reads as x, `:`, a text it reads as z, and then nothing but separators. |
| ChunkKeys.SplitThreeFieldsTrailing | src/main/java/net/ppekkungz/essentialUtils/features/chunkloader/ChunkLoaderFeature.java:353 | `w:x:z:` still splits into three fields, because the trailing empty field is dropped. |
| ChunkKeys.FromStringTrailingSeparator | src/main/java/net/ppekkungz/essentialUtils/features/chunkloader/ChunkLoaderFeature.java:352-360 | A key's text followed by one extra `:` is still accepted as that key. |
| ChunkKeys.ParseIntPlusSign | src/main/java/net/ppekkungz/essentialUtils/features/chunkloader/ChunkLoaderFeature.java:356 | A coordinate written with a leading `+` is accepted. |
| ClaimRegistry.Claim | src/main/java/net/ppekkungz/essentialUtils/features/chunkloader/ChunkLoaderFeature.java:49-87 | The result, both ways for each case, in the source's order of checks: `FEATURE_DISABLED` exactly when disabled; `ALREADY_CLAIMED` exactly when the player owns the key; `CLAIMED_BY_OTHER` exactly when another player owns it; `AT_LIMIT` exactly when the player holds `max` or more. Only `SUCCESS` changes any owned set: the player's set grows by the key (to at most `max` keys), `loadedChunks` gains the key, and other players are untouched. Every enabled call leaves the player an entry. |
| ClaimRegistry.Unclaim | src/main/java/net/ppekkungz/essentialUtils/features/chunkloader/ChunkLoaderFeature.java:92-115 | The key is removed exactly when the player owns it. Otherwise nothing changes. On removal the key leaves the player's set and `loadedChunks`, other players are untouched, and the player's entry disappears together with its last key. |
| ClaimRegistry.ExclusiveOwnership | src/main/java/net/ppekkungz/essentialUtils/features/chunkloader/ChunkLoaderFeature.java:63-68 | Under the invariant, a key belongs to at most one player. |
| ClaimRegistry.LoadedMeansOwned | src/main/java/net/ppekkungz/essentialUtils/features/chunkloader/ChunkLoaderFeature.java:128-131 | Under the invariant, a key is in `loadedChunks` exactly when some player owns it. |
| ClaimRegistry.AllClaimedByOwned | src/main/java/net/ppekkungz/essentialUtils/features/chunkloader/ChunkLoaderFeature.java:151-154 | A key is in the union of the owned sets exactly when some player's `getPlayerChunks` contains it. |
| ClaimRegistry.SameClaimsValid | src/main/java/net/ppekkungz/essentialUtils/features/chunkloader/ChunkLoaderFeature.java:58-61 | The invariant survives the empty entry that `computeIfAbsent` leaves behind. |
| ClaimRegistry.ClaimPreservesValid | src/main/java/net/ppekkungz/essentialUtils/features/chunkloader/ChunkLoaderFeature.java:49-87 | Every claim, whatever its result, keeps owned sets disjoint and `loadedChunks` equal to their union. |
| ClaimRegistry.UnclaimPreservesValid | src/main/java/net/ppekkungz/essentialUtils/features/chunkloader/ChunkLoaderFeature.java:92-115 | Every unclaim keeps the same invariant. |
| ClaimRegistry.ClaimKeepsLimit | src/main/java/net/ppekkungz/essentialUtils/features/chunkloader/ChunkLoaderFeature.java:70-74 | If every player is within the limit, every player is still within it after any claim. |
| ClaimRegistry.ClaimThenUnclaim | src/main/java/net/ppekkungz/essentialUtils/features/chunkloader/ChunkLoaderFeature.java:49-115 | Unclaiming a key that was just claimed removes it again. It restores every owned set and `loadedChunks`, and restores the map exactly unless the player started with an empty entry. |
| ClaimRegistry.OwnedDeterminesMap | src/main/java/net/ppekkungz/essentialUtils/features/chunkloader/ChunkLoaderFeature.java:151-154 | Two maps with the same players and the same `getPlayerChunks` answers are equal. |
| ClaimRegistry.ClaimTwice | src/main/java/net/ppekkungz/essentialUtils/features/chunkloader/ChunkLoaderFeature.java:58-61 | Claiming a key again right after a successful claim answers `ALREADY_CLAIMED` and changes nothing. |
| ClaimRegistry.ClaimAtLimit | src/main/java/net/ppekkungz/essentialUtils/features/chunkloader/ChunkLoaderFeature.java:70-74 | A player holding `max` keys gets `AT_LIMIT` for a free key, and the claims and the total stay as they were. |
| ClaimRegistry.ClaimCountSumRemove | src/main/java/net/ppekkungz/essentialUtils/features/chunkloader/ChunkLoaderFeature.java:136-139 | The sum of the players' claim counts splits into one player's count plus the sum over the rest. |
| ClaimRegistry.TotalIsSumOfCounts | src/main/java/net/ppekkungz/essentialUtils/features/chunkloader/ChunkLoaderFeature.java:136-161 | With disjoint sets, the size of the union equals the sum of the players' claim counts. |
| ClaimRegistry.ParseKeys | src/main/java/net/ppekkungz/essentialUtils/features/chunkloader/ChunkLoaderFeature.java:244-250 | The keys read from a saved list are exactly the entries that `fromString` accepts. |
| ClaimRegistry.ParseKeysStep | src/main/java/net/ppekkungz/essentialUtils/features/chunkloader/ChunkLoaderFeature.java:244-250 | Reading one more entry adds that entry's key, or nothing when the entry is rejected. |
| ClaimRegistry.LoadEntry | src/main/java/net/ppekkungz/essentialUtils/features/chunkloader/ChunkLoaderFeature.java:238-258 | One entry of `loadChunkClaims`. An entry whose name is not a UUID changes nothing. Otherwise its parsed keys join `loadedChunks`, and a non-empty parsed set replaces the player's entry. `ChunkLoaderFeature.LoadSavedEntry` is proved to do exactly this. |
| ClaimRegistry.LoadAll | src/main/java/net/ppekkungz/essentialUtils/features/chunkloader/ChunkLoaderFeature.java:232-265 | After loading, no player has an empty entry, and every owned key is in `loadedChunks`. |
| ClaimRegistry.LoadAllGrows | src/main/java/net/ppekkungz/essentialUtils/features/chunkloader/ChunkLoaderFeature.java:244-250 | Loading one more entry keeps every key already loaded, and adds that entry's keys when its name is a UUID. |
| ClaimRegistry.LoadAllLoadsEveryKey | src/main/java/net/ppekkungz/essentialUtils/features/chunkloader/ChunkLoaderFeature.java:238-258 | Completeness of loading: every key `fromString` accepts from the list of an entry whose name is a UUID ends up in `loadedChunks`. |
| ClaimRegistry.LoadAllOwnedStep | src/main/java/net/ppekkungz/essentialUtils/features/chunkloader/ChunkLoaderFeature.java:252-254 | One more entry replaces a player's set when it names that player with at least one readable key, and leaves the set alone otherwise. |
| ClaimRegistry.LoadAllLastListWins | src/main/java/net/ppekkungz/essentialUtils/features/chunkloader/ChunkLoaderFeature.java:238-258 | The last entry naming a player with at least one readable key decides that player's loaded set: `put` overwrites earlier lists, and later lists with no readable key change nothing. |
| ClaimRegistry.LoadedKeysFromLists | src/main/java/net/ppekkungz/essentialUtils/features/chunkloader/ChunkLoaderFeature.java:238-258 | Every loaded key comes from the list of an entry whose name is a UUID. |
| ClaimRegistry.LoadedEntryFromList | src/main/java/net/ppekkungz/essentialUtils/features/chunkloader/ChunkLoaderFeature.java:238-258 | Every loaded player comes from a saved entry under that player's name, and its set consists of keys read from that entry's list. |
| ClaimRegistry.LoadEntryValid | src/main/java/net/ppekkungz/essentialUtils/features/chunkloader/ChunkLoaderFeature.java:238-258 | Loading an entry for a new player whose keys are all free keeps the invariant. |
| ClaimRegistry.LoadAllValid | src/main/java/net/ppekkungz/essentialUtils/features/chunkloader/ChunkLoaderFeature.java:232-265 | A load in which players are distinct and lists are disjoint yields a registry satisfying the invariant. |
| ChunkLoader.ChunkLoaderFeature.constructor | src/main/java/net/ppekkungz/essentialUtils/features/chunkloader/ChunkLoaderFeature.java:34-43 | The fields after construction are the registry loaded from the saved entries. |
| ChunkLoader.ChunkLoaderFeature.LoadSavedEntry | src/main/java/net/ppekkungz/essentialUtils/features/chunkloader/ChunkLoaderFeature.java:238-258 | One loop pass of `loadChunkClaims` moves the fields exactly as `LoadEntry`. |
| ChunkLoader.ChunkLoaderFeature.ClaimChunk | src/main/java/net/ppekkungz/essentialUtils/features/chunkloader/ChunkLoaderFeature.java:49-87 | The returned result and the new fields are exactly those of `Claim` on the old fields. |
| ChunkLoader.ChunkLoaderFeature.ClaimedByAnother | src/main/java/net/ppekkungz/essentialUtils/features/chunkloader/ChunkLoaderFeature.java:63-68 | The loop over all entries finds another owner exactly when some other player's set holds the key. |
| ChunkLoader.ChunkLoaderFeature.UnclaimChunk | src/main/java/net/ppekkungz/essentialUtils/features/chunkloader/ChunkLoaderFeature.java:92-115 | The returned flag and the new fields are exactly those of `Unclaim` on the old fields. |
| ChunkLoader.ChunkLoaderFeature.IsClaimedBy | src/main/java/net/ppekkungz/essentialUtils/features/chunkloader/ChunkLoaderFeature.java:120-123 | The answer is true exactly when the key is in the player's set. Under the invariant, the key is then loaded and no other player owns it. |
| ChunkLoader.ChunkLoaderFeature.IsClaimed | src/main/java/net/ppekkungz/essentialUtils/features/chunkloader/ChunkLoaderFeature.java:128-131 | Under the invariant, the answer is true exactly when some player owns the key. |
| ChunkLoader.ChunkLoaderFeature.GetClaimedCount | src/main/java/net/ppekkungz/essentialUtils/features/chunkloader/ChunkLoaderFeature.java:136-139 | The count is the size of the player's set. It is 0 exactly when the player owns no key. |
| ChunkLoader.ChunkLoaderFeature.GetPlayerChunks | src/main/java/net/ppekkungz/essentialUtils/features/chunkloader/ChunkLoaderFeature.java:151-154 | The returned set holds exactly the keys `isClaimedBy` confirms, and its size is the claim count. |
| ChunkLoader.ChunkLoaderFeature.GetTotalLoadedChunks | src/main/java/net/ppekkungz/essentialUtils/features/chunkloader/ChunkLoaderFeature.java:159-161 | Under the invariant, the total is the sum of all players' claim counts. |
| BreakRouting.ToolsExclusive | src/main/java/net/ppekkungz/essentialUtils/listener/ActivationListener.java:71-81 | No item is two kinds of tool: a pickaxe is neither an axe nor a hoe, and an axe is not a hoe. |
| BreakRouting.IsAxe | src/main/java/net/ppekkungz/essentialUtils/listener/ActivationListener.java:71-73 | `isAxe`: a held item whose material name ends in `_AXE`. `ToolsExclusive` and `RouteFollowsTool` state its properties. |
| BreakRouting.IsPick | src/main/java/net/ppekkungz/essentialUtils/listener/ActivationListener.java:75-77 | `isPick`: a held item whose material name ends in `_PICKAXE`. |
| BreakRouting.IsHoe | src/main/java/net/ppekkungz/essentialUtils/listener/ActivationListener.java:79-81 | `isHoe`: a held item whose material name ends in `_HOE`. |
| BreakRouting.RouteOf | src/main/java/net/ppekkungz/essentialUtils/listener/ActivationListener.java:117-156 | The event is ignored exactly when the player is active. A chosen feature passed its config, sneak and tool gate and its collector's `canTrigger`, and no feature earlier in the order did. No feature is chosen exactly when none qualifies. |
| BreakRouting.RouteFollowsTool | src/main/java/net/ppekkungz/essentialUtils/listener/ActivationListener.java:129-155 | The vein miner runs only with a pickaxe and the auto farm only with a hoe. An axe can lead only to the tree feller. |
| BreakRouting.ItemFor | src/main/java/net/ppekkungz/essentialUtils/listener/ActivationListener.java:185-192 | The `WorkItem` for one target is always for the breaking player and that block, with a delay no larger than its index. It is a crop item exactly on the farm path. `WorkList`, `TreeStagger`, `VeinAtMostFourPerTick` and `FarmNoStagger` state the per-feature delays. |
| BreakRouting.WorkList | src/main/java/net/ppekkungz/essentialUtils/listener/ActivationListener.java:183-194 | One work item per target, in target order: leaves/log items with delay `idx` for trees, ore items with delay `idx / 4` for veins, crop items with delay 0 for farms. |
| BreakRouting.WorkListCoversTargets | src/main/java/net/ppekkungz/essentialUtils/listener/ActivationListener.java:231-236 | Every target gets exactly one item, for that block and that player. |
| BreakRouting.TreeStagger | src/main/java/net/ppekkungz/essentialUtils/listener/ActivationListener.java:183-194 | Tree items are delayed by their index, so the delays strictly increase. |
| BreakRouting.VeinStaggerMonotone | src/main/java/net/ppekkungz/essentialUtils/listener/ActivationListener.java:231-236 | Vein delays never decrease along the list. |
| BreakRouting.VeinAtMostFourPerTick | src/main/java/net/ppekkungz/essentialUtils/listener/ActivationListener.java:231-236 | At most four ores share any one delay. |
| BreakRouting.FarmNoStagger | src/main/java/net/ppekkungz/essentialUtils/listener/ActivationListener.java:257-259 | Every crop item is a `breakCrop` for its target, with no delay. |
| BreakRouting.ScanStump | src/main/java/net/ppekkungz/essentialUtils/listener/ActivationListener.java:294-308 | The `findStump` scan (`best`, `bestY`) over the targets. `ScanStumpFindsFirstLowestLog` states what it finds. |
| BreakRouting.Stump | src/main/java/net/ppekkungz/essentialUtils/listener/ActivationListener.java:294-308 | The stump `findStump` returns. `TreeSessionStump` and `Listener.ActivationListener.FindStump` state which block it is. |
| BreakRouting.ScanStumpFindsFirstLowestLog | src/main/java/net/ppekkungz/essentialUtils/listener/ActivationListener.java:294-308 | The stump scan picks nothing exactly when no log lies below `Integer.MAX_VALUE`. Otherwise it picks the first log of least Y, with `bestY` equal to its Y. |
| BreakRouting.Enqueues | src/main/java/net/ppekkungz/essentialUtils/listener/ActivationListener.java:183-194 | One `queue(p).add` call per item, in order. |
| BreakRouting.WorkQueueStep | src/main/java/net/ppekkungz/essentialUtils/listener/ActivationListener.java:183-194 | One more loop pass appends exactly the next target's item to the queue calls. |
| BreakRouting.TraceQueueStep | src/main/java/net/ppekkungz/essentialUtils/listener/ActivationListener.java:183-194 | The same step, read on a trace that has some prefix in front. |
| BreakRouting.QueuedAppend | src/main/java/net/ppekkungz/essentialUtils/listener/ActivationListener.java:183-194 | The items queued by two stretches of calls are those of the first followed by those of the second. |
| BreakRouting.QueuedEnqueues | src/main/java/net/ppekkungz/essentialUtils/listener/ActivationListener.java:183-194 | Enqueuing a list of items queues exactly that list. |
| BreakRouting.Opening | src/main/java/net/ppekkungz/essentialUtils/listener/ActivationListener.java:170-180 | A handler that proceeds first cancels the break, and its opening queues nothing. |
| BreakRouting.Closing | src/main/java/net/ppekkungz/essentialUtils/listener/ActivationListener.java:197-210 | A handler's closing calls queue nothing directly, never cancel, and end by starting the work loop. |
| BreakRouting.HandlerCalls | src/main/java/net/ppekkungz/essentialUtils/listener/ActivationListener.java:163-262 | The calls of one handler: nothing when its targets are too few, otherwise opening, one enqueue per work item, closing. `HandlerQueued` and `HandlerCallsKinds` state its properties. |
| BreakRouting.ClaimFeedback | src/main/java/net/ppekkungz/essentialUtils/listener/ActivationListener.java:274-286 | Feedback is shown exactly when messages are on and the result is `SUCCESS` or `AT_LIMIT`, and only to the player. For `SUCCESS` it is the count/max notice for 60 ticks. |
| BreakRouting.ChunkOf | src/main/java/net/ppekkungz/essentialUtils/listener/ActivationListener.java:271 | `origin.getChunk()`: the key of the chunk in the broken block's world whose sixteen-block columns contain the block in x and z. |
| BreakRouting.ClaimsOnFarm | src/main/java/net/ppekkungz/essentialUtils/listener/ActivationListener.java:148-150 | The farm path claims a chunk when the player sneaks with the chunk loader and claim-on-farm both on. |
| BreakRouting.OnBreak | src/main/java/net/ppekkungz/essentialUtils/listener/ActivationListener.java:117-156 | `onBlockBreak` end to end: the calls made and the chunk loader's registry afterwards. `BusyPlayerIgnored`, `OnlyRoutedFeatureQueues`, `CancelledIffBulk`, `ClaimOnlyWhileFarming`, `FeedbackOnlySuccessOrLimit` and `TreeSessionStump` state its properties. |
| BreakRouting.BusyPlayerIgnored | src/main/java/net/ppekkungz/essentialUtils/listener/ActivationListener.java:124-126 | The break of an active player makes no call and claims nothing. |
| BreakRouting.QueuedQuiet | src/main/java/net/ppekkungz/essentialUtils/listener/ActivationListener.java:170-180 | Calls that do not enqueue queue nothing. |
| BreakRouting.HandlerQueued | src/main/java/net/ppekkungz/essentialUtils/listener/ActivationListener.java:163-262 | A handler queues the work list of its targets when it proceeds and nothing otherwise. It proceeds with at least one target for trees and at least two for veins and farms. |
| BreakRouting.HandlerCallsKinds | src/main/java/net/ppekkungz/essentialUtils/listener/ActivationListener.java:163-262 | A handler cancels the break exactly when it proceeds, and it never shows a timed notice. |
| BreakRouting.FeedbackShape | src/main/java/net/ppekkungz/essentialUtils/listener/ActivationListener.java:267-287 | Claim feedback queues nothing and never cancels the break. |
| BreakRouting.OnlyRoutedFeatureQueues | src/main/java/net/ppekkungz/essentialUtils/listener/ActivationListener.java:117-156 | Only the chosen feature queues work: its full work list when it proceeds, nothing when its targets are too few. The next feature is not tried. Without a choice, nothing is called. |
| BreakRouting.CancelledIffBulk | src/main/java/net/ppekkungz/essentialUtils/listener/ActivationListener.java:117-262 | The break is cancelled exactly when a feature is chosen and proceeds. When the chosen feature does not proceed, the only calls are claim notices. |
| BreakRouting.ClaimOnlyWhileFarming | src/main/java/net/ppekkungz/essentialUtils/listener/ActivationListener.java:145-155 | The claims change only on the farm path while sneaking with the chunk loader and claim-on-farm on. There the chunk of the broken block is claimed, even when the field is too small to farm. |
| BreakRouting.FeedbackOnlySuccessOrLimit | src/main/java/net/ppekkungz/essentialUtils/listener/ActivationListener.java:267-287 | On the claiming farm path, a notice appears exactly when messages are on and the claim result is `SUCCESS` or `AT_LIMIT`. A success notice comes first and carries the player's new count (old count + 1). |
| BreakRouting.TreeSessionStump | src/main/java/net/ppekkungz/essentialUtils/listener/ActivationListener.java:163-180 | A tree session starts at the first lowest log among the targets, or at the broken block when there is no log. |
| Listener.ActivationListener.constructor | src/main/java/net/ppekkungz/essentialUtils/listener/ActivationListener.java:53-69 | The listener holds the given chunk loader (possibly none) and has made no call yet. |
| Listener.ActivationListener.OnBlockBreak | src/main/java/net/ppekkungz/essentialUtils/listener/ActivationListener.java:117-156 | The calls made are exactly those of `OnBreak`, and the chunk loader's fields end as the registry `OnBreak` gives. |
| Listener.ActivationListener.HandleTreeFeller | src/main/java/net/ppekkungz/essentialUtils/listener/ActivationListener.java:163-211 | The calls made are exactly the tree feller's handler calls. |
| Listener.ActivationListener.HandleVeinMiner | src/main/java/net/ppekkungz/essentialUtils/listener/ActivationListener.java:216-239 | The calls made are exactly the vein miner's handler calls. |
| Listener.ActivationListener.HandleAutoFarm | src/main/java/net/ppekkungz/essentialUtils/listener/ActivationListener.java:244-262 | The calls made are exactly the auto farm's handler calls. |
| Listener.ActivationListener.HandleChunkClaim | src/main/java/net/ppekkungz/essentialUtils/listener/ActivationListener.java:267-287 | Without a chunk loader, nothing happens. Otherwise the block's chunk is claimed as `Claim` specifies, and the feedback shown is `ClaimFeedback` with the player's new count. |
| Listener.ActivationListener.FindStump | src/main/java/net/ppekkungz/essentialUtils/listener/ActivationListener.java:294-308 | Returns none exactly when no target is a log below `Integer.MAX_VALUE`. Otherwise returns the first log of least Y. |
| Listener.ActivationListener.OnQuit | src/main/java/net/ppekkungz/essentialUtils/listener/ActivationListener.java:312-318 | Quitting cleans up the action bar, stops the work loop and resets the player's state, in that order. |

## Left out

- Chunk tickets are not modelled: `addChunkTicket`, `removeChunkTicket`, `reapplyAllTickets`, `validateChunks`, `startValidationLoop` and `shutdown`. They call the server's world API, and the claim bookkeeping does not depend on them.
- `saveChunkClaims` and the configuration file are not modelled, because they are file I/O.
  - Loading starts from a list of saved entries. Each entry has a player, or none when the name is not a UUID, and a list of key strings.
  - The text format of keys, and its round trip, is modelled in `ChunkKeys`.
- ClaimRegistry.LoadAllValid: the invariant after loading is proved only for saves with distinct players and disjoint lists. A hand-edited file that gives one key to two players loads into a registry that breaks the invariant, exactly as the source does.
- Concurrency is not modelled, including the `ConcurrentHashMap` fields and the interleaving of events. Every operation runs to completion on its own.
- JavaText.ParseInt: accepts ASCII digits only. `Integer.parseInt` also accepts digits from other Unicode scripts.
- ChunkLoader.ChunkLoaderFeature.GetClaimedCount: does not model 32-bit overflow of the counts. A player would need more than two billion claims to reach it.
- `getMaxChunks` is not modelled as a member, because the limit is a parameter (`maxChunks`, `chunkLoaderMaxChunksPerPlayer`).
- The display texts are not modelled: `ClaimResult.getMessage` and the message placeholders. A notice is recorded as `ClaimedNotice(current, max)` or `LimitNotice`.
- `onJoin` and `onSneak` are not modelled: they only drive the tab menu and the persistent action-bar indicator. `TabMenuService` is not part of this model.
- The sapling replant is recorded as one `ScheduleReplant(p, stump, logType)` call. The 20-tick scheduler delay, `saplingForLog` and the later `plantSapling` item are not modelled.
- The handlers' collaborators are opaque. The tree, vein and farm features' `canTrigger` and `collectTargets`, `Materials.isLog`, `StateManager`, `WorkService` and `ActionBarService` are inputs or recorded calls.
- The order of a `Set<Block>` is not modelled: the targets are a sequence in the order the set's iterator gives.
- In the tree feller, the source cancels the event just before `findStump`. The model appends `CancelBreak` together with the session start; `findStump` makes no call in between, so the recorded sequence is the same.
- Events already cancelled by another plugin are not modelled: the listener is registered with `ignoreCancelled`, so they never reach it.
- `EssentialUtils`, `PluginConfig` and `AdminCommands` are not part of this model.
