# Voxel Browser: a verified model of its protocols and simulation

A Dafny model of the authoritative multiplayer engine:
`dafny verify dfyconfig.toml` verifies the whole project. Each module follows one
or two source files:

- `Prediction`: input prediction and reconciliation between a client that
  resends its whole unacknowledged history and a server that takes each command
  at most once, over a network that loses, duplicates and reorders batches.
- `Movement`: voxel collision over reals: end-point sweeps, bisection,
  substeps, stepping up ledges, and the velocity rules.
- `DamageTracker`: block damage and block changes from two lanes with no order
  between them.
- `Replication`: chunks sent under a byte budget, and the per-player
  bookkeeping that must agree with what each client holds.
- `AssetCache`: the content-addressed cache and the transfer into it.
- `Handshake`, `Join`, `Loopback`: the two handshake state machines, the
  sessions that feed them, runs of both over FIFO queues, and the in-process
  links those queues stand for.
- `KeyService`: the key fetcher as critical sections under one lock, with any
  number of pumping threads, and the verifications that wait for it.
- `PlayerNames`, `Identity`: sign-in, unique names, duplicate logins and
  periodic re-authentication.
- `CommandLine`, `Base64Url`, `VersionReq` (over `Decimal`): codecs whose two
  sides must cancel. `Common` holds what several modules share.

Objects the engine updates in place are classes whose methods are proved
against specification functions on values; runs are folds of those functions
over lists of actions, and the theorems are lemmas about all runs. Numbers are
unbounded and reals exact except where wrap-around is the point (the 32-bit
accumulator of `Base64Url`, the interval hash of `Identity`). Hashing, key
checking, the physics step, chunk contents and everything a host hook answers
are parameters.

What the code does and its description does not say, each with the exact
condition, as proved here:

- `ClientSession::reconcile` replays without the loaded-ground test that
  `push_input` and the server make (`Prediction.ReplaysAlikeIff`), and a history
  longer than its cap leaves the server a gap
  (`Prediction.OverflowLeavesGapIff`).
- The damage tracker shows stale damage exactly when an overtaken message is no
  longer refused (`DamageTracker.RightIffRefused`), which takes between one
  pruning limit and two (`DamageTracker.NewestKeptIff`), and damage commutes with
  chunk removal only if it clears (`DamageTracker.RemovalCommutesIff`).
- `fan_out` tells players who have a chunk on their list but not yet in hand,
  and an editor who does not mirror it (`Replication.RelightInSyncIffSafe`,
  reached in `Replication.FirstRelightInSyncIff`).
- The key service spaces fetches by a clock read before the lock
  (`KeyService.StartsAreSpaced`) and can miss the very fetch a verification
  waits for (`KeyService.WakesIff`), or reject one the moment its keys arrive
  (`KeyService.AskingTooLate`).
- A refusal that meets a client waiting for JoinAccept is held as an early
  gameplay frame and never read; the client only learns that the link closed
  (`Join.FarewellHeardIff`).
- The newcomer of an identity is not always the one that stays: two verified in
  one pass close each other (`Identity.NewcomerStaysIff`).
- A requirement's lower bound is that of its first comparator, the smallest
  version admitted only if it is admitted (`VersionReq.LowerBoundIsLeastIff`); a
  component may carry a minus sign, which ^ can misread
  (`VersionReq.CaretAdmitsIff`).
- `ClientSession` never supplies the remembered manifest hash to its handshake,
  so the fast path is a configuration value here; it is proved for both.

## Model

| member | source | states |
|---|---|---|
| `Prediction.ServerPlayer.HandleInputBatch` | src/net/session.cpp:205-265 | simulates exactly the commands newer than everything taken before, in batch order: hook veto or replacement, freeze over unloaded ground, sequence number consumed either way |
| `Prediction.ClientPredictor.PushInput` | src/net/session.cpp:2419-2440 | predicts one step unless the ground is unloaded, keeps the newest cap commands and resends the whole history; does nothing before joining |
| `Prediction.ClientPredictor.Reconcile` | src/net/session.cpp:2398-2417 | rewinds to the authoritative state, drops acknowledged commands and replays the others in order |
| `Prediction.ServerPlayer.Report` | src/net/session.cpp:1673-1688 | a snapshot carries the player's own state and newest command only once a batch has been handled |
| `Prediction.ClientPredictor.OnSnapshot` | src/net/session.cpp:2393-2395 | a snapshot without it moves nobody, one with it reconciles |
| `Prediction.FreshIncreasing` | src/net/session.cpp:206-209 | the commands a batch contributes are strictly increasing and all newer than the last one taken |
| `Prediction.FreshRange` | src/net/session.cpp:206-209 | of a resent history lo+1..hi the server takes exactly the commands after its last one |
| `Prediction.FreshIff` | src/net/session.cpp:206-209 | a command of a batch is taken if and only if its number is above the last one taken and above every number before it in the batch |
| `Prediction.HookDecides` | src/net/session.cpp:205-265 | a log of commands taken, for every hook: the position marches over the effective commands, the look is the last effective controls, the number consumed is the newest, vetoed or not |
| `Prediction.BatchDrives` | src/net/session.cpp:205-265 | so for a batch, and one whose new commands are all vetoed leaves position and look as they were |
| `Prediction.AtMostOnce` | src/net/session.cpp:205-265 | over any loss, duplication and reordering of batches the server has taken each command at most once, in increasing order, each as pushed, and its position is the march, from the spawn, of the effective ones: vetoed commands left out, replaced ones with the replacement |
| `Prediction.SnapshotsReport` | src/net/session.cpp:1673-1688 | every snapshot of a run reports a state the server was in, narrowed, with the newest number it had then taken |
| `Prediction.ReconcileReplaysUnacked` | src/net/session.cpp:2398-2417 | after every reconcile of every run the prediction is the step function folded over exactly the unacknowledged commands still in the history, from the acknowledged state |
| `Prediction.RunOnCourse` | src/net/session.cpp:205-265 | with at most cap commands outstanding, no hook and loaded ground, the prediction of every run is the fold of all commands pushed, as the server will compute it |
| `Prediction.ReconcileIsInvisible` | src/net/session.cpp:2398-2440 | under those conditions a reconcile leaves the prediction unchanged |
| `Prediction.ReplaysAlikeIff` | src/net/session.cpp:2413-2416 | replaying without the loaded-ground test follows what both peers did, at every command, if and only if every command met over unloaded ground leaves its state alone |
| `Prediction.ReceiveMovesIff` | src/net/session.cpp:2398-2416 | a snapshot the prediction agrees with, one command outstanding, leaves the prediction unchanged if and only if the ground is loaded or the command moves nothing |
| `Prediction.FrozenPlayerDrifts` | src/net/session.cpp:2393-2416 | that case arises in a run for every step function, spawn, cap and pair of commands: pushed twice, a player frozen after the first command is moved by the snapshot that acknowledges it exactly if the second would move it |
| `Prediction.NoGapIff` | src/net/session.cpp:205-265 | a numbered batch lo+1..hi with news leaves the server without a gap if and only if lo is no later than the last command taken |
| `Prediction.OverflowLeavesGapIff` | src/net/session.cpp:2433-2440 | in every run without a gap so far, for every cap, delivering the next batch first leaves one if and only if more than cap commands have been pushed beyond what the server has taken |
| `Prediction.OverflowDrifts` | src/net/session.cpp:2433-2436 | for every cap, step function and list of commands: if only the last batch arrives, the snapshot moves the player to where the last cap commands alone lead |
| `Prediction.OverflowDriftsBy` | src/net/session.cpp:2433-2436 | where commands add up, by exactly the sum of those dropped |
| `Movement.BoxHitsSolid` | src/physics/movement.cpp:19-36 | true exactly when some solid voxel overlaps the box shrunk by the skin |
| `Movement.Sweep` | src/physics/movement.cpp:50-68 | the full move if its end is free, otherwise the sixteenth bisection point on the free side |
| `Movement.ResolveHorizontal` | src/physics/movement.cpp:72-102 | flat move, else lift, cross and settle if all clear, else flush with the blocked velocity zeroed |
| `Movement.ApplyFriction` | src/physics/movement.cpp:159-175 | skidding to a stop without a wish direction |
| `Movement.Accelerate` | src/physics/movement.cpp:177-188 | a capped step towards the wish velocity |
| `Movement.ApplyGravity` | src/physics/movement.cpp:190-195 | gravity down to terminal velocity |
| `Movement.Drive` | src/physics/movement.cpp:139-202 | velocity after steering, friction, acceleration, gravity and jump, or flight |
| `Movement.StepMovement` | src/physics/movement.cpp:131-244 | one step: velocity, substeps of at most 0.4 and the ground probe, with the path walked |
| `Movement.FreeEndsFreeSegment` | src/physics/movement.cpp:50-68 | an axis sweep no longer than the box allows is free if both ends are |
| `Movement.SweepSafeIffShort` | src/physics/movement.cpp:50-68 | along every axis, testing only the ends is sound for every world and start if and only if the move is at most extent - 2 skin + 1 |
| `Movement.BisectedBrackets` | src/physics/movement.cpp:56-66 | each bisection keeps the near end free, the far end hitting, and halves their distance |
| `Movement.SweptIsFree` | src/physics/movement.cpp:50-68 | a sweep from a free position ends free and its whole segment is free |
| `Movement.SweptSitsFlush` | src/physics/movement.cpp:50-68 | a blocked sweep stops within 1/65536 of its length from a hitting position |
| `Movement.ResolvedIsFree` | src/physics/movement.cpp:72-102 | every position of the flat, lifted, crossing and settling moves is free |
| `Movement.SubstepsAreFree` | src/physics/movement.cpp:213-232 | so is every position of any number of substeps |
| `Movement.NoTunnelling` | src/physics/movement.cpp:131-244 | a player thick enough for the largest sweeps and starting free stays free all along the path of a step, for every world, input and substep count |
| `Movement.RunStaysFree` | src/physics/movement.cpp:131-244 | and over every sequence of steps |
| `Movement.BlendIsBounded` | src/physics/movement.cpp:181-188 | capped acceleration never leads past the larger of the old and the target speed |
| `Movement.DirectionIsUnit` | src/physics/movement.cpp:139-145 | the steering direction never exceeds unit length |
| `Movement.SpeedIsBounded` | src/physics/movement.cpp:139-202 | after any walking step that takes time horizontal speed is at most the larger of the old and the target speed and the fall is at most terminal velocity |
| `Movement.RunSpeedIsBounded` | src/physics/movement.cpp:131-244 | over any run of steps the speed stays under the larger of the first and the greatest target speed |
| `Movement.HitsIff` | src/physics/movement.cpp:19-36 | the player hits if and only if some solid voxel shares a point with its box shrunk by 0.0001 |
| `Movement.StepGoes` | src/physics/movement.cpp:131-244 | in every world each horizontal coordinate advances by exactly velocity times clamped time unless that velocity is gone, and then by a part of that, and the height likewise in the air; on the ground after landing or just above a solid voxel |
| `Movement.FreeMove` | src/physics/movement.cpp:204-232 | where nothing solid is in the space spanned, the step moves by exactly velocity times clamped time and keeps the velocity |
| `Movement.FlightVelocity` | src/physics/movement.cpp:147-153 | in flight the velocity is the direction held, shortened to length one, times the flying speed, up and down by the keys |
| `Movement.VerticalVelocity` | src/physics/movement.cpp:190-201 | a jump from the ground gives the jump speed; otherwise gravity takes its part, 1.4 times that in a fall, down to terminal velocity |
| `Movement.WalkVelocity` | src/physics/movement.cpp:139-188 | walking goes from the velocity left after skidding straight towards the one asked for, closing min(gap, gain) of the gap |
| `Movement.GapCloses` | src/physics/movement.cpp:177-188 | so the gap left is the gap less the gain, or nothing |
| `Movement.LedgeOrWall` | src/physics/movement.cpp:72-102 | a horizontal move is free, climbs the ledge and settles flush on it, or stops flush with the wall, each exactly when that is so |
| `Movement.ClimbsLedge` | src/physics/movement.cpp:204-231 | a step onto a ledge climbs it whenever it may and there is room |
| `Movement.XBeforeZ` | src/physics/movement.cpp:213-231 | past a corner x goes before z: a free x move is made whatever blocks z, then the z move exactly if free from there |
| `DamageTracker.BlockDamageTracker.OnDamage` | src/net/block_damage_tracker.cpp:7-24 | takes a damage message unless it is older than the block or the damage known |
| `DamageTracker.BlockDamageTracker.OnBlockChanged` | src/net/block_damage_tracker.cpp:26-36 | records the newest change and drops damage older than it |
| `DamageTracker.BlockDamageTracker.OnChunkRemoved` | src/net/block_damage_tracker.cpp:38-50 | forgets everything in a chunk |
| `DamageTracker.BlockDamageTracker.Advance` | src/net/block_damage_tracker.cpp:52-61 | moves the clock and prunes changes older than the limit, once per period |
| `DamageTracker.RightIffRefused` | src/net/block_damage_tracker.cpp:7-61 | over every run with an ordered damage lane, removals and any delays included, a block always shows its last damage if that is about the current block, if and only if every message overtaken by a change is refused |
| `DamageTracker.RunTracks` | src/net/block_damage_tracker.cpp:7-61 | so it does in every run whose overtaken messages come within the pruning limit |
| `DamageTracker.NewestIsLargest` | src/net/block_damage_tracker.cpp:26-36 | the change remembered is the one of largest revision since the last removal, whatever the order |
| `DamageTracker.FinalDamage` | src/net/block_damage_tracker.cpp:7-50 | the closed form, per block since its chunk was last removed: last damage value if nonzero and no older than every change, else nothing |
| `DamageTracker.Confluent` | src/net/block_damage_tracker.cpp:7-50 | two runs that agree, for each block since its last removal, on the damage lane and the set of changes end alike, however interleaved and timed |
| `DamageTracker.ConfluentWithoutRemovals` | src/net/block_damage_tracker.cpp:7-36 | without removals agreement lane by lane is enough |
| `DamageTracker.NewestKeptIff` | src/net/block_damage_tracker.cpp:52-61 | over every run the newest change of a block is remembered if and only if no look for old changes has come more than the limit after it |
| `DamageTracker.KeptOneLimitNotTwo` | src/net/block_damage_tracker.cpp:52-61 | looks being a limit apart, it is remembered for one limit and forgotten by two |
| `DamageTracker.RefusedUnlessForgotten` | src/net/block_damage_tracker.cpp:7-61 | a message overtaken by changes is refused if and only if not all of them have been forgotten |
| `DamageTracker.LateMessageCracks` | src/net/block_damage_tracker.cpp:7-61 | over every run such a message shows on the new block if and only if all those changes have been forgotten, and otherwise changes nothing |
| `DamageTracker.RightIffNoneForgotten` | src/net/block_damage_tracker.cpp:7-61 | so the display is right throughout a run if and only if no punching message comes after every change that overtook it is forgotten |
| `DamageTracker.LateAfterOnePause` | src/net/block_damage_tracker.cpp:52-61 | with one pause between change and message that is a pause longer than the limit |
| `DamageTracker.PhaseDecides` | src/net/block_damage_tracker.cpp:52-61 | while for every delay between one limit and two another run refuses a message just as late |
| `DamageTracker.RemovalCommutesIff` | src/net/block_damage_tracker.cpp:7-50 | in every state a damage message and the removal of its chunk commute if and only if the message only clears |
| `DamageTracker.BothOrdersOccur` | src/net/block_damage_tracker.cpp:7-50 | and both orders occur in orderly runs |
| `DamageTracker.ChunkOf` | inc/vb/core/ids.hpp:34-37 | the chunk whose 32 blocks each way hold the voxel, for negative coordinates too |
| `Replication.SendMissing` | src/net/world_replicator.cpp:97-141 | the send loop under the byte budget: chunks not at their current revision, in order, until it is used up |
| `Replication.DropDeparted` | src/net/world_replicator.cpp:154-159 | a removal for each chunk that left the view |
| `Replication.WorldReplicator.Serve` | src/net/world_replicator.cpp:72-164 | frames and bookkeeping for one player, as the specified serving; the branch for a chunk that vanishes within a tick is left out |
| `Replication.WorldReplicator.Tick` | src/net/world_replicator.cpp:46-167 | frames for every player, none listed without frames |
| `Replication.WorldReplicator.FanOut` | src/net/world_replicator.cpp:257-277 | a delta to every player sent the chunk, and to the editor in any case, each recorded |
| `Replication.WorldReplicator.ForgetPlayer` | inc/vb/net/world_replicator.hpp:68 | forgets a player |
| `Replication.ServedInSync` | src/net/world_replicator.cpp:72-164 | a client applying its frames in order holds exactly the recorded chunks at the recorded revisions, all of them among those sent |
| `Replication.TickInSync` | src/net/world_replicator.cpp:46-167 | so after every tick, for all players |
| `Replication.RelightInSyncIffSafe` | src/net/world_replicator.cpp:257-277 | a fan-out keeps clients in sync if and only if every player told has the chunk at the revision the delta starts from |
| `Replication.FirstRelightInSyncIff` | src/net/world_replicator.cpp:46-167 | unsafe fan-outs are reached: after a first tick with two chunks, a relight of the second keeps everyone in sync if and only if the budget let both through and the editor is the player served |
| `Replication.MirrorInvariant` | src/net/world_replicator.cpp:46-167 | mirrors and bookkeeping agree over every run of ticks, world changes, departures and safe fan-outs |
| `Replication.WithinBudget` | src/net/world_replicator.cpp:125-140 | a tick sends one player a payload within the budget, or a single oversized first chunk |
| `Replication.ServedProgress` | src/net/world_replicator.cpp:97-141 | each serving of an unchanging view leaves strictly fewer chunks behind until none is |
| `Replication.CatchesUp` | src/net/world_replicator.cpp:97-141 | so as many servings as chunks behind bring the player up to date |
| `Replication.SentAreMissing` | src/net/world_replicator.cpp:97-141 | only chunks seen and lacked are sent, at their current revision and size, and none twice |
| `Replication.PutOffOnlyIfFull` | src/net/world_replicator.cpp:97-141 | chunks go out in the order given, and the rest waits only if the budget is used up or the next chunk would exceed it |
| `Replication.TickServesEach` | src/net/world_replicator.cpp:46-167 | in a tick each player listed is served once: record and client end as if it were alone |
| `Replication.EveryoneCatchesUp` | src/net/world_replicator.cpp:46-167 | so with any number of players and any budget, ticks over a world and positions that stand still bring every client to exactly its visible chunks at their current revisions, after at most one tick for each it lacked |
| `Replication.RelightReachesHolders` | src/net/world_replicator.cpp:257-277 | a relight reaches every client that holds the chunk and changes nobody else; the record follows for those with the chunk on their list and for the editor |
| `AssetCache.ClientAssetCache.TotalCachedBytes` | src/assetsync/cache.cpp:124-131 | the sum of the sizes on the index |
| `AssetCache.ClientAssetCache.Oldest` | src/assetsync/cache.cpp:138-143 | an entry last used no later than any other |
| `AssetCache.ClientAssetCache.EvictUntilFits` | src/assetsync/cache.cpp:133-148 | evicts least recently used entries until the file fits and not one more; never any for a file above the cap |
| `AssetCache.ClientAssetCache.CommitFile` | src/assetsync/cache.cpp:160-170 | stores exactly the bytes, evicting the least recently used files, enough and not one more; a file within the cap leaves the total within it |
| `AssetCache.ClientAssetCache.ComputeMissing` | src/assetsync/cache.cpp:186-231 | the manifest scan: what is cached is served at once and only the rest asked for, each hash once; the full manifest remembered or recalled |
| `AssetCache.ClientAssetCache.IngestChunk` | src/assetsync/cache.cpp:233-266 | refuses frames unrequested, out of order, too large or with the wrong hash; the last frame of a file stores exactly the bytes received and serves them, no other frame touches index or disk, and a sound cache stays sound |
| `AssetCache.ClientAssetCache.EverythingReceived` | src/assetsync/cache.cpp:268-276 | true exactly when no file is outstanding |
| `AssetCache.ClientAssetCache.RememberManifestHash` | src/assetsync/cache.cpp:181-184 | keeps the last manifest hash of a server |
| `AssetCache.ClientAssetCache.LastKnownManifestHashFor` | src/assetsync/cache.cpp:172-179 | a hash only if its entries are remembered |
| `AssetCache.ScannedSound` | src/assetsync/cache.cpp:208-228 | each entry is served with its hash or awaited, and exactly the awaited hashes are asked for, once |
| `AssetCache.ScanUsesCache` | src/assetsync/cache.cpp:208-228 | a hash is asked for if and only if it is listed and not both indexed and on disk; it is awaited for all its paths; exactly the paths of cached files are served; the index loses exactly the listed hashes whose file is gone, the other listed ones are used now, the rest is unchanged |
| `AssetCache.CachedIsServed` | src/assetsync/cache.cpp:213-223 | the path of a cached file is served the bytes on disk |
| `AssetCache.ExpectsListedSize` | src/assetsync/cache.cpp:200-206 | a file asked for is expected to have the size its first entry gives |
| `AssetCache.RefusedIff` | src/assetsync/cache.cpp:233-266 | a frame is refused if and only if its file is not awaited, it is not the next one, the file is or becomes larger than 32 MiB, or it is the last one and the hash differs |
| `AssetCache.RefusedLeaves` | src/assetsync/cache.cpp:233-266 | a refused frame serves and completes nothing; only a file whose last frame gave another hash is given up |
| `AssetCache.AcceptedAdds` | src/assetsync/cache.cpp:233-266 | an accepted frame adds its bytes to its own file, and the last one serves the file under all its paths |
| `AssetCache.AsksNothingAgain` | src/assetsync/cache.cpp:186-276 | after a completed transfer that evicted nothing the same manifest asks for nothing |
| `AssetCache.FrameAccepted` | src/assetsync/cache.cpp:233-266 | the next frame of a file is accepted and the last one completes it |
| `AssetCache.FileAccepted` | src/assetsync/cache.cpp:233-266 | so are all frames of a file, in order |
| `AssetCache.StreamAccepted` | src/assetsync/cache.cpp:233-276 | all frames of the rest of the stream are accepted, and everything is received precisely at the last |
| `AssetCache.TransferExact` | src/assetsync/cache.cpp:186-276 | whatever a sound cache holds, the transfer completes at the last frame and no sooner, and the file system then maps exactly the manifest paths to bytes with the listed hashes |
| `AssetCache.StoringStaysSound` | src/assetsync/cache.cpp:133-170 | files stored under their own hash and evicted, any number of times, leave the cache sound |
| `AssetCache.FastPathIsExact` | src/assetsync/cache.cpp:192-231 | a message with a remembered hash and no entries starts the same transfer as the full manifest, and ends exact |
| `Handshake.ServerHandshake.Refuse` | src/net/handshake.cpp:38-47 | closes with one farewell |
| `Handshake.ServerHandshake.TimeOut` | src/net/handshake.cpp:49-55 | refuses unless playing or closed |
| `Handshake.ServerHandshake.Finish` | src/net/handshake.cpp:100-120 | admits under the resolved name or rejects and closes |
| `Handshake.ServerHandshake.Poll` | src/net/handshake.cpp:66-98 | takes the verdict of its own ticket once; an ok without identity or vetoed is a rejection |
| `Handshake.ServerHandshake.OnFrame` | src/net/handshake.cpp:183-381 | the server state machine, message by message |
| `Handshake.ServerHandshake.PumpAssets` | src/net/handshake.cpp:122-181 | up to the budget of frames, leaving the streaming state with the last |
| `Handshake.ClosedIsFinal` | src/net/handshake.cpp:38-381 | no frame, verdict, pump or timeout changes a closed handshake or why it closed; a frame is answered with another Disconnect |
| `Handshake.FarewellOnClosing` | src/net/handshake.cpp:38-381 | a step of a handshake not yet closed sends a Disconnect if and only if it closes, once, last, with the recorded reason |
| `Handshake.RunSaysFarewell` | src/net/handshake.cpp:38-381 | so over every run in which a closed handshake is handed nothing more the frames sent hold one Disconnect, at the end, if it is closed, and none otherwise |
| `Handshake.LoginFromVerdict` | src/net/handshake.cpp:57-120 | a step sets the login only from an accepting verdict it is handed, under the name resolved, on the way out of sign-in |
| `Handshake.SignedInWasVouched` | src/net/handshake.cpp:57-381 | over every run whoever is past sign-in of an external server has a login, and any login was accepted by a verdict of the run |
| `Handshake.NothingBeforeSignIn` | src/net/handshake.cpp:38-381 | over every run no manifest, asset, setup or join frame precedes the frame telling the client that its sign-in succeeded |
| `Handshake.RefusedFor` | src/net/handshake.cpp:183-381 | for each reason a frame can be refused for, the exact condition on configuration, frame and host |
| `Handshake.FrameAdvances` | src/net/handshake.cpp:183-381 | where a frame that is not refused leads, and exactly what is answered |
| `Handshake.VerdictEndsWait` | src/net/handshake.cpp:57-120 | a verdict admits under the name resolved or refuses, and changes nothing for a connection that waits for none |
| `Handshake.PumpRefusesIff` | src/net/handshake.cpp:122-181 | a pump refuses if and only if it comes to a file the server does not have |
| `Handshake.SeatedInOrder` | src/net/handshake.cpp:183-260 | over every run whoever is past sign-in has sent a Hello of the server's version, automated only where accepted, and later an Auth while there was room |
| `Handshake.ClientHandshake.Start` | src/net/handshake.cpp:435-449 | says hello |
| `Handshake.ClientHandshake.Authenticate` | src/net/handshake.cpp:399-410 | sends a token of acceptable size |
| `Handshake.ClientHandshake.Poll` | src/net/handshake.cpp:412-425 | takes the sign-in when it resolves |
| `Handshake.ClientHandshake.Cancel` | src/net/handshake.cpp:427-433 | abandons a sign-in |
| `Handshake.ClientHandshake.ReceiveChallenge` | src/net/handshake.cpp:507-534 | starts a sign-in, or sends the token at hand, or fails |
| `Handshake.ClientHandshake.ReceiveManifest` | src/net/handshake.cpp:562-583 | asks for what is missing, and is ready at once if nothing is |
| `Handshake.ClientHandshake.ReceiveData` | src/net/handshake.cpp:585-603 | ingests a frame and is ready when all are in |
| `Handshake.ClientHandshake.OnFrame` | src/net/handshake.cpp:451-626 | the client state machine, message by message |
| `Handshake.FailsFor` | src/net/handshake.cpp:451-626 | for each reason a client can fail for, the exact condition on its state, configuration, frame and sign-in |
| `Handshake.ClientAdvances` | src/net/handshake.cpp:451-626 | where a frame that is no such reason leads, and exactly what is sent back |
| `Handshake.SignInResolves` | src/net/handshake.cpp:399-425 | a sign-in that resolves is sent on under the player's name, or fails for want of a token or its size |
| `Join.ClientSession.OnMessage` | src/net/session.cpp:1937-2064 | dispatches one frame: setup aside, gameplay once joined, early frames held up to the cap and released on joining |
| `Join.EarlySameAsLate` | src/net/session.cpp:2027-2062 | gameplay that overtakes JoinAccept ends in the same session state as gameplay after it, if and only if it is within the hold cap |
| `Join.PumpSendsNext` | src/net/handshake.cpp:128-179 | a pump round sends the next frame and leaves the streaming state with the very last |
| `Join.PumpedSendsPrefix` | src/net/handshake.cpp:122-181 | any budget sends that many of the frames left, in order |
| `Join.FrameTaken` | src/net/handshake.cpp:585-603 | the client takes each frame of the stream and is done exactly at the last |
| `Join.StepAgrees` | src/net/handshake.cpp:122-626 | every action of server, client, clock or environment keeps server, client and both queues in step |
| `Join.NeverMisfires` | src/net/handshake.cpp:183-626 | in no run does either end see a message out of turn, an unknown asset, a refused frame or too many early frames, and a joined client has exactly the manifest files |
| `Join.ReadyNeverMeetsStreaming` | src/net/handshake.cpp:165-176 | while the server streams nothing is on its way to it |
| `Join.NeverStuck` | src/net/handshake.cpp:122-626 | an unsettled join always has a step that changes it, whatever host and sign-in answer |
| `Join.StepAdvances` | src/net/handshake.cpp:122-626 | every step with an effect brings an unsettled join nearer its end |
| `Join.BusyRunsAreShort` | src/net/handshake.cpp:122-626 | so only boundedly many steps of any run have an effect before it settles |
| `Join.JoinEnds` | src/net/handshake.cpp:122-626 | every run goes on to one where the client has joined a playing server with exact files, or an end has given up for a cause of its own |
| `Join.JoinSucceeds` | src/net/handshake.cpp:122-626 | with matching versions, room, time and an accepted sign-in, by challenge and verdict only where the server leaves it to others, every run goes on to a joined client |
| `Join.FarewellHeardIff` | src/net/session.cpp:2034-2051 | a farewell arriving at the client is understood if and only if the client is not waiting for JoinAccept; there it is held as an early frame |
| `Join.RefusalHeardOrHeld` | src/net/session.cpp:2034-2061 | over every run, with nothing in transit, the client of a server that has refused has failed or holds the farewell unread |
| `Join.HeldForever` | src/net/session.cpp:2034-2061 | and no later action of either end makes it read it, the closing of the link aside |
| `Join.FarewellLostInARun` | src/net/session.cpp:2034-2061 | wherever a join can succeed a run ends with that client waiting after the server timed out |
| `Loopback.SharedHub.Find` | src/net/loopback.cpp:21-28 | the first link with an id |
| `Loopback.Transport.Listen` | src/net/loopback.cpp:45-54 | the server listens once |
| `Loopback.Transport.Connect` | src/net/loopback.cpp:57-74 | a new link with Connected queued both ways, if the server listens |
| `Loopback.Transport.Send` | src/net/loopback.cpp:76-86 | queues a message unless the link is unknown or closed |
| `Loopback.Transport.Close` | src/net/loopback.cpp:88-99 | closes once, with Disconnected queued both ways |
| `Loopback.Transport.Poll` | src/net/loopback.cpp:101-113 | drains, in order, the queues of the links this side sees |
| `Loopback.LinksAreFifo` | src/net/loopback.cpp:56-113 | over every run what an end has heard of a link, then its queue, is the story of the link |
| `Loopback.PollHearsAll` | src/net/loopback.cpp:101-113 | after a poll that side has heard the whole story of every link it sees |
| `Loopback.StoryShape` | src/net/loopback.cpp:57-99 | Connected first and once, Disconnected last and once, nothing after |
| `Loopback.ClientsHearTheirOwn` | src/net/loopback.cpp:101-106 | a client hears only of links it opened |
| `KeyService.AuthService.RequestRefresh` | src/auth/service.cpp:96-108 | asks for a refresh, at most one per interval from the last attempt |
| `KeyService.AuthService.BeginPump` | src/auth/service.cpp:117-142 | picks discovery, first load or requested refresh, unless a fetch is in flight |
| `KeyService.AuthService.EndPump` | src/auth/service.cpp:177-200 | takes or rejects the answer and sets the next wait |
| `KeyService.Verification.Poll` | src/auth/service.cpp:231-270 | one uninterrupted poll |
| `KeyService.RunKeeps` | src/auth/service.cpp:96-200 | every interleaving of pumps, requests and polls keeps log, backoff, flags and spacing together |
| `KeyService.OneFetchAtATime` | src/auth/service.cpp:110-200 | at most one fetch is in flight, however many threads pump |
| `KeyService.FetchesAreSpaced` | src/auth/service.cpp:96-200 | a refresh starts at least the interval after the clock reading of the key fetch before it; any other fetch waits min(10*2^(n-1),300) seconds after n failures in a row |
| `KeyService.StartsAreSpaced` | src/auth/service.cpp:115-141 | from start to start a refresh keeps the interval less what the pump before it lingered between clock reading and fetch, so all of it if it did not linger |
| `KeyService.StaleReadingShortens` | src/auth/service.cpp:115-141 | and that much is lost in a run, for every interval: two key fetches begin one second apart |
| `KeyService.BeginsIff` | src/auth/service.cpp:115-143 | over every run a pump begins a fetch if and only if none is under way and one is due: after the wait for failures while address or keys are missing, on request afterwards; the discovery document while the address is unknown |
| `KeyService.EndSettles` | src/auth/service.cpp:176-200 | what the end of a fetch leaves: a usable reply taken up, an unusable one changing neither address nor keys, the request answered and the generation raised by key fetches alone, the next wait 10 s doubling to 300 s |
| `KeyService.RequestedIff` | src/auth/service.cpp:96-108 | over every run a request is taken if and only if a fetch is under way or requested, or the interval since the last key fetch is over |
| `KeyService.PollSettles` | src/auth/service.cpp:231-270 | what a whole poll answers, first or later: the verdict of the keys at hand, a rejection for an unknown key or the deadline, or nothing yet |
| `KeyService.KeysStay` | src/auth/service.cpp:188-196 | once loaded the key set is never empty |
| `KeyService.ChecksAtMostTwice` | src/auth/service.cpp:231-270 | a verification checks its token at most twice and its verdict stands |
| `KeyService.PollAnswers` | src/auth/service.cpp:255-269 | a waiting verification is answered exactly if the key set was tried again or the deadline is past, so by the first poll after it |
| `KeyService.DeadlineStaysNear` | src/auth/service.cpp:248 | the deadline is within the configured wait of the clock |
| `KeyService.WakesIff` | src/auth/service.cpp:177-269 | a key fetch that ends while a verification is marking, arming or waiting has the next poll before the deadline answer it if and only if it had already read the generation, that is, was not still marking |
| `KeyService.AskingTooLate` | src/auth/service.cpp:96-108 | a fetch that ends before the request, with only time passing: the verification is rejected while the interval since that fetch read its clock lasts, though the keys are there, and otherwise goes on to wait |
| `KeyService.AskingIsNotWoken` | src/auth/service.cpp:177-269 | whatever other pumps begin and request meanwhile, such a verification is rejected or not woken by that fetch |
| `KeyService.RejectedInARun` | src/auth/service.cpp:96-269 | and a run from the start gets there |
| `KeyService.MissedWakeup` | src/auth/service.cpp:243-269 | a fetch ending between the request and the reading of the generation leaves a verification waiting until its deadline, though the keys are there |
| `KeyService.MissedWakeupInARun` | src/auth/service.cpp:115-269 | and a run from the start gets there |
| `PlayerNames.NameBook.Resolve` | src/net/session.cpp:133-164 | the base name, or the first free numbered one of 9998 candidates, or the base again |
| `PlayerNames.NameBook.IsTaken` | src/net/session.cpp:136-148 | whether someone of another identity has the name |
| `PlayerNames.CandidatesDistinct` | src/net/session.cpp:153-162 | suffixed and truncated candidates are pairwise distinct |
| `PlayerNames.ResolvedIsFree` | src/net/session.cpp:133-164 | with fewer than 9998 other connections the resolved name is nobody else's |
| `PlayerNames.AllCandidatesTaken` | src/net/session.cpp:150-163 | a taken name is given out exactly when every candidate is taken |
| `PlayerNames.FirstFreeIsGiven` | src/net/session.cpp:133-164 | the name asked for unless another identity has it, else the first numbered one that none has, else the name asked for again |
| `PlayerNames.CandidateIsNumbered` | src/net/session.cpp:153-159 | a numbered name is the name with its number, cut only as far as 32 characters require |
| `Identity.ServerSession.KickDuplicateLogin` | src/net/session.cpp:1119-1138 | closes every other connection of the newcomer's identity |
| `Identity.ServerSession.HandleFrame` | src/net/session.cpp:963-980 | one handshake frame: the state machine, then the kick if it has just been verified, playing once ready |
| `Identity.ServerSession.PassOverHandshakes` | src/net/session.cpp:1077-1117 | polls every unfinished sign-in, then kicks for all just verified |
| `Identity.ServerSession.RenewLogins` | src/net/session.cpp:1798-1853 | requests, renewals and deadlines of every session |
| `Identity.PlayingWasVouchedFor` | src/net/handshake.cpp:66-98 | under external authentication whoever plays had an ok with a login from its own ticket |
| `Identity.IdentityIsConstant` | src/net/session.cpp:1760-1788 | issuer and subject of a connection never change, re-authentications included |
| `Identity.OneOpenPerIdentity` | src/net/session.cpp:1119-1138 | between events at most one open connection has any given identity |
| `Identity.NewcomersCloseOthers` | src/net/session.cpp:1111-1113 | a newcomer closes its identity's other connections, fellow newcomers included |
| `Identity.NewcomerStaysIff` | src/net/session.cpp:1077-1117 | a connection verified in a pass stays open if and only if no other of its identity was verified in the same pass |
| `Identity.LoneNewcomerStays` | src/net/session.cpp:963-980 | one verified by its own frame always stays |
| `Identity.SamePassClosesBoth` | src/net/session.cpp:1111-1113 | two of one identity verified in the same pass close each other |
| `Identity.BothCloseInARun` | src/net/session.cpp:1077-1138 | which a run from the empty server reaches, for every pair of connections, names, tokens and login |
| `Identity.NamesStayApart` | src/net/session.cpp:133-164 | with at most 9998 connections and no empty names different identities always have different names |
| `Identity.RefusedAreShut` | src/net/session.cpp:963-1117 | over every run a connection still open has not been refused |
| `Identity.LookSettles` | src/net/session.cpp:1077-1117 | what the pass makes of a handshake: closed for a verdict that does not admit, or for its time being up; a newcomer under its identity and the name resolved among the players; or as it was |
| `Identity.FrameSettles` | src/net/session.cpp:963-980 | a frame closes its connection if and only if refused, and makes a player if and only if it is Ready in turn, under the id granted and the login signed in with |
| `Identity.FrameTouchesOthers` | src/net/session.cpp:963-971 | of the other connections it closes those of an identity just verified, and touches none else |
| `Identity.ServerSession.HandleReauth` | src/net/session.cpp:920-930 | an answer starts a verification only if a request is outstanding and unanswered |
| `Identity.RunIsTimely` | src/net/session.cpp:1809-1853 | an outstanding request of an open session has waited less than the grace period, and verifications never outnumber requests: unasked or repeated answers start none |
| `Identity.DeadlineDecides` | src/net/session.cpp:1798-1853 | in every run, once the passes after a request add up to the grace period the connection has been closed, or renewed by an answer of the same identity issued no more than 60 s before the request, or is gone |
| `Identity.WaitedIsElapsed` | src/net/session.cpp:1835-1853 | until then the time a session counts is the time passed since the request |
| `Identity.CountStarts` | src/net/session.cpp:1760-1788 | becoming a player or being renewed starts the count at the renewal interval of the player's id, and nothing else makes a player or ends a request |
| `Identity.CountsOverRun` | src/net/session.cpp:1809-1828 | over every run, until the passes add up to it, no request is sent and the timer is what is left |
| `Identity.RequestWhenDue` | src/net/session.cpp:1809-1828 | a pass sends the request if and only if the time counted is up and a challenge is at hand; without one the next try comes after 10 s |
| `Identity.PassSettles` | src/net/session.cpp:1829-1853 | what a pass does to a session that waits: renewed by an answer that fits, closed by one that does not or at the end of the grace period |
| `Identity.AnswerStartsIff` | src/net/session.cpp:920-930 | an answer starts a verification if and only if a request is outstanding and has none |
| `Identity.IntervalWithinTenth` | src/net/session.cpp:1740-1749 | every renewal interval is within a tenth of the configured one |
| `Identity.IntervalsSpread` | src/net/session.cpp:1740-1749 | the intervals of two ids differ by the distance of their buckets, a five-thousandth of the configured interval each |
| `CommandLine.QuoteArg` | src/cli/process.cpp:37-60 | quotes as the runtime expects, backslash runs doubled before quotes and at the end |
| `CommandLine.BuildCommandLine` | src/cli/process.cpp:72-80 | the quoted program and arguments, separated by blanks |
| `CommandLine.SplitTail` | src/cli/process.cpp:37-80 | splitting any quoted list gives the list back |
| `CommandLine.ArgumentsArrive` | src/cli/process.cpp:37-80 | the process gets exactly the arguments given, if and only if none contains a NUL |
| `CommandLine.ProgramArrives` | src/cli/process.cpp:74 | the program name is read back for a path without quotes that does not both need quoting and end in a backslash |
| `CommandLine.PlainStaysIff` | src/cli/process.cpp:37-41 | an argument is passed as it is if and only if it is not empty and has no white space and no quote |
| `CommandLine.TrailingSlashDoubles` | src/cli/process.cpp:48-50 | and is not for one that does |
| `Base64Url.MakeDecodeTable` | src/auth/jwt.cpp:12-22 | the table gives each letter its value and everything else -1 |
| `Base64Url.Encode` | src/auth/jwt.cpp:26-51 | letters of the sextets of each group |
| `Base64Url.Decode` | src/auth/jwt.cpp:53-78 | the bytes of a text, by a wrapping 32-bit accumulator |
| `Base64Url.StreamIsGrouped` | src/auth/jwt.cpp:58-77 | the wrapped accumulator loses nothing: decoding is decoding by groups of four |
| `Base64Url.DecodedEncoded` | src/auth/jwt.cpp:26-78 | decoding undoes encoding for all bytes |
| `Base64Url.EncodedDecoded` | src/auth/jwt.cpp:26-78 | encoding undoes decoding for all accepted texts |
| `Base64Url.DecodingIsInjective` | src/auth/jwt.cpp:53-78 | no two accepted texts decode alike |
| `Base64Url.EncodedIsNumber` | src/auth/jwt.cpp:26-51 | the text, read as a number in base 64, is the bytes, read as a number in base 256, and the zero bits that complete the last letter |
| `Base64Url.CapitalsInOrder` | src/auth/jwt.cpp:9-10 | the first 26 letters of the alphabet of RFC 4648 |
| `Base64Url.SmallInOrder` | src/auth/jwt.cpp:9-10 | the next 26 |
| `Base64Url.DigitsInOrder` | src/auth/jwt.cpp:9-10 | the digits and the two signs |
| `Base64Url.ParseJws` | src/auth/jwt.cpp:80-117 | three non-empty decodable parts between exactly two dots |
| `Base64Url.ParsedIsCompact` | src/auth/jwt.cpp:80-117 | an accepted token is the compact form of its parts, the signing input that of the first two |
| `Base64Url.CompactParses` | src/auth/jwt.cpp:80-117 | the compact form of any three non-empty parts within the cap parses to them |
| `Base64Url.TokensAreCanonical` | src/auth/jwt.cpp:80-117 | accepted tokens with the same parts are the same text |
| `VersionReq.ParsePartial` | src/core/version_req.cpp:35-63 | one to three numbers of at most six characters, after trimming and an optional v |
| `VersionReq.Parse` | src/core/version_req.cpp:83-161 | the comparators of every item, or nothing if any is malformed |
| `VersionReq.Matches` | src/core/version_req.cpp:163-188 | whether all comparators hold |
| `VersionReq.Print` | src/core/version_req.cpp:190-219 | the comparators, separated by commas, or a star |
| `VersionReq.FindLowerBound` | src/core/version_req.cpp:221-228 | the version of the first comparator bounding from below |
| `VersionReq.CaretAdmitsIff` | src/core/version_req.cpp:137-152 | ^ admits exactly what is no older and keeps every component through the leading one, if and only if the leading component is not a negative one that the rule looks past (or its bound comes out right by luck) |
| `VersionReq.OperatorsAgree` | src/core/version_req.cpp:163-188 | versions are ordered by the first component that differs, and the five signs are that order's |
| `VersionReq.WrittenParses` | src/core/version_req.cpp:36-152 | any sign, any one to three components, with a v or without and blanks around either, parse to what they mean, unless a component takes more than six characters |
| `VersionReq.NeedsSign` | src/core/version_req.cpp:83-136 | no text parses without a sign but a lone star |
| `VersionReq.TildeAdmits` | src/core/version_req.cpp:141-142 | ~ keeps the major component, and the minor one if written, whatever their signs |
| `VersionReq.PrintedParses` | src/core/version_req.cpp:83-219 | printing then parsing gives the same comparators if and only if no component takes more than six characters |
| `VersionReq.UpperBoundOutgrows` | src/core/version_req.cpp:141-152 | the upper bound of a shorthand can take seven and is then not read back |
| `VersionReq.LowerBoundHolds` | src/core/version_req.cpp:221-228 | nothing admitted is below the lower bound |
| `VersionReq.LowerBoundIsLeastIff` | src/core/version_req.cpp:221-228 | the lower bound is the smallest version admitted if and only if it is itself admitted |
| `VersionReq.NoLowerBoundIsOpen` | src/core/version_req.cpp:221-228 | without a lower bound everything below an admitted version is admitted |
| `VersionReq.LaterBoundIsTighter` | src/core/version_req.cpp:83-228 | for all short a < b the text ">=a, >=b" parses, has lower bound a and least version b |
| `VersionReq.StrictBoundIsNotAdmitted` | src/core/version_req.cpp:83-228 | the text ">a" parses, has lower bound a and does not admit it |

## Left out

- Prediction.ReconcileIsInvisible: the narrowing of velocity to single precision is a parameter, taken as the identity there; the landing callback, the interest update and 32-bit sequence wrap are not modelled, and what ground is loaded does not change along a run.
- Movement.StepMovement: no rounding or integer overflow; square roots are given as non-negative roots; turning local input into a world direction (sine and cosine) is not modelled.
- Movement.NoTunnelling: needs the player as thick as its largest sweep, as the default parameters are; the exact bound for a single sweep is Movement.SweepSafeIffShort.
- DamageTracker.FinalDamage: for runs whose overtaken messages come within the pruning limit; for all others DamageTracker.RightIffNoneForgotten says when the tracker is right.
- Replication.MirrorInvariant: a chunk is a coordinate with a revision and a payload size; view boxes, loading, relighting itself and the validation of edits are not part of this model.
- Replication.WorldReplicator.Serve: the branch for a chunk that vanishes between the two looks of one single-threaded tick, which its comment calls unreachable.
- AssetCache.ClientAssetCache.ComputeMissing: the index file, write errors and progress counters are not modelled; reading a stored file never fails half way.
- Handshake.ServerHandshake.OnFrame: messages are datatypes, so malformed ones do not occur; the registries and parameters sent on joining are any number of setup frames.
- Handshake.RunSaysFarewell: its runs end when the handshake closes; frames still handed to a closed handshake get one more Disconnect each, as Handshake.ClosedIsFinal states.
- Join.NeverMisfires: one client, one link; malformed or compressed frames, the per-address attempt limit and the client's reaction to the closing of its link are not modelled. Gameplay overtaking JoinAccept is treated apart, in Join.EarlySameAsLate, where setup and gameplay frames act independently; early frames that are not gameplay, such as a re-auth request, are dropped on joining as in the code.
- Loopback.Transport.Poll: frames are texts; connection counts are not modelled.
- KeyService.AuthService.BeginPump: stopping, a missing fetcher, the parsing of documents and the start of the worker are not modelled; the clock never runs backwards.
- Identity.ServerSession.HandleFrame: sessions hold handshake values, not handshake objects; playing connections' other messages, message limits and the entity registry are not modelled.
- Identity.OneOpenPerIdentity: a kicked connection counts as closed at once, while its entry stays until the transport reports it.
- CommandLine.ArgumentsArrive: the conversion from UTF-8 to UTF-16 and the creation of the process are not modelled; the splitting rules are Microsoft's documented ones for the C runtime.
- Base64Url.ParseJws: error texts are not modelled.
- VersionReq.Parse: error texts and the engine check built on it are not modelled.
- Rendering, windows, menus, the user interface, recorder, commands, installer, worldgen, lighting, chunk encoding, sockets and scripting hooks beyond the parameters named above.
