# A verified model of the game server's stateful subsystems

This project models the parts of the server whose correctness rests on several pieces of state
agreeing with each other, and proves that they do over every run.

- **The chunk index** (`ChunkViews`, `ChunkLedger`, `Chunking`, `NPCManager`, `PlayerManager`, `Eggs`,
  `Shard`). Entities are tracked in chunks that come and go. Three things are derived from where
  entities are and cached: the number of players in a chunk, the chunks an entity can see, the
  number of players a mob can see. A fourth is kept at the other end of the wire: what each client
  has been told of. `ChunkViews` defines what all of these should be, by the placement of the
  entities alone; `ChunkLedger` says what each step does to the cached values; `Chunking` and its
  callers are the methods on objects. A chunk is an object, so one that is deleted and created again
  is a different one. The enter and exit packets of a client are ghost updates that demand that the
  client did not know, or did know, what they name.
- **Private instances** (`Instances`, `InstanceCopies`): tearing one down while its chunks vanish
  underfoot, and cloning a map with its mob groups.
- **Trades** (`TradeExchange`, `TradeSuccess`, `TradeProtocol`, `TradeEffects`, `TradeAgreement`,
  `Trading`): the exchange of two inventories and exactly when it succeeds, the handlers as a state
  machine on any number of players and what each does to what can be seen of it, when a confirmation
  is an agreement, and the same handlers on player objects.
- **The wire** (`PacketCipher`, `CNProtocol`): the cipher in place, framing, and putting packets
  together again from fragments.
- **Mobs** (`MobGroups`, `MobMachine`, `MobTransitions`, `MobAI`): the state machine with its
  group-wide transitions, exactly when each transition is made, and the same on mob objects; and
  preset paths (`Transport`), which are walked round and rewound.
- **Player groups** (`Groups`), **table patches** (`TablePatch`), **saving players** (`PlayerStore`).

Each subsystem has its own record of a player, mob or NPC, with the fields that it uses: `Entity` in the
chunk index, `Player` in trades, groups and saving, `Mob` and `Mind` in the mob state machine, `Npc` on
paths. They are separate models; only the ids (`Ids`) and the lists of followers (`MobGroups`) are shared.

Where the code works by changing things step by step, the model has classes, arrays and loops. The
methods are proved against functions and predicates on plain values, and the theorems are lemmas
about those. What such a function computes is in turn said without it: by the places the bytes come
from, by when a trade succeeds, by when each transition of a mob is made, and by a record of what each
request of a run does.

Places where the code does not do what one would expect, with the exact condition under which it does:

- `isTradeConfirm` does not say to whom a trader confirmed. `TradeAgreement.ThirdParty` is a run in
  which a third trader takes what was offered to another. `TradeAgreement.ExchangeAgreedIff` says of every
  run when an exchange uses only what both confirmed to each other: exactly when a bit stands that could
  be kept for each ordered pair of players and read before the exchange (`TradeAgreement.Standing`).
- A mob whose leader no longer exists engages and retreats alone (`MobMachine.NobodyLeftRoaming` and
  `MobMachine.NobodyLeftFighting`, with the reachable instances of `MobMachine.LeaderGone`).
- The rewinding of a preset path ends if and only if the spawn point is in the queue
  (`Transport.RewindEnds`). The walk of a group leader replaces the queues of its followers
  (src/MobAI.cpp:700-716) without asking whether they are on a preset path of their own;
  `Transport.System.LeaderWalk` says exactly when every circuit survives that, and
  `Transport.LostCircuit` is an instance in which one does not.
- A table patch can be applied again without effect if and only if it is stable
  (`TablePatch.IdempotentIff`).
- The check of item slots lets the slot just past the last one through (src/db/player.cpp:104), and the
  one of frame lengths lets lengths below four through (src/core/CNProtocol.cpp:257):
  `PlayerStore.Player.LoadItems` and `CNProtocol.StepSized` say what then becomes of it.

## Model

| member | source | states |
|---|---|---|
| `ChunkViews.CloseIsNear` | src/Chunking.cpp:362-385 | Although chunk coordinates are rounded toward zero, two entities of one map within a chunk side of each other on both axes are always in each other's 3x3 neighbourhood. |
| `ChunkViews.NearIsClose` | src/Chunking.cpp:362-385 | Conversely, two entities in each other's neighbourhood are in one map and less than three chunk sides apart on both axes. |
| `ChunkViews.QuotientTruncates` | src/Chunking.cpp:362-364 | The division is that of C++: the multiple of the divisor that is nearest to the number without being further from zero. |
| `ChunkViews.BystanderView` | src/Chunking.cpp:333-350 | When an entity moves, the client of a bystander must hear of it exactly when the bystander is in one of the two differences, old minus new or new minus old; what it is told to forget it knew, what it is told of it did not know. |
| `ChunkViews.MoverView` | src/Chunking.cpp:333-350 | The client of the moving player must hear of exactly the extant entities in the two differences, and then knows what is extant around its new chunk. |
| `ChunkViews.BystanderCount` | src/Chunking.cpp:209-213 | A bystanding mob's number of players in view changes by one exactly when a player crosses its view. |
| `ChunkViews.MoverCount` | src/Chunking.cpp:277-281 | A moving mob's own number of players in view changes by the numbers of players in the two differences. |
| `ChunkLedger.MembersOfView` | src/Chunking.cpp:366-385 | The chunk objects found around a position hold exactly the entities in the 3x3 neighbourhood. |
| `ChunkLedger.MembersOfDifference` | src/Chunking.cpp:333-346 | The differences of the two sets of chunk objects, computed after the map has changed, hold exactly the differences of the two neighbourhoods. |
| `ChunkLedger.CachesAfterNew` | src/Chunking.cpp:34-38 | Adding a new chunk to the caches of the entities around it leaves every cached set of viewable chunks what a fresh search would find. |
| `ChunkLedger.CachesAfterDelete` | src/Chunking.cpp:49-55 | Erasing a deleted chunk from the caches around it leaves every cached set what a fresh search would find. |
| `ChunkLedger.IndexAfterTrack` | src/Chunking.cpp:63-66 | Tracking keeps each entity in the one chunk at its position and nplayers the number of players there. |
| `ChunkLedger.IndexAfterUntrack` | src/Chunking.cpp:73-83 | Untracking keeps each entity in the one chunk at its position; nplayers stays the number of players and does not become negative, and only the chunk left may be empty. |
| `ChunkLedger.MoveClients` | src/Chunking.cpp:343-350 | Sending only the differences leaves every client knowing exactly what it should see, and no packet is redundant. |
| `ChunkLedger.MoveCounts` | src/Chunking.cpp:343-350 | Adjusting counts along the differences leaves every mob counting exactly the players in its view. |
| `ChunkLedger.LeaveClients` | src/NPCManager.cpp:58-67 | Telling the neighbourhood of a departure leaves every remaining client exact. |
| `ChunkLedger.LeaveCounts` | src/PlayerManager.cpp:56-64 | Telling the neighbourhood of a departure leaves every remaining mob counting exactly the players in its view. |
| `ChunkLedger.HideClients` | src/Eggs.cpp:226-229 | Taking an egg out of view while it stays in its chunk leaves every client exact for the extant entities. |
| `ChunkLedger.ShowClients` | src/Eggs.cpp:117-124 | Bringing an egg back into view leaves every client exact for the extant entities. |
| `Chunking.World.constructor` | src/Chunking.cpp:23 | The empty shard satisfies the invariant. |
| `Chunking.World.GetViewableChunks` | src/Chunking.cpp:366-385 | The nine lookups find exactly the chunk objects of the neighbourhood. |
| `Chunking.World.NewChunk` | src/Chunking.cpp:25-39 | A chunk is created once, empty, as a new object, and every cache around it learns of it; nothing happens if it exists. |
| `Chunking.World.DeleteChunk` | src/Chunking.cpp:41-57 | An empty chunk goes from the map and from every cache. |
| `Chunking.World.TrackEntity` | src/Chunking.cpp:59-67 | The entity is in the chunk; nothing happens if there is no such chunk. |
| `Chunking.World.UntrackEntity` | src/Chunking.cpp:69-84 | The entity is out of the index, the assertion on nplayers holds, and the chunk goes exactly if it is empty. |
| `Chunking.World.RemoveEntityFromChunks` | src/Chunking.cpp:229-295 | All clients and mob counts concerned are updated at once, one loop turn at a time; each exit packet names something its client knows. |
| `Chunking.World.AddEntityToChunks` | src/Chunking.cpp:152-227 | All clients and mob counts concerned by an arrival are updated at once, one loop turn at a time; each enter packet names something its client does not know. |
| `Chunking.World.UpdateEntityChunk` | src/Chunking.cpp:321-356 | From any state in which index, caches, counts and clients are exact, a move leaves them exact, with the entity at the new position and all other chunks the objects they were. |
| `NPCManager.AddEntity` | src/PlayerManager.cpp:26-33 | A new player or NPC is known by id and is in no chunk; the invariant is kept. |
| `NPCManager.DestroyNPC` | src/NPCManager.cpp:43-68 | Exactly that NPC leaves the map, the index and every client and count; unknown and unplaced ones are left alone. |
| `NPCManager.UpdateNPCPosition` | src/NPCManager.cpp:70-83 | The NPC ends in the chunk of its coordinates, whether or not that is a new one, and the invariant is kept; its coordinates, angle and instance are the given ones. |
| `PlayerManager.UpdatePlayerPosition` | src/PlayerManager.cpp:72-87 | The player ends in the chunk of its coordinates with index, caches, counts and clients exact, also when it comes from the reserved instance in the middle of a warp; its coordinates, angle and instance are the given ones. |
| `PlayerManager.UpdatePlayerPositionForWarp` | src/PlayerManager.cpp:94-100 | Out of everything, then into everything at the new place: the two phases together are one move. |
| `PlayerManager.SendPlayerTo` | src/PlayerManager.cpp:102-144 | A warp, after which the instance left behind is gone if and only if it is private and has no player. |
| `PlayerManager.LeaveWorld` | src/PlayerManager.cpp:56-64 | The player leaves map, index, clients and counts; here the clients hear before the chunk loses the player. |
| `PlayerManager.RemovePlayer` | src/PlayerManager.cpp:35-70 | The player leaves everything, and the instance it was in goes too if and only if it is private and nobody is left there. |
| `Eggs.EggPickup` | src/Eggs.cpp:129-230 | A summoned egg is destroyed, any other is hidden until it grows back, with the time of its return set, a dead or foreign entity is left alone. |
| `Eggs.EggStep` | src/Eggs.cpp:107-127 | Exactly the dead eggs whose time has come and that know of a chunk with a player come back, with full hit points; every other egg keeps its fields and every other entity is as extant as it was. |
| `Eggs.RipeIsDue` | src/Eggs.cpp:113-117 | For an egg in the index that means: its time has come and a player is in its neighbourhood. |
| `Eggs.InPopulatedChunks` | src/Chunking.cpp:405-412 | True exactly if one of the given chunks, whatever they are, has a player in it. |
| `Eggs.PopulatedView` | src/Chunking.cpp:405-412 | The chunks that an entity can see are populated if and only if a player is in its neighbourhood. |
| `Shard.ValidIsExact` | src/Chunking.cpp:321-356 | The invariant said of the objects themselves: chunks, nplayers, caches, counts and clients are what the placement says. |
| `Shard.GroupsWellFormed` | src/Chunking.cpp:433-462 | A check of the links on the mob objects of a map that is passed if and only if its groups are well formed; it guards the clonings of a run. |
| `Shard.SightFollows` | src/Chunking.cpp:321-385 | In every exact state a client knows every extant entity of its map within a chunk side of its player on both axes, and none that is three sides away or in another map. |
| `Shard.CountFollows` | src/Chunking.cpp:209-213 | In every exact state a mob counts at least the players within a chunk side of it and at most those less than three sides away. |
| `Shard.Run` | src/Chunking.cpp:321-475 | Over every run of spawns, joins, moves, two-phase warps, departures, destructions, egg pickups (also of summoned eggs), regrowth, changes of group links, clonings and teardowns from the empty shard: each request does to the placement, the extant entities and the ids what it should and nothing else, and at every stop all of that holds. |
| `Instances.GetChunksInMap` | src/Chunking.cpp:390-400 | Each chunk of the instance is listed, once. |
| `Instances.InstanceIds` | src/core/CNStructs.hpp:38-39 | An instance id is made of one map number and one player id; it is that of a shared map if and only if it fits into 32 bits. |
| `Instances.EmptyChunk` | src/Chunking.cpp:297-319 | Although each destroyNPC may delete the chunk being emptied, exactly its NPCs go, and the chunk with the last; with a player inside nothing changes. |
| `Instances.DestroyInstance` | src/Chunking.cpp:477-483 | Exactly the chunks of the instance without a player are gone, with their NPCs; a chunk with a player is left as it is. |
| `Instances.DestroyInstanceIfEmpty` | src/Chunking.cpp:485-499 | A private instance without players ends without chunk or NPC and no cache, count or client elsewhere differs; with a player, or for the shared maps, nothing changes. |
| `Instances.Elsewhere` | src/Chunking.cpp:477-499 | Views never cross instances, so emptying or filling one changes no view in another. |
| `InstanceCopies.CreateInstance` | src/Chunking.cpp:414-475 | With well-formed mob groups: each NPC of the template, followers included, is copied once under a fresh id, placed as its source is but in the new instance, with the right hit points and links; the template, all other chunks and all other views are what they were; a second call does nothing. |
| `InstanceCopies.CopyIs` | src/Chunking.cpp:433-472 | Field by field what a copy is: type, coordinates and angle of its source, the new instance, the hit points of its type or 400, no links for a mob without a group, and for a member of a group the leader, offsets and members that are the copies of its source's. |
| `InstanceCopies.CopyFollower` | src/Chunking.cpp:446-462 | One listed follower: new id, leader link, offsets, entry in the leader's list, placement. |
| `InstanceCopies.CopyLeader` | src/Chunking.cpp:437-466 | A leader and each of its listed followers, before the leader is placed. |
| `InstanceCopies.CopyLone` | src/Chunking.cpp:467-472 | A mob without a group, or any other NPC as a plain one. |
| `InstanceCopies.AllCopied` | src/Chunking.cpp:424-435 | Skipping followers misses none: every source ends up copied, with its leader. |
| `InstanceCopies.TemplateStays` | src/Chunking.cpp:424-425 | The chunks being walked hold what they held while copies are placed. |
| `InstanceCopies.CopiesGrouped` | src/Chunking.cpp:442-462 | The copies are grouped among themselves as their sources are: every leader and member link of a copy names a copy, so the copied map is well formed in turn. |
| `TradeExchange.ExchangeTotals` | src/Trading.cpp:10-102 | After a successful doTrade each party holds, of every item, what it held less what it offered plus what it was offered, even when a later slot names an inventory slot filled earlier in the same trade. |
| `TradeExchange.ExchangeStocked` | src/Trading.cpp:32-66 | No stack becomes empty or negative. |
| `TradeExchange.TakeOutTotal` | src/Trading.cpp:18-39 | What leaves an inventory for one slot. |
| `TradeExchange.PutInTotal` | src/Trading.cpp:67-95 | What arrives for one slot. |
| `TradeExchange.DoTrade` | src/Trading.cpp:10-102 | The in-place editing of the copied inventories comes to that exchange; on failure both real inventories are what they were. |
| `TradeSuccess.ExchangeIff` | src/Trading.cpp:10-102 | doTrade succeeds if and only if each party, for itself, can pass all five slots: its offer is taken from a slot that holds that item in at least the offered amount, and what it is offered finds the first free slot; the inventories it then ends with are the only ones that this allows. |
| `TradeSuccess.FailsIff` | src/Trading.cpp:18-99 | It fails if and only if some party gets stuck at some slot: the offer names an item that is not there at that point, or too few of it, or there is no free slot for what arrives. |
| `TradeSuccess.DistinctIff` | src/Trading.cpp:10-102 | For offers of distinct stacks, said of the inventories as they are before: it succeeds if and only if every stack is large enough and, whenever an item arrives, more slots are free or emptied than items have arrived. |
| `TradeSuccess.Succeeds` | src/Trading.cpp:10-102 | So it succeeds if the offers of each party name distinct stacks that are large enough and each party has as many free slots as it is offered items. |
| `TradeExchange.CappedExact` | src/Entities.cpp:148-233 | For all five capped values: a value between zero and its cap stays there, an addition, subtraction or assignment is exact if and only if it does not hit the end, and otherwise gives that end; a negative amount is not added or taken. |
| `TradeExchange.Player.Put` | src/Entities.cpp:165-180 | Writing one capped value leaves the other four alone. |
| `TradeExchange.Player.AddCapped` | src/Entities.cpp:182-199 | Saturating addition to any of the five values. |
| `TradeExchange.Player.SubtractCapped` | src/Entities.cpp:201-218 | Subtraction that stops at zero, from any of the five values. |
| `TradeExchange.Player.SetCapped` | src/Entities.cpp:220-233 | Clamped assignment of any of the five values. |
| `TradeProtocol.BalanceExact` | src/Entities.cpp:182-218 | A payment out of what a player has is exact unless it would exceed the cap, and nothing overflows 32 bits. |
| `TradeEffects.PeerIsOther` | src/Trading.cpp:222-226 | The peer that a packet names is the trader that is not the requester. |
| `TradeEffects.WhoTrades` | src/Trading.cpp:130-338 | An accepted invitation begins a trade unless the other party trades already; a cancellation ends it, and so does any confirmation but the first; nothing else does either. |
| `TradeEffects.WhoConfirms` | src/Trading.cpp:219-473 | Only a first confirmation raises a flag, that of its sender; whatever begins or ends a trade or alters an offer lowers both. |
| `TradeEffects.WhatIsOffered` | src/Trading.cpp:340-473 | But for an exchange, an item or an amount of cash on offer is what the last request of its owner put there. |
| `TradeEffects.WhatIsOwned` | src/Trading.cpp:259-309 | Only a successful exchange changes what anybody owns: the money is what it was less the payment plus the other's, or the cap, and the inventory is what passing the five slots leaves. |
| `TradeProtocol.RunSound` | src/Trading.cpp:219-473 | Over every run of the handlers among any number of players, isTrading implies 0 <= moneyInTrade <= money. |
| `TradeProtocol.StepTaros` | src/Trading.cpp:277-293 | One request changes the sum of all taros exactly if it is an exchange that takes a balance over the cap, and then taros are lost. |
| `TradeProtocol.TarosConserved` | src/Trading.cpp:277-293 | While the sum of all taros is within the cap, every run leaves it the same. |
| `TradeProtocol.ItemsConserved` | src/Trading.cpp:10-102 | Every run leaves the number of every item over all players the same. |
| `TradeAgreement.OwnTermsConfirmed` | src/Trading.cpp:259-271 | In every run, whoever counts as confirmed sent its confirmation after the last change of its own offer. |
| `TradeAgreement.UndisturbedIff` | src/Trading.cpp:219-271 | In every run, once b has confirmed to a and for as long as that counts, a still offers what b confirmed if and only if no request between a and a third player has altered a's offer. |
| `TradeAgreement.LiveKeepsOwn` | src/Trading.cpp:219-271 | For as long as it counts, b itself offers what it confirmed. |
| `TradeAgreement.AgreedIff` | src/Trading.cpp:219-473 | In every run, b has confirmed to a what a offers now if and only if a bit kept for the ordered pair stands: raised by b's confirmation to a, dropped with b's flag and when a request of a with a third player alters a's offer. |
| `TradeAgreement.ConfirmedElsewhere` | src/Trading.cpp:219-271 | If every confirmation of b since its flag was last down named somebody else than a, b has not agreed with a and the bit does not stand. |
| `TradeAgreement.ExchangeAgreedIff` | src/Trading.cpp:259-281 | An exchange that a's confirmation to b sets off uses no item or cash that either has not confirmed to the other if and only if that bit stands. |
| `TradeAgreement.PairTermsConfirmed` | src/Trading.cpp:259-271 | It always stands if two traders' packets name each other only: whoever counts as confirmed sent that to the other, after the last change of either offer. |
| `TradeAgreement.ExchangeAgreed` | src/Trading.cpp:259-281 | So an exchange between such traders uses no item or cash that either has not confirmed. |
| `TradeAgreement.ThirdParty` | src/Trading.cpp:219-271 | An exchange for which the bit does not stand: a run of five packets in which a player confirms to a second one and a third one gets the money. |
| `Trading.TradeOfferAccept` | src/Trading.cpp:130-172 | On player objects: refused if the other party trades already, else both begin a trade with no offers and unconfirmed, as TradeProtocol.Step says; nobody else changes. |
| `Trading.TradeConfirm` | src/Trading.cpp:219-310 | On player objects: abort if one is not trading, a first confirmation, or the end of the trade with its exchange or failed exchange, as TradeProtocol.Step says. |
| `Trading.CarryOut` | src/Trading.cpp:265-309 | The exchange with both payments, in the order of the code. |
| `Trading.TradeConfirmCancel` | src/Trading.cpp:312-338 | On player objects: both parties stop trading and are unconfirmed, as TradeProtocol.Step says. |
| `Trading.TradeRegisterItem` | src/Trading.cpp:340-391 | On player objects: a slot and inventory number in range and two traders make it an offer and unconfirm both; anything else changes nothing. |
| `Trading.TradeUnregisterItem` | src/Trading.cpp:393-440 | On player objects: a slot in range and two traders clear the offer and unconfirm both; anything else changes nothing. |
| `Trading.ServeAll` | src/Trading.cpp:130-473 | Every run of the handlers on player objects is a run of TradeProtocol.Step; it keeps what each puts into a trade within what it has and the number of every item over all players, and the sum of taros while that is within the cap. |
| `Trading.TradeRegisterCash` | src/Trading.cpp:442-473 | On player objects: an amount the player has is put into the trade and both are unconfirmed, whether or not anybody is trading; anything else changes nothing. |
| `PacketCipher.SwappedTwice` | src/core/CNProtocol.cpp:9-30 | The swapping pass is its own inverse, for every block size and offset it is given. |
| `PacketCipher.SwappedPermutes` | src/core/CNProtocol.cpp:14-26 | It only permutes bytes within disjoint blocks and leaves the shorter rest alone. |
| `PacketCipher.EncryptByteChangeA` | src/core/CNProtocol.cpp:9-30 | The loop stays in bounds, comes to that pass on its stretch of the buffer and returns the size. |
| `PacketCipher.XoredTwice` | src/core/CNProtocol.cpp:32-39 | The xor pass is its own inverse. |
| `PacketCipher.XorData` | src/core/CNProtocol.cpp:32-39 | The loop xors each byte of its stretch with the key byte of its place, counted modulo eight, leaves all others alone, and returns the size. |
| `PacketCipher.CipherRoundTrip` | src/core/CNProtocol.cpp:49-59 | decryptData undoes encryptData, and the other way round, for every buffer, key and size. |
| `PacketCipher.SwappedAt` | src/core/CNProtocol.cpp:9-30 | Where each byte comes from: in block b the bytes at offset (k + b) modulo half a block and one, from either end, have changed places, and all others and the shorter rest are where they were. |
| `PacketCipher.EncryptedAt` | src/core/CNProtocol.cpp:49-53 | Each encrypted byte is the byte from that place, xored with the key byte of that place. |
| `PacketCipher.DecryptedAt` | src/core/CNProtocol.cpp:55-59 | Each decrypted byte is the byte from that place, xored with the key byte of its own place. |
| `PacketCipher.EncryptData` | src/core/CNProtocol.cpp:49-53 | Both passes in place on a stretch of the buffer: each byte is one byte of the stretch xored with one byte of the key, at places given by arithmetic; the rest of the buffer stays, and the size is returned. |
| `PacketCipher.DecryptData` | src/core/CNProtocol.cpp:55-59 | The passes in the other order, in place: each byte is one byte of the stretch xored with one byte of the key, at places given by arithmetic; the rest of the buffer stays, and the size is returned. |
| `CNProtocol.U32RoundTrip` | src/core/CNProtocol.cpp:160-164 | A length or packet type is read back from the front of the bytes it was written to. |
| `CNProtocol.LowByteFirst` | src/core/CNProtocol.cpp:160-164 | Lengths and packet types are written with the low byte first. |
| `CNProtocol.SendPacket` | src/core/CNProtocol.cpp:149-182 | What is sent is the length and the encrypted type and body. |
| `CNProtocol.FramedAt` | src/core/CNProtocol.cpp:149-182 | Byte by byte what is sent: the length in the clear, then bytes of the type and body xored with the key, at places given by arithmetic. |
| `CNProtocol.HeaderTracks` | src/core/CNProtocol.cpp:246-270 | Reading a length keeps track of the packets still to come. |
| `CNProtocol.BodyTracks` | src/core/CNProtocol.cpp:272-300 | Every fragment of a body keeps track of the packets still to come; the last one hands over exactly the packet that was sent. |
| `CNProtocol.Delivered` | src/core/CNProtocol.cpp:242-300 | Whatever the fragments, as long as no length is split, the handler is given the sent packets in order and once each, all of them when the wire is empty, and readBufferIndex stays within readSize. |
| `CNProtocol.StepProgress` | src/core/CNProtocol.cpp:272-285 | Every byte received brings the end nearer. |
| `CNProtocol.StepDrops` | src/core/CNProtocol.cpp:246-285 | A step drops the connection if and only if it fails or is closed where a length or more of a body is due, or the length is split or too large. |
| `CNProtocol.StepSized` | src/core/CNProtocol.cpp:184-187 | Whatever comes over the wire, also a length below four or below zero: the buffer is never overrun, no packet handed on is longer than it, and a frame too short for a packet type gets a size that no packet has. |
| `CNProtocol.CNSocket.constructor` | src/core/CNProtocol.hpp:168-171 | A new socket has nothing in its buffer. |
| `CNProtocol.CNSocket.Step` | src/core/CNProtocol.cpp:242-300 | The method on the socket, for anything recv can give: a length of any value, a fragment, a finished packet or a frame too short for one, and all the ways to drop the connection. |
| `MobMachine.EngageOk` | src/MobAI.cpp:770-785 | The transition to combat, with the group, keeps the invariant. |
| `MobMachine.WithdrawOk` | src/MobAI.cpp:787-794 | The transition to retreat, with the group, keeps the invariant. |
| `MobMachine.DamageOk` | src/MobAI.cpp:35-66 | Damage keeps target set exactly in combat, hit points in range and zero exactly when dead; the assertion on a roaming mob holds; it kills exactly if it is not less than the hit points. |
| `MobMachine.HealOk` | src/Combat.cpp:255-261 | Healing keeps this for a living mob, and for a dead one only if it heals nothing. |
| `MobMachine.LoseAggroOk` | src/MobAI.cpp:519-534 | Finding the next player or retreating keeps the invariant. |
| `MobMachine.DrainOk` | src/MobAI.cpp:536-553 | Damage from buffs, which may kill the mob in the middle of its step, keeps the invariant of all mobs. |
| `MobMachine.UseAbilitiesOk` | src/MobAI.cpp:340-438 | A corruption thrown back, or one that ends the fight, keeps the invariant of all mobs. |
| `MobMachine.AttackOk` | src/MobAI.cpp:606-629 | The attack and the retreat out of range keep the invariant, also one after the other. |
| `MobMachine.CombatStepOk` | src/MobAI.cpp:516-630 | A whole combat step keeps the invariant of all mobs. |
| `MobMachine.StepOk` | src/MobAI.cpp:22-33 | Every step in every state keeps the invariant of all mobs, and the dead elsewhere are untouched; so the assertion at the head of combatStep holds. |
| `MobTransitions.DeadStepIs` | src/MobAI.cpp:451-514 | A dead mob comes back exactly if it has faded, now or before, is not summoned and its time has come, and then with full hit points; if not, only its fading changes; no other mob is touched. |
| `MobTransitions.RoamingStepIs` | src/MobAI.cpp:632-645 | A roaming mob fights exactly if it is in view, looks and finds a player, which it then fights; if not, only the time of its next look changes and no other mob is touched. |
| `MobTransitions.RetreatStepIs` | src/MobAI.cpp:723-753 | A retreating mob roams with full hit points exactly when it has arrived; if not, nothing changes. |
| `MobTransitions.CombatStepIs` | src/MobAI.cpp:516-630 | A fighting mob in view dies exactly if what it suffers is not less than its hit points, retreats exactly if it is left without a target or gets out of range, and otherwise fights on, against the player it found last; with its hit points, ability and times after that. |
| `MobTransitions.UseAbilitiesIs` | src/MobAI.cpp:340-438 | What a use of abilities makes of the mob itself: the pause after a hit, the end of a pause, a new ability, and the damage or the lost target of a corruption. |
| `MobTransitions.OutOfSight` | src/MobAI.cpp:22-33 | Out of sight nothing roams or fights. |
| `MobTransitions.StepTogether` | src/MobAI.cpp:108-163 | A step of a mob changes no other than those of its group, which engage and retreat with it: nobody of the group of a leader that exists is left roaming, or fighting. |
| `MobTransitions.StruckTogether` | src/MobAI.cpp:35-66 | A hit on a roaming mob makes it and its group fight the player who hit; a hit on any other changes no other mob. |
| `MobTransitions.HealIs` | src/Combat.cpp:255-261 | Healing adds hit points up to the maximum. |
| `MobMachine.RunOk` | src/MobAI.cpp:22-66 | In every state that damage, steps, healing of the living and removals reach, target is set exactly in combat, hit points are in range and zero exactly when dead, and groups are in order. |
| `MobMachine.EngageTogether` | src/MobAI.cpp:108-132 | When a member engages, no member of its group is left roaming, those that roamed fight the same player and the others are untouched. |
| `MobMachine.NobodyLeftRoaming` | src/MobAI.cpp:108-132 | After a member engages, no mate is left roaming if and only if the leader exists or no mate was roaming. |
| `MobMachine.RetreatTogether` | src/MobAI.cpp:134-163 | When a member retreats, no member is left fighting, those moved have no target and the others, the dead among them, are untouched. |
| `MobMachine.NobodyLeftFighting` | src/MobAI.cpp:134-163 | After a member retreats, no mate is left fighting if and only if the leader exists or no mate was fighting. |
| `MobMachine.LeaderGone` | src/MobAI.cpp:108-163 | Reachable instances of a mate left behind: with the leader removed, a hit on one follower leaves the other roaming, and a follower that loses its target leaves the other fighting. |
| `MobAI.FollowToCombat` | src/MobAI.cpp:108-132 | The loop over the leader's list, which stops at its first empty entry, engages exactly those it reaches. |
| `MobAI.RetreatGroup` | src/MobAI.cpp:134-163 | The loop over the leader's list sends back exactly those fighting that it reaches; the fields are set without a transition. |
| `MobAI.DamageMob` | src/MobAI.cpp:35-66 | takeDamage on mob objects; it keeps the invariant of all mobs. |
| `MobAI.Mob.Lose` | src/Combat.cpp:245-249 | The damage taken is what was asked for, or all the hit points there are. |
| `MobAI.LoseHealth` | src/Combat.cpp:245-253 | Its superclass part, with the transition to death. |
| `MobAI.Mob.Heal` | src/Combat.cpp:255-261 | heal on a mob object. |
| `MobAI.Transition` | src/Combat.cpp:312-326 | The state is set and the handler of the new state runs. |
| `MobAI.TransitionToRetreat` | src/MobAI.cpp:787-794 | onRetreat, which takes the group along. |
| `MobAI.CheckAggro` | src/MobAI.cpp:170-228 | Engages the player found, if any, with the group. |
| `MobAI.StayDead` | src/MobAI.cpp:451-514 | deadStep: fading, removal of summoned mobs, the step of a dead leader that looks for nobody, respawn. |
| `MobAI.TickBuffs` | src/MobAI.cpp:536-553 | The buff loop stops when the state changes. |
| `MobAI.Mob.WindUp` | src/MobAI.cpp:340-438 | The part of useAbilities that concerns the mob itself: skill style and next attack. |
| `MobAI.Cast` | src/MobAI.cpp:340-438 | useAbilities by skill style. |
| `MobAI.Fight` | src/MobAI.cpp:516-630 | combatStep but for the chase; its assertion holds. |
| `MobAI.Roam` | src/MobAI.cpp:632-645 | The looking around of roamingStep, never for a dead leader. |
| `MobAI.ComeHome` | src/MobAI.cpp:749-753 | The end of retreatStep. |
| `MobAI.StepMob` | src/MobAI.cpp:22-33 | Mob::step with its visibility gate; it keeps the invariant of all mobs. |
| `MobAI.Run` | src/MobAI.cpp:22-66 | Every run of damage, steps, healing and removals on mob objects is a run of the state machine, and keeps the invariant and the groups. |
| `Transport.BuildQueue` | src/Transport.cpp:411-431 | The interpolating loop builds the circuit: each point but the last, followed by what lies between it and the next. |
| `Transport.CircuitLegs` | src/Transport.cpp:411-431 | The circuit has all the legs of the route, each where the one before it ends: a point, moved by the position of the NPC if the path is relative, and then what lies between it and the next; there is nothing else in it. |
| `Transport.System.ConstructPathNPC` | src/Transport.cpp:389-434 | Whether or not the NPC had a path: its queue is that circuit, which for a mob on an absolute loop begins at its spawn point; every other mob on a circuit stays on it. |
| `Transport.RotationStep` | src/Transport.cpp:265-317 | Walking one point on a loop turns the queue into another rotation of the circuit with the same points. |
| `Transport.System.WalkOn` | src/Transport.cpp:248-321 | One entry: dropped, skipped, or walked one point on, which is put back if the path loops; only that NPC moves, to the point that was in front. |
| `Transport.System.StepNPCPathing` | src/Transport.cpp:244-323 | Dead and empty paths are dropped; of the others, mobs that are not simulated or do not roam stay, and everybody else is put on the point in front, which goes to the end of the queue if the path loops and out of it if not; the queue of every mob on a circuit stays a rotation of it. |
| `Transport.FrontAfter` | src/Transport.cpp:265-317 | Walked round and round, the point in front after some rounds and i steps is point i. |
| `Transport.System.Patrol` | src/Transport.cpp:244-323 | Tick after tick, an NPC on a loop visits the points of its queue in order, round after round. |
| `Transport.Rewind` | src/MobAI.cpp:861-864 | The loop terminates with the first spawn point in front, the queue rotated to it. |
| `Transport.RewindEnds` | src/MobAI.cpp:852-864 | The rewinding loop ends if and only if the spawn point is in the queue. |
| `Transport.System.LeaderWalk` | src/MobAI.cpp:694-717 | The walk over a leader's list gives a queue to the leader and to exactly the mobs among the followers listed before the first empty entry, on a preset path or not; every mob on a circuit keeps a rotation of it if and only if no follower on a circuit is given anything else. |
| `Transport.LostCircuit` | src/Missions.cpp:373-388 | An instance that fails: a follower is put on a circuit as at the start of an escort mission, its leader's walk replaces the queue by one without the spawn point, and the rewinding of that queue would never end. |
| `Transport.System.CircuitRewinds` | src/MobAI.cpp:852-864 | The spawn point of a mob on a circuit is in its queue, so its rewinding ends. |
| `Transport.System.Respawn` | src/MobAI.cpp:494 | Coming back to life leaves every circuit a rotation of itself. |
| `Transport.System.OnDeath` | src/MobAI.cpp:844-868 | Death rewinds the queue of a mob on a preset path to its spawn point, drops that of any other mob, and leaves every circuit a rotation of itself; it requires that the spawn point is in a queue to be rewound. |
| `Transport.Run` | src/Transport.cpp:244-434 | Over every run of path assignments, path steps, deaths, respawns and walks that take no circuit away: each event does to queues, positions and states what it should and nothing else, the queue of every mob on a circuit is a rotation of it, and every mob on a preset path can be rewound. |
| `Groups.AddToGroup` | src/Groups.cpp:66-85 | Member and group name each other. |
| `Groups.Group.constructor` | src/Groups.cpp:19-21 | A new group has its leader as only member. |
| `Groups.RemoveFromGroup` | src/Groups.cpp:114-174 | The member is out; if one would be left alone it goes too, by the recursion, and exactly then, or when nobody is left, the group is deleted; the others are untouched. |
| `Groups.DisbandGroup` | src/Groups.cpp:176-186 | The loop ends with the group empty and everybody out of it. |
| `Groups.GroupKick` | src/Groups.cpp:310-322 | The leader takes the whole group along, anybody else only itself and perhaps the last one. |
| `Groups.Lobby.JoinGroup` | src/Groups.cpp:233-256 | A player without a group joins that of the inviter at its end, a new one with the inviter at its head if there is none, unless it is full; nobody else joins or leaves any group. |
| `Groups.Lobby.Kick` | src/PlayerManager.cpp:43-45 | The player is out; if it was the leader or one other is left, everybody of its group is; else the others stay in their order; no other group changes. |
| `Groups.Lobby.LeaveGroup` | src/Groups.cpp:258-261 | The player is in no group, with the same effect on the others. |
| `Groups.Lobby.RemovePlayer` | src/PlayerManager.cpp:35-64 | A disconnecting player leaves its group first. |
| `Groups.Run` | src/Groups.cpp:66-322 | Over every run of connects, joins, leaves and disconnects: each request changes who is in a group with whom as it should and in no other way, a player names a group if and only if it is a member of it, groups have 2 to 4 members, each once, and the founder leads its group for the group's whole life. |
| `Groups.WithoutDistinct` | src/Groups.cpp:132-137 | Erasing a member leaves the others, each once, and the head if it is another. |
| `Groups.WithoutOne` | src/Groups.cpp:132-137 | Erasing a member takes out one entry for it and keeps the order of the rest. |
| `TablePatch.PatchJSON` | src/TableData.cpp:1074-1127 | The in-place loops come to a merge that says of each property on its own what becomes of it; the recursion terminates. |
| `TablePatch.ForcedStep` | src/TableData.cpp:1100-1104 | A forced property in the key loop. |
| `TablePatch.PlainStep` | src/TableData.cpp:1106-1120 | A plain property in the key loop: erased, merged or added. |
| `TablePatch.PlainFirstIsOrder` | src/TableData.cpp:1094-1104 | Whether a plain or a forced key for the same property is visited first. |
| `TablePatch.PropertyAfter` | src/TableData.cpp:1094-1122 | What any patch makes of a property: a forced key sets it, a plain null erases what is there, a plain value is added or patched onto what is there, and with both a plain and a forced key the order of the keys decides. |
| `TablePatch.SaidIsThere` | src/TableData.cpp:1106-1125 | What a patch free of arrays, nulls and forced keys says at the end of a path is there afterwards, if and only if nothing of another kind or null stands in its way; if so, what was there stays. |
| `TablePatch.ArraysAppend` | src/TableData.cpp:1087-1091 | A patched array has its own elements first and then those of the patch, in order. |
| `TablePatch.RootKind` | src/TableData.cpp:1078-1083 | Any patch leaves a value the kind it is, but for signed and unsigned integers. |
| `TablePatch.FixedIff` | src/TableData.cpp:1074-1127 | Patching a value with itself changes nothing if and only if it is fixed: no array that adds, no null, no forced key that differs from its plain one. |
| `TablePatch.IdempotentIff` | src/TableData.cpp:1074-1127 | A patch can be applied again without effect, to whatever base, if and only if it is stable: it is no array that adds, and no plain key without a forced one holds a null or a value that is not fixed. |
| `TablePatch.Idempotent` | src/TableData.cpp:1074-1127 | In particular a patch free of arrays, nulls and forced keys can be applied again without effect. |
| `TablePatch.StableInstances` | src/TableData.cpp:1087-1112 | Not stable are an array that adds, a null and a forced key below the top; stable are a forced key at the top and an array that adds nothing. |
| `TablePatch.NotIdempotent` | src/TableData.cpp:1087-1112 | Three unstable patches, each with a base on which the second application changes something. |
| `TablePatch.UnmentionedStays` | src/TableData.cpp:1106-1120 | Such a patch leaves every path it does not mention as it is. |
| `TablePatch.KindsKept` | src/TableData.cpp:1078-1083 | It removes no value and changes none to another kind, at any depth, but for signed and unsigned integers. |
| `PlayerStore.OneArray` | src/db/player.cpp:328-384 | The three ranges of slots are disjoint and follow one another. |
| `PlayerStore.RowsAre` | src/db/player.cpp:328-384 | There is a row exactly for each slot that is not empty. |
| `PlayerStore.SavedSlotsDistinct` | src/db/player.cpp:328-384 | No two rows have the same slot, and none is out of range. |
| `PlayerStore.ItemsRoundTrip` | src/db/player.cpp:89-127 | In whatever order the saved rows come back, loading them into an empty player gives every slot what it held. |
| `PlayerStore.SavedAgain` | src/db/player.cpp:328-384 | Saving what was loaded gives the same rows. |
| `PlayerStore.QuestRoundTrip` | src/db/player.cpp:129-152 | Quest items come back with type 8 and no time limit. |
| `PlayerStore.QuestItemsSurvive` | src/db/player.cpp:129-152 | Quest items survive saving and loading if and only if they are of type 8 and have no time limit. |
| `PlayerStore.TaskRowsAre` | src/db/player.cpp:468-487 | The saved tasks are the active ones and nothing else, each once and in order. |
| `PlayerStore.TasksRoundTrip` | src/db/player.cpp:454-484 | Distinct tasks come back in order with their counts and the gaps closed. |
| `PlayerStore.TasksSavedAgain` | src/db/player.cpp:454-484 | Saving loaded tasks again gives the same rows if and only if no task was there twice. |
| `PlayerStore.LoadedDistinct` | src/db/player.cpp:195-208 | However it was saved, no task is loaded twice. |
| `PlayerStore.Player.SaveItems` | src/db/player.cpp:328-384 | The three loops write those rows. |
| `PlayerStore.Player.LoadItems` | src/db/player.cpp:102-127 | The loop puts each row into the array its slot belongs to, up to the first row for the slot just past the last one, which the check lets through; it gets to the end if and only if there is no such row. |
| `PlayerStore.Player.SaveTasks` | src/db/player.cpp:468-487 | The loop writes the active tasks. |
| `PlayerStore.Player.LoadTasks` | src/db/player.cpp:195-208 | The loop fills the arrays of tasks, leaving a gap for a task that an earlier row has, and ignores what does not fit. |
| `PlayerStore.SaveAndLoad` | src/db/player.cpp:89-208 | Saving a player and loading a new one gives items slot for slot and distinct tasks in order. |

## Left out

- Sockets, polling, threads and timers: `recv` gives an arbitrary number of bytes, packets to clients
  are changes of ghost state, times and random rolls are parameters.
- The splitting of around packets into full ones (src/Chunking.cpp:86-150): a client is told of an
  entity, in whatever packet.
- The lookup of an entity by a bare NPC id (src/NPCManager.cpp:59-60): methods are given the whole
  reference.
- NPC ids are unbounded integers handed out downwards; `InstanceCopies.CreateInstance` requires that
  enough of them are free.
- Mob deaths and respawns in the client views: in the chunk model a mob's hit points do not change, as
  its packets are sent with a delay; only eggs appear and disappear.
- A player cannot be moved into the instance id of INVALID_CHUNK; the model requires it, the code does
  not ask.
- Shard.Run: clones a map only if its groups are well formed and there are ids for the copies, which it
  checks first.
- Trades of a player with itself, and players who connect or leave during a trade.
- Trading.TradeRegisterItem: does not model the counts shown to the clients, which only go into packets.
- The 32-bit width of stack sizes.
- sendPacket's handling of a socket that is closed or has no key, and partial sends.
- CNProtocol.CNSocket.Step: does not call the cipher with the negative size that the code passes it for a
  negative length, but with size zero; either touches nothing.
- Dispatch of a packet to its handler by packet descriptors (src/core/CNProtocol.cpp:188-240).
- Movement in the mob state machine (src/MobAI.cpp:575-604, 647-746) with the timers that only pace it,
  distances, damage formulas, and what skills do to players: these are choices from outside.
- MobAI.Transition: does not model the special NPC events after a transition (src/Combat.cpp:322-325).
- MobAI.StayDead: does not model the walk of a dead leader, which is `Transport.System.LeaderWalk`, nor the
  position at which a mob respawns.
- MobAI.Fight: does not model the chase and its timer, which move the mob and nothing else.
- MobMachine.RunOk: does not model toggling of mob AI and other administrator commands, which overwrite
  mob states.
- Transport.Run: puts mobs on absolute loops that begin at their spawn points only. On another preset path
  `Transport.System.OnDeath` requires that the spawn point is in the queue, which `Transport.RewindEnds`
  shows the code to need.
- Members of player groups that are not players: there are none in the server's own calls.
- Invitations of a player to its own group, which would list it twice.
- TablePatch.PatchJSON: returns the new value instead of changing it through pointers; JSON values are
  trees, so nothing else could see the change.
- Loading and saving nanos, buddies, bank logs, account data, and the SQL itself; rows come back as they
  were written, in any order for items and in the order of insertion for tasks.
- PlayerStore.Player.LoadItems: stops where the code would write past the bank; what the code would
  overwrite is not part of the model.
