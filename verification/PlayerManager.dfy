/** Players join, move, warp and leave. */
module PlayerManager {
  import opened ChunkViews
  import opened ChunkLedger
  import opened Chunking
  import opened NPCManager
  import opened Instances

  /** updatePlayerPosition; also the second phase of a warp, when the player alone is in the
      reserved instance. */
  method UpdatePlayerPosition(w: World, ref: EntityRef, X: int, Y: int, Z: int, I: int, angle: int)
    requires w.Valid() && AtRest(w.pos - {ref}) && ref in w.entities && ref.kind.Player? && I != RESERVED_INSTANCE
    modifies w`entities, w`pos, w`ext, w`chunks, w`contents, w`tallies, w`caches, w`clients, w`counts, w`homes
    modifies w.chunks.Values
    modifies w.entities.Values`viewableChunks, w.entities.Values`playersInView, w.entities.Values`known,
        w.entities.Values`chunkPos
    modifies {w.entities[ref]}`x, {w.entities[ref]}`y, {w.entities[ref]}`z, {w.entities[ref]}`angle,
        {w.entities[ref]}`instanceID, {w.entities[ref]}`recallInstance
    ensures w.Valid() && AtRest(w.pos) && w.side > 0
    ensures w.pos == old(w.pos)[ref := PosAt(w.side, X, Y, I)] && w.ext == old(w.ext) && w.entities == old(w.entities)
    ensures w.entities[ref].x == X && w.entities[ref].y == Y && w.entities[ref].z == Z
    ensures w.entities[ref].angle == angle && w.entities[ref].instanceID == I
    ensures w.entities[ref].recallInstance == if old(w.entities[ref].instanceID) != I then INSTANCE_OVERWORLD
                                              else old(w.entities[ref].recallInstance)
    ensures forall p | p in w.chunks :: w.chunks[p] in old(w.chunks.Values) || fresh(w.chunks[p])
  {
    hide World.Valid;
    assert ref in w.pos || w.pos - {ref} == w.pos;
    HomeKnown(w, ref);
    var plr := w.entities[ref];
    var oldChunk := plr.chunkPos;
    var newChunk := PosAt(w.side, X, Y, I);
    ghost var was := w.pos;
    if plr.instanceID != I {
      w.SetRecallInstance(ref, INSTANCE_OVERWORLD);
    }
    w.SetCoordinates(ref, X, Y, Z, I, angle);
    RestAfter(was, ref, newChunk);
    if oldChunk == newChunk {
      assert w.pos == was[ref := newChunk];
      return;
    }
    w.UpdateEntityChunk(ref, oldChunk, newChunk);
  }

  lemma RestAfter(pos: Placement, ref: EntityRef, to: ChunkPos)
    requires AtRest(pos - {ref}) && to.inst != RESERVED_INSTANCE
    ensures AtRest(pos[ref := to])
  {
    forall r | r in pos && r != ref
      ensures pos[r].inst != RESERVED_INSTANCE
    {
      assert r in pos - {ref};
    }
  }

  const INSTANCE_OVERWORLD := 0

  /** updatePlayerPositionForWarp: out of everything, then into everything at the new place. */
  method UpdatePlayerPositionForWarp(w: World, ref: EntityRef, X: int, Y: int, Z: int, inst: int)
    requires w.Valid() && AtRest(w.pos) && ref in w.entities && ref.kind.Player? && inst != RESERVED_INSTANCE
    modifies w`entities, w`pos, w`ext, w`chunks, w`contents, w`tallies, w`caches, w`clients, w`counts, w`homes
    modifies w.chunks.Values
    modifies w.entities.Values`viewableChunks, w.entities.Values`playersInView, w.entities.Values`known,
        w.entities.Values`chunkPos
    modifies {w.entities[ref]}`x, {w.entities[ref]}`y, {w.entities[ref]}`z, {w.entities[ref]}`angle,
        {w.entities[ref]}`instanceID, {w.entities[ref]}`recallInstance
    ensures w.Valid() && AtRest(w.pos) && w.side > 0
    ensures w.pos == old(w.pos)[ref := PosAt(w.side, X, Y, inst)] && w.ext == old(w.ext)
        && w.entities == old(w.entities)
    ensures w.entities[ref].x == X && w.entities[ref].y == Y && w.entities[ref].z == Z
    ensures w.entities[ref].angle == old(w.entities[ref].angle) && w.entities[ref].instanceID == inst
    ensures w.entities[ref].recallInstance == if old(w.entities[ref].instanceID) != inst then INSTANCE_OVERWORLD
                                              else old(w.entities[ref].recallInstance)
    ensures forall p | p in w.chunks :: w.chunks[p] in old(w.chunks.Values) || fresh(w.chunks[p])
  {
    hide World.Valid;
    var plr := w.entities[ref];
    HomeKnown(w, ref);
    w.UpdateEntityChunk(ref, plr.chunkPos, INVALID_CHUNK);
    assert w.pos - {ref} == old(w.pos) - {ref};
    UpdatePlayerPosition(w, ref, X, Y, Z, inst, plr.angle);
  }

  /** The chunk part of sendPlayerTo: the instance left behind goes if nobody is in it any more. */
  method SendPlayerTo(w: World, ref: EntityRef, X: int, Y: int, Z: int, inst: int)
    requires w.Valid() && AtRest(w.pos) && ref in w.entities && ref.kind.Player? && inst != RESERVED_INSTANCE
    modifies w`entities, w`pos, w`ext, w`chunks, w`contents, w`tallies, w`caches, w`clients, w`counts, w`homes
    modifies w.chunks.Values
    modifies w.entities.Values`viewableChunks, w.entities.Values`playersInView, w.entities.Values`known,
        w.entities.Values`chunkPos
    modifies {w.entities[ref]}`x, {w.entities[ref]}`y, {w.entities[ref]}`z, {w.entities[ref]}`angle,
        {w.entities[ref]}`instanceID, {w.entities[ref]}`recallInstance
    ensures w.Valid() && AtRest(w.pos) && w.side > 0
    ensures var moved, fromInstance := old(w.pos)[ref := PosAt(w.side, X, Y, inst)], old(w.entities[ref].instanceID);
            var gone := if PlayerId(fromInstance) != 0 && Players(Inside(moved, fromInstance)) == {}
                        then Inside(moved, fromInstance) else {};
            w.pos == moved - gone && w.ext == old(w.ext) - gone && w.entities == old(w.entities) - gone
    ensures var plr := old(w.entities[ref]);
            && plr.x == X && plr.y == Y && plr.z == Z && plr.angle == old(plr.angle) && plr.instanceID == inst
            && plr.recallInstance == if old(plr.instanceID) != inst then INSTANCE_OVERWORLD else old(plr.recallInstance)
    ensures forall p | p in w.chunks :: w.chunks[p] in old(w.chunks.Values) || fresh(w.chunks[p])
  {
    hide World.Valid, Inside, Players, SameViews;
    var fromInstance := w.entities[ref].instanceID;
    UpdatePlayerPositionForWarp(w, ref, X, Y, Z, inst);
    assert w.pos - {} == w.pos && w.ext - {} == w.ext && w.entities - {} == w.entities;
    DestroyInstanceIfEmpty(w, fromInstance);
  }

  /** The chunk part of removePlayer: the clients hear first, then the chunk loses the player,
      then the instance the player was in may go. */
  method RemovePlayer(w: World, ref: EntityRef)
    requires w.Valid() && AtRest(w.pos) && ref in w.entities && ref.kind.Player?
    modifies w`entities, w`pos, w`ext, w`chunks, w`contents, w`tallies, w`caches, w`clients, w`counts, w`homes
    modifies w.chunks.Values
    modifies w.entities.Values`viewableChunks, w.entities.Values`playersInView, w.entities.Values`known
    ensures w.Valid() && AtRest(w.pos) && ref !in w.entities
    ensures var left, fromInstance := old(w.pos) - {ref}, old(w.entities[ref].instanceID);
            var gone := if PlayerId(fromInstance) != 0 && Players(Inside(left, fromInstance)) == {}
                        then Inside(left, fromInstance) else {};
            && w.pos == left - gone
            && w.ext == old(w.ext) - {ref} - gone
            && w.entities == old(w.entities) - {ref} - gone
    ensures w.chunks.Values <= old(w.chunks.Values)
  {
    hide World.Valid, Inside, Players, SameViews;
    var fromInstance := w.entities[ref].instanceID;
    LeaveWorld(w, ref);
    assert w.pos - {} == w.pos && w.ext - {} == w.ext && w.entities - {} == w.entities;
    DestroyInstanceIfEmpty(w, fromInstance);
  }

  method LeaveWorld(w: World, ref: EntityRef)
    requires w.Valid() && AtRest(w.pos) && ref in w.entities
    modifies w`entities, w`pos, w`ext, w`chunks, w`contents, w`tallies, w`caches, w`clients, w`counts, w`homes
    modifies w.chunks.Values
    modifies w.entities.Values`viewableChunks, w.entities.Values`playersInView, w.entities.Values`known
    ensures w.Valid() && AtRest(w.pos)
    ensures w.pos == old(w.pos) - {ref} && w.ext == old(w.ext) - {ref} && w.entities == old(w.entities) - {ref}
    ensures w.chunks.Values <= old(w.chunks.Values)
  {
    hide CachesHold, ClientsHold, CountsHold, HomesHold, Parted, Lowered, Acquainted, Around, ViewOf, HomeOf,
      World.Valid, World.Mirror, World.PosOk, World.IndexOk, World.CachesOk, World.Members;
    HomeKnown(w, ref);
    var home := w.entities[ref].chunkPos;
    WillDepart(w, ref, home);
    var chnks := w.GetViewableChunks(home);
    w.MembersAround(home);
    w.RemoveEntityFromChunks(chnks, ref);
    w.UntrackEntity(home, ref);
    assert CachesHold(w.caches - {ref}, w.chunks, w.pos) by {
      w.CachesNow();
      DropRest(w.caches, w.homes, w.chunks, w.pos, ref);
    }
    PlacedBut(w, ref);
    w.Drop(ref);
    IndexStays(w);
    w.IsValid();
  }
}
