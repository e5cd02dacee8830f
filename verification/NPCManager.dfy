/** Placing, moving and destroying NPCs. */
module NPCManager {
  import opened ChunkViews
  import opened ChunkLedger
  import opened Chunking

  // What an entity's own record says of its place is enough to find everyone near it.
  lemma HomeKnown(w: World, ref: EntityRef)
    requires w.Valid() && ref in w.entities && (ref in w.pos || AtRest(w.pos))
    ensures w.side > 0
    ensures HomeOf(w.pos, ref, w.entities[ref].chunkPos)
    ensures if ref in w.pos then w.pos[ref] == w.entities[ref].chunkPos else w.entities[ref].chunkPos !in w.chunks
    ensures ComesFrom(w.pos, ref, w.entities[ref].chunkPos)
  {
  }

  /** An entity put into the NPCs or players map; it is not in any chunk until it is moved. */
  method AddEntity(w: World, e: Entity)
    requires w.Valid() && AtRest(w.pos) && e.ref !in w.entities
    requires e.viewableChunks == {} && e.playersInView == 0 && e.known == {} && e.chunkPos == INVALID_CHUNK
    modifies w`entities, w`ext, w`caches, w`counts, w`clients, w`homes
    ensures w.Valid()
    ensures w.entities == old(w.entities)[e.ref := e]
    ensures w.ext == old(w.ext) + if e.IsExtant() then {e.ref} else {}
  {
    hide IndexHolds, CachesHold, ClientsHold, CountsHold, HomesHold,
      World.MirrorChunks, World.MirrorRefs, World.MirrorCaches, World.MirrorCounts, World.MirrorClients,
          World.MirrorHomes, World.MirrorExt;
    ghost var shown := if e.IsExtant() then {e.ref} else {};
    JoinHolds(w.caches, w.counts, w.clients, w.homes, w.chunks, w.pos, w.ext, e.ref, shown);
    w.Adopt(e);
    w.IsValid();
  }

  /** destroyNPC: the chunk loses the NPC first, and may go with it, before the clients hear. */
  method DestroyNPC(w: World, ref: EntityRef)
    requires w.Valid() && AtRest(w.pos) && !ref.kind.Player?
    modifies w`entities, w`pos, w`ext, w`chunks, w`contents, w`tallies, w`caches, w`clients, w`counts, w`homes
    modifies w.chunks.Values
    modifies w.entities.Values`viewableChunks, w.entities.Values`playersInView, w.entities.Values`known
    ensures w.Valid()
    ensures ref in old(w.pos) ==>
              && w.pos == old(w.pos) - {ref} && w.ext == old(w.ext) - {ref}
              && w.entities == old(w.entities) - {ref}
              && w.chunks - {old(w.pos)[ref]} == old(w.chunks) - {old(w.pos)[ref]}
    ensures ref !in old(w.pos) ==>
              w.pos == old(w.pos) && w.ext == old(w.ext) && w.entities == old(w.entities) && w.chunks == old(w.chunks)
    ensures w.chunks.Values <= old(w.chunks.Values) && w.entities.Values <= old(w.entities.Values)
  {
    if ref !in w.entities {
      return;
    }
    HomeKnown(w, ref);
    w.KeysAgree();
    var entity := w.entities[ref];
    if !w.ChunkExists(entity.chunkPos) {
      return;
    }
    DestroyPlaced(w, ref, entity.chunkPos);
  }

  method DestroyPlaced(w: World, ref: EntityRef, home: ChunkPos)
    requires w.Valid() && ref in w.pos && w.pos[ref] == home && ref in w.entities
    modifies w`entities, w`pos, w`ext, w`chunks, w`contents, w`tallies, w`caches, w`clients, w`counts, w`homes
    modifies w.chunks.Values
    modifies w.entities.Values`viewableChunks, w.entities.Values`playersInView, w.entities.Values`known
    ensures w.Valid() && w.pos == old(w.pos) - {ref} && w.ext == old(w.ext) - {ref}
    ensures w.entities == old(w.entities) - {ref}
    ensures w.chunks - {home} == old(w.chunks) - {home} && w.chunks.Values <= old(w.chunks.Values)
  {
    hide Departs, Around, w.Valid, w.Mirror, w.PosOk, w.IndexOk, w.CachesOk;
    WillDepart(w, ref, home);
    w.UntrackEntity(home, ref);
    Forget(w, ref, home);
  }

  // `ref`, which is in no chunk any more, can be forgotten by those around `home` and dropped.
  ghost predicate Departs(clients: Clients, counts: Counts, homes: Placement, pos: Placement, ext: set<EntityRef>,
                          ref: EntityRef, home: ChunkPos) {
    var others := Around(pos, home) - {ref};
    && Acquainted(clients, ref, others, ext)
    && CountsHold(Lowered(counts, ref, others) - {ref}, pos)
    && ClientsHold(Parted(clients, ref, others, ext) - {ref}, pos, ext - {ref})
    && HomesHold(homes - {ref}, pos)
  }

  lemma WillDepart(w: World, ref: EntityRef, home: ChunkPos)
    requires w.Valid() && HomeOf(w.pos, ref, home) && ref in w.entities
    ensures w.Mirror() && w.PosOk() && w.IndexOk({}) && w.CachesOk()
    ensures Departs(w.clients, w.counts, w.homes, w.pos - {ref}, w.ext, ref, home)
    ensures Around(w.pos - {ref}, home) - {ref} == Around(w.pos, home) - {ref}
  {
    hide CachesHold, ClientsHold, CountsHold, HomesHold, IndexHolds, Parted, Lowered, Acquainted, Around, HomeOf,
      w.MirrorChunks, w.MirrorRefs;
    AroundWithout(w.pos, ref, home);
    assert Around(w.pos - {ref}, home) - {ref} == Around(w.pos, home) - {ref};
    LeaveClients(w.clients, w.pos, ref, home, w.ext);
    LeaveCounts(w.counts, w.pos, ref, home);
    HomesShrink(w.homes, w.pos, ref);
  }

  // the exit packets of destroyNPC, and its erasure from the NPCs map
  method Forget(w: World, ref: EntityRef, home: ChunkPos)
    requires w.Mirror() && w.PosOk() && w.IndexOk({}) && w.CachesOk() && ref in w.entities && ref !in w.pos
    requires Departs(w.clients, w.counts, w.homes, w.pos, w.ext, ref, home)
    modifies w`entities, w`ext, w`caches, w`counts, w`clients, w`homes
    modifies w.entities.Values`known, w.entities.Values`playersInView
    ensures w.Valid() && w.ext == old(w.ext) - {ref} && w.entities == old(w.entities) - {ref}
  {
    hide CachesHold, ClientsHold, CountsHold, HomesHold, Parted, Lowered, Acquainted, Around, ViewOf,
      w.Valid, w.Mirror, w.PosOk, w.IndexOk, w.CachesOk, w.Members;
    var chnks := w.GetViewableChunks(home);
    w.MembersAround(home);
    w.RemoveEntityFromChunks(chnks, ref);
    assert CachesHold(w.caches - {ref}, w.chunks, w.pos) by {
      w.CachesNow();
      DropRest(w.caches, w.homes, w.chunks, w.pos, ref);
    }
    PlacedBut(w, ref);
    w.Drop(ref);
    IndexStays(w);
    w.IsValid();
  }

  lemma PlacedBut(w: World, ref: EntityRef)
    requires w.PosOk() && ref !in w.pos
    ensures w.pos.Keys <= w.entities.Keys - {ref}
  {
  }

  lemma IndexStays(w: World)
    requires w.pos.Keys <= w.entities.Keys && CachesHold(w.caches, w.chunks, w.pos)
    ensures w.PosOk() && w.CachesOk()
  {
    hide CachesHold;
  }

  /** updateNPCPosition: whatever chunk the NPC was in, it ends in the one at its new place. */
  method UpdateNPCPosition(w: World, ref: EntityRef, X: int, Y: int, Z: int, I: int, angle: int)
    requires w.Valid() && AtRest(w.pos) && ref in w.entities && !ref.kind.Player? && I != RESERVED_INSTANCE
    modifies w`pos, w`chunks, w`contents, w`tallies, w`caches, w`clients, w`counts, w`homes
    modifies w.chunks.Values`entities, w.chunks.Values`nplayers
    modifies w.entities.Values`known, w.entities.Values`playersInView, w.entities.Values`viewableChunks,
        w.entities.Values`chunkPos
    modifies {w.entities[ref]}`x, {w.entities[ref]}`y, {w.entities[ref]}`z, {w.entities[ref]}`angle,
        {w.entities[ref]}`instanceID
    ensures w.Valid() && AtRest(w.pos)
    ensures w.side > 0 && w.pos == old(w.pos)[ref := PosAt(w.side, X, Y, I)]
    ensures w.entities[ref].x == X && w.entities[ref].y == Y && w.entities[ref].z == Z
    ensures w.entities[ref].angle == angle && w.entities[ref].instanceID == I
    ensures forall p | p in w.chunks :: w.chunks[p] in old(w.chunks.Values) || fresh(w.chunks[p])
    ensures w.chunks - {old(w.entities[ref].chunkPos), PosAt(w.side, X, Y, I)}
         == old(w.chunks) - {old(w.entities[ref].chunkPos), PosAt(w.side, X, Y, I)}
  {
    hide World.Valid;
    HomeKnown(w, ref);
    var oldChunk := w.entities[ref].chunkPos;
    var newChunk := PosAt(w.side, X, Y, I);
    w.SetCoordinates(ref, X, Y, Z, I, angle);
    if oldChunk == newChunk {
      assert w.pos == w.pos[ref := newChunk];
      return;
    }
    w.UpdateEntityChunk(ref, oldChunk, newChunk);
  }
}
