/** Tearing down a private instance. */
module Instances {
  import opened ChunkViews
  import opened ChunkLedger
  import opened Chunking
  import opened NPCManager

  // macros MAPNUM and PLAYERID: the low and high halves of an instance id
  function MapNum(inst: int): int {
    inst % 0x1_0000_0000
  }

  function PlayerId(inst: int): int {
    inst / 0x1_0000_0000
  }

  /** An instance id is made of the number of a map and the id of a player, and from no other two; it is that of a
      shared map if it fits into the lower half. */
  lemma InstanceIds(inst: int, mapNum: int, player: int)
    ensures 0 <= mapNum < 0x1_0000_0000 && inst == player * 0x1_0000_0000 + mapNum
       <==> mapNum == MapNum(inst) && player == PlayerId(inst)
    ensures PlayerId(inst) == 0 <==> 0 <= inst < 0x1_0000_0000
  {
  }

  // Everything tracked in instance `inst`.
  function Inside(pos: Placement, inst: int): set<EntityRef> {
    set r | r in pos && pos[r].inst == inst
  }

  function ChunksIn(chunks: set<ChunkPos>, inst: int): set<ChunkPos> {
    set p | p in chunks && p.inst == inst
  }

  lemma Without(pos: Placement, a: set<EntityRef>, b: set<EntityRef>)
    ensures pos - a - b == pos - (a + b)
  {
  }

  lemma EntitiesWithout(es: Entities, a: set<EntityRef>, b: set<EntityRef>)
    ensures es - a - b == es - (a + b)
  {
  }

  method GetChunksInMap(w: World, mapNum: int) returns (coords: seq<ChunkPos>)
    ensures forall p :: p in coords <==> p in ChunksIn(w.chunks.Keys, mapNum)
    ensures forall i, j | 0 <= i < j < |coords| :: coords[i] != coords[j]
  {
    coords := [];
    var todo := w.chunks.Keys;
    while todo != {}
      invariant todo <= w.chunks.Keys
      invariant forall p :: p in coords <==> p in ChunksIn(w.chunks.Keys - todo, mapNum)
      invariant forall i, j | 0 <= i < j < |coords| :: coords[i] != coords[j]
      decreases todo
    {
      var p :| p in todo;
      todo := todo - {p};
      if p.inst == mapNum {
        assert p !in coords;
        coords := coords + [p];
      }
    }
  }

  /** emptyChunk: each destroyNPC may delete the chunk that is being emptied; the last one does. */
  method EmptyChunk(w: World, p: ChunkPos)
    requires w.Valid() && AtRest(w.pos)
    modifies w`entities, w`pos, w`ext, w`chunks, w`contents, w`tallies, w`caches, w`clients, w`counts, w`homes
    modifies w.chunks.Values
    modifies w.entities.Values`viewableChunks, w.entities.Values`playersInView, w.entities.Values`known
    ensures w.Valid() && AtRest(w.pos)
    ensures p in old(w.chunks) && Players(At(old(w.pos), p)) == {} ==>
              && w.pos == old(w.pos) - At(old(w.pos), p)
              && w.entities == old(w.entities) - At(old(w.pos), p)
              && w.ext == old(w.ext) - At(old(w.pos), p)
              && p !in w.chunks
    ensures p !in old(w.chunks) || Players(At(old(w.pos), p)) != {} ==>
              w.pos == old(w.pos) && w.entities == old(w.entities) && w.ext == old(w.ext) && w.chunks == old(w.chunks)
    ensures w.chunks - {p} == old(w.chunks) - {p} && w.chunks.Values <= old(w.chunks.Values)
  {
    if !w.ChunkExists(p) {
      return;
    }
    w.ChunkAt(p);
    ContentsAt(w.contents, w.tallies, w.pos, p) by { w.KeysAgree(); }
    if w.chunks[p].nplayers > 0 {
      return;
    }
    var refs := w.chunks[p].entities;
    DestroyAll(w, p, refs);
  }

  lemma ContentsAt(contents: Contents, tallies: map<ChunkPos, int>, pos: Placement, p: ChunkPos)
    requires IndexHolds(contents, tallies, pos, {}) && p in contents
    ensures contents[p] == At(pos, p) && contents[p] != {}
    ensures tallies[p] > 0 <==> Players(At(pos, p)) != {}
  {
  }

  // the loop of emptyChunk over a copy of the chunk's entities
  method DestroyAll(w: World, p: ChunkPos, refs: set<EntityRef>)
    requires w.Valid() && AtRest(w.pos) && refs == At(w.pos, p) && refs != {} && Players(refs) == {}
    modifies w`entities, w`pos, w`ext, w`chunks, w`contents, w`tallies, w`caches, w`clients, w`counts, w`homes
    modifies w.chunks.Values
    modifies w.entities.Values`viewableChunks, w.entities.Values`playersInView, w.entities.Values`known
    ensures w.Valid() && AtRest(w.pos)
    ensures w.pos == old(w.pos) - refs && w.entities == old(w.entities) - refs && w.ext == old(w.ext) - refs
    ensures w.chunks - {p} == old(w.chunks) - {p} && w.chunks.Values <= old(w.chunks.Values) && p !in w.chunks
  {
    hide World.Valid, At, Players;
    var rest := refs;
    ghost var done: set<EntityRef> := {};
    while rest != {}
      invariant rest <= refs && done == refs - rest
      invariant w.Valid() && AtRest(w.pos)
      invariant w.pos == old(w.pos) - done && w.entities == old(w.entities) - done && w.ext == old(w.ext) - done
      invariant w.chunks - {p} == old(w.chunks) - {p} && w.chunks.Values <= old(w.chunks.Values)
      invariant w.entities.Values <= old(w.entities.Values)
      decreases rest
    {
      var ref :| ref in rest;
      NotAPlayer(refs, ref);
      IsAt(old(w.pos), p, ref);
      assert ref in w.pos && w.pos[ref] == p;
      DestroyNPC(w, ref);
      Without(old(w.pos), done, {ref});
      EntitiesWithout(old(w.entities), done, {ref});
      rest, done := rest - {ref}, done + {ref};
    }
    assert done == refs;
    forall r | r in w.pos
      ensures w.pos[r] != p
    {
      IsAt(old(w.pos), p, r);
    }
    NoChunk(w, p);
  }

  lemma NoChunk(w: World, p: ChunkPos)
    requires w.Valid() && forall r | r in w.pos :: w.pos[r] != p
    ensures p !in w.chunks
  {
  }

  lemma NotAPlayer(refs: set<EntityRef>, ref: EntityRef)
    requires Players(refs) == {} && ref in refs
    ensures !ref.kind.Player?
  {
    assert ref !in Players(refs);
  }

  lemma IsAt(pos: Placement, p: ChunkPos, ref: EntityRef)
    ensures ref in At(pos, p) <==> ref in pos && pos[ref] == p
  {
  }

  // The chunks among these without players; they are the ones emptyChunk empties.
  function Deserted(pos: Placement, coords: set<ChunkPos>): set<ChunkPos> {
    set p | p in coords && Players(At(pos, p)) == {}
  }

  // Everything tracked in them.
  function Stranded(pos: Placement, coords: set<ChunkPos>): set<EntityRef> {
    set r | r in pos && pos[r] in Deserted(pos, coords)
  }

  /** destroyInstance: every chunk of the instance without a player in it is gone with all its NPCs;
      a chunk with a player is left as it is. */
  method DestroyInstance(w: World, inst: int)
    requires w.Valid() && AtRest(w.pos)
    modifies w`entities, w`pos, w`ext, w`chunks, w`contents, w`tallies, w`caches, w`clients, w`counts, w`homes
    modifies w.chunks.Values
    modifies w.entities.Values`viewableChunks, w.entities.Values`playersInView, w.entities.Values`known
    ensures w.Valid() && AtRest(w.pos)
    ensures var gone := Stranded(old(w.pos), ChunksIn(old(w.chunks.Keys), inst));
            w.pos == old(w.pos) - gone && w.entities == old(w.entities) - gone && w.ext == old(w.ext) - gone
    ensures w.chunks == old(w.chunks) - Deserted(old(w.pos), ChunksIn(old(w.chunks.Keys), inst))
  {
    hide World.Valid, At, Players, Deserted, Stranded, SetOf;
    ghost var chunks0 := w.chunks.Keys;
    var coords := GetChunksInMap(w, inst);
    InNoChunk(w.pos);
    var k := 0;
    while k < |coords|
      invariant 0 <= k <= |coords|
      invariant w.Valid() && AtRest(w.pos)
      invariant w.pos == old(w.pos) - Stranded(old(w.pos), SetOf(coords[..k]))
      invariant w.entities == old(w.entities) - Stranded(old(w.pos), SetOf(coords[..k]))
      invariant w.ext == old(w.ext) - Stranded(old(w.pos), SetOf(coords[..k]))
      invariant w.chunks == old(w.chunks) - Deserted(old(w.pos), SetOf(coords[..k]))
      invariant w.chunks.Values <= old(w.chunks.Values) && w.entities.Values <= old(w.entities.Values)
    {
      var p := coords[k];
      assert p in coords;
      ghost var done := SetOf(coords[..k]);
      SetOfNext(coords, k);
      OneMoreChunk(old(w.pos), done, p);
      assert p in ChunksIn(chunks0, inst);
      InMap(old(w.pos), old(w.chunks), done, p);
      ghost var before := w.chunks;
      EmptyChunk(w, p);
      if Players(At(old(w.pos), p)) == {} {
        Without(old(w.pos), Stranded(old(w.pos), done), At(old(w.pos), p));
        EntitiesWithout(old(w.entities), Stranded(old(w.pos), done), At(old(w.pos), p));
        OneChunkLess(old(w.chunks), before, w.chunks, Deserted(old(w.pos), done), p);
      }
      k := k + 1;
    }
    assert coords[..k] == coords;
    AllChunks(coords, chunks0, inst);
  }

  lemma PlacedInChunks(w: World)
    requires w.Valid()
    ensures forall r | r in w.pos :: w.pos[r] in w.chunks.Keys
  {
  }

  function SetOf(coords: seq<ChunkPos>): set<ChunkPos> {
    set p | p in coords
  }

  lemma SetOfNext(coords: seq<ChunkPos>, k: nat)
    requires k < |coords| && forall i, j | 0 <= i < j < |coords| :: coords[i] != coords[j]
    ensures SetOf(coords[..k + 1]) == SetOf(coords[..k]) + {coords[k]} && coords[k] !in SetOf(coords[..k])
  {
    assert coords[..k + 1] == coords[..k] + [coords[k]];
  }

  lemma AllChunks(coords: seq<ChunkPos>, chunks: set<ChunkPos>, inst: int)
    requires forall p :: p in coords <==> p in ChunksIn(chunks, inst)
    ensures SetOf(coords) == ChunksIn(chunks, inst)
  {
  }

  lemma InMap(pos: Placement, chunks: ChunkMap, done: set<ChunkPos>, p: ChunkPos)
    requires p in chunks && p !in done
    ensures p in chunks - Deserted(pos, done)
  {
  }

  lemma OneChunkLess(first: ChunkMap, before: ChunkMap, after: ChunkMap, gone: set<ChunkPos>, p: ChunkPos)
    requires before == first - gone && after - {p} == before - {p} && p !in after
    ensures after == first - (gone + {p})
  {
    forall q | q != p
      ensures q in after <==> q in before
      ensures q in after ==> after[q] == before[q]
    {
      assert q in after - {p} <==> q in before - {p};
    }
  }

  lemma InNoChunk(pos: Placement)
    ensures SetOf([]) == {} && Deserted(pos, {}) == {} && Stranded(pos, {}) == {}
  {
  }

  lemma OneMoreChunk(pos: Placement, done: set<ChunkPos>, p: ChunkPos)
    requires p !in done
    ensures At(pos - Stranded(pos, done), p) == At(pos, p)
    ensures Deserted(pos, done + {p}) == Deserted(pos, done) + if Players(At(pos, p)) == {} then {p} else {}
    ensures Stranded(pos, done + {p}) == Stranded(pos, done) + if Players(At(pos, p)) == {} then At(pos, p) else {}
  {
    hide Players;
  }

  lemma NobodyThere(pos: Placement, chunks: set<ChunkPos>, inst: int)
    requires Players(Inside(pos, inst)) == {} && forall r | r in pos :: pos[r] in chunks
    ensures Deserted(pos, ChunksIn(chunks, inst)) == ChunksIn(chunks, inst)
    ensures Stranded(pos, ChunksIn(chunks, inst)) == Inside(pos, inst)
  {
    forall p | p in ChunksIn(chunks, inst)
      ensures Players(At(pos, p)) == {}
    {
      assert Players(At(pos, p)) <= Players(Inside(pos, inst));
    }
  }

  /** destroyInstanceIfEmpty: the overworld and the shared zones are kept, an instance with a
      player in it is kept, and any other instance is gone without trace while every cache,
      count and client of the other instances is what it was. */
  method DestroyInstanceIfEmpty(w: World, inst: int)
    requires w.Valid() && AtRest(w.pos)
    modifies w`entities, w`pos, w`ext, w`chunks, w`contents, w`tallies, w`caches, w`clients, w`counts, w`homes
    modifies w.chunks.Values
    modifies w.entities.Values`viewableChunks, w.entities.Values`playersInView, w.entities.Values`known
    ensures w.Valid() && AtRest(w.pos)
    ensures PlayerId(inst) == 0 || Players(Inside(old(w.pos), inst)) != {} ==>
              w.pos == old(w.pos) && w.entities == old(w.entities) && w.ext == old(w.ext) && w.chunks == old(w.chunks)
              && w.caches == old(w.caches) && w.counts == old(w.counts) && w.clients == old(w.clients)
    ensures PlayerId(inst) != 0 && Players(Inside(old(w.pos), inst)) == {} ==>
              && w.pos == old(w.pos) - Inside(old(w.pos), inst)
              && w.entities == old(w.entities) - Inside(old(w.pos), inst)
              && w.ext == old(w.ext) - Inside(old(w.pos), inst)
              && w.chunks == old(w.chunks) - ChunksIn(old(w.chunks.Keys), inst)
              && SameViews(old(w.caches), old(w.counts), old(w.clients), w.caches, w.counts, w.clients, w.pos.Keys)
  {
    hide World.Valid, Inside, Players, SameViews, ViewsHold;
    if PlayerId(inst) == 0 {
      return;
    }
    ValidViews(w);
    var coords := GetChunksInMap(w, inst);
    var k := 0;
    while k < |coords|
      invariant 0 <= k <= |coords|
      invariant forall p | p in coords[..k] :: Players(At(w.pos, p)) == {}
      modifies {}
    {
      var p := coords[k];
      assert p in coords && p in w.chunks;
      var n := PlayerCount(w, p);
      if n > 0 {
        SomePlayer(w.pos, p, inst);
        return;
      }
      assert coords[..k + 1] == coords[..k] + [p];
      k := k + 1;
    }
    assert coords[..k] == coords;
    NoPlayerInside(w, coords, inst);
    PlacedInChunks(w);
    NobodyThere(w.pos, w.chunks.Keys, inst);
    DestroyInstance(w, inst);
    ValidViews(w);
    Elsewhere(old(w.chunks), old(w.pos), old(w.ext), old(w.caches), old(w.counts), old(w.clients),
              w.caches, w.counts, w.clients, inst);
  }

  method PlayerCount(w: World, p: ChunkPos) returns (n: int)
    requires w.Valid() && p in w.chunks
    ensures n > 0 <==> Players(At(w.pos, p)) != {}
  {
    w.ChunkAt(p);
    ContentsAt(w.contents, w.tallies, w.pos, p);
    n := w.chunks[p].nplayers;
  }

  lemma SomePlayer(pos: Placement, p: ChunkPos, inst: int)
    requires Players(At(pos, p)) != {} && p.inst == inst
    ensures Players(Inside(pos, inst)) != {}
  {
  }

  lemma NoPlayerInside(w: World, coords: seq<ChunkPos>, inst: int)
    requires w.Valid() && forall p :: p in coords <==> p in ChunksIn(w.chunks.Keys, inst)
    requires forall p | p in coords :: Players(At(w.pos, p)) == {}
    ensures Players(Inside(w.pos, inst)) == {}
  {
  }

  ghost predicate ViewsHold(chunks: ChunkMap, pos: Placement, ext: set<EntityRef>, caches: Caches, counts: Counts,
      clients: Clients) {
    && CachesHold(caches, chunks, pos) && CountsHold(counts, pos) && ClientsHold(clients, pos, ext)
    && pos.Keys <= caches.Keys && pos.Keys <= counts.Keys && pos.Keys <= clients.Keys
  }

  lemma ValidViews(w: World)
    requires w.Valid()
    ensures ViewsHold(w.chunks, w.pos, w.ext, w.caches, w.counts, w.clients)
  {
  }

  // Nothing cached by or told to any of `refs` differs.
  ghost predicate SameViews(caches: Caches, counts: Counts, clients: Clients,
                            caches': Caches, counts': Counts, clients': Clients, refs: set<EntityRef>) {
    forall r | r in refs ::
      && r in caches && r in caches' && caches[r] == caches'[r]
      && (r.kind.Mob? ==> r in counts && r in counts' && counts[r] == counts'[r])
      && (r.kind.Player? ==> r in clients && r in clients' && clients[r] == clients'[r])
  }

  /** Views never cross instances, so emptying one changes no view in another. */
  lemma Elsewhere(chunks: ChunkMap, pos: Placement, ext: set<EntityRef>, caches: Caches, counts: Counts,
      clients: Clients,
                  caches': Caches, counts': Counts, clients': Clients, inst: int)
    requires ViewsHold(chunks, pos, ext, caches, counts, clients)
    requires ViewsHold(chunks - ChunksIn(chunks.Keys, inst), pos - Inside(pos, inst), ext - Inside(pos, inst),
                       caches', counts', clients')
    ensures SameViews(caches, counts, clients, caches', counts', clients', pos.Keys - Inside(pos, inst))
    ensures pos.Keys - Inside(pos, inst) == (pos - Inside(pos, inst)).Keys
  {
    var left := pos - Inside(pos, inst);
    forall r | r in left
      ensures ViewOf(chunks - ChunksIn(chunks.Keys, inst), pos[r]) == ViewOf(chunks, pos[r])
      ensures Around(left, pos[r]) == Around(pos, pos[r])
      ensures Visible(left, ext - Inside(pos, inst), r) == Visible(pos, ext, r)
    {
      SameView(chunks, pos[r], inst);
    }
  }

  lemma SameView(chunks: ChunkMap, c: ChunkPos, inst: int)
    requires c.inst != inst
    ensures ViewOf(chunks - ChunksIn(chunks.Keys, inst), c) == ViewOf(chunks, c)
  {
  }
}
