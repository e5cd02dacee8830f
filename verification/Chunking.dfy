/** The chunk index of the shard and the moves that keep it, its caches and the remote clients
    in step.  Methods that touch an object are small; the rest reason about the ghost fields,
    which repeat, as values, what the objects hold (`Mirror`). */
module Chunking {
  import opened ChunkViews
  import opened ChunkLedger

  class World {
    const side: int  // VIEWDISTANCE / 3
    var chunks: ChunkMap
    var entities: map<EntityRef, Entity>
    var nextId: int  // the next dynamic NPC id; they are handed out downwards

    // where each tracked entity is
    ghost var pos: Placement
    // which entities are extant
    ghost var ext: set<EntityRef>
    // the fields of the chunks
    ghost var contents: Contents
    ghost var tallies: map<ChunkPos, int>
    // the fields of the entities
    ghost var caches: Caches
    ghost var counts: Counts
    ghost var clients: Clients
    ghost var homes: Placement

    ghost predicate Mirror()
      reads `chunks, `entities, `ext, `contents, `tallies, `caches, `counts, `clients, `homes
      reads chunks.Values, entities.Values
    {
      MirrorChunks() && MirrorRefs() && MirrorCaches() && MirrorCounts() && MirrorClients() && MirrorHomes()
          && MirrorExt()
    }

    ghost predicate MirrorChunks()
      reads `chunks, `contents, `tallies, chunks.Values`entities, chunks.Values`nplayers
    {
      Injective(chunks) && MirrorContents() && MirrorTallies()
    }

    ghost predicate MirrorContents()
      reads `chunks, `contents, chunks.Values`entities
    {
      contents.Keys == chunks.Keys && forall p | p in chunks :: chunks[p].entities == contents[p]
    }

    ghost predicate MirrorTallies()
      reads `chunks, `tallies, chunks.Values`nplayers
    {
      tallies.Keys == chunks.Keys && forall p | p in chunks :: chunks[p].nplayers == tallies[p]
    }

    ghost predicate MirrorRefs()
      reads `entities
    {
      side > 0 && NamesMatch(entities)
    }

    ghost predicate MirrorCaches()
      reads `entities, `caches, entities.Values`viewableChunks
    {
      CachesMatch(entities, caches)
    }

    ghost predicate MirrorCounts()
      reads `entities, `counts, entities.Values`playersInView
    {
      CountsMatch(entities, counts)
    }

    ghost predicate MirrorClients()
      reads `entities, `clients, entities.Values`known
    {
      ClientsMatch(entities, clients)
    }

    ghost predicate MirrorHomes()
      reads `entities, `homes, entities.Values`chunkPos
    {
      HomesMatch(entities, homes)
    }

    ghost predicate MirrorExt()
      reads `entities, `ext, entities.Values`hp, entities.Values`dead
    {
      ExtMatch(entities, ext)
    }

    // The index agrees with `pos`; a chunk may be empty only in `hollow`.
    ghost predicate IndexOk(hollow: set<ChunkPos>)
      reads `contents, `tallies, `pos
    {
      IndexHolds(contents, tallies, pos, hollow)
    }

    // Only existing entities are in the index.
    ghost predicate PosOk()
      reads `pos, `entities
    {
      pos.Keys <= entities.Keys
    }

    ghost predicate CachesOk()
      reads `caches, `chunks, `pos
    {
      CachesHold(caches, chunks, pos)
    }

    /** The invariant between requests: every object repeats the ghost values, and those are
        what the placement of the entities says they should be. */
    ghost predicate Valid()
      reads this, chunks.Values, entities.Values
    {
      && Mirror()
      && PosOk()
      && IndexOk({})
      && CachesOk()
      && CountsHold(counts, pos)
      && ClientsHold(clients, pos, ext)
      && HomesHold(homes, pos)
    }

    ghost function Members(chnks: set<Chunk>): set<EntityRef>
      reads `chunks, `contents
    {
      MembersIn(chunks, contents, chnks)
    }

    // An empty shard.
    constructor (side: int, nextId: int)
      requires side > 0
      ensures Valid() && entities == map[] && chunks == map[] && pos == map[] && this.side == side
          && this.nextId == nextId
    {
      this.side := side;
      this.nextId := nextId;
      chunks, entities := map[], map[];
      pos, ext, contents, tallies := map[], {}, map[], map[];
      caches, counts, clients, homes := map[], map[], map[], map[];
    }

    // ---- reading the index

    predicate ChunkExists(p: ChunkPos)
      reads `chunks
    {
      p in chunks
    }

    method GetViewableChunks(c: ChunkPos) returns (chnks: set<Chunk>)
      ensures chnks == ViewOf(chunks, c)
      ensures chnks <= chunks.Values
    {
      chnks := {};
      for i := -1 to 2
        invariant chnks == set p | p in chunks && Near(p, c) && p.x - c.x < i :: chunks[p]
      {
        for z := -1 to 2
          invariant chnks == set p | p in chunks && Near(p, c)
              && (p.x - c.x < i || (p.x - c.x == i && p.y - c.y < z)) :: chunks[p]
        {
          var p := ChunkPos(c.x + i, c.y + z, c.inst);
          if ChunkExists(p) {
            chnks := chnks + {chunks[p]};
          }
        }
      }
    }

    method InsertViewable(ref: EntityRef, chnks: set<Chunk>)
      requires Mirror() && ref in entities
      modifies {entities[ref]}`viewableChunks, `caches
      ensures Mirror() && ref in old(caches) && caches == old(caches)[ref := old(caches)[ref] + chnks]
    {
      hide Mirror, MirrorChunks, MirrorRefs, MirrorCounts, MirrorClients, MirrorHomes, MirrorExt;
      MirrorFields(ref);
      entities[ref].viewableChunks := entities[ref].viewableChunks + chnks;
      caches := caches[ref := caches[ref] + chnks];
      IsMirror();
    }

    // the inner loop of newChunk, over the entities of one surrounding chunk
    method InsertViewableAll(refs: set<EntityRef>, chunk: Chunk)
      requires Mirror() && refs <= entities.Keys
      modifies entities.Values`viewableChunks, `caches
      ensures Mirror() && caches == Inserted(old(caches), refs, chunk)
    {
      hide Inserted, MirrorChunks, MirrorRefs, MirrorCounts, MirrorClients, MirrorHomes, MirrorExt;
      var rest := refs;
      ghost var done: set<EntityRef> := {};
      InsertedTwice(caches, {}, {}, chunk);
      while rest != {}
        invariant rest <= refs && done == refs - rest
        invariant Mirror() && caches == Inserted(old(caches), done, chunk)
        decreases rest
      {
        var ref :| ref in rest;
        InsertedStep(old(caches), done, ref, chunk);
        InsertViewable(ref, {chunk});
        rest, done := rest - {ref}, done + {ref};
      }
      assert done == refs;
    }

    method InsertIntoCaches(surroundings: set<Chunk>, chunk: Chunk)
      requires Mirror() && surroundings <= chunks.Values && Members(surroundings) <= entities.Keys
      modifies entities.Values`viewableChunks, `caches
      ensures Mirror() && caches == Inserted(old(caches), Members(surroundings), chunk)
    {
      hide Inserted, MirrorChunks, MirrorRefs, MirrorCaches, MirrorCounts, MirrorClients, MirrorHomes, MirrorExt,
          MembersIn, Injective;
      var todo := surroundings;
      ghost var done: set<EntityRef> := {};
      InsertedTwice(caches, {}, {}, chunk);
      MembersOfNone(chunks, contents);
      KeysAgree();
      while todo != {}
        invariant todo <= surroundings && done + Members(todo) == Members(surroundings)
        invariant Mirror() && caches == Inserted(old(caches), done, chunk)
        decreases todo
      {
        var c :| c in todo;
        ghost var p := Whereabouts(c);
        MembersSplit(chunks, contents, todo, p);
        Handover(done, c.entities, Members(todo - {c}), Members(surroundings));
        InsertedTwice(old(caches), done, c.entities, chunk);
        InsertViewableAll(c.entities, chunk);
        todo, done := todo - {c}, done + c.entities;
      }
    }

    method EraseViewable(ref: EntityRef, chunk: Chunk)
      requires Mirror() && ref in entities
      modifies {entities[ref]}`viewableChunks, `caches
      ensures Mirror() && caches == old(caches)[ref := old(caches)[ref] - {chunk}]
    {
      hide Mirror, MirrorChunks, MirrorRefs, MirrorCounts, MirrorClients, MirrorHomes, MirrorExt;
      MirrorFields(ref);
      entities[ref].viewableChunks := entities[ref].viewableChunks - {chunk};
      caches := caches[ref := caches[ref] - {chunk}];
      IsMirror();
    }

    // the inner loop of deleteChunk, over the entities of one surrounding chunk
    method EraseViewableAll(refs: set<EntityRef>, chunk: Chunk)
      requires Mirror() && refs <= entities.Keys
      modifies entities.Values`viewableChunks, `caches
      ensures Mirror() && caches == Erased(old(caches), refs, chunk)
    {
      hide Erased, MirrorChunks, MirrorRefs, MirrorCounts, MirrorClients, MirrorHomes, MirrorExt;
      var rest := refs;
      ghost var done: set<EntityRef> := {};
      ErasedTwice(caches, {}, {}, chunk);
      while rest != {}
        invariant rest <= refs && done == refs - rest
        invariant Mirror() && caches == Erased(old(caches), done, chunk)
        decreases rest
      {
        var ref :| ref in rest;
        ErasedStep(old(caches), done, ref, chunk);
        EraseViewable(ref, chunk);
        rest, done := rest - {ref}, done + {ref};
      }
      assert done == refs;
    }

    method EraseFromCaches(surroundings: set<Chunk>, chunk: Chunk)
      requires Mirror() && surroundings <= chunks.Values && Members(surroundings) <= entities.Keys
      modifies entities.Values`viewableChunks, `caches
      ensures Mirror() && caches == Erased(old(caches), Members(surroundings), chunk)
    {
      hide Erased, MirrorChunks, MirrorRefs, MirrorCaches, MirrorCounts, MirrorClients, MirrorHomes, MirrorExt,
          MembersIn, Injective;
      var todo := surroundings;
      ghost var done: set<EntityRef> := {};
      ErasedTwice(caches, {}, {}, chunk);
      MembersOfNone(chunks, contents);
      KeysAgree();
      while todo != {}
        invariant todo <= surroundings && done + Members(todo) == Members(surroundings)
        invariant Mirror() && caches == Erased(old(caches), done, chunk)
        decreases todo
      {
        var c :| c in todo;
        ghost var p := Whereabouts(c);
        MembersSplit(chunks, contents, todo, p);
        Handover(done, c.entities, Members(todo - {c}), Members(surroundings));
        ErasedTwice(old(caches), done, c.entities, chunk);
        EraseViewableAll(c.entities, chunk);
        todo, done := todo - {c}, done + c.entities;
      }
    }

    // ---- chunks appear and disappear

    method MapInsert(p: ChunkPos) returns (chunk: Chunk)
      requires Mirror() && p !in chunks
      modifies `chunks, `contents, `tallies
      ensures Mirror() && fresh(chunk) && chunks == old(chunks)[p := chunk]
      ensures contents == old(contents)[p := {}] && tallies == old(tallies)[p := 0]
    {
      hide Mirror, AllMatch;
      MirrorParts();
      chunk := new Chunk();
      chunks := chunks[p := chunk];
      contents, tallies := contents[p := {}], tallies[p := 0];
      MirrorWhole();
    }

    method MapErase(p: ChunkPos)
      requires Mirror() && p in chunks
      modifies `chunks, `contents, `tallies
      ensures Mirror() && chunks == old(chunks) - {p}
      ensures contents == old(contents) - {p} && tallies == old(tallies) - {p}
    {
      hide Mirror, AllMatch;
      MirrorParts();
      chunks := chunks - {p};
      contents, tallies := contents - {p}, tallies - {p};
      MirrorWhole();
    }

    method NewChunk(p: ChunkPos)
      requires Mirror() && PosOk() && IndexOk({}) && CachesOk()
      modifies `chunks, `contents, `tallies, `caches, entities.Values`viewableChunks
      ensures Mirror()
      ensures p in old(chunks) ==>
                chunks == old(chunks) && contents == old(contents) && tallies == old(tallies) && caches == old(caches)
      ensures p !in old(chunks) ==> p in chunks && fresh(chunks[p]) && chunks == old(chunks)[p := chunks[p]]
      ensures IndexOk({p}) && CachesOk()
    {
      hide MirrorChunks, MirrorRefs, MirrorCaches, MirrorCounts, MirrorClients, MirrorHomes, MirrorExt,
         IndexHolds, CachesHold, Inserted, Around, ViewOf, MembersIn, Injective;
      IndexSlack(contents, tallies, pos, p);
      if ChunkExists(p) {
        return;
      }
      IndexAfterNew(contents, tallies, pos, p) by { KeysAgree(); }
      var chunk := MapInsert(p);
      var surroundings := GetViewableChunks(p);
      MembersOfView(chunks, contents, tallies, pos, {p}, p) by { KeysAgree(); }
      KeysAgree();
      InsertIntoCaches(surroundings, chunk);
      CachesAfterNew(old(caches), old(chunks), pos, p, chunk);
    }

    method DeleteChunk(p: ChunkPos)
      requires Mirror() && PosOk() && IndexOk({p}) && CachesOk()
      requires p in chunks ==> contents[p] == {}
      modifies `chunks, `contents, `tallies, `caches, entities.Values`viewableChunks
      ensures Mirror() && chunks == old(chunks) - {p}
      ensures IndexOk({}) && CachesOk()
    {
      hide MirrorChunks, MirrorRefs, MirrorCaches, MirrorCounts, MirrorClients, MirrorHomes, MirrorExt,
         IndexHolds, CachesHold, Erased, Around, ViewOf, MembersIn, Injective;
      KeysAgree();
      if !ChunkExists(p) {
        IndexTight(contents, tallies, pos, p);
        assert chunks - {p} == chunks;
        return;
      }
      var chunk := chunks[p];
      var surroundings := GetViewableChunks(p);
      MembersOfView(chunks, contents, tallies, pos, {p}, p);
      EraseFromCaches(surroundings, chunk);
      CachesAfterDelete(old(caches), chunks, pos, p);
      MapErase(p);
      IndexAfterDelete(old(contents), old(tallies), pos, p);
    }

    lemma Whereabouts(c: Chunk) returns (p: ChunkPos)
      requires Mirror() && c in chunks.Values
      ensures p in chunks && chunks[p] == c && p in contents && c.entities == contents[p]
    {
      p :| p in chunks && chunks[p] == c;
    }

    lemma KeysAgree()
      requires Mirror()
      ensures contents.Keys == tallies.Keys == chunks.Keys && Injective(chunks)
      ensures caches.Keys == counts.Keys == clients.Keys == homes.Keys == entities.Keys && ext <= entities.Keys
    {
    }

    // ---- entities enter and leave chunks

    method TrackEntity(p: ChunkPos, ref: EntityRef)
      requires Mirror() && PosOk() && IndexOk({p}) && ref in entities && ref !in pos
      modifies `pos, `contents, `tallies, chunks.Values`entities, chunks.Values`nplayers
      ensures Mirror() && PosOk()
      ensures p !in chunks ==> pos == old(pos) && contents == old(contents) && tallies == old(tallies)
      ensures p in chunks ==> pos == old(pos)[ref := p] && IndexOk({})
    {
      hide IndexHolds, Mirror;
      KeysAgree();
      if !ChunkExists(p) {
        return;
      }
      IndexAfterTrack(contents, tallies, pos, p, ref);
      ChunkInsert(p, ref);
      pos := pos[ref := p];
    }

    method SetEntities(p: ChunkPos, s: set<EntityRef>)
      requires Mirror() && p in chunks
      modifies `contents, {chunks[p]}`entities
      ensures Mirror() && contents == old(contents)[p := s]
    {
      hide MirrorTallies, MirrorRefs, MirrorCaches, MirrorCounts, MirrorClients, MirrorHomes, MirrorExt;
      chunks[p].entities := s;
      contents := contents[p := s];
    }

    method SetPlayers(p: ChunkPos, n: int)
      requires Mirror() && p in chunks
      modifies `tallies, {chunks[p]}`nplayers
      ensures Mirror() && tallies == old(tallies)[p := n]
    {
      hide MirrorContents, MirrorRefs, MirrorCaches, MirrorCounts, MirrorClients, MirrorHomes, MirrorExt;
      chunks[p].nplayers := n;
      tallies := tallies[p := n];
    }

    method ChunkInsert(p: ChunkPos, ref: EntityRef)
      requires Mirror() && p in chunks
      modifies `contents, `tallies, {chunks[p]}`entities, {chunks[p]}`nplayers
      ensures Mirror()
      ensures p in old(contents) && contents == old(contents)[p := old(contents)[p] + {ref}]
      ensures p in old(tallies) && tallies == old(tallies)[p := old(tallies)[p] + if ref.kind.Player? then 1 else 0]
    {
      hide MirrorChunks, MirrorRefs, MirrorCaches, MirrorCounts, MirrorClients, MirrorHomes, MirrorExt;
      ChunkAt(p);
      SetEntities(p, chunks[p].entities + {ref});
      if ref.kind.Player? {
        ChunkAt(p);
        SetPlayers(p, chunks[p].nplayers + 1);
      }
    }

    method ChunkErase(p: ChunkPos, ref: EntityRef)
      requires Mirror() && p in chunks
      modifies `contents, `tallies, {chunks[p]}`entities, {chunks[p]}`nplayers
      ensures Mirror()
      ensures p in old(contents) && contents == old(contents)[p := old(contents)[p] - {ref}]
      ensures p in old(tallies) && tallies == old(tallies)[p := old(tallies)[p] - if ref.kind.Player? then 1 else 0]
    {
      hide MirrorChunks, MirrorRefs, MirrorCaches, MirrorCounts, MirrorClients, MirrorHomes, MirrorExt;
      ChunkAt(p);
      SetEntities(p, chunks[p].entities - {ref});
      if ref.kind.Player? {
        ChunkAt(p);
        SetPlayers(p, chunks[p].nplayers - 1);
      }
    }

    // its chunk may be empty now
    method TakeOut(p: ChunkPos, ref: EntityRef)
      requires Mirror() && PosOk() && IndexOk({}) && CachesOk() && p in chunks && ref in pos && pos[ref] == p
      modifies `pos, `contents, `tallies, {chunks[p]}`entities, {chunks[p]}`nplayers
      ensures Mirror() && PosOk() && CachesOk() && pos == old(pos) - {ref}
      ensures p in contents && IndexOk(if contents[p] == {} then {p} else {})
      ensures p in tallies && tallies[p] >= 0
    {
      hide IndexHolds, CachesHold, Mirror;
      KeysAgree();
      IndexAfterUntrack(contents, tallies, pos, p, ref);
      CachesShrink(caches, chunks, pos, ref);
      ChunkErase(p, ref);
      pos := pos - {ref};
    }

    // An entity not in the index is untracked from INVALID_CHUNK, where then no chunk stands.
    method UntrackEntity(p: ChunkPos, ref: EntityRef)
      requires Mirror() && PosOk() && IndexOk({}) && CachesOk()
      requires if ref in pos then pos[ref] == p else p !in chunks
      modifies `pos, `chunks, `contents, `tallies, `caches
      modifies chunks.Values`entities, chunks.Values`nplayers, entities.Values`viewableChunks
      ensures Mirror() && PosOk() && IndexOk({}) && CachesOk()
      ensures pos == old(pos) - {ref}
      ensures chunks - {p} == old(chunks) - {p} && chunks.Values <= old(chunks.Values)
    {
      hide Mirror, PosOk, IndexOk, CachesOk;
      if !ChunkExists(p) {
        Untracked(ref, p);
        return;
      }
      TakeOut(p, ref);
      ChunkAt(p);
      assert chunks[p].nplayers >= 0;
      if chunks[p].entities == {} {
        DeleteChunk(p);
      }
    }

    lemma Untracked(ref: EntityRef, p: ChunkPos)
      requires Mirror() && IndexOk({}) && p !in chunks && (ref in pos ==> pos[ref] == p)
      ensures ref !in pos && pos == pos - {ref}
    {
      KeysAgree();
    }

    lemma MirrorParts()
      requires Mirror()
      ensures MirrorChunks() && side > 0 && AllMatch(entities, caches, counts, clients, homes, ext)
    {
      hide NamesMatch, CachesMatch, CountsMatch, ClientsMatch, HomesMatch, ExtMatch;
    }

    // Changing a field of `ref` leaves the other entities alone.
    lemma MirrorFields(ref: EntityRef)
      requires Mirror() && ref in entities
      ensures MirrorChunks() && MirrorRefs() && MirrorCaches() && MirrorCounts() && MirrorClients()
      ensures MirrorHomes() && MirrorExt()
      ensures forall r | r in entities && r != ref :: entities[r] != entities[ref]
    {
      hide MirrorChunks, MirrorCaches, MirrorCounts, MirrorClients, MirrorHomes, MirrorExt;
    }

    lemma MirrorWhole()
      requires MirrorChunks() && side > 0 && AllMatch(entities, caches, counts, clients, homes, ext)
      ensures Mirror()
    {
      hide NamesMatch, CachesMatch, CountsMatch, ClientsMatch, HomesMatch, ExtMatch;
    }

    lemma IsMirror()
      requires MirrorChunks()
      requires MirrorRefs()
      requires MirrorCaches()
      requires MirrorCounts()
      requires MirrorClients()
      requires MirrorHomes()
      requires MirrorExt()
      ensures Mirror()
    {
    }

    lemma IsValid()
      requires Mirror()
      requires PosOk()
      requires IndexOk({})
      requires CachesOk()
      requires CountsHold(counts, pos)
      requires ClientsHold(clients, pos, ext)
      requires HomesHold(homes, pos)
      ensures Valid()
    {
    }

    lemma ChunkAt(p: ChunkPos)
      requires Mirror() && p in chunks
      ensures p in contents && p in tallies
      ensures chunks[p].entities == contents[p] && chunks[p].nplayers == tallies[p]
    {
    }

    // ---- notifying the entities in a set of chunks

    method AdjustView(mob: EntityRef, delta: int)
      requires Mirror() && mob in entities
      modifies {entities[mob]}`playersInView, `counts
      ensures Mirror() && counts == old(counts)[mob := old(counts)[mob] + delta]
    {
      hide MirrorChunks, MirrorCaches, MirrorClients, MirrorHomes, MirrorExt;
      entities[mob].playersInView := entities[mob].playersInView + delta;
      counts := counts[mob := counts[mob] + delta];
    }

    method ExtantNow(ref: EntityRef) returns (b: bool)
      requires Mirror() && ref in entities
      ensures b == (ref in ext)
    {
      hide MirrorChunks, MirrorRefs, MirrorCaches, MirrorCounts, MirrorClients, MirrorHomes;
      b := entities[ref].IsExtant();
    }

    // an exit packet about `r` reaches the client of `to`
    ghost method TellExit(to: EntityRef, r: EntityRef)
      requires Mirror() && to in entities && r in clients[to]
      modifies {entities[to]}`known, `clients
      ensures Mirror() && clients == old(clients)[to := old(clients)[to] - {r}]
    {
      hide MirrorChunks, MirrorCaches, MirrorCounts, MirrorHomes, MirrorExt;
      entities[to].Exit(r);
      clients := clients[to := clients[to] - {r}];
    }

    // the loop body of removeEntityFromChunks for one other entity
    method Part(ref: EntityRef, other: EntityRef, alive: bool)
      requires Mirror() && Acquainted(clients, ref, {other}, ext) && alive == (ref in ext)
      modifies entities.Values`known, entities.Values`playersInView, `clients, `counts
      ensures Mirror()
      ensures clients == Parted(old(clients), ref, {other}, ext)
      ensures counts == Lowered(old(counts), ref, {other})
    {
      hide Parted, Lowered, MirrorChunks, MirrorRefs, MirrorCaches, MirrorCounts, MirrorClients, MirrorHomes, MirrorExt;
      KeysAgree();
      PartedOne(clients, ref, other, ext);
      LoweredOne(counts, ref, other);
      if alive && other.kind.Player? {
        TellExit(other, ref);
      }
      var otherExtant := ExtantNow(other);
      if ref.kind.Player? && otherExtant {
        TellExit(ref, other);
      }
      if ref.kind.Mob? && other.kind.Player? {
        AdjustView(ref, -1);
      }
      if other.kind.Mob? && ref.kind.Player? {
        AdjustView(other, -1);
      }
    }

    // the inner loop of removeEntityFromChunks, over the entities of one chunk
    method PartAll(ref: EntityRef, refs: set<EntityRef>, alive: bool)
      requires Mirror() && Acquainted(clients, ref, refs - {ref}, ext) && alive == (ref in ext)
      modifies entities.Values`known, entities.Values`playersInView, `clients, `counts
      ensures Mirror()
      ensures clients == Parted(old(clients), ref, refs - {ref}, ext)
      ensures counts == Lowered(old(counts), ref, refs - {ref})
    {
      hide Parted, Lowered, Acquainted, MirrorChunks, MirrorRefs, MirrorCaches, MirrorCounts, MirrorClients,
          MirrorHomes, MirrorExt;
      var rest := refs;
      ghost var done: set<EntityRef> := {};
      PartedNone(clients, counts, ref, ext);
      while rest != {}
        invariant rest <= refs && done == refs - rest - {ref}
        invariant Mirror()
        invariant clients == Parted(old(clients), ref, done, ext)
        invariant counts == Lowered(old(counts), ref, done)
        decreases rest
      {
        var other :| other in rest;
        if other != ref {
          AcquaintedSome(old(clients), ref, refs - {ref}, done + {other}, ext);
          PartedTwice(old(clients), old(counts), ref, done, {other}, ext);
          Part(ref, other, alive);
          done := done + {other};
        }
        rest := rest - {other};
      }
      assert done == refs - {ref};
    }

    method RemoveEntityFromChunks(chnks: set<Chunk>, ref: EntityRef)
      requires Mirror() && IndexOk({}) && ref in entities && chnks <= chunks.Values
      requires Acquainted(clients, ref, Members(chnks) - {ref}, ext)
      modifies entities.Values`known, entities.Values`playersInView, `clients, `counts
      ensures Mirror()
      ensures clients == Parted(old(clients), ref, Members(chnks) - {ref}, ext)
      ensures counts == Lowered(old(counts), ref, Members(chnks) - {ref})
    {
      hide Parted, Lowered, Acquainted, IndexHolds, MembersIn, Injective, MirrorChunks, MirrorRefs, MirrorCaches,
          MirrorCounts, MirrorClients, MirrorHomes, MirrorExt;
      KeysAgree();
      var alive := ExtantNow(ref);
      var todo := chnks;
      ghost var done: set<EntityRef> := {};
      PartedNone(clients, counts, ref, ext);
      MembersOfNone(chunks, contents);
      assert done - {ref} == {};
      while todo != {}
        invariant todo <= chnks && done !! Members(todo)
        invariant done + Members(todo) == Members(chnks)
        invariant Mirror()
        invariant clients == Parted(old(clients), ref, done - {ref}, ext)
        invariant counts == Lowered(old(counts), ref, done - {ref})
        decreases todo
      {
        var c :| c in todo;
        ghost var p := Whereabouts(c);
        MembersSplit(chunks, contents, todo, p);
        MembersApart(chunks, contents, tallies, pos, {}, todo, p);
        HandoverApart(done, c.entities, Members(todo - {c}), Members(chnks), ref);
        AcquaintedSome(old(clients), ref, Members(chnks) - {ref}, done + c.entities - {ref}, ext);
        PartedTwice(old(clients), old(counts), ref, done - {ref}, c.entities - {ref}, ext);
        PartAll(ref, c.entities, alive);
        todo, done := todo - {c}, done + c.entities;
      }
    }

    // an enter packet about `r` reaches the client of `to`
    ghost method TellEnter(to: EntityRef, r: EntityRef)
      requires Mirror() && to in entities && r !in clients[to]
      modifies {entities[to]}`known, `clients
      ensures Mirror() && clients == old(clients)[to := old(clients)[to] + {r}]
    {
      hide MirrorChunks, MirrorCaches, MirrorCounts, MirrorHomes, MirrorExt;
      entities[to].Enter(r);
      clients := clients[to := clients[to] + {r}];
    }

    // the loop body of addEntityToChunks for one other entity
    method Meet(ref: EntityRef, other: EntityRef, alive: bool)
      requires Mirror() && Strangers(clients, ref, {other}, ext) && alive == (ref in ext)
      modifies entities.Values`known, entities.Values`playersInView, `clients, `counts
      ensures Mirror()
      ensures clients == Met(old(clients), ref, {other}, ext)
      ensures counts == Raised(old(counts), ref, {other})
    {
      hide Met, Raised, MirrorChunks, MirrorRefs, MirrorCaches, MirrorCounts, MirrorClients, MirrorHomes, MirrorExt;
      KeysAgree();
      MetOne(clients, ref, other, ext);
      RaisedOne(counts, ref, other);
      if alive && other.kind.Player? {
        TellEnter(other, ref);
      }
      var otherExtant := ExtantNow(other);
      if ref.kind.Player? && otherExtant {
        TellEnter(ref, other);
      }
      if ref.kind.Mob? && other.kind.Player? {
        AdjustView(ref, 1);
      }
      if other.kind.Mob? && ref.kind.Player? {
        AdjustView(other, 1);
      }
    }

    // the inner loop of addEntityToChunks, over the entities of one chunk
    method MeetAll(ref: EntityRef, refs: set<EntityRef>, alive: bool)
      requires Mirror() && Strangers(clients, ref, refs - {ref}, ext) && alive == (ref in ext)
      modifies entities.Values`known, entities.Values`playersInView, `clients, `counts
      ensures Mirror()
      ensures clients == Met(old(clients), ref, refs - {ref}, ext)
      ensures counts == Raised(old(counts), ref, refs - {ref})
    {
      hide Met, Raised, Strangers, MirrorChunks, MirrorRefs, MirrorCaches, MirrorCounts, MirrorClients, MirrorHomes,
          MirrorExt;
      var rest := refs;
      ghost var done: set<EntityRef> := {};
      MetNone(clients, counts, ref, ext);
      while rest != {}
        invariant rest <= refs && done == refs - rest - {ref}
        invariant Mirror()
        invariant clients == Met(old(clients), ref, done, ext)
        invariant counts == Raised(old(counts), ref, done)
        decreases rest
      {
        var other :| other in rest;
        if other != ref {
          StrangersSome(old(clients), ref, refs - {ref}, done + {other}, ext);
          MetTwice(old(clients), old(counts), ref, done, {other}, ext);
          Meet(ref, other, alive);
          done := done + {other};
        }
        rest := rest - {other};
      }
      assert done == refs - {ref};
    }

    method AddEntityToChunks(chnks: set<Chunk>, ref: EntityRef)
      requires Mirror() && IndexOk({}) && ref in entities && chnks <= chunks.Values
      requires Strangers(clients, ref, Members(chnks) - {ref}, ext)
      modifies entities.Values`known, entities.Values`playersInView, `clients, `counts
      ensures Mirror()
      ensures clients == Met(old(clients), ref, Members(chnks) - {ref}, ext)
      ensures counts == Raised(old(counts), ref, Members(chnks) - {ref})
    {
      hide Met, Raised, Strangers, IndexHolds, MembersIn, Injective, MirrorChunks, MirrorRefs, MirrorCaches,
          MirrorCounts, MirrorClients, MirrorHomes, MirrorExt;
      KeysAgree();
      var alive := ExtantNow(ref);
      var todo := chnks;
      ghost var done: set<EntityRef> := {};
      MetNone(clients, counts, ref, ext);
      MembersOfNone(chunks, contents);
      assert done - {ref} == {};
      while todo != {}
        invariant todo <= chnks && done !! Members(todo)
        invariant done + Members(todo) == Members(chnks)
        invariant Mirror()
        invariant clients == Met(old(clients), ref, done - {ref}, ext)
        invariant counts == Raised(old(counts), ref, done - {ref})
        decreases todo
      {
        var c :| c in todo;
        ghost var p := Whereabouts(c);
        MembersSplit(chunks, contents, todo, p);
        MembersApart(chunks, contents, tallies, pos, {}, todo, p);
        HandoverApart(done, c.entities, Members(todo - {c}), Members(chnks), ref);
        StrangersSome(old(clients), ref, Members(chnks) - {ref}, done + c.entities - {ref}, ext);
        MetTwice(old(clients), old(counts), ref, done - {ref}, c.entities - {ref}, ext);
        MeetAll(ref, c.entities, alive);
        todo, done := todo - {c}, done + c.entities;
      }
    }

    // ---- moving

    // the first half of updateEntityChunk: out of the old chunk, into the new one
    method Relocate(ref: EntityRef, from: ChunkPos, to: ChunkPos)
      requires Mirror() && PosOk() && IndexOk({}) && CachesOk() && ref in entities
      requires if ref in pos then pos[ref] == from else from !in chunks
      modifies `pos, `chunks, `contents, `tallies, `caches
      modifies chunks.Values`entities, chunks.Values`nplayers, entities.Values`viewableChunks
      ensures Mirror() && PosOk() && IndexOk({}) && CachesHold(caches, chunks, pos - {ref})
      ensures pos == old(pos)[ref := to]
      ensures chunks - {from, to} == old(chunks) - {from, to}
      ensures forall p | p in chunks :: chunks[p] in old(chunks.Values) || fresh(chunks[p])
    {
      hide Mirror, PosOk, IndexOk, CachesOk, CachesHold;
      UntrackEntity(from, ref);
      ghost var between := chunks;
      if !ChunkExists(to) {
        NewChunk(to);
      } else {
        Slack(to);
      }
      CachesNow();
      Replaced(old(pos), ref, to);
      TrackEntity(to, ref);
      SameElsewhere(old(chunks), between, chunks, from, to);
    }

    lemma Slack(p: ChunkPos)
      requires IndexOk({})
      ensures IndexOk({p})
    {
      IndexSlack(contents, tallies, pos, p);
    }

    lemma MembersAround(c: ChunkPos)
      requires Mirror() && IndexOk({})
      ensures Members(ViewOf(chunks, c)) == Around(pos, c)
    {
      hide MembersIn, ViewOf, Around, IndexHolds;
      KeysAgree();
      MembersOfView(chunks, contents, tallies, pos, {}, c);
    }

    lemma CachesNow()
      requires CachesOk()
      ensures CachesHold(caches, chunks, pos)
    {
    }

    // removeEntityFromChunks and addEntityToChunks on the two differences
    method UpdateViews(ref: EntityRef, toExit: set<Chunk>, toEnter: set<Chunk>)
      requires Mirror() && IndexOk({}) && ref in entities
      requires toExit <= chunks.Values && toEnter <= chunks.Values && ref !in Members(toExit)
      requires Acquainted(clients, ref, Members(toExit), ext)
      requires Strangers(Parted(clients, ref, Members(toExit), ext), ref, Members(toEnter) - {ref}, ext)
      modifies entities.Values`known, entities.Values`playersInView, `clients, `counts
      ensures Mirror()
      ensures clients == Met(Parted(old(clients), ref, Members(toExit), ext), ref, Members(toEnter) - {ref}, ext)
      ensures counts == Raised(Lowered(old(counts), ref, Members(toExit)), ref, Members(toEnter) - {ref})
    {
      hide IndexHolds, MembersIn, Acquainted, Strangers, Parted, Met, Lowered, Raised, MirrorChunks, MirrorRefs,
          MirrorCaches, MirrorCounts, MirrorClients, MirrorHomes, MirrorExt;
      assert Members(toExit) - {ref} == Members(toExit);
      RemoveEntityFromChunks(toExit, ref);
      AddEntityToChunks(toEnter, ref);
    }

    method SetHome(ref: EntityRef, to: ChunkPos)
      requires Mirror() && ref in entities
      modifies {entities[ref]}`chunkPos, `homes
      ensures Mirror() && homes == old(homes)[ref := to]
    {
      hide MirrorChunks, MirrorCaches, MirrorCounts, MirrorClients, MirrorExt;
      entities[ref].chunkPos := to;
      homes := homes[ref := to];
    }

    method SetViewable(ref: EntityRef, views: set<Chunk>)
      requires Mirror() && ref in entities
      modifies {entities[ref]}`viewableChunks, `caches
      ensures Mirror() && caches == old(caches)[ref := views]
    {
      hide Mirror;
      ClearViewable(ref);
      InsertViewable(ref, views);
      assert {} + views == views;
    }

    method ClearViewable(ref: EntityRef)
      requires Mirror() && ref in entities
      modifies {entities[ref]}`viewableChunks, `caches
      ensures Mirror() && caches == old(caches)[ref := {}]
    {
      hide Mirror, MirrorChunks, MirrorRefs, MirrorCounts, MirrorClients, MirrorHomes, MirrorExt;
      MirrorFields(ref);
      entities[ref].viewableChunks := {};
      caches := caches[ref := {}];
      IsMirror();
    }

    // the view updates of updateEntityChunk; `was` is the placement before the move
    method Notify(ref: EntityRef, from: ChunkPos, to: ChunkPos, ghost was: Placement) returns (newViewables: set<Chunk>)
      requires Mirror() && IndexOk({}) && ref in entities
      requires pos == was[ref := to] && ComesFrom(was, ref, from) && was.Keys <= entities.Keys
      requires CountsHold(counts, was) && ClientsHold(clients, was, ext)
      modifies `clients, `counts, entities.Values`known, entities.Values`playersInView
      ensures Mirror() && CountsHold(counts, pos) && ClientsHold(clients, pos, ext)
      ensures newViewables == ViewOf(chunks, to)
    {
      hide IndexHolds, ClientsHold, CountsHold, MembersIn, Around, ViewOf, ComesFrom,
        Acquainted, Strangers, Parted, Met, Lowered, Raised, MirrorChunks, MirrorRefs, MirrorCaches, MirrorCounts,
            MirrorClients, MirrorHomes, MirrorExt;
      KeysAgree();
      MoveClients(clients, was, ref, from, to, ext);
      MoveCounts(counts, was, ref, from, to);
      var oldViewables := GetViewableChunks(from);
      newViewables := GetViewableChunks(to);
      MembersOfDifference(chunks, contents, tallies, pos, from, to);
      MembersOfDifference(chunks, contents, tallies, pos, to, from);
      UpdateViews(ref, oldViewables - newViewables, newViewables - oldViewables);
    }

    // the second half of updateEntityChunk
    method Refresh(ref: EntityRef, from: ChunkPos, to: ChunkPos, ghost was: Placement)
      requires Mirror() && PosOk() && IndexOk({}) && CachesHold(caches, chunks, pos - {ref}) && ref in entities
      requires pos == was[ref := to] && ComesFrom(was, ref, from) && was.Keys <= entities.Keys
      requires CountsHold(counts, was) && ClientsHold(clients, was, ext) && HomesHold(homes, was)
      modifies `caches, `clients, `counts, `homes
      modifies entities.Values`known, entities.Values`playersInView, entities.Values`viewableChunks,
          entities.Values`chunkPos
      ensures Valid()
    {
      hide IndexHolds, CachesHold, ClientsHold, CountsHold, HomesHold, ViewOf, ComesFrom, PosOk, MirrorChunks,
          MirrorRefs, MirrorCaches, MirrorCounts, MirrorClients, MirrorHomes, MirrorExt;
      var newViewables := Notify(ref, from, to, was);
      HomesAfterMove(homes, was, ref, to);
      CachesAfterMove(caches, chunks, pos, ref);
      SetHome(ref, to);
      SetViewable(ref, newViewables);
    }

    method UpdateEntityChunk(ref: EntityRef, from: ChunkPos, to: ChunkPos)
      requires Valid() && ref in entities && from == entities[ref].chunkPos && ComesFrom(pos, ref, from)
      modifies `pos, `chunks, `contents, `tallies, `caches, `clients, `counts, `homes
      modifies chunks.Values`entities, chunks.Values`nplayers
      modifies entities.Values`known, entities.Values`playersInView, entities.Values`viewableChunks,
          entities.Values`chunkPos
      ensures Valid() && pos == old(pos)[ref := to]
      ensures chunks - {from, to} == old(chunks) - {from, to}
      ensures forall p | p in chunks :: chunks[p] in old(chunks.Values) || fresh(chunks[p])
    {
      hide Mirror, Valid, PosOk, IndexOk, CachesOk, CachesHold, CountsHold, ClientsHold, HomesHold, ComesFrom;
      AtMove(ref, from);
      Relocate(ref, from, to);
      Refresh(ref, from, to, old(pos));
    }

    lemma AtMove(ref: EntityRef, from: ChunkPos)
      requires Valid() && ref in entities && ComesFrom(pos, ref, from)
      ensures Mirror() && PosOk() && IndexOk({}) && CachesOk() && pos.Keys <= entities.Keys
      ensures CountsHold(counts, pos) && ClientsHold(clients, pos, ext) && HomesHold(homes, pos)
      ensures if ref in pos then pos[ref] == from else from !in chunks
    {
      hide CachesHold, ClientsHold, CountsHold, HomesHold;
      KeysAgree();
      FromIsEmpty(contents, tallies, pos, ref, from);
    }

    // ---- the maps of entities

    // NPCs.erase or players.erase
    method Drop(ref: EntityRef)
      requires Mirror()
      modifies `entities, `ext, `caches, `counts, `clients, `homes
      ensures Mirror()
      ensures entities == old(entities) - {ref} && ext == old(ext) - {ref} && caches == old(caches) - {ref}
      ensures counts == old(counts) - {ref} && clients == old(clients) - {ref} && homes == old(homes) - {ref}
    {
      hide Mirror, MirrorChunks, MirrorRefs, MirrorCaches, MirrorCounts, MirrorClients, MirrorHomes, MirrorExt,
          AllMatch;
      MirrorParts();
      entities := entities - {ref};
      ext, caches, counts := ext - {ref}, caches - {ref}, counts - {ref};
      clients, homes := clients - {ref}, homes - {ref};
      Dropped(old(entities), old(caches), old(counts), old(clients), old(homes), old(ext), ref);
    }

    lemma Dropped(es: Entities, ca: Caches, co: Counts, cl: Clients, ho: Placement, ex: set<EntityRef>, ref: EntityRef)
      requires MirrorChunks() && side > 0 && AllMatch(es, ca, co, cl, ho, ex)
      requires entities == es - {ref} && caches == ca - {ref} && counts == co - {ref}
      requires clients == cl - {ref} && homes == ho - {ref} && ext == ex - {ref}
      ensures Mirror()
    {
      hide MirrorChunks, NamesMatch, CachesMatch, CountsMatch, ClientsMatch, HomesMatch, ExtMatch;
      CachesWithout(es, ca, ref);
      CountsWithout(es, co, ref);
      ClientsWithout(es, cl, ref);
      HomesWithout(es, ho, ref);
      ExtWithout(es, ex, ref);
    }

    // a new entity enters the NPCs or players map; it is nowhere yet
    method Adopt(e: Entity)
      requires Mirror() && e.ref !in entities
      requires e.viewableChunks == {} && e.playersInView == 0 && e.known == {} && e.chunkPos == INVALID_CHUNK
      modifies `entities, `ext, `caches, `counts, `clients, `homes
      ensures Mirror()
      ensures entities == old(entities)[e.ref := e] && ext == old(ext) + if e.IsExtant() then {e.ref} else {}
      ensures caches == old(caches)[e.ref := {}] && counts == old(counts)[e.ref := 0]
      ensures clients == old(clients)[e.ref := {}] && homes == old(homes)[e.ref := INVALID_CHUNK]
    {
      hide MirrorChunks, NamesMatch, CachesMatch, CountsMatch, ClientsMatch, HomesMatch, ExtMatch;
      CachesWith(entities, caches, e);
      CountsWith(entities, counts, e);
      ClientsWith(entities, clients, e);
      HomesWith(entities, homes, e);
      ExtWith(entities, ext, e);
      entities := entities[e.ref := e];
      ext := ext + if e.IsExtant() then {e.ref} else {};
      caches, counts := caches[e.ref := {}], counts[e.ref := 0];
      clients, homes := clients[e.ref := {}], homes[e.ref := INVALID_CHUNK];
      IsMirror();
    }

    method SetDead(egg: EntityRef, dead: bool, deadUntil: int, hp: int)
      requires Mirror() && egg in entities && egg.kind.Egg?
      modifies {entities[egg]}`dead, {entities[egg]}`deadUntil, {entities[egg]}`hp, `ext
      ensures Mirror() && ext == (if dead then old(ext) - {egg} else old(ext) + {egg})
      ensures entities[egg].dead == dead && entities[egg].deadUntil == deadUntil && entities[egg].hp == hp
    {
      hide MirrorChunks, MirrorCaches, MirrorCounts, MirrorClients, MirrorHomes;
      entities[egg].dead := dead;
      entities[egg].deadUntil := deadUntil;
      entities[egg].hp := hp;
      ext := if dead then ext - {egg} else ext + {egg};
    }

    lemma ExtOf(ref: EntityRef)
      requires Valid()
      ensures pos.Keys <= entities.Keys && ext <= entities.Keys
      ensures ref in entities ==> (entities[ref].IsExtant() <==> ref in ext)
      ensures forall r | r in entities :: entities[r].ref == r
    {
    }

    // new coordinates; the index does not depend on them
    method SetCoordinates(ref: EntityRef, X: int, Y: int, Z: int, I: int, angle: int)
      requires Valid() && ref in entities
      modifies {entities[ref]}`x, {entities[ref]}`y, {entities[ref]}`z, {entities[ref]}`angle,
          {entities[ref]}`instanceID
      ensures Valid()
      ensures entities[ref].x == X && entities[ref].y == Y && entities[ref].z == Z
      ensures entities[ref].instanceID == I && entities[ref].angle == angle
    {
      hide IndexHolds, CachesHold, ClientsHold, CountsHold, HomesHold,
        NamesMatch, CachesMatch, CountsMatch, ClientsMatch, HomesMatch, ExtMatch;
      var ent := entities[ref];
      ent.angle := angle;
      ent.x, ent.y, ent.z := X, Y, Z;
      ent.instanceID := I;
      IsMirror();
      IsValid();
    }

    method SetRecallInstance(ref: EntityRef, recallInstance: int)
      requires Valid() && ref in entities
      modifies {entities[ref]}`recallInstance
      ensures Valid() && entities[ref].recallInstance == recallInstance
    {
      hide IndexHolds, CachesHold, ClientsHold, CountsHold, HomesHold,
        NamesMatch, CachesMatch, CountsMatch, ClientsMatch, HomesMatch, ExtMatch;
      entities[ref].recallInstance := recallInstance;
      IsMirror();
      IsValid();
    }

    method TakeId() returns (id: int)
      requires Valid()
      modifies `nextId
      ensures Valid() && id == old(nextId) && nextId == id - 1
    {
      hide IndexHolds, CachesHold, ClientsHold, CountsHold, HomesHold,
        NamesMatch, CachesMatch, CountsMatch, ClientsMatch, HomesMatch, ExtMatch;
      id := nextId;
      nextId := nextId - 1;
      IsMirror();
      IsValid();
    }

    method SetLeader(ref: EntityRef, groupLeader: int, offsetX: int, offsetY: int)
      requires Valid() && ref in entities
      modifies {entities[ref]}`groupLeader, {entities[ref]}`offsetX, {entities[ref]}`offsetY
      ensures Valid()
      ensures entities[ref].groupLeader == groupLeader && entities[ref].offsetX == offsetX
          && entities[ref].offsetY == offsetY
    {
      hide IndexHolds, CachesHold, ClientsHold, CountsHold, HomesHold,
        NamesMatch, CachesMatch, CountsMatch, ClientsMatch, HomesMatch, ExtMatch;
      entities[ref].groupLeader := groupLeader;
      entities[ref].offsetX, entities[ref].offsetY := offsetX, offsetY;
      IsMirror();
      IsValid();
    }

    method SetMember(ref: EntityRef, i: int, id: int)
      requires Valid() && ref in entities && 0 <= i < |entities[ref].groupMember|
      modifies {entities[ref]}`groupMember
      ensures Valid() && entities[ref].groupMember == old(entities[ref].groupMember)[i := id]
    {
      hide IndexHolds, CachesHold, ClientsHold, CountsHold, HomesHold,
        NamesMatch, CachesMatch, CountsMatch, ClientsMatch, HomesMatch, ExtMatch;
      entities[ref].groupMember := entities[ref].groupMember[i := id];
      IsMirror();
      IsValid();
    }
  }
}
