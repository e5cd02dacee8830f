/** The objects of the chunk index, and what each step of it does to the values kept in them:
    the contents and player tallies of the chunks, the caches of viewable chunks, the mobs'
    player counts and the state of the remote clients. */
module ChunkLedger {
  import opened ChunkViews

  class Chunk {
    var entities: set<EntityRef>
    var nplayers: int

    constructor ()
      ensures entities == {} && nplayers == 0
    {
      entities := {};
      nplayers := 0;
    }
  }

  class Entity {
    const ref: EntityRef
    var x: int
    var y: int
    var z: int
    var angle: int
    var instanceID: int
    var recallInstance: int
    var chunkPos: ChunkPos
    var viewableChunks: set<Chunk>
    var playersInView: int
    var hp: int
    var dead: bool
    var deadUntil: int
    var summoned: bool
    var npcType: int
    var groupLeader: int       // 0 for none
    var groupMember: seq<int>  // four NPC ids, 0 for none
    var offsetX: int
    var offsetY: int
    // The state of the remote client of a player: what it was told of and not told to forget.
    ghost var known: set<EntityRef>

    constructor (ref: EntityRef, npcType: int, instanceID: int, hp: int, summoned: bool)
      ensures this.ref == ref && this.npcType == npcType && this.instanceID == instanceID && this.hp == hp && !dead
      ensures this.summoned == summoned
      ensures chunkPos == INVALID_CHUNK && viewableChunks == {} && playersInView == 0 && known == {}
      ensures groupLeader == 0 && groupMember == [0, 0, 0, 0] && offsetX == offsetY == 0
      ensures x == y == z == angle == 0
    {
      this.ref := ref;
      this.npcType := npcType;
      this.instanceID := instanceID;
      this.hp := hp;
      x, y, z, angle := 0, 0, 0, 0;
      recallInstance, deadUntil, dead, this.summoned := 0, 0, false, summoned;
      chunkPos := INVALID_CHUNK;
      viewableChunks := {};
      playersInView := 0;
      groupLeader, groupMember, offsetX, offsetY := 0, [0, 0, 0, 0], 0, 0;
      known := {};
    }

    predicate IsExtant()
      reads `hp, `dead
    {
      match ref.kind
      case CombatNpc => hp > 0
      case Mob => hp > 0
      case Egg => !dead
      case _ => true
    }

    // An enter or around packet; the client must not know of `r` yet.
    ghost method Enter(r: EntityRef)
      requires r !in known
      modifies `known
      ensures known == old(known) + {r}
    {
      known := known + {r};
    }

    // An exit or around-del packet; the client must know of `r`.
    ghost method Exit(r: EntityRef)
      requires r in known
      modifies `known
      ensures known == old(known) - {r}
    {
      known := known - {r};
    }
  }

  // ---- values read off the index

  type ChunkMap = map<ChunkPos, Chunk>
  type Contents = map<ChunkPos, set<EntityRef>>
  type Caches = map<EntityRef, set<Chunk>>
  type Counts = map<EntityRef, int>
  type Clients = map<EntityRef, set<EntityRef>>

  // The chunk objects standing in the 3x3 neighbourhood of `c`.
  ghost function ViewOf(chunks: ChunkMap, c: ChunkPos): set<Chunk> {
    set p | p in chunks && Near(p, c) :: chunks[p]
  }

  ghost predicate Injective(chunks: ChunkMap) {
    forall p, q | p in chunks && q in chunks && chunks[p] == chunks[q] :: p == q
  }

  // A chunk stands exactly where an entity is (or in `hollow`), holds those entities and
  // counts the players among them.
  ghost predicate IndexHolds(contents: Contents, tallies: map<ChunkPos, int>,
                             pos: Placement, hollow: set<ChunkPos>) {
    && contents.Keys == tallies.Keys
    && (forall p | p in contents ::
          && contents[p] == At(pos, p)
          && tallies[p] == |Players(contents[p])|
          && (contents[p] == {} ==> p in hollow))
    && (forall r | r in pos :: pos[r] in contents)
  }

  ghost predicate CachesHold(caches: Caches, chunks: ChunkMap, pos: Placement) {
    forall r | r in pos :: r in caches && caches[r] == ViewOf(chunks, pos[r])
  }

  ghost predicate CountsHold(counts: Counts, pos: Placement) {
    forall r | r in counts && r.kind.Mob? :: counts[r] == PlayersNear(pos, r)
  }

  ghost predicate ClientsHold(clients: Clients, pos: Placement, ext: set<EntityRef>) {
    forall r | r in clients && r.kind.Player? :: clients[r] == Visible(pos, ext, r)
  }

  // Everything tracked in one of `chnks`.
  ghost function MembersIn(chunks: ChunkMap, contents: Contents, chnks: set<Chunk>): set<EntityRef> {
    set p, r | p in chunks && p in contents && chunks[p] in chnks && r in contents[p] :: r
  }

  lemma ViewIff(chunks: ChunkMap, p: ChunkPos, c: ChunkPos)
    requires Injective(chunks) && p in chunks
    ensures chunks[p] in ViewOf(chunks, c) <==> Near(p, c)
  {
  }

  /** The chunk objects of a 3x3 neighbourhood hold exactly the entities near its centre. */
  lemma MembersOfView(chunks: ChunkMap, contents: Contents, tallies: map<ChunkPos, int>, pos: Placement,
                      hollow: set<ChunkPos>, c: ChunkPos)
    requires IndexHolds(contents, tallies, pos, hollow) && chunks.Keys == contents.Keys && Injective(chunks)
    ensures MembersIn(chunks, contents, ViewOf(chunks, c)) == Around(pos, c)
  {
    forall p | p in chunks
      ensures chunks[p] in ViewOf(chunks, c) <==> Near(p, c)
    {
      ViewIff(chunks, p, c);
    }
    forall r | r in Around(pos, c)
      ensures r in MembersIn(chunks, contents, ViewOf(chunks, c))
    {
      assert r in contents[pos[r]];
    }
  }

  lemma MembersOfDifference(chunks: ChunkMap, contents: Contents, tallies: map<ChunkPos, int>, pos: Placement,
                            a: ChunkPos, b: ChunkPos)
    requires IndexHolds(contents, tallies, pos, {}) && chunks.Keys == contents.Keys && Injective(chunks)
    ensures MembersIn(chunks, contents, ViewOf(chunks, a) - ViewOf(chunks, b)) == Around(pos, a) - Around(pos, b)
  {
    forall p | p in chunks
      ensures chunks[p] in ViewOf(chunks, a) - ViewOf(chunks, b) <==> Near(p, a) && !Near(p, b)
    {
      ViewIff(chunks, p, a);
      ViewIff(chunks, p, b);
    }
    forall r | r in Around(pos, a) - Around(pos, b)
      ensures r in MembersIn(chunks, contents, ViewOf(chunks, a) - ViewOf(chunks, b))
    {
      assert r in contents[pos[r]];
    }
  }

  lemma MembersSplit(chunks: ChunkMap, contents: Contents, chnks: set<Chunk>, p: ChunkPos)
    requires chunks.Keys == contents.Keys && p in chunks && chunks[p] in chnks && Injective(chunks)
    ensures MembersIn(chunks, contents, chnks) == MembersIn(chunks, contents, chnks - {chunks[p]}) + contents[p]
  {
  }

  lemma MembersApart(chunks: ChunkMap, contents: Contents, tallies: map<ChunkPos, int>, pos: Placement,
                     hollow: set<ChunkPos>, chnks: set<Chunk>, p: ChunkPos)
    requires IndexHolds(contents, tallies, pos, hollow) && chunks.Keys == contents.Keys && p in chunks
    ensures MembersIn(chunks, contents, chnks - {chunks[p]}) !! contents[p]
  {
  }

  // The cached chunk position of an entity not in the index is INVALID_CHUNK.
  ghost predicate HomesHold(homes: Placement, pos: Placement) {
    forall r | r in homes :: homes[r] == if r in pos then pos[r] else INVALID_CHUNK
  }

  lemma MembersOfNone(chunks: ChunkMap, contents: Contents)
    ensures MembersIn(chunks, contents, {}) == {}
  {
  }

  // A loop that is done with one more part of what it was given.
  lemma Handover(done: set<EntityRef>, part: set<EntityRef>, rest: set<EntityRef>, all: set<EntityRef>)
    requires done + (rest + part) == all
    ensures (done + part) + rest == all && part <= all
  {
  }

  lemma HandoverApart(done: set<EntityRef>, part: set<EntityRef>, rest: set<EntityRef>, all: set<EntityRef>,
                      ref: EntityRef)
    requires done + (rest + part) == all && done !! rest + part && rest !! part
    ensures (done + part) + rest == all && done + part !! rest
    ensures (done - {ref}) + (part - {ref}) == (done + part) - {ref} && done - {ref} !! part - {ref}
    ensures (done + part) - {ref} <= all - {ref}
  {
  }

  lemma IndexSlack(contents: Contents, tallies: map<ChunkPos, int>, pos: Placement, p: ChunkPos)
    requires IndexHolds(contents, tallies, pos, {})
    ensures IndexHolds(contents, tallies, pos, {p})
  {
  }

  lemma IndexTight(contents: Contents, tallies: map<ChunkPos, int>, pos: Placement, p: ChunkPos)
    requires IndexHolds(contents, tallies, pos, {p}) && (p in contents ==> contents[p] != {})
    ensures IndexHolds(contents, tallies, pos, {})
  {
  }

  // ---- chunk creation and deletion, and the caches

  ghost function Inserted(m: Caches, refs: set<EntityRef>, chunk: Chunk): Caches {
    map r | r in m :: if r in refs then m[r] + {chunk} else m[r]
  }

  ghost function Erased(m: Caches, refs: set<EntityRef>, chunk: Chunk): Caches {
    map r | r in m :: if r in refs then m[r] - {chunk} else m[r]
  }

  lemma InsertedStep(m: Caches, done: set<EntityRef>, ref: EntityRef, chunk: Chunk)
    requires ref in m && ref !in done
    ensures ref in Inserted(m, done, chunk)
    ensures Inserted(m, done, chunk)[ref := Inserted(m, done, chunk)[ref] + {chunk}] == Inserted(m, done + {ref}, chunk)
  {
  }

  lemma ErasedStep(m: Caches, done: set<EntityRef>, ref: EntityRef, chunk: Chunk)
    requires ref in m && ref !in done
    ensures ref in Erased(m, done, chunk)
    ensures Erased(m, done, chunk)[ref := Erased(m, done, chunk)[ref] - {chunk}] == Erased(m, done + {ref}, chunk)
  {
  }

  lemma InsertedTwice(m: Caches, a: set<EntityRef>, b: set<EntityRef>, chunk: Chunk)
    ensures Inserted(m, {}, chunk) == m
    ensures Inserted(Inserted(m, a, chunk), b, chunk) == Inserted(m, a + b, chunk)
  {
  }

  lemma ErasedTwice(m: Caches, a: set<EntityRef>, b: set<EntityRef>, chunk: Chunk)
    ensures Erased(m, {}, chunk) == m
    ensures Erased(Erased(m, a, chunk), b, chunk) == Erased(m, a + b, chunk)
  {
    forall r | r in m
      ensures Erased(Erased(m, a, chunk), b, chunk)[r] == Erased(m, a + b, chunk)[r]
    {
    }
  }

  lemma ViewInsert(chunks: ChunkMap, p: ChunkPos, chunk: Chunk, c: ChunkPos)
    requires p !in chunks
    ensures ViewOf(chunks[p := chunk], c) == ViewOf(chunks, c) + if Near(p, c) then {chunk} else {}
  {
    var after := chunks[p := chunk];
    forall d | d in ViewOf(chunks, c)
      ensures d in ViewOf(after, c)
    {
      var q :| q in chunks && Near(q, c) && chunks[q] == d;
      assert q in after && after[q] == d;
    }
    assert p in after && after[p] == chunk;
  }

  lemma ViewErase(chunks: ChunkMap, p: ChunkPos, c: ChunkPos)
    requires Injective(chunks) && p in chunks
    ensures ViewOf(chunks - {p}, c) == ViewOf(chunks, c) - if Near(p, c) then {chunks[p]} else {}
  {
    var after := chunks - {p};
    forall d | d in ViewOf(chunks, c) && d != chunks[p]
      ensures d in ViewOf(after, c)
    {
      var q :| q in chunks && Near(q, c) && chunks[q] == d;
      assert q in after && after[q] == d;
    }
    assert chunks[p] in ViewOf(chunks, c) ==> Near(p, c);
  }

  /** Telling the entities around a new chunk about it is enough to keep every cache fresh. */
  lemma CachesAfterNew(caches: Caches, chunks: ChunkMap, pos: Placement, p: ChunkPos, chunk: Chunk)
    requires CachesHold(caches, chunks, pos) && p !in chunks
    ensures CachesHold(Inserted(caches, Around(pos, p), chunk), chunks[p := chunk], pos)
  {
    forall r | r in pos
      ensures Inserted(caches, Around(pos, p), chunk)[r] == ViewOf(chunks[p := chunk], pos[r])
    {
      ViewInsert(chunks, p, chunk, pos[r]);
    }
  }

  /** Telling the entities around a deleted chunk is enough as well. */
  lemma CachesAfterDelete(caches: Caches, chunks: ChunkMap, pos: Placement, p: ChunkPos)
    requires CachesHold(caches, chunks, pos) && Injective(chunks) && p in chunks
    ensures CachesHold(Erased(caches, Around(pos, p), chunks[p]), chunks - {p}, pos)
  {
    forall r | r in pos
      ensures Erased(caches, Around(pos, p), chunks[p])[r] == ViewOf(chunks - {p}, pos[r])
    {
      ViewErase(chunks, p, pos[r]);
    }
  }

  lemma CachesShrink(caches: Caches, chunks: ChunkMap, pos: Placement, ref: EntityRef)
    requires CachesHold(caches, chunks, pos)
    ensures CachesHold(caches, chunks, pos - {ref})
  {
  }

  lemma CachesAfterMove(caches: Caches, chunks: ChunkMap, pos: Placement, ref: EntityRef)
    requires CachesHold(caches, chunks, pos - {ref}) && ref in pos
    ensures CachesHold(caches[ref := ViewOf(chunks, pos[ref])], chunks, pos)
  {
  }

  lemma SameElsewhere(before: ChunkMap, between: ChunkMap, after: ChunkMap, from: ChunkPos, to: ChunkPos)
    requires between - {from} == before - {from}
        && (after == between || (to in after && after == between[to := after[to]]))
    ensures after - {from, to} == before - {from, to}
  {
    forall p | p != from && p != to
      ensures p in after <==> p in before
      ensures p in after ==> after[p] == before[p]
    {
      assert p in between - {from} <==> p in before - {from};
    }
  }

  lemma Replaced(pos: Placement, ref: EntityRef, to: ChunkPos)
    ensures (pos - {ref})[ref := to] == pos[ref := to] && pos[ref := to] - {ref} == pos - {ref}
  {
  }

  lemma HomesAfterMove(homes: Placement, pos: Placement, ref: EntityRef, to: ChunkPos)
    requires HomesHold(homes, pos)
    ensures HomesHold(homes[ref := to], pos[ref := to])
  {
  }

  lemma FromIsEmpty(contents: Contents, tallies: map<ChunkPos, int>, pos: Placement, ref: EntityRef, from: ChunkPos)
    requires IndexHolds(contents, tallies, pos, {}) && ComesFrom(pos, ref, from)
    ensures if ref in pos then pos[ref] == from else from !in contents
  {
  }

  lemma IndexAfterNew(contents: Contents, tallies: map<ChunkPos, int>, pos: Placement, p: ChunkPos)
    requires IndexHolds(contents, tallies, pos, {}) && p !in contents
    ensures IndexHolds(contents[p := {}], tallies[p := 0], pos, {p})
  {
  }

  lemma IndexAfterDelete(contents: Contents, tallies: map<ChunkPos, int>, pos: Placement, p: ChunkPos)
    requires IndexHolds(contents, tallies, pos, {p}) && p in contents && contents[p] == {}
    ensures IndexHolds(contents - {p}, tallies - {p}, pos, {})
  {
    forall r | r in pos
      ensures pos[r] != p
    {
      assert r !in At(pos, p);
    }
  }

  lemma IndexAfterTrack(contents: Contents, tallies: map<ChunkPos, int>, pos: Placement,
                        p: ChunkPos, ref: EntityRef)
    requires IndexHolds(contents, tallies, pos, {p}) && p in contents && ref !in pos
    ensures IndexHolds(contents[p := contents[p] + {ref}],
                       tallies[p := tallies[p] + if ref.kind.Player? then 1 else 0], pos[ref := p], {})
  {
    hide At, Players;
    PlayersStep(contents[p], ref) by { AtPlaced(pos, p); }
    forall q | q in contents
      ensures At(pos[ref := p], q) == if q == p then At(pos, q) + {ref} else At(pos, q)
    {
      AtWith(pos, ref, p, q);
    }
  }

  lemma AtPlaced(pos: Placement, p: ChunkPos)
    ensures At(pos, p) <= pos.Keys
  {
  }

  lemma AtWith(pos: Placement, ref: EntityRef, p: ChunkPos, q: ChunkPos)
    requires ref !in pos
    ensures At(pos[ref := p], q) == if q == p then At(pos, q) + {ref} else At(pos, q)
  {
  }

  lemma AtWithout(pos: Placement, ref: EntityRef, q: ChunkPos)
    requires ref in pos
    ensures At(pos - {ref}, q) == if q == pos[ref] then At(pos, q) - {ref} else At(pos, q)
  {
  }

  lemma PlayersWithout(s: set<EntityRef>, ref: EntityRef)
    requires ref in s
    ensures |Players(s)| == |Players(s - {ref})| + if ref.kind.Player? then 1 else 0
  {
    PlayersStep(s - {ref}, ref);
    assert s - {ref} + {ref} == s;
  }

  lemma IndexAfterUntrack(contents: Contents, tallies: map<ChunkPos, int>, pos: Placement,
                          p: ChunkPos, ref: EntityRef)
    requires IndexHolds(contents, tallies, pos, {}) && ref in pos && pos[ref] == p
    ensures p in contents && ref in contents[p]
    ensures tallies[p] >= if ref.kind.Player? then 1 else 0
    ensures IndexHolds(contents[p := contents[p] - {ref}],
                       tallies[p := tallies[p] - if ref.kind.Player? then 1 else 0], pos - {ref},
                       if contents[p] == {ref} then {p} else {})
  {
    hide At, Players;
    assert ref in At(pos, p) by { InChunk(pos, ref); }
    PlayersWithout(contents[p], ref);
    forall q | q in contents
      ensures At(pos - {ref}, q) == if q == p then At(pos, q) - {ref} else At(pos, q)
    {
      AtWithout(pos, ref, q);
    }
    assert contents[p] - {ref} == {} ==> contents[p] == {ref};
  }

  lemma InChunk(pos: Placement, ref: EntityRef)
    requires ref in pos
    ensures ref in At(pos, pos[ref])
  {
  }

  // ---- entering and leaving views

  // After `ref` and each of `others` were told of each other's departure.
  ghost function Parted(m: Clients, ref: EntityRef, others: set<EntityRef>, ext: set<EntityRef>): Clients {
    map r | r in m ::
      if r == ref then (if r.kind.Player? then m[r] - others * ext else m[r])
      else if r in others && r.kind.Player? && ref in ext then m[r] - {ref} else m[r]
  }

  // After `ref` and each of `others` were told of each other's arrival.
  ghost function Met(m: Clients, ref: EntityRef, others: set<EntityRef>, ext: set<EntityRef>): Clients {
    map r | r in m ::
      if r == ref then (if r.kind.Player? then m[r] + others * ext else m[r])
      else if r in others && r.kind.Player? && ref in ext then m[r] + {ref} else m[r]
  }

  // The mobs' counts after `ref` and each of `others` lost sight of each other.
  ghost function Lowered(n: Counts, ref: EntityRef, others: set<EntityRef>): Counts {
    map r | r in n ::
      if r == ref then (if r.kind.Mob? then n[r] - |Players(others)| else n[r])
      else if r in others && r.kind.Mob? && ref.kind.Player? then n[r] - 1 else n[r]
  }

  ghost function Raised(n: Counts, ref: EntityRef, others: set<EntityRef>): Counts {
    map r | r in n ::
      if r == ref then (if r.kind.Mob? then n[r] + |Players(others)| else n[r])
      else if r in others && r.kind.Mob? && ref.kind.Player? then n[r] + 1 else n[r]
  }

  // Every client that is about to be told of a departure knows of the one departing ...
  ghost predicate Acquainted(m: Clients, ref: EntityRef, others: set<EntityRef>, ext: set<EntityRef>) {
    && ref in m && ref !in others && others <= m.Keys
    && (forall o | o in others ::
          && (o.kind.Player? && ref in ext ==> ref in m[o])
          && (ref.kind.Player? && o in ext ==> o in m[ref]))
  }

  // ... and no client that is about to be told of an arrival knows of the newcomer.
  ghost predicate Strangers(m: Clients, ref: EntityRef, others: set<EntityRef>, ext: set<EntityRef>) {
    && ref in m && ref !in others && others <= m.Keys
    && (forall o | o in others ::
          && (o.kind.Player? && ref in ext ==> ref !in m[o])
          && (ref.kind.Player? && o in ext ==> o !in m[ref]))
  }

  lemma PartedNone(m: Clients, n: Counts, ref: EntityRef, ext: set<EntityRef>)
    ensures Parted(m, ref, {}, ext) == m && Lowered(n, ref, {}) == n
  {
    assert Players({}) == {};
    forall r | r in m
      ensures Parted(m, ref, {}, ext)[r] == m[r]
    {
    }
  }

  lemma MetNone(m: Clients, n: Counts, ref: EntityRef, ext: set<EntityRef>)
    ensures Met(m, ref, {}, ext) == m && Raised(n, ref, {}) == n
  {
    NoPlayers();
    assert {} * ext == {};
    forall r | r in m
      ensures Met(m, ref, {}, ext)[r] == m[r]
    {
    }
  }

  lemma PartedTwice(m: Clients, n: Counts, ref: EntityRef, a: set<EntityRef>, b: set<EntityRef>, ext: set<EntityRef>)
    requires a !! b && ref !in a + b
    ensures Parted(Parted(m, ref, a, ext), ref, b, ext) == Parted(m, ref, a + b, ext)
    ensures Lowered(Lowered(n, ref, a), ref, b) == Lowered(n, ref, a + b)
    ensures Acquainted(m, ref, a + b, ext) ==> Acquainted(Parted(m, ref, a, ext), ref, b, ext)
  {
    PlayersUnion(a, b);
    forall r | r in m
      ensures Parted(Parted(m, ref, a, ext), ref, b, ext)[r] == Parted(m, ref, a + b, ext)[r]
    {
    }
  }

  lemma MetTwice(m: Clients, n: Counts, ref: EntityRef, a: set<EntityRef>, b: set<EntityRef>, ext: set<EntityRef>)
    requires a !! b && ref !in a + b
    ensures Met(Met(m, ref, a, ext), ref, b, ext) == Met(m, ref, a + b, ext)
    ensures Raised(Raised(n, ref, a), ref, b) == Raised(n, ref, a + b)
    ensures Strangers(m, ref, a + b, ext) ==> Strangers(Met(m, ref, a, ext), ref, b, ext)
  {
    PlayersUnion(a, b);
    forall r | r in m
      ensures Met(Met(m, ref, a, ext), ref, b, ext)[r] == Met(m, ref, a + b, ext)[r]
    {
    }
  }

  lemma PartedOne(m: Clients, ref: EntityRef, other: EntityRef, ext: set<EntityRef>)
    requires ref in m && other in m && ref != other
    ensures var m1 := if ref in ext && other.kind.Player? then m[other := m[other] - {ref}] else m;
            var m2 := if other in ext && ref.kind.Player? then m1[ref := m1[ref] - {other}] else m1;
            m2 == Parted(m, ref, {other}, ext)
  {
    var m1 := if ref in ext && other.kind.Player? then m[other := m[other] - {ref}] else m;
    var m2 := if other in ext && ref.kind.Player? then m1[ref := m1[ref] - {other}] else m1;
    assert {other} * ext == if other in ext then {other} else {};
    forall r | r in m
      ensures m2[r] == Parted(m, ref, {other}, ext)[r]
    {
    }
  }

  lemma LoweredOne(n: Counts, ref: EntityRef, other: EntityRef)
    requires ref in n && other in n && ref != other
    ensures var n1 := if ref.kind.Mob? && other.kind.Player? then n[ref := n[ref] - 1] else n;
            var n2 := if other.kind.Mob? && ref.kind.Player? then n1[other := n1[other] - 1] else n1;
            n2 == Lowered(n, ref, {other})
  {
    PlayersStep({}, other);
    assert Players({}) == {} && {} + {other} == {other};
  }

  lemma MetOne(m: Clients, ref: EntityRef, other: EntityRef, ext: set<EntityRef>)
    requires ref in m && other in m && ref != other
    ensures var m1 := if ref in ext && other.kind.Player? then m[other := m[other] + {ref}] else m;
            var m2 := if other in ext && ref.kind.Player? then m1[ref := m1[ref] + {other}] else m1;
            m2 == Met(m, ref, {other}, ext)
  {
    var m1 := if ref in ext && other.kind.Player? then m[other := m[other] + {ref}] else m;
    var m2 := if other in ext && ref.kind.Player? then m1[ref := m1[ref] + {other}] else m1;
    assert {other} * ext == if other in ext then {other} else {};
    forall r | r in m
      ensures m2[r] == Met(m, ref, {other}, ext)[r]
    {
    }
  }

  lemma RaisedOne(n: Counts, ref: EntityRef, other: EntityRef)
    requires ref in n && other in n && ref != other
    ensures var n1 := if ref.kind.Mob? && other.kind.Player? then n[ref := n[ref] + 1] else n;
            var n2 := if other.kind.Mob? && ref.kind.Player? then n1[other := n1[other] + 1] else n1;
            n2 == Raised(n, ref, {other})
  {
    PlayersStep({}, other);
    assert Players({}) == {} && {} + {other} == {other};
  }

  lemma AcquaintedSome(m: Clients, ref: EntityRef, others: set<EntityRef>, some: set<EntityRef>, ext: set<EntityRef>)
    requires Acquainted(m, ref, others, ext) && some <= others
    ensures Acquainted(m, ref, some, ext)
  {
  }

  lemma StrangersSome(m: Clients, ref: EntityRef, others: set<EntityRef>, some: set<EntityRef>, ext: set<EntityRef>)
    requires Strangers(m, ref, others, ext) && some <= others
    ensures Strangers(m, ref, some, ext)
  {
  }

  /** Both clients of every pair that lost or gained sight of each other can be told, and
      telling them leaves every client exact. */
  lemma MoveClients(m: Clients, pos: Placement, ref: EntityRef, from: ChunkPos, to: ChunkPos, ext: set<EntityRef>)
    requires ClientsHold(m, pos, ext) && ComesFrom(pos, ref, from) && ref in m && pos.Keys <= m.Keys
    ensures var moved := pos[ref := to];
            var exits, enters := Exits(moved, from, to), Enters(moved, ref, from, to);
            && ref !in exits
            && Acquainted(m, ref, exits, ext)
            && Strangers(Parted(m, ref, exits, ext), ref, enters, ext)
            && ClientsHold(Met(Parted(m, ref, exits, ext), ref, enters, ext), moved, ext)
  {
    hide Around, Visible;
    var moved := pos[ref := to];
    var exits, enters := Exits(moved, from, to), Enters(moved, ref, from, to);
    MoverAround(pos, ref, from, to);
    MoverView(pos, ref, from, to, ext);
    forall r | r in m && r != ref
      ensures var gone := if r in exits && ref in ext then {ref} else {};
              var come := if r in enters && ref in ext then {ref} else {};
              && Visible(moved, ext, r) == Visible(pos, ext, r) - gone + come
              && gone <= Visible(pos, ext, r)
              && come !! Visible(pos, ext, r)
    {
      BystanderView(pos, ref, from, to, ext, r);
    }
  }

  /** The same increments and decrements leave every mob's player count exact. */
  lemma MoveCounts(n: Counts, pos: Placement, ref: EntityRef, from: ChunkPos, to: ChunkPos)
    requires CountsHold(n, pos) && ComesFrom(pos, ref, from) && ref in n && pos.Keys <= n.Keys
    ensures var moved := pos[ref := to];
            var exits, enters := Exits(moved, from, to), Enters(moved, ref, from, to);
            CountsHold(Raised(Lowered(n, ref, exits), ref, enters), moved)
  {
    hide Around, PlayersNear, Players;
    var moved := pos[ref := to];
    var exits, enters := Exits(moved, from, to), Enters(moved, ref, from, to);
    MoverAround(pos, ref, from, to);
    if ref.kind.Mob? {
      MoverCount(pos, ref, from, to);
    }
    forall r | r in n && r.kind.Mob? && r != ref
      ensures Raised(Lowered(n, ref, exits), ref, enters)[r] == PlayersNear(moved, r)
    {
      BystanderCount(pos, ref, from, to, r);
    }
  }

  // ---- leaving for good, hiding and showing

  // Where the caches of `ref` say it is; nothing is near an entity that is not in the index.
  ghost predicate HomeOf(pos: Placement, ref: EntityRef, home: ChunkPos) {
    if ref in pos then pos[ref] == home else Around(pos, home) == {}
  }

  /** Untracked or not, an entity that is to disappear is known to exactly the clients it is
      removed from, and their being told leaves every other client exact. */
  lemma LeaveClients(m: Clients, pos: Placement, ref: EntityRef, home: ChunkPos, ext: set<EntityRef>)
    requires ClientsHold(m, pos, ext) && ref in m && pos.Keys <= m.Keys && HomeOf(pos, ref, home)
    ensures var others := Around(pos, home) - {ref};
            && Acquainted(m, ref, others, ext)
            && ClientsHold(Parted(m, ref, others, ext), pos - {ref}, ext)
            && ClientsHold(Parted(m, ref, others, ext) - {ref}, pos - {ref}, ext - {ref})
  {
    var others := Around(pos, home) - {ref};
    var left := Parted(m, ref, others, ext);
    forall r | r in m && r.kind.Player?
      ensures left[r] == Visible(pos - {ref}, ext, r)
      ensures r != ref ==> Visible(pos - {ref}, ext - {ref}, r) == Visible(pos - {ref}, ext, r)
    {
      if r in pos && r != ref {
        assert Around(pos - {ref}, pos[r]) == Around(pos, pos[r]) - {ref};
      }
    }
  }

  lemma LeaveCounts(n: Counts, pos: Placement, ref: EntityRef, home: ChunkPos)
    requires CountsHold(n, pos) && ref in n && pos.Keys <= n.Keys && HomeOf(pos, ref, home)
    ensures var others := Around(pos, home) - {ref};
            CountsHold(Lowered(n, ref, others) - {ref}, pos - {ref})
  {
    var others := Around(pos, home) - {ref};
    forall r | r in n && r.kind.Mob? && r != ref
      ensures Lowered(n, ref, others)[r] == PlayersNear(pos - {ref}, r)
    {
      if r in pos {
        var rest := Around(pos, pos[r]) - {ref};
        PlayersStep(rest, ref);
        assert Around(pos - {ref}, pos[r]) == rest;
        assert Around(pos, pos[r]) == if ref in pos && Near(home, pos[r]) then rest + {ref} else rest;
      }
    }
  }

  /** A newcomer that is nowhere yet changes nobody's view. */
  lemma JoinHolds(caches: Caches, counts: Counts, clients: Clients, homes: Placement, chunks: ChunkMap,
                  pos: Placement, ext: set<EntityRef>, ref: EntityRef, shown: set<EntityRef>)
    requires CachesHold(caches, chunks, pos) && CountsHold(counts, pos) && ClientsHold(clients, pos, ext)
        && HomesHold(homes, pos)
    requires ref !in pos && shown <= {ref}
    ensures CachesHold(caches[ref := {}], chunks, pos)
    ensures CountsHold(counts[ref := 0], pos)
    ensures ClientsHold(clients[ref := {}], pos, ext + shown)
    ensures HomesHold(homes[ref := INVALID_CHUNK], pos)
  {
  }

  lemma AroundWithout(pos: Placement, ref: EntityRef, p: ChunkPos)
    ensures Around(pos - {ref}, p) == Around(pos, p) - {ref}
  {
  }

  lemma DropRest(caches: Caches, homes: Placement, chunks: ChunkMap, pos: Placement, ref: EntityRef)
    requires ref !in pos && CachesHold(caches, chunks, pos)
    ensures CachesHold(caches - {ref}, chunks, pos)
    ensures HomesHold(homes, pos) ==> HomesHold(homes - {ref}, pos)
  {
  }

  lemma HomesShrink(homes: Placement, pos: Placement, ref: EntityRef)
    requires HomesHold(homes, pos)
    ensures HomesHold(homes - {ref}, pos - {ref})
  {
  }

  /** An egg that stays where it is, but is no longer extant. */
  lemma HideClients(m: Clients, n: Counts, pos: Placement, ref: EntityRef, home: ChunkPos, ext: set<EntityRef>)
    requires ClientsHold(m, pos, ext) && ref in m && pos.Keys <= m.Keys && HomeOf(pos, ref, home) && ref.kind.Egg?
    ensures var others := Around(pos, home) - {ref};
            && Acquainted(m, ref, others, ext)
            && ClientsHold(Parted(m, ref, others, ext), pos, ext - {ref})
            && Lowered(n, ref, others) == n
  {
    var others := Around(pos, home) - {ref};
    forall r | r in m && r.kind.Player?
      ensures Parted(m, ref, others, ext)[r] == Visible(pos, ext - {ref}, r)
    {
    }
  }

  /** An egg that becomes extant again where it is. */
  lemma ShowClients(m: Clients, n: Counts, pos: Placement, ref: EntityRef, home: ChunkPos, ext: set<EntityRef>)
    requires ClientsHold(m, pos, ext) && ref in m && pos.Keys <= m.Keys && HomeOf(pos, ref, home) && ref.kind.Egg?
    requires ref !in ext
    ensures var others := Around(pos, home) - {ref};
            && Strangers(m, ref, others, ext + {ref})
            && ClientsHold(Met(m, ref, others, ext + {ref}), pos, ext + {ref})
            && Raised(n, ref, others) == n
  {
    var others := Around(pos, home) - {ref};
    forall r | r in m && r.kind.Player?
      ensures Met(m, ref, others, ext + {ref})[r] == Visible(pos, ext + {ref}, r)
    {
    }
  }

  // ---- values that repeat one field of every entity

  type Entities = map<EntityRef, Entity>

  ghost predicate NamesMatch(es: Entities) {
    forall r | r in es :: es[r].ref == r
  }

  ghost predicate CachesMatch(es: Entities, caches: Caches)
    reads es.Values`viewableChunks
  {
    caches.Keys == es.Keys && forall r | r in es :: es[r].viewableChunks == caches[r]
  }

  ghost predicate CountsMatch(es: Entities, counts: Counts)
    reads es.Values`playersInView
  {
    counts.Keys == es.Keys && forall r | r in es :: es[r].playersInView == counts[r]
  }

  ghost predicate ClientsMatch(es: Entities, clients: Clients)
    reads es.Values`known
  {
    clients.Keys == es.Keys && forall r | r in es :: es[r].known == clients[r]
  }

  ghost predicate HomesMatch(es: Entities, homes: Placement)
    reads es.Values`chunkPos
  {
    homes.Keys == es.Keys && forall r | r in es :: es[r].chunkPos == homes[r]
  }

  ghost predicate ExtMatch(es: Entities, ext: set<EntityRef>)
    reads es.Values`hp, es.Values`dead
  {
    ext <= es.Keys && forall r | r in es :: es[r].IsExtant() <==> r in ext
  }

  // Every value repeats its field.
  ghost predicate AllMatch(es: Entities, caches: Caches, counts: Counts, clients: Clients, homes: Placement,
                           ext: set<EntityRef>)
    reads es.Values`viewableChunks, es.Values`playersInView, es.Values`known, es.Values`chunkPos
    reads es.Values`hp, es.Values`dead
  {
    && NamesMatch(es) && CachesMatch(es, caches) && CountsMatch(es, counts) && ClientsMatch(es, clients)
    && HomesMatch(es, homes) && ExtMatch(es, ext)
  }

  lemma CachesWithout(es: Entities, m: Caches, ref: EntityRef)
    requires CachesMatch(es, m)
    ensures CachesMatch(es - {ref}, m - {ref})
  {
  }

  lemma CachesWith(es: Entities, m: Caches, e: Entity)
    requires CachesMatch(es, m) && e.viewableChunks == {}
    ensures CachesMatch(es[e.ref := e], m[e.ref := {}])
  {
  }

  lemma CountsWithout(es: Entities, m: Counts, ref: EntityRef)
    requires CountsMatch(es, m)
    ensures CountsMatch(es - {ref}, m - {ref})
  {
  }

  lemma CountsWith(es: Entities, m: Counts, e: Entity)
    requires CountsMatch(es, m) && e.playersInView == 0
    ensures CountsMatch(es[e.ref := e], m[e.ref := 0])
  {
  }

  lemma ClientsWithout(es: Entities, m: Clients, ref: EntityRef)
    requires ClientsMatch(es, m)
    ensures ClientsMatch(es - {ref}, m - {ref})
  {
  }

  lemma ClientsWith(es: Entities, m: Clients, e: Entity)
    requires ClientsMatch(es, m) && e.known == {}
    ensures ClientsMatch(es[e.ref := e], m[e.ref := {}])
  {
  }

  lemma HomesWithout(es: Entities, m: Placement, ref: EntityRef)
    requires HomesMatch(es, m)
    ensures HomesMatch(es - {ref}, m - {ref})
  {
  }

  lemma HomesWith(es: Entities, m: Placement, e: Entity)
    requires HomesMatch(es, m) && e.chunkPos == INVALID_CHUNK
    ensures HomesMatch(es[e.ref := e], m[e.ref := INVALID_CHUNK])
  {
  }

  lemma ExtWithout(es: Entities, ext: set<EntityRef>, ref: EntityRef)
    requires ExtMatch(es, ext) && NamesMatch(es)
    ensures ExtMatch(es - {ref}, ext - {ref}) && NamesMatch(es - {ref})
  {
  }

  lemma ExtWith(es: Entities, ext: set<EntityRef>, e: Entity)
    requires ExtMatch(es, ext) && NamesMatch(es) && e.ref !in es
    ensures ExtMatch(es[e.ref := e], ext + if e.IsExtant() then {e.ref} else {}) && NamesMatch(es[e.ref := e])
  {
  }
}
