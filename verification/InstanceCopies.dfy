/** Cloning a template map into a private instance. */
module InstanceCopies {
  import opened ChunkViews
  import opened ChunkLedger
  import opened Chunking
  import opened NPCManager
  import opened Instances

  // What a copy takes over from its template, or is given instead.
  datatype Trait = Trait(npcType: int, x: int, y: int, z: int, angle: int, hp: int, instanceID: int,
                         groupLeader: int, groupMember: seq<int>, offsetX: int, offsetY: int)

  type Traits = map<EntityRef, Trait>

  ghost function TraitOf(e: Entity): Trait
    reads e`npcType, e`x, e`y, e`z, e`angle, e`hp, e`instanceID, e`groupLeader, e`groupMember, e`offsetX, e`offsetY
  {
    Trait(e.npcType, e.x, e.y, e.z, e.angle, e.hp, e.instanceID, e.groupLeader, e.groupMember, e.offsetX, e.offsetY)
  }

  ghost predicate TraitsMatch(es: Entities, t: Traits)
    reads es.Values`npcType, es.Values`x, es.Values`y, es.Values`z, es.Values`angle, es.Values`hp, es.Values`instanceID
    reads es.Values`groupLeader, es.Values`groupMember, es.Values`offsetX, es.Values`offsetY
  {
    t.Keys == es.Keys && forall r | r in es :: TraitOf(es[r]) == t[r]
  }

  const NOBODY := [0, 0, 0, 0]

  function MobRef(id: int): EntityRef {
    EntityRef(Mob, id)
  }

  // ---- mob groups

  predicate IsFollower(t: Traits, r: EntityRef)
    requires r in t
  {
    r.kind.Mob? && t[r].groupLeader != 0 && t[r].groupLeader != r.id
  }

  predicate IsLeader(t: Traits, r: EntityRef)
    requires r in t
  {
    r.kind.Mob? && t[r].groupLeader != 0 && t[r].groupLeader == r.id
  }

  // `m` is one of the mobs that the leader `r` lists.
  predicate Lists(t: Traits, r: EntityRef, m: EntityRef)
    requires r in t
  {
    m.kind.Mob? && m.id != 0 && m.id in t[r].groupMember
  }

  /** Followers and leaders of one map name each other, and nobody is listed twice. */
  ghost predicate WellFormedGroups(t: Traits, sources: set<EntityRef>)
  {
    && sources <= t.Keys
    && (forall r | r in sources && r.kind.Mob? :: |t[r].groupMember| == 4)
    && (forall r | r in sources && IsFollower(t, r) ::
          && MobRef(t[r].groupLeader) in sources
          && IsLeader(t, MobRef(t[r].groupLeader))
          && Lists(t, MobRef(t[r].groupLeader), r))
    && (forall r, m | r in sources && IsLeader(t, r) && Lists(t, r, m) ::
          m in sources && m != r && t[m].groupLeader == r.id)
    && (forall r, i, j | r in sources && IsLeader(t, r) && 0 <= i < j < 4 && t[r].groupMember[i] != 0 ::
          t[r].groupMember[i] != t[r].groupMember[j])
  }

  // ---- what the copies should be

  // Every NPC tracked in `map` is a source, followers included.
  function Sources(pos: Placement, mapNum: int): set<EntityRef> {
    set r | r in Inside(pos, mapNum) && !r.kind.Player?
  }

  function IdOf(c: map<EntityRef, EntityRef>, id: int): int {
    if id == 0 || MobRef(id) !in c then 0 else c[MobRef(id)].id
  }

  // The member list of a copied leader, as far as the first `n` entries.
  function MembersCopied(c: map<EntityRef, EntityRef>, members: seq<int>, n: int): seq<int>
    requires |members| == 4
  {
    seq(4, i requires 0 <= i < 4 => if i < n then IdOf(c, members[i]) else 0)
  }

  // An egg, a bus or any other NPC that is not a mob is copied as a plain NPC with 400 HP.
  ghost function CopyTrait(t: Traits, maxHealth: int -> int, c: map<EntityRef, EntityRef>, b: EntityRef,
      inst: int): Trait
    requires b in t && (b.kind.Mob? ==> |t[b].groupMember| == 4)
  {
    var s := t[b];
    var hp := if b.kind.Mob? then maxHealth(s.npcType) else 400;
    var plain := Trait(s.npcType, s.x, s.y, s.z, s.angle, hp, inst, 0, NOBODY, 0, 0);
    if IsLeader(t, b) then plain.(groupLeader := IdOf(c, b.id), groupMember := MembersCopied(c, s.groupMember, 4))
    else if IsFollower(t, b)
        then plain.(groupLeader := IdOf(c, s.groupLeader), offsetX := s.offsetX, offsetY := s.offsetY)
    else plain
  }

  function CopyKind(k: EntityKind): EntityKind {
    if k.Mob? then Mob else SimpleNpc
  }

  // The bases in `done` have been copied: `c` names their copies, which have the right traits
  // and stand where their bases stand, but in the new instance.
  ghost predicate Copied(t0: Traits, maxHealth: int -> int, t: Traits, c: map<EntityRef, EntityRef>, pos: Placement,
                         side: int, inst: int, done: set<EntityRef>)
    requires side > 0
  {
    && done <= c.Keys && done <= t0.Keys
    && (forall b | b in done ::
          && (b.kind.Mob? ==> |t0[b].groupMember| == 4)
          && c[b].kind == CopyKind(b.kind)
          && c[b] in t && t[c[b]] == CopyTrait(t0, maxHealth, c, b, inst)
          && c[b] in pos && pos[c[b]] == PosAt(side, t0[b].x, t0[b].y, inst))
  }

  // Whoever is copied is copied together with its group.
  ghost predicate WholeGroups(t: Traits, done: set<EntityRef>)
    requires done <= t.Keys
  {
    && (forall r | r in done && IsFollower(t, r) :: MobRef(t[r].groupLeader) in done)
    && (forall r, m | r in done && IsLeader(t, r) && Lists(t, r, m) :: m in done)
  }

  lemma CopiesStay(t0: Traits, maxHealth: int -> int, t: Traits, t': Traits, c: map<EntityRef, EntityRef>,
                   c': map<EntityRef, EntityRef>, pos: Placement, pos': Placement, side: int, inst: int,
                       done: set<EntityRef>)
    requires side > 0 && Copied(t0, maxHealth, t, c, pos, side, inst, done) && WholeGroups(t0, done)
    requires forall b | b in done :: b in c' && c'[b] == c[b]
    requires forall b | b in done :: c[b] in t' && t'[c[b]] == t[c[b]]
    requires forall b | b in done :: c[b] in pos' && pos'[c[b]] == pos[c[b]]
    ensures Copied(t0, maxHealth, t', c', pos', side, inst, done)
  {
    forall b | b in done
      ensures CopyTrait(t0, maxHealth, c', b, inst) == CopyTrait(t0, maxHealth, c, b, inst)
    {
      if IsLeader(t0, b) {
        assert b == MobRef(b.id);
        forall i | 0 <= i < 4
          ensures IdOf(c', t0[b].groupMember[i]) == IdOf(c, t0[b].groupMember[i])
        {
          if t0[b].groupMember[i] != 0 {
            assert Lists(t0, b, MobRef(t0[b].groupMember[i]));
          }
        }
      }
    }
  }

  // ---- the primitive steps of createInstance; `t` holds the traits of every entity

  ghost predicate Live(w: World, t: Traits)
    reads w, w.chunks.Values, w.entities.Values
  {
    w.Valid() && AtRest(w.pos) && TraitsMatch(w.entities, t)
  }

  // NPC ids from nextId down to `floor` are not in use.
  ghost predicate IdsFree(es: set<EntityRef>, nextId: int, floor: int) {
    0 <= floor && forall r | r in es && !r.kind.Player? :: r.id <= floor || r.id > nextId
  }

  lemma IdIsNew(es: set<EntityRef>, nextId: int, floor: int, kind: EntityKind)
    requires IdsFree(es, nextId, floor) && nextId > floor && !kind.Player?
    ensures EntityRef(kind, nextId) !in es && nextId != 0
    ensures IdsFree(es + {EntityRef(kind, nextId)}, nextId - 1, floor)
  {
  }

  // new Mob or new BaseNPC, entered into the NPCs map
  method Make(w: World, kind: EntityKind, npcType: int, inst: int, hp: int, ghost t: Traits)
    returns (ref: EntityRef, ghost t': Traits)
    requires Live(w, t) && EntityRef(kind, w.nextId) !in w.entities
    modifies w
    ensures ref == EntityRef(kind, old(w.nextId)) && w.nextId == old(w.nextId) - 1
    ensures ref in w.entities && fresh(w.entities[ref]) && w.entities == old(w.entities)[ref := w.entities[ref]]
    ensures t' == t[ref := Trait(npcType, 0, 0, 0, 0, hp, inst, 0, NOBODY, 0, 0)] && Live(w, t')
    ensures w.pos == old(w.pos) && w.chunks == old(w.chunks)
    ensures old(w.ext) <= w.ext <= old(w.ext) + {ref}
  {
    hide World.Valid, TraitsMatch;
    var id := w.TakeId();
    ref := EntityRef(kind, id);
    var e := new Entity(ref, npcType, inst, hp, false);
    AddEntity(w, e);
    t' := t[ref := TraitOf(e)];
    TraitsWith(old(w.entities), t, e);
  }

  lemma TraitsWith(es: Entities, t: Traits, e: Entity)
    requires TraitsMatch(es, t)
    ensures TraitsMatch(es[e.ref := e], t[e.ref := TraitOf(e)])
  {
  }

  method Link(w: World, ref: EntityRef, leader: int, offsetX: int, offsetY: int, ghost t: Traits)
    returns (ghost t': Traits)
    requires Live(w, t) && ref in w.entities
    modifies {w.entities[ref]}`groupLeader, {w.entities[ref]}`offsetX, {w.entities[ref]}`offsetY
    ensures ref in t && t' == t[ref := t[ref].(groupLeader := leader, offsetX := offsetX, offsetY := offsetY)]
        && Live(w, t')
  {
    hide World.Valid;
    w.ExtOf(ref);
    t' := t[ref := t[ref].(groupLeader := leader, offsetX := offsetX, offsetY := offsetY)];
    w.SetLeader(ref, leader, offsetX, offsetY);
  }

  method Enlist(w: World, ref: EntityRef, i: int, id: int, ghost t: Traits) returns (ghost t': Traits)
    requires Live(w, t) && ref in w.entities && ref in t && 0 <= i < |t[ref].groupMember|
    modifies {w.entities[ref]}`groupMember
    ensures t' == t[ref := t[ref].(groupMember := t[ref].groupMember[i := id])] && Live(w, t')
  {
    hide World.Valid;
    w.ExtOf(ref);
    t' := t[ref := t[ref].(groupMember := t[ref].groupMember[i := id])];
    w.SetMember(ref, i, id);
  }

  method Place(w: World, ref: EntityRef, x: int, y: int, z: int, inst: int, angle: int, ghost t: Traits)
    returns (ghost t': Traits)
    requires Live(w, t) && ref in w.entities && ref !in w.pos && !ref.kind.Player? && inst != RESERVED_INSTANCE
    modifies w`pos, w`chunks, w`contents, w`tallies, w`caches, w`clients, w`counts, w`homes
    modifies w.chunks.Values`entities, w.chunks.Values`nplayers
    modifies w.entities.Values`known, w.entities.Values`playersInView, w.entities.Values`viewableChunks,
        w.entities.Values`chunkPos
    modifies {w.entities[ref]}`x, {w.entities[ref]}`y, {w.entities[ref]}`z, {w.entities[ref]}`angle,
        {w.entities[ref]}`instanceID
    ensures ref in t && t' == t[ref := t[ref].(x := x, y := y, z := z, angle := angle, instanceID := inst)]
        && Live(w, t')
    ensures w.side > 0 && w.pos == old(w.pos)[ref := PosAt(w.side, x, y, inst)]
    ensures forall p | p in w.chunks :: w.chunks[p] in old(w.chunks.Values) || fresh(w.chunks[p])
    ensures SameOutside(old(w.chunks), w.chunks, inst)
  {
    hide World.Valid, SameOutside, TraitsMatch, AtRest;
    NoReserved(w);
    HomeIsInvalid(w, ref);
    t' := Put(w, ref, x, y, z, inst, angle, t);
    NoReserved(w);
    OutsideSame(old(w.chunks), w.chunks, PosAt(w.side, x, y, inst));
  }

  // updateNPCPosition and the traits
  method Put(w: World, ref: EntityRef, x: int, y: int, z: int, inst: int, angle: int, ghost t: Traits)
    returns (ghost t': Traits)
    requires Live(w, t) && ref in w.entities && !ref.kind.Player? && inst != RESERVED_INSTANCE
    modifies w`pos, w`chunks, w`contents, w`tallies, w`caches, w`clients, w`counts, w`homes
    modifies w.chunks.Values`entities, w.chunks.Values`nplayers
    modifies w.entities.Values`known, w.entities.Values`playersInView, w.entities.Values`viewableChunks,
        w.entities.Values`chunkPos
    modifies {w.entities[ref]}`x, {w.entities[ref]}`y, {w.entities[ref]}`z, {w.entities[ref]}`angle,
        {w.entities[ref]}`instanceID
    ensures ref in t && t' == t[ref := t[ref].(x := x, y := y, z := z, angle := angle, instanceID := inst)]
        && Live(w, t')
    ensures w.side > 0 && w.pos == old(w.pos)[ref := PosAt(w.side, x, y, inst)]
    ensures forall p | p in w.chunks :: w.chunks[p] in old(w.chunks.Values) || fresh(w.chunks[p])
    ensures w.chunks - {old(w.entities[ref].chunkPos), PosAt(w.side, x, y, inst)}
         == old(w.chunks) - {old(w.entities[ref].chunkPos), PosAt(w.side, x, y, inst)}
  {
    hide World.Valid, AtRest, TraitOf, Nowhere, PosAt;
    w.ExtOf(ref);
    assert forall r | r in w.entities && r != ref :: w.entities[r] != w.entities[ref];
    t' := t[ref := t[ref].(x := x, y := y, z := z, angle := angle, instanceID := inst)];
    TraitNowhere(w.entities[ref]);
    UpdateNPCPosition(w, ref, x, y, z, inst, angle);
    PlacedTrait(w.entities[ref], t[ref], x, y, z, inst, angle);
  }

  // the traits that do not depend on the place
  ghost function Nowhere(e: Entity): Trait
    reads e`npcType, e`hp, e`groupLeader, e`groupMember, e`offsetX, e`offsetY
  {
    Trait(e.npcType, 0, 0, 0, 0, e.hp, 0, e.groupLeader, e.groupMember, e.offsetX, e.offsetY)
  }

  lemma TraitNowhere(e: Entity)
    ensures Nowhere(e) == TraitOf(e).(x := 0, y := 0, z := 0, angle := 0, instanceID := 0)
  {
  }

  lemma PlacedTrait(e: Entity, was: Trait, x: int, y: int, z: int, inst: int, angle: int)
    requires e.x == x && e.y == y && e.z == z && e.instanceID == inst && e.angle == angle
    requires Nowhere(e) == was.(x := 0, y := 0, z := 0, angle := 0, instanceID := 0)
    ensures TraitOf(e) == was.(x := x, y := y, z := z, angle := angle, instanceID := inst)
  {
  }

  lemma HomeIsInvalid(w: World, ref: EntityRef)
    requires w.Valid() && ref in w.entities && ref !in w.pos
    ensures w.entities[ref].chunkPos == INVALID_CHUNK
  {
  }

  lemma NoReserved(w: World)
    requires w.Valid() && AtRest(w.pos)
    ensures INVALID_CHUNK !in w.chunks
  {
  }

  ghost predicate SameOutside(before: ChunkMap, after: ChunkMap, inst: int) {
    before - ChunksIn(before.Keys, inst) == after - ChunksIn(after.Keys, inst)
  }

  lemma OutsideSame(before: ChunkMap, after: ChunkMap, p: ChunkPos)
    requires after - {INVALID_CHUNK, p} == before - {INVALID_CHUNK, p}
    requires INVALID_CHUNK !in before && INVALID_CHUNK !in after
    ensures SameOutside(before, after, p.inst)
  {
    forall q | q != p
      ensures q in after <==> q in before
      ensures q in after ==> after[q] == before[q]
    {
      assert q in after - {INVALID_CHUNK, p} <==> q in after && q != INVALID_CHUNK;
      assert q in before - {INVALID_CHUNK, p} <==> q in before && q != INVALID_CHUNK;
    }
  }

  // ---- progress of the cloning

  type CopyMap = map<EntityRef, EntityRef>

  function Made(c: CopyMap): set<EntityRef> {
    set b | b in c :: c[b]
  }

  // Since the start, only the entities in Made(c) have been added; the rest is as it was.
  ghost predicate Extends(t0: Traits, t: Traits, c: CopyMap, es0: Entities, es: Entities, pos0: Placement,
                          pos: Placement,
                          ext0: set<EntityRef>, ext: set<EntityRef>) {
    && t0.Keys == es0.Keys && t.Keys == es.Keys && es.Keys == es0.Keys + Made(c) && Made(c) !! es0.Keys
    && (forall r | r in es0 :: es[r] == es0[r] && t[r] == t0[r])
    && pos0.Keys <= es0.Keys && pos.Keys <= pos0.Keys + Made(c)
    && (forall r | r in pos0 :: r in pos && pos[r] == pos0[r])
    && ext0 <= es0.Keys && ext0 <= ext && ext <= ext0 + Made(c)
  }

  // Each copy took the next id.
  ghost predicate IdsTaken(c: CopyMap, nextId0: int, nextId: int) {
    && nextId == nextId0 - |c|
    && (forall b | b in c :: c[b].id > nextId)
    && (forall b, b' | b in c && b' in c && b != b' :: c[b] != c[b'])
  }

  lemma MadeOne(c: CopyMap, b: EntityRef, f: EntityRef)
    requires b !in c
    ensures Made(c[b := f]) == Made(c) + {f}
  {
    assert Made(c[b := f]) <= Made(c) + {f};
    forall r | r in Made(c)
      ensures r in Made(c[b := f])
    {
      var a :| a in c && c[a] == r;
      assert c[b := f][a] == r;
    }
    assert c[b := f][b] == f;
  }

  lemma TakeOne(c: CopyMap, nextId0: int, nextId: int, b: EntityRef, f: EntityRef)
    requires IdsTaken(c, nextId0, nextId) && b !in c && f.id == nextId
    ensures IdsTaken(c[b := f], nextId0, nextId - 1)
  {
  }

  // A new entity, linked and placed in any way, extends what was there.
  lemma ExtendOne(t0: Traits, t: Traits, c: CopyMap, es0: Entities, es: Entities, pos0: Placement, pos: Placement,
                  ext0: set<EntityRef>, ext: set<EntityRef>, b: EntityRef, f: EntityRef, e: Entity, given: Trait,
                  ext': set<EntityRef>)
    requires Extends(t0, t, c, es0, es, pos0, pos, ext0, ext)
    requires b !in c && f !in es && ext <= ext' <= ext + {f}
    ensures Extends(t0, t[f := given], c[b := f], es0, es[f := e], pos0, pos, ext0, ext')
  {
    MadeOne(c, b, f);
  }

  lemma ExtendTrait(t0: Traits, t: Traits, c: CopyMap, es0: Entities, es: Entities, pos0: Placement, pos: Placement,
                    ext0: set<EntityRef>, ext: set<EntityRef>, f: EntityRef, given: Trait)
    requires Extends(t0, t, c, es0, es, pos0, pos, ext0, ext) && f in Made(c)
    ensures Extends(t0, t[f := given], c, es0, es, pos0, pos, ext0, ext)
  {
  }

  lemma ExtendPlace(t0: Traits, t: Traits, c: CopyMap, es0: Entities, es: Entities, pos0: Placement, pos: Placement,
                    ext0: set<EntityRef>, ext: set<EntityRef>, f: EntityRef, p: ChunkPos)
    requires Extends(t0, t, c, es0, es, pos0, pos, ext0, ext) && f in Made(c)
    ensures Extends(t0, t, c, es0, es, pos0, pos[f := p], ext0, ext)
  {
  }

  // The shard as createInstance found it.
  datatype Start = Start(t0: Traits, es0: Entities, pos0: Placement, ext0: set<EntityRef>, chunks0: ChunkMap,
                         nextId0: int, floor: int)

  ghost predicate Cloning(w: World, s: Start, t: Traits, c: CopyMap, inst: int)
    reads w, w.chunks.Values, w.entities.Values
  {
    && Live(w, t)
    && Extends(s.t0, t, c, s.es0, w.entities, s.pos0, w.pos, s.ext0, w.ext)
    && IdsTaken(c, s.nextId0, w.nextId)
    && IdsFree(w.entities.Keys, w.nextId, s.floor)
    && SameOutside(s.chunks0, w.chunks, inst)
  }

  method MakeCopy(w: World, ghost s: Start, ghost t: Traits, ghost c: CopyMap, ghost b: EntityRef,
                  kind: EntityKind, npcType: int, inst: int, hp: int)
    returns (ref: EntityRef, ghost t': Traits, ghost c': CopyMap)
    requires Cloning(w, s, t, c, inst) && b !in c && w.nextId > s.floor && !kind.Player?
    modifies w
    ensures Cloning(w, s, t', c', inst)
    ensures ref.kind == kind && ref.id == old(w.nextId) && ref !in t && ref !in w.pos && ref.id != 0
    ensures t' == t[ref := Trait(npcType, 0, 0, 0, 0, hp, inst, 0, NOBODY, 0, 0)] && c' == c[b := ref]
    ensures w.pos == old(w.pos) && w.nextId == old(w.nextId) - 1
    ensures w.chunks == old(w.chunks)
    ensures ref in w.entities && fresh(w.entities[ref]) && w.entities == old(w.entities)[ref := w.entities[ref]]
  {
    hide Live, Extends, IdsTaken, IdsFree, SameOutside;
    IdIsNew(w.entities.Keys, w.nextId, s.floor, kind);
    ref, t' := Make(w, kind, npcType, inst, hp, t);
    c' := c[b := ref];
    ExtendKeys(s.t0, t, c, s.es0, old(w.entities), s.pos0, old(w.pos), s.ext0, old(w.ext));
    ExtendOne(s.t0, t, c, s.es0, old(w.entities), s.pos0, w.pos, s.ext0, old(w.ext), b, ref, w.entities[ref],
        t'[ref], w.ext);
    TakeOne(c, s.nextId0, old(w.nextId), b, ref);
    assert w.entities.Keys == old(w.entities).Keys + {ref};
  }

  lemma ExtendKeys(t0: Traits, t: Traits, c: CopyMap, es0: Entities, es: Entities, pos0: Placement, pos: Placement,
                   ext0: set<EntityRef>, ext: set<EntityRef>)
    requires Extends(t0, t, c, es0, es, pos0, pos, ext0, ext)
    ensures t.Keys == es.Keys && pos.Keys <= es.Keys
    ensures forall b | b in c :: c[b] in es
  {
  }

  method LinkCopy(w: World, ghost s: Start, ghost t: Traits, ghost c: CopyMap, inst: int,
                  ref: EntityRef, leader: int, offsetX: int, offsetY: int) returns (ghost t': Traits)
    requires Cloning(w, s, t, c, inst) && ref in Made(c) && ref in w.entities
    modifies {w.entities[ref]}`groupLeader, {w.entities[ref]}`offsetX, {w.entities[ref]}`offsetY
    ensures Cloning(w, s, t', c, inst)
    ensures ref in t && t' == t[ref := t[ref].(groupLeader := leader, offsetX := offsetX, offsetY := offsetY)]
  {
    hide Live, Extends, IdsTaken, IdsFree, SameOutside;
    ExtendKeys(s.t0, t, c, s.es0, w.entities, s.pos0, w.pos, s.ext0, w.ext);
    t' := Link(w, ref, leader, offsetX, offsetY, t);
    ExtendTrait(s.t0, t, c, s.es0, w.entities, s.pos0, w.pos, s.ext0, w.ext, ref, t'[ref]);
  }

  lemma MadeIn(c: CopyMap, es: set<EntityRef>, ref: EntityRef)
    requires ref in Made(c) && forall b | b in c :: c[b] in es
    ensures ref in es
  {
  }

  method EnlistCopy(w: World, ghost s: Start, ghost t: Traits, ghost c: CopyMap, inst: int,
                    ref: EntityRef, i: int, id: int) returns (ghost t': Traits)
    requires Cloning(w, s, t, c, inst) && ref in Made(c) && ref in w.entities && ref in t
        && 0 <= i < |t[ref].groupMember|
    modifies {w.entities[ref]}`groupMember
    ensures Cloning(w, s, t', c, inst)
    ensures t' == t[ref := t[ref].(groupMember := t[ref].groupMember[i := id])]
  {
    hide Live, Extends, IdsTaken, IdsFree, SameOutside;
    ExtendKeys(s.t0, t, c, s.es0, w.entities, s.pos0, w.pos, s.ext0, w.ext);
    t' := Enlist(w, ref, i, id, t);
    ExtendTrait(s.t0, t, c, s.es0, w.entities, s.pos0, w.pos, s.ext0, w.ext, ref, t'[ref]);
  }

  method PlaceCopy(w: World, ghost s: Start, ghost t: Traits, ghost c: CopyMap, inst: int,
                   ref: EntityRef, x: int, y: int, z: int, angle: int) returns (ghost t': Traits)
    requires Cloning(w, s, t, c, inst) && ref in Made(c) && ref !in w.pos && !ref.kind.Player?
        && inst != RESERVED_INSTANCE
    modifies w, w.chunks.Values, w.entities.Values
    ensures Cloning(w, s, t', c, inst)
    ensures ref in t && t' == t[ref := t[ref].(x := x, y := y, z := z, angle := angle, instanceID := inst)]
    ensures w.side > 0 && w.pos == old(w.pos)[ref := PosAt(w.side, x, y, inst)]
    ensures w.entities == old(w.entities) && w.nextId == old(w.nextId)
    ensures forall p | p in w.chunks :: w.chunks[p] in old(w.chunks.Values) || fresh(w.chunks[p])
  {
    hide Live, Extends, IdsTaken, IdsFree, SameOutside;
    ExtendKeys(s.t0, t, c, s.es0, w.entities, s.pos0, w.pos, s.ext0, w.ext);
    assert ref in w.entities by { MadeIn(c, w.entities.Keys, ref); }
    t' := Place(w, ref, x, y, z, inst, angle, t);
    ExtendTrait(s.t0, t, c, s.es0, w.entities, s.pos0, old(w.pos), s.ext0, w.ext, ref, t'[ref]);
    ExtendPlace(s.t0, t', c, s.es0, w.entities, s.pos0, old(w.pos), s.ext0, w.ext, ref, PosAt(w.side, x, y, inst));
    OutsideTwice(s.chunks0, old(w.chunks), w.chunks, inst);
  }

  lemma OutsideTwice(a: ChunkMap, b: ChunkMap, c: ChunkMap, inst: int)
    requires SameOutside(a, b, inst) && SameOutside(b, c, inst)
    ensures SameOutside(a, c, inst)
  {
  }

  lemma TraitsAt(w: World, s: Start, t: Traits, c: CopyMap, inst: int, r: EntityRef)
    requires Cloning(w, s, t, c, inst) && r in s.t0
    ensures r in w.entities && r in t && TraitOf(w.entities[r]) == s.t0[r] && t[r] == s.t0[r] && r !in Made(c)
  {
  }

  lemma MadeHas(c: CopyMap, b: EntityRef)
    requires b in c
    ensures c[b] in Made(c)
  {
  }

  lemma MadeGrows(c: CopyMap, b: EntityRef, f: EntityRef, r: EntityRef)
    requires b !in c && r in Made(c)
    ensures r in Made(c[b := f]) && f in Made(c[b := f])
  {
    MadeOne(c, b, f);
  }

  ghost function FollowerTrait(src: Trait, maxHealth: int -> int, inst: int, leader: int): Trait {
    Trait(src.npcType, src.x, src.y, src.z, src.angle, maxHealth(src.npcType), inst, leader, NOBODY, src.offsetX,
        src.offsetY)
  }

  // the loop body of createInstance for one listed follower
  method CopyFollower(w: World, ghost s: Start, ghost t: Traits, ghost c: CopyMap, inst: int, maxHealth: int -> int,
                      n: EntityRef, i: int, m: EntityRef)
    returns (f: EntityRef, ghost t': Traits, ghost c': CopyMap)
    requires Cloning(w, s, t, c, inst) && inst != RESERVED_INSTANCE && w.nextId > s.floor
    requires m in s.t0 && m !in c && m in w.entities && n in Made(c) && n in w.entities && n in t
        && 0 <= i < |t[n].groupMember|
    modifies w, w.chunks.Values, w.entities.Values
    ensures Cloning(w, s, t', c', inst) && w.nextId == old(w.nextId) - 1
    ensures f.kind.Mob? && f.id == old(w.nextId) && f !in t && f.id != 0 && f !in old(w.pos) && c' == c[m := f]
    ensures t' == t[f := FollowerTrait(s.t0[m], maxHealth, inst, n.id)]
                   [n := t[n].(groupMember := t[n].groupMember[i := f.id])]
    ensures w.side > 0 && w.pos == old(w.pos)[f := PosAt(w.side, s.t0[m].x, s.t0[m].y, inst)]
    ensures forall p | p in w.chunks :: w.chunks[p] in old(w.chunks.Values) || fresh(w.chunks[p])
    ensures forall r | r in w.entities :: w.entities[r] in old(w.entities.Values) || fresh(w.entities[r])
  {
    hide Cloning;
    TraitsAt(w, s, t, c, inst, m);
    var baseFollower := w.entities[m];
    var x, y, z, angle := baseFollower.x, baseFollower.y, baseFollower.z, baseFollower.angle;
    var offsetX, offsetY := baseFollower.offsetX, baseFollower.offsetY;
    f, t', c' := MakeCopy(w, s, t, c, m, Mob, baseFollower.npcType, inst, maxHealth(baseFollower.npcType));
    MadeGrows(c, m, f, n);
    assert n != f;
    t' := LinkCopy(w, s, t', c', inst, f, n.id, offsetX, offsetY);
    t' := EnlistCopy(w, s, t', c', inst, n, i, f.id);
    t' := PlaceCopy(w, s, t', c', inst, f, x, y, z, angle);
  }

  ghost function LoneTrait(src: Trait, hp: int, inst: int): Trait {
    Trait(src.npcType, src.x, src.y, src.z, src.angle, hp, inst, 0, NOBODY, 0, 0)
  }

  // a mob without a group, or an NPC that is not a mob
  method CopyLone(w: World, ghost s: Start, ghost t: Traits, ghost c: CopyMap, inst: int,
                  b: EntityRef, kind: EntityKind, maxHealth: int -> int)
    returns (f: EntityRef, ghost t': Traits, ghost c': CopyMap)
    requires Cloning(w, s, t, c, inst) && inst != RESERVED_INSTANCE && w.nextId > s.floor && !kind.Player?
    requires b in s.t0 && b !in c && b in w.entities
    modifies w, w.chunks.Values, w.entities.Values
    ensures Cloning(w, s, t', c', inst) && w.nextId == old(w.nextId) - 1
    ensures f.kind == kind && f !in t && f !in old(w.pos) && c' == c[b := f]
    ensures t' == t[f := LoneTrait(s.t0[b], if kind.Mob? then maxHealth(s.t0[b].npcType) else 400, inst)]
    ensures w.side > 0 && w.pos == old(w.pos)[f := PosAt(w.side, s.t0[b].x, s.t0[b].y, inst)]
    ensures forall p | p in w.chunks :: w.chunks[p] in old(w.chunks.Values) || fresh(w.chunks[p])
    ensures forall r | r in w.entities :: w.entities[r] in old(w.entities.Values) || fresh(w.entities[r])
  {
    hide Cloning;
    TraitsAt(w, s, t, c, inst, b);
    var base := w.entities[b];
    var hp := if kind.Mob? then maxHealth(base.npcType) else 400;
    var x, y, z, angle := base.x, base.y, base.z, base.angle;
    f, t', c' := MakeCopy(w, s, t, c, b, kind, base.npcType, inst, hp);
    MadeHas(c', b);
    t' := PlaceCopy(w, s, t', c', inst, f, x, y, z, angle);
  }

  // ---- a leader and its followers

  function MatesUpTo(members: seq<int>, n: int): set<EntityRef>
    requires 0 <= n <= |members|
  {
    set i | 0 <= i < n && members[i] != 0 :: MobRef(members[i])
  }

  function Listed(members: seq<int>, n: int): nat
    requires 0 <= n <= |members|
  {
    if n == 0 then 0 else Listed(members, n - 1) + if members[n - 1] != 0 then 1 else 0
  }

  // The first `n` listed followers of `b`, whose copy has id `leader`, have been copied.
  ghost predicate FollowersCopied(t0: Traits, maxHealth: int -> int, t: Traits, c: CopyMap, pos: Placement, side: int,
                                  inst: int, members: seq<int>, n: int, leader: int)
    requires 0 <= n <= |members| && side > 0
  {
    forall m | m in MatesUpTo(members, n) ::
      && m in t0 && m in c && c[m].kind.Mob?
      && c[m] in t && t[c[m]] == FollowerTrait(t0[m], maxHealth, inst, leader)
      && c[m] in pos && pos[c[m]] == PosAt(side, t0[m].x, t0[m].y, inst)
  }

  ghost predicate Fits(t0: Traits, b: EntityRef, c: CopyMap) {
    && b in t0 && |t0[b].groupMember| == 4 && b.kind.Mob?
    && (forall i | 0 <= i < 4 && t0[b].groupMember[i] != 0 ::
          MobRef(t0[b].groupMember[i]) in t0 && MobRef(t0[b].groupMember[i]) !in c && MobRef(t0[b].groupMember[i]) != b)
    && (forall i, j | 0 <= i < j < 4 && t0[b].groupMember[i] != 0 :: t0[b].groupMember[i] != t0[b].groupMember[j])
  }

  // Entries and placements of `before` survive in `after`.
  ghost predicate Kept<T(!new)>(before: map<EntityRef, T>, after: map<EntityRef, T>) {
    forall r | r in before :: r in after && after[r] == before[r]
  }

  // While a group is being copied: leader `b` has the unplaced copy `n`, and the first `i` of its
  // list are done.  `t1`, `c1` and `pos1` are what there was before the group.
  ghost predicate Grouping(t0: Traits, maxHealth: int -> int, t1: Traits, t: Traits, c1: CopyMap, c: CopyMap,
                           pos1: Placement, pos: Placement, side: int, inst: int, b: EntityRef, n: EntityRef, i: int)
    requires 0 <= i <= 4 && side > 0
  {
    && Fits(t0, b, c1) && b !in c1 && n.kind.Mob?
    && Kept(t1, t) && Kept(c1, c) && Kept(pos1, pos)
    && n !in t1 && n !in pos && n in t && b in c && c[b] == n
    && t[n] == Trait(t0[b].npcType, 0, 0, 0, 0, maxHealth(t0[b].npcType), inst, n.id,
                     MembersCopied(c, t0[b].groupMember, i), 0, 0)
    && c.Keys == c1.Keys + {b} + MatesUpTo(t0[b].groupMember, i)
    && FollowersCopied(t0, maxHealth, t, c, pos, side, inst, t0[b].groupMember, i, n.id)
  }

  lemma GroupStart(t0: Traits, maxHealth: int -> int, t1: Traits, c1: CopyMap, pos1: Placement, side: int, inst: int,
                   b: EntityRef, n: EntityRef)
    requires Fits(t0, b, c1) && b !in c1 && n.kind.Mob? && n !in t1 && n !in pos1 && side > 0
    ensures Grouping(t0, maxHealth, t1,
        t1[n := Trait(t0[b].npcType, 0, 0, 0, 0, maxHealth(t0[b].npcType), inst, n.id, NOBODY, 0, 0)],
                     c1, c1[b := n], pos1, pos1, side, inst, b, n, 0)
  {
  }

  lemma MatesStep(members: seq<int>, i: int)
    requires 0 <= i < |members|
    ensures MatesUpTo(members, i + 1) == MatesUpTo(members, i) + if members[i] != 0 then {MobRef(members[i])} else {}
  {
  }

  lemma GroupSkip(t0: Traits, maxHealth: int -> int, t1: Traits, t: Traits, c1: CopyMap, c: CopyMap,
                  pos1: Placement, pos: Placement, side: int, inst: int, b: EntityRef, n: EntityRef, i: int)
    requires 0 <= i < 4 && side > 0 && Grouping(t0, maxHealth, t1, t, c1, c, pos1, pos, side, inst, b, n, i)
    requires t0[b].groupMember[i] == 0
    ensures Grouping(t0, maxHealth, t1, t, c1, c, pos1, pos, side, inst, b, n, i + 1)
  {
  }

  lemma NextMate(t0: Traits, maxHealth: int -> int, t1: Traits, t: Traits, c1: CopyMap, c: CopyMap,
                 pos1: Placement, pos: Placement, side: int, inst: int, b: EntityRef, n: EntityRef, i: int)
    requires 0 <= i < 4 && side > 0 && Grouping(t0, maxHealth, t1, t, c1, c, pos1, pos, side, inst, b, n, i)
    requires t0[b].groupMember[i] != 0
    ensures MobRef(t0[b].groupMember[i]) in t0 && MobRef(t0[b].groupMember[i]) !in c
        && MobRef(t0[b].groupMember[i]) != b
  {
  }

  lemma MembersStep(c: CopyMap, members: seq<int>, i: int, f: EntityRef)
    requires |members| == 4 && 0 <= i < 4 && members[i] != 0 && forall j | 0 <= j < i :: members[j] != members[i]
    ensures MembersCopied(c[MobRef(members[i]) := f], members, i + 1) == MembersCopied(c, members, i)[i := f.id]
  {
  }

  lemma GroupStep(t0: Traits, maxHealth: int -> int, t1: Traits, t: Traits, c1: CopyMap, c: CopyMap,
                  pos1: Placement, pos: Placement, side: int, inst: int, b: EntityRef, n: EntityRef, i: int,
                      f: EntityRef)
    requires 0 <= i < 4 && side > 0 && Grouping(t0, maxHealth, t1, t, c1, c, pos1, pos, side, inst, b, n, i)
    requires t0[b].groupMember[i] != 0 && f !in t && f !in pos && f.kind.Mob? && MobRef(t0[b].groupMember[i]) in t0
    ensures var m := MobRef(t0[b].groupMember[i]);
            Grouping(t0, maxHealth, t1,
                     t[f := FollowerTrait(t0[m], maxHealth, inst, n.id)]
                         [n := t[n].(groupMember := t[n].groupMember[i := f.id])],
                     c1, c[m := f], pos1, pos[f := PosAt(side, t0[m].x, t0[m].y, inst)], side, inst, b, n, i + 1)
  {
    NextMate(t0, maxHealth, t1, t, c1, c, pos1, pos, side, inst, b, n, i);
    var members := t0[b].groupMember;
    var m := MobRef(members[i]);
    MatesStep(members, i);
    MembersStep(c, members, i, f) by {
      forall j | 0 <= j < i
        ensures members[j] != members[i]
      {
        assert members[j] != 0 ==> members[j] != members[i];
      }
    }
    var t' := t[f := FollowerTrait(t0[m], maxHealth, inst, n.id)]
        [n := t[n].(groupMember := t[n].groupMember[i := f.id])];
    var c', pos' := c[m := f], pos[f := PosAt(side, t0[m].x, t0[m].y, inst)];
    forall x | x in MatesUpTo(members, i)
      ensures x != m && c[x] != n && c[x] in t && c[x] != f && c[x] in pos
    {
    }
  }

  // the loop of createInstance over a leader's list
  method CopyFollowers(w: World, ghost s: Start, ghost t1: Traits, ghost t: Traits, ghost c1: CopyMap, ghost c: CopyMap,
                       ghost pos1: Placement, inst: int, maxHealth: int -> int, b: EntityRef, n: EntityRef)
    returns (ghost t': Traits, ghost c': CopyMap)
    requires Cloning(w, s, t, c, inst) && inst != RESERVED_INSTANCE && w.side > 0
    requires Grouping(s.t0, maxHealth, t1, t, c1, c, pos1, w.pos, w.side, inst, b, n, 0)
    requires b in s.t0 && |s.t0[b].groupMember| == 4 && w.nextId - Listed(s.t0[b].groupMember, 4) >= s.floor
    requires b in w.entities && n in w.entities && n in Made(c)
    modifies w, w.chunks.Values, w.entities.Values
    ensures Cloning(w, s, t', c', inst)
    ensures Grouping(s.t0, maxHealth, t1, t', c1, c', pos1, w.pos, w.side, inst, b, n, 4) && n in Made(c')
    ensures w.nextId == old(w.nextId) - Listed(s.t0[b].groupMember, 4)
    ensures forall p | p in w.chunks :: w.chunks[p] in old(w.chunks.Values) || fresh(w.chunks[p])
    ensures forall r | r in w.entities :: w.entities[r] in old(w.entities.Values) || fresh(w.entities[r])
  {
    hide Cloning, Grouping, Listed, Made;
    t', c' := t, c;
    ghost var members := s.t0[b].groupMember;
    ListedMore(members, 0);
    var i := 0;
    while i < 4
      invariant 0 <= i <= 4
      invariant Cloning(w, s, t', c', inst)
      invariant Grouping(s.t0, maxHealth, t1, t', c1, c', pos1, w.pos, w.side, inst, b, n, i)
      invariant b in w.entities && n in w.entities && n in Made(c')
      invariant w.nextId == old(w.nextId) - Listed(members, i)
      invariant forall p | p in w.chunks :: w.chunks[p] in old(w.chunks.Values) || fresh(w.chunks[p])
      invariant forall r | r in w.entities :: w.entities[r] in old(w.entities.Values) || fresh(w.entities[r])
    {
      TraitsAt(w, s, t', c', inst, b);
      ListedMore(members, i);
      var id := w.entities[b].groupMember[i];
      if id != 0 {
        var m := MobRef(id);
        NextMate(s.t0, maxHealth, t1, t', c1, c', pos1, w.pos, w.side, inst, b, n, i);
        TraitsAt(w, s, t', c', inst, m);
        GroupLeader(s.t0, maxHealth, t1, t', c1, c', pos1, w.pos, w.side, inst, b, n, i);
        ghost var was, tWas, cWas := w.pos, t', c';
        var f;
        f, t', c' := CopyFollower(w, s, t', c', inst, maxHealth, n, i, m);
        GroupStep(s.t0, maxHealth, t1, tWas, c1, cWas, pos1, was, w.side, inst, b, n, i, f);
        MadeGrows(cWas, m, f, n);
        TraitsAt(w, s, t', c', inst, b);
        CopyExists(w, s, t', c', inst, n);
      } else {
        GroupSkip(s.t0, maxHealth, t1, t', c1, c', pos1, w.pos, w.side, inst, b, n, i);
      }
      i := i + 1;
    }
  }

  lemma GroupLeader(t0: Traits, maxHealth: int -> int, t1: Traits, t: Traits, c1: CopyMap, c: CopyMap,
                    pos1: Placement, pos: Placement, side: int, inst: int, b: EntityRef, n: EntityRef, i: int)
    requires 0 <= i <= 4 && side > 0 && Grouping(t0, maxHealth, t1, t, c1, c, pos1, pos, side, inst, b, n, i)
    ensures n in t && |t[n].groupMember| == 4
  {
  }

  lemma CopyExists(w: World, s: Start, t: Traits, c: CopyMap, inst: int, n: EntityRef)
    requires Cloning(w, s, t, c, inst) && n in Made(c)
    ensures n in w.entities
  {
  }

  lemma ListedMore(members: seq<int>, i: int)
    requires |members| == 4 && 0 <= i < 4
    ensures Listed(members, 0) == 0
    ensures Listed(members, i + 1) == Listed(members, i) + if members[i] != 0 then 1 else 0
    ensures Listed(members, i + 1) <= Listed(members, 4)
  {
    assert Listed(members, 1) <= Listed(members, 2) <= Listed(members, 3) <= Listed(members, 4);
  }

  // ---- whole groups at a time

  // Between two turns of the outer loop: everything in `c` is a finished copy, by whole groups.
  ghost predicate Cloned(t0: Traits, maxHealth: int -> int, t: Traits, c: CopyMap, pos: Placement, side: int, inst: int,
                         sources: set<EntityRef>)
    requires side > 0
  {
    && c.Keys <= sources && sources <= t0.Keys
    && Copied(t0, maxHealth, t, c, pos, side, inst, c.Keys)
    && WholeGroups(t0, c.Keys)
  }

  lemma LeaderFits(t0: Traits, sources: set<EntityRef>, c: CopyMap, b: EntityRef)
    requires WellFormedGroups(t0, sources) && c.Keys <= sources && WholeGroups(t0, c.Keys)
    requires b in sources && b !in c && IsLeader(t0, b)
    ensures Fits(t0, b, c) && MatesUpTo(t0[b].groupMember, 4) <= sources
  {
    forall i | 0 <= i < 4 && t0[b].groupMember[i] != 0
      ensures var m := MobRef(t0[b].groupMember[i]);
              m in sources && m !in c && m != b
    {
      var m := MobRef(t0[b].groupMember[i]);
      assert Lists(t0, b, m);
      assert IsFollower(t0, m);
      assert MobRef(t0[m].groupLeader) == b;
    }
  }

  lemma {:induction false} CountMates(members: seq<int>, n: int)
    requires 0 <= n <= |members|
    requires forall i, j | 0 <= i < j < |members| && members[i] != 0 :: members[i] != members[j]
    ensures |MatesUpTo(members, n)| == Listed(members, n)
  {
    if n == 0 {
      assert MatesUpTo(members, 0) == {};
    } else {
      CountMates(members, n - 1);
      CountNext(members, n - 1);
    }
  }

  lemma CountNext(members: seq<int>, n: int)
    requires 0 <= n < |members| && forall i | 0 <= i < n && members[i] != 0 :: members[i] != members[n]
    ensures |MatesUpTo(members, n + 1)| == |MatesUpTo(members, n)| + if members[n] != 0 then 1 else 0
  {
    hide MatesUpTo;
    MatesStep(members, n);
    if members[n] != 0 {
      NotYet(members, n);
    } else {
      assert MatesUpTo(members, n) + {} == MatesUpTo(members, n);
    }
  }

  lemma NotYet(members: seq<int>, n: int)
    requires 0 <= n < |members| && members[n] != 0
    requires forall i | 0 <= i < n && members[i] != 0 :: members[i] != members[n]
    ensures MobRef(members[n]) !in MatesUpTo(members, n)
  {
  }

  lemma EnoughIds(t0: Traits, sources: set<EntityRef>, c: CopyMap, b: EntityRef, nextId0: int, nextId: int, floor: int)
    requires Fits(t0, b, c) && MatesUpTo(t0[b].groupMember, 4) <= sources && c.Keys <= sources && b in sources
        && b !in c
    requires nextId == nextId0 - |c| && nextId0 - floor >= |sources|
    ensures nextId - 1 - Listed(t0[b].groupMember, 4) >= floor
  {
    var mates := MatesUpTo(t0[b].groupMember, 4);
    CountMates(t0[b].groupMember, 4);
    assert c.Keys !! mates && b !in mates;
    var all := c.Keys + {b} + mates;
    assert |all| == |c| + 1 + |mates|;
    Smaller(all, sources);
    assert |c.Keys| == |c|;
  }

  lemma Smaller(a: set<EntityRef>, b: set<EntityRef>)
    requires a <= b
    ensures |a| <= |b|
  {
    assert b == a + (b - a);
  }

  lemma LeaderDone(t0: Traits, maxHealth: int -> int, t1: Traits, t: Traits, c1: CopyMap, c: CopyMap,
                   pos1: Placement, pos: Placement, side: int, inst: int, b: EntityRef, n: EntityRef,
                       sources: set<EntityRef>)
    requires side > 0 && Grouping(t0, maxHealth, t1, t, c1, c, pos1, pos, side, inst, b, n, 4)
    requires WellFormedGroups(t0, sources) && b in sources && IsLeader(t0, b)
    requires Cloned(t0, maxHealth, t1, c1, pos1, side, inst, sources)
    ensures var src := t0[b];
            Cloned(t0, maxHealth,
                t[n := t[n].(x := src.x, y := src.y, z := src.z, angle := src.angle, instanceID := inst)], c,
                   pos[n := PosAt(side, src.x, src.y, inst)], side, inst, sources)
  {
    var src := t0[b];
    var t' := t[n := t[n].(x := src.x, y := src.y, z := src.z, angle := src.angle, instanceID := inst)];
    var pos' := pos[n := PosAt(side, src.x, src.y, inst)];
    LeaderFits(t0, sources, c1, b);
    CopiesStay(t0, maxHealth, t1, t', c1, c, pos1, pos', side, inst, c1.Keys);
    assert b == MobRef(b.id);
    assert t'[n] == CopyTrait(t0, maxHealth, c, b, inst);
    MatesDone(t0, maxHealth, t1, t, c1, c, pos1, pos, side, inst, b, n, sources);
    GroupsWhole(t0, c1, c, b, sources);
    hide WellFormedGroups, WholeGroups, MembersCopied, CopyTrait, MatesUpTo, Fits;
  }

  // the listed followers are finished copies, wherever their leader's copy is put
  lemma MatesDone(t0: Traits, maxHealth: int -> int, t1: Traits, t: Traits, c1: CopyMap, c: CopyMap,
                  pos1: Placement, pos: Placement, side: int, inst: int, b: EntityRef, n: EntityRef,
                      sources: set<EntityRef>)
    requires side > 0 && Grouping(t0, maxHealth, t1, t, c1, c, pos1, pos, side, inst, b, n, 4)
    requires WellFormedGroups(t0, sources) && b in sources && IsLeader(t0, b)
    ensures forall m | m in MatesUpTo(t0[b].groupMember, 4) ::
              && m in t0 && m in c && |t0[m].groupMember| == 4 && m.kind.Mob? && c[m].kind.Mob? && c[m] != n
              && c[m] in t && t[c[m]] == CopyTrait(t0, maxHealth, c, m, inst)
              && c[m] in pos && pos[c[m]] == PosAt(side, t0[m].x, t0[m].y, inst)
  {
    forall m | m in MatesUpTo(t0[b].groupMember, 4)
      ensures m in t0 && IsFollower(t0, m) && MobRef(t0[m].groupLeader) == b && |t0[m].groupMember| == 4
    {
      assert Lists(t0, b, m);
    }
  }

  lemma GroupsWhole(t0: Traits, c1: CopyMap, c: CopyMap, b: EntityRef, sources: set<EntityRef>)
    requires WellFormedGroups(t0, sources) && b in sources && IsLeader(t0, b) && Fits(t0, b, c1)
    requires c1.Keys <= sources && WholeGroups(t0, c1.Keys) && MatesUpTo(t0[b].groupMember, 4) <= sources
    requires c.Keys == c1.Keys + {b} + MatesUpTo(t0[b].groupMember, 4)
    ensures WholeGroups(t0, c.Keys)
  {
    forall m | m in MatesUpTo(t0[b].groupMember, 4)
      ensures IsFollower(t0, m) && MobRef(t0[m].groupLeader) == b
    {
      assert Lists(t0, b, m);
    }
    forall m | Lists(t0, b, m)
      ensures m in c
    {
      var i :| 0 <= i < 4 && t0[b].groupMember[i] == m.id;
      assert MobRef(t0[b].groupMember[i]) in MatesUpTo(t0[b].groupMember, 4);
    }
  }

  lemma LoneDone(t0: Traits, maxHealth: int -> int, t: Traits, c: CopyMap, pos: Placement, side: int, inst: int,
                 b: EntityRef, f: EntityRef, sources: set<EntityRef>)
    requires side > 0 && WellFormedGroups(t0, sources) && Cloned(t0, maxHealth, t, c, pos, side, inst, sources)
    requires b in sources && b !in c && !IsLeader(t0, b) && !IsFollower(t0, b) && f !in t && f !in pos
    requires f.kind == CopyKind(b.kind)
    ensures Cloned(t0, maxHealth, t[f := LoneTrait(t0[b], if f.kind.Mob? then maxHealth(t0[b].npcType) else 400, inst)],
                   c[b := f], pos[f := PosAt(side, t0[b].x, t0[b].y, inst)], side, inst, sources)
  {
    var t' := t[f := LoneTrait(t0[b], if f.kind.Mob? then maxHealth(t0[b].npcType) else 400, inst)];
    CopiesStay(t0, maxHealth, t, t', c, c[b := f], pos, pos[f := PosAt(side, t0[b].x, t0[b].y, inst)], side, inst,
        c.Keys);
  }

  // createInstance on a leader: its copy is entered, the followers are copied, then it is placed
  method CopyLeader(w: World, ghost s: Start, ghost t: Traits, ghost c: CopyMap, inst: int, maxHealth: int -> int,
                    b: EntityRef, ghost sources: set<EntityRef>)
    returns (ghost t': Traits, ghost c': CopyMap)
    requires Cloning(w, s, t, c, inst) && inst != RESERVED_INSTANCE && w.side > 0
    requires WellFormedGroups(s.t0, sources) && Cloned(s.t0, maxHealth, t, c, w.pos, w.side, inst, sources)
    requires b in sources && b !in c && b in s.t0 && IsLeader(s.t0, b) && b in w.entities
    requires s.nextId0 - s.floor >= |sources|
    modifies w, w.chunks.Values, w.entities.Values
    ensures Cloning(w, s, t', c', inst) && Cloned(s.t0, maxHealth, t', c', w.pos, w.side, inst, sources)
    ensures |s.t0[b].groupMember| == 4 && c'.Keys == c.Keys + {b} + MatesUpTo(s.t0[b].groupMember, 4)
    ensures forall p | p in w.chunks :: w.chunks[p] in old(w.chunks.Values) || fresh(w.chunks[p])
    ensures forall r | r in w.entities :: w.entities[r] in old(w.entities.Values) || fresh(w.entities[r])
  {
    hide Cloning, Cloned, Grouping, Listed, Made, Fits, WellFormedGroups, MatesUpTo;
    TraitsAt(w, s, t, c, inst, b);
    LeaderReady(s.t0, maxHealth, t, c, w.pos, w.side, inst, sources, b);
    IdsLeft(w, s, t, c, inst, b, sources);
    var base := w.entities[b];
    var x, y, z, angle := base.x, base.y, base.z, base.angle;
    var n;
    n, t', c' := EnterLeader(w, s, t, c, inst, maxHealth, b);
    t', c' := CopyFollowers(w, s, t, t', c, c', old(w.pos), inst, maxHealth, b, n);
    GroupEnd(s.t0, maxHealth, t, t', c, c', old(w.pos), w.pos, w.side, inst, b, n);
    LeaderDone(s.t0, maxHealth, t, t', c, c', old(w.pos), w.pos, w.side, inst, b, n, sources);
    t' := PlaceCopy(w, s, t', c', inst, n, x, y, z, angle);
  }

  // the copy of a leader, as its own leader and with nobody listed yet
  method EnterLeader(w: World, ghost s: Start, ghost t: Traits, ghost c: CopyMap, inst: int, maxHealth: int -> int,
                     b: EntityRef)
    returns (n: EntityRef, ghost t': Traits, ghost c': CopyMap)
    requires Cloning(w, s, t, c, inst) && w.side > 0 && Fits(s.t0, b, c) && w.nextId > s.floor
    requires b !in c && b in s.t0 && b in w.entities
    modifies w
    ensures Cloning(w, s, t', c', inst) && w.pos == old(w.pos) && w.nextId == old(w.nextId) - 1
    ensures Grouping(s.t0, maxHealth, t, t', c, c', old(w.pos), w.pos, w.side, inst, b, n, 0)
    ensures n in Made(c') && b in w.entities && n in w.entities && w.chunks == old(w.chunks) && w.side > 0
    ensures forall r | r in w.entities :: w.entities[r] in old(w.entities.Values) || fresh(w.entities[r])
  {
    hide Cloning, Grouping, Made, Fits;
    TraitsAt(w, s, t, c, inst, b);
    var base := w.entities[b];
    n, t', c' := MakeCopy(w, s, t, c, b, Mob, base.npcType, inst, maxHealth(base.npcType));
    MadeHas(c', b);
    t' := LinkCopy(w, s, t', c', inst, n, n.id, 0, 0);
    GroupStart(s.t0, maxHealth, t, c, w.pos, w.side, inst, b, n);
    assert t' == t[n := Trait(s.t0[b].npcType, 0, 0, 0, 0, maxHealth(s.t0[b].npcType), inst, n.id, NOBODY, 0, 0)];
  }

  lemma LeaderReady(t0: Traits, maxHealth: int -> int, t: Traits, c: CopyMap, pos: Placement, side: int, inst: int,
                    sources: set<EntityRef>, b: EntityRef)
    requires side > 0 && WellFormedGroups(t0, sources) && Cloned(t0, maxHealth, t, c, pos, side, inst, sources)
    requires b in sources && b !in c && b in t0 && IsLeader(t0, b)
    ensures Fits(t0, b, c) && |t0[b].groupMember| == 4
    ensures c.Keys <= sources && MatesUpTo(t0[b].groupMember, 4) <= sources
  {
    LeaderFits(t0, sources, c, b);
  }

  lemma IdsLeft(w: World, s: Start, t: Traits, c: CopyMap, inst: int, b: EntityRef, sources: set<EntityRef>)
    requires Cloning(w, s, t, c, inst) && WellFormedGroups(s.t0, sources) && c.Keys <= sources
    requires b in sources && b !in c && Fits(s.t0, b, c) && MatesUpTo(s.t0[b].groupMember, 4) <= sources
    requires s.nextId0 - s.floor >= |sources|
    ensures w.nextId - 1 - Listed(s.t0[b].groupMember, 4) >= s.floor
  {
    EnoughIds(s.t0, sources, c, b, s.nextId0, w.nextId, s.floor);
  }

  lemma GroupEnd(t0: Traits, maxHealth: int -> int, t1: Traits, t: Traits, c1: CopyMap, c: CopyMap,
                 pos1: Placement, pos: Placement, side: int, inst: int, b: EntityRef, n: EntityRef)
    requires side > 0 && Grouping(t0, maxHealth, t1, t, c1, c, pos1, pos, side, inst, b, n, 4)
    ensures n in t && n !in pos && n.kind.Mob? && |t0[b].groupMember| == 4
    ensures c.Keys == c1.Keys + {b} + MatesUpTo(t0[b].groupMember, 4)
  {
  }

  // Of the entities in `seen`, every NPC has been copied, except that a follower waits for its leader.
  ghost predicate Progress(t0: Traits, c: CopyMap, seen: set<EntityRef>) {
    && c.Keys <= t0.Keys
    && (forall r | r in seen && !r.kind.Player? :: r in t0 && (r in c || IsFollower(t0, r)))
    && (forall b | b in c :: b in seen || IsFollower(t0, b))
  }

  lemma SeenFollower(t0: Traits, c: CopyMap, seen: set<EntityRef>, ref: EntityRef)
    requires Progress(t0, c, seen) && ref in t0 && (ref.kind.Player? || IsFollower(t0, ref))
    ensures Progress(t0, c, seen + {ref})
  {
  }

  lemma SeenOne(t0: Traits, c: CopyMap, c': CopyMap, seen: set<EntityRef>, ref: EntityRef, sources: set<EntityRef>)
    requires Progress(t0, c, seen) && WellFormedGroups(t0, sources) && ref in sources && ref in t0
    requires c'.Keys == c.Keys + {ref} ||
             (IsLeader(t0, ref) && |t0[ref].groupMember| == 4
                 && c'.Keys == c.Keys + {ref} + MatesUpTo(t0[ref].groupMember, 4))
    ensures Progress(t0, c', seen + {ref})
  {
  }

  // a source still to be copied: it is not in `c`, so there is an id left for it
  lemma ToCopy(w: World, s: Start, t: Traits, c: CopyMap, inst: int, sources: set<EntityRef>, seen: set<EntityRef>,
      b: EntityRef)
    requires Cloning(w, s, t, c, inst) && c.Keys <= sources && b in sources && b in s.t0 && b !in seen
    requires Progress(s.t0, c, seen) && !IsFollower(s.t0, b) && s.nextId0 - s.floor >= |sources|
    ensures b !in c && w.nextId > s.floor
  {
    hide Cloning, IsFollower;
    NextIdIs(w, s, t, c, inst);
    assert b !in c;
    Smaller(c.Keys + {b}, sources);
    assert |c.Keys + {b}| == |c| + 1;
  }

  lemma NextIdIs(w: World, s: Start, t: Traits, c: CopyMap, inst: int)
    requires Cloning(w, s, t, c, inst)
    ensures w.nextId == s.nextId0 - |c|
  {
    hide Live, Extends, SameOutside, IdsFree;
  }

  lemma ClonedKeys(t0: Traits, maxHealth: int -> int, t: Traits, c: CopyMap, pos: Placement, side: int, inst: int,
                   sources: set<EntityRef>)
    requires side > 0 && Cloned(t0, maxHealth, t, c, pos, side, inst, sources)
    ensures c.Keys <= sources && sources <= t0.Keys
  {
  }

  // Between two turns of the inner loop.
  ghost predicate Midway(w: World, s: Start, t: Traits, c: CopyMap, inst: int, maxHealth: int -> int,
                         sources: set<EntityRef>, seen: set<EntityRef>)
    reads w, w.chunks.Values, w.entities.Values
  {
    && w.side > 0 && Cloning(w, s, t, c, inst) && Cloned(s.t0, maxHealth, t, c, w.pos, w.side, inst, sources)
    && Progress(s.t0, c, seen)
  }

  // the body of createInstance's inner loop
  method CopyOne(w: World, ghost s: Start, ghost t: Traits, ghost c: CopyMap, inst: int, maxHealth: int -> int,
                 ref: EntityRef, ghost sources: set<EntityRef>, ghost seen: set<EntityRef>)
    returns (ghost t': Traits, ghost c': CopyMap)
    requires Midway(w, s, t, c, inst, maxHealth, sources, seen) && inst != RESERVED_INSTANCE
    requires WellFormedGroups(s.t0, sources) && (ref in sources || ref.kind.Player?) && ref in s.t0 && ref !in seen
    requires (forall r | r in sources :: !r.kind.Player?) && s.nextId0 - s.floor >= |sources|
    modifies w, w.chunks.Values, w.entities.Values
    ensures Midway(w, s, t', c', inst, maxHealth, sources, seen + {ref})
    ensures forall p | p in w.chunks :: w.chunks[p] in old(w.chunks.Values) || fresh(w.chunks[p])
    ensures forall r | r in w.entities :: w.entities[r] in old(w.entities.Values) || fresh(w.entities[r])
  {
    hide Cloning, Cloned, Grouping, Listed, Made, Fits, WellFormedGroups, MatesUpTo, Progress;
    t', c' := t, c;
    if ref.kind.Player? {
      SeenFollower(s.t0, c, seen, ref);
      return;
    }
    TraitsAt(w, s, t, c, inst, ref);
    ClonedKeys(s.t0, maxHealth, t, c, w.pos, w.side, inst, sources);
    var base := w.entities[ref];
    if ref.kind.Mob? && base.groupLeader != 0 && base.groupLeader != ref.id {
      SeenFollower(s.t0, c, seen, ref);
      return;
    }
    ToCopy(w, s, t, c, inst, sources, seen, ref);
    if ref.kind.Mob? && base.groupLeader != 0 {
      t', c' := CopyLeader(w, s, t, c, inst, maxHealth, ref, sources);
    } else {
      var f;
      f, t', c' := CopyLone(w, s, t, c, inst, ref, CopyKind(ref.kind), maxHealth);
      LoneDone(s.t0, maxHealth, t, c, old(w.pos), w.side, inst, ref, f, sources);
    }
    SeenOne(s.t0, c, c', seen, ref, sources);
  }

  // The template's chunks hold what they held: the copies are elsewhere.
  lemma TemplateStays(t0: Traits, maxHealth: int -> int, t: Traits, c: CopyMap, es0: Entities, es: Entities,
                      pos0: Placement, pos: Placement, ext0: set<EntityRef>, ext: set<EntityRef>, side: int, inst: int,
                      sources: set<EntityRef>)
    requires side > 0 && Extends(t0, t, c, es0, es, pos0, pos, ext0, ext)
        && Cloned(t0, maxHealth, t, c, pos, side, inst, sources)
    requires Inside(pos0, inst) == {}
    ensures forall p: ChunkPos | p.inst != inst :: At(pos, p) == At(pos0, p)
    ensures pos - Inside(pos, inst) == pos0
    ensures Inside(pos, inst) == Made(c)
    ensures ext - Inside(pos, inst) == ext0
  {
    forall r | r in pos0
      ensures pos[r].inst != inst
    {
      assert r !in Inside(pos0, inst);
    }
    forall r | r in Made(c)
      ensures r in pos && pos[r].inst == inst
    {
      var b :| b in c && c[b] == r;
    }
  }

  // one chunk of the template
  method CopyChunk(w: World, ghost s: Start, ghost t: Traits, ghost c: CopyMap, inst: int, maxHealth: int -> int,
                   p: ChunkPos, ghost sources: set<EntityRef>, ghost seen: set<EntityRef>)
    returns (ghost t': Traits, ghost c': CopyMap)
    requires Midway(w, s, t, c, inst, maxHealth, sources, seen) && inst != RESERVED_INSTANCE
    requires WellFormedGroups(s.t0, sources) && p in s.chunks0 && p.inst != inst && Inside(s.pos0, inst) == {}
    requires sources == Sources(s.pos0, p.inst) && seen !! At(s.pos0, p) && s.nextId0 - s.floor >= |sources|
    modifies w, w.chunks.Values, w.entities.Values
    ensures Midway(w, s, t', c', inst, maxHealth, sources, seen + At(s.pos0, p))
    ensures forall p | p in w.chunks :: w.chunks[p] in old(w.chunks.Values) || fresh(w.chunks[p])
    ensures forall r | r in w.entities :: w.entities[r] in old(w.entities.Values) || fresh(w.entities[r])
  {
    hide *;
    t', c' := t, c;
    ChunkThere(w, s, t, c, inst, maxHealth, p, sources, seen);
    var refs := w.chunks[p].entities;
    ghost var done: set<EntityRef> := {};
    var rest := refs;
    SplitAtEnds(seen, refs, refs, {});
    while rest != {}
      invariant Split(refs, rest, done)
      invariant Midway(w, s, t', c', inst, maxHealth, sources, seen + done)
      invariant forall p | p in w.chunks :: w.chunks[p] in old(w.chunks.Values) || fresh(w.chunks[p])
      invariant forall r | r in w.entities :: w.entities[r] in old(w.entities.Values) || fresh(w.entities[r])
      decreases rest
    {
      var ref :| ref in rest;
      Picked(seen, refs, rest, done, ref);
      SourceHere(s.pos0, p, ref);
      SomeSource(w, s, t', c', inst, maxHealth, sources, seen + done, ref);
      t', c' := CopyOne(w, s, t', c', inst, maxHealth, ref, sources, seen + done);
      rest, done := rest - {ref}, done + {ref};
    }
    SplitAtEnds(seen, refs, rest, done);
  }

  ghost predicate Split(all: set<EntityRef>, rest: set<EntityRef>, done: set<EntityRef>) {
    all == done + rest && done !! rest
  }

  lemma SplitAtEnds(seen: set<EntityRef>, all: set<EntityRef>, rest: set<EntityRef>, done: set<EntityRef>)
    ensures seen + {} == seen
    ensures Split(all, all, {})
    ensures Split(all, rest, done) && rest == {} ==> done == all
  {
  }

  lemma Picked(seen: set<EntityRef>, all: set<EntityRef>, rest: set<EntityRef>, done: set<EntityRef>, ref: EntityRef)
    requires Split(all, rest, done) && ref in rest && seen !! all
    ensures ref in all && ref !in seen + done && Split(all, rest - {ref}, done + {ref})
    ensures seen + done + {ref} == seen + (done + {ref})
  {
  }

  lemma SourceHere(pos: Placement, p: ChunkPos, ref: EntityRef)
    requires ref in At(pos, p)
    ensures ref.kind.Player? || ref in Sources(pos, p.inst)
    ensures forall r | r in Sources(pos, p.inst) :: !r.kind.Player?
    ensures ref in pos
  {
  }

  lemma SomeSource(w: World, s: Start, t: Traits, c: CopyMap, inst: int, maxHealth: int -> int,
                   sources: set<EntityRef>, seen: set<EntityRef>, ref: EntityRef)
    requires Midway(w, s, t, c, inst, maxHealth, sources, seen) && ref in s.pos0
    ensures ref in s.t0
  {
    hide Live, Cloned, Progress;
  }

  lemma ChunkThere(w: World, s: Start, t: Traits, c: CopyMap, inst: int, maxHealth: int -> int, p: ChunkPos,
                   sources: set<EntityRef>, seen: set<EntityRef>)
    requires Midway(w, s, t, c, inst, maxHealth, sources, seen)
    requires p in s.chunks0 && p.inst != inst && Inside(s.pos0, inst) == {}
    ensures p in w.chunks && w.chunks[p].entities == At(s.pos0, p)
  {
    TemplateStays(s.t0, maxHealth, t, c, s.es0, w.entities, s.pos0, w.pos, s.ext0, w.ext, w.side, inst, sources);
    assert p in s.chunks0 - ChunksIn(s.chunks0.Keys, inst);
    assert p in w.chunks - ChunksIn(w.chunks.Keys, inst);
    w.ChunkAt(p);
    w.KeysAgree();
    ContentsAt(w.contents, w.tallies, w.pos, p);
  }

  // ---- the whole instance

  // What createInstance leaves of a template with well-formed groups: the sources are copied one
  // to one under fresh ids, each copy where its source is but in the new instance, followers with
  // their leaders; the links of the copies name copies only.
  ghost predicate Instance(t0: Traits, maxHealth: int -> int, t: Traits, c: CopyMap, pos: Placement, side: int,
                           inst: int,
                           sources: set<EntityRef>, nextId0: int)
    requires side > 0
  {
    && c.Keys == sources
    && Copied(t0, maxHealth, t, c, pos, side, inst, sources)
    && IdsTaken(c, nextId0, nextId0 - |sources|)
    && Inside(pos, inst) == Made(c)
  }

  lemma AllCopied(t0: Traits, c: CopyMap, sources: set<EntityRef>, seen: set<EntityRef>)
    requires Progress(t0, c, seen) && WellFormedGroups(t0, sources) && c.Keys <= sources && WholeGroups(t0, c.Keys)
    requires (forall r | r in sources :: r in seen && !r.kind.Player?)
    ensures c.Keys == sources
  {
    forall r | r in sources
      ensures r in c
    {
      if IsFollower(t0, r) {
        var leader := MobRef(t0[r].groupLeader);
        assert IsLeader(t0, leader) && Lists(t0, leader, r);
        assert leader in c;
      }
    }
  }

  /** createInstance.  It does nothing when the instance has a chunk already. */
  method CreateInstance(w: World, inst: int, maxHealth: int -> int, ghost t0: Traits, ghost floor: int)
    returns (ghost t: Traits, ghost c: CopyMap)
    requires Live(w, t0) && inst != RESERVED_INSTANCE && w.side > 0
    requires WellFormedGroups(t0, Sources(w.pos, MapNum(inst)))
    requires IdsFree(w.entities.Keys, w.nextId, floor) && w.nextId - floor >= |Sources(w.pos, MapNum(inst))|
    modifies w, w.chunks.Values, w.entities.Values
    ensures Live(w, t)
    ensures ChunksIn(old(w.chunks).Keys, inst) != {} ==>
              && t == t0 && w.pos == old(w.pos) && w.entities == old(w.entities) && w.ext == old(w.ext)
              && w.chunks == old(w.chunks) && w.nextId == old(w.nextId)
    ensures ChunksIn(old(w.chunks).Keys, inst) == {} ==>
              && Instance(t0, maxHealth, t, c, w.pos, w.side, inst, Sources(old(w.pos), MapNum(inst)), old(w.nextId))
              && Extends(t0, t, c, old(w.entities), w.entities, old(w.pos), w.pos, old(w.ext), w.ext)
              && old(w.pos) == w.pos - Inside(w.pos, inst)
              && w.nextId == old(w.nextId) - |Sources(old(w.pos), MapNum(inst))|
              && SameOutside(old(w.chunks), w.chunks, inst)
              && SameViews(old(w.caches), old(w.counts), old(w.clients), w.caches, w.counts, w.clients, old(w.pos).Keys)
    ensures Sources(old(w.pos), MapNum(inst)) != {} ==> ChunksIn(w.chunks.Keys, inst) != {}
    ensures forall p | p in w.chunks :: w.chunks[p] in old(w.chunks.Values) || fresh(w.chunks[p])
    ensures forall r | r in w.entities :: w.entities[r] in old(w.entities.Values) || fresh(w.entities[r])
  {
    hide *;
    t, c := t0, map[];
    ghost var s := Start(t0, w.entities, w.pos, w.ext, w.chunks, w.nextId, floor);
    ghost var sources := Sources(w.pos, MapNum(inst));
    CloneStart(w, s, inst, sources, maxHealth);
    var templateChunks := GetChunksInMap(w, MapNum(inst));
    var existing := GetChunksInMap(w, inst);
    if |existing| != 0 {
      assert existing[0] in existing;
      return;
    }
    assert ChunksIn(w.chunks.Keys, inst) == {} by { NoneListed(existing, ChunksIn(w.chunks.Keys, inst)); }
    EmptyBefore(w, t, inst);
    ViewsNow(w, t);
    ghost var seen: set<EntityRef> := {};
    var k := 0;
    while k < |templateChunks|
      invariant 0 <= k <= |templateChunks|
      invariant Midway(w, s, t, c, inst, maxHealth, sources, seen) && seen == InChunks(s.pos0, templateChunks[..k])
      invariant forall p | p in w.chunks :: w.chunks[p] in old(w.chunks.Values) || fresh(w.chunks[p])
      invariant forall r | r in w.entities :: w.entities[r] in old(w.entities.Values) || fresh(w.entities[r])
    {
      var p := templateChunks[k];
      assert p in templateChunks;
      assert templateChunks[..k + 1] == templateChunks[..k] + [p];
      InTemplate(s.chunks0, inst, p);
      OneMoreCoord(s.pos0, templateChunks[..k], p);
      NewChunkHere(s.pos0, templateChunks[..k], p);
      t, c := CopyChunk(w, s, t, c, inst, maxHealth, p, sources, seen);
      seen := seen + At(s.pos0, p);
      k := k + 1;
    }
    assert templateChunks[..k] == templateChunks;
    CloneEnd(w, s, t, c, inst, maxHealth, sources, templateChunks, seen);
    IdsSpent(w, s, t, c, inst, maxHealth, sources, seen);
    ViewsNow(w, t);
    Elsewhere(w.chunks, w.pos, w.ext, w.caches, w.counts, w.clients, old(w.caches), old(w.counts), old(w.clients),
        inst);
    SameBack(old(w.caches), old(w.counts), old(w.clients), w.caches, w.counts, w.clients, old(w.pos).Keys);
  }

  function InChunks(pos: Placement, coords: seq<ChunkPos>): set<EntityRef> {
    set r | r in pos && pos[r] in coords
  }

  lemma OneMoreCoord(pos: Placement, coords: seq<ChunkPos>, p: ChunkPos)
    ensures InChunks(pos, coords + [p]) == InChunks(pos, coords) + At(pos, p)
  {
  }

  lemma Everyone(pos: Placement, chunks: set<ChunkPos>, coords: seq<ChunkPos>, inst: int)
    requires forall r | r in pos :: pos[r] in chunks
    requires forall p :: p in coords <==> p in ChunksIn(chunks, inst)
    ensures InChunks(pos, coords) == Inside(pos, inst)
  {
  }

  lemma NoneListed(coords: seq<ChunkPos>, s: set<ChunkPos>)
    requires |coords| == 0 && forall p :: p in coords <==> p in s
    ensures s == {}
  {
  }

  lemma CloneStart(w: World, s: Start, inst: int, sources: set<EntityRef>, maxHealth: int -> int)
    requires Live(w, s.t0) && w.side > 0 && IdsFree(w.entities.Keys, w.nextId, s.floor)
    requires s == Start(s.t0, w.entities, w.pos, w.ext, w.chunks, w.nextId, s.floor)
    requires WellFormedGroups(s.t0, sources)
    ensures Midway(w, s, s.t0, map[], inst, maxHealth, sources, {}) && InChunks(w.pos, []) == {}
  {
    hide Extends, Live, IdsTaken, IdsFree, SameOutside, Cloned, WellFormedGroups, Progress, InChunks;
    TraitKeys(w, s.t0);
    NothingExtends(s.t0, w.entities, w.pos, w.ext);
    SameOutsideSelf(w.chunks, inst);
    NothingCloned(s.t0, maxHealth, w.pos, w.side, inst, sources);
  }

  lemma NothingExtends(t: Traits, es: Entities, pos: Placement, ext: set<EntityRef>)
    requires t.Keys == es.Keys && pos.Keys <= es.Keys && ext <= es.Keys
    ensures Extends(t, t, map[], es, es, pos, pos, ext, ext)
    ensures Progress(t, map[], {}) && InChunks(pos, []) == {}
    ensures forall n :: IdsTaken(map[], n, n)
  {
  }

  lemma NothingCloned(t0: Traits, maxHealth: int -> int, pos: Placement, side: int, inst: int, sources: set<EntityRef>)
    requires side > 0 && WellFormedGroups(t0, sources)
    ensures Cloned(t0, maxHealth, t0, map[], pos, side, inst, sources)
  {
  }

  lemma TraitKeys(w: World, t: Traits)
    requires Live(w, t)
    ensures t.Keys == w.entities.Keys && w.pos.Keys <= w.entities.Keys && w.ext <= w.entities.Keys
  {
  }

  lemma SameOutsideSelf(chunks: ChunkMap, inst: int)
    ensures SameOutside(chunks, chunks, inst)
  {
  }

  lemma EmptyBefore(w: World, t: Traits, inst: int)
    requires Live(w, t) && ChunksIn(w.chunks.Keys, inst) == {}
    ensures Inside(w.pos, inst) == {}
    ensures forall r | r in w.pos :: w.pos[r] in w.chunks.Keys
  {
    hide World.Valid;
    PlacedInChunks(w);
    forall r | r in w.pos
      ensures w.pos[r].inst != inst
    {
      assert w.pos[r] !in ChunksIn(w.chunks.Keys, inst);
    }
  }

  lemma ViewsNow(w: World, t: Traits)
    requires Live(w, t)
    ensures ViewsHold(w.chunks, w.pos, w.ext, w.caches, w.counts, w.clients)
  {
  }

  lemma InTemplate(chunks: ChunkMap, inst: int, p: ChunkPos)
    requires p in ChunksIn(chunks.Keys, MapNum(inst)) && ChunksIn(chunks.Keys, inst) == {}
    ensures p in chunks && p.inst == MapNum(inst) && p.inst != inst
  {
  }

  lemma NewChunkHere(pos: Placement, coords: seq<ChunkPos>, p: ChunkPos)
    requires p !in coords
    ensures InChunks(pos, coords) !! At(pos, p)
  {
  }

  lemma CloneEnd(w: World, s: Start, t: Traits, c: CopyMap, inst: int, maxHealth: int -> int, sources: set<EntityRef>,
                 coords: seq<ChunkPos>, seen: set<EntityRef>)
    requires w.side > 0 && Midway(w, s, t, c, inst, maxHealth, sources, seen)
    requires seen == InChunks(s.pos0, coords) && sources == Sources(s.pos0, MapNum(inst))
    requires Inside(s.pos0, inst) == {} && ChunksIn(s.chunks0.Keys, inst) == {} && WellFormedGroups(s.t0, sources)
    requires forall r | r in s.pos0 :: s.pos0[r] in s.chunks0.Keys
    requires forall p :: p in coords <==> p in ChunksIn(s.chunks0.Keys, MapNum(inst))
    ensures Instance(s.t0, maxHealth, t, c, w.pos, w.side, inst, sources, s.nextId0)
    ensures Live(w, t) && SameOutside(s.chunks0, w.chunks, inst)
    ensures Extends(s.t0, t, c, s.es0, w.entities, s.pos0, w.pos, s.ext0, w.ext)
    ensures w.pos - Inside(w.pos, inst) == s.pos0 && w.ext - Inside(w.pos, inst) == s.ext0
    ensures w.chunks - ChunksIn(w.chunks.Keys, inst) == s.chunks0
    ensures sources != {} ==> ChunksIn(w.chunks.Keys, inst) != {}
  {
    hide World.Valid, Extends, WellFormedGroups, Copied, WholeGroups, IsFollower, AtRest, TraitsMatch, Live, Progress;
    AllSources(s.pos0, s.chunks0.Keys, coords, inst);
    TemplateStays(s.t0, maxHealth, t, c, s.es0, w.entities, s.pos0, w.pos, s.ext0, w.ext, w.side, inst, sources);
    Everyone(s.pos0, s.chunks0.Keys, coords, MapNum(inst));
    AllCopied(s.t0, c, sources, seen);
    assert |c| == |c.Keys|;
    assert s.chunks0 - {} == s.chunks0;
    if sources != {} {
      var b :| b in sources;
      MadeHas(c, b);
      SomeChunk(w, t, inst, c[b]);
    }
  }

  lemma IdsSpent(w: World, s: Start, t: Traits, c: CopyMap, inst: int, maxHealth: int -> int,
                 sources: set<EntityRef>, seen: set<EntityRef>)
    requires Midway(w, s, t, c, inst, maxHealth, sources, seen)
    requires Instance(s.t0, maxHealth, t, c, w.pos, w.side, inst, sources, s.nextId0)
    ensures w.nextId == s.nextId0 - |sources|
  {
    hide Cloning, Cloned, Progress, Copied, IdsTaken, Inside;
    NextIdIs(w, s, t, c, inst);
    assert |c| == |c.Keys|;
  }

  lemma AllSources(pos: Placement, chunks: set<ChunkPos>, coords: seq<ChunkPos>, inst: int)
    requires forall r | r in pos :: pos[r] in chunks
    requires forall p :: p in coords <==> p in ChunksIn(chunks, MapNum(inst))
    ensures forall r | r in Sources(pos, MapNum(inst)) :: r in InChunks(pos, coords) && !r.kind.Player?
  {
  }

  lemma SomeChunk(w: World, t: Traits, inst: int, r: EntityRef)
    requires Live(w, t) && r in Inside(w.pos, inst)
    ensures ChunksIn(w.chunks.Keys, inst) != {}
  {
    hide World.Valid;
    PlacedInChunks(w);
    assert w.pos[r] in ChunksIn(w.chunks.Keys, inst);
  }

  lemma SameBack(caches: Caches, counts: Counts, clients: Clients, caches': Caches, counts': Counts, clients': Clients,
                 refs: set<EntityRef>)
    requires SameViews(caches', counts', clients', caches, counts, clients, refs)
    ensures SameViews(caches, counts, clients, caches', counts', clients', refs)
  {
  }

  /** Each copy is of its source's type, stands where its source does, but in the new instance, has the hit
      points of a new NPC, and the links of its source translated to the copies. */
  lemma CopyIs(t0: Traits, maxHealth: int -> int, t: Traits, c: CopyMap, pos: Placement, side: int, inst: int,
               sources: set<EntityRef>, nextId0: int, b: EntityRef)
    requires side > 0 && Instance(t0, maxHealth, t, c, pos, side, inst, sources, nextId0) && b in sources
    requires WellFormedGroups(t0, sources)
    ensures b in t0 && c[b] in t && c[b] in pos && pos[c[b]] == PosAt(side, t0[b].x, t0[b].y, inst)
    ensures var s, k := t0[b], t[c[b]];
            && k.npcType == s.npcType && k.x == s.x && k.y == s.y && k.z == s.z && k.angle == s.angle
            && k.instanceID == inst && |k.groupMember| == 4
            && if b.kind.Mob? then c[b].kind.Mob? && k.hp == maxHealth(s.npcType)
               else c[b].kind.SimpleNpc? && k.hp == 400
    ensures var s, k := t0[b], t[c[b]];
            if !b.kind.Mob? || s.groupLeader == 0
            then k.groupLeader == 0 && k.groupMember == [0, 0, 0, 0] && k.offsetX == k.offsetY == 0
            else if s.groupLeader != b.id
            then && MobRef(s.groupLeader) in c && k.groupLeader == c[MobRef(s.groupLeader)].id
                 && k.offsetX == s.offsetX && k.offsetY == s.offsetY && k.groupMember == [0, 0, 0, 0]
            else && k.groupLeader == c[b].id && |s.groupMember| == 4
                 && forall i | 0 <= i < 4 :: if s.groupMember[i] == 0 then k.groupMember[i] == 0
                      else MobRef(s.groupMember[i]) in c && k.groupMember[i] == c[MobRef(s.groupMember[i])].id
  {
    var s := t0[b];
    if IsLeader(t0, b) {
      assert b == MobRef(b.id);
      forall i | 0 <= i < 4 && s.groupMember[i] != 0
        ensures MobRef(s.groupMember[i]) in c
      {
        assert Lists(t0, b, MobRef(s.groupMember[i]));
      }
    }
  }

  // the copy of a grouped mob has the id that the links of its group name
  lemma CopyOf(t0: Traits, maxHealth: int -> int, t: Traits, c: CopyMap, pos: Placement, side: int, inst: int,
               sources: set<EntityRef>, nextId0: int, b: EntityRef)
    requires side > 0 && Instance(t0, maxHealth, t, c, pos, side, inst, sources, nextId0) && nextId0 - |sources| >= 0
    requires b in sources && b.kind.Mob?
    ensures c[b] in t && t[c[b]] == CopyTrait(t0, maxHealth, c, b, inst) && c[b] in Made(c) && c[b].id > 0
    ensures c[b] == MobRef(c[b].id) && (b.id != 0 ==> IdOf(c, b.id) == c[b].id)
  {
    MadeHas(c, b);
    assert b == MobRef(b.id);
  }

  /** The copies are grouped among themselves as their sources are: every link of a copied leader
      or follower names a copy, so createInstance could be run on the copy in turn. */
  lemma CopiesGrouped(t0: Traits, maxHealth: int -> int, t: Traits, c: CopyMap, pos: Placement, side: int, inst: int,
                      sources: set<EntityRef>, nextId0: int)
    requires side > 0 && Instance(t0, maxHealth, t, c, pos, side, inst, sources, nextId0) && nextId0 - |sources| >= 0
    requires WellFormedGroups(t0, sources)
    ensures WellFormedGroups(t, Made(c))
  {
    hide Instance, IdOf, MembersCopied, Lists, WellFormedGroups;
    assert Made(c) <= t.Keys by { CopiesAreThere(t0, maxHealth, t, c, pos, side, inst, sources, nextId0); }
    forall r | r in Made(c) && r.kind.Mob?
      ensures |t[r].groupMember| == 4
      ensures IsFollower(t, r) ==>
                && MobRef(t[r].groupLeader) in Made(c)
                && IsLeader(t, MobRef(t[r].groupLeader))
                && Lists(t, MobRef(t[r].groupLeader), r)
      ensures forall m | IsLeader(t, r) && Lists(t, r, m) :: m in Made(c) && m != r && t[m].groupLeader == r.id
      ensures forall i, j | IsLeader(t, r) && 0 <= i < j < 4 && t[r].groupMember[i] != 0 ::
          t[r].groupMember[i] != t[r].groupMember[j]
    {
      var b := SourceOf(t0, maxHealth, t, c, pos, side, inst, sources, nextId0, r);
      CopyOf(t0, maxHealth, t, c, pos, side, inst, sources, nextId0, b);
      CopiedGroup(t0, maxHealth, t, c, pos, side, inst, sources, nextId0, b);
    }
    GroupsAssemble(t, Made(c));
  }

  lemma CopiesAreThere(t0: Traits, maxHealth: int -> int, t: Traits, c: CopyMap, pos: Placement, side: int, inst: int,
                       sources: set<EntityRef>, nextId0: int)
    requires side > 0 && Instance(t0, maxHealth, t, c, pos, side, inst, sources, nextId0)
    ensures Made(c) <= t.Keys
  {
  }

  lemma SourceOf(t0: Traits, maxHealth: int -> int, t: Traits, c: CopyMap, pos: Placement, side: int, inst: int,
                 sources: set<EntityRef>, nextId0: int, r: EntityRef) returns (b: EntityRef)
    requires side > 0 && Instance(t0, maxHealth, t, c, pos, side, inst, sources, nextId0) && r in Made(c) && r.kind.Mob?
    ensures b in c && b in sources && c[b] == r && b.kind.Mob?
  {
    b :| b in c && c[b] == r;
  }

  lemma GroupsAssemble(t: Traits, s: set<EntityRef>)
    requires s <= t.Keys
    requires forall r | r in s && r.kind.Mob? ::
               && |t[r].groupMember| == 4
               && (IsFollower(t, r) ==>
                     && MobRef(t[r].groupLeader) in s
                     && IsLeader(t, MobRef(t[r].groupLeader))
                     && Lists(t, MobRef(t[r].groupLeader), r))
               && (forall m | IsLeader(t, r) && Lists(t, r, m) :: m in s && m != r && t[m].groupLeader == r.id)
               && (forall i, j | IsLeader(t, r) && 0 <= i < j < 4 && t[r].groupMember[i] != 0 ::
                     t[r].groupMember[i] != t[r].groupMember[j])
    ensures WellFormedGroups(t, s)
  {
  }

  lemma CopiedGroup(t0: Traits, maxHealth: int -> int, t: Traits, c: CopyMap, pos: Placement, side: int, inst: int,
                    sources: set<EntityRef>, nextId0: int, b: EntityRef)
    requires side > 0 && Instance(t0, maxHealth, t, c, pos, side, inst, sources, nextId0) && nextId0 - |sources| >= 0
    requires WellFormedGroups(t0, sources) && b in sources && b.kind.Mob?
    ensures c[b] in t && |t[c[b]].groupMember| == 4
    ensures IsFollower(t, c[b]) ==>
              var leader := MobRef(t[c[b]].groupLeader);
              leader in Made(c) && leader in t && IsLeader(t, leader) && Lists(t, leader, c[b])
    ensures forall m | IsLeader(t, c[b]) && Lists(t, c[b], m) ::
              m in Made(c) && m in t && m != c[b] && t[m].groupLeader == c[b].id
    ensures forall i, j | IsLeader(t, c[b]) && 0 <= i < j < 4 && t[c[b]].groupMember[i] != 0 ::
              t[c[b]].groupMember[i] != t[c[b]].groupMember[j]
  {
    CopyOf(t0, maxHealth, t, c, pos, side, inst, sources, nextId0, b);
    if IsFollower(t0, b) {
      var leader := MobRef(t0[b].groupLeader);
      CopyOf(t0, maxHealth, t, c, pos, side, inst, sources, nextId0, leader);
      assert Lists(t0, leader, b);
      var i :| 0 <= i < 4 && t0[leader].groupMember[i] == b.id;
      assert t[c[leader]].groupMember[i] == c[b].id;
    } else if IsLeader(t0, b) {
      forall i | 0 <= i < 4 && t0[b].groupMember[i] != 0
        ensures var m := MobRef(t0[b].groupMember[i]);
                && m in c && c[m] in Made(c) && c[m] in t && c[m] != c[b] && t[c[m]].groupLeader == c[b].id
                && c[m] == MobRef(t[c[b]].groupMember[i]) && t[c[b]].groupMember[i] != 0
      {
        var m := MobRef(t0[b].groupMember[i]);
        assert Lists(t0, b, m);
        CopyOf(t0, maxHealth, t, c, pos, side, inst, sources, nextId0, m);
      }
      assert forall i | 0 <= i < 4 && t0[b].groupMember[i] == 0 :: t[c[b]].groupMember[i] == 0;
      forall i, j | 0 <= i < j < 4 && t[c[b]].groupMember[i] != 0
        ensures t[c[b]].groupMember[i] != t[c[b]].groupMember[j]
      {
        if t0[b].groupMember[j] != 0 {
          assert MobRef(t0[b].groupMember[i]) != MobRef(t0[b].groupMember[j]);
        }
      }
    }
  }
}

