/** Whole runs of the shard: whatever requests arrive, every cache, count and client agrees with
    the plain definitions. */
module Shard {
  import opened ChunkViews
  import opened ChunkLedger
  import opened Chunking
  import opened NPCManager
  import opened Instances
  import opened PlayerManager
  import opened Eggs
  import opened InstanceCopies

  datatype Request =
    | Spawn(kind: EntityKind, npcType: int, hp: int, summoned: bool, x: int, y: int, z: int, inst: int, angle: int)
    | Follow(npc: EntityRef, leader: int, offsetX: int, offsetY: int)
    | Enroll(npc: EntityRef, i: int, member: int)
    | Join(sock: int)
    | MovePlayer(sock: int, x: int, y: int, z: int, inst: int, angle: int)
    | MoveNpc(npc: EntityRef, x: int, y: int, z: int, inst: int, angle: int)
    | Warp(sock: int, x: int, y: int, z: int, inst: int)
    | Send(sock: int, x: int, y: int, z: int, inst: int)
    | Leave(sock: int)
    | Destroy(npc: EntityRef)
    | Pickup(egg: EntityRef, regen: int, now: int)
    | Grow(now: int)
    | Clone(inst: int)
    | TearDown(inst: int)

  // What the index, the entities and the clients should hold, said of the objects themselves.
  ghost predicate Exact(w: World)
    reads w, w.chunks.Values, w.entities.Values
  {
    && (forall r | r in w.pos :: r in w.entities && w.pos[r] in w.chunks)
    && (forall p | p in w.chunks ::
          && w.chunks[p].entities == At(w.pos, p) && At(w.pos, p) != {}
          && w.chunks[p].nplayers == |Players(At(w.pos, p))|)
    && (forall r | r in w.entities ::
          && w.entities[r].chunkPos == (if r in w.pos then w.pos[r] else INVALID_CHUNK)
          && (r in w.pos ==> w.entities[r].viewableChunks == ViewOf(w.chunks, w.pos[r]))
          && (r.kind.Mob? ==> w.entities[r].playersInView == PlayersNear(w.pos, r))
          && (r.kind.Player? ==> w.entities[r].known == Visible(w.pos, w.ext, r))
          && (r in w.ext <==> w.entities[r].IsExtant()))
  }

  lemma ValidIsExact(w: World)
    requires w.Valid()
    ensures Exact(w)
  {
    w.KeysAgree();
  }

  // ---- coordinates

  // the chunk of an entity's coordinates
  function Spot(e: Entity, side: int): ChunkPos
    requires side > 0
    reads e`x, e`y, e`instanceID
  {
    PosAt(side, e.x, e.y, e.instanceID)
  }

  // Every entity in the index is in the chunk of its coordinates; a player who is not yet in it has none.
  ghost predicate Located(w: World)
    reads w`pos, w`entities, w.entities.Values`x, w.entities.Values`y, w.entities.Values`instanceID
  {
    && w.side > 0
    && (forall r | r in w.pos :: r in w.entities && w.pos[r] == Spot(w.entities[r], w.side))
    && (forall r | r in w.entities && r !in w.pos && r.kind.Player? :: w.entities[r].instanceID == 0)
  }

  /** A client knows of every extant entity of its map within a chunk side of its player on both axes, and
      of nothing three sides away or in another map. */
  ghost predicate Sighted(w: World)
    reads w, w.entities.Values
  {
    forall p, q | p in w.pos && q in w.pos && p in w.entities && q in w.entities && p.kind.Player? && p != q ::
      && (q in w.ext && Within(w.entities[p], w.entities[q], w.side) ==> q in w.entities[p].known)
      && (q in w.entities[p].known ==> q in w.ext && Within(w.entities[p], w.entities[q], 3 * w.side - 1))
  }

  predicate Within(a: Entity, b: Entity, limit: int)
    reads a`x, a`y, a`instanceID, b`x, b`y, b`instanceID
  {
    a.instanceID == b.instanceID && -limit <= a.x - b.x <= limit && -limit <= a.y - b.y <= limit
  }

  // The players in the index this close to an entity.
  ghost function Close(w: World, r: EntityRef, limit: int): set<EntityRef>
    requires r in w.entities
    reads w`pos, w`entities, w.entities.Values`x, w.entities.Values`y, w.entities.Values`instanceID
  {
    set q | q in w.pos && q in w.entities && q.kind.Player? && Within(w.entities[r], w.entities[q], limit)
  }

  /** A mob counts at least the players of its map within a chunk side, and at most those less than three
      sides away. */
  ghost predicate Counted(w: World)
    reads w, w.entities.Values
  {
    forall m | m in w.pos && m in w.entities && m.kind.Mob? ::
      |Close(w, m, w.side)| <= w.entities[m].playersInView <= |Close(w, m, 3 * w.side - 1)|
  }

  lemma CountFollows(w: World)
    requires Exact(w) && Located(w)
    ensures Counted(w)
  {
    hide PosAt, Near, Around, Within;
    forall m | m in w.pos && m in w.entities && m.kind.Mob?
      ensures |Close(w, m, w.side)| <= w.entities[m].playersInView <= |Close(w, m, 3 * w.side - 1)|
    {
      var counted := Players(Around(w.pos, w.pos[m]));
      forall q | q in w.pos && q.kind.Player?
        ensures Within(w.entities[m], w.entities[q], w.side) ==> q in counted
        ensures q in counted ==> Within(w.entities[m], w.entities[q], 3 * w.side - 1)
      {
        SightOf(w.pos, {q}, w.side, m, q, w.entities[m], w.entities[q]);
      }
      Smaller(Close(w, m, w.side), counted);
      Smaller(counted, Close(w, m, 3 * w.side - 1));
    }
  }

  lemma SightFollows(w: World)
    requires Exact(w) && Located(w)
    ensures Sighted(w)
  {
    hide PosAt, Near, Visible, Within;
    forall p, q | p in w.pos && q in w.pos && p in w.entities && q in w.entities && p.kind.Player? && p != q
      ensures q in w.ext && Within(w.entities[p], w.entities[q], w.side) ==> q in w.entities[p].known
      ensures q in w.entities[p].known ==> q in w.ext && Within(w.entities[p], w.entities[q], 3 * w.side - 1)
    {
      SightOf(w.pos, w.ext, w.side, p, q, w.entities[p], w.entities[q]);
    }
  }

  lemma SightOf(pos: Placement, ext: set<EntityRef>, side: int, p: EntityRef, q: EntityRef, plr: Entity, other: Entity)
    requires side > 0 && p in pos && q in pos && p != q && pos[p] == Spot(plr, side) && pos[q] == Spot(other, side)
    ensures q in ext && Within(plr, other, side) ==> q in Visible(pos, ext, p)
    ensures q in Visible(pos, ext, p) ==> q in ext && Within(plr, other, 3 * side - 1)
  {
    hide PosAt, Near;
    if Within(plr, other, side) {
      CloseIsNear(side, other.x, other.y, plr.x, plr.y, plr.instanceID);
    }
    if Near(pos[q], pos[p]) {
      NearIsClose(side, other.x, other.y, other.instanceID, plr.x, plr.y, plr.instanceID);
    }
  }

  ghost predicate Steady(w: World)
    reads w, w.chunks.Values, w.entities.Values
  {
    w.Valid() && AtRest(w.pos) && Located(w)
  }

  // ---- what requests do

  // What a shard comes to, without its caches: who exists, where, who is extant, and the next id.
  datatype Scene = Scene(refs: set<EntityRef>, pos: Placement, ext: set<EntityRef>, nextId: int)

  ghost function SceneOf(w: World): Scene
    reads w`entities, w`pos, w`ext, w`nextId
  {
    Scene(w.entities.Keys, w.pos, w.ext, w.nextId)
  }

  function PlayerRef(sock: int): EntityRef {
    EntityRef(Player, sock)
  }

  // These entities are gone.
  function Less(s: Scene, gone: set<EntityRef>): Scene {
    s.(refs := s.refs - gone, pos := s.pos - gone, ext := s.ext - gone)
  }

  // What goes with the last player of a private instance.
  function Abandoned(pos: Placement, inst: int): set<EntityRef> {
    if PlayerId(inst) != 0 && Players(Inside(pos, inst)) == {} then Inside(pos, inst) else {}
  }

  // The instance of a player; one who is nowhere yet is taken to be in the overworld.
  function InstanceOf(pos: Placement, ref: EntityRef): int {
    if ref in pos then pos[ref].inst else 0
  }

  /** Request `r` takes the scene `s` to `s'`. */
  ghost predicate Does(s: Scene, r: Request, s': Scene, side: int)
    requires side > 0
  {
    match r
    case Spawn(kind, _, hp, _, x, y, _, inst, _) => Spawns(s, EntityRef(kind, s.nextId), hp, x, y, inst, s', side)
    case Join(sock) => Joins(s, PlayerRef(sock), s')
    case MovePlayer(sock, x, y, _, inst, _) => Moves(s, PlayerRef(sock), x, y, inst, s', side)
    case MoveNpc(npc, x, y, _, inst, _) => if npc.kind.Player? then s' == s else Moves(s, npc, x, y, inst, s', side)
    case Warp(sock, x, y, _, inst) => Moves(s, PlayerRef(sock), x, y, inst, s', side)
    case Send(sock, x, y, _, inst) => Sends(s, PlayerRef(sock), x, y, inst, s', side)
    case Leave(sock) => Leaves(s, PlayerRef(sock), s')
    case Destroy(npc) => Destroys(s, npc, s')
    case Pickup(egg, _, _) => PicksUp(s, egg, s')
    case Grow(_) => Grows(s, s')
    case Follow(_, _, _, _) => s' == s
    case Enroll(_, _, _) => s' == s
    case Clone(inst) => s' == s || Filled(s, inst, s')
    case TearDown(inst) => s' == Less(s, Abandoned(s.pos, inst))
  }

  predicate Spawns(s: Scene, ref: EntityRef, hp: int, x: int, y: int, inst: int, s': Scene, side: int)
    requires side > 0
  {
    var s1 := s.(nextId := s.nextId - 1);
    if ref.kind.Player? || ref in s.refs || inst == RESERVED_INSTANCE then s' == s1
    else s' == s1.(refs := s.refs + {ref}, pos := s.pos[ref := PosAt(side, x, y, inst)],
                   ext := s.ext + if (ref.kind.CombatNpc? || ref.kind.Mob?) && hp <= 0 then {} else {ref})
  }

  predicate Joins(s: Scene, ref: EntityRef, s': Scene) {
    s' == if ref in s.refs then s else s.(refs := s.refs + {ref}, ext := s.ext + {ref})
  }

  predicate Moves(s: Scene, ref: EntityRef, x: int, y: int, inst: int, s': Scene, side: int)
    requires side > 0
  {
    s' == if ref !in s.refs || inst == RESERVED_INSTANCE then s
          else s.(pos := s.pos[ref := PosAt(side, x, y, inst)])
  }

  predicate Sends(s: Scene, ref: EntityRef, x: int, y: int, inst: int, s': Scene, side: int)
    requires side > 0
  {
    if ref !in s.refs || inst == RESERVED_INSTANCE then s' == s
    else
      var moved := s.(pos := s.pos[ref := PosAt(side, x, y, inst)]);
      s' == Less(moved, Abandoned(moved.pos, InstanceOf(s.pos, ref)))
  }

  predicate Leaves(s: Scene, ref: EntityRef, s': Scene) {
    if ref !in s.refs then s' == s
    else var left := Less(s, {ref}); s' == Less(left, Abandoned(left.pos, InstanceOf(s.pos, ref)))
  }

  predicate Destroys(s: Scene, npc: EntityRef, s': Scene) {
    s' == if npc.kind.Player? || npc !in s.pos then s else Less(s, {npc})
  }

  // The egg is hidden, or destroyed if it was summoned.
  predicate PicksUp(s: Scene, egg: EntityRef, s': Scene) {
    if egg !in s.ext || !egg.kind.Egg? then s' == s
    else s' == s.(ext := s.ext - {egg}) || s' == if egg in s.pos then Less(s, {egg}) else s
  }

  ghost predicate Grows(s: Scene, s': Scene) {
    exists eggs :: s' == s.(ext := s.ext + eggs) && forall e | e in eggs :: e.kind.Egg? && e in s.refs
  }

  // An empty instance was filled with one new entity for each NPC of its template.
  ghost predicate Filled(s: Scene, inst: int, s': Scene) {
    && Inside(s.pos, inst) == {} && s'.pos - Inside(s'.pos, inst) == s.pos
    && s'.refs == s.refs + Inside(s'.pos, inst) && s.refs !! Inside(s'.pos, inst)
    && s'.nextId == s.nextId - |Sources(s.pos, MapNum(inst))|
    && |Inside(s'.pos, inst)| == |Sources(s.pos, MapNum(inst))|
    && s.ext <= s'.ext <= s.ext + Inside(s'.pos, inst)
  }

  // Every object in the maps was there before or is new.
  twostate predicate Grown(w: World)
    reads w
  {
    && (forall p | p in w.chunks :: w.chunks[p] in old(w.chunks.Values) || fresh(w.chunks[p]))
    && (forall r | r in w.entities :: w.entities[r] in old(w.entities.Values) || fresh(w.entities[r]))
  }

  // summonNPC
  method SpawnAt(w: World, kind: EntityKind, npcType: int, hp: int, summoned: bool, x: int, y: int, z: int, inst: int,
                 angle: int)
    requires Steady(w)
    modifies w, w.chunks.Values, w.entities.Values
    ensures Steady(w) && Grown(w)
    ensures Spawns(old(SceneOf(w)), EntityRef(kind, old(w.nextId)), hp, x, y, inst, SceneOf(w), w.side)
  {
    hide World.Valid, PosAt, Spot, Located;
    LocatedIs(w);
    var id := w.TakeId();
    var ref := EntityRef(kind, id);
    if kind.Player? || ref in w.entities || inst == RESERVED_INSTANCE {
      return;
    }
    var e := new Entity(ref, npcType, inst, hp, summoned);
    EnterAt(w, e, x, y, z, inst, angle);
  }

  // entered into the map, then moved to its place
  method EnterAt(w: World, e: Entity, x: int, y: int, z: int, inst: int, angle: int)
    requires Steady(w) && e !in w.entities.Values && e.ref !in w.entities && !e.ref.kind.Player?
    requires e.viewableChunks == {} && e.playersInView == 0 && e.known == {} && e.chunkPos == INVALID_CHUNK
    requires inst != RESERVED_INSTANCE
    modifies w, w.chunks.Values, w.entities.Values, e
    ensures Steady(w) && w.entities == old(w.entities)[e.ref := e] && w.nextId == old(w.nextId)
    ensures w.pos == old(w.pos)[e.ref := PosAt(w.side, x, y, inst)]
    ensures w.ext == old(w.ext) + if old(e.IsExtant()) then {e.ref} else {}
    ensures forall p | p in w.chunks :: w.chunks[p] in old(w.chunks.Values) || fresh(w.chunks[p])
  {
    hide World.Valid, AtRest, PosAt, Spot;
    AddEntity(w, e);
    Named(w);
    UpdateNPCPosition(w, e.ref, x, y, z, inst, angle);
    SpotIs(w.entities[e.ref], w.side);
    forall r | r in w.pos && r != e.ref
      ensures r in w.entities && w.pos[r] == Spot(w.entities[r], w.side)
    {
      assert old(w.pos)[r] == old(Spot(w.entities[r], w.side));
    }
  }

  lemma LocatedIs(w: World)
    requires Located(w)
    ensures w.side > 0
  {
  }

  method JoinShard(w: World, sock: int)
    requires Steady(w)
    modifies w, w.entities.Values
    ensures Steady(w) && Joins(old(SceneOf(w)), PlayerRef(sock), SceneOf(w)) && Grown(w)
  {
    hide World.Valid, PosAt;
    if PlayerRef(sock) in w.entities {
      return;
    }
    var plr := new Entity(PlayerRef(sock), 0, 0, 100, false);
    AddEntity(w, plr);
  }

  method MoveThePlayer(w: World, sock: int, x: int, y: int, z: int, inst: int, angle: int)
    requires Steady(w)
    modifies w, w.chunks.Values, w.entities.Values
    ensures Steady(w) && Moves(old(SceneOf(w)), PlayerRef(sock), x, y, inst, SceneOf(w), w.side) && Grown(w)
  {
    hide World.Valid, AtRest, PosAt, Spot, Inside, Players, SameViews, Ripe;
    var ref := PlayerRef(sock);
    if ref in w.entities && inst != RESERVED_INSTANCE {
      Named(w);
      RestWithout(w.pos, ref);
      UpdatePlayerPosition(w, ref, x, y, z, inst, angle);
      SpotIs(w.entities[ref], w.side);
      forall r | r in w.pos && r != ref
        ensures r in w.entities && w.pos[r] == Spot(w.entities[r], w.side)
      {
        assert old(w.pos)[r] == old(Spot(w.entities[r], w.side));
      }
    }
  }

  method WarpThePlayer(w: World, sock: int, x: int, y: int, z: int, inst: int)
    requires Steady(w)
    modifies w, w.chunks.Values, w.entities.Values
    ensures Steady(w) && Moves(old(SceneOf(w)), PlayerRef(sock), x, y, inst, SceneOf(w), w.side) && Grown(w)
  {
    hide World.Valid, AtRest, PosAt, Spot, Inside, Players, SameViews, Ripe;
    var ref := PlayerRef(sock);
    if ref in w.entities && inst != RESERVED_INSTANCE {
      Named(w);
      UpdatePlayerPositionForWarp(w, ref, x, y, z, inst);
      SpotIs(w.entities[ref], w.side);
      forall r | r in w.pos && r != ref
        ensures r in w.entities && w.pos[r] == Spot(w.entities[r], w.side)
      {
        assert old(w.pos)[r] == old(Spot(w.entities[r], w.side));
      }
    }
  }

  method SendThePlayer(w: World, sock: int, x: int, y: int, z: int, inst: int)
    requires Steady(w)
    modifies w, w.chunks.Values, w.entities.Values
    ensures Steady(w) && Sends(old(SceneOf(w)), PlayerRef(sock), x, y, inst, SceneOf(w), w.side) && Grown(w)
  {
    hide World.Valid, AtRest, PosAt, Spot, Inside, Players, SameViews, Ripe;
    var ref := PlayerRef(sock);
    if ref in w.entities && inst != RESERVED_INSTANCE {
      Named(w);
      FromInstance(w, ref);
      ghost var plr := w.entities[ref];
      SendPlayerTo(w, ref, x, y, z, inst);
      SpotIs(plr, w.side);
      forall r | r in w.pos
        ensures r in w.entities && w.pos[r] == Spot(w.entities[r], w.side)
      {
        assert r != ref ==> old(w.pos)[r] == old(Spot(w.entities[r], w.side));
      }
    }
  }

  method LeaveShard(w: World, sock: int)
    requires Steady(w)
    modifies w, w.chunks.Values, w.entities.Values
    ensures Steady(w) && Leaves(old(SceneOf(w)), PlayerRef(sock), SceneOf(w)) && Grown(w)
  {
    hide World.Valid, AtRest, PosAt, Spot, Inside, Players, SameViews, Ripe;
    var ref := PlayerRef(sock);
    if ref in w.entities {
      FromInstance(w, ref);
      RemovePlayer(w, ref);
      forall r | r in w.pos
        ensures r in w.entities && w.pos[r] == Spot(w.entities[r], w.side)
      {
        assert old(w.pos)[r] == old(Spot(w.entities[r], w.side));
      }
    }
  }

  lemma FromInstance(w: World, ref: EntityRef)
    requires Steady(w) && ref in w.entities && ref.kind.Player?
    ensures w.entities[ref].instanceID == InstanceOf(w.pos, ref)
  {
  }

  method MoveTheNpc(w: World, npc: EntityRef, x: int, y: int, z: int, inst: int, angle: int)
    requires Steady(w)
    modifies w, w.chunks.Values, w.entities.Values
    ensures Steady(w) && (if npc.kind.Player? then SceneOf(w) == old(SceneOf(w))
                           else Moves(old(SceneOf(w)), npc, x, y, inst, SceneOf(w), w.side)) && Grown(w)
  {
    hide World.Valid, AtRest, PosAt, Spot, Inside, Players, SameViews, Ripe;
    if npc in w.entities && !npc.kind.Player? && inst != RESERVED_INSTANCE {
      Named(w);
      UpdateNPCPosition(w, npc, x, y, z, inst, angle);
      SpotIs(w.entities[npc], w.side);
      forall r | r in w.pos && r != npc
        ensures r in w.entities && w.pos[r] == Spot(w.entities[r], w.side)
      {
        assert old(w.pos)[r] == old(Spot(w.entities[r], w.side));
      }
    }
  }

  method DestroyTheNpc(w: World, npc: EntityRef)
    requires Steady(w)
    modifies w, w.chunks.Values, w.entities.Values
    ensures Steady(w) && Destroys(old(SceneOf(w)), npc, SceneOf(w)) && Grown(w)
  {
    hide World.Valid, AtRest, PosAt, Spot, Inside, Players, SameViews, Ripe;
    if !npc.kind.Player? {
      PlacedOnes(w);
      RestWithout(w.pos, npc);
      DestroyNPC(w, npc);
    }
  }

  method PickUp(w: World, egg: EntityRef, regen: int, now: int)
    requires Steady(w)
    modifies w, w.chunks.Values, w.entities.Values
    ensures Steady(w) && PicksUp(old(SceneOf(w)), egg, SceneOf(w)) && Grown(w)
  {
    hide World.Valid, AtRest, PosAt, Spot, Inside, Players, SameViews, Ripe;
    PlacedOnes(w);
    EggPickup(w, egg, regen, now);
  }

  method GrowEggs(w: World, now: int)
    requires Steady(w)
    modifies w, w.chunks.Values, w.entities.Values
    ensures Steady(w) && Grows(old(SceneOf(w)), SceneOf(w)) && Grown(w)
  {
    hide World.Valid, AtRest, PosAt, Spot, Inside, Players, SameViews, Ripe;
    ghost var eggs := set e | e in w.entities && Ripe(w.entities[e], now);
    OnlyEggs(w, now);
    EggStep(w, now);
    GrowsBy(old(SceneOf(w)), SceneOf(w), eggs);
  }

  method TearItDown(w: World, inst: int)
    requires Steady(w)
    modifies w, w.chunks.Values, w.entities.Values
    ensures Steady(w) && SceneOf(w) == Less(old(SceneOf(w)), Abandoned(old(w.pos), inst)) && Grown(w)
  {
    hide World.Valid, AtRest, PosAt, Spot, Inside, Players, SameViews, Ripe;
    NobodyLess(w);
    DestroyInstanceIfEmpty(w, inst);
  }

  // how the loaders and commands set the links of mob groups
  method Link(w: World, r: Request)
    requires Steady(w) && (r.Follow? || r.Enroll?)
    modifies w, w.chunks.Values, w.entities.Values
    ensures Steady(w) && SceneOf(w) == old(SceneOf(w)) && Grown(w)
  {
    hide World.Valid, AtRest, PosAt, Spot, Inside, Players, SameViews, Ripe;
    match r
    case Follow(npc, leader, offsetX, offsetY) =>
      if npc in w.entities {
        w.SetLeader(npc, leader, offsetX, offsetY);
      }
    case Enroll(npc, i, member) =>
      if npc in w.entities && 0 <= i < |w.entities[npc].groupMember| {
        w.SetMember(npc, i, member);
      }
  }

  lemma RestWithout(pos: Placement, ref: EntityRef)
    requires AtRest(pos)
    ensures AtRest(pos - {ref})
  {
  }

  lemma SpotIs(e: Entity, side: int)
    requires side > 0
    ensures Spot(e, side) == PosAt(side, e.x, e.y, e.instanceID)
  {
  }

  lemma PlacedOnes(w: World)
    requires Steady(w)
    ensures w.pos.Keys <= w.entities.Keys && w.ext <= w.entities.Keys
  {
    w.ExtOf(PlayerRef(0));
  }

  lemma OnlyEggs(w: World, now: int)
    requires w.Valid()
    ensures forall e | e in w.entities && Ripe(w.entities[e], now) :: e.kind.Egg?
  {
    w.ExtOf(EntityRef(Egg, 0));
  }

  lemma GrowsBy(s: Scene, s': Scene, eggs: set<EntityRef>)
    requires s' == s.(ext := s.ext + eggs) && forall e | e in eggs :: e.kind.Egg? && e in s.refs
    ensures Grows(s, s')
  {
  }

  lemma NobodyLess(w: World)
    ensures w.entities - {} == w.entities && w.pos - {} == w.pos && w.ext - {} == w.ext
  {
  }

  // ---- cloning

  // The NPCs that stand in this map.
  function TemplateNpcs(w: World, mapNum: int): set<EntityRef>
    reads w, w.entities.Values
  {
    set r | r in w.entities.Keys && !r.kind.Player? && w.entities[r].chunkPos.inst == mapNum
  }

  lemma TemplateIsSources(w: World, mapNum: int)
    requires Steady(w) && mapNum != RESERVED_INSTANCE
    ensures TemplateNpcs(w, mapNum) == Sources(w.pos, mapNum) && w.side > 0
  {
    w.KeysAgree();
  }

  // The links of the NPCs in this map name each other, as seen on the objects.
  predicate GroupsOk(w: World, npcs: set<EntityRef>)
    requires npcs <= w.entities.Keys
    reads w, w.entities.Values
  {
    forall r | r in npcs && r.kind.Mob? :: GroupOk(w, npcs, r)
  }

  predicate GroupOk(w: World, npcs: set<EntityRef>, r: EntityRef)
    requires npcs <= w.entities.Keys && r in npcs
    reads w, w.entities.Values
  {
    var e := w.entities[r];
    && |e.groupMember| == 4
    && (e.groupLeader != 0 && e.groupLeader != r.id ==>
          && MobRef(e.groupLeader) in npcs
          && w.entities[MobRef(e.groupLeader)].groupLeader == e.groupLeader
          && r.id != 0 && r.id in w.entities[MobRef(e.groupLeader)].groupMember)
    && (e.groupLeader != 0 && e.groupLeader == r.id ==>
          forall i | 0 <= i < 4 && e.groupMember[i] != 0 ::
            && e.groupMember[i] != r.id && MobRef(e.groupMember[i]) in npcs
            && w.entities[MobRef(e.groupMember[i])].groupLeader == r.id
            && forall j | i < j < 4 :: e.groupMember[i] != e.groupMember[j])
  }

  predicate IdsLeftFor(w: World, count: int)
    reads w
  {
    && 0 <= w.nextId - count
    && forall r | r in w.entities.Keys && !r.kind.Player? :: r.id <= w.nextId - count || r.id > w.nextId
  }

  /** The groups seen on the objects are in order if and only if they are well formed. */
  lemma GroupsWellFormed(w: World, t: Traits, npcs: set<EntityRef>)
    requires npcs <= w.entities.Keys && TraitsMatch(w.entities, t)
    ensures GroupsOk(w, npcs) <==> WellFormedGroups(t, npcs)
  {
    forall r | r in w.entities && r.kind.Mob?
      ensures t[r].groupLeader == w.entities[r].groupLeader && t[r].groupMember == w.entities[r].groupMember
      ensures r == MobRef(r.id)
    {
    }
    if GroupsOk(w, npcs) {
      forall r | r in npcs && r.kind.Mob?
        ensures GroupOk(w, npcs, r)
      {
      }
    }
    if WellFormedGroups(t, npcs) {
      forall r | r in npcs && r.kind.Mob?
        ensures GroupOk(w, npcs, r)
      {
        InOrder(w, t, npcs, r);
      }
    }
  }

  lemma InOrder(w: World, t: Traits, npcs: set<EntityRef>, r: EntityRef)
    requires npcs <= w.entities.Keys && TraitsMatch(w.entities, t) && WellFormedGroups(t, npcs)
    requires r in npcs && r.kind.Mob?
    ensures GroupOk(w, npcs, r)
  {
    assert r == MobRef(r.id);
    assert IsFollower(t, r) ==> Lists(t, MobRef(t[r].groupLeader), r);
    if IsLeader(t, r) {
      forall i | 0 <= i < 4 && t[r].groupMember[i] != 0
        ensures Lists(t, r, MobRef(t[r].groupMember[i]))
      {
      }
    }
  }

  // createInstance on a map whose groups are in order, while there are ids for the copies
  method CloneMap(w: World, inst: int, maxHealth: int -> int)
    requires Steady(w)
    modifies w, w.chunks.Values, w.entities.Values
    ensures Steady(w) && (SceneOf(w) == old(SceneOf(w)) || Filled(old(SceneOf(w)), inst, SceneOf(w))) && Grown(w)
  {
    hide World.Valid, TraitOf, WellFormedGroups, Extends, Instance, SameViews, SameOutside, Located, Inside, Filled,
        TraitsLocated, TraitsMatch;
    var npcs := TemplateNpcs(w, MapNum(inst));
    if inst == RESERVED_INSTANCE || !GroupsOk(w, npcs) || !IdsLeftFor(w, |npcs|) {
      return;
    }
    TemplateIsSources(w, MapNum(inst));
    ghost var t0 := map r | r in w.entities :: TraitOf(w.entities[r]);
    TraitsTaken(w.entities, t0);
    GroupsWellFormed(w, t0, npcs);
    LocatedTraits(w, t0);
    ghost var t, c := CreateInstance(w, inst, maxHealth, t0, w.nextId - |npcs|);
    if ChunksIn(old(w.chunks).Keys, inst) == {} {
      CloneLocated(t0, maxHealth, t, c, old(w.entities), w.entities, old(w.pos), w.pos, old(w.ext), w.ext, w.side, inst,
          npcs, old(w.nextId));
      LocatedTraits(w, t);
      CloneFills(t0, maxHealth, t, c, old(w.entities), w.entities, old(w.pos), w.pos, old(w.ext), w.ext, w.side, inst,
          npcs, old(w.nextId), w.nextId);
    } else {
      LocatedTraits(w, t);
    }
  }

  lemma TraitsTaken(es: Entities, t: Traits)
    requires t == map r | r in es :: TraitOf(es[r])
    ensures TraitsMatch(es, t)
  {
  }

  // Located, said of the traits.
  predicate TraitsLocated(t: Traits, pos: Placement, side: int)
    requires side > 0
  {
    && (forall r | r in pos :: r in t && pos[r] == PosAt(side, t[r].x, t[r].y, t[r].instanceID))
    && (forall r | r in t && r !in pos && r.kind.Player? :: t[r].instanceID == 0)
  }

  lemma LocatedTraits(w: World, t: Traits)
    requires TraitsMatch(w.entities, t) && w.side > 0
    ensures Located(w) <==> TraitsLocated(t, w.pos, w.side)
  {
    hide PosAt;
    forall r | r in w.entities
      ensures t[r].x == w.entities[r].x && t[r].y == w.entities[r].y && t[r].instanceID == w.entities[r].instanceID
    {
    }
  }

  lemma CloneLocated(t0: Traits, maxHealth: int -> int, t: Traits, c: CopyMap, es0: Entities, es: Entities,
                     pos0: Placement, pos: Placement, ext0: set<EntityRef>, ext: set<EntityRef>, side: int, inst: int,
                     sources: set<EntityRef>, nextId0: int)
    requires side > 0 && Instance(t0, maxHealth, t, c, pos, side, inst, sources, nextId0)
    requires Extends(t0, t, c, es0, es, pos0, pos, ext0, ext) && WellFormedGroups(t0, sources)
    requires TraitsLocated(t0, pos0, side)
    ensures TraitsLocated(t, pos, side)
  {
    hide PosAt, Instance, WellFormedGroups, Made;
    forall r | r in Made(c)
      ensures r in t && r in pos && pos[r] == PosAt(side, t[r].x, t[r].y, t[r].instanceID)
    {
      MadeLocated(t0, maxHealth, t, c, pos, side, inst, sources, nextId0, r);
    }
  }

  lemma MadeLocated(t0: Traits, maxHealth: int -> int, t: Traits, c: CopyMap, pos: Placement, side: int, inst: int,
                    sources: set<EntityRef>, nextId0: int, r: EntityRef)
    requires side > 0 && Instance(t0, maxHealth, t, c, pos, side, inst, sources, nextId0)
    requires WellFormedGroups(t0, sources) && r in Made(c)
    ensures r in t && r in pos && pos[r] == PosAt(side, t[r].x, t[r].y, t[r].instanceID)
  {
    hide PosAt, Copied, WellFormedGroups, IdsTaken, Inside;
    var b :| b in c && c[b] == r;
    CopyIs(t0, maxHealth, t, c, pos, side, inst, sources, nextId0, b);
  }

  lemma CloneFills(t0: Traits, maxHealth: int -> int, t: Traits, c: CopyMap, es0: Entities, es: Entities,
                   pos0: Placement, pos: Placement, ext0: set<EntityRef>, ext: set<EntityRef>, side: int, inst: int,
                   sources: set<EntityRef>, nextId0: int, nextId: int)
    requires side > 0 && Instance(t0, maxHealth, t, c, pos, side, inst, sources, nextId0)
    requires Extends(t0, t, c, es0, es, pos0, pos, ext0, ext)
    requires sources == Sources(pos0, MapNum(inst)) && pos0 == pos - Inside(pos, inst) && nextId == nextId0 - |sources|
    ensures Filled(Scene(es0.Keys, pos0, ext0, nextId0), inst, Scene(es.Keys, pos, ext, nextId))
  {
    hide Copied;
    MadeSize(c);
    assert |c| == |c.Keys|;
  }

  lemma {:induction false} MadeSize(c: CopyMap)
    requires forall b, b' | b in c && b' in c && b != b' :: c[b] != c[b']
    ensures |Made(c)| == |c|
    decreases |c|
  {
    if |c| == 0 {
      assert Made(c) == {};
    } else {
      var b :| b in c;
      var rest := c - {b};
      MadeSize(rest);
      MadeOne(rest, b, c[b]);
      assert rest[b := c[b]] == c;
      assert c[b] !in Made(rest);
    }
  }

  // ---- runs

  /** Over every run of requests from the empty shard, each request does what it should, and at every stop
      the caches, the counts and the clients are exactly what the placement of the entities says: so each
      client knows of what is close to its player and of nothing that is far away. */
  method Run(side: int, nextId: int, maxHealth: int -> int, requests: seq<Request>)
    returns (w: World, ghost scenes: seq<Scene>)
    requires side > 0
    ensures Exact(w) && AtRest(w.pos) && Located(w) && Sighted(w) && Counted(w)
    ensures |scenes| == |requests| + 1 && scenes[0] == Scene({}, map[], {}, nextId)
    ensures forall i | 0 <= i < |requests| :: Does(scenes[i], requests[i], scenes[i + 1], side)
    ensures scenes[|requests|] == SceneOf(w)
  {
    hide World.Valid, Exact, Located, Sighted, Counted, Spawns, Joins, Moves, Sends, Leaves, Destroys, PicksUp,
        Grows, Filled, Abandoned, Less;
    w := new World(side, nextId);
    Empty(w);
    scenes := [SceneOf(w)];
    for i := 0 to |requests|
      invariant fresh(w) && fresh(w.chunks.Values) && fresh(w.entities.Values)
      invariant Steady(w) && w.side == side
      invariant |scenes| == i + 1 && scenes[0] == Scene({}, map[], {}, nextId) && scenes[i] == SceneOf(w)
      invariant forall k | 0 <= k < i :: Does(scenes[k], requests[k], scenes[k + 1], side)
    {
      match requests[i] {
        case Spawn(kind, npcType, hp, summoned, x, y, z, inst, angle) =>
          SpawnAt(w, kind, npcType, hp, summoned, x, y, z, inst, angle);
        case Join(sock) => JoinShard(w, sock);
        case MovePlayer(sock, x, y, z, inst, angle) => MoveThePlayer(w, sock, x, y, z, inst, angle);
        case Warp(sock, x, y, z, inst) => WarpThePlayer(w, sock, x, y, z, inst);
        case Send(sock, x, y, z, inst) => SendThePlayer(w, sock, x, y, z, inst);
        case Leave(sock) => LeaveShard(w, sock);
        case MoveNpc(npc, x, y, z, inst, angle) => MoveTheNpc(w, npc, x, y, z, inst, angle);
        case Destroy(npc) => DestroyTheNpc(w, npc);
        case Pickup(egg, regen, now) => PickUp(w, egg, regen, now);
        case Grow(now) => GrowEggs(w, now);
        case Follow(_, _, _, _) => Link(w, requests[i]);
        case Enroll(_, _, _) => Link(w, requests[i]);
        case Clone(inst) => CloneMap(w, inst, maxHealth);
        case TearDown(inst) => TearItDown(w, inst);
      }
      scenes := scenes + [SceneOf(w)];
    }
    ValidIsExact(w);
    SightFollows(w);
    CountFollows(w);
  }

  lemma Empty(w: World)
    requires w.Valid() && w.entities == map[] && w.pos == map[]
    ensures Steady(w) && w.ext == {}
  {
    w.ExtOf(PlayerRef(0));
    w.KeysAgree();
  }
}
