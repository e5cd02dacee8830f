/** The plain definitions that the chunk index caches: who is where, who is near whom,
    what a client should see and how many players a mob should count.  Everything here is
    a function of two values, the placement of the entities and the set of those extant. */
module ChunkViews {
  datatype EntityKind = Invalid | Player | SimpleNpc | CombatNpc | Mob | Egg | Bus

  // `id` stands for the socket of a player and for the NPC id of anything else.
  datatype EntityRef = EntityRef(kind: EntityKind, id: int)

  datatype ChunkPos = ChunkPos(x: int, y: int, inst: int)

  type Placement = map<EntityRef, ChunkPos>

  // The instance id of INVALID_CHUNK, (uint64_t)-1, is reserved: no map uses it.
  const RESERVED_INSTANCE := 0xFFFF_FFFF_FFFF_FFFF
  const INVALID_CHUNK := ChunkPos(0, 0, RESERVED_INSTANCE)

  predicate Near(a: ChunkPos, b: ChunkPos) {
    a.inst == b.inst && -1 <= a.x - b.x <= 1 && -1 <= a.y - b.y <= 1
  }

  function At(pos: Placement, p: ChunkPos): set<EntityRef> {
    set r | r in pos && pos[r] == p
  }

  // Everything in the 3x3 chunk neighbourhood of `p`.
  function Around(pos: Placement, p: ChunkPos): (s: set<EntityRef>)
    ensures s <= pos.Keys
  {
    set r | r in pos && Near(pos[r], p)
  }

  function Players(s: set<EntityRef>): set<EntityRef> {
    set r | r in s && r.kind.Player?
  }

  // What the client of `r` should know of.
  function Visible(pos: Placement, ext: set<EntityRef>, r: EntityRef): set<EntityRef> {
    if r in pos then (Around(pos, pos[r]) - {r}) * ext else {}
  }

  // How many players the mob `r` should count.
  function PlayersNear(pos: Placement, r: EntityRef): nat {
    if r in pos then |Players(Around(pos, pos[r]))| else 0
  }

  /** C++ integer division: it truncates toward zero. */
  function Quotient(a: int, d: int): int
    requires d > 0
  {
    if a >= 0 then a / d else -((-a) / d)
  }

  /** It is the quotient whose multiple lies between zero and the number, less than a divisor away. */
  lemma QuotientTruncates(a: int, d: int)
    requires d > 0
    ensures a >= 0 ==> d * Quotient(a, d) <= a < d * Quotient(a, d) + d
    ensures a <= 0 ==> d * Quotient(a, d) - d < a <= d * Quotient(a, d)
  {
    DivMod(a, d);
    DivMod(-a, d);
    Opposite(d, (-a) / d);
  }

  lemma DivMod(a: int, d: int)
    requires d > 0
    ensures d * (a / d) <= a < d * (a / d) + d
  {
  }

  lemma Opposite(d: int, q: int)
    ensures d * -q == -(d * q)
  {
  }

  function PosAt(side: int, x: int, y: int, inst: int): ChunkPos
    requires side > 0
  {
    ChunkPos(Quotient(x, side), Quotient(y, side), inst)
  }

  /** Whatever the rounding, two entities of one map within a chunk side of each other on
      both axes are in each other's neighbourhood. */
  lemma CloseIsNear(side: int, x: int, y: int, x': int, y': int, inst: int)
    requires side > 0
    requires -side <= x - x' <= side && -side <= y - y' <= side
    ensures Near(PosAt(side, x, y, inst), PosAt(side, x', y', inst))
  {
    QuotientStep(x, x', side);
    QuotientStep(x', x, side);
    QuotientStep(y, y', side);
    QuotientStep(y', y, side);
  }

  /** Two entities in each other's neighbourhood are in one map and less than three chunk sides apart on
      both axes. */
  lemma NearIsClose(side: int, x: int, y: int, inst: int, x': int, y': int, inst': int)
    requires side > 0 && Near(PosAt(side, x, y, inst), PosAt(side, x', y', inst'))
    ensures inst == inst' && -3 * side < x - x' < 3 * side && -3 * side < y - y' < 3 * side
  {
    Apart(x, x', side);
    Apart(x', x, side);
    Apart(y, y', side);
    Apart(y', y, side);
  }

  lemma Apart(a: int, b: int, d: int)
    requires d > 0 && Quotient(a, d) <= Quotient(b, d) + 1
    ensures a - b < 3 * d
  {
    QuotientTruncates(a, d);
    QuotientTruncates(b, d);
    Scaled(d, Quotient(a, d), Quotient(b, d) + 1);
    assert d * (Quotient(b, d) + 1) == d * Quotient(b, d) + d;
  }

  lemma Scaled(d: int, m: int, n: int)
    requires d > 0 && m <= n
    ensures d * m <= d * n
  {
  }

  lemma QuotientStep(a: int, b: int, d: int)
    requires d > 0 && a <= b + d
    ensures Quotient(a, d) <= Quotient(b, d) + 1
  {
    if a >= 0 {
      FloorStep(a, if b >= 0 then b else 0, d);
      if b < 0 {
        FloorStep(a, b, d);
        FloorStep(-b, 0, d);
      }
    } else if b >= 0 {
      FloorNonNegative(-a, d);
      FloorNonNegative(b, d);
    } else {
      FloorStep(-b, -a, d);
    }
  }

  lemma FloorStep(a: int, b: int, d: int)
    requires d > 0 && a <= b + d
    ensures a / d <= b / d + 1
  {
    Cancel(a / d, b / d + 2, d);
  }

  lemma FloorNonNegative(a: int, d: int)
    requires d > 0 && a >= 0
    ensures a / d >= 0
  {
  }

  lemma Cancel(m: int, n: int, d: int)
    requires d > 0
    ensures m * d < n * d ==> m < n
  {
  }

  // ---- moving one entity: the old-minus-new and new-minus-old differences

  // `from` is where `ref` is; an entity not yet placed comes from the reserved instance,
  // where then nobody is.
  predicate ComesFrom(pos: Placement, ref: EntityRef, from: ChunkPos) {
    if ref in pos then pos[ref] == from
    else from == INVALID_CHUNK && AtRest(pos)
  }

  // Between requests nobody is in the reserved instance; a player passes through it in a warp.
  predicate AtRest(pos: Placement) {
    forall r | r in pos :: pos[r].inst != RESERVED_INSTANCE
  }

  // Those near the old chunk but not the new one, after the move ...
  function Exits(pos: Placement, from: ChunkPos, to: ChunkPos): set<EntityRef> {
    Around(pos, from) - Around(pos, to)
  }

  // ... and those other than `ref` near the new chunk but not the old one.
  function Enters(pos: Placement, ref: EntityRef, from: ChunkPos, to: ChunkPos): set<EntityRef> {
    Around(pos, to) - Around(pos, from) - {ref}
  }

  /** The client of a bystander needs to hear of `ref` exactly when the bystander is in one
      of the two differences. */
  lemma BystanderView(pos: Placement, ref: EntityRef, from: ChunkPos, to: ChunkPos, ext: set<EntityRef>, r: EntityRef)
    requires ComesFrom(pos, ref, from) && r != ref
    ensures var moved := pos[ref := to];
            var gone := if r in Exits(moved, from, to) && ref in ext then {ref} else {};
            var come := if r in Enters(moved, ref, from, to) && ref in ext then {ref} else {};
            && Visible(moved, ext, r) == Visible(pos, ext, r) - gone + come
            && gone <= Visible(pos, ext, r)
            && come !! Visible(pos, ext, r)
  {
    var moved := pos[ref := to];
    if r in pos {
      forall q | q != ref
        ensures q in Around(moved, moved[r]) <==> q in Around(pos, pos[r])
      {
      }
    }
  }

  /** The client of `ref` itself needs to hear of exactly the two differences. */
  lemma MoverView(pos: Placement, ref: EntityRef, from: ChunkPos, to: ChunkPos, ext: set<EntityRef>)
    requires ComesFrom(pos, ref, from)
    ensures var moved := pos[ref := to];
            var gone := Exits(moved, from, to) * ext;
            var come := Enters(moved, ref, from, to) * ext;
            && Visible(moved, ext, ref) == Visible(pos, ext, ref) - gone + come
            && gone <= Visible(pos, ext, ref)
            && come !! Visible(pos, ext, ref)
  {
    var moved := pos[ref := to];
    forall q | q != ref
      ensures q in Around(moved, to) <==> q in pos && Near(pos[q], to)
      ensures q in Around(moved, from) <==> q in pos && Near(pos[q], from)
    {
    }
  }

  lemma PlayersStep(s: set<EntityRef>, r: EntityRef)
    requires r !in s
    ensures |Players(s + {r})| == |Players(s)| + if r.kind.Player? then 1 else 0
  {
    assert Players(s + {r}) == if r.kind.Player? then Players(s) + {r} else Players(s);
  }

  lemma PlayersUnion(a: set<EntityRef>, b: set<EntityRef>)
    requires a !! b
    ensures |Players(a + b)| == |Players(a)| + |Players(b)|
  {
    assert Players(a + b) == Players(a) + Players(b);
  }

  /** A bystander's player count moves by one exactly when a player crosses its view. */
  lemma BystanderCount(pos: Placement, ref: EntityRef, from: ChunkPos, to: ChunkPos, r: EntityRef)
    requires ComesFrom(pos, ref, from) && r != ref
    ensures var moved := pos[ref := to];
            PlayersNear(moved, r) == PlayersNear(pos, r)
              - (if r in Exits(moved, from, to) && ref.kind.Player? then 1 else 0)
              + (if r in Enters(moved, ref, from, to) && ref.kind.Player? then 1 else 0)
  {
    var moved := pos[ref := to];
    if r in pos {
      var rest := Around(pos, pos[r]) - {ref};
      PlayersStep(rest, ref);
      assert Around(pos, pos[r]) == if Near(from, pos[r]) then rest + {ref} else rest;
      assert Around(moved, pos[r]) == if Near(to, pos[r]) then rest + {ref} else rest;
    }
  }

  lemma MoverAround(pos: Placement, ref: EntityRef, from: ChunkPos, to: ChunkPos)
    requires ComesFrom(pos, ref, from)
    ensures var moved := pos[ref := to];
            var both := Around(moved, from) * Around(moved, to) - {ref};
            && Around(moved, to) == Enters(moved, ref, from, to) + both + {ref}
            && (if ref in pos then Around(pos, from) == Exits(moved, from, to) + both + {ref}
                else Exits(moved, from, to) + both == {})
  {
    var moved := pos[ref := to];
    forall q | q != ref
      ensures q in Around(moved, to) <==> q in pos && Near(pos[q], to)
      ensures q in Around(moved, from) <==> q in pos && Near(pos[q], from)
    {
    }
  }

  /** The moving mob's own player count moves by the sizes of the two differences. */
  lemma MoverCount(pos: Placement, ref: EntityRef, from: ChunkPos, to: ChunkPos)
    requires ComesFrom(pos, ref, from) && !ref.kind.Player?
    ensures var moved := pos[ref := to];
            PlayersNear(moved, ref) == PlayersNear(pos, ref)
              - |Players(Exits(moved, from, to))| + |Players(Enters(moved, ref, from, to))|
  {
    hide Players, Near;
    var moved := pos[ref := to];
    var exits, enters := Exits(moved, from, to), Enters(moved, ref, from, to);
    var both := Around(moved, from) * Around(moved, to) - {ref};
    assert Near(to, to) by { NearSelf(to); }
    MoverAround(pos, ref, from, to);
    PlayersUnion(exits, both);
    PlayersUnion(enters, both);
    PlayersStep(enters + both, ref);
    if ref in pos {
      PlayersStep(exits + both, ref);
    } else {
      NoPlayers();
    }
  }

  lemma NearSelf(p: ChunkPos)
    ensures Near(p, p)
  {
  }

  lemma NoPlayers()
    ensures Players({}) == {}
  {
  }
}
