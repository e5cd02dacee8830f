/** Preset paths of NPCs: queues of points that are walked round and round, and rewound to the
    spawn point when a mob dies. */
module Transport {
  import opened Ids
  import opened MobGroups

  datatype Vec3 = Vec3(x: int, y: int, z: int)

  // The points that lerp puts between two others.
  type Lerp = (Vec3, Vec3) -> seq<Vec3>

  datatype NPCPath = NPCPath(points: seq<Vec3>, isRelative: bool, isLoop: bool)

  // ---- circuits and rotations

  function Shifted(p: Vec3, d: Vec3): Vec3 {
    Vec3(p.x + d.x, p.y + d.y, p.z + d.z)
  }

  // From point `i` on: each point but the last, followed by what lies between it and the next.
  function Circuit(points: seq<Vec3>, i: nat, lerp: Lerp): seq<Vec3>
    requires i < |points|
    decreases |points| - i
  {
    if i + 1 == |points| then [] else [points[i]] + lerp(points[i], points[i + 1]) + Circuit(points, i + 1, lerp)
  }

  function Turn(s: seq<Vec3>, k: nat): (r: seq<Vec3>)
    requires k <= |s|
    ensures |r| == |s|
  {
    s[k..] + s[..k]
  }

  ghost predicate IsRotation(s: seq<Vec3>, r: seq<Vec3>) {
    exists k :: 0 <= k <= |s| && r == Turn(s, k)
  }

  lemma RotationStep(s: seq<Vec3>, r: seq<Vec3>)
    requires IsRotation(s, r) && |r| > 0
    ensures IsRotation(s, r[1..] + [r[0]])
    ensures forall p :: p in s <==> p in r
  {
    var k :| 0 <= k <= |s| && r == Turn(s, k);
    if k == |s| {
      assert r == s && r[1..] + [r[0]] == Turn(s, 1);
    } else {
      assert r[1..] + [r[0]] == Turn(s, k + 1);
    }
    forall p | p in s
      ensures p in r
    {
      var i :| 0 <= i < |s| && s[i] == p;
      assert if i < k then r[|s| - k + i] == p else r[i - k] == p;
    }
  }

  lemma RotationSize(s: seq<Vec3>, r: seq<Vec3>)
    requires IsRotation(s, r)
    ensures |r| == |s|
  {
  }

  lemma RotationSelf(s: seq<Vec3>)
    ensures IsRotation(s, s)
  {
    assert s == Turn(s, 0);
  }

  // ---- rewinding

  predicate AtSpawn(p: Vec3, spawnX: int, spawnY: int) {
    p.x == spawnX && p.y == spawnY
  }

  // Where the spawn point is first found, or the length when it is nowhere.
  function Find(q: seq<Vec3>, spawnX: int, spawnY: int): (k: nat)
    ensures k <= |q| && (k < |q| ==> AtSpawn(q[k], spawnX, spawnY))
    ensures forall j | 0 <= j < k :: !AtSpawn(q[j], spawnX, spawnY)
  {
    if |q| == 0 || AtSpawn(q[0], spawnX, spawnY) then 0 else 1 + Find(q[1..], spawnX, spawnY)
  }

  // The queue after `n` turns of the rewinding loop.
  function Wound(q: seq<Vec3>, n: nat): (r: seq<Vec3>)
    requires |q| > 0
    ensures |r| == |q|
    decreases n
  {
    if n == 0 then q else Wound(q[1..] + [q[0]], n - 1)
  }

  lemma {:induction false} WoundSame(q: seq<Vec3>, n: nat, p: Vec3)
    requires |q| > 0
    ensures p in Wound(q, n) <==> p in q
    decreases n
  {
    if n > 0 {
      var next := q[1..] + [q[0]];
      assert q == [q[0]] + q[1..];
      WoundSame(next, n - 1, p);
    }
  }

  lemma {:induction false} WoundIsTurn(q: seq<Vec3>, n: nat)
    requires 0 < |q| && n <= |q|
    ensures Wound(q, n) == Turn(q, n)
  {
    if n > 0 {
      WoundMore(q, n - 1);
      WoundIsTurn(q, n - 1);
      var t := Turn(q, n - 1);
      assert t[1..] + [t[0]] == Turn(q, n);
    }
  }

  lemma {:induction false} WoundMore(q: seq<Vec3>, n: nat)
    requires |q| > 0
    ensures Wound(q, n + 1) == Wound(q, n)[1..] + [Wound(q, n)[0]]
    decreases n
  {
    if n > 0 {
      WoundMore(q[1..] + [q[0]], n - 1);
    }
  }

  /** Walked round and round, the point in front after `rounds` rounds and `i` steps is point `i`. */
  lemma {:induction false} FrontAfter(q: seq<Vec3>, rounds: nat, i: nat)
    requires i < |q|
    ensures Wound(q, rounds * |q| + i)[0] == q[i]
    decreases rounds
  {
    if rounds == 0 {
      WoundIsTurn(q, i);
    } else {
      WoundIsTurn(q, |q|);
      assert Turn(q, |q|) == q;
      var n := (rounds - 1) * |q| + i;
      assert rounds * |q| + i == |q| + n;
      WoundSum(q, |q|, n);
      FrontAfter(q, rounds - 1, i);
    }
  }

  lemma {:induction false} WoundSum(q: seq<Vec3>, m: nat, n: nat)
    requires |q| > 0
    ensures Wound(q, m + n) == Wound(Wound(q, m), n)
    decreases m
  {
    if m > 0 {
      WoundSum(q[1..] + [q[0]], m - 1, n);
    }
  }

  /** The rewinding loop ends if and only if the spawn point is in the queue. */
  lemma RewindEnds(q: seq<Vec3>, spawnX: int, spawnY: int)
    requires |q| > 0
    ensures (exists n: nat :: AtSpawn(Wound(q, n)[0], spawnX, spawnY))
        <==> (exists p :: p in q && AtSpawn(p, spawnX, spawnY))
  {
    if n: nat :| AtSpawn(Wound(q, n)[0], spawnX, spawnY) {
      var p := Wound(q, n)[0];
      WoundSame(q, n, p);
    }
    if p :| p in q && AtSpawn(p, spawnX, spawnY) {
      var n := Find(q, spawnX, spawnY);
      WoundIsTurn(q, n);
      assert Wound(q, n)[0] == q[n];
    }
  }

  // The loop itself; each turn moves the front to the back.
  method Rewind(q: seq<Vec3>, spawnX: int, spawnY: int) returns (r: seq<Vec3>)
    requires exists p :: p in q && AtSpawn(p, spawnX, spawnY)
    ensures r == Turn(q, Find(q, spawnX, spawnY)) && AtSpawn(r[0], spawnX, spawnY)
  {
    r := q;
    ghost var k, n := 0, Find(q, spawnX, spawnY);
    while r[0].x != spawnX || r[0].y != spawnY
      invariant 0 <= k <= n < |q| && r == Turn(q, k)
      decreases n - k
    {
      assert r[0] == q[k];
      r, k := r[1..] + [r[0]], k + 1;
      assert r == Turn(q, k);
    }
    assert r[0] == q[k];
  }

  // ---- circuits under walking

  // Every mob on a circuit has a rotation of it in its queue.
  ghost predicate OnCourse(circuits: map<MobId, seq<Vec3>>, queues: map<MobId, seq<Vec3>>) {
    forall id | id in circuits :: id in queues && IsRotation(circuits[id], queues[id])
  }

  lemma OneTurned(circuits: map<MobId, seq<Vec3>>, queues: map<MobId, seq<Vec3>>, id: MobId, q: seq<Vec3>)
    requires OnCourse(circuits, queues)
    requires id in circuits ==> IsRotation(circuits[id], q)
    ensures OnCourse(circuits, queues[id := q])
  {
    hide IsRotation;
  }

  lemma OneMore(circuits: map<MobId, seq<Vec3>>, queues: map<MobId, seq<Vec3>>, id: MobId, q: seq<Vec3>)
    requires OnCourse(circuits, queues)
    ensures OnCourse(circuits[id := q], queues[id := q])
    ensures OnCourse(circuits - {id}, queues[id := q])
  {
    hide IsRotation;
    RotationSelf(q);
  }

  lemma NoneEmpty(circuits: map<MobId, seq<Vec3>>, queues: map<MobId, seq<Vec3>>)
    requires OnCourse(circuits, queues)
    ensures forall id | id in circuits :: id in queues && |queues[id]| == |circuits[id]|
  {
    forall id | id in circuits
      ensures id in queues && |queues[id]| == |circuits[id]|
    {
      RotationSize(circuits[id], queues[id]);
    }
  }

  lemma AllStepped(circuits: map<MobId, seq<Vec3>>, queues: map<MobId, seq<Vec3>>, after: map<MobId, seq<Vec3>>)
    requires OnCourse(circuits, queues)
    requires forall id | id in circuits :: id in after && id in queues && |queues[id]| > 0
               && (after[id] == queues[id] || after[id] == queues[id][1..] + [queues[id][0]])
    ensures OnCourse(circuits, after)
  {
    hide IsRotation;
    forall id | id in circuits
      ensures id in after && IsRotation(circuits[id], after[id])
    {
      RotationStep(circuits[id], queues[id]);
    }
  }

  lemma OneDropped(circuits: map<MobId, seq<Vec3>>, queues: map<MobId, seq<Vec3>>, id: MobId)
    requires OnCourse(circuits, queues) && id !in circuits
    ensures OnCourse(circuits, queues - {id})
  {
    hide IsRotation;
  }

  // All queues after the mobs in `ks` and their leader were sent on a walk.
  function Walked(queues: map<MobId, seq<Vec3>>, id: MobId, queue: seq<Vec3>, ks: set<MobId>,
                  walk: MobId -> seq<Vec3>): map<MobId, seq<Vec3>> {
    map k | k in queues.Keys + {id} + ks :: if k in ks then walk(k) else if k == id then queue else queues[k]
  }

  lemma NoneWalked(queues: map<MobId, seq<Vec3>>, id: MobId, queue: seq<Vec3>, walk: MobId -> seq<Vec3>)
    ensures Walked(queues, id, queue, {}, walk) == queues[id := queue]
  {
  }

  lemma WalkedMore(queues: map<MobId, seq<Vec3>>, id: MobId, queue: seq<Vec3>, ks: set<MobId>,
                   walk: MobId -> seq<Vec3>, k: MobId)
    ensures Walked(queues, id, queue, ks + {k}, walk) == Walked(queues, id, queue, ks, walk)[k := walk(k)]
  {
  }

  lemma WalkedIs(queues: map<MobId, seq<Vec3>>, id: MobId, queue: seq<Vec3>, ks: set<MobId>,
                 walk: MobId -> seq<Vec3>)
    ensures var after := Walked(queues, id, queue, ks, walk);
            && after.Keys == queues.Keys + {id} + ks
            && forall k | k in after :: after[k] == if k in ks then walk(k) else if k == id then queue else queues[k]
  {
  }

  // Those of these mobs that are on a circuit are given a rotation of it.
  ghost predicate Harmless(circuits: map<MobId, seq<Vec3>>, ks: set<MobId>, walk: MobId -> seq<Vec3>) {
    forall k | k in ks && k in circuits :: IsRotation(circuits[k], walk(k))
  }

  lemma WalkedIff(circuits: map<MobId, seq<Vec3>>, queues: map<MobId, seq<Vec3>>, id: MobId, queue: seq<Vec3>,
                  ks: set<MobId>, walk: MobId -> seq<Vec3>)
    requires OnCourse(circuits, queues) && id !in circuits
    ensures OnCourse(circuits, Walked(queues, id, queue, ks, walk)) <==> Harmless(circuits, ks, walk)
  {
    hide IsRotation;
    var after := Walked(queues, id, queue, ks, walk);
    forall k | k in ks
      ensures k in after && after[k] == walk(k)
    {
    }
  }

  lemma HasSpawn(s: seq<Vec3>, q: seq<Vec3>)
    requires IsRotation(s, q) && |s| > 0
    ensures s[0] in q
  {
  }

  lemma TurnAt(s: seq<Vec3>, k: nat, i: nat)
    requires k <= |s| && i < |s|
    ensures Turn(s, k)[i] == s[if k + i < |s| then k + i else k + i - |s|]
  {
  }

  lemma TurnTwice(s: seq<Vec3>, q: seq<Vec3>, n: nat)
    requires IsRotation(s, q) && n <= |q|
    ensures IsRotation(s, Turn(q, n))
  {
    hide Turn;
    var k :| 0 <= k <= |s| && q == Turn(s, k);
    var j := if k + n <= |s| then k + n else k + n - |s|;
    forall i | 0 <= i < |s|
      ensures Turn(q, n)[i] == Turn(s, j)[i]
    {
      TurnAt(q, n, i);
      TurnAt(s, k, if n + i < |s| then n + i else n + i - |s|);
      TurnAt(s, j, i);
    }
    assert Turn(q, n) == Turn(s, j);
  }

  lemma RotationTurned(circuits: map<MobId, seq<Vec3>>, queues: map<MobId, seq<Vec3>>, id: MobId, n: nat)
    requires OnCourse(circuits, queues) && id in circuits && n <= |queues[id]|
    ensures IsRotation(circuits[id], Turn(queues[id], n))
  {
    TurnTwice(circuits[id], queues[id], n);
  }

  // ---- the transport system

  function Placed(route: seq<Vec3>, shift: Vec3): (r: seq<Vec3>)
    ensures |r| == |route|
  {
    seq(|route|, i requires 0 <= i < |route| => Shifted(route[i], shift))
  }

  lemma PlacedAsIs(route: seq<Vec3>)
    ensures Placed(route, Vec3(0, 0, 0)) == route
  {
  }

  lemma CircuitStarts(route: seq<Vec3>, lerp: Lerp)
    requires |route| >= 2
    ensures |Circuit(route, 0, lerp)| > 0 && Circuit(route, 0, lerp)[0] == route[0]
  {
  }

  // Where leg `i` of the circuit through these points begins.
  ghost function LegStart(points: seq<Vec3>, i: nat, lerp: Lerp): nat
    requires i < |points|
  {
    if i == 0 then 0 else LegStart(points, i - 1, lerp) + 1 + |lerp(points[i - 1], points[i])|
  }

  lemma {:induction false} CircuitTail(points: seq<Vec3>, i: nat, lerp: Lerp)
    requires i < |points|
    ensures LegStart(points, i, lerp) <= |Circuit(points, 0, lerp)|
    ensures Circuit(points, 0, lerp)[LegStart(points, i, lerp)..] == Circuit(points, i, lerp)
  {
    if i > 0 {
      CircuitTail(points, i - 1, lerp);
      var c, at := Circuit(points, 0, lerp), LegStart(points, i - 1, lerp);
      var leg := [points[i - 1]] + lerp(points[i - 1], points[i]);
      assert c[at..] == leg + Circuit(points, i, lerp);
      assert c[at + |leg|..] == c[at..][|leg|..];
    }
  }

  // At `at` there is point `i` of the route, moved by the shift, and then what lies between it and the next.
  ghost predicate Leg(route: seq<Vec3>, shift: Vec3, lerp: Lerp, c: seq<Vec3>, at: nat, i: nat)
    requires i + 1 < |route|
  {
    var p := Vec3(route[i].x + shift.x, route[i].y + shift.y, route[i].z + shift.z);
    var next := Vec3(route[i + 1].x + shift.x, route[i + 1].y + shift.y, route[i + 1].z + shift.z);
    at + 1 + |lerp(p, next)| <= |c| && c[at] == p && c[at + 1..at + 1 + |lerp(p, next)|] == lerp(p, next)
  }

  /** The circuit has all the legs of the route, each where the one before it ends, and nothing else. */
  lemma CircuitLegs(route: seq<Vec3>, shift: Vec3, lerp: Lerp)
    requires |route| > 0
    ensures var placed := Placed(route, shift);
            var c := Circuit(placed, 0, lerp);
            && |c| == LegStart(placed, |route| - 1, lerp)
            && forall i | 0 <= i < |route| - 1 :: Leg(route, shift, lerp, c, LegStart(placed, i, lerp), i)
  {
    hide Placed, Shifted, Circuit, LegStart;
    var placed := Placed(route, shift);
    var c := Circuit(placed, 0, lerp);
    CircuitTail(placed, |route| - 1, lerp);
    CircuitEnd(placed, lerp);
    assert |c[LegStart(placed, |route| - 1, lerp)..]| == 0;
    forall i | 0 <= i < |route| - 1
      ensures Leg(route, shift, lerp, c, LegStart(placed, i, lerp), i)
    {
      PlacedAt(route, shift, i);
      PlacedAt(route, shift, i + 1);
      CircuitTail(placed, i, lerp);
      OneLeg(placed, i, lerp, c, LegStart(placed, i, lerp));
    }
  }

  lemma CircuitEnd(points: seq<Vec3>, lerp: Lerp)
    requires |points| > 0
    ensures Circuit(points, |points| - 1, lerp) == []
  {
  }

  lemma PlacedAt(route: seq<Vec3>, shift: Vec3, i: nat)
    requires i < |route|
    ensures Placed(route, shift)[i] == Vec3(route[i].x + shift.x, route[i].y + shift.y, route[i].z + shift.z)
  {
  }

  lemma OneLeg(points: seq<Vec3>, i: nat, lerp: Lerp, c: seq<Vec3>, at: nat)
    requires i + 1 < |points| && at <= |c| && c[at..] == Circuit(points, i, lerp)
    ensures var between := lerp(points[i], points[i + 1]);
            at + 1 + |between| <= |c| && c[at] == points[i] && c[at + 1..at + 1 + |between|] == between
  {
    var between := lerp(points[i], points[i + 1]);
    var leg := [points[i]] + between;
    assert c[at..] == leg + Circuit(points, i + 1, lerp);
    assert c[at] == c[at..][0] == leg[0];
    forall k | 0 <= k < |between|
      ensures c[at + 1 + k] == between[k]
    {
      assert c[at + 1 + k] == c[at..][1 + k] == leg[1 + k];
    }
  }

  // the interpolating loop of constructPathNPC
  method BuildQueue(route: seq<Vec3>, shift: Vec3, lerp: Lerp) returns (points: seq<Vec3>)
    requires |route| > 0
    ensures points == Circuit(Placed(route, shift), 0, lerp)
  {
    ghost var placed := Placed(route, shift);
    points := [];
    var from := Shifted(route[0], shift);
    for i := 1 to |route|
      invariant from == placed[i - 1]
      invariant points + Circuit(placed, i - 1, lerp) == Circuit(placed, 0, lerp)
    {
      var to := Shifted(route[i], shift);
      ghost var was := points;
      points := points + [from];
      points := points + lerp(from, to);
      assert points + Circuit(placed, i, lerp) == was + ([from] + lerp(from, to) + Circuit(placed, i, lerp));
      from := to;
    }
  }

  class Npc {
    const isMob: bool
    const spawnX: int
    const spawnY: int
    var x: int
    var y: int
    var z: int
    var roaming: bool
    var staticPath: bool
    var loopingPath: bool

    constructor (isMob: bool, x: int, y: int, z: int)
      ensures this.isMob == isMob && spawnX == this.x == x && spawnY == this.y == y && this.z == z
      ensures roaming && !staticPath && !loopingPath
    {
      this.isMob, spawnX, spawnY := isMob, x, y;
      this.x, this.y, this.z, roaming, staticPath, loopingPath := x, y, z, true, false, false;
    }
  }

  // A mob moves along its path only while it roams.
  predicate Walks(npc: Npc, simulateMobs: bool)
    reads npc`roaming
  {
    !npc.isMob || (simulateMobs && npc.roaming)
  }

  // What one step makes of a queue.
  ghost function After(q: seq<Vec3>, npc: Npc, simulateMobs: bool): seq<Vec3>
    requires |q| > 0
    reads npc`roaming, npc`loopingPath
  {
    if !Walks(npc, simulateMobs) then q else if npc.loopingPath then q[1..] + [q[0]] else q[1..]
  }

  lemma AfterIs(q: seq<Vec3>, npc: Npc, simulateMobs: bool)
    requires |q| > 0
    ensures Walks(npc, simulateMobs) <==> !npc.isMob || (simulateMobs && npc.roaming)
    ensures After(q, npc, simulateMobs) ==
              if Walks(npc, simulateMobs) then q[1..] + (if npc.loopingPath then [q[0]] else []) else q
  {
  }

  ghost function Position(npc: Npc): Vec3
    reads npc`x, npc`y, npc`z
  {
    Vec3(npc.x, npc.y, npc.z)
  }

  // No NPC is under two ids.
  ghost predicate Distinct(npcs: map<MobId, Npc>) {
    forall a, b | a in npcs && b in npcs && npcs[a] == npcs[b] :: a == b
  }

  lemma OthersDiffer(npcs: map<MobId, Npc>, id: MobId)
    requires Distinct(npcs)
    ensures id in npcs ==> forall k | k in npcs && k != id :: npcs[k] != npcs[id]
  {
  }

  // A mob on this circuit.
  predicate Circles(npc: Npc, circuit: seq<Vec3>)
    reads npc`staticPath, npc`loopingPath
  {
    && npc.isMob && npc.staticPath && npc.loopingPath
    && |circuit| > 0 && AtSpawn(circuit[0], npc.spawnX, npc.spawnY)
  }

  class System {
    var npcs: map<MobId, Npc>
    var NPCQueues: map<MobId, seq<Vec3>>
    // the circuits of the mobs with absolute looping paths
    ghost var circuits: map<MobId, seq<Vec3>>

    constructor (npcs: map<MobId, Npc>)
      requires Distinct(npcs)
      ensures Valid() && this.npcs == npcs && NPCQueues == map[] && circuits == map[]
    {
      this.npcs := npcs;
      NPCQueues := map[];
      circuits := map[];
    }

    /** Every mob on a circuit has a rotation of it in its queue, with its spawn point. */
    ghost predicate Valid()
      reads this, npcs.Values
    {
      && Distinct(npcs)
      && OnCourse(circuits, NPCQueues)
      && forall id | id in circuits :: id in npcs && Circles(npcs[id], circuits[id])
    }

    /** constructPathNPC, for an NPC with or without a path so far.  The server refuses to start unless
        the route of a mob begins at its spawn point; a path with a single point gives an empty queue. */
    method ConstructPathNPC(id: MobId, path: NPCPath, lerp: Lerp)
      requires Valid() && id in npcs && |path.points| > 0
      requires npcs[id].isMob ==> AtSpawn(path.points[0], npcs[id].spawnX, npcs[id].spawnY)
      modifies `NPCQueues, `circuits, {npcs[id]}`staticPath, {npcs[id]}`loopingPath
      ensures Valid()
      ensures var shift := if path.isRelative then Vec3(npcs[id].x, npcs[id].y, npcs[id].z) else Vec3(0, 0, 0);
              NPCQueues == old(NPCQueues)[id := Circuit(Placed(path.points, shift), 0, lerp)]
      ensures circuits == if npcs[id].isMob && path.isLoop && !path.isRelative && |path.points| >= 2
                          then old(circuits)[id := Circuit(path.points, 0, lerp)] else old(circuits) - {id}
      ensures npcs[id].loopingPath == path.isLoop && npcs[id].staticPath == (npcs[id].isMob || old(npcs[id].staticPath))
    {
      hide OnCourse, Placed, Circuit;
      var npc := npcs[id];
      if npc.isMob {
        npc.staticPath := true;
      }
      npc.loopingPath := path.isLoop;
      assert forall k | k in circuits && k != id :: Circles(npcs[k], circuits[k]);
      var shift := if path.isRelative then Vec3(npc.x, npc.y, npc.z) else Vec3(0, 0, 0);
      var points := BuildQueue(path.points, shift, lerp);
      OneMore(circuits, NPCQueues, id, points);
      NPCQueues := NPCQueues[id := points];
      if npc.isMob && path.isLoop && !path.isRelative && |path.points| >= 2 {
        PlacedAsIs(path.points);
        CircuitStarts(path.points, lerp);
        circuits := circuits[id := Circuit(path.points, 0, lerp)];
      } else {
        circuits := circuits - {id};
      }
    }

    // one entry of the loop of stepNPCPathing
    method WalkOn(id: MobId, simulateMobs: bool)
      requires id in NPCQueues
      modifies `NPCQueues, npcs.Values`x, npcs.Values`y, npcs.Values`z
      ensures id !in npcs || |old(NPCQueues)[id]| == 0 ==> NPCQueues == old(NPCQueues) - {id}
      ensures id in npcs && |old(NPCQueues)[id]| > 0 ==>
                NPCQueues == old(NPCQueues)[id := After(old(NPCQueues)[id], npcs[id], simulateMobs)]
      ensures id in npcs && |old(NPCQueues)[id]| > 0 && Walks(npcs[id], simulateMobs) ==>
                Position(npcs[id]) == old(NPCQueues)[id][0]
      ensures forall k | k in npcs
                && !(id in npcs && npcs[k] == npcs[id] && |old(NPCQueues)[id]| > 0 && Walks(npcs[k], simulateMobs)) ::
                Position(npcs[k]) == old(Position(npcs[k]))
    {
      var queue := NPCQueues[id];
      if id !in npcs || |queue| == 0 {
        NPCQueues := NPCQueues - {id};
        return;
      }
      var npc := npcs[id];
      if npc.isMob && !simulateMobs {
        return;
      }
      if npc.isMob && !npc.roaming {
        return;
      }
      var point := queue[0];
      queue := queue[1..];
      npc.x, npc.y, npc.z := point.x, point.y, point.z;
      if npc.loopingPath {
        queue := queue + [point];
      }
      NPCQueues := NPCQueues[id := queue];
    }

    // the loop of stepNPCPathing, in any order
    method WalkAll(simulateMobs: bool)
      requires Distinct(npcs)
      modifies `NPCQueues, npcs.Values`x, npcs.Values`y, npcs.Values`z
      ensures forall id :: id in NPCQueues <==> id in old(NPCQueues) && id in npcs && |old(NPCQueues)[id]| > 0
      ensures forall id | id in NPCQueues :: NPCQueues[id] == After(old(NPCQueues)[id], npcs[id], simulateMobs)
      ensures forall id | id in npcs :: Position(npcs[id]) ==
                if id in NPCQueues && Walks(npcs[id], simulateMobs) then old(NPCQueues)[id][0]
                else old(Position(npcs[id]))
    {
      hide Walks, Position, After, Distinct;
      ghost var queues := NPCQueues;
      var todo := NPCQueues.Keys;
      while todo != {}
        invariant todo <= queues.Keys
        invariant forall id | id in todo :: id in NPCQueues && NPCQueues[id] == queues[id]
        invariant forall id | id !in todo :: id in NPCQueues <==> id in queues && id in npcs && |queues[id]| > 0
        invariant forall id | id in NPCQueues && id !in todo ::
            NPCQueues[id] == After(queues[id], npcs[id], simulateMobs)
        invariant forall id | id in npcs :: Position(npcs[id]) ==
                    if id in NPCQueues && id !in todo && Walks(npcs[id], simulateMobs) then queues[id][0]
                    else old(Position(npcs[id]))
        decreases todo
      {
        var id :| id in todo;
        todo := todo - {id};
        OthersDiffer(npcs, id);
        WalkOn(id, simulateMobs);
      }
    }

    /** stepNPCPathing: dead and empty paths are dropped.  Of the others, mobs that are not simulated or do
        not roam stay where they are, and everybody else is put on the first point of its queue, which goes
        to the end of the queue if the path loops and out of it if not. */
    method StepNPCPathing(simulateMobs: bool)
      requires Valid()
      modifies `NPCQueues, npcs.Values`x, npcs.Values`y, npcs.Values`z
      ensures Valid()
      ensures forall id :: id in NPCQueues <==> id in old(NPCQueues) && id in npcs && |old(NPCQueues)[id]| > 0
      ensures forall id | id in NPCQueues :: var npc, q := npcs[id], old(NPCQueues)[id];
                if npc.isMob && !(simulateMobs && npc.roaming)
                then NPCQueues[id] == q && Position(npc) == old(Position(npc))
                else NPCQueues[id] == q[1..] + (if npc.loopingPath then [q[0]] else []) && Position(npc) == q[0]
      ensures forall id | id in npcs && id !in NPCQueues :: Position(npcs[id]) == old(Position(npcs[id]))
    {
      hide OnCourse, Walks, Position, After, Distinct;
      ghost var queues := NPCQueues;
      NoneEmpty(circuits, queues);
      WalkAll(simulateMobs);
      forall id | id in NPCQueues
        ensures Walks(npcs[id], simulateMobs) <==> !npcs[id].isMob || (simulateMobs && npcs[id].roaming)
        ensures Walks(npcs[id], simulateMobs) ==>
                  NPCQueues[id] == queues[id][1..] + (if npcs[id].loopingPath then [queues[id][0]] else [])
        ensures !Walks(npcs[id], simulateMobs) ==> NPCQueues[id] == queues[id]
      {
        AfterIs(queues[id], npcs[id], simulateMobs);
      }
      AllStepped(circuits, queues, NPCQueues);
    }

    /** Tick after tick, a mob that roams on a loop, or any other NPC on one, visits the points of its queue in
        order, round after round. */
    method Patrol(id: MobId, rounds: nat, i: nat)
      requires Valid() && id in npcs && id in NPCQueues && i < |NPCQueues[id]|
      requires npcs[id].loopingPath && (npcs[id].isMob ==> npcs[id].roaming)
      modifies `NPCQueues, npcs.Values`x, npcs.Values`y, npcs.Values`z
      ensures Valid() && id in NPCQueues && Position(npcs[id]) == old(NPCQueues)[id][i]
    {
      hide OnCourse, Valid;
      ghost var q := NPCQueues[id];
      var n := rounds * |NPCQueues[id]| + i + 1;
      for k := 0 to n
        invariant Valid() && id in NPCQueues && NPCQueues[id] == Wound(q, k)
        invariant k > 0 ==> Position(npcs[id]) == Wound(q, k - 1)[0]
      {
        StepNPCPathing(true);
        WoundMore(q, k);
      }
      FrontAfter(q, rounds, i);
    }

    // Death will find the spawn point in the queue of this mob, if it looks for it.
    ghost predicate Rewinds(id: MobId)
      requires id in npcs
      reads this, npcs.Values
    {
      npcs[id].staticPath && id in NPCQueues && |NPCQueues[id]| > 0 ==>
        exists p :: p in NPCQueues[id] && AtSpawn(p, npcs[id].spawnX, npcs[id].spawnY)
    }

    /** The end of onDeath: the queue of a mob on a preset path is rewound to its spawn point, that of
        any other mob is dropped.  It requires what RewindEnds shows the loop to need. */
    method OnDeath(id: MobId)
      requires Valid() && id in npcs && npcs[id].isMob && Rewinds(id)
      modifies `NPCQueues, {npcs[id]}`roaming
      ensures Valid() && !npcs[id].roaming
      ensures NPCQueues == if id !in old(NPCQueues) || |old(NPCQueues)[id]| == 0 then old(NPCQueues)
                           else if npcs[id].staticPath
                           then old(NPCQueues)[id := Turn(old(NPCQueues)[id],
                                  Find(old(NPCQueues)[id], npcs[id].spawnX, npcs[id].spawnY))]
                           else old(NPCQueues) - {id}
      ensures npcs[id].staticPath && id in NPCQueues && |NPCQueues[id]| > 0 ==>
                AtSpawn(NPCQueues[id][0], npcs[id].spawnX, npcs[id].spawnY)
    {
      hide OnCourse, Turn;
      var npc := npcs[id];
      npc.roaming := false;
      if id !in NPCQueues || |NPCQueues[id]| == 0 {
        return;
      }
      if npc.staticPath {
        var r := Rewind(NPCQueues[id], npc.spawnX, npc.spawnY);
        if id in circuits {
          RotationTurned(circuits, NPCQueues, id, Find(NPCQueues[id], npc.spawnX, npc.spawnY));
        }
        OneTurned(circuits, NPCQueues, id, r);
        NPCQueues := NPCQueues[id := r];
      } else {
        OneDropped(circuits, NPCQueues, id);
        NPCQueues := NPCQueues - {id};
      }
    }

    lemma CircuitRewinds(id: MobId)
      requires Valid() && id in circuits
      ensures Rewinds(id) && |NPCQueues[id]| > 0
    {
      RotationSize(circuits[id], NPCQueues[id]);
      HasSpawn(circuits[id], NPCQueues[id]);
    }

    // The mobs among the first `i` entries of a leader's list.
    ghost function Reached(members: seq<MobId>, i: nat): set<MobId>
      requires i <= |members|
      reads this
    {
      set k | k in Firsts(members, i) && k in npcs && npcs[k].isMob
    }

    /** The end of roamingStep: a mob without a preset path is given a queue, and so is every follower it
        can reach, on a preset path or not.  The circuits survive this exactly if no follower on a
        circuit is given anything but a rotation of it. */
    method LeaderWalk(id: MobId, queue: seq<Vec3>, members: seq<MobId>, walk: MobId -> seq<Vec3>)
      requires Valid() && id in npcs && npcs[id].isMob
      modifies `NPCQueues
      ensures NPCQueues == if npcs[id].staticPath then old(NPCQueues)
                           else Walked(old(NPCQueues), id, queue, Reached(members, |Listed(members)|), walk)
      ensures !npcs[id].staticPath ==>
                var given := set k | k in Listed(members) && k in npcs && npcs[k].isMob;
                && NPCQueues.Keys == old(NPCQueues).Keys + {id} + given
                && forall k | k in NPCQueues ::
                     NPCQueues[k] == if k in given then walk(k) else if k == id then queue else old(NPCQueues)[k]
      ensures Valid() <==> npcs[id].staticPath || Harmless(circuits, Reached(members, |Listed(members)|), walk)
    {
      hide OnCourse, Harmless, Walked, Listed;
      if npcs[id].staticPath {
        return;
      }
      NPCQueues := NPCQueues[id := queue];
      NoneWalked(old(NPCQueues), id, queue, walk);
      assert Reached(members, 0) == {};
      var i := 0;
      while i < |members| && members[i] != NONE
        invariant 0 <= i <= |members| && forall j | 0 <= j < i :: members[j] != NONE
        invariant NPCQueues == Walked(old(NPCQueues), id, queue, Reached(members, i), walk)
      {
        var k := members[i];
        FirstsStep(members, i);
        WalkedMore(old(NPCQueues), id, queue, Reached(members, i), walk, k);
        if k in npcs && npcs[k].isMob {
          NPCQueues := NPCQueues[k := walk(k)];
          assert Reached(members, i + 1) == Reached(members, i) + {k};
        } else {
          assert Reached(members, i + 1) == Reached(members, i);
        }
        i := i + 1;
      }
      FirstsAreListed(members, i);
      assert Reached(members, i) == set k | k in Listed(members) && k in npcs && npcs[k].isMob;
      WalkedIs(old(NPCQueues), id, queue, Reached(members, i), walk);
      WalkedIff(circuits, old(NPCQueues), id, queue, Reached(members, i), walk);
    }

    method Respawn(id: MobId)
      requires Valid() && id in npcs
      modifies {npcs[id]}`roaming
      ensures Valid() && npcs[id].roaming
    {
      npcs[id].roaming := true;
    }
  }

  // ---- a circuit lost

  const GUIDE := MobId(1)
  const ESCORT := MobId(2)
  const FOLLOWERS := [ESCORT, NONE, NONE, NONE]

  lemma NoRotation(s: seq<Vec3>, p: Vec3)
    requires |s| > 0 && p != s[0]
    ensures !IsRotation(s, [p])
  {
    if IsRotation(s, [p]) {
      HasSpawn(s, [p]);
    }
  }

  /** An instance: a follower is put on a circuit, as at the start of an escort mission, and its leader's
      walk gives it a queue without its spawn point; rewinding that queue would never end. */
  method LostCircuit() returns (sys: System)
    ensures ESCORT in sys.npcs && sys.npcs[ESCORT].isMob && sys.npcs[ESCORT].staticPath && ESCORT in sys.circuits
    ensures !sys.Valid() && ESCORT in sys.NPCQueues && |sys.NPCQueues[ESCORT]| > 0 && !sys.Rewinds(ESCORT)
    ensures forall n: nat ::
              !AtSpawn(Wound(sys.NPCQueues[ESCORT], n)[0], sys.npcs[ESCORT].spawnX, sys.npcs[ESCORT].spawnY)
  {
    hide IsRotation, Circuit, Walked, Find, Wound, Harmless, OnCourse;
    var guide := new Npc(true, 50, 50, 0);
    var escort := new Npc(true, 0, 0, 0);
    sys := new System(map[GUIDE := guide, ESCORT := escort]);
    var straight: Lerp := (_, _) => [];
    var path := NPCPath([Vec3(0, 0, 0), Vec3(100, 0, 0)], false, true);
    sys.ConstructPathNPC(ESCORT, path, straight);
    CircuitStarts(path.points, straight);
    var stroll: MobId -> seq<Vec3> := _ => [Vec3(10, 0, 0)];
    ghost var was := sys.NPCQueues;
    sys.LeaderWalk(GUIDE, [Vec3(60, 50, 0)], FOLLOWERS, stroll);
    EscortReached(sys);
    WalkedAt(was, GUIDE, [Vec3(60, 50, 0)], sys.Reached(FOLLOWERS, |Listed(FOLLOWERS)|), stroll, ESCORT);
    NoRotation(sys.circuits[ESCORT], Vec3(10, 0, 0));
    OffCourse(sys.circuits, sys.NPCQueues, ESCORT);
    NeverEnds(Vec3(10, 0, 0), 0, 0);
  }

  lemma EscortReached(sys: System)
    requires ESCORT in sys.npcs && sys.npcs[ESCORT].isMob
    ensures ESCORT in sys.Reached(FOLLOWERS, |Listed(FOLLOWERS)|)
  {
    FirstsAreListed(FOLLOWERS, 1);
    assert FOLLOWERS[..1] == [ESCORT];
  }

  lemma WalkedAt(queues: map<MobId, seq<Vec3>>, id: MobId, queue: seq<Vec3>, ks: set<MobId>,
                 walk: MobId -> seq<Vec3>, k: MobId)
    requires k in ks
    ensures k in Walked(queues, id, queue, ks, walk) && Walked(queues, id, queue, ks, walk)[k] == walk(k)
  {
  }

  lemma OffCourse(circuits: map<MobId, seq<Vec3>>, queues: map<MobId, seq<Vec3>>, id: MobId)
    requires id in circuits && id in queues && !IsRotation(circuits[id], queues[id])
    ensures !OnCourse(circuits, queues)
  {
  }

  lemma NeverEnds(p: Vec3, spawnX: int, spawnY: int)
    requires !AtSpawn(p, spawnX, spawnY)
    ensures forall n: nat :: !AtSpawn(Wound([p], n)[0], spawnX, spawnY)
  {
    RewindEnds([p], spawnX, spawnY);
  }

  // ---- runs

  datatype Event =
    | Construct(id: MobId, path: NPCPath)
    | Tick(simulateMobs: bool)
    | Die(id: MobId)
    | Revive(id: MobId)
    | Walk(id: MobId, queue: seq<Vec3>, members: seq<MobId>, walk: MobId -> seq<Vec3>)

  // A mob on a preset path is on a circuit or has nothing to walk.
  ghost predicate Steady(sys: System)
    reads sys, sys.npcs.Values
  {
    sys.Valid() && forall id | id in sys.npcs && sys.npcs[id].isMob && sys.npcs[id].staticPath ::
      id in sys.circuits || id !in sys.NPCQueues || |sys.NPCQueues[id]| == 0
  }

  // Mobs are put on absolute loops that begin at their spawn points; other NPCs on any path.
  predicate Suits(npc: Npc, path: NPCPath) {
    && |path.points| > 0
    && (npc.isMob ==> path.isLoop && !path.isRelative && AtSpawn(path.points[0], npc.spawnX, npc.spawnY))
  }

  // What there is to see of a system.
  datatype View = View(queues: map<MobId, seq<Vec3>>, at: map<MobId, Vec3>, roaming: set<MobId>,
                       looping: set<MobId>, preset: set<MobId>)

  ghost function Positions(npcs: map<MobId, Npc>): map<MobId, Vec3>
    reads npcs.Values`x, npcs.Values`y, npcs.Values`z
  {
    map id | id in npcs :: Position(npcs[id])
  }

  lemma PositionAt(npcs: map<MobId, Npc>, id: MobId)
    requires id in npcs
    ensures id in Positions(npcs) && Positions(npcs)[id] == Vec3(npcs[id].x, npcs[id].y, npcs[id].z)
  {
  }

  ghost function Roaming(npcs: map<MobId, Npc>): set<MobId>
    reads npcs.Values`roaming
  {
    set id | id in npcs && npcs[id].roaming
  }

  ghost function Looping(npcs: map<MobId, Npc>): set<MobId>
    reads npcs.Values`loopingPath
  {
    set id | id in npcs && npcs[id].loopingPath
  }

  ghost function Preset(npcs: map<MobId, Npc>): set<MobId>
    reads npcs.Values`staticPath
  {
    set id | id in npcs && npcs[id].staticPath
  }

  ghost function ViewOf(sys: System): View
    reads sys, sys.npcs.Values
  {
    View(sys.NPCQueues, Positions(sys.npcs), Roaming(sys.npcs), Looping(sys.npcs), Preset(sys.npcs))
  }

  ghost predicate Constructs(npcs: map<MobId, Npc>, u: View, id: MobId, path: NPCPath, lerp: Lerp, v: View) {
    if id !in npcs || id !in u.at || !Suits(npcs[id], path) then v == u
    else
      var shift := if path.isRelative then u.at[id] else Vec3(0, 0, 0);
      v == u.(queues := u.queues[id := Circuit(Placed(path.points, shift), 0, lerp)],
              looping := if path.isLoop then u.looping + {id} else u.looping - {id},
              preset := if npcs[id].isMob then u.preset + {id} else u.preset)
  }

  ghost predicate Ticks(npcs: map<MobId, Npc>, u: View, simulateMobs: bool, v: View) {
    && v.roaming == u.roaming && v.looping == u.looping && v.preset == u.preset && v.at.Keys == u.at.Keys
    && (forall id :: id in v.queues <==> id in u.queues && id in npcs && |u.queues[id]| > 0)
    && (forall id | id in v.queues && id in v.at :: var q := u.queues[id];
      if npcs[id].isMob && !(simulateMobs && id in u.roaming) then v.queues[id] == q && v.at[id] == u.at[id]
      else v.queues[id] == q[1..] + (if id in u.looping then [q[0]] else []) && v.at[id] == q[0])
    && forall id | id in v.at && id !in v.queues :: v.at[id] == u.at[id]
  }

  // The queue of a mob on a preset path is turned until its spawn point is in front for the first time.
  ghost predicate Dies(npcs: map<MobId, Npc>, u: View, id: MobId, v: View) {
    if id !in npcs || !npcs[id].isMob then v == u
    else
      && v == u.(roaming := u.roaming - {id}, queues := v.queues)
      && if id !in u.queues || |u.queues[id]| == 0 then v.queues == u.queues
         else if id !in u.preset then v.queues == u.queues - {id}
         else exists k :: Rewound(npcs[id], u.queues[id], k) && v.queues == u.queues[id := Turn(u.queues[id], k)]
  }

  ghost predicate Rewound(npc: Npc, q: seq<Vec3>, k: nat) {
    k < |q| && AtSpawn(q[k], npc.spawnX, npc.spawnY) && forall j | 0 <= j < k :: !AtSpawn(q[j], npc.spawnX, npc.spawnY)
  }

  // No walk that would take a circuit away is part of these runs.
  ghost predicate Strolls(npcs: map<MobId, Npc>, u: View, id: MobId, queue: seq<Vec3>, members: seq<MobId>,
                          walk: MobId -> seq<Vec3>, v: View) {
    if id !in npcs || !npcs[id].isMob || id in u.preset
       || exists k :: k in Listed(members) && k in u.preset then v == u
    else
      var given := set k | k in Listed(members) && k in npcs && npcs[k].isMob;
      && v == u.(queues := v.queues) && v.queues.Keys == u.queues.Keys + {id} + given
      && forall k | k in v.queues ::
        v.queues[k] == if k in given then walk(k) else if k == id then queue else u.queues[k]
  }

  ghost predicate Does(npcs: map<MobId, Npc>, u: View, e: Event, lerp: Lerp, v: View) {
    match e
    case Construct(id, path) => Constructs(npcs, u, id, path, lerp, v)
    case Tick(simulateMobs) => Ticks(npcs, u, simulateMobs, v)
    case Die(id) => Dies(npcs, u, id, v)
    case Revive(id) => v == u.(roaming := if id in npcs then u.roaming + {id} else u.roaming)
    case Walk(id, queue, members, walk) => Strolls(npcs, u, id, queue, members, walk, v)
  }

  method Constructing(sys: System, id: MobId, path: NPCPath, lerp: Lerp)
    requires Steady(sys)
    modifies sys, sys.npcs.Values
    ensures Steady(sys) && sys.npcs == old(sys.npcs)
    ensures Constructs(sys.npcs, old(ViewOf(sys)), id, path, lerp, ViewOf(sys))
  {
    hide IsRotation, Circuit, Turn, Placed, Positions, Roaming, OnCourse, Circles, Distinct, Position;
    if id in sys.npcs && Suits(sys.npcs[id], path) {
      OthersDiffer(sys.npcs, id);
      PositionAt(sys.npcs, id);
      sys.ConstructPathNPC(id, path, lerp);
      if |path.points| == 1 {
        PlacedAsIs(path.points);
        OnePoint(path.points, lerp);
      }
    }
  }

  method Ticking(sys: System, simulateMobs: bool)
    requires Steady(sys)
    modifies sys, sys.npcs.Values
    ensures Steady(sys) && sys.npcs == old(sys.npcs)
    ensures Ticks(sys.npcs, old(ViewOf(sys)), simulateMobs, ViewOf(sys))
  {
    hide IsRotation, Circuit, Turn, Position, Preset, OnCourse, Circles, Distinct;
    sys.StepNPCPathing(simulateMobs);
  }

  method Dying(sys: System, id: MobId)
    requires Steady(sys)
    modifies sys, sys.npcs.Values
    ensures Steady(sys) && sys.npcs == old(sys.npcs)
    ensures Dies(sys.npcs, old(ViewOf(sys)), id, ViewOf(sys))
  {
    hide IsRotation, Circuit, Turn, Positions, Looping;
    if id in sys.npcs && sys.npcs[id].isMob {
      OthersDiffer(sys.npcs, id);
      if id in sys.circuits {
        sys.CircuitRewinds(id);
      }
      sys.OnDeath(id);
    }
  }

  method Reviving(sys: System, id: MobId)
    requires Steady(sys)
    modifies sys, sys.npcs.Values
    ensures Steady(sys) && sys.npcs == old(sys.npcs)
    ensures ViewOf(sys) == old(ViewOf(sys)).(roaming := if id in sys.npcs then old(ViewOf(sys)).roaming + {id}
                                                        else old(ViewOf(sys)).roaming)
  {
    hide IsRotation, Circuit, Turn, Positions, Looping, Preset;
    if id in sys.npcs {
      OthersDiffer(sys.npcs, id);
      sys.Respawn(id);
    }
  }

  method Strolling(sys: System, id: MobId, queue: seq<Vec3>, members: seq<MobId>, walk: MobId -> seq<Vec3>)
    requires Steady(sys)
    modifies sys, sys.npcs.Values
    ensures Steady(sys) && sys.npcs == old(sys.npcs)
    ensures Strolls(sys.npcs, old(ViewOf(sys)), id, queue, members, walk, ViewOf(sys))
  {
    hide IsRotation, Circuit, Turn, Positions, Roaming, Looping;
    if id in sys.npcs && sys.npcs[id].isMob
       && forall k | k in Listed(members) && k in sys.npcs :: !sys.npcs[k].staticPath {
      ListedFirsts(members);
      sys.LeaderWalk(id, queue, members, walk);
    }
  }

  method Serve(sys: System, e: Event, lerp: Lerp)
    requires Steady(sys)
    modifies sys, sys.npcs.Values
    ensures Steady(sys) && sys.npcs == old(sys.npcs)
    ensures Does(sys.npcs, old(ViewOf(sys)), e, lerp, ViewOf(sys))
  {
    hide Steady, Constructs, Ticks, Dies, Strolls, Positions, Roaming, Looping, Preset;
    match e
    case Construct(id, path) => Constructing(sys, id, path, lerp);
    case Tick(simulateMobs) => Ticking(sys, simulateMobs);
    case Die(id) => Dying(sys, id);
    case Revive(id) => Reviving(sys, id);
    case Walk(id, queue, members, walk) => Strolling(sys, id, queue, members, walk);
  }

  lemma OnePoint(points: seq<Vec3>, lerp: Lerp)
    requires |points| == 1
    ensures Circuit(points, 0, lerp) == []
  {
  }

  lemma ListedFirsts(members: seq<MobId>)
    ensures |Listed(members)| <= |members|
    ensures forall k :: k in Firsts(members, |Listed(members)|) ==> k in Listed(members)
  {
    ListedIsPrefix(members);
  }

  lemma {:induction false} ListedIsPrefix(members: seq<MobId>)
    ensures Listed(members) <= members
  {
    if |members| > 0 && members[0] != NONE {
      ListedIsPrefix(members[1..]);
      assert members == [members[0]] + members[1..];
    }
  }

  /** Over every run of path assignments, path steps, deaths, respawns and walks that take no circuit
      away, the queue of every mob on a circuit is a rotation of it, and every mob on a preset path can
      be rewound when it dies. */
  method Run(npcs: map<MobId, Npc>, events: seq<Event>, lerp: Lerp) returns (sys: System, ghost views: seq<View>)
    requires Distinct(npcs)
    requires forall id | id in npcs :: !npcs[id].staticPath
    modifies npcs.Values
    ensures fresh(sys) && sys.npcs == npcs && sys.Valid()
    ensures forall id | id in npcs && npcs[id].isMob :: sys.Rewinds(id)
    ensures forall id | id in sys.circuits :: id in sys.NPCQueues && IsRotation(sys.circuits[id], sys.NPCQueues[id])
    ensures |views| == |events| + 1 && views[0].queues == map[] && views[|events|] == ViewOf(sys)
    ensures forall i | 0 <= i < |events| :: var j := i + 1; Does(npcs, views[i], events[i], lerp, views[j])
  {
    hide IsRotation, Does;
    sys := new System(npcs);
    views := [ViewOf(sys)];
    for i := 0 to |events|
      invariant fresh(sys) && sys.npcs == npcs && Steady(sys)
      invariant |views| == i + 1 && views[0].queues == map[] && views[i] == ViewOf(sys)
      invariant forall k | 0 <= k < i :: var j := k + 1; Does(npcs, views[k], events[k], lerp, views[j])
    {
      Serve(sys, events[i], lerp);
      views := views + [ViewOf(sys)];
    }
    forall id | id in npcs && npcs[id].isMob
      ensures sys.Rewinds(id)
    {
      if id in sys.circuits {
        sys.CircuitRewinds(id);
      }
    }
  }
}
