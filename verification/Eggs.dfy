/** Picking eggs up and letting them grow back. */
module Eggs {
  import opened ChunkViews
  import opened ChunkLedger
  import opened Chunking
  import opened NPCManager
  import opened Instances

  // What can change of an egg.
  function Shell(egg: Entity): (bool, int, int)
    reads egg`dead, egg`deadUntil, egg`hp
  {
    (egg.dead, egg.deadUntil, egg.hp)
  }

  function JustThat(w: World, ref: EntityRef): set<Entity>
    reads w`entities
  {
    if ref in w.entities then {w.entities[ref]} else {}
  }

  /** The end of eggPickup: a summoned egg is destroyed, any other egg stays where it is but
      is not seen by anyone until it grows back; a dead or unknown egg is left alone. */
  method EggPickup(w: World, egg: EntityRef, regen: int, now: int)
    requires w.Valid() && AtRest(w.pos)
    modifies w`entities, w`pos, w`ext, w`chunks, w`contents, w`tallies, w`caches, w`clients, w`counts, w`homes
    modifies w.chunks.Values
    modifies w.entities.Values`viewableChunks, w.entities.Values`playersInView, w.entities.Values`known
    modifies JustThat(w, egg)`dead, JustThat(w, egg)`deadUntil, JustThat(w, egg)`hp
    ensures w.Valid() && AtRest(w.pos)
    ensures (egg in old(w.ext) && egg.kind.Egg? && old(egg in w.entities && w.entities[egg].summoned)
             && egg in old(w.pos)) ==>
              && w.pos == old(w.pos) - {egg} && w.ext == old(w.ext) - {egg} && w.entities == old(w.entities) - {egg}
    ensures egg in old(w.ext) && egg.kind.Egg? && !old(egg in w.entities && w.entities[egg].summoned) ==>
              && w.pos == old(w.pos) && w.ext == old(w.ext) - {egg} && w.entities == old(w.entities)
              && egg in w.entities && Shell(w.entities[egg]) == (true, now + regen * 1000, 0)
    ensures (egg !in old(w.ext) || !egg.kind.Egg?
             || (old(egg in w.entities && w.entities[egg].summoned) && egg !in old(w.pos))) ==>
              w.pos == old(w.pos) && w.ext == old(w.ext) && w.entities == old(w.entities)
    ensures w.chunks.Values <= old(w.chunks.Values)
  {
    hide World.Valid;
    w.ExtOf(egg);
    if egg !in w.entities || !egg.kind.Egg? {
      return;
    }
    if w.entities[egg].dead {
      return;
    }
    if w.entities[egg].summoned {
      DestroyNPC(w, egg);
    } else {
      HideEgg(w, egg, now + regen * 1000);
    }
  }

  method HideEgg(w: World, egg: EntityRef, deadUntil: int)
    requires w.Valid() && AtRest(w.pos) && egg in w.entities && egg.kind.Egg?
    modifies w`ext, w`clients, w`counts, w.entities.Values`known, w.entities.Values`playersInView
    modifies {w.entities[egg]}`dead, {w.entities[egg]}`deadUntil, {w.entities[egg]}`hp
    ensures w.Valid() && w.pos == old(w.pos) && w.entities == old(w.entities) && w.chunks == old(w.chunks)
    ensures w.ext == old(w.ext) - {egg} && Shell(w.entities[egg]) == (true, deadUntil, 0)
  {
    hide IndexHolds, CachesHold, ClientsHold, CountsHold, HomesHold, Parted, Lowered, Acquainted, Around, ViewOf,
      HomeOf, MembersIn, Injective, World.MirrorChunks, World.MirrorRefs, World.MirrorCaches, World.MirrorCounts,
          World.MirrorClients, World.MirrorHomes, World.MirrorExt;
    HomeKnown(w, egg);
    var home := w.entities[egg].chunkPos;
    ghost var others := Around(w.pos, home) - {egg};
    assert w.pos.Keys <= w.clients.Keys && egg in w.clients by { w.KeysAgree(); }
    var chnks := w.GetViewableChunks(home);
    assert w.Members(chnks) - {egg} == others by {
      w.KeysAgree();
      MembersOfView(w.chunks, w.contents, w.tallies, w.pos, {}, home);
    }
    HideClients(w.clients, w.counts, w.pos, egg, home, w.ext);
    w.RemoveEntityFromChunks(chnks, egg);
    w.SetDead(egg, true, deadUntil, 0);
    w.IsValid();
  }

  method ShowEgg(w: World, egg: EntityRef)
    requires w.Valid() && AtRest(w.pos) && egg in w.entities && egg.kind.Egg? && egg !in w.ext
    modifies w`ext, w`clients, w`counts, w.entities.Values`known, w.entities.Values`playersInView
    modifies {w.entities[egg]}`dead, {w.entities[egg]}`deadUntil, {w.entities[egg]}`hp
    ensures w.Valid() && w.ext == old(w.ext) + {egg}
    ensures !w.entities[egg].dead && w.entities[egg].deadUntil == 0 && w.entities[egg].hp == 400
  {
    hide IndexHolds, CachesHold, ClientsHold, CountsHold, HomesHold, Met, Raised, Strangers, Around, ViewOf, HomeOf,
      MembersIn, Injective, World.MirrorChunks, World.MirrorRefs, World.MirrorCaches, World.MirrorCounts,
          World.MirrorClients, World.MirrorHomes, World.MirrorExt;
    HomeKnown(w, egg);
    var home := w.entities[egg].chunkPos;
    ghost var others := Around(w.pos, home) - {egg};
    assert w.pos.Keys <= w.clients.Keys && egg in w.clients by { w.KeysAgree(); }
    ShowClients(w.clients, w.counts, w.pos, egg, home, w.ext);
    w.SetDead(egg, false, 0, 400);
    var chnks := w.GetViewableChunks(home);
    assert w.Members(chnks) - {egg} == others by {
      w.KeysAgree();
      MembersOfView(w.chunks, w.contents, w.tallies, w.pos, {}, home);
    }
    w.AddEntityToChunks(chnks, egg);
    w.IsValid();
  }

  predicate Populated(chnks: set<Chunk>)
    reads chnks`nplayers
  {
    exists c | c in chnks :: c.nplayers > 0
  }

  method InPopulatedChunks(chnks: set<Chunk>) returns (b: bool)
    ensures b <==> Populated(chnks)
  {
    var todo := chnks;
    while todo != {}
      invariant todo <= chnks && forall c | c in chnks - todo :: c.nplayers <= 0
      decreases todo
    {
      var c :| c in todo;
      if c.nplayers > 0 {
        return true;
      }
      todo := todo - {c};
    }
    b := false;
  }

  /** The chunks that an entity can see are populated if and only if a player is near it. */
  lemma PopulatedView(w: World, home: ChunkPos)
    requires w.Valid()
    ensures Populated(ViewOf(w.chunks, home)) <==> Players(Around(w.pos, home)) != {}
  {
    hide World.Valid, Players, Around, At;
    if c :| c in ViewOf(w.chunks, home) && c.nplayers > 0 {
      var p :| p in w.chunks && Near(p, home) && w.chunks[p] == c;
      Tally(w, p);
      PlayersNearby(w.pos, p, home);
    }
    if r :| r in Players(Around(w.pos, home)) {
      PlayerHere(w, r, home);
    }
  }

  lemma Tally(w: World, p: ChunkPos)
    requires w.Valid() && p in w.chunks
    ensures w.chunks[p].nplayers > 0 <==> Players(At(w.pos, p)) != {}
  {
  }

  lemma PlayersNearby(pos: Placement, p: ChunkPos, home: ChunkPos)
    requires Near(p, home) && Players(At(pos, p)) != {}
    ensures Players(Around(pos, home)) != {}
  {
  }

  lemma PlayerHere(w: World, r: EntityRef, home: ChunkPos)
    requires w.Valid() && r in Players(Around(w.pos, home))
    ensures Populated(ViewOf(w.chunks, home))
  {
    hide World.Valid;
    PlacedInChunks(w);
    var p := w.pos[r];
    assert r in Players(At(w.pos, p)) && w.chunks[p] in ViewOf(w.chunks, home);
    Tally(w, p);
  }

  // A dead egg whose time has come, with a player in one of the chunks it knows of.
  ghost predicate Ripe(egg: Entity, now: int)
    reads egg`dead, egg`deadUntil, egg`viewableChunks, egg.viewableChunks`nplayers
  {
    egg.ref.kind.Egg? && egg.dead && egg.deadUntil <= now && Populated(egg.viewableChunks)
  }

  /** An egg that is in the index is ripe when it is dead, its time has come and a player is near enough
      to see it. */
  lemma RipeIsDue(w: World, now: int, e: EntityRef)
    requires w.Valid() && e in w.pos
    ensures e in w.entities && (Ripe(w.entities[e], now) <==>
              && e.kind.Egg? && e !in w.ext && w.entities[e].deadUntil <= now
              && Players(Around(w.pos, w.pos[e])) != {})
  {
    hide World.Valid, Populated, Players, Around;
    CacheOf(w, e);
    w.ExtOf(e);
    PopulatedView(w, w.pos[e]);
  }

  // the body of eggStep's loop
  method OneEgg(w: World, now: int, e: EntityRef)
    requires w.Valid() && AtRest(w.pos) && e in w.entities
    modifies w`ext, w`clients, w`counts, w.entities.Values`known, w.entities.Values`playersInView
    modifies {w.entities[e]}`dead, {w.entities[e]}`deadUntil, {w.entities[e]}`hp
    ensures w.Valid()
    ensures w.ext == if old(Ripe(w.entities[e], now)) then old(w.ext) + {e} else old(w.ext)
    ensures Shell(w.entities[e]) == if old(Ripe(w.entities[e], now)) then (false, 0, 400) else old(Shell(w.entities[e]))
  {
    hide World.Valid, Populated;
    w.ExtOf(e);
    if e.kind.Egg? && w.entities[e].dead {
      var populated := InPopulatedChunks(w.entities[e].viewableChunks);
      if populated && w.entities[e].deadUntil <= now {
        ShowEgg(w, e);
      }
    }
  }

  /** eggStep: exactly the ripe eggs come back, with full health. */
  method EggStep(w: World, now: int)
    requires w.Valid() && AtRest(w.pos)
    modifies w`ext, w`clients, w`counts, w.entities.Values`known, w.entities.Values`playersInView
    modifies w.entities.Values`dead, w.entities.Values`deadUntil, w.entities.Values`hp
    ensures w.Valid()
    ensures w.ext == old(w.ext) + set e | e in w.entities && old(Ripe(w.entities[e], now))
    ensures forall e | e in w.entities ::
              Shell(w.entities[e]) == if old(Ripe(w.entities[e], now)) then (false, 0, 400)
                                      else old(Shell(w.entities[e]))
  {
    hide World.Valid, Ripe, Shell, AtRest;
    var todo := w.entities.Keys;
    ghost var ripe := set e | e in w.entities && Ripe(w.entities[e], now);
    Named(w);
    while todo != {}
      invariant todo <= w.entities.Keys && w.Valid()
      invariant forall e | e in todo :: Shell(w.entities[e]) == old(Shell(w.entities[e]))
      invariant forall e | e in todo :: Ripe(w.entities[e], now) == old(Ripe(w.entities[e], now))
      invariant forall e | e in w.entities && e !in todo ::
                  Shell(w.entities[e]) == if e in ripe then (false, 0, 400) else old(Shell(w.entities[e]))
      invariant w.ext == old(w.ext) + (ripe - todo)
      decreases todo
    {
      var e :| e in todo;
      OneEgg(w, now, e);
      todo := todo - {e};
    }
  }

  lemma Named(w: World)
    requires w.Valid()
    ensures forall r, q | r in w.entities && q in w.entities && r != q :: w.entities[r] != w.entities[q]
  {
    w.ExtOf(EntityRef(Egg, 0));
  }

  lemma CacheOf(w: World, e: EntityRef)
    requires w.Valid() && e in w.pos
    ensures e in w.entities && w.entities[e].viewableChunks == ViewOf(w.chunks, w.pos[e])
  {
  }
}
