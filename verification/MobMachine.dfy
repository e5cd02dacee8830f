/** The mob state machine as functions on the state of all mobs, and what its steps keep. */
module MobMachine {
  import opened Ids
  import opened MobGroups

  datatype AIState = INACTIVE | ROAMING | COMBAT | RETREAT | DEAD

  // The player a mob fights; Nobody is the null pointer.
  datatype Target = Nobody | Someone(player: PlayerID)

  datatype Mind = Mind(state: AIState, target: Target, hp: int, maxHealth: int, skillStyle: int,
                       groupLeader: MobId, groupMember: seq<MobId>,
                       nextAttack: int, killedTime: int, despawned: bool, regenTime: int, summoned: bool)

  type Minds = map<MobId, Mind>

  // ---- transition handlers

  function Roamed(m: Mind): Mind {
    m.(state := ROAMING, hp := m.maxHealth, killedTime := 0, nextAttack := 0, skillStyle := -1)
  }

  function Engaged(m: Mind, p: PlayerID): Mind {
    m.(state := COMBAT, target := Someone(p), nextAttack := 0)
  }

  function Retreated(m: Mind): Mind {
    m.(state := RETREAT, target := Nobody, skillStyle := -1)
  }

  function Died(m: Mind, now: int): Mind {
    m.(state := DEAD, target := Nobody, skillStyle := -1, killedTime := now, despawned := false)
  }

  // ---- groups

  // Those that a leader can reach, itself among them.
  function Roster(ms: Minds, leader: MobId): set<MobId>
    requires leader in ms
  {
    {leader} + set k | k in Listed(ms[leader].groupMember)
  }

  function EngageSet(ms: Minds, ks: set<MobId>, p: PlayerID): Minds {
    map k | k in ms :: if k in ks && ms[k].state.ROAMING? then Engaged(ms[k], p) else ms[k]
  }

  function RetreatSet(ms: Minds, ks: set<MobId>): Minds {
    map k | k in ms :: if k in ks && ms[k].state.COMBAT? then Retreated(ms[k]) else ms[k]
  }

  // followToCombat
  function Follow(ms: Minds, id: MobId): Minds
    requires id in ms && ms[id].target.Someone?
  {
    var leader := ms[id].groupLeader;
    if leader !in ms then ms else EngageSet(ms, Roster(ms, leader), ms[id].target.player)
  }

  // groupRetreat
  function GroupRetreat(ms: Minds, id: MobId): Minds
    requires id in ms
  {
    var leader := ms[id].groupLeader;
    if leader !in ms then ms else RetreatSet(ms, Roster(ms, leader))
  }

  // A mob found a player: it engages, and its group with it.
  function Engage(ms: Minds, id: MobId, p: PlayerID): Minds
    requires id in ms
  {
    var engaged := ms[id := Engaged(ms[id], p)];
    if ms[id].groupLeader != NONE then Follow(engaged, id) else engaged
  }

  // the transition to RETREAT
  function Withdraw(ms: Minds, id: MobId): Minds
    requires id in ms
  {
    var gone := ms[id := Retreated(ms[id])];
    if ms[id].groupLeader != NONE then GroupRetreat(gone, id) else gone
  }

  // ---- damage

  function Hurt(m: Mind, amt: int, now: int): Mind {
    var dmg := if m.hp - amt < 0 then m.hp else amt;
    var hurt := m.(hp := m.hp - dmg);
    if hurt.hp <= 0 then Died(hurt, now) else hurt
  }

  function Healed(m: Mind, amt: int): Mind {
    m.(hp := m.hp + if m.hp + amt > m.maxHealth then m.maxHealth - m.hp else amt)
  }

  // Mob::takeDamage; only a player can hit a roaming mob.
  function TakeDamage(ms: Minds, id: MobId, src: Target, amt: int, now: int): (r: Minds)
    requires id in ms && (ms[id].state.ROAMING? ==> src.Someone?)
    ensures r.Keys == ms.Keys
  {
    var m := ms[id];
    if !(m.state.ROAMING? || m.state.COMBAT?) || m.skillStyle >= 0 then ms
    else
      var ms1 := if m.state.ROAMING? then Engage(ms, id, src.player) else ms;
      ms1[id := Hurt(ms1[id], amt, now)]
  }

  // ---- steps; what is random or depends on distances is chosen from outside

  // aggroCheck: `found` is the closest player in range, if any
  function AggroCheck(ms: Minds, id: MobId, found: Target): Minds
    requires id in ms
  {
    if found.Someone? then Engage(ms, id, found.player) else ms
  }

  // if (!aggroCheck(mob)) mob->transition(RETREAT)
  function LoseAggro(ms: Minds, id: MobId, found: Target): Minds
    requires id in ms
  {
    if found.Someone? then Engage(ms, id, found.player) else Withdraw(ms, id)
  }

  function RoamingStep(ms: Minds, id: MobId, currTime: int, found: Target): Minds
    requires id in ms
  {
    var m := ms[id];
    if !m.state.DEAD? && (m.nextAttack == 0 || currTime >= m.nextAttack)
    then AggroCheck(ms[id := m.(nextAttack := currTime + 500)], id, found)
    else ms
  }

  function RetreatStep(ms: Minds, id: MobId, arrived: bool): Minds
    requires id in ms
  {
    if arrived then ms[id := Roamed(ms[id])] else ms
  }

  function DeadStep(ms: Minds, id: MobId, currTime: int): Minds
    requires id in ms
  {
    var m := ms[id];
    var fades := m.killedTime != 0 && !m.despawned && currTime - m.killedTime > 2000;
    var m1 := if fades then m.(despawned := true) else m;
    if (fades && m.summoned) || !m1.despawned || (m1.killedTime != 0 && currTime - m1.killedTime < m1.regenTime * 100)
    then ms[id := m1]
    else ms[id := Roamed(m1)]
  }

  // What the dice and the players do in one combat step.
  datatype Luck = Luck(
    lost: bool,           // the target left, died or became invulnerable
    drains: seq<nat>,     // damage from the mob's buffs, in the order they tick
    stunned: bool,
    casts: bool,          // an ability is used
    style: int,           // what skillStyle an ability that winds up takes: -1 for none
    active: bool,         // an active skill is used instead
    reflected: nat,       // damage that a lost corruption throws back
    corrupted: bool,      // a corruption kills the target
    attacks: bool, delay: int, kills: bool,
    outOfRange: bool,
    found: Target, foundNext: Target)  // results of the checks for another player

  // The buffs tick until the mob's state changes.
  function Drain(ms: Minds, id: MobId, src: Target, drains: seq<nat>, now: int): (r: Minds)
    requires id in ms
    ensures r.Keys == ms.Keys
    decreases |drains|
  {
    if |drains| == 0 || !ms[id].state.COMBAT? then ms
    else Drain(TakeDamage(ms, id, src, drains[0], now), id, src, drains[1..], now)
  }

  // What useAbilities does to the mob itself.
  function Wound(m: Mind, now: int, luck: Luck): Mind {
    if m.skillStyle >= 0 || m.skillStyle == -2 then m.(skillStyle := -3, nextAttack := now + 1000)
    else if m.skillStyle == -3 then m.(skillStyle := -1)
    else if luck.style != -1 then m.(skillStyle := luck.style, nextAttack := now + 1800)
    else if luck.active then m.(skillStyle := luck.style, nextAttack := now + luck.delay)
    else m.(skillStyle := luck.style)
  }

  // useAbilities: a corruption or eruption hits, a cooldown ends, or something new is wound up
  function UseAbilities(ms: Minds, id: MobId, now: int, luck: Luck): (r: Minds)
    requires id in ms && ms[id].state.COMBAT?
    ensures id in r
  {
    var wound := ms[id := Wound(ms[id], now, luck)];
    if ms[id].skillStyle < 0 then wound
    else if luck.reflected > 0 then TakeDamage(wound, id, ms[id].target, luck.reflected, now)
    else if luck.corrupted then LoseAggro(wound, id, luck.found)
    else wound
  }

  // The attack and the end of a combat step.
  function AttackAndReturn(ms: Minds, id: MobId, now: int, luck: Luck): Minds
    requires id in ms
  {
    var m := ms[id];
    var attacked :=
      if !luck.attacks then ms
      else
        var hit := ms[id := m.(nextAttack := now + luck.delay)];
        if luck.kills then LoseAggro(hit, id, luck.foundNext) else hit;
    if luck.outOfRange && id in attacked then Withdraw(attacked, id) else attacked
  }

  function CombatStep(ms: Minds, id: MobId, now: int, luck: Luck): Minds
    requires id in ms && ms[id].state.COMBAT? && ms[id].target.Someone?
  {
    if luck.lost then LoseAggro(ms, id, luck.found)
    else
      var drained := Drain(ms, id, ms[id].target, luck.drains, now);
      if !drained[id].state.COMBAT? then drained
      else if luck.stunned then drained[id := drained[id].(skillStyle := -1)]
      else
        var cast := if luck.casts then UseAbilities(drained, id, now, luck) else drained;
        if cast[id].target.Nobody? then cast else AttackAndReturn(cast, id, now, luck)
  }

  // Mob::step: nothing moves or fights out of sight, but the dead and the retreating go on.
  function Step(ms: Minds, id: MobId, now: int, inView: bool, arrived: bool, luck: Luck): Minds
    requires id in ms && (ms[id].state.COMBAT? ==> ms[id].target.Someone?)
  {
    var s := ms[id].state;
    if !inView && !s.DEAD? && !s.RETREAT? then ms
    else match s
      case ROAMING => RoamingStep(ms, id, now, luck.found)
      case COMBAT => CombatStep(ms, id, now, luck)
      case RETREAT => RetreatStep(ms, id, arrived)
      case DEAD => DeadStep(ms, id, now)
      case INACTIVE => ms
  }

  // ---- the invariant

  /** A mob has a target exactly while it fights, its health is in range, and it is dead exactly
      when it has none left. */
  predicate Ok(m: Mind) {
    && m.maxHealth > 0 && 0 <= m.hp <= m.maxHealth
    && !m.state.INACTIVE?
    && (m.target.Someone? <==> m.state.COMBAT?)
    && (m.hp == 0 <==> m.state.DEAD?)
  }

  predicate AllOk(ms: Minds) {
    forall k | k in ms :: Ok(ms[k])
  }

  // Group links and maximum health never change.
  predicate SameBodies(ms: Minds, ms': Minds) {
    ms'.Keys == ms.Keys && forall k | k in ms ::
      && ms'[k].groupLeader == ms[k].groupLeader && ms'[k].groupMember == ms[k].groupMember
      && ms'[k].maxHealth == ms[k].maxHealth && ms'[k].regenTime == ms[k].regenTime && ms'[k].summoned == ms[k].summoned
  }

  // A dead mob is not touched.
  predicate DeadAsBefore(ms: Minds, ms': Minds, id: MobId) {
    ms'.Keys == ms.Keys && forall k | k in ms && k != id && ms[k].state.DEAD? :: ms'[k] == ms[k]
  }

  lemma EngageOk(ms: Minds, id: MobId, p: PlayerID)
    requires AllOk(ms) && id in ms && !ms[id].state.DEAD?
    ensures var ms' := Engage(ms, id, p);
            && AllOk(ms') && SameBodies(ms, ms') && DeadAsBefore(ms, ms', id)
            && ms'[id] == Engaged(ms[id], p)
  {
  }

  lemma WithdrawOk(ms: Minds, id: MobId)
    requires AllOk(ms) && id in ms && !ms[id].state.DEAD?
    ensures var ms' := Withdraw(ms, id);
            && AllOk(ms') && SameBodies(ms, ms') && DeadAsBefore(ms, ms', id)
            && ms'[id] == Retreated(ms[id])
  {
  }

  /** Damage keeps the invariant: so takeDamage never finds a roaming mob with a target. */
  lemma DamageOk(ms: Minds, id: MobId, src: Target, amt: nat, now: int)
    requires AllOk(ms) && id in ms && (ms[id].state.ROAMING? ==> src.Someone?)
    ensures var ms' := TakeDamage(ms, id, src, amt, now);
            AllOk(ms') && SameBodies(ms, ms') && DeadAsBefore(ms, ms', id)
    ensures ms[id].state.ROAMING? ==> ms[id].target.Nobody?
    ensures var m, m' := ms[id], TakeDamage(ms, id, src, amt, now)[id];
            var open := (m.state.ROAMING? || m.state.COMBAT?) && m.skillStyle < 0;
            && m'.hp == (if !open then m.hp else if amt < m.hp then m.hp - amt else 0)
            && (open ==> (m'.state.DEAD? <==> amt >= m.hp) && (m'.state.COMBAT? <==> amt < m.hp))
            && (!open ==> m' == m)
  {
    var m := ms[id];
    if m.state.ROAMING? && m.skillStyle < 0 {
      EngageOk(ms, id, src.player);
    }
  }

  lemma LoseAggroOk(ms: Minds, id: MobId, found: Target)
    requires AllOk(ms) && id in ms && !ms[id].state.DEAD?
    ensures var ms' := LoseAggro(ms, id, found);
            AllOk(ms') && SameBodies(ms, ms') && DeadAsBefore(ms, ms', id) && !ms'[id].state.DEAD?
  {
    if found.Someone? {
      EngageOk(ms, id, found.player);
    } else {
      WithdrawOk(ms, id);
    }
  }

  lemma {:induction false} DrainOk(ms: Minds, id: MobId, src: Target, drains: seq<nat>, now: int)
    requires AllOk(ms) && id in ms
    ensures var ms' := Drain(ms, id, src, drains, now);
            AllOk(ms') && SameBodies(ms, ms') && DeadAsBefore(ms, ms', id)
    decreases |drains|
  {
    if |drains| > 0 && ms[id].state.COMBAT? {
      DamageOk(ms, id, src, drains[0], now);
      DrainOk(TakeDamage(ms, id, src, drains[0], now), id, src, drains[1..], now);
    }
  }

  lemma WoundOk(m: Mind, now: int, luck: Luck)
    requires Ok(m)
    ensures Ok(Wound(m, now, luck))
  {
  }

  lemma OneOk(ms: Minds, id: MobId, m: Mind)
    requires AllOk(ms) && id in ms && Ok(m)
    ensures AllOk(ms[id := m]) && DeadAsBefore(ms, ms[id := m], id)
  {
  }

  lemma UseAbilitiesOk(ms: Minds, id: MobId, now: int, luck: Luck)
    requires AllOk(ms) && id in ms && ms[id].state.COMBAT?
    ensures var ms' := UseAbilities(ms, id, now, luck);
            AllOk(ms') && SameBodies(ms, ms') && DeadAsBefore(ms, ms', id)
  {
    hide LoseAggro, TakeDamage, Ok;
    var hit := ms[id := Wound(ms[id], now, luck)];
    OneOk(ms, id, Wound(ms[id], now, luck)) by { WoundOk(ms[id], now, luck); }
    if ms[id].skillStyle >= 0 {
      if luck.reflected > 0 {
        DamageOk(hit, id, ms[id].target, luck.reflected, now);
      } else if luck.corrupted {
        assert Ok(hit[id]) && !hit[id].state.DEAD?;
        LoseAggroOk(hit, id, luck.found);
      }
    }
  }

  lemma AttackOk(ms: Minds, id: MobId, now: int, luck: Luck)
    requires AllOk(ms) && id in ms && ms[id].state.COMBAT?
    ensures var ms' := AttackAndReturn(ms, id, now, luck);
            AllOk(ms') && SameBodies(ms, ms') && DeadAsBefore(ms, ms', id)
  {
    hide Engage, Withdraw;
    var attacked := ms;
    if luck.attacks {
      var hit := ms[id := ms[id].(nextAttack := now + luck.delay)];
      attacked := hit;
      if luck.kills {
        LoseAggroOk(hit, id, luck.foundNext);
        attacked := LoseAggro(hit, id, luck.foundNext);
      }
    }
    if luck.outOfRange {
      WithdrawOk(attacked, id);
    }
  }

  lemma CombatStepOk(ms: Minds, id: MobId, now: int, luck: Luck)
    requires AllOk(ms) && id in ms && ms[id].state.COMBAT?
    ensures var ms' := CombatStep(ms, id, now, luck);
            AllOk(ms') && SameBodies(ms, ms') && DeadAsBefore(ms, ms', id)
  {
    hide LoseAggro, Drain, UseAbilities, AttackAndReturn;
    if luck.lost {
      LoseAggroOk(ms, id, luck.found);
    } else {
      var drained := Drain(ms, id, ms[id].target, luck.drains, now);
      DrainOk(ms, id, ms[id].target, luck.drains, now);
      if drained[id].state.COMBAT? && !luck.stunned {
        var cast := drained;
        if luck.casts {
          UseAbilitiesOk(drained, id, now, luck);
          cast := UseAbilities(drained, id, now, luck);
        }
        if cast[id].target.Someone? {
          AttackOk(cast, id, now, luck);
        }
      }
    }
  }

  /** Every step of a mob keeps the invariant of all mobs; so a fighting mob always has a target. */
  lemma StepOk(ms: Minds, id: MobId, now: int, inView: bool, arrived: bool, luck: Luck)
    requires AllOk(ms) && id in ms
    ensures ms[id].state.COMBAT? ==> ms[id].target.Someone?
    ensures var ms' := Step(ms, id, now, inView, arrived, luck);
            AllOk(ms') && SameBodies(ms, ms') && DeadAsBefore(ms, ms', id)
  {
    hide CombatStep, Engage;
    var s := ms[id].state;
    if s.COMBAT? {
      CombatStepOk(ms, id, now, luck);
    } else if s.ROAMING? && luck.found.Someone? {
      EngageOk(ms[id := ms[id].(nextAttack := now + 500)], id, luck.found.player);
    }
  }

  /** Healing keeps the invariant of a living mob; a dead one must not be healed. */
  lemma HealOk(m: Mind, amt: nat)
    requires Ok(m)
    ensures Ok(Healed(m, amt)) <==> !m.state.DEAD? || amt == 0
    ensures m.hp <= Healed(m, amt).hp
  {
  }

  // ---- groups act together

  // A mob whose leader exists is on the leader's list or is the leader; the leader leads itself,
  // and those it lists follow it.
  predicate WellGrouped(ms: Minds) {
    && NONE !in ms
    && forall k | k in ms && ms[k].groupLeader in ms ::
         var leader := ms[k].groupLeader;
         && ms[leader].groupLeader == leader
         && (k == leader || k in Listed(ms[leader].groupMember))
         && forall j | j in Listed(ms[leader].groupMember) && j in ms :: ms[j].groupLeader == leader
  }

  function GroupOf(ms: Minds, leader: MobId): set<MobId> {
    set k | k in ms && ms[k].groupLeader == leader
  }

  lemma RosterIsGroup(ms: Minds, k: MobId)
    requires WellGrouped(ms) && k in ms && ms[k].groupLeader in ms
    ensures forall j | j in ms :: j in Roster(ms, ms[k].groupLeader) <==> j in GroupOf(ms, ms[k].groupLeader)
  {
    var leader := ms[k].groupLeader;
    forall j | j in ms && ms[j].groupLeader == leader
      ensures j in Roster(ms, leader)
    {
    }
  }

  /** When a member of a group whose leader exists engages a player, no member is left roaming, and
      those that were roaming engage the same player; the others are left alone. */
  lemma EngageTogether(ms: Minds, id: MobId, p: PlayerID)
    requires WellGrouped(ms) && id in ms && ms[id].groupLeader in ms
    ensures var ms' := Engage(ms, id, p);
            && ms'.Keys == ms.Keys && ms'[id] == Engaged(ms[id], p)
            && (forall k | k in GroupOf(ms, ms[id].groupLeader) && k != id ::
                  ms'[k] == if ms[k].state.ROAMING? then Engaged(ms[k], p) else ms[k])
            && (forall k | k in ms && k !in GroupOf(ms, ms[id].groupLeader) :: ms'[k] == ms[k])
  {
    var engaged := ms[id := Engaged(ms[id], p)];
    assert WellGrouped(engaged);
    RosterIsGroup(engaged, id);
    assert GroupOf(engaged, ms[id].groupLeader) == GroupOf(ms, ms[id].groupLeader);
  }

  /** Exactly when the leader is gone, or nobody else was roaming, does nobody follow. */
  lemma NobodyLeftRoaming(ms: Minds, id: MobId, p: PlayerID)
    requires WellGrouped(ms) && id in ms && ms[id].groupLeader != NONE
    ensures var ms' := Engage(ms, id, p);
            var mates := GroupOf(ms, ms[id].groupLeader) - {id};
            ms'.Keys == ms.Keys &&
            ((forall k | k in mates :: !ms'[k].state.ROAMING?) <==>
             (ms[id].groupLeader in ms || forall k | k in mates :: !ms[k].state.ROAMING?))
  {
    if ms[id].groupLeader in ms {
      EngageTogether(ms, id, p);
    }
  }

  /** When a member retreats, no member is left fighting; those that fought have no target any more
      and the others are left alone, the dead among them. */
  lemma RetreatTogether(ms: Minds, id: MobId)
    requires WellGrouped(ms) && id in ms && ms[id].groupLeader in ms
    ensures var ms' := Withdraw(ms, id);
            && ms'.Keys == ms.Keys && ms'[id] == Retreated(ms[id])
            && (forall k | k in GroupOf(ms, ms[id].groupLeader) && k != id ::
                  ms'[k] == if ms[k].state.COMBAT? then Retreated(ms[k]) else ms[k])
            && (forall k | k in ms && k !in GroupOf(ms, ms[id].groupLeader) :: ms'[k] == ms[k])
  {
    var gone := ms[id := Retreated(ms[id])];
    assert WellGrouped(gone);
    RosterIsGroup(gone, id);
    assert GroupOf(gone, ms[id].groupLeader) == GroupOf(ms, ms[id].groupLeader);
  }

  lemma NobodyLeftFighting(ms: Minds, id: MobId)
    requires WellGrouped(ms) && id in ms && ms[id].groupLeader != NONE
    ensures var ms' := Withdraw(ms, id);
            var mates := GroupOf(ms, ms[id].groupLeader) - {id};
            ms'.Keys == ms.Keys &&
            ((forall k | k in mates :: !ms'[k].state.COMBAT?) <==>
             (ms[id].groupLeader in ms || forall k | k in mates :: !ms[k].state.COMBAT?))
  {
    if ms[id].groupLeader in ms {
      RetreatTogether(ms, id);
    }
  }

  lemma StaysGrouped(ms: Minds, ms': Minds)
    requires WellGrouped(ms) && SameBodies(ms, ms')
    ensures WellGrouped(ms')
  {
  }

  // ---- runs

  datatype Event =
    | Struck(id: MobId, src: PlayerID, amt: nat)
    | Ticked(id: MobId, inView: bool, arrived: bool, luck: Luck)
    | Mended(id: MobId, amt: nat)
    | Gone(id: MobId)

  function Happen(ms: Minds, e: Event, now: int): Minds
    requires AllOk(ms)
  {
    if e.id !in ms then ms
    else match e
      case Struck(id, src, amt) => TakeDamage(ms, id, Someone(src), amt, now)
      case Ticked(id, inView, arrived, luck) => Step(ms, id, now, inView, arrived, luck)
      case Mended(id, amt) => if ms[id].state.DEAD? then ms else ms[id := Healed(ms[id], amt)]
      case Gone(id) => ms - {id}
  }

  lemma HappenOk(ms: Minds, e: Event, now: int)
    requires AllOk(ms) && WellGrouped(ms)
    ensures AllOk(Happen(ms, e, now)) && WellGrouped(Happen(ms, e, now))
  {
    hide Step, TakeDamage;
    if e.id in ms {
      match e
      case Struck(id, src, amt) =>
        DamageOk(ms, id, Someone(src), amt, now);
        StaysGrouped(ms, Happen(ms, e, now));
      case Ticked(id, inView, arrived, luck) =>
        StepOk(ms, id, now, inView, arrived, luck);
        StaysGrouped(ms, Happen(ms, e, now));
      case Mended(id, amt) =>
        HealOk(ms[id], amt);
        StaysGrouped(ms, Happen(ms, e, now));
      case Gone(id) =>
    }
  }

  ghost predicate Reaches(ms: Minds, events: seq<(Event, int)>, ms': Minds)
    decreases |events|
  {
    if |events| == 0 then ms' == ms
    else AllOk(ms) && Reaches(Happen(ms, events[0].0, events[0].1), events[1..], ms')
  }

  /** In every state that damage, steps, healing of the living and removals reach, the invariant holds
      and groups are in order. */
  lemma {:induction false} RunOk(ms: Minds, events: seq<(Event, int)>, ms': Minds)
    requires AllOk(ms) && WellGrouped(ms) && Reaches(ms, events, ms')
    ensures AllOk(ms') && WellGrouped(ms')
    decreases |events|
  {
    if |events| > 0 {
      HappenOk(ms, events[0].0, events[0].1);
      RunOk(Happen(ms, events[0].0, events[0].1), events[1..], ms');
    }
  }

  // ---- a group without its leader

  const LEADER := MobId(1)
  const MATE := MobId(2)
  const OTHER_MATE := MobId(3)

  function Newborn(members: seq<MobId>): Mind {
    Mind(ROAMING, Nobody, 10, 10, -1, LEADER, members, 0, 0, false, 1, false)
  }

  // A leader with two followers, as they are loaded.
  function Trio(): Minds {
    map[LEADER := Newborn([MATE, OTHER_MATE, NONE, NONE]), MATE := Newborn([NONE, NONE, NONE, NONE]),
        OTHER_MATE := Newborn([NONE, NONE, NONE, NONE])]
  }

  const LOSES := Luck(true, [], false, false, -1, false, 0, false, false, 0, false, false, Nobody, Nobody)

  lemma TrioGrouped()
    ensures AllOk(Trio()) && WellGrouped(Trio())
  {
    var members := Trio()[LEADER].groupMember;
    var rest := members[1..];
    assert rest == [OTHER_MATE, NONE, NONE] && rest[1..] == [NONE, NONE] && Listed(rest[1..]) == [];
    assert Listed(rest) == [OTHER_MATE] + Listed(rest[1..]);
    assert Listed(members) == [MATE] + Listed(rest);
    assert MATE in Listed(members) && OTHER_MATE in Listed(members);
    assert Listed(Trio()[MATE].groupMember) == [];
  }

  /** Instances of a mate that is left behind: with the leader gone, a hit on one follower leaves the
      other roaming, and a follower that loses its target leaves the other fighting. */
  lemma LeaderGone(p: PlayerID, now: int)
    ensures var gone := Happen(Trio(), Gone(LEADER), now);
            && AllOk(gone) && WellGrouped(gone)
            && var hit := Happen(gone, Struck(MATE, p, 1), now);
               MATE in hit && OTHER_MATE in hit && hit[MATE].state.COMBAT? && hit[OTHER_MATE].state.ROAMING?
    ensures var hit := Happen(Trio(), Struck(MATE, p, 1), now);
            && AllOk(hit) && WellGrouped(hit)
            && var gone := Happen(hit, Gone(LEADER), now);
               && AllOk(gone) && WellGrouped(gone)
               && var lost := Happen(gone, Ticked(MATE, true, false, LOSES), now);
                  MATE in lost && OTHER_MATE in lost && lost[MATE].state.RETREAT? && lost[OTHER_MATE].state.COMBAT?
  {
    hide WellGrouped, AllOk, Listed, Engage, Withdraw, GroupRetreat, Follow;
    TrioGrouped();
    HappenOk(Trio(), Gone(LEADER), now);
    HappenOk(Trio(), Struck(MATE, p, 1), now);
    var hit := Happen(Trio(), Struck(MATE, p, 1), now);
    HappenOk(hit, Gone(LEADER), now);
    TrioEngages(p);
    EngagesAlone(Trio() - {LEADER}, MATE, p);
    WithdrawsAlone(hit - {LEADER}, MATE);
  }

  lemma EngagesAlone(ms: Minds, id: MobId, p: PlayerID)
    requires id in ms && ms[id].groupLeader !in ms
    ensures Engage(ms, id, p) == ms[id := Engaged(ms[id], p)]
  {
  }

  lemma WithdrawsAlone(ms: Minds, id: MobId)
    requires id in ms && ms[id].groupLeader !in ms
    ensures Withdraw(ms, id) == ms[id := Retreated(ms[id])]
  {
  }

  lemma TrioEngages(p: PlayerID)
    ensures var ms := Engage(Trio(), MATE, p);
            && ms.Keys == Trio().Keys && ms[MATE] == Engaged(Trio()[MATE], p)
            && ms[OTHER_MATE] == Engaged(Trio()[OTHER_MATE], p)
  {
    TrioGrouped();
    EngageTogether(Trio(), MATE, p);
  }
}
