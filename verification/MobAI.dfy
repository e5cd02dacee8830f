/** The mob handlers on mob objects; each does to all mobs what MobMachine says of it. */
module MobAI {
  import opened Ids
  import opened MobGroups
  import opened MobMachine

  class Mob {
    const id: MobId
    const maxHealth: int
    const regenTime: int
    const summoned: bool
    const groupLeader: MobId
    const groupMember: seq<MobId>
    var state: AIState
    var target: Target
    var hp: int
    var skillStyle: int  // a corruption being wound up from 0, else -1, or -2 for an eruption, or -3 while cooling down
    var nextAttack: int
    var killedTime: int
    var despawned: bool

    constructor (id: MobId, maxHealth: int, regenTime: int, summoned: bool, groupLeader: MobId, groupMember: seq<MobId>)
      ensures this.id == id
      ensures View() == Mind(ROAMING, Nobody, maxHealth, maxHealth, -1, groupLeader, groupMember, 0, 0, false,
          regenTime, summoned)
    {
      this.id, this.maxHealth, this.regenTime, this.summoned := id, maxHealth, regenTime, summoned;
      this.groupLeader, this.groupMember := groupLeader, groupMember;
      state, target, hp, skillStyle := ROAMING, Nobody, maxHealth, -1;
      nextAttack, killedTime, despawned := 0, 0, false;
    }

    function View(): Mind
      reads this
    {
      Mind(state, target, hp, maxHealth, skillStyle, groupLeader, groupMember, nextAttack, killedTime, despawned,
          regenTime, summoned)
    }

    method ClearDebuff()
      modifies `skillStyle
      ensures skillStyle == -1
    {
      skillStyle := -1;
    }

    method OnRoamStart()
      modifies this
      ensures View() == Roamed(old(View())).(state := old(state))
    {
      hp := maxHealth;
      killedTime := 0;
      nextAttack := 0;
      ClearDebuff();
    }

    method OnCombatStart(src: Target)
      requires src.Someone?
      modifies this
      ensures View() == Engaged(old(View()), src.player).(state := old(state))
    {
      target := src;
      nextAttack := 0;
    }

    method OnDeath(now: int)
      modifies this
      ensures View() == Died(old(View()), now).(state := old(state))
    {
      target := Nobody;
      skillStyle := -1;
      killedTime := now;
      despawned := false;
    }

    // the health that damage takes
    method Lose(amt: int) returns (dmg: int)
      modifies `hp
      ensures dmg == if old(hp) - amt < 0 then old(hp) else amt
      ensures View() == old(View()).(hp := old(hp) - dmg)
    {
      dmg := amt;
      if hp - dmg < 0 {
        dmg := hp;
      }
      hp := hp - dmg;
    }

    // the part of useAbilities that only concerns the mob itself
    method WindUp(now: int, luck: Luck)
      modifies `skillStyle, `nextAttack
      ensures View() == Wound(old(View()), now, luck)
    {
      if skillStyle >= 0 || skillStyle == -2 {
        skillStyle := -3;
        nextAttack := now + 1000;
      } else if skillStyle == -3 {
        skillStyle := -1;
      } else {
        skillStyle := luck.style;
        if luck.style != -1 {
          nextAttack := now + 1800;
        } else if luck.active {
          nextAttack := now + luck.delay;
        }
      }
    }

    method Heal(amt: int) returns (heal: int)
      modifies `hp
      ensures View() == Healed(old(View()), amt) && heal == hp - old(hp)
    {
      heal := amt;
      if hp + heal > maxHealth {
        heal := maxHealth - hp;
      }
      hp := hp + heal;
    }
  }

  type Mobs = map<MobId, Mob>

  function Views(mobs: Mobs): (ms: Minds)
    reads mobs.Values
    ensures ms.Keys == mobs.Keys
  {
    map k | k in mobs :: mobs[k].View()
  }

  // Mobs are found by their ids, and every list has four entries.
  predicate ById(mobs: Mobs) {
    forall k | k in mobs :: mobs[k].id == k && |mobs[k].groupMember| == 4
  }

  lemma OneChanged(before: Minds, after: Minds, id: MobId)
    requires before.Keys == after.Keys && id in before && forall k | k in before && k != id :: after[k] == before[k]
    ensures after == before[id := after[id]]
  {
  }

  // the transition to any state but RETREAT
  function Changed(m: Mind, newState: AIState, src: Target, now: int): Mind
    requires newState.COMBAT? ==> src.Someone?
  {
    match newState
    case ROAMING => Roamed(m)
    case COMBAT => Engaged(m, src.player)
    case DEAD => Died(m, now)
    case _ => m.(state := newState)
  }

  method Transition(mobs: Mobs, id: MobId, newState: AIState, src: Target, now: int)
    requires ById(mobs) && id in mobs && (newState.ROAMING? || newState.DEAD? || (newState.COMBAT? && src.Someone?))
    modifies mobs[id]
    ensures Views(mobs) == old(Views(mobs))[id := Changed(old(mobs[id].View()), newState, src, now)]
  {
    var mob := mobs[id];
    mob.state := newState;
    match newState {
      case ROAMING => mob.OnRoamStart();
      case COMBAT => mob.OnCombatStart(src);
      case DEAD => mob.OnDeath(now);
    }
    OneChanged(old(Views(mobs)), Views(mobs), id);
  }

  lemma EngageMore(ms: Minds, ks: set<MobId>, k: MobId, p: PlayerID)
    requires k in ms
    ensures k in EngageSet(ms, ks, p) && EngageSet(ms, {}, p) == ms
    ensures EngageSet(ms, ks + {k}, p)
         == if EngageSet(ms, ks, p)[k].state.ROAMING?
             then EngageSet(ms, ks, p)[k := Engaged(EngageSet(ms, ks, p)[k], p)]
            else EngageSet(ms, ks, p)
  {
  }

  lemma EngageSpares(ms: Minds, ks: set<MobId>, k: MobId, p: PlayerID)
    requires k in ms && !ms[k].state.ROAMING?
    ensures k in EngageSet(ms, ks, p) && EngageSet(ms, ks, p)[k] == ms[k]
  {
  }

  lemma EngageOther(ms: Minds, ks: set<MobId>, k: MobId, p: PlayerID)
    requires k !in ms
    ensures EngageSet(ms, ks + {k}, p) == EngageSet(ms, ks, p)
  {
  }

  lemma RetreatMore(ms: Minds, ks: set<MobId>, k: MobId)
    requires k in ms
    ensures k in RetreatSet(ms, ks)
    ensures RetreatSet(ms, ks + {k})
         == if RetreatSet(ms, ks)[k].state.COMBAT? then RetreatSet(ms, ks)[k := Retreated(RetreatSet(ms, ks)[k])]
            else RetreatSet(ms, ks)
  {
  }

  lemma RetreatOther(ms: Minds, ks: set<MobId>, k: MobId)
    requires k !in ms
    ensures RetreatSet(ms, ks + {k}) == RetreatSet(ms, ks)
  {
  }

  method FollowToCombat(mobs: Mobs, id: MobId, now: int)
    requires ById(mobs) && id in mobs && mobs[id].target.Someone? && mobs[id].state.COMBAT?
    modifies mobs.Values
    ensures Views(mobs) == Follow(old(Views(mobs)), id)
  {
    hide Views, EngageSet, Listed;
    ghost var ms := Views(mobs);
    ViewAt(mobs, id);
    var mob := mobs[id];
    var p := mob.target.player;
    if mob.groupLeader !in mobs {
      return;
    }
    var leadMob := mobs[mob.groupLeader];
    ViewAt(mobs, mob.groupLeader);
    var members := leadMob.groupMember;
    ghost var seen: set<MobId> := {};
    EngageMore(ms, {}, mob.groupLeader, p);
    var i := 0;
    while i < 4 && members[i] != NONE
      invariant 0 <= i <= 4 && seen == Firsts(members, i) && forall j | 0 <= j < i :: members[j] != NONE
      invariant Views(mobs) == EngageSet(ms, seen, p)
      invariant mob.target == Someone(p)
    {
      var k := members[i];
      FirstsStep(members, i);
      if k !in mobs {
        EngageOther(ms, seen, k, p);
      } else {
        EngageMore(ms, seen, k, p);
        ViewAt(mobs, k);
        var followerMob := mobs[k];
        if followerMob.state == ROAMING {
          Transition(mobs, k, COMBAT, mob.target, now);
        }
      }
      seen := seen + {k};
      i := i + 1;
      EngageSpares(ms, seen, id, p);
      ViewAt(mobs, id);
    }
    FirstsAreListed(members, i);
    ViewAt(mobs, mob.groupLeader);
    EngageMore(ms, seen, mob.groupLeader, p);
    assert seen + {mob.groupLeader} == Roster(ms, mob.groupLeader);
    if leadMob.state != ROAMING {
      return;
    }
    Transition(mobs, mob.groupLeader, COMBAT, mob.target, now);
  }

  lemma ViewAt(mobs: Mobs, k: MobId)
    requires k in mobs
    ensures Views(mobs).Keys == mobs.Keys && Views(mobs)[k] == mobs[k].View()
  {
  }

  // what groupRetreat does to one mob: no transition, the fields are set directly
  method SendBack(mobs: Mobs, id: MobId)
    requires ById(mobs) && id in mobs
    modifies mobs[id]
    ensures Views(mobs) == old(Views(mobs))[id := Retreated(old(mobs[id].View()))]
  {
    var mob := mobs[id];
    mob.target := Nobody;
    mob.state := RETREAT;
    mob.ClearDebuff();
    OneChanged(old(Views(mobs)), Views(mobs), id);
  }

  method RetreatGroup(mobs: Mobs, id: MobId)
    requires ById(mobs) && id in mobs
    modifies mobs.Values
    ensures Views(mobs) == GroupRetreat(old(Views(mobs)), id)
  {
    hide Views;
    ghost var ms := Views(mobs);
    ViewAt(mobs, id);
    var mob := mobs[id];
    if mob.groupLeader !in mobs {
      return;
    }
    var leadMob := mobs[mob.groupLeader];
    ViewAt(mobs, mob.groupLeader);
    var members := leadMob.groupMember;
    ghost var seen: set<MobId> := {};
    assert RetreatSet(ms, {}) == ms;
    var i := 0;
    while i < 4 && members[i] != NONE
      invariant 0 <= i <= 4 && seen == Firsts(members, i) && forall j | 0 <= j < i :: members[j] != NONE
      invariant Views(mobs) == RetreatSet(ms, seen)
    {
      var k := members[i];
      FirstsStep(members, i);
      if k !in mobs {
        RetreatOther(ms, seen, k);
      } else {
        RetreatMore(ms, seen, k);
        ViewAt(mobs, k);
        if mobs[k].state == COMBAT {
          SendBack(mobs, k);
        }
      }
      seen := seen + {k};
      i := i + 1;
    }
    FirstsAreListed(members, i);
    ViewAt(mobs, mob.groupLeader);
    RetreatMore(ms, seen, mob.groupLeader);
    assert seen + {mob.groupLeader} == Roster(ms, mob.groupLeader);
    if leadMob.state != COMBAT {
      return;
    }
    SendBack(mobs, mob.groupLeader);
  }

  // the transition to RETREAT: onRetreat takes the group along
  method TransitionToRetreat(mobs: Mobs, id: MobId)
    requires ById(mobs) && id in mobs
    modifies mobs.Values
    ensures Views(mobs) == Withdraw(old(Views(mobs)), id)
  {
    hide Views, GroupRetreat;
    var mob := mobs[id];
    ViewAt(mobs, id);
    SendBack(mobs, id);
    if mob.groupLeader != NONE {
      RetreatGroup(mobs, id);
    }
  }

  // the transition to COMBAT, and the group after it
  method EngagePlayer(mobs: Mobs, id: MobId, src: Target, now: int)
    requires ById(mobs) && id in mobs && src.Someone?
    modifies mobs.Values
    ensures Views(mobs) == Engage(old(Views(mobs)), id, src.player)
  {
    hide Views, Follow;
    var mob := mobs[id];
    ViewAt(mobs, id);
    Transition(mobs, id, COMBAT, src, now);
    ViewAt(mobs, id);
    if mob.groupLeader != NONE {
      FollowToCombat(mobs, id, now);
    }
  }

  // CombatNPC::takeDamage
  method LoseHealth(mobs: Mobs, id: MobId, amt: int, now: int) returns (dmg: int)
    requires ById(mobs) && id in mobs
    modifies mobs[id]
    ensures Views(mobs) == old(Views(mobs))[id := Hurt(old(mobs[id].View()), amt, now)]
    ensures dmg == if old(mobs[id].hp) - amt < 0 then old(mobs[id].hp) else amt
  {
    var mob := mobs[id];
    dmg := mob.Lose(amt);
    OneChanged(old(Views(mobs)), Views(mobs), id);
    Twice(old(Views(mobs)), id, mob.View(), Died(mob.View(), now));
    if mob.hp <= 0 {
      Transition(mobs, id, DEAD, Nobody, now);
    }
  }

  lemma Twice(ms: Minds, id: MobId, m: Mind, m': Mind)
    ensures ms[id := m][id := m'] == ms[id := m']
  {
  }

  // Mob::takeDamage
  method DamageMob(mobs: Mobs, id: MobId, src: Target, amt: int, now: int) returns (dmg: int)
    requires ById(mobs) && id in mobs && AllOk(Views(mobs)) && (mobs[id].state.ROAMING? ==> src.Someone?)
    modifies mobs.Values
    ensures Views(mobs) == TakeDamage(old(Views(mobs)), id, src, amt, now)
    ensures amt >= 0 ==> AllOk(Views(mobs))
  {
    hide Views, Engage;
    ViewAt(mobs, id);
    if amt >= 0 {
      DamageOk(Views(mobs), id, src, amt, now);
    }
    var mob := mobs[id];
    assert Ok(mob.View());
    if mob.state != ROAMING && mob.state != COMBAT {
      return 0;
    }
    if mob.skillStyle >= 0 {
      return 0;
    }
    if mob.state == ROAMING {
      assert mob.target == Nobody && src.Someone?;
      EngagePlayer(mobs, id, src, now);
    }
    ViewAt(mobs, id);
    dmg := LoseHealth(mobs, id, amt, now);
  }

  // aggroCheck, when `found` is the closest player in range
  method CheckAggro(mobs: Mobs, id: MobId, found: Target, now: int) returns (engaged: bool)
    requires ById(mobs) && id in mobs
    modifies mobs.Values
    ensures Views(mobs) == AggroCheck(old(Views(mobs)), id, found) && engaged == found.Someone?
  {
    hide Views, Engage;
    if found.Someone? {
      EngagePlayer(mobs, id, found, now);
      return true;
    }
    return false;
  }

  method DropAggro(mobs: Mobs, id: MobId, found: Target, now: int)
    requires ById(mobs) && id in mobs
    modifies mobs.Values
    ensures Views(mobs) == LoseAggro(old(Views(mobs)), id, found)
  {
    hide Views, Engage, Withdraw;
    var engaged := CheckAggro(mobs, id, found, now);
    if !engaged {
      TransitionToRetreat(mobs, id);
    }
  }

  // ---- the step functions

  method Roam(mobs: Mobs, id: MobId, currTime: int, found: Target)
    requires ById(mobs) && id in mobs
    modifies mobs.Values
    ensures Views(mobs) == RoamingStep(old(Views(mobs)), id, currTime, found)
  {
    hide AggroCheck;
    var mob := mobs[id];
    ViewAt(mobs, id);
    if mob.state != DEAD && (mob.nextAttack == 0 || currTime >= mob.nextAttack) {
      mob.nextAttack := currTime + 500;
      OneChanged(old(Views(mobs)), Views(mobs), id);
      var _ := CheckAggro(mobs, id, found, currTime);
    }
  }

  method ComeHome(mobs: Mobs, id: MobId, currTime: int, arrived: bool)
    requires ById(mobs) && id in mobs
    modifies mobs.Values
    ensures Views(mobs) == RetreatStep(old(Views(mobs)), id, arrived)
  {
    ViewAt(mobs, id);
    if arrived {
      Transition(mobs, id, ROAMING, Nobody, currTime);
    }
  }

  method StayDead(mobs: Mobs, id: MobId, currTime: int)
    requires ById(mobs) && id in mobs && mobs[id].state.DEAD?
    modifies mobs.Values
    ensures Views(mobs) == DeadStep(old(Views(mobs)), id, currTime)
  {
    var mob := mobs[id];
    ViewAt(mobs, id);
    if mob.killedTime != 0 && !mob.despawned && currTime - mob.killedTime > 2000 {
      mob.despawned := true;
      OneChanged(old(Views(mobs)), Views(mobs), id);
      if mob.summoned {
        return;
      }
    }
    // a dead leader goes on walking, but does not attack
    if mob.groupLeader == mob.id {
      Roam(mobs, id, currTime, Nobody);
    }
    ViewAt(mobs, id);
    if !mob.despawned {
      return;
    }
    if mob.killedTime != 0 && currTime - mob.killedTime < mob.regenTime * 100 {
      return;
    }
    Transition(mobs, id, ROAMING, Nobody, currTime);
  }

  method Cast(mobs: Mobs, id: MobId, now: int, luck: Luck)
    requires ById(mobs) && id in mobs && mobs[id].state.COMBAT? && AllOk(Views(mobs))
    modifies mobs.Values
    ensures Views(mobs) == UseAbilities(old(Views(mobs)), id, now, luck)
  {
    hide TakeDamage, LoseAggro;
    var mob := mobs[id];
    ViewAt(mobs, id);
    var corrupts := mob.skillStyle >= 0;
    mob.WindUp(now, luck);
    OneChanged(old(Views(mobs)), Views(mobs), id);
    if corrupts {
      if luck.reflected > 0 {
        var _ := DamageMob(mobs, id, mob.target, luck.reflected, now);
      } else if luck.corrupted {
        DropAggro(mobs, id, luck.found, now);
      }
    }
  }

  method TickBuffs(mobs: Mobs, id: MobId, drains: seq<nat>, now: int)
    requires ById(mobs) && id in mobs && AllOk(Views(mobs))
    modifies mobs.Values
    ensures Views(mobs) == Drain(old(Views(mobs)), id, old(mobs[id].target), drains, now) && AllOk(Views(mobs))
  {
    hide TakeDamage, Views;
    ViewAt(mobs, id);
    ghost var ms, src := Views(mobs), mobs[id].target;
    DrainOk(ms, id, src, drains, now);
    var i := 0;
    assert drains[0..] == drains;
    while i < |drains| && mobs[id].state == COMBAT
      invariant 0 <= i <= |drains| && AllOk(Views(mobs))
      invariant Drain(ms, id, src, drains, now) == Drain(Views(mobs), id, src, drains[i..], now)
    {
      ViewAt(mobs, id);
      ghost var before := Views(mobs);
      DamageOk(before, id, src, drains[i], now);
      SameHit(before, id, src, mobs[id].target, drains[i], now);
      var _ := DamageMob(mobs, id, mobs[id].target, drains[i], now);
      assert drains[i..][1..] == drains[i + 1..];
      i := i + 1;
    }
    ViewAt(mobs, id);
  }

  // Who hits a mob that fights already does not matter.
  lemma SameHit(ms: Minds, id: MobId, src: Target, src': Target, amt: int, now: int)
    requires id in ms && ms[id].state.COMBAT?
    ensures TakeDamage(ms, id, src, amt, now) == TakeDamage(ms, id, src', amt, now)
  {
  }

  method AttackTarget(mobs: Mobs, id: MobId, now: int, luck: Luck)
    requires ById(mobs) && id in mobs
    modifies mobs.Values
    ensures Views(mobs) == AttackAndReturn(old(Views(mobs)), id, now, luck)
  {
    hide LoseAggro, Withdraw;
    ViewAt(mobs, id);
    if luck.attacks {
      mobs[id].nextAttack := now + luck.delay;
      OneChanged(old(Views(mobs)), Views(mobs), id);
      if luck.kills {
        DropAggro(mobs, id, luck.foundNext, now);
      }
    }
    if luck.outOfRange {
      TransitionToRetreat(mobs, id);
    }
  }

  method Fight(mobs: Mobs, id: MobId, now: int, luck: Luck)
    requires ById(mobs) && id in mobs && AllOk(Views(mobs)) && mobs[id].state.COMBAT?
    modifies mobs.Values
    ensures old(mobs[id].target.Someone?)
    ensures Views(mobs) == CombatStep(old(Views(mobs)), id, now, luck)
  {
    hide LoseAggro, Drain, UseAbilities, AttackAndReturn;
    var mob := mobs[id];
    ViewAt(mobs, id);
    assert Ok(mob.View());
    assert mob.target != Nobody;
    if luck.lost {
      DropAggro(mobs, id, luck.found, now);
      return;
    }
    TickBuffs(mobs, id, luck.drains, now);
    ViewAt(mobs, id);
    if mob.state != COMBAT {
      return;
    }
    if luck.stunned {
      ghost var before := Views(mobs);
      mob.skillStyle := -1;
      OneChanged(before, Views(mobs), id);
      return;
    }
    if luck.casts {
      Cast(mobs, id, now, luck);
      ViewAt(mobs, id);
      if mob.target == Nobody {
        return;
      }
    }
    AttackTarget(mobs, id, now, luck);
  }

  // Mob::step
  method StepMob(mobs: Mobs, id: MobId, now: int, inView: bool, arrived: bool, luck: Luck)
    requires ById(mobs) && id in mobs && AllOk(Views(mobs))
    modifies mobs.Values
    ensures old(mobs[id].state.COMBAT? ==> mobs[id].target.Someone?)
    ensures Views(mobs) == MobMachine.Step(old(Views(mobs)), id, now, inView, arrived, luck)
    ensures AllOk(Views(mobs))
  {
    hide RoamingStep, CombatStep, RetreatStep, DeadStep;
    StepOk(Views(mobs), id, now, inView, arrived, luck);
    var mob := mobs[id];
    ViewAt(mobs, id);
    assert Ok(mob.View());
    if !inView && mob.state != DEAD && mob.state != RETREAT {
      return;
    }
    match mob.state {
      case ROAMING => Roam(mobs, id, now, luck.found);
      case COMBAT => Fight(mobs, id, now, luck);
      case RETREAT => ComeHome(mobs, id, now, arrived);
      case DEAD => StayDead(mobs, id, now);
    }
  }

  // ---- runs

  // one event on mob objects; a removed mob is out of the map
  method Serve(mobs: Mobs, e: Event, now: int) returns (left: Mobs)
    requires ById(mobs) && AllOk(Views(mobs))
    modifies mobs.Values
    ensures ById(left) && left.Values <= mobs.Values
    ensures Views(left) == Happen(old(Views(mobs)), e, now)
  {
    hide TakeDamage, Step, AllOk;
    left := mobs;
    if e.id !in mobs {
      return;
    }
    ViewAt(mobs, e.id);
    match e
    case Struck(id, src, amt) =>
      var _ := DamageMob(mobs, id, Someone(src), amt, now);
    case Ticked(id, inView, arrived, luck) =>
      StepMob(mobs, id, now, inView, arrived, luck);
    case Mended(id, amt) =>
      if mobs[id].state != DEAD {
        var _ := mobs[id].Heal(amt);
        OneChanged(old(Views(mobs)), Views(mobs), id);
      }
    case Gone(id) =>
      left := mobs - {id};
      assert Views(left) == old(Views(mobs)) - {id};
  }

  /** Every run of damage, steps, healing and removals on mob objects: a mob has a target exactly while it
      fights, its health is in range and it is dead exactly when it has none left, and groups stay in
      order. */
  method Run(mobs: Mobs, events: seq<(Event, int)>) returns (left: Mobs)
    requires ById(mobs) && AllOk(Views(mobs)) && WellGrouped(Views(mobs))
    modifies mobs.Values
    ensures left.Values <= mobs.Values && Reaches(old(Views(mobs)), events, Views(left))
    ensures AllOk(Views(left)) && WellGrouped(Views(left))
  {
    hide AllOk, WellGrouped, Happen, Views;
    left := mobs;
    ghost var ms := Views(mobs);
    var i := 0;
    assert events[0..] == events;
    while i < |events|
      invariant 0 <= i <= |events| && ById(left) && left.Values <= mobs.Values
      invariant AllOk(Views(left)) && WellGrouped(Views(left))
      invariant forall end :: Reaches(Views(left), events[i..], end) ==> Reaches(ms, events, end)
    {
      ghost var before := Views(left);
      HappenOk(before, events[i].0, events[i].1);
      left := Serve(left, events[i].0, events[i].1);
      assert events[i..][0] == events[i] && events[i..][1..] == events[i + 1..];
      i := i + 1;
    }
    assert events[i..] == [];
  }
}
