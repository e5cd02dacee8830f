/** When a mob changes its state, said of one whole step and without the functions that make it up. */
module MobTransitions {
  import opened Ids
  import opened MobGroups
  import opened MobMachine

  // Everybody else is as before.
  predicate OthersStay(ms: Minds, ms': Minds, id: MobId) {
    ms'.Keys == ms.Keys && forall k | k in ms && k != id :: ms'[k] == ms[k]
  }

  /** A dead mob fades after two seconds, and comes back with full health exactly when it has faded, was not
      summoned for this, and its time has passed; until then nothing else of it changes. */
  lemma DeadStepIs(ms: Minds, id: MobId, now: int, inView: bool, arrived: bool, luck: Luck)
    requires id in ms && ms[id].state.DEAD?
    ensures OthersStay(ms, Step(ms, id, now, inView, arrived, luck), id)
    ensures var m, m' := ms[id], Step(ms, id, now, inView, arrived, luck)[id];
            var fades := m.killedTime != 0 && now - m.killedTime > 2000;
            && (m'.state.ROAMING? <==>
                  && (m.despawned || (fades && !m.summoned))
                  && (m.killedTime == 0 || now - m.killedTime >= m.regenTime * 100))
            && m' == if m'.state.ROAMING? then m.(state := ROAMING, hp := m.maxHealth, killedTime := 0, nextAttack := 0,
                                                  skillStyle := -1, despawned := true)
                     else m.(despawned := m.despawned || fades)
  {
  }

  /** A roaming mob in view looks for a player every half second, and fights exactly if it finds one. */
  lemma RoamingStepIs(ms: Minds, id: MobId, now: int, inView: bool, arrived: bool, luck: Luck)
    requires id in ms && ms[id].state.ROAMING?
    ensures var m, ms' := ms[id], Step(ms, id, now, inView, arrived, luck);
            var looks := inView && (m.nextAttack == 0 || now >= m.nextAttack);
            && id in ms'
            && (ms'[id].state.COMBAT? <==> looks && luck.found.Someone?)
            && ms'[id] == (if ms'[id].state.COMBAT? then m.(state := COMBAT, target := luck.found, nextAttack := 0)
                           else if looks then m.(nextAttack := now + 500) else m)
            && (!ms'[id].state.COMBAT? ==> OthersStay(ms, ms', id))
  {
  }

  /** A retreating mob comes to rest exactly when it arrives, in view or not, and is whole again. */
  lemma RetreatStepIs(ms: Minds, id: MobId, now: int, inView: bool, arrived: bool, luck: Luck)
    requires id in ms && ms[id].state.RETREAT?
    ensures var m, ms' := ms[id], Step(ms, id, now, inView, arrived, luck);
            && OthersStay(ms, ms', id)
            && ms'[id] == if arrived then m.(state := ROAMING, hp := m.maxHealth, killedTime := 0, nextAttack := 0,
                                             skillStyle := -1)
                          else m
  {
  }

  // ---- a combat step

  function Sum(drains: seq<nat>): nat {
    if |drains| == 0 then 0 else drains[0] + Sum(drains[1..])
  }

  // The buffs take their sum, or all there is; a mob that winds up a skill takes nothing.
  lemma {:induction false} DrainIs(ms: Minds, id: MobId, src: Target, drains: seq<nat>, now: int)
    requires AllOk(ms) && id in ms && ms[id].state.COMBAT?
    ensures var m, ms' := ms[id], Drain(ms, id, src, drains, now);
            && OthersStay(ms, ms', id)
            && ms'[id] == if m.skillStyle >= 0 then m
                          else if Sum(drains) >= m.hp then Dead(m, now)
                          else m.(hp := m.hp - Sum(drains))
    decreases |drains|
  {
    if |drains| > 0 {
      var m, next := ms[id], TakeDamage(ms, id, src, drains[0], now);
      DamageOk(ms, id, src, drains[0], now);
      if m.skillStyle < 0 {
        StruckInCombat(ms, id, src, drains[0], now);
      }
      hide TakeDamage, AllOk;
      if next[id].state.COMBAT? {
        DrainIs(next, id, src, drains[1..], now);
      }
    }
  }

  // What is left of a mob that dies now.
  function Dead(m: Mind, now: int): Mind {
    m.(state := DEAD, target := Nobody, hp := 0, skillStyle := -1, killedTime := now, despawned := false)
  }

  // What hits the mob itself in a combat step: its buffs, and a corruption of its own thrown back.
  function Suffered(m: Mind, luck: Luck): nat {
    (if m.skillStyle < 0 then Sum(luck.drains) else 0) + if Throws(m, luck) then luck.reflected else 0
  }

  // It throws the corruption or eruption it has wound up.
  predicate Throws(m: Mind, luck: Luck) {
    !luck.stunned && luck.casts && m.skillStyle >= 0
  }

  // Its target is lost before it can attack.
  predicate LosesTarget(m: Mind, luck: Luck) {
    luck.lost || (Throws(m, luck) && luck.reflected == 0 && luck.corrupted)
  }

  predicate Dies(m: Mind, luck: Luck) {
    !luck.lost && Suffered(m, luck) >= m.hp
  }

  // It gets to the end of the step with a target.
  predicate Fights(m: Mind, luck: Luck) {
    !luck.lost && !luck.stunned && !Dies(m, luck) && (LosesTarget(m, luck) ==> luck.found.Someone?)
  }

  predicate GivesUp(m: Mind, luck: Luck) {
    && !Dies(m, luck)
    && ((LosesTarget(m, luck) && luck.found.Nobody?)
        || (Fights(m, luck) && (luck.outOfRange || (luck.attacks && luck.kills && luck.foundNext.Nobody?))))
  }

  // What a mob is after its target is lost.
  function Next(m: Mind, found: Target): Mind {
    if found.Someone? then m.(state := COMBAT, target := found, nextAttack := 0)
    else m.(state := RETREAT, target := Nobody, skillStyle := -1)
  }

  lemma LoseAggroIs(ms: Minds, id: MobId, found: Target)
    requires AllOk(ms) && id in ms && !ms[id].state.DEAD?
    ensures id in LoseAggro(ms, id, found) && LoseAggro(ms, id, found)[id] == Next(ms[id], found)
  {
    if found.Someone? {
      EngageOk(ms, id, found.player);
    } else {
      WithdrawOk(ms, id);
    }
  }

  // A fighting mob after useAbilities.
  function Used(m: Mind, now: int, luck: Luck): Mind {
    var m1 :=
      if m.skillStyle >= 0 || m.skillStyle == -2 then m.(skillStyle := -3, nextAttack := now + 1000)
      else if m.skillStyle == -3 then m.(skillStyle := -1)
      else m.(skillStyle := luck.style, nextAttack := if luck.style != -1 then now + 1800
                                                      else if luck.active then now + luck.delay else m.nextAttack);
    if m.skillStyle < 0 then m1
    else if luck.reflected >= m.hp then Dead(m1, now)
    else if luck.reflected > 0 then m1.(hp := m.hp - luck.reflected)
    else if luck.corrupted then Next(m1, luck.found)
    else m1
  }

  lemma UseAbilitiesIs(ms: Minds, id: MobId, now: int, luck: Luck)
    requires AllOk(ms) && id in ms && ms[id].state.COMBAT?
    ensures UseAbilities(ms, id, now, luck)[id] == Used(ms[id], now, luck)
  {
    hide LoseAggro, TakeDamage;
    var wound := ms[id := Wound(ms[id], now, luck)];
    OneOk(ms, id, Wound(ms[id], now, luck));
    if ms[id].skillStyle >= 0 {
      if luck.reflected > 0 {
        StruckInCombat(wound, id, ms[id].target, luck.reflected, now);
      } else if luck.corrupted {
        LoseAggroIs(wound, id, luck.found);
      }
    }
  }

  lemma StruckInCombat(ms: Minds, id: MobId, src: Target, amt: nat, now: int)
    requires AllOk(ms) && id in ms && ms[id].state.COMBAT? && ms[id].skillStyle < 0
    ensures TakeDamage(ms, id, src, amt, now)
         == ms[id := if amt >= ms[id].hp then Dead(ms[id], now) else ms[id].(hp := ms[id].hp - amt)]
  {
  }

  // A fighting mob after its attack and the check of the range.
  function Attacked(m: Mind, now: int, luck: Luck): Mind {
    var m1 := if !luck.attacks then m
              else if luck.kills then Next(m.(nextAttack := now + luck.delay), luck.foundNext)
              else m.(nextAttack := now + luck.delay);
    if luck.outOfRange then Next(m1, Nobody) else m1
  }

  lemma AttackIs(ms: Minds, id: MobId, now: int, luck: Luck)
    requires AllOk(ms) && id in ms && ms[id].state.COMBAT?
    ensures var ms' := AttackAndReturn(ms, id, now, luck);
            id in ms' && ms'[id] == Attacked(ms[id], now, luck)
  {
    hide LoseAggro, Withdraw;
    var attacked := ms;
    if luck.attacks {
      var hit := ms[id := ms[id].(nextAttack := now + luck.delay)];
      OneOk(ms, id, hit[id]);
      attacked := hit;
      if luck.kills {
        LoseAggroIs(hit, id, luck.foundNext);
        LoseAggroOk(hit, id, luck.foundNext);
        attacked := LoseAggro(hit, id, luck.foundNext);
      }
    }
    if luck.outOfRange {
      WithdrawOk(attacked, id);
    }
  }

  /** A fighting mob in view, after the step. */
  function Fought(m: Mind, now: int, luck: Luck): Mind {
    if luck.lost then Next(m, luck.found)
    else
      var d := if m.skillStyle < 0 then Sum(luck.drains) else 0;
      if d >= m.hp then Dead(m, now)
      else
        var m1 := m.(hp := m.hp - d);
        if luck.stunned then m1.(skillStyle := -1)
        else
          var m2 := if luck.casts then Used(m1, now, luck) else m1;
          if m2.state.COMBAT? then Attacked(m2, now, luck) else m2
  }

  lemma FoughtIs(ms: Minds, id: MobId, now: int, luck: Luck)
    requires AllOk(ms) && id in ms && ms[id].state.COMBAT?
    ensures var ms' := CombatStep(ms, id, now, luck);
            id in ms' && ms'[id] == Fought(ms[id], now, luck)
  {
    hide LoseAggro, Drain, UseAbilities, AttackAndReturn, Used, Attacked, Sum;
    if luck.lost {
      LoseAggroIs(ms, id, luck.found);
    } else {
      var drained := Drain(ms, id, ms[id].target, luck.drains, now);
      DrainIs(ms, id, ms[id].target, luck.drains, now);
      DrainOk(ms, id, ms[id].target, luck.drains, now);
      if drained[id].state.COMBAT? && !luck.stunned {
        var cast := drained;
        if luck.casts {
          UseAbilitiesIs(drained, id, now, luck);
          UseAbilitiesOk(drained, id, now, luck);
          cast := UseAbilities(drained, id, now, luck);
        }
        if cast[id].target.Someone? {
          AttackIs(cast, id, now, luck);
        }
      }
    }
  }

  lemma UsedEnds(m: Mind, now: int, luck: Luck)
    requires m.state.COMBAT? && m.hp > 0
    ensures var u, hit := Used(m, now, luck), m.skillStyle >= 0;
            && (u.state.DEAD? <==> hit && luck.reflected >= m.hp)
            && (u.state.RETREAT? <==> hit && luck.reflected == 0 && luck.corrupted && luck.found.Nobody?)
            && (u.state.COMBAT? <==> !u.state.DEAD? && !u.state.RETREAT?)
            && u.hp == (if u.state.DEAD? then 0 else m.hp - if hit then luck.reflected else 0)
            && u.target == (if !u.state.COMBAT? then Nobody
                            else if hit && luck.reflected == 0 && luck.corrupted then luck.found else m.target)
            && (if u.state.DEAD? then u.killedTime == now && !u.despawned
                else u.killedTime == m.killedTime && u.despawned == m.despawned)
  {
  }

  lemma AttackedEnds(m: Mind, now: int, luck: Luck)
    requires m.state.COMBAT?
    ensures var a := Attacked(m, now, luck);
            && (a.state.RETREAT? <==> luck.outOfRange || (luck.attacks && luck.kills && luck.foundNext.Nobody?))
            && (a.state.COMBAT? <==> !a.state.RETREAT?)
            && a.target == (if a.state.RETREAT? then Nobody
                            else if luck.attacks && luck.kills then luck.foundNext else m.target)
            && a.hp == m.hp && a.killedTime == m.killedTime && a.despawned == m.despawned
  {
  }

  lemma FoughtEnds(m: Mind, now: int, luck: Luck)
    requires Ok(m) && m.state.COMBAT?
    ensures var m' := Fought(m, now, luck);
            && (m'.state.DEAD? <==> Dies(m, luck))
            && (m'.state.RETREAT? <==> GivesUp(m, luck))
            && (m'.state.COMBAT? <==> !Dies(m, luck) && !GivesUp(m, luck))
            && m'.hp == (if luck.lost then m.hp else if Dies(m, luck) then 0 else m.hp - Suffered(m, luck))
            && m'.target == Opponent(m, luck)
            && (Dies(m, luck) ==> m'.killedTime == now && !m'.despawned)
            && (!Dies(m, luck) ==> m'.killedTime == m.killedTime && m'.despawned == m.despawned)
  {
    hide Sum, Used, Attacked;
    var d := if m.skillStyle < 0 then Sum(luck.drains) else 0;
    if !luck.lost && d < m.hp && !luck.stunned {
      var m1 := m.(hp := m.hp - d);
      var m2 := if luck.casts then Used(m1, now, luck) else m1;
      UsedEnds(m1, now, luck);
      if m2.state.COMBAT? {
        AttackedEnds(m2, now, luck);
      }
    }
  }

  lemma FoughtStyle(m: Mind, now: int, luck: Luck)
    requires Ok(m) && m.state.COMBAT?
    ensures var m' := Fought(m, now, luck);
            && m'.skillStyle == (if Dies(m, luck) || GivesUp(m, luck) then -1 else StyleAfter(m, luck))
            && (m'.state.COMBAT? && Fights(m, luck) && luck.attacks && !luck.kills ==>
                  m'.nextAttack == now + luck.delay)
  {
    hide Sum;
  }

  // The player it fights after the step, if any.
  function Opponent(m: Mind, luck: Luck): Target {
    if Dies(m, luck) || GivesUp(m, luck) then Nobody
    else if Fights(m, luck) && luck.attacks && luck.kills then luck.foundNext
    else if LosesTarget(m, luck) then luck.found
    else m.target
  }

  // What it has wound up if it fights on: -3 is the pause after a hit, -2 an eruption, 0 or more a corruption.
  function StyleAfter(m: Mind, luck: Luck): int {
    if luck.lost then m.skillStyle
    else if luck.stunned then -1
    else if !luck.casts then m.skillStyle
    else if m.skillStyle >= 0 || m.skillStyle == -2 then -3
    else if m.skillStyle == -3 then -1
    else luck.style
  }

  /** A fighting mob in view dies exactly if what it suffers is not less than its hit points, retreats exactly
      if it is left without a target or gets out of range, and otherwise fights on, against the player it
      found last. */
  lemma CombatStepIs(ms: Minds, id: MobId, now: int, inView: bool, arrived: bool, luck: Luck)
    requires AllOk(ms) && id in ms && ms[id].state.COMBAT? && inView
    ensures id in Step(ms, id, now, inView, arrived, luck)
    ensures var m, m' := ms[id], Step(ms, id, now, inView, arrived, luck)[id];
            && (m'.state.DEAD? <==> Dies(m, luck))
            && (m'.state.RETREAT? <==> GivesUp(m, luck))
            && (m'.state.COMBAT? <==> !Dies(m, luck) && !GivesUp(m, luck))
            && m'.hp == (if luck.lost then m.hp else if Dies(m, luck) then 0 else m.hp - Suffered(m, luck))
            && m'.target == Opponent(m, luck)
            && (Dies(m, luck) ==> m'.killedTime == now && !m'.despawned)
            && (!Dies(m, luck) ==> m'.killedTime == m.killedTime && m'.despawned == m.despawned)
            && m'.skillStyle == (if Dies(m, luck) || GivesUp(m, luck) then -1 else StyleAfter(m, luck))
            && (m'.state.COMBAT? && Fights(m, luck) && luck.attacks && !luck.kills ==>
                  m'.nextAttack == now + luck.delay)
  {
    hide CombatStep, Fought, Dies, GivesUp, Fights, LosesTarget, Suffered, Opponent, StyleAfter;
    FoughtIs(ms, id, now, luck);
    FoughtEnds(ms[id], now, luck);
    FoughtStyle(ms[id], now, luck);
  }

  /** Out of sight nobody looks for a player or fights. */
  lemma OutOfSight(ms: Minds, id: MobId, now: int, arrived: bool, luck: Luck)
    requires AllOk(ms) && id in ms && (ms[id].state.ROAMING? || ms[id].state.COMBAT?)
    ensures Step(ms, id, now, false, arrived, luck) == ms
  {
  }

  // ---- the group

  // Whoever is not in the group of `id` is as before, and without its leader so is the group.
  predicate GroupOnly(ms: Minds, ms': Minds, id: MobId)
    requires id in ms
  {
    ms'.Keys == ms.Keys && forall k | k in ms && k != id && ms'[k] != ms[k] ::
      ms[k].groupLeader == ms[id].groupLeader && ms[id].groupLeader in ms
  }

  // No mate is in this state.
  predicate NoMate(ms: Minds, id: MobId, state: AIState)
    requires id in ms
  {
    forall k | k in ms && k != id && ms[k].groupLeader == ms[id].groupLeader :: ms[k].state != state
  }

  lemma EngageGroup(ms: Minds, id: MobId, p: PlayerID)
    requires WellGrouped(ms) && AllOk(ms) && id in ms && !ms[id].state.DEAD?
    ensures var ms' := Engage(ms, id, p);
            GroupOnly(ms, ms', id) && (ms[id].groupLeader in ms ==> NoMate(ms', id, ROAMING))
            && WellGrouped(ms') && AllOk(ms') && SameBodies(ms, ms')
  {
    hide WellGrouped, AllOk;
    EngageOk(ms, id, p);
    StaysGrouped(ms, Engage(ms, id, p));
    if ms[id].groupLeader in ms {
      EngageTogether(ms, id, p);
    } else {
      EngagesAlone(ms, id, p);
    }
  }

  lemma WithdrawGroup(ms: Minds, id: MobId)
    requires WellGrouped(ms) && AllOk(ms) && id in ms && !ms[id].state.DEAD?
    ensures var ms' := Withdraw(ms, id);
            GroupOnly(ms, ms', id) && (ms[id].groupLeader in ms ==> NoMate(ms', id, COMBAT))
            && WellGrouped(ms') && AllOk(ms') && SameBodies(ms, ms')
  {
    hide WellGrouped, AllOk;
    WithdrawOk(ms, id);
    StaysGrouped(ms, Withdraw(ms, id));
    if ms[id].groupLeader in ms {
      RetreatTogether(ms, id);
    } else {
      WithdrawsAlone(ms, id);
    }
  }

  // What every part of a step keeps: only the group is affected, and retreats together.
  predicate Together(ms: Minds, ms': Minds, id: MobId)
    requires id in ms
  {
    && WellGrouped(ms') && AllOk(ms') && SameBodies(ms, ms') && GroupOnly(ms, ms', id)
    && (ms[id].state.COMBAT? && ms'[id].state.RETREAT? && ms[id].groupLeader in ms ==> NoMate(ms', id, COMBAT))
  }

  lemma TogetherAlone(ms: Minds, id: MobId, m: Mind)
    requires WellGrouped(ms) && AllOk(ms) && id in ms && Ok(m) && SameBodies(ms, ms[id := m])
    requires !(ms[id].state.COMBAT? && m.state.RETREAT?)
    ensures Together(ms, ms[id := m], id)
  {
    hide WellGrouped;
    StaysGrouped(ms, ms[id := m]);
  }

  lemma TogetherTwice(ms: Minds, ms1: Minds, ms2: Minds, id: MobId)
    requires id in ms && Together(ms, ms1, id) && Together(ms1, ms2, id) && ms1[id].state.COMBAT?
    ensures Together(ms, ms2, id)
  {
    hide WellGrouped, AllOk;
    forall k | k in ms && k != id && ms2[k] != ms[k]
      ensures ms[k].groupLeader == ms[id].groupLeader && ms[id].groupLeader in ms
    {
      assert ms1[k] != ms[k] || ms2[k] != ms1[k];
    }
  }

  lemma LoseAggroTogether(ms: Minds, id: MobId, found: Target)
    requires WellGrouped(ms) && AllOk(ms) && id in ms && ms[id].state.COMBAT?
    ensures Together(ms, LoseAggro(ms, id, found), id)
    ensures found.Someone? && ms[id].groupLeader in ms ==> NoMate(LoseAggro(ms, id, found), id, ROAMING)
  {
    hide WellGrouped, AllOk, NoMate, GroupOnly;
    LoseAggroIs(ms, id, found);
    if found.Someone? {
      EngageGroup(ms, id, found.player);
    } else {
      WithdrawGroup(ms, id);
    }
  }

  lemma UseAbilitiesTogether(ms: Minds, id: MobId, now: int, luck: Luck)
    requires WellGrouped(ms) && AllOk(ms) && id in ms && ms[id].state.COMBAT?
    ensures Together(ms, UseAbilities(ms, id, now, luck), id)
  {
    hide WellGrouped, AllOk, NoMate, GroupOnly, LoseAggro, TakeDamage;
    var wound := ms[id := Wound(ms[id], now, luck)];
    StillOk(ms, id);
    WoundOk(ms[id], now, luck);
    TogetherAlone(ms, id, wound[id]);
    if ms[id].skillStyle >= 0 {
      if luck.reflected > 0 {
        StruckInCombat(wound, id, ms[id].target, luck.reflected, now);
        DamageOk(wound, id, ms[id].target, luck.reflected, now);
        StillOk(TakeDamage(wound, id, ms[id].target, luck.reflected, now), id);
        TogetherAlone(wound, id, TakeDamage(wound, id, ms[id].target, luck.reflected, now)[id]);
        TogetherTwice(ms, wound, TakeDamage(wound, id, ms[id].target, luck.reflected, now), id);
      } else if luck.corrupted {
        LoseAggroTogether(wound, id, luck.found);
        TogetherTwice(ms, wound, LoseAggro(wound, id, luck.found), id);
      }
    }
  }

  lemma StillOk(ms: Minds, id: MobId)
    requires AllOk(ms) && id in ms
    ensures Ok(ms[id])
  {
  }

  // The second part retreats, whatever the first one did.
  lemma TogetherThenWithdraw(ms: Minds, ms1: Minds, id: MobId)
    requires id in ms && Together(ms, ms1, id) && !ms1[id].state.DEAD?
    ensures Together(ms, Withdraw(ms1, id), id)
  {
    hide WellGrouped, AllOk, Withdraw;
    WithdrawGroup(ms1, id);
    forall k | k in ms && k != id && Withdraw(ms1, id)[k] != ms[k]
      ensures ms[k].groupLeader == ms[id].groupLeader && ms[id].groupLeader in ms
    {
      assert ms1[k] != ms[k] || Withdraw(ms1, id)[k] != ms1[k];
    }
  }

  lemma AttackTogether(ms: Minds, id: MobId, now: int, luck: Luck)
    requires WellGrouped(ms) && AllOk(ms) && id in ms && ms[id].state.COMBAT?
    ensures Together(ms, AttackAndReturn(ms, id, now, luck), id)
  {
    hide WellGrouped, AllOk, NoMate, GroupOnly, LoseAggro, Withdraw;
    var attacked := ms;
    StillOk(ms, id);
    TogetherAlone(ms, id, ms[id]);
    assert ms[id := ms[id]] == ms;
    if luck.attacks {
      var hit := ms[id := ms[id].(nextAttack := now + luck.delay)];
      TogetherAlone(ms, id, hit[id]);
      attacked := hit;
      if luck.kills {
        LoseAggroTogether(hit, id, luck.foundNext);
        LoseAggroOk(hit, id, luck.foundNext);
        attacked := LoseAggro(hit, id, luck.foundNext);
        TogetherTwice(ms, hit, attacked, id);
      }
    }
    if luck.outOfRange {
      TogetherThenWithdraw(ms, attacked, id);
    }
  }

  lemma CombatTogether(ms: Minds, id: MobId, now: int, luck: Luck)
    requires WellGrouped(ms) && AllOk(ms) && id in ms && ms[id].state.COMBAT?
    ensures Together(ms, CombatStep(ms, id, now, luck), id)
  {
    hide WellGrouped, AllOk, NoMate, GroupOnly, LoseAggro, Drain, UseAbilities, AttackAndReturn, Sum;
    if luck.lost {
      LoseAggroTogether(ms, id, luck.found);
    } else {
      var drained := Drain(ms, id, ms[id].target, luck.drains, now);
      DrainIs(ms, id, ms[id].target, luck.drains, now);
      DrainOk(ms, id, ms[id].target, luck.drains, now);
      OnlyThat(ms, drained, id);
      StillOk(drained, id);
      TogetherAlone(ms, id, drained[id]);
      if drained[id].state.COMBAT? {
        if luck.stunned {
          TogetherAlone(drained, id, drained[id].(skillStyle := -1));
          TogetherTwice(ms, drained, drained[id := drained[id].(skillStyle := -1)], id);
        } else {
          var cast := drained;
          if luck.casts {
            UseAbilitiesTogether(drained, id, now, luck);
            cast := UseAbilities(drained, id, now, luck);
            TogetherTwice(ms, drained, cast, id);
          }
          if cast[id].target.Someone? {
            StillOk(cast, id);
            AttackTogether(cast, id, now, luck);
            TogetherTwice(ms, cast, AttackAndReturn(cast, id, now, luck), id);
          }
        }
      }
    }
  }

  lemma OnlyThat(ms: Minds, ms': Minds, id: MobId)
    requires id in ms && OthersStay(ms, ms', id)
    ensures ms' == ms[id := ms'[id]]
  {
  }

  /** One step of a mob affects nobody outside its group, and nobody else when the leader is gone; and when
      the mob engages no mate is left roaming, when it retreats no mate is left fighting. */
  lemma StepTogether(ms: Minds, id: MobId, now: int, inView: bool, arrived: bool, luck: Luck)
    requires WellGrouped(ms) && AllOk(ms) && id in ms
    ensures ms[id].state.COMBAT? ==> ms[id].target.Someone?
    ensures var ms' := Step(ms, id, now, inView, arrived, luck);
            && GroupOnly(ms, ms', id)
            && (ms[id].groupLeader in ms && ms[id].state.ROAMING? && ms'[id].state.COMBAT? ==> NoMate(ms', id, ROAMING))
            && (ms[id].groupLeader in ms && ms[id].state.COMBAT? && ms'[id].state.RETREAT? ==> NoMate(ms', id, COMBAT))
  {
    hide WellGrouped, NoMate, CombatStep, Engage;
    if ms[id].state.COMBAT? {
      CombatTogether(ms, id, now, luck);
    } else if ms[id].state.ROAMING? {
      var late := ms[id := ms[id].(nextAttack := now + 500)];
      OneOk(ms, id, late[id]);
      StaysGrouped(ms, late);
      if luck.found.Someone? {
        EngageGroup(late, id, luck.found.player);
      }
    }
  }

  /** A hit on a roaming mob engages whoever hit it, together with its group; a hit on any other mob affects
      nobody else. */
  lemma StruckTogether(ms: Minds, id: MobId, p: PlayerID, amt: nat, now: int)
    requires WellGrouped(ms) && AllOk(ms) && id in ms
    ensures var m, ms' := ms[id], TakeDamage(ms, id, Someone(p), amt, now);
            && GroupOnly(ms, ms', id)
            && (if m.state.ROAMING? && m.skillStyle < 0
                then && (ms'[id].state.COMBAT? ==> ms'[id].target == Someone(p))
                     && (m.groupLeader in ms ==> NoMate(ms', id, ROAMING))
                else OthersStay(ms, ms', id))
  {
    hide WellGrouped, Engage;
    if ms[id].state.ROAMING? && ms[id].skillStyle < 0 {
      EngageOk(ms, id, p);
      EngageGroup(ms, id, p);
    }
  }

  /** Healing gives what was asked for, or what is missing, and changes nothing else. */
  lemma HealIs(m: Mind, amt: nat)
    requires m.hp <= m.maxHealth
    ensures Healed(m, amt) == m.(hp := if m.hp + amt < m.maxHealth then m.hp + amt else m.maxHealth)
  {
  }
}
