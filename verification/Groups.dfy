/** Player groups: a group knows its members and each member its group. */
module Groups {
  import opened Ids

  const MAX_MEMBERS := 4

  class Player {
    const iID: PlayerID
    var group: Group?

    constructor (iID: PlayerID)
      ensures this.iID == iID && group == null
    {
      this.iID := iID;
      group := null;
    }
  }

  class Group {
    var members: seq<Player>
    ghost const founder: Player

    constructor (leader: Player)
      modifies leader
      ensures members == [leader] && founder == leader && leader.group == this
    {
      founder := leader;
      members := [];
      new;
      AddToGroup(this, leader);
    }
  }

  predicate Distinct(s: seq<Player>) {
    forall i, j | 0 <= i < j < |s| :: s[i] != s[j]
  }

  // vector::erase of the first occurrence, if there is one
  function Without(s: seq<Player>, x: Player): (r: seq<Player>)
    ensures x !in s ==> r == s
    ensures x in s ==> |r| == |s| - 1
  {
    if |s| == 0 then []
    else if s[0] == x then s[1..]
    else [s[0]] + Without(s[1..], x)
  }

  lemma {:induction false} WithoutDistinct(s: seq<Player>, x: Player)
    requires Distinct(s)
    ensures Distinct(Without(s, x)) && x !in Without(s, x)
    ensures forall y | y != x :: y in Without(s, x) <==> y in s
    ensures |s| > 0 && s[0] != x ==> |Without(s, x)| > 0 && Without(s, x)[0] == s[0]
  {
    if |s| > 0 {
      var rest := Without(s[1..], x);
      WithoutDistinct(s[1..], x);
      assert s == [s[0]] + s[1..];
      assert s[0] !in s[1..];
      DistinctCons(s[0], rest);
    }
  }

  // ... and what is left is the list with one entry for it taken out.
  lemma {:induction false} WithoutOne(s: seq<Player>, x: Player) returns (i: nat)
    requires x in s
    ensures i < |s| && s[i] == x && Without(s, x) == s[..i] + s[i + 1..]
  {
    if s[0] == x {
      i := 0;
    } else {
      var j := WithoutOne(s[1..], x);
      i := j + 1;
      assert [s[0]] + (s[1..][..j] + s[1..][j + 1..]) == s[..i] + s[i + 1..];
    }
  }

  lemma DistinctCons(x: Player, s: seq<Player>)
    requires Distinct(s) && x !in s
    ensures Distinct([x] + s)
  {
  }

  lemma {:induction false} WithoutLast(s: seq<Player>)
    requires |s| > 0 && Distinct(s)
    ensures Without(s, s[|s| - 1]) == s[..|s| - 1]
  {
    if |s| > 1 {
      assert s[1..][|s| - 2] == s[|s| - 1] && s[0] != s[|s| - 1];
      WithoutLast(s[1..]);
      assert s[..|s| - 1] == [s[0]] + s[1..][..|s| - 2];
    }
  }

  // ---- the steps

  function JustGroup(group: Group?): set<Group> {
    if group == null then {} else {group}
  }

  function MembersOf(group: Group?): set<Player>
    reads group
  {
    if group == null then {} else set p | p in group.members
  }

  method AddToGroup(group: Group?, member: Player)
    modifies member`group, JustGroup(group)`members
    ensures group != null ==> member.group == group && group.members == old(group.members) + [member]
  {
    if group == null {
      return;
    }
    member.group := group;
    group.members := group.members + [member];
  }

  // Does taking `member` out leave nobody, or one who goes as well?
  ghost predicate Dissolves(members: seq<Player>, member: Player) {
    |Without(members, member)| <= 1
  }

  /** removeFromGroup: a group is not left with one member; true iff it is deleted. */
  method RemoveFromGroup(group: Group?, member: Player) returns (deleted: bool)
    requires group != null ==> Distinct(group.members)
    modifies member`group, JustGroup(group)`members, MembersOf(group)`group
    ensures group == null ==> !deleted && member.group == old(member.group)
    ensures group != null ==> deleted == Dissolves(old(group.members), member)
    ensures group != null ==> group.members == if deleted then [] else Without(old(group.members), member)
    ensures group != null ==> member.group == null
    ensures group != null ==> forall p | p in old(group.members) && p != member ::
              p.group == if deleted then null else old(p.group)
    decreases if group == null then 0 else |group.members|, if group == null || member in group.members then 0 else 1
  {
    if group == null {
      return false;
    }
    WithoutDistinct(group.members, member);
    member.group := null;
    if member in group.members {
      group.members := Without(group.members, member);
    }
    if |group.members| == 1 {
      ghost var last := group.members[0];
      deleted := RemoveFromGroup(group, group.members[0]);
      return;
    }
    if |group.members| == 0 {
      return true;
    }
    return false;
  }

  /** disbandGroup: removes the last member until the group is gone, and everybody is out of it. */
  method DisbandGroup(group: Group?)
    requires group != null ==> Distinct(group.members) && |group.members| >= 1
    modifies JustGroup(group)`members, MembersOf(group)`group
    ensures group != null ==> group.members == []
    ensures group != null ==> forall p | p in old(group.members) :: p.group == null
  {
    if group == null {
      return;
    }
    ghost var all := group.members;
    var done := false;
    while !done
      invariant group.members <= all && (done <==> group.members == [])
      invariant forall p | p in all && p !in group.members :: p.group == null
      decreases |group.members|, !done
    {
      var back := group.members[|group.members| - 1];
      WithoutLast(group.members);
      ghost var before := group.members;
      assert Distinct(before);
      done := RemoveFromGroup(group, back);
    }
  }

  /** groupKick: the leader takes the whole group along. */
  method GroupKick(group: Group?, ref: Player)
    requires group != null ==> Distinct(group.members) && |group.members| >= 1
    modifies ref`group, JustGroup(group)`members, MembersOf(group)`group
    ensures group == null ==> ref.group == old(ref.group)
    ensures group != null ==>
              var gone := old(group.members)[0] == ref || Dissolves(old(group.members), ref);
              && ref.group == null
              && group.members == (if gone then [] else Without(old(group.members), ref))
              && forall p | p in old(group.members) && p != ref :: p.group == if gone then null else old(p.group)
  {
    if group == null {
      return;
    }
    if group.members[0] == ref {
      DisbandGroup(group);
      return;
    }
    var _ := RemoveFromGroup(group, ref);
  }

  // ---- the lobby

  datatype Request =
    | Connect(id: PlayerID)
    | Join(id: PlayerID, from: PlayerID)
    | Leave(id: PlayerID)
    | Disconnect(id: PlayerID)

  // The group of some player: 2 to 4 players, each once, who all name it; its founder leads it.
  ghost predicate GroupOk(g: Group, ps: set<Player>)
    reads g, ps
  {
    && 2 <= |g.members| <= MAX_MEMBERS && Distinct(g.members) && g.members[0] == g.founder
    && forall m | m in g.members :: m in ps && m.group == g
  }

  ghost function GroupsOf(ps: set<Player>): set<Group>
    reads ps
  {
    set p | p in ps && p.group != null :: p.group as Group
  }

  ghost predicate AllGrouped(ps: set<Player>)
    reads ps, GroupsOf(ps)
  {
    forall p | p in ps && p.group != null :: GroupOk(p.group, ps) && p in p.group.members
  }

  // ---- who is in a group with whom

  // For each player the ids in its group, in order; no ids without a group.
  type Roll = map<PlayerID, seq<PlayerID>>

  ghost function IDs(s: seq<Player>): (r: seq<PlayerID>)
    ensures |r| == |s| && forall i | 0 <= i < |s| :: r[i] == s[i].iID
  {
    seq(|s|, i requires 0 <= i < |s| => s[i].iID)
  }

  // Those who are in a group with a player, itself included; nobody without a group.
  ghost function Mates(p: Player): seq<Player>
    reads p, p.group
  {
    if p.group == null then [] else p.group.members
  }

  // A list with one entry for `id` taken out.
  ghost predicate OneOut(team: seq<PlayerID>, id: PlayerID, rest: seq<PlayerID>) {
    exists i :: 0 <= i < |team| && team[i] == id && rest == team[..i] + team[i + 1..]
  }

  // `id` joins `from`, to whose group there is room, at the end of that group, or of a new one led by `from`.
  ghost predicate Joins(before: Roll, id: PlayerID, from: PlayerID, after: Roll) {
    if id !in before || from !in before || before[id] != [] || |before[from]| == MAX_MEMBERS then after == before
    else
      var team := (if before[from] == [] then [from] else before[from]) + [id];
      && after.Keys == before.Keys
      && forall k | k in before :: after[k] == if k in team then team else before[k]
  }

  // `id` leaves; if it was the leader or one other is left, nobody is in the group any more.
  ghost predicate Leaves(before: Roll, id: PlayerID, after: Roll) {
    if id !in before || before[id] == [] then after == before
    else
      var team := before[id];
      && after.Keys == before.Keys && after[id] == []
      && forall k | k in before && k != id ::
        if k !in team then after[k] == before[k]
        else if team[0] == id || |team| == 2 then after[k] == []
        else OneOut(team, id, after[k])
  }

  ghost predicate Does(before: Roll, r: Request, after: Roll) {
    match r
    case Connect(id) => after == if id in before then before else before[id := []]
    case Join(id, from) => Joins(before, id, from, after)
    case Leave(id) => Leaves(before, id, after)
    case Disconnect(id) => exists left :: Leaves(before, id, left) && after == left - {id}
  }

  // Of n steps.
  ghost predicate AllDone(rolls: seq<Roll>, requests: seq<Request>, n: nat)
    requires n < |rolls| && n <= |requests|
  {
    forall i | 0 <= i < n :: var j := i + 1; Does(rolls[i], requests[i], rolls[j])
  }

  // Each id stands for the player it names.
  lemma NamesAre(players: map<PlayerID, Player>, s: seq<Player>, k: PlayerID)
    requires forall id | id in players :: players[id].iID == id
    requires k in players && forall m | m in s :: m in players.Values
    ensures k in IDs(s) <==> players[k] in s
  {
    if k in IDs(s) {
      var i :| 0 <= i < |s| && IDs(s)[i] == k;
      assert s[i] in s;
      var j :| j in players && players[j] == s[i];
    }
    if players[k] in s {
      var i :| 0 <= i < |s| && s[i] == players[k];
      assert IDs(s)[i] == k;
    }
  }

  // The mates of each player, by its id.
  type Circles = map<PlayerID, seq<Player>>

  ghost function RollOf(circles: Circles): Roll {
    map k | k in circles :: IDs(circles[k])
  }

  ghost predicate Named(players: map<PlayerID, Player>, circles: Circles) {
    && circles.Keys == players.Keys && (forall k | k in players :: players[k].iID == k)
    && forall k, m | k in circles && m in circles[k] :: m in players.Values
  }

  lemma NotLeft(circles: Circles, id: PlayerID)
    requires id !in circles || circles[id] == []
    ensures Leaves(RollOf(circles), id, RollOf(circles))
  {
  }

  // `id` is at the end of the circle of `from`, if there was room.
  ghost predicate Joined(players: map<PlayerID, Player>, before: Circles, id: PlayerID, from: PlayerID, after: Circles)
    requires before.Keys == players.Keys && id in players
  {
    if from !in players || before[id] != [] || |before[from]| == MAX_MEMBERS then after == before
    else
      var team := (if before[from] == [] then [players[from]] else before[from]) + [players[id]];
      && after.Keys == players.Keys
      && forall k | k in players :: after[k] == if players[k] in team then team else before[k]
  }

  lemma Alone(p: Player)
    requires p.group == null
    ensures Mates(p) == []
  {
  }

  lemma RollChanged(circles: Circles, id: PlayerID)
    ensures RollOf(circles).Keys == circles.Keys && RollOf(circles - {id}) == RollOf(circles) - {id}
    ensures RollOf(circles[id := []]) == RollOf(circles)[id := []]
  {
  }

  lemma CirclesJoined(players: map<PlayerID, Player>, before: Circles, id: PlayerID, from: PlayerID, after: Circles)
    requires before.Keys == players.Keys == after.Keys && id in players
    requires from !in players || before[id] != [] || |before[from]| == MAX_MEMBERS ==>
               forall k | k in players :: after[k] == before[k]
    requires from in players && before[id] == [] && |before[from]| != MAX_MEMBERS ==>
               var team := (if before[from] == [] then [players[from]] else before[from]) + [players[id]];
               forall k | k in players :: after[k] == if players[k] in team then team else before[k]
    ensures Joined(players, before, id, from, after)
  {
  }

  lemma IdsMore(s: seq<Player>, p: Player)
    ensures IDs(s + [p]) == IDs(s) + [p.iID]
  {
  }

  lemma RollJoined(players: map<PlayerID, Player>, before: Circles, id: PlayerID, from: PlayerID, after: Circles)
    requires Named(players, before) && id in players && Joined(players, before, id, from, after)
    ensures Joins(RollOf(before), id, from, RollOf(after))
  {
    hide IDs, Named, RollOf;
    NamedMates(players, before, from);
    RollAt(before);
    RollAt(after);
    if from in players && before[id] == [] && |before[from]| != MAX_MEMBERS {
      var others := if before[from] == [] then [players[from]] else before[from];
      assert IDs(others) == if before[from] == [] then [from] else IDs(before[from]) by {
        OneId(players[from]);
      }
      RollTaken(players, before, others, id, after);
    }
  }

  lemma NamedMates(players: map<PlayerID, Player>, circles: Circles, k: PlayerID)
    requires Named(players, circles)
    ensures circles.Keys == players.Keys
    ensures k in players ==> players[k].iID == k && forall m | m in circles[k] :: m in players.Values
  {
  }

  lemma RollAt(circles: Circles)
    ensures RollOf(circles).Keys == circles.Keys
    ensures forall k | k in circles :: RollOf(circles)[k] == IDs(circles[k])
  {
  }

  lemma OneId(p: Player)
    ensures IDs([p]) == [p.iID]
  {
  }

  // One more in the group of these others.
  lemma RollTaken(players: map<PlayerID, Player>, before: Circles, others: seq<Player>, id: PlayerID, after: Circles)
    requires Named(players, before) && id in players && after.Keys == players.Keys
    requires forall m | m in others :: m in players.Values
    requires var team := others + [players[id]]; forall k | k in players ::
               after[k] == if players[k] in team then team else before[k]
    ensures var team := IDs(others) + [id]; forall k | k in players ::
              RollOf(after)[k] == if k in team then team else RollOf(before)[k]
  {
    hide IDs;
    IdsMore(others, players[id]);
    forall k | k in players
      ensures k in IDs(others + [players[id]]) <==> players[k] in others + [players[id]]
    {
      NamesAre(players, others + [players[id]], k);
    }
  }

  lemma RollLeft(players: map<PlayerID, Player>, before: Circles, id: PlayerID, after: Circles)
    requires Named(players, before) && after.Keys == players.Keys
    requires id in players && players[id] in before[id] && after[id] == []
    requires var team := before[id];
             forall k | k in players && k != id ::
               after[k] == if players[k] !in team then before[k]
                           else if team[0] == players[id] || |team| == 2 then [] else Without(team, players[id])
    ensures Leaves(RollOf(before), id, RollOf(after))
  {
    hide OneOut, Without;
    var team := before[id];
    OneOutOf(team, players[id]);
    assert team[0] in team;
    assert forall m | m in team :: m in players.Values;
    forall k | k in players && k != id
      ensures players[k] in team <==> k in IDs(team)
    {
      NamesAre(players, team, k);
    }
  }

  lemma OneOutOf(s: seq<Player>, x: Player)
    requires x in s
    ensures OneOut(IDs(s), x.iID, IDs(Without(s, x)))
  {
    var i := WithoutOne(s, x);
    var team := IDs(s);
    assert team[i] == x.iID && IDs(Without(s, x)) == team[..i] + team[i + 1..];
  }

  lemma Unknown(roll: Roll, r: Request)
    requires r.id !in roll && !r.Connect?
    ensures Does(roll, r, roll)
  {
    assert Leaves(roll, r.id, roll);
    assert roll - {r.id} == roll;
  }

  lemma Removed(plr: Player, ps: set<Player>, ps': set<Player>)
    requires AllGrouped(ps) && plr.group == null && ps' <= ps && forall p | p in ps && p != plr :: p in ps'
    ensures AllGrouped(ps')
  {
  }

  class Lobby {
    var players: map<PlayerID, Player>

    constructor ()
      ensures players == map[]
    {
      players := map[];
    }

    ghost predicate Valid()
      reads this, players.Values, GroupsOf(players.Values)
    {
      (forall id | id in players :: players[id].iID == id) && AllGrouped(players.Values)
    }

    ghost function CirclesOf(): Circles
      reads this, players.Values, GroupsOf(players.Values)
    {
      map id | id in players :: Mates(players[id])
    }

    /** joinGroup: the inviter's group takes the joiner in if there is room. */
    method JoinGroup(id: PlayerID, iID_From: PlayerID)
      requires Valid() && id in players && id != iID_From
      modifies players.Values, GroupsOf(players.Values)
      ensures Valid()
      ensures var plr := players[id];
              if iID_From !in players || old(Mates(plr)) != [] || |old(Mates(players[iID_From]))| == MAX_MEMBERS
              then forall p | p in players.Values :: p.group == old(p.group) && Mates(p) == old(Mates(p))
              else && plr.group != null && plr.group == players[iID_From].group
                   && (old(players[iID_From].group) != null ==> plr.group == old(players[iID_From].group))
                   && var team := (if old(Mates(players[iID_From])) == [] then [players[iID_From]]
                                   else old(Mates(players[iID_From]))) + [plr];
                   forall p | p in players.Values ::
                     && Mates(p) == (if p in team then team else old(Mates(p)))
                     && (p != plr && p != players[iID_From] ==> p.group == old(p.group))
      ensures fresh(GroupsOf(players.Values) - old(GroupsOf(players.Values)))
    {
      var plr := players[id];
      if iID_From !in players {
        return;
      }
      var otherPlr := players[iID_From];
      var size := if otherPlr.group == null then 1 else |otherPlr.group.members|;
      if plr.group != null || size + 1 > MAX_MEMBERS {
        return;
      }
      if otherPlr.group == null {
        var g := new Group(otherPlr);
      }
      AddToGroup(otherPlr.group, plr);
      assert plr.group.members ==
          (if old(otherPlr.group) == null then [otherPlr] else old(otherPlr.group.members)) + [plr];
      forall p | p in players.Values && p !in plr.group.members
        ensures p.group == old(p.group) && p.group != plr.group && Mates(p) == old(Mates(p))
      {
      }
      assert GroupOk(plr.group, players.Values);
      forall p | p in players.Values && p.group != null && p.group != plr.group
        ensures GroupOk(p.group, players.Values) && p in p.group.members
      {
        assert old(GroupOk(p.group, players.Values));
      }
    }

    // groupKick of a player from its own group, if it has one
    method Kick(plr: Player)
      requires Valid() && plr in players.Values
      modifies players.Values, GroupsOf(players.Values)
      ensures Valid() && plr.group == null
      ensures var team := old(Mates(plr));
              forall p | p in players.Values && p != plr ::
                if p !in team then p.group == old(p.group) && Mates(p) == old(Mates(p))
                else if team[0] == plr || |team| == 2 then p.group == null
                else p.group == old(plr.group) && Mates(p) == Without(team, plr)
      ensures GroupsOf(players.Values) <= old(GroupsOf(players.Values))
    {
      ghost var g, ps := plr.group, players.Values;
      GroupKick(plr.group, plr);
      if g != null {
        WithoutDistinct(old(g.members), plr);
      }
      forall p | p in ps && p.group != null
        ensures GroupOk(p.group, ps) && p in p.group.members && p.group in old(GroupsOf(ps))
      {
        assert p.group == old(p.group);
        assert old(GroupOk(p.group, ps));
      }
    }

    // the same, said of the ids
    method Joining(id: PlayerID, iID_From: PlayerID)
      requires Valid() && id in players && id != iID_From
      modifies players.Values, GroupsOf(players.Values)
      ensures Valid() && fresh(GroupsOf(players.Values) - old(GroupsOf(players.Values)))
      ensures Joins(old(RollOf(CirclesOf())), id, iID_From, RollOf(CirclesOf()))
    {
      hide *;
      ghost var before := CirclesOf();
      AllNamed(this);
      CirclesAt(this);
      JoinGroup(id, iID_From);
      CirclesAt(this);
      CirclesJoined(players, before, id, iID_From, CirclesOf());
      RollJoined(players, before, id, iID_From, CirclesOf());
    }

    // groupKick of a player, said of the ids
    method Leaving(id: PlayerID)
      requires Valid() && id in players
      modifies players.Values, GroupsOf(players.Values)
      ensures Valid() && players[id].group == null
      ensures GroupsOf(players.Values) <= old(GroupsOf(players.Values))
      ensures Leaves(old(RollOf(CirclesOf())), id, RollOf(CirclesOf()))
    {
      hide *;
      ghost var before := CirclesOf();
      AllNamed(this);
      CirclesAt(this);
      Kick(players[id]);
      CirclesAt(this);
      if before[id] == [] {
        NotLeft(before, id);
        assert CirclesOf() == before;
      } else {
        RollLeft(players, before, id, CirclesOf());
      }
    }

    /** leaveGroup */
    method LeaveGroup(id: PlayerID)
      requires Valid() && id in players
      modifies players.Values, GroupsOf(players.Values)
      ensures Valid() && players[id].group == null
      ensures GroupsOf(players.Values) <= old(GroupsOf(players.Values))
      ensures Leaves(old(RollOf(CirclesOf())), id, RollOf(CirclesOf()))
    {
      Leaving(id);
    }

    /** the part of removePlayer that concerns groups */
    method RemovePlayer(id: PlayerID)
      requires Valid() && id in players
      modifies this, players.Values, GroupsOf(players.Values)
      ensures Valid() && players == old(players) - {id}
      ensures GroupsOf(players.Values) <= old(GroupsOf(players.Values))
      ensures Does(old(RollOf(CirclesOf())), Disconnect(id), RollOf(CirclesOf()))
    {
      hide Leaves, RollOf, Mates, GroupOk;
      var plr := players[id];
      Leaving(id);
      ghost var left := CirclesOf();
      ghost var ps := players.Values;
      players := players - {id};
      Removed(plr, ps, players.Values) by {
        forall p | p in ps && p != plr
          ensures p in players.Values
        {
          var k :| k in old(players) && old(players)[k] == p;
          assert k != id && players[k] == p;
        }
      }
      assert CirclesOf() == left - {id};
      RollChanged(left, id);
    }

    method Connect(id: PlayerID)
      requires Valid()
      modifies this
      ensures Valid()
      ensures players.Keys == old(players).Keys + {id} && forall k | k in old(players) :: players[k] == old(players)[k]
      ensures id !in old(players) ==> fresh(players[id]) && players[id].group == null
      ensures Does(old(RollOf(CirclesOf())), Request.Connect(id), RollOf(CirclesOf()))
    {
      hide RollOf, Leaves, Mates;
      if id in players {
        RollChanged(CirclesOf(), id);
        return;
      }
      ghost var before := CirclesOf();
      var plr := new Player(id);
      ghost var ps := players.Values;
      players := players[id := plr];
      assert players.Values == ps + {plr} by {
        assert players[id] == plr;
        forall p | p in ps
          ensures p in players.Values
        {
          var k :| k in old(players) && old(players)[k] == p;
          assert players[k] == p;
        }
      }
      forall p | p in players.Values && p.group != null
        ensures GroupOk(p.group, players.Values)
      {
        assert GroupOk(p.group, ps);
      }
      Alone(plr);
      assert CirclesOf() == before[id := []];
      RollChanged(before, id);
    }

    method Serve(r: Request)
      requires Valid() && (r.Join? ==> r.id != r.from)
      modifies this, players.Values, GroupsOf(players.Values)
      ensures Valid()
      ensures forall p | p in players.Values :: p in old(players.Values) || fresh(p)
      ensures forall g | g in GroupsOf(players.Values) :: g in old(GroupsOf(players.Values)) || fresh(g)
      ensures Does(old(RollOf(CirclesOf())), r, RollOf(CirclesOf()))
    {
      hide Joins, Leaves;
      if r.Connect? {
        Connect(r.id);
      } else if r.id in players {
        match r
        case Join(id, from) => Joining(id, from);
        case Leave(id) => LeaveGroup(id);
        case Disconnect(id) => RemovePlayer(id);
      } else {
        Unknown(RollOf(CirclesOf()), r);
      }
    }
  }

  lemma CirclesAt(lobby: Lobby)
    ensures lobby.CirclesOf().Keys == lobby.players.Keys
    ensures forall k | k in lobby.players :: lobby.players[k] in lobby.players.Values
              && lobby.CirclesOf()[k] == Mates(lobby.players[k])
    ensures forall k | k in lobby.players && lobby.players[k].group == null :: Mates(lobby.players[k]) == []
  {
  }

  // A player without a group has an empty circle, and one with a group is in its own.
  lemma AllNamed(lobby: Lobby)
    requires lobby.Valid()
    ensures Named(lobby.players, lobby.CirclesOf())
    ensures forall id | id in lobby.players :: var p, circle := lobby.players[id], lobby.CirclesOf()[id];
              (p.group == null <==> circle == []) && (p.group != null ==> p in circle)
  {
    forall id | id in lobby.players && lobby.players[id].group != null
      ensures GroupOk(lobby.players[id].group, lobby.players.Values)
    {
    }
  }

  /** Over every run from the empty lobby, groups and players name each other: a player is in the
      members of a group iff it names that group, groups have 2 to 4 members, each once, and the
      founder stays at the head. */
  method Run(requests: seq<Request>) returns (lobby: Lobby, ghost rolls: seq<Roll>)
    requires forall k | 0 <= k < |requests| && requests[k].Join? :: requests[k].id != requests[k].from
    ensures lobby.Valid()
    ensures forall p, g | p in lobby.players.Values && g in GroupsOf(lobby.players.Values) ::
              p.group == g <==> p in g.members
    ensures forall g | g in GroupsOf(lobby.players.Values) ::
              2 <= |g.members| <= MAX_MEMBERS && Distinct(g.members) && g.members[0] == g.founder
    ensures |rolls| == |requests| + 1 && rolls[0] == map[] && AllDone(rolls, requests, |requests|)
    ensures rolls[|requests|] == RollOf(lobby.CirclesOf())
  {
    hide Does;
    lobby := new Lobby();
    rolls := [RollOf(lobby.CirclesOf())];
    for i := 0 to |requests|
      invariant lobby.Valid() && fresh(lobby)
      invariant fresh(lobby.players.Values) && fresh(GroupsOf(lobby.players.Values))
      invariant |rolls| == i + 1 && rolls[0] == map[] && AllDone(rolls, requests, i)
      invariant rolls[i] == RollOf(lobby.CirclesOf())
    {
      lobby.Serve(requests[i]);
      rolls := rolls + [RollOf(lobby.CirclesOf())];
    }
  }
}
