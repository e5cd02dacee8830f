/** The list of followers that a group leader keeps. */
module MobGroups {
  import opened Ids

  const NONE := MobId(0)

  // The entries of a leader's list before the first empty one.
  function Listed(members: seq<MobId>): (r: seq<MobId>)
    ensures |r| <= |members|
    ensures forall k | k in r :: k in members && k != NONE
  {
    if |members| == 0 || members[0] == NONE then [] else [members[0]] + Listed(members[1..])
  }

  function Firsts(members: seq<MobId>, i: nat): set<MobId>
    requires i <= |members|
  {
    set k | k in members[..i]
  }

  lemma FirstsStep(members: seq<MobId>, i: nat)
    requires i < |members|
    ensures Firsts(members, i + 1) == Firsts(members, i) + {members[i]}
  {
  }

  // A loop over the list that stops at the first empty entry has seen the listed ones.
  lemma {:induction false} FirstsAreListed(members: seq<MobId>, i: nat)
    requires i <= |members| && (forall j | 0 <= j < i :: members[j] != NONE) && (i == |members| || members[i] == NONE)
    ensures Listed(members) == members[..i]
  {
    if i > 0 {
      FirstsAreListed(members[1..], i - 1);
      assert members[..i] == [members[0]] + members[1..][..i - 1];
    }
  }
}
