/** Ids of players, as they appear in packets, and of mobs. */
module Ids {
  datatype PlayerID = PlayerID(n: int)

  datatype MobId = MobId(n: int)
}
