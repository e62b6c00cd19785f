/**
 * The three enumerations the rules engine uses: the players, the four neighbour
 * directions and the orientation of a mill.
 */
module Enums {

  /** The two players; `Cat` is 0 and `Dog` is 1 where the source uses a player as an index. */
  datatype Player = Cat | Dog

  /** The index of a player in a board's team list. */
  function PlayerIndex(p: Player): (k: nat)
    ensures k < 2
    ensures p == Cat <==> k == 0
  {
    match p
    case Cat => 0
    case Dog => 1
  }

  /** The player with the given index (the inverse of PlayerIndex). */
  function PlayerAt(k: nat): (p: Player)
    requires k < 2
    ensures PlayerIndex(p) == k
  {
    if k == 0 then Cat else Dog
  }

  datatype Direction = Up | Down | Left | Right

  /** The orientation of the mill(s) a position is part of; "no mill" is `None` of Option. */
  datatype Orientation = Horizontal | Vertical | Both
}
