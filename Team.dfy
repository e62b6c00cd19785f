/**
 * A team: the player it belongs to and its two token counters. The class keeps
 * the counters as mutable fields; `TeamState` is its value, which a board
 * snapshot and the board record carry.
 */
module Teams {
  import opened Wrappers
  import opened Enums

  /** The number of tokens each team starts with. */
  const InitialTokens: int := 9

  /** The value of a team: its player, its unplaced tokens and its tokens still on the board or in hand. */
  datatype TeamState = TeamState(player: Player, numUnplacedTokens: int, numAliveTokens: int)

  /** Team.placeToken on a value: one token fewer to place, but never fewer than none. */
  function PlacedToken(t: TeamState): (r: TeamState)
    ensures r.player == t.player && r.numAliveTokens == t.numAliveTokens
    ensures r.numUnplacedTokens <= t.numUnplacedTokens
    ensures t.numUnplacedTokens > 0 <==> r.numUnplacedTokens == t.numUnplacedTokens - 1
    ensures t.numUnplacedTokens >= 0 ==> r.numUnplacedTokens >= 0
  {
    if t.numUnplacedTokens > 0 then t.(numUnplacedTokens := t.numUnplacedTokens - 1) else t
  }

  /** Team.removeToken on a value: exactly one alive token fewer, with no lower bound. */
  function RemovedToken(t: TeamState): (r: TeamState)
    ensures r.player == t.player && r.numUnplacedTokens == t.numUnplacedTokens
    ensures r.numAliveTokens == t.numAliveTokens - 1
  {
    t.(numAliveTokens := t.numAliveTokens - 1)
  }

  class Team {
    const player: Player
    var numUnplacedTokens: int
    var numAliveTokens: int

    /** The value of this team. */
    function State(): (s: TeamState)
      reads this
      ensures s.player == player
    {
      TeamState(player, numUnplacedTokens, numAliveTokens)
    }

    /** Team constructor: a count that is not given defaults to nine; a given zero is kept. */
    constructor (player: Player, numUnplacedTokens: Option<int>, numAliveTokens: Option<int>)
      ensures State() == TeamState(player, numUnplacedTokens.GetOr(InitialTokens), numAliveTokens.GetOr(InitialTokens))
    {
      this.player := player;
      this.numUnplacedTokens := numUnplacedTokens.GetOr(InitialTokens);
      this.numAliveTokens := numAliveTokens.GetOr(InitialTokens);
    }

    /** Team.placeToken. */
    method PlaceToken()
      modifies this
      ensures State() == PlacedToken(old(State()))
    {
      if numUnplacedTokens > 0 {
        numUnplacedTokens := numUnplacedTokens - 1;
      }
    }

    /** Team.removeToken. */
    method RemoveToken()
      modifies this
      ensures State() == RemovedToken(old(State()))
    {
      numAliveTokens := numAliveTokens - 1;
    }
  }
}
