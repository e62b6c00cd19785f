/**
 * The board of one turn: two teams, the player to move, the 24 positions (their
 * occupants and mill counters), the game phase and the position a token was last
 * picked up from. `BoardState` is the value of a board; the methods of class
 * `Board` are proved against the functions on that value.
 */
module Boards {
  import opened Wrappers
  import opened Enums
  import opened Topology
  import opened Positions
  import opened Teams

  /** The phase a new board starts in: placing tokens. */
  const PlacingPhase: int := 1

  /** The value of a board. */
  datatype BoardState = BoardState(
    teams: seq<TeamState>,
    currentPlayer: Player,
    occupants: Occupancy,
    millCounters: Counters,
    gamePhase: int,
    pickUpPositionIndex: Option<Node>)

  /** Cat's team first, then Dog's: the team of a player is found at the player's index. */
  predicate WellFormed(s: BoardState)
  {
    |s.teams| == 2 && s.teams[0].player == Cat && s.teams[1].player == Dog
  }

  /** The other player: `(currentPlayer + 1) % 2`. */
  function Other(p: Player): (q: Player)
    ensures q != p
    ensures PlayerIndex(q) == (PlayerIndex(p) + 1) % 2
  {
    if p == Cat then Dog else Cat
  }

  /** Board.getPlayingTeam on a value. */
  function PlayingTeamOf(s: BoardState): (t: TeamState)
    requires WellFormed(s)
    ensures t.player == s.currentPlayer
  {
    s.teams[PlayerIndex(s.currentPlayer)]
  }

  /** Board.getNonPlayingTeam on a value. */
  function NonPlayingTeamOf(s: BoardState): (t: TeamState)
    requires WellFormed(s)
    ensures t.player == Other(s.currentPlayer)
  {
    s.teams[(PlayerIndex(s.currentPlayer) + 1) % 2]
  }

  /** The board's team of `p` replaced by `t`. */
  function WithTeam(s: BoardState, p: Player, t: TeamState): BoardState
    requires WellFormed(s)
  {
    s.(teams := s.teams[PlayerIndex(p) := t])
  }

  /** Every position empty. */
  function EmptyOccupancy(): Occupancy
  {
    seq(24, _ => None)
  }

  /** Every mill counter at zero, as a new Position starts. */
  function ZeroCounters(): Counters
  {
    seq(24, _ => 0)
  }

  /**
   * The Board constructor: the teams are rebuilt as Cat's and Dog's from the
   * counts of the given list, or start fresh; the player defaults to Cat and the
   * phase to placing (a given Cat or phase 0 is kept); the occupants are copied or
   * all empty; every mill counter starts at zero and no pick-up position is set.
   */
  function Constructed(teams: Option<seq<TeamState>>, currentPlayer: Option<Player>,
                       positions: Option<seq<Option<Player>>>, gamePhase: Option<int>): BoardState
    requires teams.Some? ==> |teams.value| >= 2
    requires positions.Some? ==> |positions.value| >= 24
  {
    BoardState(
      if teams.Some? then
        [TeamState(Cat, teams.value[0].numUnplacedTokens, teams.value[0].numAliveTokens),
         TeamState(Dog, teams.value[1].numUnplacedTokens, teams.value[1].numAliveTokens)]
      else
        [TeamState(Cat, InitialTokens, InitialTokens), TeamState(Dog, InitialTokens, InitialTokens)],
      currentPlayer.GetOr(Cat),
      if positions.Some? then positions.value[..24] else EmptyOccupancy(),
      ZeroCounters(),
      gamePhase.GetOr(PlacingPhase),
      None)
  }

  /** The copy `new Board(b.getTeams(), b.getCurrentPlayer(), b.getPositions(), b.getGamePhase())`. */
  function Copied(s: BoardState): BoardState
    requires WellFormed(s)
  {
    Constructed(Some(s.teams), Some(s.currentPlayer), Some(s.occupants), Some(s.gamePhase))
  }

  /** The board a game starts from: all empty, nine tokens to place and nine alive each, Cat placing. */
  lemma DefaultBoard()
    ensures var s := Constructed(None, None, None, None);
      && WellFormed(s)
      && (forall i: Node :: s.occupants[i] == None && s.millCounters[i] == 0)
      && (forall k :: 0 <= k < 2 ==> s.teams[k].numUnplacedTokens == 9 && s.teams[k].numAliveTokens == 9)
      && s.currentPlayer == Cat && s.gamePhase == 1 && s.pickUpPositionIndex == None
  {
  }

  /**
   * A copy keeps both teams' counts, the player to move, every occupant and the
   * phase; it resets every mill counter and forgets the pick-up position.
   */
  lemma CopyKeepsTurn(s: BoardState)
    requires WellFormed(s)
    ensures var c := Copied(s);
      && WellFormed(c)
      && c.teams == s.teams && c.currentPlayer == s.currentPlayer
      && c.occupants == s.occupants && c.gamePhase == s.gamePhase
      && c.millCounters == ZeroCounters() && c.pickUpPositionIndex == None
  {
    assert Copied(s).teams == [s.teams[0], s.teams[1]];
  }

  /** Copying a copy changes nothing more. */
  lemma CopyIdempotent(s: BoardState)
    requires WellFormed(s)
    ensures Copied(Copied(s)) == Copied(s)
  {
    CopyKeepsTurn(s);
  }

  /** Two boards that agree on teams, player, occupants and phase have the same copy. */
  lemma CopyForgets(s: BoardState, t: BoardState)
    requires WellFormed(s) && WellFormed(t)
    requires s.teams == t.teams && s.currentPlayer == t.currentPlayer
    requires s.occupants == t.occupants && s.gamePhase == t.gamePhase
    ensures Copied(s) == Copied(t)
  {
  }

  /** Board.incrementGamePhase on a value. */
  function Incremented(s: BoardState): (r: BoardState)
  {
    s.(gamePhase := s.gamePhase + 1)
  }

  /**
   * Board.switchPlayingTeam on a value: the other player moves, placing if their
   * team has tokens left to place and picking up otherwise, with no pick-up position.
   */
  function Switched(s: BoardState): (r: BoardState)
    requires WellFormed(s)
    ensures WellFormed(r)
    ensures r.currentPlayer == Other(s.currentPlayer)
    ensures r.gamePhase == if PlayingTeamOf(r).numUnplacedTokens > 0 then 1 else 0
    ensures r.pickUpPositionIndex == None
    ensures r.teams == s.teams && r.occupants == s.occupants && r.millCounters == s.millCounters
  {
    var player := Other(s.currentPlayer);
    s.(currentPlayer := player,
       gamePhase := if s.teams[PlayerIndex(player)].numUnplacedTokens > 0 then 1 else 0,
       pickUpPositionIndex := None)
  }

  /** Switching twice gives the move back, in the phase the player's own team calls for. */
  lemma SwitchTwice(s: BoardState)
    requires WellFormed(s)
    ensures Switched(Switched(s)).currentPlayer == s.currentPlayer
    ensures Switched(Switched(s)).gamePhase == if PlayingTeamOf(s).numUnplacedTokens > 0 then 1 else 0
  {
  }

  /** Board.checkMill's answer: the position is part of at least one mill. */
  predicate MillFormed(s: BoardState, index: Node)
  {
    CheckMill(s.occupants, index).Some?
  }

  /** The state Board.checkMill leaves: the mill-counter walk for the orientation found, and nothing else. */
  function AfterCheckMill(s: BoardState, index: Node, tokenAdded: bool): (r: BoardState)
    ensures r == s.(millCounters := r.millCounters)
    ensures r.millCounters[index] == s.millCounters[index] + Delta(tokenAdded)
  {
    OrientationUpdateEffect(s.millCounters, index, CheckMill(s.occupants, index), tokenAdded);
    s.(millCounters := OrientationUpdated(s.millCounters, index, CheckMill(s.occupants, index), tokenAdded))
  }

  /** The result of an action: whether it was accepted, and the board it leaves (also when rejected). */
  datatype ActionResult = ActionResult(success: bool, board: BoardState)

  /** The JSON shape of a position: only its occupant. */
  datatype PositionRecord = PositionRecord(player: Option<Player>)

  /** The JSON shape of a board. */
  datatype BoardRecord = BoardRecord(
    teams: seq<TeamState>,
    currentPlayer: Player,
    positions: seq<PositionRecord>,
    gamePhase: int,
    pickUpPositionIndex: Option<Node>)

  /** Board.toJSON on a value. */
  function ToRecord(s: BoardState): (r: BoardRecord)
    ensures |r.positions| == 24
    ensures forall i: Node :: r.positions[i].player == s.occupants[i]
    ensures r.teams == s.teams && r.currentPlayer == s.currentPlayer
    ensures r.gamePhase == s.gamePhase && r.pickUpPositionIndex == s.pickUpPositionIndex
  {
    BoardRecord(s.teams, s.currentPlayer, seq(24, (i: int) requires 0 <= i < 24 => PositionRecord(s.occupants[i])),
                s.gamePhase, s.pickUpPositionIndex)
  }

  /** The occupants a record lists, in order. */
  function RecordOccupants(r: BoardRecord): (occ: seq<Option<Player>>)
    ensures |occ| == |r.positions|
    ensures forall i :: 0 <= i < |r.positions| ==> occ[i] == r.positions[i].player
  {
    seq(|r.positions|, (i: int) requires 0 <= i < |r.positions| => r.positions[i].player)
  }

  /** A board rebuilt from its record with the constructor is the same as a copy of it. */
  lemma RecordRebuildsCopy(s: BoardState)
    requires WellFormed(s)
    ensures var r := ToRecord(s);
      Constructed(Some(r.teams), Some(r.currentPlayer), Some(RecordOccupants(r)), Some(r.gamePhase)) == Copied(s)
  {
    var r := ToRecord(s);
    assert RecordOccupants(r)[..24] == s.occupants;
  }

  /**
   * A board. The teams and the two position arrays are fixed for the board's
   * life; the player, the phase and the pick-up position change.
   */
  class Board {
    const teams: seq<Team>
    var currentPlayer: Player
    /** The occupant of each position (Position.player). */
    const occupants: array<Option<Player>>
    /** The mill counter of each position (Position.millCounter). */
    const millCounters: array<int>
    var gamePhase: int
    var pickUpPositionIndex: Option<Node>

    /** The objects that make up the board. */
    ghost function Repr(): set<object>
    {
      {this, occupants, millCounters} + set t | t in teams
    }

    /** Cat's team and Dog's team, and 24 positions. */
    ghost predicate Valid()
    {
      && |teams| == 2 && teams[0].player == Cat && teams[1].player == Dog
      && occupants.Length == 24 && millCounters.Length == 24
    }

    /** The value of the board. */
    function State(): (s: BoardState)
      requires Valid()
      reads Repr()
      ensures WellFormed(s)
    {
      BoardState([teams[0].State(), teams[1].State()], currentPlayer, occupants[..], millCounters[..],
                 gamePhase, pickUpPositionIndex)
    }

    /** Board constructor. */
    constructor (teams: Option<seq<TeamState>>, currentPlayer: Option<Player>,
                 positions: Option<seq<Option<Player>>>, gamePhase: Option<int>)
      requires teams.Some? ==> |teams.value| >= 2
      requires positions.Some? ==> |positions.value| >= 24
      ensures Valid() && fresh(Repr())
      ensures State() == Constructed(teams, currentPlayer, positions, gamePhase)
    {
      var cat, dog;
      if teams.Some? {
        cat := new Team(Cat, Some(teams.value[0].numUnplacedTokens), Some(teams.value[0].numAliveTokens));
        dog := new Team(Dog, Some(teams.value[1].numUnplacedTokens), Some(teams.value[1].numAliveTokens));
      } else {
        cat := new Team(Cat, None, None);
        dog := new Team(Dog, None, None);
      }
      var board;
      if positions.Some? {
        board := SetPositions(positions.value);
      } else {
        board := SetUpPositions();
      }
      this.teams := [cat, dog];
      this.currentPlayer := currentPlayer.GetOr(Cat);
      this.occupants := board;
      this.millCounters := new int[24](_ => 0);
      this.gamePhase := gamePhase.GetOr(PlacingPhase);
      this.pickUpPositionIndex := None;
    }

    /** Board.setPositions: a new position for each of the first 24 given, with its occupant. */
    static method SetPositions(positions: seq<Option<Player>>) returns (board: array<Option<Player>>)
      requires |positions| >= 24
      ensures fresh(board) && board.Length == 24
      ensures board[..] == positions[..24]
    {
      board := new Option<Player>[24];
      for i := 0 to 24
        invariant forall k :: 0 <= k < i ==> board[k] == positions[k]
      {
        board[i] := positions[i];
      }
    }

    /** Board.setUpPositions: 24 empty positions. */
    static method SetUpPositions() returns (board: array<Option<Player>>)
      ensures fresh(board) && board.Length == 24
      ensures board[..] == EmptyOccupancy()
    {
      board := new Option<Player>[24];
      for i := 0 to 24
        invariant forall k :: 0 <= k < i ==> board[k] == None
      {
        board[i] := None;
      }
    }

    /** Board.getPlayingTeam: `teams[currentPlayer]`. */
    function PlayingTeam(): (t: Team)
      requires Valid()
      reads this
      ensures t in teams && t.player == currentPlayer
      ensures t.State() == PlayingTeamOf(State())
    {
      teams[PlayerIndex(currentPlayer)]
    }

    /** Board.getNonPlayingTeam: `teams[(currentPlayer + 1) % 2]`, never the playing team. */
    function NonPlayingTeam(): (t: Team)
      requires Valid()
      reads this
      ensures t in teams && t.player == Other(currentPlayer)
      ensures t != PlayingTeam()
      ensures t.State() == NonPlayingTeamOf(State())
    {
      teams[(PlayerIndex(currentPlayer) + 1) % 2]
    }

    /** Board.incrementGamePhase. */
    method IncrementGamePhase()
      requires Valid()
      modifies this
      ensures State() == Incremented(old(State()))
    {
      gamePhase := gamePhase + 1;
    }

    /** Board.setPickUpPosition. */
    method SetPickUpPosition(index: Node)
      requires Valid()
      modifies this
      ensures State() == old(State()).(pickUpPositionIndex := Some(index))
    {
      pickUpPositionIndex := Some(index);
    }

    /** Board.switchPlayingTeam. */
    method SwitchPlayingTeam()
      requires Valid()
      modifies this
      ensures State() == Switched(old(State()))
    {
      currentPlayer := Other(currentPlayer);
      if PlayingTeam().numUnplacedTokens > 0 {
        gamePhase := 1;
      } else {
        gamePhase := 0;
      }
      pickUpPositionIndex := None;
    }

    /**
     * Board.checkMill: whether `index` is part of a mill; the counter walk runs in
     * every case, so the position's own counter moves even when there is none.
     */
    method CheckMill(index: Node, tokenAdded: bool) returns (formed: bool)
      requires Valid()
      modifies millCounters
      ensures formed == MillFormed(old(State()), index)
      ensures State() == AfterCheckMill(old(State()), index, tokenAdded)
    {
      var millOrientation := Positions.CheckMill(occupants[..], index);
      UpdateMillCounterOrientation(millCounters, index, millOrientation, tokenAdded);
      formed := millOrientation.Some?;
    }

    /** Board.toJSON. */
    function ToJson(): (r: BoardRecord)
      requires Valid()
      reads Repr()
      ensures r == ToRecord(State())
    {
      BoardRecord([teams[0].State(), teams[1].State()], currentPlayer,
                  seq(24, (i: int) requires 0 <= i < 24 reads occupants => PositionRecord(occupants[i])),
                  gamePhase, pickUpPositionIndex)
    }
  }
}
