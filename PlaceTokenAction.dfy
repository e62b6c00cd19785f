/**
 * The place-token action: a new token from the playing team's hand, or the second
 * half of a move (the token picked up from `pickUpPositionIndex`). After a
 * successful placement a mill on the target keeps the turn and moves on to the
 * capture phase; otherwise the other team moves.
 */
module PlaceTokenActions {
  import opened Wrappers
  import opened Enums
  import opened Topology
  import opened Positions
  import opened Teams
  import opened Boards

  /**
   * The test of PlaceTokenAction.placeToken: the target is empty and, when the
   * token comes from a pick-up position, the two are neighbours or the playing
   * team has at most three tokens left (it may then fly).
   */
  predicate CanPlace(s: BoardState, target: Node, pickUp: Option<Node>)
    requires WellFormed(s)
  {
    if pickUp.Some? then
      s.occupants[target].None? && (IsNeighbour(pickUp.value, target) || PlayingTeamOf(s).numAliveTokens <= 3)
    else
      s.occupants[target].None?
  }

  /** The board with the playing team's token on `target` and the team's placeToken applied. */
  function Placed(s: BoardState, target: Node): (r: BoardState)
    requires WellFormed(s)
    ensures WellFormed(r)
  {
    WithTeam(s, s.currentPlayer, PlacedToken(PlayingTeamOf(s)))
      .(occupants := s.occupants[target := Some(s.currentPlayer)])
  }

  /** PlaceTokenAction.placeToken on a value. */
  function Placement(s: BoardState, target: Node, pickUp: Option<Node>): (r: ActionResult)
    requires WellFormed(s)
    ensures WellFormed(r.board)
  {
    if CanPlace(s, target, pickUp) then ActionResult(true, Placed(s, target)) else ActionResult(false, s)
  }

  /** PlaceTokenAction.execute on a value. */
  function Executed(s: BoardState, target: Node, pickUp: Option<Node>): (r: ActionResult)
    requires WellFormed(s)
    ensures WellFormed(r.board)
  {
    var placed := Placement(s, target, pickUp);
    if !placed.success then
      placed
    else
      var checked := AfterCheckMill(placed.board, target, true);
      if MillFormed(placed.board, target) then ActionResult(true, Incremented(checked))
      else ActionResult(true, Switched(checked))
  }

  /** A new token can go on any empty position, and on no other. */
  lemma FreshPlacementSucceedsIff(s: BoardState, target: Node)
    requires WellFormed(s)
    ensures Executed(s, target, None).success <==> s.occupants[target] == None
  {
  }

  /**
   * The second half of a move succeeds exactly when the target is empty and is
   * linked to the pick-up position in one of the four directions, or the playing
   * team has at most three tokens.
   */
  lemma MovePlacementSucceedsIff(s: BoardState, target: Node, pickUp: Node)
    requires WellFormed(s)
    ensures Executed(s, target, Some(pickUp)).success
            <==> s.occupants[target] == None
                 && ((exists d :: Neighbour(pickUp, d) == Some(target)) || PlayingTeamOf(s).numAliveTokens <= 3)
  {
    if exists d :: Neighbour(pickUp, d) == Some(target) {
      var d :| Neighbour(pickUp, d) == Some(target);
      assert IsNeighbour(pickUp, target);
    }
  }

  /** A rejected placement leaves the board exactly as it was; an occupied target is always rejected. */
  lemma RejectionChangesNothing(s: BoardState, target: Node, pickUp: Option<Node>)
    requires WellFormed(s)
    ensures s.occupants[target].Some? ==> !Executed(s, target, pickUp).success
    ensures !Executed(s, target, pickUp).success ==> Executed(s, target, pickUp).board == s
  {
  }

  /**
   * A successful placement puts the player's token on the target and on no other
   * position, applies placeToken to the player's team only, and leaves the other
   * team alone.
   */
  lemma PlacementEffect(s: BoardState, target: Node, pickUp: Option<Node>)
    requires WellFormed(s)
    requires Executed(s, target, pickUp).success
    ensures var r := Executed(s, target, pickUp).board;
      && r.occupants == s.occupants[target := Some(s.currentPlayer)]
      && r.teams[PlayerIndex(s.currentPlayer)] == PlacedToken(PlayingTeamOf(s))
      && r.teams[PlayerIndex(Other(s.currentPlayer))] == NonPlayingTeamOf(s)
  {
    var placed := Placed(s, target);
    var checked := AfterCheckMill(placed, target, true);
    assert checked.occupants == placed.occupants && checked.teams == placed.teams;
  }

  /** Every position of the row or of the column through `i` holds `p`. */
  predicate CompletesLine(occ: Occupancy, i: Node, p: Player)
  {
    (forall q: Place :: occ[NodeAt(Row, LineOf(Row, i), q)] == Some(p))
    || (forall q: Place :: occ[NodeAt(Column, LineOf(Column, i), q)] == Some(p))
  }

  /**
   * After a successful placement the same player keeps the turn, one phase on,
   * exactly when the placed token completes its row or its column; otherwise
   * switchPlayingTeam hands the turn over.
   */
  lemma PlacementOutcome(s: BoardState, target: Node, pickUp: Option<Node>)
    requires WellFormed(s)
    requires Executed(s, target, pickUp).success
    ensures var r := Executed(s, target, pickUp).board;
      && (CompletesLine(r.occupants, target, s.currentPlayer) ==>
            r.currentPlayer == s.currentPlayer && r.gamePhase == s.gamePhase + 1
            && r.pickUpPositionIndex == s.pickUpPositionIndex)
      && (!CompletesLine(r.occupants, target, s.currentPlayer) ==>
            r == Switched(AfterCheckMill(Placed(s, target), target, true)))
  {
    var placed := Placed(s, target);
    CheckMillMeansLines(placed.occupants, target);
    assert placed.occupants[target] == Some(s.currentPlayer);
    assert CompletesLine(placed.occupants, target, s.currentPlayer) <==> MillFormed(placed, target);
  }

  /** PlaceTokenAction.placeToken. */
  method PlaceToken(board: Board, positionIndex: Node, pickUpPositionIndex: Option<Node>) returns (success: bool)
    requires board.Valid()
    modifies board.Repr()
    ensures ActionResult(success, board.State()) == Placement(old(board.State()), positionIndex, pickUpPositionIndex)
  {
    var currentTeam := board.PlayingTeam();
    var currentPlayer := currentTeam.player;
    if pickUpPositionIndex.Some? {
      if board.occupants[positionIndex].None?
         && (IsNeighbour(pickUpPositionIndex.value, positionIndex) || currentTeam.numAliveTokens <= 3)
      {
        Positions.PlaceToken(board.occupants, positionIndex, currentPlayer);
        currentTeam.PlaceToken();
        return true;
      }
    } else {
      if board.occupants[positionIndex].None? {
        Positions.PlaceToken(board.occupants, positionIndex, currentPlayer);
        currentTeam.PlaceToken();
        return true;
      }
    }
    return false;
  }

  /** PlaceTokenAction.execute; `success` is false where the source returns undefined. */
  method Execute(board: Board, positionIndex: Node, pickUpPositionIndex: Option<Node>) returns (success: bool)
    requires board.Valid()
    modifies board.Repr()
    ensures ActionResult(success, board.State()) == Executed(old(board.State()), positionIndex, pickUpPositionIndex)
  {
    success := PlaceToken(board, positionIndex, pickUpPositionIndex);
    if success {
      var millFormed := board.CheckMill(positionIndex, true);
      if millFormed {
        board.IncrementGamePhase();
      } else {
        board.SwitchPlayingTeam();
      }
    }
  }
}
