/**
 * The remove-token action, in its two uses: lifting one of the playing team's own
 * tokens as the first half of a move, and capturing one of the other team's
 * tokens after a mill. A token in a mill may only be captured when every token
 * of its team is in a mill; deciding that rechecks each of them with
 * Board.checkMill, whose counter walks stay in the board even when the capture is
 * refused.
 */
module RemoveTokenActions {
  import opened Wrappers
  import opened Enums
  import opened Topology
  import opened Positions
  import opened Teams
  import opened Boards

  /**
   * The tests of a pick-up: the token is the playing team's, and it is not stuck
   * unless the team is down to at most three tokens.
   */
  predicate CanPickUp(s: BoardState, index: Node)
    requires WellFormed(s)
  {
    s.occupants[index] == Some(s.currentPlayer)
    && !(IsStuck(s.occupants, index) && PlayingTeamOf(s).numAliveTokens > 3)
  }

  /** The board with position `index` emptied. */
  function Emptied(s: BoardState, index: Node): BoardState
  {
    s.(occupants := s.occupants[index := None])
  }

  /** The board after a capture at `index`: the position is empty and the other team has lost a token. */
  function Captured(s: BoardState, index: Node): (r: BoardState)
    requires WellFormed(s)
    ensures WellFormed(r)
  {
    WithTeam(Emptied(s, index), Other(s.currentPlayer), RemovedToken(NonPlayingTeamOf(s)))
  }

  /** The outcome of the scan over the opponent's tokens, and the mill counters it leaves. */
  datatype Scan = Scan(allInMill: bool, counters: Counters)

  /** The orientation Position.checkMill reports at each position; the scan does not change the occupants. */
  function MillOrientations(occ: Occupancy): (mills: seq<Option<Orientation>>)
    ensures |mills| == 24
    ensures forall k: Node :: mills[k] == CheckMill(occ, k)
  {
    seq(24, (k: int) requires 0 <= k < 24 => CheckMill(occ, k))
  }

  /**
   * The loop of a capture from position `from` on: each of the opponent's tokens
   * gets Board.checkMill(i, false) in turn (its orientation is `mills[i]`), and
   * the scan stops at the first one that is in no mill.
   */
  function MillScan(occ: Occupancy, mills: seq<Option<Orientation>>, counters: Counters, opponent: Player, from: nat): Scan
    requires |mills| == 24 && from <= 24
    decreases 24 - from
  {
    if from == 24 then
      Scan(true, counters)
    else if occ[from] == Some(opponent) then
      var updated := OrientationUpdated(counters, from, mills[from], false);
      if mills[from].None? then Scan(false, updated) else MillScan(occ, mills, updated, opponent, from + 1)
    else
      MillScan(occ, mills, counters, opponent, from + 1)
  }

  /** Every opponent token from position `from` on is in a mill, position by position. */
  predicate AllInMillFrom(occ: Occupancy, mills: seq<Option<Orientation>>, opponent: Player, from: nat)
    requires |mills| == 24 && from <= 24
    decreases 24 - from
  {
    from == 24 || ((occ[from] == Some(opponent) ==> mills[from].Some?) && AllInMillFrom(occ, mills, opponent, from + 1))
  }

  /** The verdict of the scan does not depend on the counters it walks. */
  lemma {:induction false} ScanVerdict(occ: Occupancy, mills: seq<Option<Orientation>>, counters: Counters,
                                       opponent: Player, from: nat)
    requires |mills| == 24 && from <= 24
    ensures MillScan(occ, mills, counters, opponent, from).allInMill == AllInMillFrom(occ, mills, opponent, from)
    decreases 24 - from
  {
    if from < 24 {
      if occ[from] == Some(opponent) {
        ScanVerdict(occ, mills, OrientationUpdated(counters, from, mills[from], false), opponent, from + 1);
      } else {
        ScanVerdict(occ, mills, counters, opponent, from + 1);
      }
    }
  }

  /** The position-by-position test is the test for every position from `from` on. */
  lemma {:induction false} AllInMillFromEvery(occ: Occupancy, mills: seq<Option<Orientation>>, opponent: Player, from: nat)
    requires |mills| == 24 && from <= 24
    ensures AllInMillFrom(occ, mills, opponent, from)
            <==> forall k: Node :: from <= k && occ[k] == Some(opponent) ==> mills[k].Some?
    decreases 24 - from
  {
    if from < 24 {
      AllInMillFromEvery(occ, mills, opponent, from + 1);
    }
  }

  /** The scan succeeds exactly when every opponent token from `from` on is in a mill. */
  lemma MillScanFindsAll(occ: Occupancy, mills: seq<Option<Orientation>>, counters: Counters,
                         opponent: Player, from: nat)
    requires |mills| == 24 && from <= 24
    ensures MillScan(occ, mills, counters, opponent, from).allInMill
            <==> forall k: Node :: from <= k && occ[k] == Some(opponent) ==> mills[k].Some?
  {
    ScanVerdict(occ, mills, counters, opponent, from);
    AllInMillFromEvery(occ, mills, opponent, from);
  }

  /**
   * A capture (RemoveTokenAction.removeToken with movingOwnToken false): the
   * token must be the other team's; a token in no mill is taken at once; a token
   * in a mill is taken only if the scan finds every opponent token in a mill.
   */
  function Capture(s: BoardState, index: Node): (r: ActionResult)
    requires WellFormed(s)
    ensures WellFormed(r.board)
  {
    var opponent := Other(s.currentPlayer);
    if s.occupants[index] != Some(opponent) then
      ActionResult(false, s)
    else
      var checked := AfterCheckMill(s, index, false);
      if MillFormed(s, index) then
        var scan := MillScan(checked.occupants, MillOrientations(checked.occupants), checked.millCounters, opponent, 0);
        var scanned := checked.(millCounters := scan.counters);
        if scan.allInMill then ActionResult(true, Captured(scanned, index)) else ActionResult(false, scanned)
      else
        ActionResult(true, Captured(checked, index))
  }

  /** A pick-up (RemoveTokenAction.removeToken with movingOwnToken true): it empties the position or changes nothing. */
  function PickUp(s: BoardState, index: Node): (r: ActionResult)
    requires WellFormed(s)
    ensures WellFormed(r.board)
  {
    if CanPickUp(s, index) then ActionResult(true, Emptied(s, index)) else ActionResult(false, s)
  }

  /** RemoveTokenAction.removeToken on a value. */
  function Removal(s: BoardState, index: Node, movingOwnToken: bool): (r: ActionResult)
    requires WellFormed(s)
    ensures WellFormed(r.board)
  {
    if movingOwnToken then PickUp(s, index) else Capture(s, index)
  }

  /** RemoveTokenAction.execute on a value: on success, one phase on and the position recorded. */
  function Executed(s: BoardState, index: Node, movingOwnToken: bool): (r: ActionResult)
    requires WellFormed(s)
    ensures WellFormed(r.board)
  {
    var removed := Removal(s, index, movingOwnToken);
    if removed.success then
      ActionResult(true, Incremented(removed.board).(pickUpPositionIndex := Some(index)))
    else
      removed
  }

  /**
   * A pick-up succeeds exactly when the token is the playing team's and it has an
   * empty neighbour, or the team has at most three tokens.
   */
  lemma PickUpSucceedsIff(s: BoardState, index: Node)
    requires WellFormed(s)
    ensures Executed(s, index, true).success
            <==> s.occupants[index] == Some(s.currentPlayer)
                 && ((exists d :: Neighbour(index, d).Some? && s.occupants[Neighbour(index, d).value] == None)
                     || PlayingTeamOf(s).numAliveTokens <= 3)
  {
  }

  /**
   * A successful pick-up empties the position and nothing else, keeps both teams'
   * counts and the player, moves one phase on and records the position.
   */
  lemma PickUpEffect(s: BoardState, index: Node)
    requires WellFormed(s)
    requires Executed(s, index, true).success
    ensures Executed(s, index, true).board
            == s.(occupants := s.occupants[index := None], gamePhase := s.gamePhase + 1,
                  pickUpPositionIndex := Some(index))
  {
  }

  /** A capture of anything but an opponent token is refused and changes nothing. */
  lemma CaptureRequiresOpponent(s: BoardState, index: Node)
    requires WellFormed(s)
    requires s.occupants[index] != Some(Other(s.currentPlayer))
    ensures Executed(s, index, false) == ActionResult(false, s)
  {
  }

  /** An opponent token in no mill is always captured. */
  lemma CaptureOutsideMill(s: BoardState, index: Node)
    requires WellFormed(s)
    requires s.occupants[index] == Some(Other(s.currentPlayer))
    requires CheckMill(s.occupants, index).None?
    ensures Executed(s, index, false).success
  {
  }

  /**
   * Every accepted capture empties the position and nothing else, takes one alive
   * token from the other team, and keeps the playing team and the player.
   */
  lemma CaptureTakesToken(s: BoardState, index: Node)
    requires WellFormed(s)
    requires Executed(s, index, false).success
    ensures var r := Executed(s, index, false).board;
      && r.occupants == s.occupants[index := None]
      && NonPlayingTeamOf(r) == RemovedToken(NonPlayingTeamOf(s))
      && PlayingTeamOf(r) == PlayingTeamOf(s)
      && r.currentPlayer == s.currentPlayer
      && r.gamePhase == s.gamePhase + 1 && r.pickUpPositionIndex == Some(index)
  {
    var checked := AfterCheckMill(s, index, false);
    assert checked.occupants == s.occupants && checked.teams == s.teams;
  }

  /** An opponent token in a mill is captured exactly when every opponent token on the board is in a mill. */
  lemma CaptureInMill(s: BoardState, index: Node)
    requires WellFormed(s)
    requires s.occupants[index] == Some(Other(s.currentPlayer))
    requires CheckMill(s.occupants, index).Some?
    ensures Executed(s, index, false).success
            <==> forall k: Node :: s.occupants[k] == Some(Other(s.currentPlayer)) ==> CheckMill(s.occupants, k).Some?
  {
    var checked := AfterCheckMill(s, index, false);
    MillScanFindsAll(checked.occupants, MillOrientations(checked.occupants), checked.millCounters, Other(s.currentPlayer), 0);
  }

  /**
   * A refused pick-up or capture keeps the occupants, both teams, the player, the
   * phase and the pick-up position; only the mill counters may have moved.
   */
  lemma RefusalKeepsTurn(s: BoardState, index: Node, movingOwnToken: bool)
    requires WellFormed(s)
    requires !Executed(s, index, movingOwnToken).success
    ensures Executed(s, index, movingOwnToken).board == s.(millCounters := Executed(s, index, movingOwnToken).board.millCounters)
  {
  }

  /** No removal changes the playing team's counts, and none changes the player to move. */
  lemma RemovalKeepsPlayingTeam(s: BoardState, index: Node, movingOwnToken: bool)
    requires WellFormed(s)
    ensures PlayingTeamOf(Executed(s, index, movingOwnToken).board) == PlayingTeamOf(s)
    ensures Executed(s, index, movingOwnToken).board.currentPlayer == s.currentPlayer
  {
  }

  /**
   * The loop of RemoveTokenAction.removeToken over all 24 positions:
   * Board.checkMill(i, false) on each token of `opponent`, giving up at the first
   * one in no mill. The counter walks it has done stay in the board.
   */
  method CheckOpponentMills(board: Board, opponent: Player) returns (allInMill: bool)
    requires board.Valid()
    modifies board.millCounters
    ensures var s := old(board.State());
            var scan := MillScan(s.occupants, MillOrientations(s.occupants), s.millCounters, opponent, 0);
            allInMill == scan.allInMill && board.State() == s.(millCounters := scan.counters)
  {
    ghost var start := board.State();
    ghost var mills := MillOrientations(start.occupants);
    ghost var scan := MillScan(start.occupants, mills, start.millCounters, opponent, 0);
    var i := 0;
    while i < 24
      invariant 0 <= i <= 24
      invariant board.State() == start.(millCounters := board.millCounters[..])
      invariant MillScan(start.occupants, mills, board.millCounters[..], opponent, i) == scan
    {
      if board.occupants[i] == Some(opponent) {
        var inMill := board.CheckMill(i, false);
        if !inMill {
          return false;
        }
      }
      i := i + 1;
    }
    return true;
  }

  /** The pick-up half of RemoveTokenAction.removeToken. */
  method PickUpToken(board: Board, positionIndex: Node) returns (success: bool)
    requires board.Valid()
    modifies board.occupants
    ensures ActionResult(success, board.State()) == PickUp(old(board.State()), positionIndex)
  {
    if board.occupants[positionIndex] != Some(board.PlayingTeam().player) {
      return false;
    }
    if IsStuck(board.occupants[..], positionIndex) && board.PlayingTeam().numAliveTokens > 3 {
      return false;
    }
    Positions.RemoveToken(board.occupants, positionIndex);
    return true;
  }

  /** The last step of a capture: the position is emptied and the non-playing team loses a token. */
  method TakeToken(board: Board, positionIndex: Node)
    requires board.Valid()
    modifies board.Repr()
    ensures board.Valid()
    ensures board.State() == Captured(old(board.State()), positionIndex)
  {
    Positions.RemoveToken(board.occupants, positionIndex);
    board.NonPlayingTeam().RemoveToken();
  }

  /** The capture half of RemoveTokenAction.removeToken. */
  method CaptureToken(board: Board, positionIndex: Node) returns (success: bool)
    requires board.Valid()
    modifies board.Repr()
    ensures ActionResult(success, board.State()) == Capture(old(board.State()), positionIndex)
  {
    var nonPlayingTeamPlayer := board.NonPlayingTeam().player;
    if board.occupants[positionIndex] != Some(nonPlayingTeamPlayer) {
      return false;
    }
    var inMill := board.CheckMill(positionIndex, false);
    if inMill {
      var allTokenInMill := CheckOpponentMills(board, nonPlayingTeamPlayer);
      if !allTokenInMill {
        return false;
      }
    }
    TakeToken(board, positionIndex);
    return true;
  }

  /** RemoveTokenAction.removeToken. */
  method RemoveToken(board: Board, positionIndex: Node, movingOwnToken: bool) returns (success: bool)
    requires board.Valid()
    modifies board.Repr()
    ensures ActionResult(success, board.State()) == Removal(old(board.State()), positionIndex, movingOwnToken)
  {
    if movingOwnToken {
      success := PickUpToken(board, positionIndex);
    } else {
      success := CaptureToken(board, positionIndex);
    }
  }

  /** RemoveTokenAction.execute; `success` is false where the source returns undefined. */
  method Execute(board: Board, positionIndex: Node, movingOwnToken: bool) returns (success: bool)
    requires board.Valid()
    modifies board.Repr()
    ensures ActionResult(success, board.State()) == Executed(old(board.State()), positionIndex, movingOwnToken)
  {
    success := RemoveToken(board, positionIndex, movingOwnToken);
    if success {
      board.IncrementGamePhase();
      board.SetPickUpPosition(positionIndex);
    }
  }
}
