/**
 * A game: the boards of the turns played so far and the board of the turn being
 * played. Every accepted action pushes the current board onto the history and
 * continues on a copy of it; undo drops the last board and continues on a copy
 * of the one before. `GameState` is the value of a game; the methods of class
 * `Game` are proved against the functions on that value.
 */
module Games {
  import opened Wrappers
  import opened Enums
  import opened Topology
  import opened Positions
  import opened Teams
  import opened Boards
  import opened Ledger
  import PlaceTokenActions
  import RemoveTokenActions

  /** The value of a game: the boards of the history, oldest first, and the current board. */
  datatype GameState = GameState(history: seq<BoardState>, current: BoardState)

  /** Two boards of the same turn: they differ at most in the mill counters and the pick-up position. */
  predicate SameTurn(a: BoardState, b: BoardState)
  {
    a.teams == b.teams && a.currentPlayer == b.currentPlayer
    && a.occupants == b.occupants && a.gamePhase == b.gamePhase
  }

  /**
   * What a game keeps true between actions: the history is never empty, the
   * current board continues the turn of the last board of the history, and, being
   * a copy, it has no pick-up position.
   */
  predicate GameInv(g: GameState)
  {
    && |g.history| >= 1
    && (forall k | 0 <= k < |g.history| :: WellFormed(g.history[k]))
    && WellFormed(g.current)
    && g.current.pickUpPositionIndex == None
    && SameTurn(g.current, g.history[|g.history| - 1])
  }

  /**
   * Game.performAction on the current board: the action the phase calls for,
   * and whether it was accepted. In phase 1 the target must differ from the
   * pick-up position; after an accepted capture the turn passes.
   */
  function Performed(b: BoardState, index: Node): (r: ActionResult)
    requires WellFormed(b)
    ensures WellFormed(r.board)
  {
    if b.gamePhase == 0 then
      RemoveTokenActions.Executed(b, index, true)
    else if b.gamePhase == 1 then
      if b.pickUpPositionIndex == Some(index) then ActionResult(false, b)
      else PlaceTokenActions.Executed(b, index, b.pickUpPositionIndex)
    else if b.gamePhase == 2 then
      var removed := RemoveTokenActions.Executed(b, index, false);
      if removed.success then ActionResult(true, Switched(removed.board)) else removed
    else
      ActionResult(false, b)
  }

  /**
   * What Game.performAction does with the result of the action: an accepted one
   * pushes its board and goes on with a copy of it (Game.updateBoard); a refused
   * one stays on the board it left, whose mill counters may have moved.
   */
  function Continued(g: GameState, performed: ActionResult): GameState
    requires WellFormed(performed.board)
  {
    if performed.success then GameState(g.history + [performed.board], Copied(performed.board))
    else GameState(g.history, performed.board)
  }

  /** Game.performAction on a value. */
  function AfterAction(g: GameState, index: Node): GameState
    requires WellFormed(g.current)
  {
    Continued(g, Performed(g.current, index))
  }

  /** Game.undo on a value: with more than one board, drop the last and go on with a copy of the new last. */
  function Undone(g: GameState): (r: GameState)
    requires |g.history| >= 1 && forall k | 0 <= k < |g.history| :: WellFormed(g.history[k])
  {
    if |g.history| > 1 then
      var history := g.history[..|g.history| - 1];
      GameState(history, Copied(history[|history| - 1]))
    else
      g
  }

  /**
   * Game.checkVictory: the playing team has fewer than three tokens, or it has
   * placed all its tokens and every one of them on the board is stuck.
   */
  predicate Victory(s: BoardState)
    requires WellFormed(s)
  {
    var team := PlayingTeamOf(s);
    team.numAliveTokens < 3
    || (team.numUnplacedTokens <= 0
        && forall i: Node :: s.occupants[i] == Some(s.currentPlayer) ==> IsStuck(s.occupants, i))
  }

  /** The winner Game.action shows: the non-playing team, on a victory outside phase 1. */
  function Reported(s: BoardState): Option<Player>
    requires WellFormed(s)
  {
    if Victory(s) && s.gamePhase != 1 then Some(NonPlayingTeamOf(s).player) else None
  }

  /** The invariant holds for a new game on any non-empty history. */
  lemma StartKeepsInvariant(history: seq<BoardState>)
    requires |history| >= 1 && forall k | 0 <= k < |history| :: WellFormed(history[k])
    ensures GameInv(GameState(history, Copied(history[|history| - 1])))
  {
    CopyKeepsTurn(history[|history| - 1]);
  }

  /**
   * Going on after an action keeps the invariant, provided a refused action
   * changed at most the mill counters of the current board.
   */
  lemma ContinuedKeepsInvariant(g: GameState, performed: ActionResult)
    requires GameInv(g) && WellFormed(performed.board)
    requires !performed.success ==> performed.board == g.current.(millCounters := performed.board.millCounters)
    ensures GameInv(Continued(g, performed))
  {
    if performed.success {
      CopyKeepsTurn(performed.board);
    }
  }

  /** An accepted action pushes its board, and the game goes on with the same turn as that board. */
  lemma AcceptedKeepsTurn(g: GameState, index: Node)
    requires GameInv(g)
    requires Performed(g.current, index).success
    ensures GameInv(AfterAction(g, index))
    ensures AfterAction(g, index).history == g.history + [Performed(g.current, index).board]
    ensures SameTurn(AfterAction(g, index).current, Performed(g.current, index).board)
  {
    CopyKeepsTurn(Performed(g.current, index).board);
    ContinuedKeepsInvariant(g, Performed(g.current, index));
  }

  /** A refused action leaves a board that differs from the one it started on at most in the mill counters. */
  lemma RefusedBoard(b: BoardState, index: Node)
    requires WellFormed(b)
    requires !Performed(b, index).success
    ensures Performed(b, index).board == b.(millCounters := Performed(b, index).board.millCounters)
  {
    if b.gamePhase == 0 {
      RemoveTokenActions.RefusalKeepsTurn(b, index, true);
    } else if b.gamePhase == 1 {
      if b.pickUpPositionIndex != Some(index) {
        PlaceTokenActions.RejectionChangesNothing(b, index, b.pickUpPositionIndex);
      }
    } else if b.gamePhase == 2 {
      RemoveTokenActions.RefusalKeepsTurn(b, index, false);
    }
  }

  /** A refused action keeps the history and the turn: only the current board's mill counters may have moved. */
  lemma RefusedKeepsTurn(g: GameState, index: Node)
    requires GameInv(g)
    requires !Performed(g.current, index).success
    ensures GameInv(AfterAction(g, index))
    ensures AfterAction(g, index).history == g.history
    ensures AfterAction(g, index).current == g.current.(millCounters := AfterAction(g, index).current.millCounters)
  {
    RefusedBoard(g.current, index);
    ContinuedKeepsInvariant(g, Performed(g.current, index));
  }

  /** Every action keeps the invariant. */
  lemma ActionKeepsInvariant(g: GameState, index: Node)
    requires GameInv(g)
    ensures GameInv(AfterAction(g, index))
  {
    if Performed(g.current, index).success {
      AcceptedKeepsTurn(g, index);
    } else {
      RefusedKeepsTurn(g, index);
    }
  }

  /** Undo keeps the invariant, and does nothing on a history of one board. */
  lemma UndoKeepsInvariant(g: GameState)
    requires GameInv(g)
    ensures GameInv(Undone(g))
    ensures |g.history| == 1 ==> Undone(g) == g
    ensures |g.history| > 1 ==> Undone(g).history == g.history[..|g.history| - 1]
  {
    if |g.history| > 1 {
      CopyKeepsTurn(g.history[|g.history| - 2]);
    } else {
      CopyKeepsTurn(g.history[|g.history| - 1]);
    }
  }

  /**
   * Undo right after an accepted action gives back the history as it was and a
   * fresh copy of the board the action started from.
   */
  lemma UndoAfterAction(g: GameState, index: Node)
    requires GameInv(g)
    requires Performed(g.current, index).success
    ensures Undone(AfterAction(g, index)) == GameState(g.history, Copied(g.current))
  {
    var after := AfterAction(g, index);
    assert after.history[..|after.history| - 1] == g.history;
    CopyForgets(g.current, g.history[|g.history| - 1]);
  }

  /**
   * In a game the current board never has a pick-up position (it is always a
   * copy), so the second half of a move goes on any empty position: neither
   * adjacency to the lifted token nor the three-token rule is ever asked, and
   * the position just emptied is allowed too.
   */
  lemma MoveIgnoresAdjacency(g: GameState, index: Node)
    requires GameInv(g)
    requires g.current.gamePhase == 1
    ensures Performed(g.current, index).success <==> g.current.occupants[index] == None
  {
    PlaceTokenActions.FreshPlacementSucceedsIff(g.current, index);
  }

  /**
   * After an accepted capture the captured team moves, with one token fewer. It
   * is reported beaten when that leaves it below three tokens with none to place,
   * and never while it still has tokens to place, however few it has.
   */
  lemma CaptureVictory(g: GameState, index: Node)
    requires GameInv(g)
    requires g.current.gamePhase == 2
    requires Performed(g.current, index).success
    ensures var next := AfterAction(g, index).current;
            var victim := NonPlayingTeamOf(g.current);
      && next.currentPlayer == Other(g.current.currentPlayer)
      && PlayingTeamOf(next) == RemovedToken(victim)
      && (victim.numAliveTokens <= 3 && victim.numUnplacedTokens <= 0 ==> Reported(next) == Some(g.current.currentPlayer))
      && (victim.numUnplacedTokens > 0 ==> Reported(next) == None)
  {
    var b := g.current;
    var removed := RemoveTokenActions.Executed(b, index, false);
    assert Performed(b, index) == ActionResult(true, Switched(removed.board));
    RemoveTokenActions.CaptureTakesToken(b, index);
    CopyKeepsTurn(Switched(removed.board));
  }

  /**
   * With more than three tokens and none to place, the playing team is beaten
   * exactly when none of its tokens can be picked up.
   */
  lemma VictoryMatchesPickUp(s: BoardState)
    requires WellFormed(s)
    requires PlayingTeamOf(s).numAliveTokens > 3 && PlayingTeamOf(s).numUnplacedTokens <= 0
    ensures Victory(s) <==> forall i: Node :: !RemoveTokenActions.PickUp(s, i).success
  {
    if !Victory(s) {
      var i: Node :| s.occupants[i] == Some(s.currentPlayer) && !IsStuck(s.occupants, i);
      assert RemoveTokenActions.PickUp(s, i).success;
    }
  }

  /**
   * A team of exactly three tokens, none to place, all stuck, is beaten, although
   * with three tokens it may still lift any of them.
   */
  lemma StuckThreeLose(s: BoardState, i: Node)
    requires WellFormed(s)
    requires PlayingTeamOf(s).numAliveTokens == 3 && PlayingTeamOf(s).numUnplacedTokens <= 0
    requires s.occupants[i] == Some(s.currentPlayer)
    requires forall k: Node :: s.occupants[k] == Some(s.currentPlayer) ==> IsStuck(s.occupants, k)
    ensures Victory(s)
    ensures RemoveTokenActions.PickUp(s, i).success
  {
  }

  /** The ledger holds on every board of the history and on the current board. */
  predicate GameAccounted(g: GameState)
  {
    (forall k | 0 <= k < |g.history| :: Accounted(g.history[k])) && Accounted(g.current)
  }

  /** A refused action leaves the ledger as it was: only the mill counters may have moved. */
  lemma RefusedAccounted(b: BoardState, index: Node)
    requires Accounted(b) && !Performed(b, index).success
    ensures Accounted(Performed(b, index).board)
  {
    var r := Performed(b, index).board;
    RefusedBoard(b, index);
    CountersAccounted(b, r.millCounters);
  }

  /** An accepted action keeps the ledger, by the phase it was taken in. */
  lemma AcceptedAccounted(b: BoardState, index: Node)
    requires Accounted(b) && Performed(b, index).success
    ensures Accounted(Performed(b, index).board)
  {
    if b.gamePhase == 0 {
      PickUpAccounted(b, index);
    } else if b.gamePhase == 1 {
      PlacementAccounted(b, index, b.pickUpPositionIndex);
    } else {
      CaptureAccounted(b, index);
    }
  }

  /** Every action, accepted or refused, leaves a board that keeps the ledger. */
  lemma PerformedAccounted(b: BoardState, index: Node)
    requires Accounted(b)
    ensures Accounted(Performed(b, index).board)
  {
    if Performed(b, index).success {
      AcceptedAccounted(b, index);
    } else {
      RefusedAccounted(b, index);
    }
  }

  /** Going on from a board that keeps the ledger keeps it for the whole game. */
  lemma ContinuedAccounted(g: GameState, performed: ActionResult)
    requires GameAccounted(g) && Accounted(performed.board)
    ensures GameAccounted(Continued(g, performed))
  {
    if performed.success {
      CopyAccounted(performed.board);
    }
  }

  /** Game.performAction keeps the ledger on the history and on the current board. */
  lemma ActionAccounted(g: GameState, index: Node)
    requires GameAccounted(g)
    ensures GameAccounted(AfterAction(g, index))
  {
    PerformedAccounted(g.current, index);
    ContinuedAccounted(g, Performed(g.current, index));
  }

  /** Game.undo keeps the ledger: the new current board is a copy of a board of the history. */
  lemma UndoAccounted(g: GameState)
    requires |g.history| >= 1 && GameAccounted(g)
    ensures GameAccounted(Undone(g))
  {
    if |g.history| > 1 {
      CopyAccounted(g.history[|g.history| - 2]);
    }
  }

  /** A new game on a history of accounted boards keeps the ledger; in particular one started from a new board. */
  lemma StartAccounted(history: seq<BoardState>)
    requires |history| >= 1 && forall k | 0 <= k < |history| :: Accounted(history[k])
    ensures Accounted(history[|history| - 1])
    ensures GameAccounted(GameState(history, Copied(history[|history| - 1])))
    ensures var start := Constructed(None, None, None, None);
            GameAccounted(GameState([start], Copied(start)))
  {
    CopyAccounted(history[|history| - 1]);
    DefaultAccounted();
    CopyAccounted(Constructed(None, None, None, None));
  }

  /**
   * Under the ledger a team with tokens still to place is never reported beaten:
   * it is not in phase 0, phase 1 reports nothing, and in phase 2 it has three
   * tokens on the board and at least one to place, so it is not short of tokens.
   */
  lemma PlacingNeverBeaten(s: BoardState)
    requires Accounted(s)
    requires PlayingTeamOf(s).numUnplacedTokens > 0
    ensures Reported(s) == None
  {
  }

  /** The pick-up position the last board of the history remembers; the current board, a copy, has forgotten it. */
  function RememberedPickUp(g: GameState): Option<Node>
    requires |g.history| >= 1
  {
    g.history[|g.history| - 1].pickUpPositionIndex
  }

  /**
   * The placement an engine would make that kept the pick-up position across
   * the copy: the lifted token may not go back to its own position, and must go
   * to a neighbour unless the team has at most three tokens.
   */
  function IntendedPlacement(g: GameState, index: Node): (r: ActionResult)
    requires GameInv(g)
    ensures WellFormed(r.board)
  {
    var from := RememberedPickUp(g);
    if from == Some(index) then ActionResult(false, g.current)
    else PlaceTokenActions.Executed(g.current, index, from)
  }

  /** The intended placement after a pick-up from `from` obeys the adjacency rule, and refuses `from` itself. */
  lemma IntendedMoveNeedsAdjacency(g: GameState, index: Node, from: Node)
    requires GameInv(g) && RememberedPickUp(g) == Some(from)
    ensures !IntendedPlacement(g, from).success
    ensures index != from ==>
              (IntendedPlacement(g, index).success
               <==> g.current.occupants[index] == None
                    && ((exists d :: Neighbour(from, d) == Some(index)) || PlayingTeamOf(g.current).numAliveTokens <= 3))
  {
    PlaceTokenActions.MovePlacementSucceedsIff(g.current, index, from);
  }

  /**
   * The code as written: a token lifted from position 0 by a team of more than
   * three tokens is accepted on the far corner 23, which is no neighbour of 0,
   * while the same placement checked against the pushed board that remembers
   * position 0 is refused.
   */
  lemma MoveAnywhereExample(g: GameState)
    requires GameInv(g) && g.current.gamePhase == 1
    requires RememberedPickUp(g) == Some(0)
    requires g.current.occupants[23] == None && PlayingTeamOf(g.current).numAliveTokens > 3
    ensures Performed(g.current, 23).success
    ensures !IntendedPlacement(g, 23).success
  {
    PlaceTokenActions.FreshPlacementSucceedsIff(g.current, 23);
    IntendedMoveNeedsAdjacency(g, 23, 0);
  }

  /**
   * A game. A board pushed onto the history is never changed again (the game goes
   * on with a fresh copy), so the history keeps the boards' values.
   */
  class Game {
    var boardHistory: seq<BoardState>
    var currentBoard: Board

    /** The value of the game. */
    function Model(): GameState
      requires currentBoard.Valid()
      reads this, currentBoard.Repr()
    {
      GameState(boardHistory, currentBoard.State())
    }

    /** The current board is a board and the game invariant holds. */
    ghost predicate Valid()
      reads this, currentBoard.Repr()
    {
      currentBoard.Valid() && GameInv(Model())
    }

    /** Game constructor: the given history, and a copy of its last board to play on. */
    constructor (boardHistory: seq<BoardState>)
      requires |boardHistory| >= 1 && forall k | 0 <= k < |boardHistory| :: WellFormed(boardHistory[k])
      ensures Valid() && fresh(currentBoard.Repr())
      ensures Model() == GameState(boardHistory, Copied(boardHistory[|boardHistory| - 1]))
    {
      var top := boardHistory[|boardHistory| - 1];
      this.boardHistory := boardHistory;
      this.currentBoard := new Board(Some(top.teams), Some(top.currentPlayer), Some(top.occupants), Some(top.gamePhase));
      new;
      StartKeepsInvariant(boardHistory);
    }

    /** Game.updateBoard: push the current board and go on with a copy of it. */
    method UpdateBoard()
      requires currentBoard.Valid()
      modifies this
      ensures currentBoard.Valid() && fresh(currentBoard.Repr())
      ensures Model() == GameState(old(boardHistory) + [old(currentBoard.State())], Copied(old(currentBoard.State())))
    {
      var pushed := currentBoard.State();
      boardHistory := boardHistory + [pushed];
      currentBoard := new Board(Some(pushed.teams), Some(pushed.currentPlayer), Some(pushed.occupants), Some(pushed.gamePhase));
    }

    /** Game.performAction. */
    method PerformAction(index: Node)
      requires Valid()
      modifies this, currentBoard.Repr()
      ensures Valid()
      ensures Model() == AfterAction(old(Model()), index)
      ensures GameAccounted(old(Model())) ==> GameAccounted(Model())
    {
      ghost var before := Model();
      ActionKeepsInvariant(before, index);
      var phase := currentBoard.gamePhase;
      if phase == 0 {
        var updated := RemoveTokenActions.Execute(currentBoard, index, true);
        if updated {
          UpdateBoard();
        }
      } else if phase == 1 {
        if currentBoard.pickUpPositionIndex != Some(index) {
          var updated := PlaceTokenActions.Execute(currentBoard, index, currentBoard.pickUpPositionIndex);
          if updated {
            UpdateBoard();
          }
        }
      } else if phase == 2 {
        var updated := RemoveTokenActions.Execute(currentBoard, index, false);
        if updated {
          currentBoard.SwitchPlayingTeam();
          UpdateBoard();
        }
      }
      assert Model() == AfterAction(before, index);
      if GameAccounted(before) {
        ActionAccounted(before, index);
      }
    }

    /** Game.undo. */
    method Undo()
      requires Valid()
      modifies this
      ensures Valid()
      ensures Model() == Undone(old(Model()))
      ensures GameAccounted(old(Model())) ==> GameAccounted(Model())
    {
      ghost var before := Model();
      UndoKeepsInvariant(before);
      if |boardHistory| > 1 {
        boardHistory := boardHistory[..|boardHistory| - 1];
        var top := boardHistory[|boardHistory| - 1];
        currentBoard := new Board(Some(top.teams), Some(top.currentPlayer), Some(top.occupants), Some(top.gamePhase));
      }
      assert Model() == Undone(before);
      if GameAccounted(before) {
        UndoAccounted(before);
      }
    }

    /**
     * Game.checkVictory on the given board: fewer than three tokens, or none to
     * place and no token of the playing team that is not stuck.
     */
    static method CheckVictory(board: Board) returns (victory: bool)
      requires board.Valid()
      ensures victory == Victory(board.State())
    {
      var currentTeam := board.PlayingTeam();
      if currentTeam.numAliveTokens < 3 {
        return true;
      }
      if currentTeam.numUnplacedTokens > 0 {
        return false;
      }
      var unableToMove := true;
      for i := 0 to 24
        invariant unableToMove
        invariant forall k: Node :: k < i && board.occupants[k] == Some(board.currentPlayer)
                    ==> IsStuck(board.occupants[..], k)
      {
        if board.occupants[i] == Some(board.PlayingTeam().player) && !IsStuck(board.occupants[..], i) {
          unableToMove := false;
          break;
        }
      }
      return unableToMove;
    }

    /** Game.action: undo or perform, then report the winner if the current board shows a victory outside phase 1. */
    method Action(index: Node, isUndoing: bool) returns (winner: Option<Player>)
      requires Valid()
      modifies this, currentBoard.Repr()
      ensures Valid()
      ensures Model() == if isUndoing then Undone(old(Model())) else AfterAction(old(Model()), index)
      ensures winner == Reported(Model().current)
      ensures GameAccounted(old(Model())) ==> GameAccounted(Model())
    {
      if isUndoing {
        Undo();
      } else {
        PerformAction(index);
      }
      var victory := CheckVictory(currentBoard);
      if victory && currentBoard.gamePhase != 1 {
        winner := Some(currentBoard.NonPlayingTeam().player);
      } else {
        winner := None;
      }
    }
  }
}
