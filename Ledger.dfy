/**
 * The token ledger of a board. For each team, its tokens on the board plus
 * its tokens still to place make up its alive tokens. The one exception is a
 * lifted token waiting to be put down again: in phase 1 with nothing left to
 * place, the playing team has one token off the board. Each of the three
 * actions keeps the ledger.
 */
module Ledger {
  import opened Wrappers
  import opened Enums
  import opened Topology
  import opened Positions
  import opened Teams
  import opened Boards
  import PlaceTokenActions
  import RemoveTokenActions

  /** One if the position holds a token of `p`, zero otherwise. */
  function Mark(o: Option<Player>, p: Player): nat
  {
    if o == Some(p) then 1 else 0
  }

  /** The number of positions that hold a token of `p`. */
  function Tokens(occ: seq<Option<Player>>, p: Player): (n: nat)
    ensures n <= |occ|
  {
    if |occ| == 0 then 0 else Tokens(occ[..|occ| - 1], p) + Mark(occ[|occ| - 1], p)
  }

  /** Changing one position changes the count by what leaves it and what arrives. */
  lemma {:induction false} TokensUpdate(occ: seq<Option<Player>>, k: nat, v: Option<Player>, p: Player)
    requires k < |occ|
    ensures Tokens(occ[k := v], p) + Mark(occ[k], p) == Tokens(occ, p) + Mark(v, p)
    decreases |occ|
  {
    var n := |occ| - 1;
    if k == n {
      assert occ[k := v][..n] == occ[..n];
    } else {
      assert occ[k := v][..n] == occ[..n][k := v];
      TokensUpdate(occ[..n], k, v, p);
    }
  }

  /** An empty board holds no token of anyone. */
  lemma {:induction false} NoTokens(occ: seq<Option<Player>>, p: Player)
    requires forall k | 0 <= k < |occ| :: occ[k] == None
    ensures Tokens(occ, p) == 0
  {
    if |occ| > 0 {
      NoTokens(occ[..|occ| - 1], p);
    }
  }

  /** A line filled with tokens of `p` means at least three of them on the board. */
  lemma LineOfThree(occ: Occupancy, a: Axis, l: Line, p: Player)
    requires forall q: Place :: occ[NodeAt(a, l, q)] == Some(p)
    ensures Tokens(occ, p) >= 3
  {
    var x, y, z := NodeAt(a, l, 0), NodeAt(a, l, 1), NodeAt(a, l, 2);
    LineGeometry(a, l, 0);
    LineGeometry(a, l, 1);
    LineGeometry(a, l, 2);
    var o1 := occ[x := None];
    var o2 := o1[y := None];
    TokensUpdate(occ, x, None, p);
    TokensUpdate(o1, y, None, p);
    TokensUpdate(o2, z, None, p);
  }

  /** A token of the playing team has been picked up and waits to be placed. */
  predicate Lifted(s: BoardState)
    requires WellFormed(s)
  {
    s.gamePhase == 1 && PlayingTeamOf(s).numUnplacedTokens == 0
  }

  /**
   * The ledger of a board, as the game keeps it. The phase is 0, 1 or 2. No
   * team has fewer than no tokens to place. Phase 0 means the playing team has
   * placed all of its tokens. Phase 2 follows a mill, so the playing team has
   * at least three tokens on the board. Each team's tokens on the board plus
   * its tokens to place are its alive tokens, less a lifted token.
   */
  predicate Accounted(s: BoardState)
  {
    && WellFormed(s)
    && 0 <= s.gamePhase <= 2
    && PlayingTeamOf(s).numUnplacedTokens >= 0
    && NonPlayingTeamOf(s).numUnplacedTokens >= 0
    && (s.gamePhase == 0 ==> PlayingTeamOf(s).numUnplacedTokens == 0)
    && (s.gamePhase == 2 ==> Tokens(s.occupants, s.currentPlayer) >= 3)
    && Tokens(s.occupants, Other(s.currentPlayer)) + NonPlayingTeamOf(s).numUnplacedTokens
       == NonPlayingTeamOf(s).numAliveTokens
    && Tokens(s.occupants, s.currentPlayer) + PlayingTeamOf(s).numUnplacedTokens + (if Lifted(s) then 1 else 0)
       == PlayingTeamOf(s).numAliveTokens
  }

  /** Under the ledger neither team has more tokens on the board than alive. */
  lemma AccountedBounds(s: BoardState)
    requires Accounted(s)
    ensures Tokens(s.occupants, Cat) <= s.teams[0].numAliveTokens
    ensures Tokens(s.occupants, Dog) <= s.teams[1].numAliveTokens
  {
  }

  /** The ledger does not look at the mill counters. */
  lemma CountersAccounted(s: BoardState, counters: Counters)
    requires Accounted(s)
    ensures Accounted(s.(millCounters := counters))
  {
    var r := s.(millCounters := counters);
    assert PlayingTeamOf(r) == PlayingTeamOf(s) && NonPlayingTeamOf(r) == NonPlayingTeamOf(s);
  }

  /** A new board (nine to place and nine alive each, nothing on the board) keeps the ledger. */
  lemma DefaultAccounted()
    ensures Accounted(Constructed(None, None, None, None))
  {
    var s := Constructed(None, None, None, None);
    NoTokens(s.occupants, Cat);
    NoTokens(s.occupants, Dog);
  }

  /** A copy keeps the ledger: it keeps the teams, the player, the occupants and the phase. */
  lemma CopyAccounted(s: BoardState)
    requires Accounted(s)
    ensures Accounted(Copied(s))
  {
    CopyKeepsTurn(s);
  }

  /** Handing the turn over keeps the ledger, provided the playing team has no token lifted. */
  lemma SwitchAccounted(s: BoardState)
    requires WellFormed(s)
    requires PlayingTeamOf(s).numUnplacedTokens >= 0 && NonPlayingTeamOf(s).numUnplacedTokens >= 0
    requires Tokens(s.occupants, Other(s.currentPlayer)) + NonPlayingTeamOf(s).numUnplacedTokens
             == NonPlayingTeamOf(s).numAliveTokens
    requires Tokens(s.occupants, s.currentPlayer) + PlayingTeamOf(s).numUnplacedTokens
             == PlayingTeamOf(s).numAliveTokens
    ensures Accounted(Switched(s))
  {
    var r := Switched(s);
    assert PlayingTeamOf(r) == NonPlayingTeamOf(s);
    assert NonPlayingTeamOf(r) == PlayingTeamOf(s);
  }

  /** A pick-up in phase 0 takes one token of the playing team off the board and leaves it lifted. */
  lemma PickUpAccounted(s: BoardState, index: Node)
    requires Accounted(s) && s.gamePhase == 0
    requires RemoveTokenActions.Executed(s, index, true).success
    ensures Accounted(RemoveTokenActions.Executed(s, index, true).board)
  {
    RemoveTokenActions.PickUpSucceedsIff(s, index);
    RemoveTokenActions.PickUpEffect(s, index);
    TokensUpdate(s.occupants, index, None, s.currentPlayer);
    TokensUpdate(s.occupants, index, None, Other(s.currentPlayer));
  }

  /** A placement that completes a line keeps the turn in phase 2, with the new token counted. */
  lemma MillPlacementAccounted(s: BoardState, r: BoardState, target: Node)
    requires Accounted(s) && s.gamePhase == 1 && s.occupants[target] == None
    requires WellFormed(r) && r.occupants == s.occupants[target := Some(s.currentPlayer)]
    requires r.currentPlayer == s.currentPlayer && r.gamePhase == 2
    requires PlayingTeamOf(r) == PlacedToken(PlayingTeamOf(s)) && NonPlayingTeamOf(r) == NonPlayingTeamOf(s)
    requires PlaceTokenActions.CompletesLine(r.occupants, target, s.currentPlayer)
    ensures Accounted(r)
  {
    var p := s.currentPlayer;
    TokensUpdate(s.occupants, target, Some(p), p);
    TokensUpdate(s.occupants, target, Some(p), Other(p));
    if forall q: Place :: r.occupants[NodeAt(Row, LineOf(Row, target), q)] == Some(p) {
      LineOfThree(r.occupants, Row, LineOf(Row, target), p);
    } else {
      LineOfThree(r.occupants, Column, LineOf(Column, target), p);
    }
  }

  /** A placement that completes no line hands the turn over, with the new token counted. */
  lemma SwitchPlacementAccounted(s: BoardState, x: BoardState, target: Node)
    requires Accounted(s) && s.gamePhase == 1 && s.occupants[target] == None
    requires WellFormed(x) && x.occupants == s.occupants[target := Some(s.currentPlayer)]
    requires x.currentPlayer == s.currentPlayer
    requires PlayingTeamOf(x) == PlacedToken(PlayingTeamOf(s)) && NonPlayingTeamOf(x) == NonPlayingTeamOf(s)
    ensures Accounted(Switched(x))
  {
    var p := s.currentPlayer;
    TokensUpdate(s.occupants, target, Some(p), p);
    TokensUpdate(s.occupants, target, Some(p), Other(p));
    SwitchAccounted(x);
  }

  /** A placement in phase 1 puts one token on the board and takes it from hand or ends the lift. */
  lemma PlacementAccounted(s: BoardState, target: Node, pickUp: Option<Node>)
    requires Accounted(s) && s.gamePhase == 1
    requires PlaceTokenActions.Executed(s, target, pickUp).success
    ensures Accounted(PlaceTokenActions.Executed(s, target, pickUp).board)
  {
    var p := s.currentPlayer;
    var r := PlaceTokenActions.Executed(s, target, pickUp).board;
    PlaceTokenActions.RejectionChangesNothing(s, target, pickUp);
    PlaceTokenActions.PlacementEffect(s, target, pickUp);
    PlaceTokenActions.PlacementOutcome(s, target, pickUp);
    if PlaceTokenActions.CompletesLine(r.occupants, target, p) {
      MillPlacementAccounted(s, r, target);
    } else {
      var checked := AfterCheckMill(PlaceTokenActions.Placed(s, target), target, true);
      SwitchPlacementAccounted(s, checked, target);
    }
  }

  /** A capture in phase 2 takes one token of the other team off the board and off its alive count. */
  lemma CaptureAccounted(s: BoardState, index: Node)
    requires Accounted(s) && s.gamePhase == 2
    requires RemoveTokenActions.Executed(s, index, false).success
    ensures Accounted(Switched(RemoveTokenActions.Executed(s, index, false).board))
  {
    var p := s.currentPlayer;
    var r := RemoveTokenActions.Executed(s, index, false).board;
    if s.occupants[index] != Some(Other(p)) {
      RemoveTokenActions.CaptureRequiresOpponent(s, index);
    }
    RemoveTokenActions.CaptureTakesToken(s, index);
    TokensUpdate(s.occupants, index, None, p);
    TokensUpdate(s.occupants, index, None, Other(p));
    SwitchAccounted(r);
  }
}
