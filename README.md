# Nine Men's Morris rules engine, modelled in Dafny

This project models the rules engine behind a Nine Men's Morris game ("9 Pets
Morris"). Two teams, Cat and Dog, each start with nine tokens. They place them
on a 24-position board, then move them along its lines. A team that lines up
three of its tokens (a mill) captures one token of the other team. The engine
has four parts, and each part is a module here:

- **Boards**: the board. It holds two teams, the 24 positions with their
  neighbour links, the player to move and a game phase. Phase 0 lifts a token
  of the team's own. Phase 1 places a token. Phase 2 captures an opponent
  token. The board also keeps mill counters and a pick-up position.
- **Positions and Topology**: the positions. They answer a position's queries
  (stuck, neighbour, mill check) and walk the mill counters down a line.
- **PlaceTokenActions and RemoveTokenActions**: the place-token and
  remove-token actions.
- **Games**: a game. It keeps a history of boards. It dispatches on the phase,
  supports undo and checks for victory.

The model follows the source's own form:

- `Team`, `Board` and `Game` are classes whose methods update their fields.
- A board's positions become two arrays of length 24 (occupants and mill
  counters) that the methods update in place.
- Each method is proved against a pure function on the object's value
  (`TeamState`, `BoardState`, `GameState`).
- The rules are then proved as lemmas about those functions.

The neighbour links that `Board.joinPositions` wires are the fixed table
`Topology.Wiring`. Each link lies on one of 16 straight lines of three
positions (8 rows and 8 columns). The proofs work from that line geometry.

The module **Ledger** states the token ledger of a board. For each team, its
tokens on the board plus its tokens still to place equal its alive tokens. The
one exception is a token that has been lifted and not yet put down: then the
playing team has one token off the board. The ledger also says that phase 0
means the playing team has nothing left to place, and phase 2 means it has at
least three tokens on the board. A new board keeps the ledger. Each of the
three actions keeps it, and so do a copy, a turn switch and undo. So every
game started from new boards keeps it on its whole history
(`Games.ActionAccounted`, `Games.UndoAccounted`, `Games.StartAccounted`).

These lemmas state behaviours of the source that a reader might not expect:

- In a game, the current board is always a fresh copy, which forgets the
  pick-up position. So the second half of a move goes to any empty position.
  Neither adjacency nor the three-token rule is ever checked; see
  `Games.MoveIgnoresAdjacency`.
- A mill check compares against the occupant of the position itself, which
  may be "empty". So a line of three empty positions counts as a mill; see
  `Positions.EmptyLineExample`.
- Victory is never reported in phase 1. Right after a capture, a team that
  still has tokens to place is not reported beaten, however few tokens it has
  left; see `Games.CaptureVictory`. On every board that keeps the token ledger
  (below), a team with tokens to place is never reported beaten; see
  `Games.PlacingNeverBeaten`.

## Model

| member | source | states |
|---|---|---|
| Enums.PlayerIndex | TS/Board.ts:184-194 | a player's team index is below 2, and Cat is index 0 |
| Enums.PlayerAt | TS/Board.ts:192-194 | the player at a team index has that index |
| Topology.Wiring | TS/Board.ts:90-177 | the neighbour table; no contract of its own: Topology.Wired, NeighbourSymmetric and DegreeBounds state that each link is the next position on a line, links go both ways, and every position has two to four links |
| Topology.Neighbour | TS/Position.ts:90-101 | the link in one direction; no contract of its own: Topology.Wired states that it is the next position on the line and is missing exactly at the line's end |
| Topology.Steps | TS/Board.ts:90-177 | from any position, at most two steps lead along a line in one direction |
| Topology.Wired | TS/Board.ts:90-177 | the neighbour that joinPositions sets in a direction is the next position on the line, and it is missing exactly at the end of the line |
| Topology.OnLines | TS/Board.ts:90-177 | every position sits on exactly one row and one column, and is found again from its line and place |
| Topology.LinesMeetOnce | TS/Board.ts:90-177 | two positions on the same row and the same column are the same position |
| Topology.SameSpot | TS/Board.ts:90-177 | the line and the place along one axis identify a position |
| Topology.StepShift | TS/Board.ts:90-177 | stepping to a neighbour stays on the same line, moves the place by one, and shortens the rest of the walk by one |
| Topology.AheadShift | TS/Board.ts:90-177 | the positions ahead of `i` in a direction are its neighbour plus the positions ahead of that neighbour |
| Topology.NeighbourSymmetric | TS/Board.ts:90-177 | every link is wired both ways: the neighbour's link in the opposite direction leads back |
| Topology.DegreeBounds | TS/Board.ts:90-177 | every position has between two and four neighbours |
| Topology.WalkEndsWithinTwo | TS/Board.ts:90-177 | following one direction leaves the board within two steps, so the recursive walks in Position.ts stop |
| Positions.IsStuck | TS/Position.ts:107-129 | a position is stuck exactly when each neighbour it has is occupied |
| Positions.IsNeighbour | TS/Position.ts:136-158 | true exactly when one of the four links leads to the given index |
| Positions.ConsecutiveTokenCount | TS/Position.ts:218-225 | the run in one direction never outruns the line, so it is at most 2 |
| Positions.RunPrefix | TS/Position.ts:218-225 | the positions the run counts all share the occupant of the start |
| Positions.RunStops | TS/Position.ts:218-225 | the position just past the run, if the line goes on, has a different occupant |
| Positions.RunMatches | TS/Position.ts:218-225 | the run is exactly the prefix of equal occupants along the line |
| Positions.RunToEnd | TS/Position.ts:218-225 | the run reaches the end of the line exactly when every position on the way shares the start's occupant |
| Positions.RunsMeanLine | TS/Position.ts:195-198 | the runs either side add up to two exactly when the whole line shares the occupant (both directions) |
| Positions.CheckMill | TS/Position.ts:195-211 | the orientation of the mill at a position; no contract of its own: Positions.CheckMillMeansLines states that it reports exactly the uniform column and row |
| Positions.CheckMillMeansLines | TS/Position.ts:195-211 | checkMill reports Vertical, Horizontal, Both or nothing exactly as the column and the row of the position are uniform |
| Positions.HorizontalMillExample | TS/Position.ts:195-211 | three Cat tokens on positions 0, 1 and 2 are reported as a horizontal mill at 1 |
| Positions.MismatchedLineExample | TS/Position.ts:195-211 | a Dog token at 0 or 2 beside a Cat token at 1 gives no horizontal mill at 1 |
| Positions.EmptyLineExample | TS/Position.ts:195-211 | three empty positions in a row are reported as a mill, because the comparison includes "empty" |
| Positions.DirectionUpdateEffect | TS/Position.ts:259-266 | the directional walk changes the counter of exactly the positions ahead in that direction, each by one |
| Positions.AxisUpdateEffect | TS/Position.ts:232-252 | the two walks along an axis change every other position of the line once and leave the start alone |
| Positions.OrientationUpdateEffect | TS/Position.ts:232-252 | the position's own counter moves by one whatever the orientation, each other position on a walked line moves by one, and all others stay |
| Positions.PlaceToken | TS/Position.ts:180-182 | the position now holds the player and no other position changes |
| Positions.RemoveToken | TS/Position.ts:187-189 | the position is now empty and no other position changes |
| Positions.UpdateMillCounter | TS/Position.ts:272-278 | the counter moves up by one for an added mill and down by one otherwise, and no other counter changes |
| Positions.UpdateMillCounterDirection | TS/Position.ts:259-266 | the recursive walk leaves exactly the counters of the directional walk function |
| Positions.UpdateMillCounterOrientation | TS/Position.ts:232-252 | the array is left with the counters of the orientation update function |
| Teams.PlacedToken | TS/Team.ts:60-64 | placing lowers the unplaced count by one exactly when it is positive, never below zero, and touches nothing else |
| Teams.RemovedToken | TS/Team.ts:69-71 | removing lowers the alive count by one, without a guard, and touches nothing else |
| Teams.Team.constructor | TS/Team.ts:27-31 | a new team has its player, and 9 unplaced and 9 alive tokens unless counts are given |
| Teams.Team.PlaceToken | TS/Team.ts:60-64 | the team's new value is PlacedToken of its old value |
| Teams.Team.RemoveToken | TS/Team.ts:69-71 | the team's new value is RemovedToken of its old value |
| Boards.Other | TS/Board.ts:192-194 | the other player differs, and its index is the player's index plus one, mod 2 |
| Boards.PlayingTeamOf | TS/Board.ts:184-186 | the playing team belongs to the player to move |
| Boards.NonPlayingTeamOf | TS/Board.ts:192-194 | the non-playing team belongs to the other player |
| Boards.Constructed | TS/Board.ts:44-59 | the board the constructor builds; no contract of its own: Boards.DefaultBoard states the default board, and Boards.CopyKeepsTurn what a rebuild keeps |
| Boards.Copied | TS/Game.ts:133-136 | the copy updateBoard and undo make; no contract of its own: Boards.CopyKeepsTurn, CopyIdempotent and CopyForgets state what it keeps and resets |
| Boards.DefaultBoard | TS/Board.ts:44-59 | a board built with no arguments is empty, with 9 and 9 tokens per team, and Cat places in phase 1 |
| Boards.CopyKeepsTurn | TS/Board.ts:44-59 | a copy keeps the teams' counts, the player, the occupants and the phase, and resets the mill counters and the pick-up position |
| Boards.CopyIdempotent | TS/Board.ts:44-59 | copying a copy gives the same board |
| Boards.CopyForgets | TS/Board.ts:44-59 | boards that differ only in mill counters and pick-up position have the same copy |
| Boards.Switched | TS/Board.ts:272-282 | the other player moves, in phase 1 if their team has tokens to place and in phase 0 otherwise, with no pick-up position; teams and positions stay |
| Boards.SwitchTwice | TS/Board.ts:272-282 | switching twice gives the turn back, in the phase the player's own team calls for |
| Boards.AfterCheckMill | TS/Board.ts:290-294 | checkMill changes only mill counters, and the checked position's counter moves by exactly one |
| Boards.ToRecord | TS/Board.ts:300-308 | the JSON record lists every position's occupant, the teams, the player, the phase and the pick-up position |
| Boards.RecordRebuildsCopy | TS/Board.ts:300-308 | rebuilding a board from its record with the constructor gives a copy of it |
| Boards.Board.State | TS/Board.ts:44-59 | the value of a valid board is well formed |
| Boards.Board.constructor | TS/Board.ts:44-59 | the new board is the constructor's value: given teams, player, positions and phase, or the defaults |
| Boards.Board.SetPositions | TS/Board.ts:66-73 | the new array holds the occupants of the first 24 given positions |
| Boards.Board.SetUpPositions | TS/Board.ts:79-85 | the new array holds 24 empty positions |
| Boards.Board.PlayingTeam | TS/Board.ts:184-186 | the team of the player to move, whose value is PlayingTeamOf of the board |
| Boards.Board.NonPlayingTeam | TS/Board.ts:192-194 | the other team, distinct from the playing team, whose value is NonPlayingTeamOf of the board |
| Boards.Board.IncrementGamePhase | TS/Board.ts:257-259 | the phase goes up by one and nothing else changes |
| Boards.Board.SetPickUpPosition | TS/Board.ts:265-267 | the pick-up position is set and nothing else changes |
| Boards.Board.SwitchPlayingTeam | TS/Board.ts:272-282 | the board's new value is Switched of its old value |
| Boards.Board.CheckMill | TS/Board.ts:290-294 | the answer is whether the position is in a mill, and the counters are walked as AfterCheckMill says |
| Boards.Board.ToJson | TS/Board.ts:300-308 | the record of the board's value |
| Ledger.LineOfThree | TS/Position.ts:195-211 | a row or column filled with one player's tokens means at least three of that player's tokens on the board |
| Ledger.AccountedBounds | TS/Team.ts:27-31 | under the ledger neither team has more tokens on the board than alive |
| Ledger.DefaultAccounted | TS/Board.ts:44-59 | a new board keeps the ledger |
| Ledger.CountersAccounted | TS/Board.ts:290-294 | moving the mill counters does not affect the ledger |
| Ledger.CopyAccounted | TS/Game.ts:133-136 | a copy of a board keeps the ledger |
| Ledger.SwitchAccounted | TS/Board.ts:272-282 | handing the turn over keeps the ledger when no token is lifted |
| Ledger.PickUpAccounted | TS/Actions/RemoveTokenAction.ts:55-68 | an accepted pick-up in phase 0 keeps the ledger, with the picked-up token counted as lifted |
| Ledger.MillPlacementAccounted | TS/Actions/PlaceTokenAction.ts:35-38 | a placement that completes a mill keeps the ledger, in phase 2 with at least three tokens on the board |
| Ledger.SwitchPlacementAccounted | TS/Actions/PlaceTokenAction.ts:39-41 | a placement that completes no mill hands the turn over and keeps the ledger |
| Ledger.PlacementAccounted | TS/Actions/PlaceTokenAction.ts:35-78 | an accepted placement in phase 1 keeps the ledger, whether it puts down a new token or the lifted one |
| Ledger.CaptureAccounted | TS/Actions/RemoveTokenAction.ts:97-108 | an accepted capture in phase 2, followed by the turn switch, keeps the ledger |
| PlaceTokenActions.Placed | TS/Actions/PlaceTokenAction.ts:63-73 | the board after a placement is well formed |
| PlaceTokenActions.Placement | TS/Actions/PlaceTokenAction.ts:51-78 | the board placeToken leaves is well formed; its acceptance rule is stated by the two SucceedsIff lemmas |
| PlaceTokenActions.Executed | TS/Actions/PlaceTokenAction.ts:35-45 | the board execute leaves is well formed; its effect is stated by PlacementEffect and PlacementOutcome |
| PlaceTokenActions.FreshPlacementSucceedsIff | TS/Actions/PlaceTokenAction.ts:68-75 | a new token is accepted exactly when the target is empty |
| PlaceTokenActions.MovePlacementSucceedsIff | TS/Actions/PlaceTokenAction.ts:61-67 | a moved token is accepted exactly when the target is empty and is linked to the pick-up position, or the team has at most three tokens |
| PlaceTokenActions.RejectionChangesNothing | TS/Actions/PlaceTokenAction.ts:35-45 | an occupied target is always refused, and a refusal leaves the board unchanged |
| PlaceTokenActions.PlacementEffect | TS/Actions/PlaceTokenAction.ts:51-78 | an accepted placement puts the player's token on the target only, applies placeToken to the player's team, and leaves the other team alone |
| PlaceTokenActions.PlacementOutcome | TS/Actions/PlaceTokenAction.ts:35-45 | after a placement, the same player keeps the turn one phase on exactly when the token completes its row or column; otherwise the turn passes |
| PlaceTokenActions.PlaceToken | TS/Actions/PlaceTokenAction.ts:51-78 | the result and the new board are the placement function's |
| PlaceTokenActions.Execute | TS/Actions/PlaceTokenAction.ts:35-45 | the result and the new board are those of execute on the board's value |
| RemoveTokenActions.Captured | TS/Actions/RemoveTokenAction.ts:97-108 | the board after a capture is well formed |
| RemoveTokenActions.MillScan | TS/Actions/RemoveTokenAction.ts:79-95 | the capture loop on values; no contract of its own: RemoveTokenActions.ScanVerdict and MillScanFindsAll state that it succeeds exactly when every opponent token is in a mill |
| RemoveTokenActions.ScanVerdict | TS/Actions/RemoveTokenAction.ts:79-95 | the loop's verdict is the position-by-position all-in-mill test, whatever the counters |
| RemoveTokenActions.AllInMillFromEvery | TS/Actions/RemoveTokenAction.ts:79-95 | the position-by-position test holds exactly when every opponent token from that position on is in a mill |
| RemoveTokenActions.MillScanFindsAll | TS/Actions/RemoveTokenAction.ts:79-95 | the loop succeeds exactly when every opponent token is in a mill |
| RemoveTokenActions.Capture | TS/Actions/RemoveTokenAction.ts:70-109 | the board a capture leaves is well formed; its rule is stated by CaptureRequiresOpponent, CaptureOutsideMill and CaptureInMill |
| RemoveTokenActions.PickUp | TS/Actions/RemoveTokenAction.ts:55-68 | the board a pick-up leaves is well formed; its rule is stated by PickUpSucceedsIff |
| RemoveTokenActions.Removal | TS/Actions/RemoveTokenAction.ts:48-112 | the board removeToken leaves is well formed |
| RemoveTokenActions.Executed | TS/Actions/RemoveTokenAction.ts:35-42 | the board execute leaves is well formed; its effect is stated by PickUpEffect and CaptureTakesToken |
| RemoveTokenActions.PickUpSucceedsIff | TS/Actions/RemoveTokenAction.ts:55-68 | a pick-up is accepted exactly when the token is the player's and it has an empty neighbour or the team has at most three tokens |
| RemoveTokenActions.PickUpEffect | TS/Actions/RemoveTokenAction.ts:35-42 | an accepted pick-up empties the position only, moves one phase on and records the position |
| RemoveTokenActions.CaptureRequiresOpponent | TS/Actions/RemoveTokenAction.ts:70-74 | trying to capture anything but an opponent token is refused and changes nothing |
| RemoveTokenActions.CaptureOutsideMill | TS/Actions/RemoveTokenAction.ts:103-108 | an opponent token in no mill is always captured |
| RemoveTokenActions.CaptureTakesToken | TS/Actions/RemoveTokenAction.ts:35-42 | an accepted capture empties the position only, takes one alive token from the other team, keeps the player's team and the player, moves one phase on and records the position |
| RemoveTokenActions.CaptureInMill | TS/Actions/RemoveTokenAction.ts:76-101 | an opponent token in a mill is captured exactly when every opponent token is in a mill |
| RemoveTokenActions.RefusalKeepsTurn | TS/Actions/RemoveTokenAction.ts:48-112 | a refused removal changes at most the mill counters |
| RemoveTokenActions.RemovalKeepsPlayingTeam | TS/Actions/RemoveTokenAction.ts:48-112 | no removal changes the playing team's counts or the player to move |
| RemoveTokenActions.CheckOpponentMills | TS/Actions/RemoveTokenAction.ts:79-95 | the loop's answer and the counters it leaves are those of the scan function, and nothing else changes |
| RemoveTokenActions.PickUpToken | TS/Actions/RemoveTokenAction.ts:55-68 | the result and the new board are the pick-up function's |
| RemoveTokenActions.TakeToken | TS/Actions/RemoveTokenAction.ts:97-108 | the position is emptied and the non-playing team loses a token |
| RemoveTokenActions.CaptureToken | TS/Actions/RemoveTokenAction.ts:70-109 | the result and the new board are the capture function's |
| RemoveTokenActions.RemoveToken | TS/Actions/RemoveTokenAction.ts:48-112 | the result and the new board are the removal function's |
| RemoveTokenActions.Execute | TS/Actions/RemoveTokenAction.ts:35-42 | the result and the new board are those of execute on the board's value |
| Games.AfterAction | TS/Game.ts:95-136 | performAction on a value; no contract of its own: Games.ActionKeepsInvariant, ActionAccounted and UndoAfterAction state the invariant and ledger it keeps and how undo reverses it |
| Games.Undone | TS/Game.ts:143-150 | undo on a value; no contract of its own: Games.UndoKeepsInvariant and UndoAccounted state that it drops the last board and keeps the invariant and the ledger |
| Games.Victory | TS/Game.ts:246-270 | checkVictory on a value; no contract of its own: Games.VictoryMatchesPickUp and StuckThreeLose state when a team is beaten |
| Games.Reported | TS/Game.ts:83-85 | the winner action reports; no contract of its own: Games.CaptureVictory and PlacingNeverBeaten state when a winner is reported |
| Games.Performed | TS/Game.ts:95-128 | the board an action leaves is well formed |
| Games.StartKeepsInvariant | TS/Game.ts:37-44 | a new game on any non-empty history satisfies the game invariant |
| Games.ContinuedKeepsInvariant | TS/Game.ts:95-136 | pushing an accepted board, or keeping a refused one that differs only in counters, keeps the invariant |
| Games.AcceptedKeepsTurn | TS/Game.ts:95-136 | an accepted action pushes its board, and the game goes on with the same turn as that board |
| Games.RefusedBoard | TS/Game.ts:95-128 | a refused action changes at most the current board's mill counters |
| Games.RefusedKeepsTurn | TS/Game.ts:95-128 | a refused action keeps the history and the turn |
| Games.ActionKeepsInvariant | TS/Game.ts:95-136 | every action keeps the game invariant |
| Games.UndoKeepsInvariant | TS/Game.ts:143-150 | undo keeps the invariant, drops the last board, and does nothing on a history of one |
| Games.UndoAfterAction | TS/Game.ts:133-150 | undo right after an accepted action restores the history and gives a copy of the board the action started from |
| Games.MoveIgnoresAdjacency | TS/Game.ts:107-115 | in a game, the placement phase accepts exactly the empty positions, whatever the pick-up position |
| Games.CaptureVictory | TS/Game.ts:76-89 | after a capture the beaten team moves with one token fewer; the capturer is reported when that team has at most three tokens and none to place, and no winner while it has tokens to place |
| Games.VictoryMatchesPickUp | TS/Game.ts:246-270 | with more than three tokens and none to place, a team is beaten exactly when none of its tokens can be lifted |
| Games.StuckThreeLose | TS/Game.ts:246-270 | a team of three, none to place, all stuck, is beaten although it could still lift a token |
| Games.RefusedAccounted | TS/Game.ts:95-128 | a refused action keeps the ledger |
| Games.AcceptedAccounted | TS/Game.ts:95-128 | an accepted action keeps the ledger, in each of the three phases |
| Games.PerformedAccounted | TS/Game.ts:95-128 | every action, accepted or refused, leaves a board that keeps the ledger |
| Games.ContinuedAccounted | TS/Game.ts:133-136 | going on from a board that keeps the ledger keeps it on the whole history and the current board |
| Games.ActionAccounted | TS/Game.ts:95-136 | performAction keeps the ledger on the history and the current board |
| Games.UndoAccounted | TS/Game.ts:143-150 | undo keeps the ledger on the history and the current board |
| Games.StartAccounted | TS/Game.ts:37-44 | a game started on a history that keeps the ledger keeps it, and so does one started on a new board |
| Games.PlacingNeverBeaten | TS/Game.ts:83-85 | on a board that keeps the ledger, a team with tokens to place is never reported beaten |
| Games.IntendedPlacement | TS/Actions/PlaceTokenAction.ts:60-67 | the placement with the pick-up position kept across the copy; its board is well formed, and its rule is stated by Games.IntendedMoveNeedsAdjacency |
| Games.IntendedMoveNeedsAdjacency | TS/Actions/PlaceTokenAction.ts:60-67 | with the pick-up position kept, the lifted token is refused on its own position, and accepted elsewhere exactly when the target is empty and a neighbour of it, or the team has at most three tokens |
| Games.MoveAnywhereExample | TS/Game.ts:133-136 | a token lifted from position 0 by a team of more than three tokens is accepted on position 23 in the game, though the intended placement refuses it |
| Games.Game.constructor | TS/Game.ts:37-44 | the game holds the given history and plays on a copy of its last board |
| Games.Game.UpdateBoard | TS/Game.ts:133-136 | the current board is pushed and the game goes on with a fresh copy of it |
| Games.Game.PerformAction | TS/Game.ts:95-128 | the game keeps its invariant, and its new value is the action function's |
| Games.Game.Undo | TS/Game.ts:143-150 | the game keeps its invariant, and its new value is the undo function's |
| Games.Game.CheckVictory | TS/Game.ts:246-270 | true exactly when the team to move has fewer than three tokens, or has none to place and every token of its own is stuck |
| Games.Game.Action | TS/Game.ts:76-89 | undo or perform as asked, keeping the invariant; the winner is the non-playing team on a victory outside phase 1 |

## Left out

- The user interface files TS/Display.ts, TS/Application.ts and server.ts are not part of this model. Neither are the game's display parameters or the calls into them.
- Game.run, Game.exit, Game.save and their file output are left out, because they are I/O.
- The `console.log` message of the capture loop is left out, because it is output only.
- The Action base class (project-main/src/TS/Actions/Action.ts) is not modelled as a class. Each action is a module-level method on the board it acts on.
- The game's name and game index are left out. The rules never read them.
- Game.constructor's optional `currentBoard` argument is left out. Two of its callers (TS/Application.ts:155 and :157) omit it. The third (TS/Application.ts:117) passes `boardHist[-1]`, which is always undefined in JavaScript. So the game always starts on a copy of the last board.
- The neighbour object graph (Position.setNeighbour, Position.getNeighbour) is the fixed table `Topology.Wiring`. The links joinPositions sets are the same on every board.
- Getters are plain field reads.
- The enum files (Player, Direction, Orientation) are not part of this model. `Enums` gives them the values the code relies on: Cat is team 0 and Dog is team 1.
- Boards.Board.constructor takes team and occupant values instead of Team and Position objects. The source reads only their getters.
- Position indices are `Node` (0 to 23). An index outside the board, which the source would read as undefined, is not modelled.
- Games.Game: the history is kept as board values, not Board objects. A pushed board is never changed again, so its value is all that matters. Aliasing between history entries is not modelled.
- Games.Game.CheckVictory: the source's loop reads the game's current board, not its parameter. The model reads the parameter, which is the same board whenever Game.action calls it.
- PlaceTokenActions.Execute and RemoveTokenActions.Execute return `success` where the source returns the board or undefined.
- RemoveTokenActions.CaptureOutsideMill states only that the capture is accepted. Its effect on the board is in RemoveTokenActions.CaptureTakesToken.
- Games.Game: the class invariant does not demand the token ledger, because the constructor takes any history, such as one read back from a file. PerformAction, Undo and Action promise instead to keep the ledger whenever it held before.
- Integer widths: counts and counters are unbounded integers. The source's JavaScript numbers never come near their limits in a game.

## Findings

| source | as written | input that shows it | evidently intended | confidence | as-written member | corrected member |
|---|---|---|---|---|---|---|
| TS/Game.ts:133-136 with TS/Actions/PlaceTokenAction.ts:60-67 | updateBoard goes on with a fresh Board, which has no pick-up position, so the second half of a move is checked as a new placement: any empty position is accepted | a team with more than three alive tokens lifts its token from position 0, then places it on the empty position 23, which is no neighbour of 0 | the lifted token goes to an empty neighbour of its position, or anywhere empty once the team has at most three tokens, as the comment at PlaceTokenAction.ts:62 says | not executed | Games.MoveAnywhereExample | Games.IntendedMoveNeedsAdjacency |
