/**
 * The Position class of the board, flattened: a board keeps its positions'
 * occupants and mill counters as two arrays of 24 entries, and the neighbour
 * references are the fixed wiring of module Topology. The queries of a position
 * (isStuck, isNeighbour, getConsecutiveTokenCount, checkMill) are functions of
 * the occupants; the mill-counter walks are methods on the counter array, each
 * proved against a function that says what it computes.
 */
module Positions {
  import opened Wrappers
  import opened Enums
  import opened Topology

  /** The occupant of every position (Position.player); None is an empty position. */
  type Occupancy = s: seq<Option<Player>> | |s| == 24 witness seq(24, _ => None)

  /** The mill counter of every position (Position.millCounter). */
  type Counters = s: seq<int> | |s| == 24 witness seq(24, _ => 0)

  /** Position.isStuck: no existing neighbour is empty; a missing direction is ignored. */
  function IsStuck(occ: Occupancy, i: Node): (stuck: bool)
    ensures stuck <==> forall d :: Neighbour(i, d).Some? ==> occ[Neighbour(i, d).value].Some?
  {
    if Neighbour(i, Up).Some? && occ[Neighbour(i, Up).value].None? then false
    else if Neighbour(i, Down).Some? && occ[Neighbour(i, Down).value].None? then false
    else if Neighbour(i, Left).Some? && occ[Neighbour(i, Left).value].None? then false
    else if Neighbour(i, Right).Some? && occ[Neighbour(i, Right).value].None? then false
    else true
  }

  /** Position.isNeighbour: one of the four neighbour links of `i` leads to index `k`. */
  function IsNeighbour(i: Node, k: int): (r: bool)
    ensures r <==> exists d :: Neighbour(i, d).Some? && Neighbour(i, d).value == k
  {
    if Neighbour(i, Up).Some? && Neighbour(i, Up).value == k then true
    else if Neighbour(i, Down).Some? && Neighbour(i, Down).value == k then true
    else if Neighbour(i, Left).Some? && Neighbour(i, Left).value == k then true
    else if Neighbour(i, Right).Some? && Neighbour(i, Right).value == k then true
    else false
  }

  /**
   * Position.getConsecutiveTokenCount: how many positions in a row, walking from
   * `i` in direction `d`, have the same occupant as `i` (an empty `i` counts
   * empty positions). The walk stops at the first different occupant or at the
   * end of the line.
   */
  function ConsecutiveTokenCount(occ: Occupancy, i: Node, d: Direction): (r: nat)
    ensures r <= Steps(i, d) <= 2
    decreases Steps(i, d)
  {
    match Neighbour(i, d)
    case Some(j) =>
      if occ[j] == occ[i] then
        StepShift(i, d, j);
        ConsecutiveTokenCount(occ, j, d) + 1
      else
        0
    case None => 0
  }

  /** The first `r` positions beyond `i` share its occupant, `r` being the run's count. */
  lemma {:induction false} RunPrefix(occ: Occupancy, i: Node, d: Direction)
    ensures forall s :: 1 <= s <= ConsecutiveTokenCount(occ, i, d) ==> occ[StepNode(i, d, s)] == occ[i]
    decreases Steps(i, d)
  {
    match Neighbour(i, d)
    case None =>
    case Some(j) =>
      StepShift(i, d, j);
      if occ[j] == occ[i] {
        RunPrefix(occ, j, d);
        if ConsecutiveTokenCount(occ, j, d) >= 1 {
          StepNext(i, d, j, 1);
        }
      }
  }

  /** The position after the run, if the line goes on, does not share the occupant of `i`. */
  lemma {:induction false} RunStops(occ: Occupancy, i: Node, d: Direction)
    ensures var r := ConsecutiveTokenCount(occ, i, d);
            r < Steps(i, d) ==> occ[StepNode(i, d, r + 1)] != occ[i]
    decreases Steps(i, d)
  {
    match Neighbour(i, d)
    case None =>
      EndOfLine(i, d);
    case Some(j) =>
      StepShift(i, d, j);
      var r := ConsecutiveTokenCount(occ, i, d);
      if occ[j] == occ[i] {
        RunStops(occ, j, d);
        var rj := ConsecutiveTokenCount(occ, j, d);
        assert r == rj + 1;
        if rj < Steps(j, d) {
          StepNext(i, d, j, rj + 1);
          assert occ[StepNode(j, d, rj + 1)] != occ[j];
        }
      } else {
        assert r == 0;
      }
  }

  /**
   * The run is what it says: the first `r` positions beyond `i` share its
   * occupant, and the next one, if the line goes on, does not.
   */
  lemma RunMatches(occ: Occupancy, i: Node, d: Direction)
    ensures var r := ConsecutiveTokenCount(occ, i, d);
      && (forall s :: 1 <= s <= r ==> occ[StepNode(i, d, s)] == occ[i])
      && (r < Steps(i, d) ==> occ[StepNode(i, d, r + 1)] != occ[i])
  {
    RunPrefix(occ, i, d);
    RunStops(occ, i, d);
  }

  /** Every position of the line through `i` along axis `a` has the occupant of `i`. */
  predicate LineUniform(occ: Occupancy, a: Axis, i: Node)
  {
    forall p: Place :: occ[NodeAt(a, LineOf(a, i), p)] == occ[i]
  }

  /** The two directions along an axis: towards place 0, and towards place 2. */
  function BackwardOf(a: Axis): Direction { if a == Column then Up else Left }
  function ForwardOf(a: Axis): Direction { if a == Column then Down else Right }

  /** The run from `i` in direction `d` reaches the end of the line exactly when every position it passes shares the occupant of `i`. */
  lemma RunToEnd(occ: Occupancy, i: Node, d: Direction)
    ensures ConsecutiveTokenCount(occ, i, d) == Steps(i, d)
            <==> forall s :: 1 <= s <= Steps(i, d) ==> occ[StepNode(i, d, s)] == occ[i]
  {
    RunMatches(occ, i, d);
  }

  /** Both runs along axis `a` reach the ends of the line exactly when the whole line shares the occupant of `i`. */
  lemma {:induction false} RunsMeanLine(occ: Occupancy, i: Node, a: Axis)
    ensures ConsecutiveTokenCount(occ, i, BackwardOf(a)) + ConsecutiveTokenCount(occ, i, ForwardOf(a)) == 2
            <==> LineUniform(occ, a, i)
  {
    var back, fwd := BackwardOf(a), ForwardOf(a);
    var l, p := LineOf(a, i), PlaceOf(a, i);
    OnLines(i);
    RunToEnd(occ, i, back);
    RunToEnd(occ, i, fwd);
    if LineUniform(occ, a, i) {
      forall s | 1 <= s <= Steps(i, back) ensures occ[StepNode(i, back, s)] == occ[i] {
        assert StepNode(i, back, s) == NodeAt(a, l, p - s);
      }
      forall s | 1 <= s <= Steps(i, fwd) ensures occ[StepNode(i, fwd, s)] == occ[i] {
        assert StepNode(i, fwd, s) == NodeAt(a, l, p + s);
      }
    } else if ConsecutiveTokenCount(occ, i, back) + ConsecutiveTokenCount(occ, i, fwd) == 2 {
      forall q: Place ensures occ[NodeAt(a, l, q)] == occ[i] {
        if q < p {
          assert NodeAt(a, l, q) == StepNode(i, back, p - q);
        } else if q > p {
          assert NodeAt(a, l, q) == StepNode(i, fwd, q - p);
        }
      }
    }
  }

  /**
   * Position.checkMill: the orientation of the mill(s) through `i`, comparing
   * against the occupant of `i` itself (which may be empty). A vertical mill is
   * reported exactly when the whole column of `i` shares its occupant, a horizontal
   * one exactly when the whole row does.
   */
  function CheckMill(occ: Occupancy, i: Node): (o: Option<Orientation>)
  {
    var verticalMillFormed :=
      ConsecutiveTokenCount(occ, i, Up) + ConsecutiveTokenCount(occ, i, Down) == 2;
    var horizontalMillFormed :=
      ConsecutiveTokenCount(occ, i, Left) + ConsecutiveTokenCount(occ, i, Right) == 2;
    if verticalMillFormed && horizontalMillFormed then Some(Both)
    else if verticalMillFormed then Some(Vertical)
    else if horizontalMillFormed then Some(Horizontal)
    else None
  }

  /**
   * What checkMill reports, comparing against the occupant of `i` itself (which
   * may be empty): a vertical mill exactly when the whole column of `i` shares its
   * occupant, a horizontal one exactly when the whole row does, Both when both do.
   */
  lemma CheckMillMeansLines(occ: Occupancy, i: Node)
    ensures var vertical, horizontal := LineUniform(occ, Column, i), LineUniform(occ, Row, i);
            CheckMill(occ, i) == if vertical && horizontal then Some(Both)
                                 else if vertical then Some(Vertical)
                                 else if horizontal then Some(Horizontal)
                                 else None
  {
    RunsMeanLine(occ, i, Column);
    RunsMeanLine(occ, i, Row);
  }

  /** A mill orientation that includes a horizontal mill. */
  predicate HasHorizontal(o: Option<Orientation>)
  {
    o == Some(Horizontal) || o == Some(Both)
  }

  /** Positions 0, 1 and 2 held by Cat: position 1 is reported in a horizontal mill. */
  lemma HorizontalMillExample(occ: Occupancy)
    requires occ[0] == Some(Cat) && occ[1] == Some(Cat) && occ[2] == Some(Cat)
    ensures HasHorizontal(CheckMill(occ, 1))
  {
    CheckMillMeansLines(occ, 1);
    assert forall p: Place :: NodeAt(Row, LineOf(Row, 1), p) == p;
  }

  /** If position 0 or 2 holds Dog while 1 holds Cat, no horizontal mill is reported at 1. */
  lemma MismatchedLineExample(occ: Occupancy)
    requires occ[1] == Some(Cat) && (occ[0] == Some(Dog) || occ[2] == Some(Dog))
    ensures !HasHorizontal(CheckMill(occ, 1))
  {
    CheckMillMeansLines(occ, 1);
    assert NodeAt(Row, LineOf(Row, 1), 0) == 0 && NodeAt(Row, LineOf(Row, 1), 2) == 2;
  }

  /** The comparison includes "empty": three empty positions in a row are reported as a mill. */
  lemma EmptyLineExample(occ: Occupancy)
    requires occ[0] == None && occ[1] == None && occ[2] == None
    ensures HasHorizontal(CheckMill(occ, 1))
  {
    CheckMillMeansLines(occ, 1);
    assert forall p: Place :: NodeAt(Row, LineOf(Row, 1), p) == p;
  }

  // ---------------------------------------------------------------------------
  // Mill counters.

  /** The change one update makes to a counter. */
  function Delta(added: bool): int
  {
    if added then 1 else -1
  }

  /** Position.updateMillCounter, applied to position `k`. */
  function Bumped(c: Counters, k: Node, added: bool): (r: Counters)
  {
    c[k := c[k] + Delta(added)]
  }

  /**
   * Position.updateMillCounterDirection: every position beyond `i` in direction
   * `d`, up to the end of the line, gets the same change; nothing else changes.
   */
  function DirectionUpdated(c: Counters, i: Node, d: Direction, added: bool): (r: Counters)
    decreases Steps(i, d)
  {
    match Neighbour(i, d)
    case None => c
    case Some(j) =>
      StepShift(i, d, j);
      DirectionUpdated(Bumped(c, j, added), j, d, added)
  }

  /** The walk changes exactly the positions ahead of `i` in direction `d`, each by one. */
  lemma {:induction false} DirectionUpdateEffect(c: Counters, i: Node, d: Direction, added: bool)
    ensures forall k: Node ::
      DirectionUpdated(c, i, d, added)[k] == c[k] + (if Ahead(i, d, k) then Delta(added) else 0)
    decreases Steps(i, d)
  {
    match Neighbour(i, d)
    case None =>
      NothingAhead(i, d);
    case Some(j) =>
      StepShift(i, d, j);
      AheadShift(i, d, j);
      DirectionUpdateEffect(Bumped(c, j, added), j, d, added);
  }

  /** The two walks along one axis, towards place 0 first (Up before Down, Left before Right). */
  function AxisUpdated(c: Counters, i: Node, a: Axis, added: bool): Counters
  {
    DirectionUpdated(DirectionUpdated(c, i, BackwardOf(a), added), i, ForwardOf(a), added)
  }

  /** Position.updateMillCounterOrientation: the position itself, then the walks the orientation names. */
  function OrientationUpdated(c: Counters, i: Node, o: Option<Orientation>, added: bool): Counters
  {
    var own := Bumped(c, i, added);
    match o
    case None => own
    case Some(Vertical) => AxisUpdated(own, i, Column, added)
    case Some(Horizontal) => AxisUpdated(own, i, Row, added)
    case Some(Both) => AxisUpdated(AxisUpdated(own, i, Column, added), i, Row, added)
  }

  /** The orientation asks for the walks along axis `a`. */
  predicate Covers(o: Option<Orientation>, a: Axis)
  {
    o == Some(Both) || (a == Column && o == Some(Vertical)) || (a == Row && o == Some(Horizontal))
  }

  /** `k` lies on a line through `i` that the orientation walks. */
  predicate OnWalkedLine(i: Node, o: Option<Orientation>, k: Node)
  {
    (Covers(o, Column) && LineOf(Column, k) == LineOf(Column, i))
    || (Covers(o, Row) && LineOf(Row, k) == LineOf(Row, i))
  }

  /** Along one axis, the two walks reach every other position of the line through `i`, each once. */
  lemma {:induction false} AxisUpdateEffect(c: Counters, i: Node, a: Axis, added: bool)
    ensures AxisUpdated(c, i, a, added)[i] == c[i]
    ensures forall k: Node :: k != i ==>
      AxisUpdated(c, i, a, added)[k] == c[k] + (if LineOf(a, k) == LineOf(a, i) then Delta(added) else 0)
  {
    DirectionUpdateEffect(c, i, BackwardOf(a), added);
    DirectionUpdateEffect(DirectionUpdated(c, i, BackwardOf(a), added), i, ForwardOf(a), added);
    forall k: Node | k != i && LineOf(a, k) == LineOf(a, i) && PlaceOf(a, k) == PlaceOf(a, i)
      ensures false
    {
      SameSpot(a, k, i);
    }
  }

  /**
   * The effect of updateMillCounterOrientation: the position's own counter moves by
   * exactly one whatever the orientation (also for no mill and for Both); every
   * other position on a walked line moves by the same one; all others are unchanged.
   */
  lemma {:induction false} OrientationUpdateEffect(c: Counters, i: Node, o: Option<Orientation>, added: bool)
    ensures OrientationUpdated(c, i, o, added)[i] == c[i] + Delta(added)
    ensures forall k: Node :: k != i ==>
      OrientationUpdated(c, i, o, added)[k] == c[k] + (if OnWalkedLine(i, o, k) then Delta(added) else 0)
  {
    var own := Bumped(c, i, added);
    var r := OrientationUpdated(c, i, o, added);
    match o {
      case None =>
      case Some(Vertical) =>
        AxisUpdateEffect(own, i, Column, added);
      case Some(Horizontal) =>
        AxisUpdateEffect(own, i, Row, added);
      case Some(Both) =>
        var vertical := AxisUpdated(own, i, Column, added);
        AxisUpdateEffect(own, i, Column, added);
        AxisUpdateEffect(vertical, i, Row, added);
        forall k: Node | k != i
          ensures r[k] == c[k] + (if OnWalkedLine(i, o, k) then Delta(added) else 0)
        {
          if LineOf(Row, k) == LineOf(Row, i) && LineOf(Column, k) == LineOf(Column, i) {
            LinesMeetOnce(i, k);
          }
        }
    }
  }

  // ---------------------------------------------------------------------------
  // The state-changing operations of a position, on the board's arrays.

  /** Position.placeToken: position `i` now holds `p`; nothing else changes. */
  method PlaceToken(occupants: array<Option<Player>>, i: Node, p: Player)
    requires occupants.Length == 24
    modifies occupants
    ensures occupants[..] == old(occupants[..])[i := Some(p)]
  {
    occupants[i] := Some(p);
  }

  /** Position.removeToken: position `i` is now empty; nothing else changes. */
  method RemoveToken(occupants: array<Option<Player>>, i: Node)
    requires occupants.Length == 24
    modifies occupants
    ensures occupants[..] == old(occupants[..])[i := None]
  {
    occupants[i] := None;
  }

  /** Position.updateMillCounter on position `k`. */
  method UpdateMillCounter(counters: array<int>, k: Node, added: bool)
    requires counters.Length == 24
    modifies counters
    ensures counters[..] == Bumped(old(counters[..]), k, added)
  {
    if added {
      counters[k] := counters[k] + 1;
    } else {
      counters[k] := counters[k] - 1;
    }
  }

  /** Position.updateMillCounterDirection: the recursive walk to the end of the line. */
  method UpdateMillCounterDirection(counters: array<int>, i: Node, d: Direction, added: bool)
    requires counters.Length == 24
    modifies counters
    ensures counters[..] == DirectionUpdated(old(counters[..]), i, d, added)
    decreases Steps(i, d)
  {
    var neighbour := Neighbour(i, d);
    if neighbour.Some? {
      StepShift(i, d, neighbour.value);
      UpdateMillCounter(counters, neighbour.value, added);
      UpdateMillCounterDirection(counters, neighbour.value, d, added);
    }
  }

  /** Position.updateMillCounterOrientation. */
  method UpdateMillCounterOrientation(counters: array<int>, i: Node, o: Option<Orientation>, added: bool)
    requires counters.Length == 24
    modifies counters
    ensures counters[..] == OrientationUpdated(old(counters[..]), i, o, added)
  {
    UpdateMillCounter(counters, i, added);
    match o {
      case Some(Vertical) =>
        UpdateMillCounterDirection(counters, i, Up, added);
        UpdateMillCounterDirection(counters, i, Down, added);
      case Some(Horizontal) =>
        UpdateMillCounterDirection(counters, i, Left, added);
        UpdateMillCounterDirection(counters, i, Right, added);
      case Some(Both) =>
        UpdateMillCounterDirection(counters, i, Up, added);
        UpdateMillCounterDirection(counters, i, Down, added);
        UpdateMillCounterDirection(counters, i, Left, added);
        UpdateMillCounterDirection(counters, i, Right, added);
      case None =>
    }
  }
}
