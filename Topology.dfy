/**
 * The fixed 24-position board graph: the up/down/left/right links that
 * Board.joinPositions wires between positions, and the straight lines of
 * three positions they form.
 */
module Topology {
  import opened Wrappers
  import opened Enums

  /** The index of a position on the board. */
  type Node = i: nat | i < 24

  /** The four neighbour links of one position; a missing neighbour is None. */
  datatype Links = Links(up: Option<Node>, down: Option<Node>, left: Option<Node>, right: Option<Node>)

  /** The links set by joinPositions, position by position. */
  function Wiring(i: Node): Links
  {
    match i
    case 0 => Links(None,     Some(9),  None,     Some(1))
    case 1 => Links(None,     Some(4),  Some(0),  Some(2))
    case 2 => Links(None,     Some(14), Some(1),  None)
    case 3 => Links(None,     Some(10), None,     Some(4))
    case 4 => Links(Some(1),  Some(7),  Some(3),  Some(5))
    case 5 => Links(None,     Some(13), Some(4),  None)
    case 6 => Links(None,     Some(11), None,     Some(7))
    case 7 => Links(Some(4),  None,     Some(6),  Some(8))
    case 8 => Links(None,     Some(12), Some(7),  None)
    case 9 => Links(Some(0),  Some(21), None,     Some(10))
    case 10 => Links(Some(3),  Some(18), Some(9),  Some(11))
    case 11 => Links(Some(6),  Some(15), Some(10), None)
    case 12 => Links(Some(8),  Some(17), None,     Some(13))
    case 13 => Links(Some(5),  Some(20), Some(12), Some(14))
    case 14 => Links(Some(2),  Some(23), Some(13), None)
    case 15 => Links(Some(11), None,     None,     Some(16))
    case 16 => Links(None,     Some(19), Some(15), Some(17))
    case 17 => Links(Some(12), None,     Some(16), None)
    case 18 => Links(Some(10), None,     None,     Some(19))
    case 19 => Links(Some(16), Some(22), Some(18), Some(20))
    case 20 => Links(Some(13), None,     Some(19), None)
    case 21 => Links(Some(9),  None,     None,     Some(22))
    case 22 => Links(Some(19), None,     Some(21), Some(23))
    case _ => Links(Some(14), None,     Some(22), None) // 23
  }

  /** Position.getNeighbour on the wired board: the neighbour of `i` in direction `d`. */
  function Neighbour(i: Node, d: Direction): Option<Node>
  {
    match d
    case Up => Wiring(i).up
    case Down => Wiring(i).down
    case Left => Wiring(i).left
    case Right => Wiring(i).right
  }

  function Opposite(d: Direction): Direction
  {
    match d
    case Up => Down
    case Down => Up
    case Left => Right
    case Right => Left
  }

  /** The number of neighbour links a position has. */
  function Degree(i: Node): nat
  {
    (if Neighbour(i, Up).Some? then 1 else 0) + (if Neighbour(i, Down).Some? then 1 else 0)
    + (if Neighbour(i, Left).Some? then 1 else 0) + (if Neighbour(i, Right).Some? then 1 else 0)
  }

  // ---------------------------------------------------------------------------
  // Line geometry: an independent description of the same graph. The board has
  // eight rows and eight columns of three positions each; every position lies on
  // exactly one row and one column, at place 0, 1 or 2 (left to right, top to bottom).

  datatype Axis = Row | Column

  type Line = l: nat | l < 8
  type Place = p: nat | p < 3

  /** The columns, top to bottom: the position at place `p` of column `l`. */
  function ColumnNode(l: Line, p: Place): Node
  {
    match l
    case 0 => if p == 0 then 0 else if p == 1 then 9 else 21
    case 1 => if p == 0 then 3 else if p == 1 then 10 else 18
    case 2 => if p == 0 then 6 else if p == 1 then 11 else 15
    case 3 => if p == 0 then 1 else if p == 1 then 4 else 7
    case 4 => if p == 0 then 16 else if p == 1 then 19 else 22
    case 5 => if p == 0 then 8 else if p == 1 then 12 else 17
    case 6 => if p == 0 then 5 else if p == 1 then 13 else 20
    case _ => if p == 0 then 2 else if p == 1 then 14 else 23  // 7
  }

  /** The column of each position. */
  function ColumnOf(i: Node): Line
  {
    match i
    case 0 => 0
    case 1 => 3
    case 2 => 7
    case 3 => 1
    case 4 => 3
    case 5 => 6
    case 6 => 2
    case 7 => 3
    case 8 => 5
    case 9 => 0
    case 10 => 1
    case 11 => 2
    case 12 => 5
    case 13 => 6
    case 14 => 7
    case 15 => 2
    case 16 => 4
    case 17 => 5
    case 18 => 1
    case 19 => 4
    case 20 => 6
    case 21 => 0
    case 22 => 4
    case _ => 7  // 23
  }

  /** The place of each position in its column. */
  function ColumnPlaceOf(i: Node): Place
  {
    match i
    case 0 => 0
    case 1 => 0
    case 2 => 0
    case 3 => 0
    case 4 => 1
    case 5 => 0
    case 6 => 0
    case 7 => 2
    case 8 => 0
    case 9 => 1
    case 10 => 1
    case 11 => 1
    case 12 => 1
    case 13 => 1
    case 14 => 1
    case 15 => 2
    case 16 => 0
    case 17 => 2
    case 18 => 2
    case 19 => 1
    case 20 => 2
    case 21 => 2
    case 22 => 2
    case _ => 2  // 23
  }

  /** The position at place `p` of line `l` along axis `a`; row `l` is positions 3l, 3l+1, 3l+2. */
  function NodeAt(a: Axis, l: Line, p: Place): Node
  {
    match a
    case Row => 3 * l + p
    case Column => ColumnNode(l, p)
  }

  function LineOf(a: Axis, i: Node): Line
  {
    match a
    case Row => i / 3
    case Column => ColumnOf(i)
  }

  function PlaceOf(a: Axis, i: Node): Place
  {
    match a
    case Row => i % 3
    case Column => ColumnPlaceOf(i)
  }

  function AxisOf(d: Direction): Axis
  {
    if d == Up || d == Down then Column else Row
  }

  /** Up and Left move towards place 0 of a line; Down and Right towards place 2. */
  predicate Backward(d: Direction)
  {
    d == Up || d == Left
  }

  /** How many positions lie beyond `i` in direction `d` on its line. */
  function Steps(i: Node, d: Direction): (n: nat)
    ensures n <= 2
  {
    if Backward(d) then PlaceOf(AxisOf(d), i) else 2 - PlaceOf(AxisOf(d), i)
  }

  /** The position `s` steps from `i` in direction `d`. */
  function StepNode(i: Node, d: Direction, s: nat): Node
    requires s <= Steps(i, d)
  {
    var a := AxisOf(d);
    NodeAt(a, LineOf(a, i), if Backward(d) then PlaceOf(a, i) - s else PlaceOf(a, i) + s)
  }

  /** `k` lies strictly beyond `i` in direction `d`, on the same line. */
  predicate Ahead(i: Node, d: Direction, k: Node)
  {
    var a := AxisOf(d);
    LineOf(a, k) == LineOf(a, i)
    && (if Backward(d) then PlaceOf(a, k) < PlaceOf(a, i) else PlaceOf(a, k) > PlaceOf(a, i))
  }

  /** The wiring at one position agrees with the line geometry. */
  predicate GeometryAt(i: Node)
  {
    && NodeAt(Row, LineOf(Row, i), PlaceOf(Row, i)) == i
    && NodeAt(Column, LineOf(Column, i), PlaceOf(Column, i)) == i
    && Neighbour(i, Up) == (if Steps(i, Up) == 0 then None else Some(StepNode(i, Up, 1)))
    && Neighbour(i, Down) == (if Steps(i, Down) == 0 then None else Some(StepNode(i, Down, 1)))
    && Neighbour(i, Left) == (if Steps(i, Left) == 0 then None else Some(StepNode(i, Left, 1)))
    && Neighbour(i, Right) == (if Steps(i, Right) == 0 then None else Some(StepNode(i, Right, 1)))
  }

  /** Checked position by position against the table, in eight groups of three. */
  lemma NodeGeometry(i: Node)
    ensures GeometryAt(i)
  {
    if i < 3 { GeometryGroup0(i); }
    else if i < 6 { GeometryGroup1(i); }
    else if i < 9 { GeometryGroup2(i); }
    else if i < 12 { GeometryGroup3(i); }
    else if i < 15 { GeometryGroup4(i); }
    else if i < 18 { GeometryGroup5(i); }
    else if i < 21 { GeometryGroup6(i); }
    else { GeometryGroup7(i); }
  }

  /** A position is found again from its line and place, on both axes. */
  lemma OnLines(i: Node)
    ensures NodeAt(Row, LineOf(Row, i), PlaceOf(Row, i)) == i
    ensures NodeAt(Column, LineOf(Column, i), PlaceOf(Column, i)) == i
  {
    NodeGeometry(i);
  }

  /** The neighbour in direction `d` is the next position on the line, if there is one. */
  lemma Wired(i: Node, d: Direction)
    ensures Neighbour(i, d) == if Steps(i, d) == 0 then None else Some(StepNode(i, d, 1))
  {
    NodeGeometry(i);
  }

  lemma GeometryGroup0(i: Node)
    requires 0 <= i < 3
    ensures GeometryAt(i)
  {
    if i == 0 {} else if i == 1 {} else {}
  }

  lemma GeometryGroup1(i: Node)
    requires 3 <= i < 6
    ensures GeometryAt(i)
  {
    if i == 3 {} else if i == 4 {} else {}
  }

  lemma GeometryGroup2(i: Node)
    requires 6 <= i < 9
    ensures GeometryAt(i)
  {
    if i == 6 {} else if i == 7 {} else {}
  }

  lemma GeometryGroup3(i: Node)
    requires 9 <= i < 12
    ensures GeometryAt(i)
  {
    if i == 9 {} else if i == 10 {} else {}
  }

  lemma GeometryGroup4(i: Node)
    requires 12 <= i < 15
    ensures GeometryAt(i)
  {
    if i == 12 {} else if i == 13 {} else {}
  }

  lemma GeometryGroup5(i: Node)
    requires 15 <= i < 18
    ensures GeometryAt(i)
  {
    if i == 15 {} else if i == 16 {} else {}
  }

  lemma GeometryGroup6(i: Node)
    requires 18 <= i < 21
    ensures GeometryAt(i)
  {
    if i == 18 {} else if i == 19 {} else {}
  }

  lemma GeometryGroup7(i: Node)
    requires 21 <= i < 24
    ensures GeometryAt(i)
  {
    if i == 21 {} else if i == 22 {} else {}
  }

  predicate ColumnAgrees(l: Line, p: Place)
  {
    LineOf(Column, NodeAt(Column, l, p)) == l && PlaceOf(Column, NodeAt(Column, l, p)) == p
  }

  /** Checked column by column against the tables. */
  lemma ColumnTable(l: Line)
    ensures ColumnAgrees(l, 0) && ColumnAgrees(l, 1) && ColumnAgrees(l, 2)
  {
    if l == 0 {} else if l == 1 {} else if l == 2 {} else if l == 3 {}
    else if l == 4 {} else if l == 5 {} else if l == 6 {} else {}
  }

  /** Line and place determine the position, and the position determines its line and place. */
  lemma LineGeometry(a: Axis, l: Line, p: Place)
    ensures LineOf(a, NodeAt(a, l, p)) == l && PlaceOf(a, NodeAt(a, l, p)) == p
  {
    if a == Column {
      ColumnTable(l);
      if p == 0 {} else if p == 1 {} else {}
    }
  }

  /** Two positions on the same line at the same place are the same position. */
  lemma SameSpot(a: Axis, i: Node, k: Node)
    requires LineOf(a, i) == LineOf(a, k) && PlaceOf(a, i) == PlaceOf(a, k)
    ensures i == k
  {
    OnLines(i);
    OnLines(k);
  }

  /** The three positions of a row lie on three different columns. */
  lemma RowCrossesColumns(l: Line, p: Place, q: Place)
    requires LineOf(Column, NodeAt(Row, l, p)) == LineOf(Column, NodeAt(Row, l, q))
    ensures p == q
  {
    if l == 0 {} else if l == 1 {} else if l == 2 {} else if l == 3 {}
    else if l == 4 {} else if l == 5 {} else if l == 6 {} else {}
  }

  /** A row and a column meet in at most one position. */
  lemma {:induction false} LinesMeetOnce(i: Node, k: Node)
    requires LineOf(Row, i) == LineOf(Row, k) && LineOf(Column, i) == LineOf(Column, k)
    ensures i == k
  {
    var r := LineOf(Row, i);
    assert i == NodeAt(Row, r, PlaceOf(Row, i));
    assert k == NodeAt(Row, r, PlaceOf(Row, k));
    RowCrossesColumns(r, PlaceOf(Row, i), PlaceOf(Row, k));
  }

  /** Stepping to the neighbour in direction `d` moves one place along the same line. */
  lemma {:induction false} StepShift(i: Node, d: Direction, j: Node)
    requires Neighbour(i, d) == Some(j)
    ensures Steps(i, d) >= 1 && Steps(j, d) == Steps(i, d) - 1
    ensures j == StepNode(i, d, 1)
    ensures LineOf(AxisOf(d), j) == LineOf(AxisOf(d), i)
    ensures PlaceOf(AxisOf(d), j) == if Backward(d) then PlaceOf(AxisOf(d), i) - 1 else PlaceOf(AxisOf(d), i) + 1
  {
    Wired(i, d);
    var a := AxisOf(d);
    var p := if Backward(d) then PlaceOf(a, i) - 1 else PlaceOf(a, i) + 1;
    LineGeometry(a, LineOf(a, i), p);
  }

  /** `s` steps on from the neighbour are `s + 1` steps on from `i`. */
  lemma StepNext(i: Node, d: Direction, j: Node, s: nat)
    requires Neighbour(i, d) == Some(j)
    requires s <= Steps(j, d)
    ensures Steps(j, d) == Steps(i, d) - 1 && StepNode(j, d, s) == StepNode(i, d, s + 1)
  {
    StepShift(i, d, j);
  }

  /** What lies ahead of `i` is its neighbour and what lies ahead of the neighbour. */
  lemma AheadShift(i: Node, d: Direction, j: Node)
    requires Neighbour(i, d) == Some(j)
    ensures forall k :: Ahead(i, d, k) <==> k == j || Ahead(j, d, k)
  {
    StepShift(i, d, j);
    var a := AxisOf(d);
    forall k ensures Ahead(i, d, k) <==> k == j || Ahead(j, d, k) {
      if LineOf(a, k) == LineOf(a, j) && PlaceOf(a, k) == PlaceOf(a, j) {
        SameSpot(a, k, j);
      }
    }
  }

  /** At the end of a line, the walk has no steps left. */
  lemma EndOfLine(i: Node, d: Direction)
    requires Neighbour(i, d).None?
    ensures Steps(i, d) == 0
  {
    Wired(i, d);
  }

  /** At the end of a line, nothing lies further ahead. */
  lemma NothingAhead(i: Node, d: Direction)
    requires Neighbour(i, d).None?
    ensures forall k :: !Ahead(i, d, k)
  {
    EndOfLine(i, d);
  }

  // ---------------------------------------------------------------------------
  // Properties of the wiring.

  /** The links are symmetric: if `j` is the neighbour of `i` in direction `d`, then `i`
      is the neighbour of `j` in the opposite direction. */
  lemma {:induction false} NeighbourSymmetric(i: Node, d: Direction)
    ensures Neighbour(i, d).Some? ==> Neighbour(Neighbour(i, d).value, Opposite(d)) == Some(i)
  {
    if Neighbour(i, d).Some? {
      var j := Neighbour(i, d).value;
      StepShift(i, d, j);
      Wired(j, Opposite(d));
      OnLines(i);
    }
  }

  /** Every position has between two and four neighbours. */
  lemma {:induction false} DegreeBounds(i: Node)
    ensures 2 <= Degree(i) <= 4
  {
    Wired(i, Up);
    Wired(i, Down);
    Wired(i, Left);
    Wired(i, Right);
  }

  /** Following direction `d` from `i` leaves the board within `n` more steps. */
  predicate EndsWithin(i: Node, d: Direction, n: nat)
    decreases n
  {
    match Neighbour(i, d)
    case None => true
    case Some(j) => n > 0 && EndsWithin(j, d, n - 1)
  }

  /** Every straight walk ends within two steps. */
  lemma {:induction false} WalkEndsWithinTwo(i: Node, d: Direction)
    ensures EndsWithin(i, d, 2)
  {
    WalkEndsWithinSteps(i, d);
    EndsWithinMonotone(i, d, Steps(i, d), 2);
  }

  lemma {:induction false} WalkEndsWithinSteps(i: Node, d: Direction)
    ensures EndsWithin(i, d, Steps(i, d))
    decreases Steps(i, d)
  {
    match Neighbour(i, d)
    case None =>
    case Some(j) =>
      StepShift(i, d, j);
      WalkEndsWithinSteps(j, d);
      EndsWithinMonotone(j, d, Steps(j, d), Steps(i, d) - 1);
  }

  lemma {:induction false} EndsWithinMonotone(i: Node, d: Direction, m: nat, n: nat)
    requires EndsWithin(i, d, m) && m <= n
    ensures EndsWithin(i, d, n)
    decreases m
  {
    match Neighbour(i, d)
    case None =>
    case Some(j) => EndsWithinMonotone(j, d, m - 1, n - 1);
  }
}
