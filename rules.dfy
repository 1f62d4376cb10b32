/** The rules of the game: players, cells, the fixed list of winning
    combinations and win/draw detection on a board of nine cells. */
module Rules {

  datatype Option<T> = None | Some(value: T)

  datatype Player = X | O

  /** A cell holds nothing (`null` in the game) or one player's marker. */
  datatype Cell = Empty | Mark(player: Player)

  /** The game's `winner` field: `null`, `'X'`, `'O'` or `'DRAW'`. */
  datatype Outcome = Ongoing | Won(player: Player) | Draw

  /** A cell index; row-major, 0..2 is the top row. */
  type Index = i: nat | i < 9

  /** A board always has nine cells. */
  type Board = b: seq<Cell> | |b| == 9
    witness [Empty, Empty, Empty, Empty, Empty, Empty, Empty, Empty, Empty]

  /** A winning combination `[a, b, c]`. */
  datatype Line = Line(a: Index, b: Index, c: Index)

  /** The combinations in the order in which they are scanned. */
  const WinningCombinations: seq<Line> := [
    Line(0, 1, 2), // top row
    Line(3, 4, 5), // middle row
    Line(6, 7, 8), // bottom row
    Line(0, 3, 6), // left column
    Line(1, 4, 7), // middle column
    Line(2, 5, 8), // right column
    Line(0, 4, 8), // diagonal top-left to bottom-right
    Line(2, 4, 6)  // diagonal top-right to bottom-left
  ]

  const EmptyBoard: Board := [Empty, Empty, Empty, Empty, Empty, Empty, Empty, Empty, Empty]

  function Other(p: Player): Player {
    if p == X then O else X
  }

  /** All three cells of `l` hold the same marker. */
  predicate Uniform(b: Board, l: Line) {
    b[l.a] != Empty && b[l.a] == b[l.b] && b[l.a] == b[l.c]
  }

  predicate InLine(i: Index, l: Line) {
    i == l.a || i == l.b || i == l.c
  }

  /** The position, at or after `from`, of the first uniform combination
      in list order, if there is one. */
  function FirstUniform(b: Board, from: nat): (r: Option<nat>)
    requires from <= |WinningCombinations|
    ensures r.Some? ==> from <= r.value < |WinningCombinations|
                        && Uniform(b, WinningCombinations[r.value])
    ensures forall j :: from <= j < (if r.Some? then r.value else |WinningCombinations|)
                        ==> !Uniform(b, WinningCombinations[j])
    decreases |WinningCombinations| - from
  {
    if from == |WinningCombinations| then None
    else if Uniform(b, WinningCombinations[from]) then Some(from)
    else FirstUniform(b, from + 1)
  }

  /** The outcome a board shows: the owner of its first uniform
      combination in list order, else a draw when no cell is empty. */
  function Evaluate(b: Board): (r: Outcome)
    ensures r.Won? <==> exists k :: 0 <= k < |WinningCombinations| && Uniform(b, WinningCombinations[k])
    ensures r.Won? ==> exists k :: 0 <= k < |WinningCombinations| && Uniform(b, WinningCombinations[k])
                                   && (forall j :: 0 <= j < k ==> !Uniform(b, WinningCombinations[j]))
                                   && b[WinningCombinations[k].a] == Mark(r.player)
    ensures r == Draw <==> (forall k :: 0 <= k < |WinningCombinations| ==> !Uniform(b, WinningCombinations[k]))
                           && Empty !in b
    ensures r == Ongoing <==> (forall k :: 0 <= k < |WinningCombinations| ==> !Uniform(b, WinningCombinations[k]))
                              && Empty in b
  {
    match FirstUniform(b, 0)
    case Some(k) => Won(b[WinningCombinations[k].a].player)
    case None => if Empty in b then Ongoing else Draw
  }

  /** The number of cells of `b` equal to `c`. */
  function Count(b: seq<Cell>, c: Cell): (n: nat)
    ensures n <= |b|
    ensures n == 0 <==> c !in b
  {
    if b == [] then 0 else (if b[0] == c then 1 else 0) + Count(b[1..], c)
  }

  /** Every cell is empty or holds one marker: the three counts add up. */
  lemma {:induction false} CountPartition(b: seq<Cell>)
    ensures Count(b, Empty) + Count(b, Mark(X)) + Count(b, Mark(O)) == |b|
  {
    if b != [] {
      CountPartition(b[1..]);
      match b[0]
      case Empty =>
      case Mark(p) => assert p == X || p == O;
    }
  }

  /** Writing `c` into an empty cell raises the count of `c` by one and
      leaves the count of every other marker alone. */
  lemma {:induction false} CountPlace(b: seq<Cell>, i: nat, c: Cell, d: Cell)
    requires i < |b| && b[i] == Empty && c != Empty
    requires d != c && d != Empty
    ensures Count(b[i := c], c) == Count(b, c) + 1
    ensures Count(b[i := c], d) == Count(b, d)
  {
    if i == 0 {
      assert b[i := c][1..] == b[1..];
    } else {
      CountPlace(b[1..], i - 1, c, d);
      assert b[i := c][1..] == b[1..][i - 1 := c];
    }
  }

  /** A combination that becomes uniform when one empty cell is filled
      runs through that cell and belongs to the marker just written. */
  lemma LineThroughMove(b: Board, i: Index, p: Player, l: Line)
    requires b[i] == Empty
    requires !Uniform(b, l) && Uniform(b[i := Mark(p)], l)
    ensures InLine(i, l) && b[i := Mark(p)][l.a] == Mark(p)
  {
  }

  /** The example of a single move completing two combinations at once:
      X holds 1, 2, 3, 6 and O holds 4, 5, 7, 8; X plays 0 and completes
      the top row and the left column; the top row comes first in list
      order and is the one recorded. */
  lemma TwoLinesAtOnce()
    ensures var before: Board := [Empty, Mark(X), Mark(X), Mark(X), Mark(O), Mark(O), Mark(X), Mark(O), Mark(O)];
            var after := before[0 := Mark(X)];
            Evaluate(before) == Ongoing
            && Uniform(after, WinningCombinations[0]) && Uniform(after, WinningCombinations[3])
            && FirstUniform(after, 0) == Some(0) && Evaluate(after) == Won(X)
  {
    var before: Board := [Empty, Mark(X), Mark(X), Mark(X), Mark(O), Mark(O), Mark(X), Mark(O), Mark(O)];
    assert Empty in before;
    assert forall k :: 0 <= k < |WinningCombinations| ==> !Uniform(before, WinningCombinations[k]);
  }
}
