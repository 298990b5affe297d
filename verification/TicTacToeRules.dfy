/** The board of a tic-tac-toe game in which each player has at most three tokens to move about. */
module TicTacToeRules {

  type Grid = seq<char>

  const EMPTY_GRID: Grid := "         "

  function Count(grid: Grid, token: char): nat {
    if grid == [] then 0 else Count(grid[1..], token) + if grid[0] == token then 1 else 0
  }

  lemma {:induction false} CountAfter(grid: Grid, i: nat, c: char, token: char)
    requires i < |grid|
    ensures Count(grid[i := c], token)
         == Count(grid, token) - (if grid[i] == token then 1 else 0) + (if c == token then 1 else 0)
  {
    if i == 0 {
      assert grid[i := c][1..] == grid[1..];
    } else {
      assert grid[i := c][1..] == grid[1..][i - 1 := c];
      CountAfter(grid[1..], i - 1, c, token);
    }
  }

  /** `[](x, y)` with coordinates from 1 to 3. */
  function At(grid: Grid, x: int, y: int): char
    requires |grid| == 9 && 1 <= x <= 3 && 1 <= y <= 3
  {
    grid[(y - 1) * 3 + (x - 1)]
  }

  predicate Column(grid: Grid, x: int, token: char)
    requires |grid| == 9 && 1 <= x <= 3
  {
    At(grid, x, 1) == token && At(grid, x, 2) == token && At(grid, x, 3) == token
  }

  predicate RowOf(grid: Grid, y: int, token: char)
    requires |grid| == 9 && 1 <= y <= 3
  {
    At(grid, 1, y) == token && At(grid, 2, y) == token && At(grid, 3, y) == token
  }

  /** The token fills a column, a row or a diagonal. */
  predicate Line(grid: Grid, token: char)
    requires |grid| == 9
  {
    || Column(grid, 1, token) || Column(grid, 2, token) || Column(grid, 3, token)
    || RowOf(grid, 1, token) || RowOf(grid, 2, token) || RowOf(grid, 3, token)
    || (At(grid, 1, 1) == token && At(grid, 2, 2) == token && At(grid, 3, 3) == token)
    || (At(grid, 3, 1) == token && At(grid, 2, 2) == token && At(grid, 1, 3) == token)
  }

  /** Three different fields on a straight line, all of them holding the token. */
  ghost predicate Straight(grid: Grid, token: char, x1: int, y1: int, x2: int, y2: int, x3: int, y3: int) {
    && |grid| == 9
    && 1 <= x1 <= 3 && 1 <= y1 <= 3 && 1 <= x2 <= 3 && 1 <= y2 <= 3 && 1 <= x3 <= 3 && 1 <= y3 <= 3
    && (x1, y1) != (x2, y2) && (x1, y1) != (x3, y3) && (x2, y2) != (x3, y3)
    && (x2 - x1) * (y3 - y1) == (x3 - x1) * (y2 - y1)
    && grid[(y1 - 1) * 3 + (x1 - 1)] == token
    && grid[(y2 - 1) * 3 + (x2 - 1)] == token
    && grid[(y3 - 1) * 3 + (x3 - 1)] == token
  }

  ghost predicate HasStraight(grid: Grid, token: char) {
    exists x1, y1, x2, y2, x3, y3 :: Straight(grid, token, x1, y1, x2, y2, x3, y3)
  }

  lemma SmallTimes(a: int, b: int)
    requires -2 <= a <= 2
    ensures a * b == if a == -2 then -b - b else if a == -1 then -b else if a == 0 then 0 else if a == 1 then b else b + b
  {
  }

  lemma StraightIsLine(grid: Grid, token: char, x1: int, y1: int, x2: int, y2: int, x3: int, y3: int)
    requires Straight(grid, token, x1, y1, x2, y2, x3, y3)
    ensures Line(grid, token)
  {
    SmallTimes(x2 - x1, y3 - y1);
    SmallTimes(x3 - x1, y2 - y1);
  }

  /** A token has a line exactly if it holds three different fields that lie on a straight line. */
  lemma LineIsStraight(grid: Grid, token: char)
    requires |grid| == 9
    ensures Line(grid, token) <==> HasStraight(grid, token)
  {
    if HasStraight(grid, token) {
      var x1, y1, x2, y2, x3, y3 :| Straight(grid, token, x1, y1, x2, y2, x3, y3);
      StraightIsLine(grid, token, x1, y1, x2, y2, x3, y3);
    }
    if x :| 1 <= x <= 3 && Column(grid, x, token) {
      assert Straight(grid, token, x, 1, x, 2, x, 3);
    } else if y :| 1 <= y <= 3 && RowOf(grid, y, token) {
      assert Straight(grid, token, 1, y, 2, y, 3, y);
    } else if At(grid, 1, 1) == token && At(grid, 2, 2) == token && At(grid, 3, 3) == token {
      assert Straight(grid, token, 1, 1, 2, 2, 3, 3);
    } else if Line(grid, token) {
      assert Straight(grid, token, 3, 1, 2, 2, 1, 3);
    }
  }

  function Token(first: bool): char {
    if first then 'O' else 'X'
  }

  /** The token counts a live game can show when it is O's turn, or X's. */
  predicate Balanced(o: nat, x: nat, firstsTurn: bool) {
    if firstsTurn then (o == x && o <= 3) || (o == 2 && x == 3)
    else (o == x + 1 && x <= 2) || (o == 3 && x == 3)
  }

  /** A board a live game can show. */
  predicate Position(grid: Grid, firstsTurn: bool) {
    && |grid| == 9
    && (forall i | 0 <= i < 9 :: grid[i] == ' ' || grid[i] == 'O' || grid[i] == 'X')
    && Balanced(Count(grid, 'O'), Count(grid, 'X'), firstsTurn)
    && !Line(grid, 'O') && !Line(grid, 'X')
  }

  lemma EmptyPosition()
    ensures Position(EMPTY_GRID, true)
  {
    NoneThere(EMPTY_GRID, 'O');
    NoneThere(EMPTY_GRID, 'X');
  }

  lemma {:induction false} NoneThere(grid: Grid, token: char)
    requires forall i :: 0 <= i < |grid| ==> grid[i] != token
    ensures Count(grid, token) == 0
  {
    if grid != [] { NoneThere(grid[1..], token); }
  }

  lemma {:induction false} SomeThere(grid: Grid, token: char) returns (i: nat)
    requires Count(grid, token) > 0
    ensures i < |grid| && grid[i] == token
  {
    if grid[0] == token {
      i := 0;
    } else {
      var k := SomeThere(grid[1..], token);
      i := k + 1;
    }
  }

  /** Every field is counted once. */
  lemma {:induction false} CountAll(grid: Grid)
    requires forall i :: 0 <= i < |grid| ==> grid[i] == ' ' || grid[i] == 'O' || grid[i] == 'X'
    ensures Count(grid, ' ') + Count(grid, 'O') + Count(grid, 'X') == |grid|
  {
    if grid != [] { CountAll(grid[1..]); }
  }

  /** Removing a token makes no line. */
  lemma NoNewLine(grid: Grid, i: nat, c: char, token: char)
    requires |grid| == 9 && i < 9 && c != token && !Line(grid, token)
    ensures !Line(grid[i := c], token)
  {
  }

  /** A placed token that wins nothing hands over a legal position. */
  lemma PlaceKeeps(grid: Grid, i: nat, firstsTurn: bool)
    requires Position(grid, firstsTurn) && i < 9 && grid[i] == ' ' && Count(grid, Token(firstsTurn)) != 3
    requires !Line(grid[i := Token(firstsTurn)], Token(firstsTurn))
    ensures Position(grid[i := Token(firstsTurn)], !firstsTurn)
  {
    CountAfter(grid, i, Token(firstsTurn), 'O');
    CountAfter(grid, i, Token(firstsTurn), 'X');
    NoNewLine(grid, i, Token(firstsTurn), Token(!firstsTurn));
  }

  /** Removing one of three tokens leaves a legal position with the same player to move. */
  lemma RemoveKeeps(grid: Grid, i: nat, firstsTurn: bool)
    requires Position(grid, firstsTurn) && i < 9 && grid[i] == Token(firstsTurn) && Count(grid, Token(firstsTurn)) == 3
    ensures Position(grid[i := ' '], firstsTurn)
  {
    CountAfter(grid, i, ' ', 'O');
    CountAfter(grid, i, ' ', 'X');
    NoNewLine(grid, i, ' ', 'O');
    NoNewLine(grid, i, ' ', 'X');
  }

  /** The player to move always has a move: a free field to place on, or a token to remove. */
  lemma AlwaysAMove(grid: Grid, firstsTurn: bool) returns (x: int, y: int)
    requires Position(grid, firstsTurn)
    ensures 1 <= x <= 3 && 1 <= y <= 3
    ensures At(grid, x, y) == if Count(grid, Token(firstsTurn)) == 3 then Token(firstsTurn) else ' '
  {
    CountAll(grid);
    var i := SomeThere(grid, if Count(grid, Token(firstsTurn)) == 3 then Token(firstsTurn) else ' ');
    x, y := i % 3 + 1, i / 3 + 1;
    assert (y - 1) * 3 + (x - 1) == i;
  }

  /** Nobody wins out of turn, and no two players win at once. */
  lemma OneWinner(grid: Grid, i: nat, firstsTurn: bool)
    requires Position(grid, firstsTurn) && i < 9 && grid[i] == ' '
    requires Line(grid[i := Token(firstsTurn)], Token(firstsTurn))
    ensures !Line(grid[i := Token(firstsTurn)], Token(!firstsTurn))
    ensures Count(grid, Token(firstsTurn)) >= 2
  {
    NoNewLine(grid, i, Token(firstsTurn), Token(!firstsTurn));
    LineTakesThree(grid[i := Token(firstsTurn)], Token(firstsTurn));
    CountAfter(grid, i, Token(firstsTurn), Token(firstsTurn));
  }

  lemma LineTakesThree(grid: Grid, token: char)
    requires |grid| == 9 && Line(grid, token)
    ensures Count(grid, token) >= 3
  {
    assert grid == [grid[0], grid[1], grid[2], grid[3], grid[4], grid[5], grid[6], grid[7], grid[8]];
    CountNine(grid, token);
  }

  function One(b: bool): nat { if b then 1 else 0 }

  lemma CountNine(grid: Grid, token: char)
    requires |grid| == 9
    ensures Count(grid, token)
         == One(grid[0] == token) + One(grid[1] == token) + One(grid[2] == token)
          + One(grid[3] == token) + One(grid[4] == token) + One(grid[5] == token)
          + One(grid[6] == token) + One(grid[7] == token) + One(grid[8] == token)
  {
    CountFirst(grid, token);
    CountFirst(grid[1..], token);
    CountFirst(grid[2..], token);
    CountFirst(grid[3..], token);
    CountFirst(grid[4..], token);
    CountFirst(grid[5..], token);
    CountFirst(grid[6..], token);
    CountFirst(grid[7..], token);
    CountFirst(grid[8..], token);
    assert grid[1..][1..] == grid[2..] && grid[2..][1..] == grid[3..] && grid[3..][1..] == grid[4..];
    assert grid[4..][1..] == grid[5..] && grid[5..][1..] == grid[6..] && grid[6..][1..] == grid[7..];
    assert grid[7..][1..] == grid[8..] && grid[8..][1..] == [];
  }

  lemma CountFirst(grid: Grid, token: char)
    requires grid != []
    ensures Count(grid, token) == One(grid[0] == token) + Count(grid[1..], token)
  {
  }
}
