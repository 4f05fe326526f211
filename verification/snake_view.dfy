/** The Snake game engine behind the Snake window: a 20 x 20 board, a snake
    made of segments (head first), one piece of food, a score, and the
    game-over / running flags. The interval timer, React state plumbing,
    rendering and DOM focus are environment; each timer firing is one call
    of `SnakeGame.Tick`, each key press one call of `SnakeGame.HandleKeyDown`. */
module SnakeView {
  import opened Wrappers
  import Text

  datatype Point = Point(x: int, y: int)

  const GridSize: int := 20

  predicate InGrid(p: Point) {
    0 <= p.x < GridSize && 0 <= p.y < GridSize
  }

  /** The four moves a direction can take. */
  predicate IsUnit(d: Point) {
    d == Point(0, -1) || d == Point(0, 1) || d == Point(-1, 0) || d == Point(1, 0)
  }

  predicate IsOpposite(a: Point, b: Point) {
    a.x == -b.x && a.y == -b.y
  }

  // ---------------------------------------------------------------------
  // Keys

  /** The key table: arrow keys and w/a/s/d. */
  function DirectionFor(key: string): (r: Option<Point>)
    ensures r.Some? ==> IsUnit(r.value)
  {
    if key == "ArrowUp" || key == "w" then Some(Point(0, -1))
    else if key == "ArrowDown" || key == "s" then Some(Point(0, 1))
    else if key == "ArrowLeft" || key == "a" then Some(Point(-1, 0))
    else if key == "ArrowRight" || key == "d" then Some(Point(1, 0))
    else None
  }

  /** Single-character keys are lower-cased before the lookup; longer key
      names are looked up as they are. */
  function NormalizeKey(key: string): (r: string)
    ensures |r| == |key|
    ensures |key| == 1 ==> r == [Text.LowerChar(key[0])]
    ensures |key| != 1 ==> r == key
  {
    if |key| == 1 then Text.Lower(key) else key
  }

  /** The direction a key press asks for, if the table knows the key and it
      does not point straight back against `current`. */
  function Steer(current: Point, key: string): (r: Option<Point>)
    ensures r.Some? ==> IsUnit(r.value) && !IsOpposite(r.value, current)
    ensures r.Some? <==> DirectionFor(NormalizeKey(key)).Some? && !IsOpposite(DirectionFor(NormalizeKey(key)).value, current)
  {
    match DirectionFor(NormalizeKey(key))
    case None => None
    case Some(next) => if IsOpposite(next, current) then None else Some(next)
  }

  /** Exactly the arrow keys and the letters w, a, s, d in either case name a
      direction. */
  lemma {:induction false} KeyIsMapped(key: string)
    ensures DirectionFor(NormalizeKey(key)).Some? <==>
      key in {"ArrowUp", "ArrowDown", "ArrowLeft", "ArrowRight", "w", "a", "s", "d", "W", "A", "S", "D"}
  {
    if |key| == 1 {
      var c := key[0];
      assert key == [c];
      assert NormalizeKey(key) == [Text.LowerChar(c)];
    }
  }

  /** A single-character key steers as its lower-case form does; in
      particular W, A, S and D steer as w, a, s and d. */
  lemma LetterCaseIgnored(current: Point, c: char)
    ensures Steer(current, [c]) == Steer(current, [Text.LowerChar(c)])
  {
    assert NormalizeKey([c]) == [Text.LowerChar(c)];
    assert NormalizeKey([Text.LowerChar(c)]) == [Text.LowerChar(c)];
  }

  /** The opposite-turn check is made against the direction most recently
      set, not the one the snake last moved in: moving right, "w" then "a"
      pressed before the next tick leave the snake heading left. */
  lemma QuickTurnsReverse()
    ensures Steer(Point(1, 0), "w") == Some(Point(0, -1))
    ensures Steer(Point(0, -1), "a") == Some(Point(-1, 0))
    ensures IsOpposite(Point(-1, 0), Point(1, 0))
  {
    assert NormalizeKey("w") == "w";
    assert NormalizeKey("a") == "a";
  }

  // ---------------------------------------------------------------------
  // Board geometry

  function InitialSnake(): (s: seq<Point>)
    ensures |s| == 1 && InGrid(s[0])
  {
    [Point(GridSize / 2, GridSize / 2)]
  }

  function Cells(s: seq<Point>): set<Point> {
    set p | p in s
  }

  predicate AllInGrid(s: seq<Point>) {
    forall i :: 0 <= i < |s| ==> InGrid(s[i])
  }

  predicate Distinct(s: seq<Point>) {
    forall i, j :: 0 <= i < j < |s| ==> s[i] != s[j]
  }

  /** Cells (x, y) of row y with x < n. */
  function RowCells(y: int, n: int): set<Point> {
    set x: int | 0 <= x < n :: Point(x, y)
  }

  /** Cells of the first m rows. */
  function BandCells(m: int): set<Point> {
    set x: int, y: int | 0 <= x < GridSize && 0 <= y < m :: Point(x, y)
  }

  function GridCells(): (g: set<Point>)
    ensures forall p :: p in g <==> InGrid(p)
  {
    var g := BandCells(GridSize);
    assert forall p :: InGrid(p) ==> p == Point(p.x, p.y) && p in g;
    g
  }

  lemma {:induction false} RowCellsCount(y: int, n: nat)
    ensures |RowCells(y, n)| == n
  {
    if n == 0 {
      assert RowCells(y, n) == {};
    } else {
      RowCellsCount(y, n - 1);
      assert RowCells(y, n) == RowCells(y, n - 1) + {Point(n - 1, y)};
    }
  }

  lemma {:induction false} BandCellsCount(m: nat)
    ensures |BandCells(m)| == GridSize * m
  {
    if m == 0 {
      assert BandCells(m) == {};
    } else {
      BandCellsCount(m - 1);
      RowCellsCount(m - 1, GridSize);
      assert BandCells(m) == BandCells(m - 1) + RowCells(m - 1, GridSize);
      assert BandCells(m - 1) * RowCells(m - 1, GridSize) == {};
    }
  }

  /** A snake without repeated segments covers as many cells as it has segments. */
  lemma {:induction false} DistinctCellsCount(s: seq<Point>)
    requires Distinct(s)
    ensures |Cells(s)| == |s|
  {
    if s != [] {
      DistinctCellsCount(s[1..]);
      assert Cells(s) == {s[0]} + Cells(s[1..]);
      assert s[0] !in Cells(s[1..]);
    }
  }

  lemma SubsetCount(a: set<Point>, b: set<Point>)
    requires a <= b
    ensures |b - a| == |b| - |a|
  {
    assert b == (b - a) + a;
    assert (b - a) * a == {};
  }

  /** The board has 400 cells. */
  lemma GridCellsCount()
    ensures |GridCells()| == GridSize * GridSize
  {
    BandCellsCount(GridSize);
  }

  /** A snake of fewer than 400 distinct in-grid segments leaves a free cell,
      so the food retry loop can finish. */
  lemma FreeCellExists(s: seq<Point>)
    requires AllInGrid(s) && Distinct(s) && |s| < GridSize * GridSize
    ensures exists p :: InGrid(p) && p !in Cells(s)
  {
    GridCellsCount();
    DistinctCellsCount(s);
    var g := GridCells();
    SubsetCount(Cells(s), g);
    var p :| p in g - Cells(s);
  }

  /** No board holds more than 400 distinct cells. */
  lemma DistinctFitsGrid(s: seq<Point>)
    requires AllInGrid(s) && Distinct(s)
    ensures |s| <= GridSize * GridSize
  {
    GridCellsCount();
    DistinctCellsCount(s);
    SubsetCount(Cells(s), GridCells());
  }

  /** As written, the food retry loop never ends once the snake covers the
      board: with 400 distinct in-grid segments every draw is occupied. */
  lemma FullSnakeLeavesNoCell(s: seq<Point>)
    requires AllInGrid(s) && Distinct(s) && |s| == GridSize * GridSize
    ensures forall p :: InGrid(p) ==> p in Cells(s)
  {
    GridCellsCount();
    DistinctCellsCount(s);
    var g := GridCells();
    SubsetCount(Cells(s), g);
    assert g - Cells(s) == {};
  }

  /** `getRandomPosition`: draws cells until one is not occupied. A draw that
      was rejected is not drawn again, which keeps the loop finite and leaves
      the set of possible results unchanged. */
  method RandomPosition(occupied: set<Point>) returns (p: Point)
    requires exists q :: InGrid(q) && q !in occupied
    ensures InGrid(p) && p !in occupied
  {
    var grid := GridCells();
    ghost var free :| InGrid(free) && free !in occupied;
    var rejected: set<Point> := {};
    p :| p in grid;
    while p in occupied
      invariant rejected <= occupied * grid
      invariant p in grid - rejected
      decreases |grid - rejected|
    {
      rejected := rejected + {p};
      assert free in grid - rejected;
      assert grid - rejected < grid - (rejected - {p});
      p :| p in grid - rejected;
    }
  }

  // ---------------------------------------------------------------------
  // One move

  /** Cells one step apart along a row or a column. */
  predicate Adjacent(a: Point, b: Point) {
    || (a.x == b.x && (a.y - b.y == 1 || b.y - a.y == 1))
    || (a.y == b.y && (a.x - b.x == 1 || b.x - a.x == 1))
  }

  /** The cell the head moves to. */
  function NextHead(s: seq<Point>, d: Point): (r: Point)
    requires |s| > 0
    ensures IsUnit(d) ==> Adjacent(s[0], r)
  {
    Point(s[0].x + d.x, s[0].y + d.y)
  }

  /** The segments a new head may not land on: all of them when the snake
      eats, and all but the tail otherwise, since the tail moves away. */
  function BodyToCheck(prev: seq<Point>, grow: bool): (r: seq<Point>)
    requires |prev| > 0
    ensures grow ==> r == prev
    ensures !grow ==> |r| == |prev| - 1 && forall i :: 0 <= i < |r| ==> r[i] == prev[i]
  {
    if grow then prev else prev[..|prev| - 1]
  }

  /** A move ends the game when the new head leaves the board or lands on a
      segment, the tail excepted when the snake does not eat. */
  predicate Collides(prev: seq<Point>, head: Point, grow: bool)
    requires |prev| > 0
    ensures Collides(prev, head, grow) <==>
      !InGrid(head) || exists i :: 0 <= i < |prev| && prev[i] == head && (grow || i < |prev| - 1)
  {
    !InGrid(head) || head in BodyToCheck(prev, grow)
  }

  /** The snake after a move: the new head in front, every other segment on
      its predecessor's old cell; the tail is dropped unless the snake eats. */
  function Advance(prev: seq<Point>, head: Point, grow: bool): (r: seq<Point>)
    requires |prev| > 0
    ensures |r| == if grow then |prev| + 1 else |prev|
    ensures r[0] == head
    ensures forall i :: 0 < i < |r| ==> r[i] == prev[i - 1]
  {
    var updated := [head] + prev;
    if grow then updated else updated[..|updated| - 1]
  }

  /** A move that does not collide keeps the snake on the board and free of
      overlaps. */
  lemma AdvanceKeepsShape(prev: seq<Point>, head: Point, grow: bool)
    requires |prev| > 0 && AllInGrid(prev) && Distinct(prev)
    requires !Collides(prev, head, grow)
    ensures AllInGrid(Advance(prev, head, grow))
    ensures Distinct(Advance(prev, head, grow))
  {
    var r := Advance(prev, head, grow);
    forall i, j | 0 <= i < j < |r| ensures r[i] != r[j] {
      if i == 0 {
        assert r[j] == prev[j - 1];
        assert j - 1 < |BodyToCheck(prev, grow)|;
        assert BodyToCheck(prev, grow)[j - 1] == prev[j - 1];
      }
    }
  }

  // ---------------------------------------------------------------------
  // The game state

  class SnakeGame {
    var snake: seq<Point>
    var direction: Point
    var food: Point
    var score: int
    var gameOver: bool
    var isRunning: bool
    var hasFocus: bool

    /** The invariant every handler keeps: the snake is on the board without
        overlaps, the food is on the board and off the snake while the game is
        on, the score is 10 per meal, and the game runs exactly when it is not
        over. */
    ghost predicate Valid()
      reads this
    {
      && |snake| >= 1
      && AllInGrid(snake)
      && Distinct(snake)
      && IsUnit(direction)
      && InGrid(food)
      && (gameOver || food !in snake)
      && score == 10 * (|snake| - 1)
      && isRunning == !gameOver
    }

    /** A new game: one segment in the centre heading right, no score, running. */
    constructor ()
      ensures Valid()
      ensures snake == [Point(10, 10)] && direction == Point(1, 0)
      ensures score == 0 && !gameOver && isRunning && !hasFocus
      ensures food != Point(10, 10)
    {
      var start := InitialSnake();
      assert InGrid(Point(0, 0)) && Point(0, 0) !in Cells(start);
      var f := RandomPosition(Cells(start));
      snake := start;
      direction := Point(1, 0);
      food := f;
      score := 0;
      gameOver := false;
      isRunning := true;
      hasFocus := false;
    }

    /** `resetGame`: back to the state of a new game with fresh food; the
        focus flag is not touched. */
    method Reset()
      modifies this
      ensures Valid()
      ensures snake == [Point(10, 10)] && direction == Point(1, 0)
      ensures score == 0 && !gameOver && isRunning
      ensures food != Point(10, 10)
      ensures hasFocus == old(hasFocus)
    {
      var start := InitialSnake();
      assert InGrid(Point(0, 0)) && Point(0, 0) !in Cells(start);
      var f := RandomPosition(Cells(start));
      snake := start;
      direction := Point(1, 0);
      food := f;
      score := 0;
      gameOver := false;
      isRunning := true;
    }

    method Focus()
      modifies this`hasFocus
      ensures hasFocus
    {
      hasFocus := true;
    }

    method Blur()
      modifies this`hasFocus
      ensures !hasFocus
    {
      hasFocus := false;
    }

    /** `handleKeyDown`: ignored without focus or after the game is over;
        otherwise the key may set a new direction. `handled` tells whether the
        browser's default action was suppressed, which happens exactly when the
        direction is set. */
    method HandleKeyDown(key: string) returns (handled: bool)
      requires Valid()
      modifies this`direction
      ensures Valid()
      ensures handled <==> hasFocus && !gameOver && Steer(old(direction), key).Some?
      ensures direction == if handled then Steer(old(direction), key).value else old(direction)
    {
      handled := false;
      if !hasFocus || gameOver {
        return;
      }
      var normalized := if |key| == 1 then Text.Lower(key) else key;
      var next := DirectionFor(normalized);
      if next.None? {
        return;
      }
      var isOpposite := next.value.x == -direction.x && next.value.y == -direction.y;
      if isOpposite {
        return;
      }
      handled := true;
      direction := next.value;
    }

    /** One firing of the move timer. Nothing happens unless the game is
        running. A head off the board or on the body ends the game and leaves
        the snake where it was. Otherwise the snake advances; if the head
        reaches the food it grows by one, the score rises by 10 and new food
        is placed off the snake. When that growth fills the whole board the
        game ends instead of searching for a free cell. */
    method Tick()
      requires Valid()
      modifies this
      ensures Valid()
      ensures direction == old(direction) && hasFocus == old(hasFocus)
      ensures !old(isRunning) || old(gameOver) ==>
        snake == old(snake) && food == old(food) && score == old(score)
        && gameOver == old(gameOver) && isRunning == old(isRunning)
      ensures old(isRunning) && !old(gameOver) ==>
        var head := NextHead(old(snake), old(direction));
        var grow := head == old(food);
        if Collides(old(snake), head, grow) then
          snake == old(snake) && food == old(food) && score == old(score) && gameOver && !isRunning
        else
          && snake == Advance(old(snake), head, grow)
          && score == old(score) + (if grow then 10 else 0)
          && (!grow ==> food == old(food) && !gameOver)
          && (grow ==> (gameOver <==> |snake| == GridSize * GridSize))
          && (grow && !gameOver ==> food !in snake)
    {
      if !isRunning || gameOver {
        return;
      }
      var head := snake[0];
      var newHead := Point(head.x + direction.x, head.y + direction.y);
      var hitWall := newHead.x < 0 || newHead.y < 0 || newHead.x >= GridSize || newHead.y >= GridSize;
      var willGrow := newHead == food;
      var bodyToCheck := if willGrow then snake else snake[..|snake| - 1];
      var hitSelf := newHead in bodyToCheck;
      if hitWall || hitSelf {
        gameOver := true;
        isRunning := false;
        return;
      }
      AdvanceKeepsShape(snake, newHead, willGrow);
      var updated := [newHead] + snake;
      if willGrow {
        score := score + 10;
        if |updated| < GridSize * GridSize {
          FreeCellExists(updated);
          food := RandomPosition(Cells(updated));
        } else {
          DistinctFitsGrid(updated);
          gameOver := true;
          isRunning := false;
        }
      } else {
        updated := updated[..|updated| - 1];
      }
      snake := updated;
    }
  }

  /** Score moves only in steps of 10. */
  lemma ScoreIsMultipleOfTen(g: SnakeGame)
    requires g.Valid()
    ensures g.score % 10 == 0 && g.score >= 0
  {
  }
}
