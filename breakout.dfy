/** The `Game` of coba.py: lives, score, the brick grid and the tick state machine.
    The canvas overlap query, the timer and the key bindings are replaced by
    parameters, a `Phase` and a `Step` result. */
module Breakout {
  import opened Geometry
  import opened Physics
  import opened Objects

  const Width: int := 610
  const Height: int := 400
  /** `self.after(50, ...)` and `self.after(1000, ...)`, recorded but not simulated. */
  const TickDelay: int := 50
  const RespawnDelay: int := 1000
  const PaddleStep: int := 10
  const PaddleY: int := 326
  const BallStartY: int := 310
  const HitScore: int := 10
  const StartLives: int := 3

  /** tkinter numbers canvas items from 1 in creation order: the paddle is the first
      item created, the bricks the next 24. */
  const PaddleId: int := 1
  const FirstBrickId: int := 2
  const Columns: int := 8
  const Rows: int := 3
  const BrickCount: int := 24
  const EndBrickId: int := 26

  /** Which callback is pending: the space binding (`Setup`), the `game_loop`
      timer (`Running`), the `setup_game` timer (`Respawning`), or none. */
  datatype Phase = Setup | Running | Respawning | Won | Over

  /** What a tick asks for next: reschedule itself, respawn, or stop. */
  datatype Step = Continue | Respawn | Win | GameOver

  /** The order of the checks in `game_loop`: the win check comes first, then the
      ball-out check, which ends the game once no life is left. */
  function Decide(bricksLeft: nat, ballBottom: int, lives: int): (s: Step)
    ensures s == Win <==> bricksLeft == 0
    ensures s == Continue <==> bricksLeft > 0 && ballBottom < Height
    ensures s == Respawn <==> bricksLeft > 0 && ballBottom >= Height && lives >= 1
    ensures s == GameOver <==> bricksLeft > 0 && ballBottom >= Height && lives < 1
  {
    if bricksLeft == 0 then Win
    else if ballBottom >= Height then (if lives - 1 < 0 then GameOver else Respawn)
    else Continue
  }

  /** Column `c` (from the left) and row `r` (from the top) of the brick grid. */
  function GridId(c: int, r: int): int
  {
    FirstBrickId + Rows * c + r
  }

  /** `range(5, width - 5, 75)` gives the left edges; rows are centred at 50, 70, 90. */
  function BrickArea(c: int, r: int): Rect
  {
    Rect(5 + BrickWidth * c, 40 + BrickHeight * r, 5 + BrickWidth * (c + 1), 60 + BrickHeight * r)
  }

  /** Rows hold bricks of 3, 2 and 1 hits from the top. */
  function RowHits(r: int): int
  {
    3 - r
  }

  /** The paddle keeps its size and row, and stays inside the canvas. */
  predicate InField(p: Rect)
  {
    && p.top == PaddleY - PaddleHeight / 2 && p.bottom == PaddleY + PaddleHeight / 2
    && p.right - p.left == PaddleWidth
    && 0 <= p.left && p.right <= Width
  }

  /** Where `add_ball` puts a new ball: centred over the paddle, at height 310. */
  function Resting(p: Rect): Rect
  {
    var x := (p.left + p.right) / 2;
    Rect(x - BallRadius, BallStartY - BallRadius, x + BallRadius, BallStartY + BallRadius)
  }


  function BricksOf(items: map<int, Item>): set<Brick>
  {
    set k | k in items && items[k].BrickItem? :: items[k].brick
  }

  /** Brick `(c, r)` of the starting grid sits at its place with its starting
      counter and colour. */
  ghost predicate Placed(items: map<int, Item>, c: int, r: int)
    reads BricksOf(items)
  {
    && GridId(c, r) in items && items[GridId(c, r)].BrickItem?
    && items[GridId(c, r)].brick.pos == BrickArea(c, r)
    && RowHits(r) in Colors
    && items[GridId(c, r)].brick.State() == NewBrick(RowHits(r))
  }

  /** A brick keeps a counter in `0..3`, and is on the canvas while it is positive. */
  ghost predicate Sound(b: Brick)
    reads b
  {
    b.Valid() && b.hits <= 3
  }

  ghost predicate BricksSound(items: map<int, Item>)
    reads BricksOf(items)
  {
    forall k :: k in items && items[k].BrickItem? ==> Sound(items[k].brick)
  }

  /** `find_withtag('brick')`: the ids of bricks still on the canvas. */
  function LiveIds(items: map<int, Item>): set<int>
    reads BricksOf(items)
  {
    set k | k in items && items[k].BrickItem? && items[k].brick.onCanvas
  }

  /** The ids `lo..hi`, one added at a time. */
  function IdRange(lo: int, hi: int): (s: set<int>)
    ensures forall k :: k in s <==> lo <= k < hi
    decreases hi - lo
  {
    if lo >= hi then {} else IdRange(lo, hi - 1) + {hi - 1}
  }

  lemma {:induction false} RangeSize(lo: int, hi: int)
    requires lo <= hi
    ensures |IdRange(lo, hi)| == hi - lo
    decreases hi - lo
  {
    if lo < hi {
      RangeSize(lo, hi - 1);
    }
  }

  /** The starting grid puts 24 bricks on the canvas. */
  lemma StartGridLive(items: map<int, Item>, paddle: Paddle)
    requires TableShape(items, paddle, EndBrickId)
    requires forall c, r :: 0 <= c < Columns && 0 <= r < Rows ==> Placed(items, c, r)
    ensures LiveIds(items) == IdRange(FirstBrickId, EndBrickId)
    ensures |LiveIds(items)| == BrickCount
  {
    forall k | FirstBrickId <= k < EndBrickId
      ensures k in LiveIds(items)
    {
      var c, r := (k - FirstBrickId) / Rows, (k - FirstBrickId) % Rows;
      assert GridId(c, r) == k;
      assert Placed(items, c, r);
    }
    assert LiveIds(items) == IdRange(FirstBrickId, EndBrickId);
    RangeSize(FirstBrickId, EndBrickId);
  }

  /** The item table: the paddle at its id and a brick at every id of
      `FirstBrickId..next`, and nothing else. */
  predicate TableShape(items: map<int, Item>, paddle: Paddle, next: int)
  {
    && PaddleId in items && items[PaddleId] == PaddleItem(paddle)
    && (forall k :: k in items && k != PaddleId ==> FirstBrickId <= k < next && items[k].BrickItem?)
    && (forall k :: FirstBrickId <= k < next ==> k in items)
  }

  /** Every brick among the overlapping items may be hit, and the one
      `Ball.collide` hits belongs to the table. */
  lemma CollideReady(items: map<int, Item>, overlap: seq<int>)
    requires BricksSound(items)
    requires forall x :: x in overlap && x in items && items[x].BrickItem? ==> items[x].brick.onCanvas
    ensures forall i :: 0 <= i < |Lookup(items, overlap)| && Lookup(items, overlap)[i].BrickItem? ==>
              Lookup(items, overlap)[i].brick.Valid() && CanHit(Lookup(items, overlap)[i].brick.State())
    ensures FirstBrickSet(Lookup(items, overlap)) <= BricksOf(items)
  {
    var objects := Lookup(items, overlap);
    forall i | 0 <= i < |objects| && objects[i].BrickItem?
      ensures objects[i].brick.Valid() && CanHit(objects[i].brick.State())
    {
      var x := LookupSource(items, overlap, i);
    }
    if FirstBrick(objects).Some? {
      var x := LookupSource(items, overlap, FirstBrick(objects).value);
    }
  }

  /** A collision that hit at most the bricks of `FirstBrickSet(objects)`, each
      once, leaves every brick of the table sound. */
  twostate lemma BricksStaySound(items: map<int, Item>, new objects: seq<Item>)
    requires old(BricksSound(items))
    requires FirstBrickSet(objects) <= BricksOf(items)
    requires forall o :: o in BricksOf(items) && o !in FirstBrickSet(objects) ==> unchanged(o)
    requires forall b :: b in FirstBrickSet(objects) ==>
               old(CanHit(b.State())) && b.Valid() && b.State() == HitOnce(old(b.State()))
    ensures BricksSound(items)
  {
    forall k | k in items && items[k].BrickItem?
      ensures Sound(items[k].brick)
    {
      var b := items[k].brick;
      assert b in BricksOf(items);
      assert old(Sound(b));
    }
  }

  class Game {
    var lives: int
    var score: int
    /** `self.items`: the paddle and the bricks by canvas id. */
    var items: map<int, Item>
    var ball: Ball?
    var paddle: Paddle
    /** Whether each of the three heart icons is still on the canvas. */
    var hearts: seq<bool>
    var phase: Phase

    function Bricks(): set<Brick>
      reads this`items
    {
      BricksOf(items)
    }

    function LiveBricks(): set<int>
      reads this`items, Bricks()
    {
      LiveIds(items)
    }

    /** Whether `Ball.collide` will report a brick for these overlapping ids. */
    function BrickHit(overlap: seq<int>): bool
      reads this`items
    {
      FirstBrick(Lookup(items, overlap)).Some?
    }

    /** What `find_overlapping` guarantees: it only reports shapes still on the canvas. */
    ghost predicate Overlapping(overlap: seq<int>)
      reads this`items, Bricks()
    {
      forall x :: x in overlap && x in items && items[x].BrickItem? ==> items[x].brick.onCanvas
    }

    /** The invariant that holds between any two steps, whatever the phase. */
    ghost predicate Wellformed()
      reads this, ball, paddle, Bricks()
    {
      && ball != null && ball.Valid()
      && InField(paddle.pos)
      && TableShape(items, paddle, EndBrickId)
      && BricksSound(items)
      && -1 <= lives <= StartLives
      && |hearts| == StartLives
      && (forall i :: 0 <= i < StartLives ==> (hearts[i] <==> i < lives))
      && score >= 0 && score % HitScore == 0
    }

    /** What each phase implies about the carried ball, its speed and the lives. */
    ghost predicate PhaseOk()
      reads this, ball, paddle, Bricks()
      requires ball != null
    {
      && (phase == Won <==> LiveBricks() == {})
      && match phase
         case Setup =>
           paddle.ball == ball && ball.speed == Some(BallSpeed) && ball.pos == Resting(paddle.pos) && lives >= 0
         case Running => paddle.ball == null && ball.speed == Some(BallSpeed) && lives >= 0
         case Respawning => paddle.ball == null && ball.speed == None && lives >= 0
         case Won => paddle.ball == null && ball.speed == None && lives >= 0
         case Over => paddle.ball == null && ball.speed == None && lives == -1
    }

    ghost predicate Valid()
      reads this, ball, paddle, Bricks()
    {
      Wellformed() && PhaseOk()
    }

    /** `Game.__init__` followed by `setup_game` and `create_hearts`. */
    constructor ()
      ensures Valid() && phase == Setup
      ensures lives == StartLives && score == 0 && hearts == [true, true, true]
      ensures paddle.pos == Rect(265, 321, 345, 331) && paddle.ball == ball
      ensures ball.pos == Rect(295, 300, 315, 320) && ball.direction == [1, -1]
      ensures forall c, r :: 0 <= c < Columns && 0 <= r < Rows ==> Placed(items, c, r)
      ensures |LiveBricks()| == BrickCount
      ensures ball.bounces == 0
      ensures fresh(paddle) && fresh(ball) && fresh(Bricks())
    {
      lives := StartLives;
      score := 0;
      var pad := new Paddle(Width / 2, PaddleY);
      items := map[PaddleId := PaddleItem(pad)];
      paddle := pad;
      ball := null;
      hearts := [];
      phase := Setup;
      new;
      AddBricks();
      label Grid:
      ghost var live := LiveBricks();
      AddBall();
      hearts := [true, true, true];
      forall c, r | 0 <= c < Columns && 0 <= r < Rows
        ensures Placed(items, c, r)
      {
        assert old@Grid(Placed(items, c, r));
      }
      assert LiveBricks() == live;
      assert Bricks() == old@Grid(Bricks());
    }

    /** The loop of `__init__` that lays out the grid: a column of three bricks at
        each left edge of `range(5, width - 5, 75)`. */
    method AddBricks()
      requires items == map[PaddleId := PaddleItem(paddle)]
      modifies this`items
      ensures TableShape(items, paddle, EndBrickId) && BricksSound(items)
      ensures forall c, r :: 0 <= c < Columns && 0 <= r < Rows ==> Placed(items, c, r)
      ensures |LiveBricks()| == BrickCount
      ensures fresh(Bricks())
    {
      var x := 5;
      // the id tkinter gives the next shape drawn
      var next := FirstBrickId;
      ghost var c := 0;
      while x < Width - 5
        invariant 0 <= c <= Columns && x == 5 + BrickWidth * c && next == GridId(c, 0)
        invariant TableShape(items, paddle, GridId(c, 0))
        invariant BricksSound(items)
        invariant forall c', r :: 0 <= c' < c && 0 <= r < Rows ==> Placed(items, c', r)
        invariant fresh(Bricks())
      {
        AddColumn(c, next, x);
        x := x + BrickWidth;
        next := next + Rows;
        c := c + 1;
      }
      StartGridLive(items, paddle);
    }

    /** One pass of that loop: the bricks of 3, 2 and 1 hits below each other in
        column `c`, under the next three canvas ids. */
    method AddColumn(ghost c: int, next: int, x: int)
      requires 0 <= c && next == GridId(c, 0) && x == 5 + BrickWidth * c
      requires TableShape(items, paddle, next) && BricksSound(items)
      requires forall c', r :: 0 <= c' < c && 0 <= r < Rows ==> Placed(items, c', r)
      modifies this`items
      ensures TableShape(items, paddle, next + Rows) && BricksSound(items)
      ensures forall c', r :: 0 <= c' <= c && 0 <= r < Rows ==> Placed(items, c', r)
      ensures fresh(Bricks() - old(Bricks()))
    {
      AddBrick(next, x, 50, 3, "#FB9833");
      AddBrick(next + 1, x, 70, 2, "#4D555B");
      AddBrick(next + 2, x, 90, 1, "#FCEFEF");
      forall c', r | 0 <= c' < c && 0 <= r < Rows
        ensures Placed(items, c', r)
      {
        assert old(Placed(items, c', r));
      }
      forall k | k in items && items[k].BrickItem?
        ensures Sound(items[k].brick)
      {
        if k < next {
          assert old(Sound(items[k].brick));
        }
      }
    }

    /** `add_brick`: a new brick entered in the table under the canvas id `id`
        that tkinter gives its rectangle. */
    method AddBrick(id: int, x: int, y: int, hits: int, color: string)
      modifies this`items
      ensures id in items && items[id].BrickItem? && fresh(items[id].brick)
      ensures items == old(items)[id := items[id]]
      ensures items[id].brick.pos == Rect(x, y - BrickHeight / 2, x + BrickWidth, y + BrickHeight / 2)
      ensures items[id].brick.State() == BrickState(hits, color, true)
    {
      var brick := new Brick(x, y, hits, color);
      items := items[id := BrickItem(brick)];
    }

    /** `add_ball`: a new ball over the centre of the paddle, carried by it. */
    method AddBall()
      requires InField(paddle.pos)
      modifies this`ball, paddle
      ensures fresh(ball) && ball.Valid()
      ensures ball.pos == Resting(paddle.pos) && ball.direction == [1, -1] && ball.speed == Some(BallSpeed)
      ensures ball.bounces == 0
      ensures paddle.ball == ball && paddle.pos == old(paddle.pos)
    {
      var coords := paddle.pos;
      var x := (coords.left + coords.right) / 2;
      ball := new Ball(x, BallStartY);
      paddle.SetBall(ball);
    }

    /** `setup_game` when the 1-second timer after a lost life fires. */
    method SetupGame()
      requires Valid() && phase == Respawning
      modifies this, paddle
      ensures Valid() && phase == Setup
      ensures fresh(ball) && ball.pos == Resting(paddle.pos) && ball.direction == [1, -1]
      ensures lives == old(lives) && score == old(score) && hearts == old(hearts)
      ensures items == old(items) && paddle == old(paddle) && paddle.pos == old(paddle.pos)
      ensures ball.bounces == 0
    {
      AddBall();
      phase := Setup;
    }

    /** The `<Left>` binding: `paddle.move(-10)`. */
    method PressLeft()
      requires Valid()
      modifies paddle, ball
      ensures Valid()
      ensures paddle.pos == PaddleMove(old(paddle.pos), -PaddleStep, Width)
      ensures paddle.ball == old(paddle.ball) && ball == old(ball)
      ensures paddle.ball != null ==> ball.pos == Translate(old(ball.pos), paddle.pos.left - old(paddle.pos.left), 0)
      ensures paddle.ball == null ==> ball.pos == old(ball.pos)
      ensures ball.direction == old(ball.direction) && ball.speed == old(ball.speed) && ball.bounces == old(ball.bounces)
    {
      paddle.Move(-PaddleStep, Width);
    }

    /** The `<Right>` binding: `paddle.move(10)`. */
    method PressRight()
      requires Valid()
      modifies paddle, ball
      ensures Valid()
      ensures paddle.pos == PaddleMove(old(paddle.pos), PaddleStep, Width)
      ensures paddle.ball == old(paddle.ball) && ball == old(ball)
      ensures paddle.ball != null ==> ball.pos == Translate(old(ball.pos), paddle.pos.left - old(paddle.pos.left), 0)
      ensures paddle.ball == null ==> ball.pos == old(ball.pos)
      ensures ball.direction == old(ball.direction) && ball.speed == old(ball.speed) && ball.bounces == old(ball.bounces)
    {
      paddle.Move(PaddleStep, Width);
    }

    /** `check_collisions`: resolve the collision with the overlapping items and
        add 10 points when a brick was hit. */
    method CheckCollisions(overlap: seq<int>)
      requires Wellformed() && Overlapping(overlap)
      modifies this`score, ball, Bricks()
      ensures Wellformed()
      ensures ball == old(ball) && ball.pos == old(ball.pos) && ball.speed == old(ball.speed)
      ensures ball.direction
              == Deflect(ball.pos, old(ball.direction), |Lookup(items, overlap)|, old(FirstSpan(Lookup(items, overlap))))
      ensures score == old(score) + (if BrickHit(overlap) then HitScore else 0)
      ensures ball.bounces == old(ball.bounces) + (if BrickHit(overlap) then 1 else 0)
      ensures forall b :: b in old(FirstBrickSet(Lookup(items, overlap))) ==>
                old(CanHit(b.State())) && b.State() == HitOnce(old(b.State())) && b.pos == old(b.pos)
      ensures forall b :: b in Bricks() && b !in FirstBrickSet(Lookup(items, overlap)) ==> unchanged(b)
    {
      var objects := Lookup(items, overlap);
      CollideReady(items, overlap);
      var hit := ball.Collide(objects);
      if hit {
        score := score + HitScore;
      }
      BricksStaySound(items, objects);
    }

    /** One `game_loop` tick: collisions, then the win check, then the ball-out
        check, and otherwise the ball advances. */
    method GameLoop(overlap: seq<int>) returns (step: Step)
      requires Valid() && phase == Running && Overlapping(overlap)
      modifies this, ball, Bricks()
      ensures Valid()
      ensures items == old(items) && ball == old(ball) && paddle == old(paddle)
      ensures score == old(score) + (if BrickHit(overlap) then HitScore else 0)
      ensures step == Decide(|LiveBricks()|, old(ball.pos.bottom), old(lives))
      ensures phase == match step
                       case Continue => Running
                       case Respawn => Respawning
                       case Win => Won
                       case GameOver => Over
      ensures lives == old(lives) - (if step == Respawn || step == GameOver then 1 else 0)
      ensures step == Respawn ==> 0 <= lives < StartLives && hearts == old(hearts)[lives := false]
      ensures step != Respawn ==> hearts == old(hearts)
      ensures step == Continue ==>
                ball.direction == WallBounce(old(ball.pos), Deflect(old(ball.pos), old(ball.direction),
                  |Lookup(items, overlap)|, old(FirstSpan(Lookup(items, overlap)))), Width)
      ensures step != Continue ==>
                ball.direction == Deflect(old(ball.pos), old(ball.direction),
                  |Lookup(items, overlap)|, old(FirstSpan(Lookup(items, overlap))))
      ensures step == Continue ==>
                ball.pos == Translate(old(ball.pos), ball.direction[0] * BallSpeed, ball.direction[1] * BallSpeed)
      ensures step != Continue ==> ball.pos == old(ball.pos) && ball.speed == None
      ensures ball.bounces == old(ball.bounces) + (if BrickHit(overlap) then 1 else 0)
                + (if step == Continue then WallCues(old(ball.pos), Width) else 0)
      ensures forall b :: b in old(FirstBrickSet(Lookup(items, overlap))) ==>
                old(CanHit(b.State())) && b.State() == HitOnce(old(b.State())) && b.pos == old(b.pos)
      ensures forall b :: b in Bricks() && b !in FirstBrickSet(Lookup(items, overlap)) ==> unchanged(b)
    {
      CheckCollisions(overlap);
      label Collided:
      step := FinishTick();
      // the bricks are neither the game nor its ball, so the rest of the tick leaves them alone
      forall b | b in old(FirstBrickSet(Lookup(items, overlap)))
        ensures b.State() == old@Collided(b.State()) && b.pos == old@Collided(b.pos)
      {
        assert b !in {this, ball};
      }
    }

    /** The rest of a `game_loop` tick once `check_collisions` has run: count the
        bricks left, then look at the bottom of the ball. */
    method FinishTick() returns (step: Step)
      requires Wellformed() && phase == Running
      requires paddle.ball == null && ball.speed == Some(BallSpeed) && lives >= 0
      modifies this`lives, this`hearts, this`phase, ball
      ensures Valid()
      ensures step == Decide(|LiveBricks()|, old(ball.pos.bottom), old(lives))
      ensures phase == match step
                       case Continue => Running
                       case Respawn => Respawning
                       case Win => Won
                       case GameOver => Over
      ensures lives == old(lives) - (if step == Respawn || step == GameOver then 1 else 0)
      ensures step == Respawn ==> 0 <= lives < StartLives && hearts == old(hearts)[lives := false]
      ensures step != Respawn ==> hearts == old(hearts)
      ensures step == Continue ==> ball.direction == WallBounce(old(ball.pos), old(ball.direction), Width)
      ensures step != Continue ==> ball.direction == old(ball.direction)
      ensures step == Continue ==>
                ball.pos == Translate(old(ball.pos), ball.direction[0] * BallSpeed, ball.direction[1] * BallSpeed)
      ensures step != Continue ==> ball.pos == old(ball.pos) && ball.speed == None
      ensures ball.bounces == old(ball.bounces) + (if step == Continue then WallCues(old(ball.pos), Width) else 0)
    {
      var numBricks := |LiveBricks()|;
      ghost var live := LiveBricks();
      if numBricks == 0 {
        ball.speed := None;
        phase := Won;
        step := Win;
      } else if ball.pos.bottom >= Height {
        ball.speed := None;
        lives := lives - 1;
        if lives < 0 {
          phase := Over;
          step := GameOver;
        } else {
          hearts := hearts[lives := false];
          phase := Respawning;
          step := Respawn;
        }
      } else {
        ball.Update(Width);
        step := Continue;
      }
      // the ball, the lives, the hearts and the phase are not part of the table
      assert LiveBricks() == live;
    }

    /** `start_game`, bound to the space key: release the ball and run the first tick. */
    method StartGame(overlap: seq<int>) returns (step: Step)
      requires Valid() && phase == Setup && Overlapping(overlap)
      modifies this, ball, paddle, Bricks()
      ensures Valid()
      ensures paddle.ball == null && paddle.pos == old(paddle.pos)
      ensures items == old(items) && ball == old(ball) && paddle == old(paddle)
      ensures score == old(score) + (if BrickHit(overlap) then HitScore else 0)
      ensures step == Decide(|LiveBricks()|, old(ball.pos.bottom), old(lives))
      // the ball rests above the paddle, far from the bottom edge
      ensures step == Continue || step == Win
      ensures phase == (if step == Win then Won else Running)
      ensures lives == old(lives) && hearts == old(hearts)
      ensures step == Continue ==>
                ball.direction == WallBounce(old(ball.pos), Deflect(old(ball.pos), old(ball.direction),
                  |Lookup(items, overlap)|, old(FirstSpan(Lookup(items, overlap)))), Width)
      ensures step != Continue ==>
                ball.direction == Deflect(old(ball.pos), old(ball.direction),
                  |Lookup(items, overlap)|, old(FirstSpan(Lookup(items, overlap))))
      ensures step == Continue ==>
                ball.pos == Translate(old(ball.pos), ball.direction[0] * BallSpeed, ball.direction[1] * BallSpeed)
      ensures step != Continue ==> ball.pos == old(ball.pos) && ball.speed == None
      ensures ball.bounces == old(ball.bounces) + (if BrickHit(overlap) then 1 else 0)
                + (if step == Continue then WallCues(old(ball.pos), Width) else 0)
      ensures forall b :: b in old(FirstBrickSet(Lookup(items, overlap))) ==>
                old(CanHit(b.State())) && b.State() == HitOnce(old(b.State())) && b.pos == old(b.pos)
      ensures forall b :: b in Bricks() && b !in FirstBrickSet(Lookup(items, overlap)) ==> unchanged(b)
    {
      paddle.ball := null;
      phase := Running;
      step := GameLoop(overlap);
    }
  }
}
