/** The game objects of coba.py: Ball, Paddle and Brick, each owning one canvas shape. */
module Objects {
  import opened Geometry
  import opened Physics

  const BallRadius: int := 10
  const BallSpeed: int := 5
  const PaddleWidth: int := 80
  const PaddleHeight: int := 10
  const BrickWidth: int := 75
  const BrickHeight: int := 20

  /** `Brick.COLORS`: the fill colour shown for each remaining hit count. */
  const Colors: map<int, string> := map[1 := "#FCEFEF", 2 := "#4D555B", 3 := "#FB9833"]

  // ---------------------------------------------------------------------------
  // Bricks as values

  /** What a brick shows: its hit counter, its fill colour and whether its shape
      is still on the canvas. */
  datatype BrickState = BrickState(hits: int, color: string, onCanvas: bool)

  /** A brick as the game builds it: `hits` remaining and the colour of that count. */
  function NewBrick(h: int): BrickState
    requires h in Colors
  {
    BrickState(h, Colors[h], true)
  }

  /** `Brick.hit` looks the decremented counter up in `COLORS` unless it reached 0;
      this is exactly when that lookup succeeds. */
  predicate CanHit(s: BrickState)
  {
    s.hits >= 1 && (s.hits - 1 == 0 || s.hits - 1 in Colors)
  }

  /** One call of `Brick.hit`. */
  function HitOnce(s: BrickState): (r: BrickState)
    requires CanHit(s)
    ensures r.hits == s.hits - 1
    ensures r.onCanvas <==> s.onCanvas && r.hits != 0
    ensures r.hits != 0 ==> r.color == Colors[r.hits]
    ensures r.hits == 0 ==> r.color == s.color
  {
    if s.hits - 1 == 0 then BrickState(0, s.color, false)
    else BrickState(s.hits - 1, Colors[s.hits - 1], s.onCanvas)
  }

  /** `k` successive calls of `Brick.hit`. */
  function HitTimes(s: BrickState, k: nat): BrickState
    requires k <= s.hits <= 4
    decreases k
  {
    if k == 0 then s else HitTimes(HitOnce(s), k - 1)
  }

  /** A brick built with `h` hits stays on the canvas, showing the colour of its
      remaining count, for the first `h - 1` hits, and disappears at hit `h`. */
  lemma {:induction false} RemovedAfterExactlyHits(h: int, k: nat)
    requires h in Colors && k <= h
    ensures HitTimes(NewBrick(h), k).hits == h - k
    ensures HitTimes(NewBrick(h), k).onCanvas <==> k < h
    ensures k < h ==> HitTimes(NewBrick(h), k).color == Colors[h - k]
  {
    HitTimesFrom(NewBrick(h), k);
  }

  /** The general form of the lemma above, for any live brick whose colour matches its count. */
  lemma {:induction false} HitTimesFrom(s: BrickState, k: nat)
    requires s.hits in Colors && s.onCanvas && s.color == Colors[s.hits] && k <= s.hits
    ensures HitTimes(s, k).hits == s.hits - k
    ensures HitTimes(s, k).onCanvas <==> k < s.hits
    ensures k < s.hits ==> HitTimes(s, k).color == Colors[s.hits - k]
    decreases k
  {
    if k > 0 {
      var t := HitOnce(s);
      if t.hits == 0 {
        assert k == 1;
        assert HitTimes(t, 0) == t;
      } else {
        HitTimesFrom(t, k - 1);
      }
    }
  }

  // ---------------------------------------------------------------------------
  // The objects

  class Ball {
    var pos: Rect
    var direction: seq<int>
    /** `None` is the source's `speed = None`: the ball has stopped for good. */
    var speed: Option<int>
    /** How often this ball has played the bounce cue. */
    var bounces: nat

    ghost predicate Valid()
      reads this
    {
      && IsDirection(direction)
      && pos.right - pos.left == 2 * BallRadius
      && pos.bottom - pos.top == 2 * BallRadius
      && (speed.Some? ==> speed.value > 0)
    }

    /** A ball centred on `(x, y)`, heading up and to the right. */
    constructor (x: int, y: int)
      ensures Valid()
      ensures pos == Rect(x - BallRadius, y - BallRadius, x + BallRadius, y + BallRadius)
      ensures direction == [1, -1] && speed == Some(BallSpeed) && bounces == 0
    {
      pos := Rect(x - BallRadius, y - BallRadius, x + BallRadius, y + BallRadius);
      direction := [1, -1];
      speed := Some(BallSpeed);
      bounces := 0;
    }

    /** `GameObject.move`. */
    method Move(dx: int, dy: int)
      requires Valid()
      modifies this
      ensures Valid()
      ensures pos == Translate(old(pos), dx, dy)
      ensures direction == old(direction) && speed == old(speed) && bounces == old(bounces)
    {
      pos := Translate(pos, dx, dy);
    }

    /** `Ball.update`: reflect off the side walls and the ceiling, then advance
        by `direction * speed`. */
    method Update(width: int)
      requires Valid() && speed.Some?
      modifies this
      ensures Valid() && speed == old(speed)
      ensures direction == WallBounce(old(pos), old(direction), width)
      ensures pos == Translate(old(pos), direction[0] * speed.value, direction[1] * speed.value)
      ensures bounces == old(bounces) + WallCues(old(pos), width)
    {
      if pos.left <= 0 || pos.right >= width {
        direction := direction[0 := direction[0] * -1];
        bounces := bounces + 1;
      }
      if pos.top <= 0 {
        direction := direction[1 := direction[1] * -1];
        bounces := bounces + 1;
      }
      var x := direction[0] * speed.value;
      var y := direction[1] * speed.value;
      Move(x, y);
    }

    /** `Ball.collide`: deflect according to the overlapping objects, then hit the
        first brick among them, if any, and report whether there was one. */
    method Collide(objects: seq<Item>) returns (hitBrick: bool)
      requires Valid()
      requires forall i :: 0 <= i < |objects| && objects[i].BrickItem? ==>
                 objects[i].brick.Valid() && CanHit(objects[i].brick.State())
      modifies this, FirstBrickSet(objects)
      ensures Valid() && pos == old(pos) && speed == old(speed)
      ensures direction == Deflect(pos, old(direction), |objects|, old(FirstSpan(objects)))
      ensures hitBrick <==> FirstBrick(objects).Some?
      ensures forall b :: b in FirstBrickSet(objects) ==>
                b.Valid() && b.State() == HitOnce(old(b.State())) && b.pos == old(b.pos)
      ensures bounces == old(bounces) + (if hitBrick then 1 else 0)
    {
      TurnAway(objects);
      hitBrick := HitFirstBrick(objects);
    }

    /** The first half of `Ball.collide`: the new direction. */
    method TurnAway(objects: seq<Item>)
      requires Valid()
      modifies this`direction
      ensures Valid()
      ensures direction == Deflect(pos, old(direction), |objects|, FirstSpan(objects))
    {
      var x2 := pos.left + pos.right;
      if |objects| > 1 {
        direction := direction[1 := direction[1] * -1];
      } else if |objects| == 1 {
        var coords := ItemPos(objects[0]);
        if x2 > 2 * coords.right {
          direction := direction[0 := 1];
        } else if x2 < 2 * coords.left {
          direction := direction[0 := -1];
        } else {
          direction := direction[1 := direction[1] * -1];
        }
      }
    }

    /** The second half of `Ball.collide`: hit the first brick in list order and
        play the bounce sound, counted in `bounces`. */
    method HitFirstBrick(objects: seq<Item>) returns (hitBrick: bool)
      requires forall i :: 0 <= i < |objects| && objects[i].BrickItem? ==>
                 objects[i].brick.Valid() && CanHit(objects[i].brick.State())
      modifies this`bounces, FirstBrickSet(objects)
      ensures hitBrick <==> FirstBrick(objects).Some?
      ensures forall b :: b in FirstBrickSet(objects) ==>
                b.Valid() && b.State() == HitOnce(old(b.State())) && b.pos == old(b.pos)
      ensures bounces == old(bounces) + (if hitBrick then 1 else 0)
    {
      var i := 0;
      while i < |objects|
        invariant 0 <= i <= |objects|
        invariant forall j :: 0 <= j < i ==> !objects[j].BrickItem?
        invariant unchanged(this) && unchanged(FirstBrickSet(objects))
      {
        if objects[i].BrickItem? {
          assert FirstBrickSet(objects) == {objects[i].brick};
          objects[i].brick.Hit();
          bounces := bounces + 1;
          return true;
        }
        i := i + 1;
      }
      return false;
    }
  }

  class Paddle {
    var pos: Rect
    /** The ball carried before launch, moved along with the paddle. */
    var ball: Ball?

    /** A paddle centred on `(x, y)` carrying nothing. */
    constructor (x: int, y: int)
      ensures pos == Rect(x - PaddleWidth / 2, y - PaddleHeight / 2, x + PaddleWidth / 2, y + PaddleHeight / 2)
      ensures ball == null
    {
      pos := Rect(x - PaddleWidth / 2, y - PaddleHeight / 2, x + PaddleWidth / 2, y + PaddleHeight / 2);
      ball := null;
    }

    /** `Paddle.set_ball`. */
    method SetBall(b: Ball?)
      modifies this
      ensures ball == b && pos == old(pos)
    {
      ball := b;
    }

    /** `Paddle.move`: a horizontal move that is made only if the paddle stays
        inside `[0, width]`; a carried ball moves by the same offset. */
    method Move(offset: int, width: int)
      requires ball != null ==> ball.Valid()
      modifies this, if ball != null then {ball} else {}
      ensures ball == old(ball)
      ensures pos == PaddleMove(old(pos), offset, width)
      ensures ball != null ==> ball.Valid() && ball.pos == Translate(old(ball.pos), pos.left - old(pos.left), 0)
      ensures ball != null ==> ball.direction == old(ball.direction) && ball.speed == old(ball.speed)
                               && ball.bounces == old(ball.bounces)
    {
      if pos.left + offset >= 0 && pos.right + offset <= width {
        pos := Translate(pos, offset, 0);
        if ball != null {
          ball.Move(offset, 0);
        }
      }
    }
  }

  class Brick {
    var pos: Rect
    var hits: int
    var color: string
    var onCanvas: bool

    function State(): BrickState
      reads this
    {
      BrickState(hits, color, onCanvas)
    }

    /** The shape is on the canvas exactly while hits remain. */
    ghost predicate Valid()
      reads this
    {
      hits >= 0 && (onCanvas <==> hits > 0)
    }

    /** `Brick(canvas, x + 37.5, y, hits, color)`; since the centre `x + 37.5` is not
        an integer, the model takes the left edge `x`, which is. */
    constructor (x: int, y: int, hits: int, color: string)
      ensures pos == Rect(x, y - BrickHeight / 2, x + BrickWidth, y + BrickHeight / 2)
      ensures State() == BrickState(hits, color, true)
    {
      pos := Rect(x, y - BrickHeight / 2, x + BrickWidth, y + BrickHeight / 2);
      this.hits := hits;
      this.color := color;
      onCanvas := true;
    }

    /** `Brick.hit`. */
    method Hit()
      requires Valid() && CanHit(State())
      modifies this
      ensures Valid() && pos == old(pos)
      ensures State() == HitOnce(old(State()))
    {
      hits := hits - 1;
      if hits == 0 {
        onCanvas := false;
      } else {
        color := Colors[hits];
      }
    }
  }

  // ---------------------------------------------------------------------------
  // What `canvas.find_overlapping` hands to `Ball.collide`

  /** An entry of `Game.items`: the object behind a canvas item id. */
  datatype Item = PaddleItem(paddle: Paddle) | BrickItem(brick: Brick)

  function ItemFrame(o: Item): set<object>
  {
    if o.PaddleItem? then {o.paddle} else {o.brick}
  }

  /** `game_object.get_position()`. */
  function ItemPos(o: Item): Rect
    reads ItemFrame(o)
  {
    if o.PaddleItem? then o.paddle.pos else o.brick.pos
  }

  /** The span of the first overlapping object (any value when there is none). */
  function FirstSpan(objects: seq<Item>): Rect
    reads if |objects| > 0 then ItemFrame(objects[0]) else {}
  {
    if |objects| > 0 then ItemPos(objects[0]) else Rect(0, 0, 0, 0)
  }

  /** The index of the first brick in list order, if any. */
  function FirstBrick(objects: seq<Item>): (r: Option<nat>)
    ensures r.Some? ==> r.value < |objects| && objects[r.value].BrickItem?
    ensures r.Some? ==> forall j :: 0 <= j < r.value ==> !objects[j].BrickItem?
    ensures r.None? ==> forall o :: o in objects ==> !o.BrickItem?
  {
    if objects == [] then None
    else if objects[0].BrickItem? then Some(0)
    else match FirstBrick(objects[1..])
         case None => None
         case Some(i) => Some(i + 1)
  }

  /** The brick `Ball.collide` hits, as a frame. */
  function FirstBrickSet(objects: seq<Item>): set<Brick>
  {
    match FirstBrick(objects)
    case None => {}
    case Some(i) => {objects[i].brick}
  }

  /** `[self.items[x] for x in items if x in self.items]`. */
  function Lookup(items: map<int, Item>, ids: seq<int>): (objects: seq<Item>)
    ensures |objects| <= |ids|
    ensures ids != [] && ids[0] in items ==> objects != [] && objects[0] == items[ids[0]]
  {
    if ids == [] then []
    else (if ids[0] in items then [items[ids[0]]] else []) + Lookup(items, ids[1..])
  }

  /** `Lookup` keeps the order of the ids: looking up two runs of ids one after
      the other gives the two object lists one after the other. */
  lemma {:induction false} LookupAppend(items: map<int, Item>, a: seq<int>, b: seq<int>)
    ensures Lookup(items, a + b) == Lookup(items, a) + Lookup(items, b)
    decreases |a|
  {
    if a != [] {
      assert (a + b)[1..] == a[1..] + b;
      LookupAppend(items, a[1..], b);
    } else {
      assert a + b == b;
    }
  }

  /** The positions of the ids that name an entry of the table. */
  function Known(items: map<int, Item>, ids: seq<int>): set<nat>
  {
    set i: nat | i < |ids| && ids[i] in items
  }

  /** Every id found in the table contributes one object, so `Ball.collide`
      counts exactly the known ids. */
  lemma {:induction false} LookupCount(items: map<int, Item>, ids: seq<int>)
    ensures |Lookup(items, ids)| == |Known(items, ids)|
    decreases |ids|
  {
    if ids != [] {
      var init, x := ids[..|ids| - 1], ids[|ids| - 1];
      assert ids == init + [x];
      LookupAppend(items, init, [x]);
      LookupCount(items, init);
      assert [x][1..] == [];
      assert Known(items, ids) == Known(items, init) + (if x in items then {|init|} else {});
    } else {
      assert Known(items, ids) == {};
    }
  }

  /** The entry of a known id sits in the list at its rank among the known ids:
      after the objects of the ids before it. */
  lemma LookupRank(items: map<int, Item>, ids: seq<int>, i: nat)
    requires i < |ids| && ids[i] in items
    ensures |Lookup(items, ids[..i])| < |Lookup(items, ids)|
    ensures Lookup(items, ids)[|Lookup(items, ids[..i])|] == items[ids[i]]
  {
    assert ids == ids[..i] + ids[i..];
    LookupAppend(items, ids[..i], ids[i..]);
  }

  /** Every object `Lookup` returns is the entry of one of the given ids. */
  lemma {:induction false} LookupSource(items: map<int, Item>, ids: seq<int>, i: nat) returns (x: int)
    requires i < |Lookup(items, ids)|
    ensures x in ids && x in items && items[x] == Lookup(items, ids)[i]
  {
    var rest := Lookup(items, ids[1..]);
    if ids[0] in items {
      assert Lookup(items, ids) == [items[ids[0]]] + rest;
      if i == 0 {
        x := ids[0];
      } else {
        x := LookupSource(items, ids[1..], i - 1);
        assert x in ids[1..];
      }
    } else {
      assert Lookup(items, ids) == rest;
      x := LookupSource(items, ids[1..], i);
      assert x in ids[1..];
    }
  }

  /** `Ball.collide` reports a brick exactly when one of the overlapping ids is a brick's. */
  lemma {:induction false} LookupFindsBrick(items: map<int, Item>, ids: seq<int>)
    ensures FirstBrick(Lookup(items, ids)).Some?
            <==> exists i :: 0 <= i < |ids| && ids[i] in items && items[ids[i]].BrickItem?
  {
    if ids != [] {
      LookupFindsBrick(items, ids[1..]);
      var rest := Lookup(items, ids[1..]);
      if ids[0] in items && items[ids[0]].BrickItem? {
        assert Lookup(items, ids)[0] == items[ids[0]];
      } else {
        if ids[0] in items {
          assert Lookup(items, ids) == [items[ids[0]]] + rest;
          assert Lookup(items, ids)[1..] == rest;
        } else {
          assert Lookup(items, ids) == rest;
        }
        if exists i :: 0 <= i < |ids| && ids[i] in items && items[ids[i]].BrickItem? {
          var i :| 0 <= i < |ids| && ids[i] in items && items[ids[i]].BrickItem?;
          assert ids[1..][i - 1] == ids[i];
        }
      }
    }
  }
}
