/**
 * The level of headers/level.hpp: the player plus an obstacle list, the
 * per-frame stepping of the moving obstacles, the path generation, and
 * LoadLevel's validation and assembly.
 *
 * The level file is a stream of numbers read with `>>`. Here it is the
 * sequence of those numbers, already parsed. Two choices are this model's
 * own: an integer field takes the floor of its number, and a read past
 * the end yields 0.
 */
module Levels {
  import opened Common
  import opened Bezier
  import opened Entities

  /** `{PLAYER_WIDTH / 2, PLAYER_HEIGHT / 2}` (headers/level.hpp:53-55). */
  const PlayerHalfSizes: Vec2 := Vec2(PlayerWidth / 2.0, PlayerHeight / 2.0)

  // ---------------------------------------------------------------------
  // The level file, read as numbers.
  // ---------------------------------------------------------------------

  /** The i-th number of the file, or 0 past its end. */
  function At(tokens: seq<real>, i: int): real
  {
    if 0 <= i < |tokens| then tokens[i] else 0.0
  }

  /** The i-th number of the file read into an `int`. */
  function AtInt(tokens: seq<real>, i: int): int
  {
    At(tokens, i).Floor
  }

  /** A loop bound `i < n` over an int runs max(n, 0) times. */
  function Runs(n: int): nat
  {
    if n > 0 then n else 0
  }

  datatype StaticSpec = StaticSpec(position: Vec2, halfSizes: Vec2)

  datatype MovingSpec = MovingSpec(halfSizes: Vec2, order: int, points: seq<Vec2>)

  datatype LevelSpec = LevelSpec(playerPosition: Vec2, statics: seq<StaticSpec>, movings: seq<MovingSpec>)

  /** The two `invalid_argument` exceptions LoadLevel throws (headers/level.hpp:82-99). */
  datatype LoadError = BadCurveOrder(order: int) | BadControlPointCount(order: int, count: int)

  /** A static obstacle: position, then half-sizes (headers/level.hpp:64-68). */
  function ReadStatic(tokens: seq<real>, at: int): StaticSpec
  {
    StaticSpec(Vec2(At(tokens, at), At(tokens, at + 1)), Vec2(At(tokens, at + 2), At(tokens, at + 3)))
  }

  /** `n` control points, two numbers each, from `at` on (headers/level.hpp:105-109). */
  function ReadPoints(tokens: seq<real>, at: int, n: nat): (points: seq<Vec2>)
    ensures |points| == n
    ensures forall j :: 0 <= j < n ==> points[j] == Vec2(At(tokens, at + 2 * j), At(tokens, at + 2 * j + 1))
  {
    if n == 0 then [] else ReadPoints(tokens, at, n - 1) + [Vec2(At(tokens, at + 2 * (n - 1)), At(tokens, at + 2 * (n - 1) + 1))]
  }

  /** `n` static obstacles from index 4 on, four numbers each. */
  function ReadStatics(tokens: seq<real>, n: nat): (statics: seq<StaticSpec>)
    ensures |statics| == n
    ensures forall k :: 0 <= k < n ==> statics[k] == ReadStatic(tokens, 4 + 4 * k)
  {
    if n == 0 then [] else ReadStatics(tokens, n - 1) + [ReadStatic(tokens, 4 + 4 * (n - 1))]
  }

  /**
   * One moving obstacle from `at` on (headers/level.hpp:73-116): half-sizes,
   * curve order, control-point count, a number of steps that is read and
   * not used, then the control points. A non-positive order is rejected
   * before the count is looked at, so the count check never takes a
   * remainder by zero; a count ValidateControlPointCount refuses is
   * rejected next. On success the result is the obstacle and where the
   * next one starts.
   */
  function ReadMoving(tokens: seq<real>, at: int): (r: Result<(MovingSpec, int), LoadError>)
    ensures AtInt(tokens, at + 2) <= 0 ==> r == Err(BadCurveOrder(AtInt(tokens, at + 2)))
    ensures AtInt(tokens, at + 2) > 0 && !ValidateControlPointCount(AtInt(tokens, at + 2), AtInt(tokens, at + 3)) ==>
      r == Err(BadControlPointCount(AtInt(tokens, at + 2), AtInt(tokens, at + 3)))
    ensures r.Ok? ==>
      var m := r.value.0;
      m.order == AtInt(tokens, at + 2) > 0 && |m.points| == AtInt(tokens, at + 3)
      && ValidateControlPointCount(m.order, |m.points|) && |m.points| >= 2
      && r.value.1 == at + 5 + 2 * |m.points|
  {
    var order := AtInt(tokens, at + 2);
    var count := AtInt(tokens, at + 3);
    if order <= 0 then Err(BadCurveOrder(order))
    else if !ValidateControlPointCount(order, count) then Err(BadControlPointCount(order, count))
    else Ok((MovingSpec(Vec2(At(tokens, at), At(tokens, at + 1)), order, ReadPoints(tokens, at + 5, count)),
             at + 5 + 2 * count))
  }

  /** Every moving obstacle of a loaded level passed both checks. */
  predicate ValidMoving(m: MovingSpec)
  {
    m.order > 0 && ValidateControlPointCount(m.order, |m.points|) && |m.points| >= 2
  }

  /**
   * The first `n` moving obstacles from `at` on, stopping at the first one
   * that is rejected; on success, also where the next one would start.
   */
  function ReadMovings(tokens: seq<real>, at: int, n: nat): (r: Result<(seq<MovingSpec>, int), LoadError>)
    ensures r.Ok? ==> |r.value.0| == n && forall k :: 0 <= k < n ==> ValidMoving(r.value.0[k])
  {
    if n == 0 then Ok(([], at))
    else
      match ReadMovings(tokens, at, n - 1)
      case Err(e) => Err(e)
      case Ok((ms, next)) =>
        match ReadMoving(tokens, next)
        case Err(e) => Err(e)
        case Ok((m, after)) => Ok((ms + [m], after))
  }

  /** One more obstacle read after the first `n`. */
  lemma ReadMovingsStep(tokens: seq<real>, at: int, n: nat)
    requires ReadMovings(tokens, at, n).Ok?
    ensures var next := ReadMovings(tokens, at, n).value.1;
      ReadMovings(tokens, at, n + 1)
      == match ReadMoving(tokens, next)
         case Err(e) => Err(e)
         case Ok((m, after)) => Ok((ReadMovings(tokens, at, n).value.0 + [m], after))
  {
  }

  /**
   * Reading further never changes the obstacles already read: when the
   * first `n` load, so do the first `k` of them, and they are the same.
   */
  lemma {:induction false} ReadMovingsPrefix(tokens: seq<real>, at: int, k: nat, n: nat)
    requires k <= n && ReadMovings(tokens, at, n).Ok?
    ensures ReadMovings(tokens, at, k).Ok?
    ensures ReadMovings(tokens, at, k).value.0 == ReadMovings(tokens, at, n).value.0[..k]
  {
    if k < n {
      var longer := ReadMovings(tokens, at, n).value.0;
      assert ReadMovings(tokens, at, n - 1).Ok?;
      ReadMovingsPrefix(tokens, at, k, n - 1);
      ReadMovingsStep(tokens, at, n - 1);
      var shorter := ReadMovings(tokens, at, n - 1).value.0;
      assert longer[..k] == shorter[..k];
    }
  }

  /** Once an obstacle is rejected, reading more never recovers. */
  lemma {:induction false} RejectionIsFinal(tokens: seq<real>, at: int, k: nat, n: nat)
    requires k <= n && ReadMovings(tokens, at, k).Err?
    ensures ReadMovings(tokens, at, n) == ReadMovings(tokens, at, k)
  {
    if k < n {
      RejectionIsFinal(tokens, at, k, n - 1);
    }
  }

  /**
   * The whole file (headers/level.hpp:51-117): the player's position, the
   * two counts, the static obstacles, then the moving ones.
   */
  function ParseLevel(tokens: seq<real>): (r: Result<LevelSpec, LoadError>)
    ensures r.Ok? ==> |r.value.statics| == Runs(AtInt(tokens, 2)) && |r.value.movings| == Runs(AtInt(tokens, 3))
    ensures r.Ok? ==> forall k :: 0 <= k < |r.value.movings| ==> ValidMoving(r.value.movings[k])
    ensures r.Ok? ==> forall k :: 0 <= k < |r.value.statics| ==> r.value.statics[k] == ReadStatic(tokens, 4 + 4 * k)
  {
    var ns := Runs(AtInt(tokens, 2));
    match ReadMovings(tokens, 4 + 4 * ns, Runs(AtInt(tokens, 3)))
    case Err(e) => Err(e)
    case Ok((ms, _)) =>
      Ok(LevelSpec(Vec2(At(tokens, 0), At(tokens, 1)), ReadStatics(tokens, ns), ms))
  }

  /** How ParseLevel's result is made of ReadMovings' result. */
  lemma ParsedMovings(tokens: seq<real>)
    ensures var read := ReadMovings(tokens, 4 + 4 * Runs(AtInt(tokens, 2)), Runs(AtInt(tokens, 3)));
      (ParseLevel(tokens).Ok? <==> read.Ok?)
      && (read.Ok? ==> ParseLevel(tokens).value.movings == read.value.0
                       && ParseLevel(tokens).value.playerPosition == Vec2(At(tokens, 0), At(tokens, 1)))
      && (read.Err? ==> ParseLevel(tokens).error == read.error)
  {
  }

  /**
   * A moving obstacle that is rejected aborts the whole load with its
   * error, whatever follows it in the file.
   */
  lemma RejectedObstacleAbortsLoad(tokens: seq<real>, k: nat)
    requires k < Runs(AtInt(tokens, 3))
    requires var at := 4 + 4 * Runs(AtInt(tokens, 2));
      ReadMovings(tokens, at, k).Ok? && ReadMoving(tokens, ReadMovings(tokens, at, k).value.1).Err?
    ensures var at := 4 + 4 * Runs(AtInt(tokens, 2));
      ParseLevel(tokens) == Err(ReadMoving(tokens, ReadMovings(tokens, at, k).value.1).error)
  {
    var at := 4 + 4 * Runs(AtInt(tokens, 2));
    RejectionIsFinal(tokens, at, k + 1, Runs(AtInt(tokens, 3)));
  }

  /** The largest control-point count, or 0 for none (the running maximum of headers/level.hpp:62,101-103). */
  function MaxCount(ms: seq<MovingSpec>): (r: nat)
    ensures forall k :: 0 <= k < |ms| ==> |ms[k].points| <= r
    ensures r == 0 || exists k :: 0 <= k < |ms| && |ms[k].points| == r
  {
    if |ms| == 0 then 0
    else
      var m := MaxCount(ms[..|ms| - 1]);
      var last := |ms[|ms| - 1].points|;
      if last > m then last else m
  }

  /** The running maximum after one more obstacle. */
  lemma MaxCountSnoc(ms: seq<MovingSpec>, m: MovingSpec)
    ensures MaxCount(ms + [m]) == if |m.points| > MaxCount(ms) then |m.points| else MaxCount(ms)
  {
    assert (ms + [m])[..|ms|] == ms;
  }

  /** With at least one valid moving obstacle the maximum is at least 2, so the table is regenerated. */
  lemma MaxCountOfValid(ms: seq<MovingSpec>)
    requires forall k :: 0 <= k < |ms| ==> ValidMoving(ms[k])
    ensures |ms| == 0 <==> MaxCount(ms) == 0
    ensures |ms| > 0 ==> MaxCount(ms) >= 2
  {
    if |ms| > 0 {
      assert |ms[0].points| <= MaxCount(ms);
    }
  }

  // ---------------------------------------------------------------------
  // The level object.
  // ---------------------------------------------------------------------

  /** Level (headers/level.hpp:9-40). */
  class Level {
    const player: Player
    const obstacles: seq<Obstacle>

    constructor (player: Player, obstacles: seq<Obstacle>)
      ensures this.player == player && this.obstacles == obstacles
    {
      this.player := player;
      this.obstacles := obstacles;
    }

    predicate Distinct()
    {
      Unshared(obstacles)
    }

    /** Every moving obstacle's index lies on its waypoint list, as MoveAlongPath needs. */
    predicate OnPaths()
      reads set o | o in obstacles, set o | o in obstacles :: o.path
    {
      forall i :: 0 <= i < |obstacles| && obstacles[i].kind == Moving ==>
        0 <= obstacles[i].progress < |obstacles[i].path.stepList|
    }

    /** The coefficient table has the row every moving obstacle's curve reads (headers/bezier.hpp:78). */
    predicate PathsFit(pascalsTriangle: seq<seq<int>>)
    {
      forall i :: 0 <= i < |obstacles| && obstacles[i].kind == Moving ==>
        var n := |obstacles[i].path.points|;
        1 <= n <= |pascalsTriangle| && n <= |pascalsTriangle[n - 1]|
    }

    /**
     * Level::Update (headers/level.hpp:13-19): every moving obstacle takes
     * one MoveAlongPath step; static obstacles keep their position, index
     * and direction.
     */
    method Update()
      requires Distinct() && OnPaths()
      modifies set o | o in obstacles
      ensures OnPaths()
      ensures forall i :: 0 <= i < |obstacles| && obstacles[i].kind == Moving ==>
        obstacles[i].State() == NextStep(old(obstacles[i].State()), |obstacles[i].path.stepList|)
        && (obstacles[i].progress != old(obstacles[i].progress) ==>
              obstacles[i].position == obstacles[i].path.stepList[obstacles[i].progress])
        && (obstacles[i].progress == old(obstacles[i].progress) ==> obstacles[i].position == old(obstacles[i].position))
      ensures forall i :: 0 <= i < |obstacles| && obstacles[i].kind == Static ==>
        obstacles[i].State() == old(obstacles[i].State()) && obstacles[i].position == old(obstacles[i].position)
    {
      var i := 0;
      while i < |obstacles|
        invariant 0 <= i <= |obstacles|
        invariant OnPaths()
        invariant forall j :: 0 <= j < i && obstacles[j].kind == Moving ==>
          obstacles[j].State() == NextStep(old(obstacles[j].State()), |obstacles[j].path.stepList|)
          && (obstacles[j].progress != old(obstacles[j].progress) ==>
                obstacles[j].position == obstacles[j].path.stepList[obstacles[j].progress])
          && (obstacles[j].progress == old(obstacles[j].progress) ==> obstacles[j].position == old(obstacles[j].position))
        invariant forall j :: 0 <= j < |obstacles| && (i <= j || obstacles[j].kind == Static) ==>
          obstacles[j].State() == old(obstacles[j].State()) && obstacles[j].position == old(obstacles[j].position)
      {
        var o := obstacles[i];
        if o.kind == Moving {
          o.MoveAlongPath();
        }
        i := i + 1;
      }
    }

    /**
     * Level::GeneratePaths (headers/level.hpp:33-39): the waypoint list of
     * every moving obstacle is rebuilt from its curve, 51 waypoints long;
     * static obstacles' lists are untouched.
     */
    method GeneratePaths(pascalsTriangle: seq<seq<int>>)
      requires Distinct() && PathsFit(pascalsTriangle)
      modifies set o | o in obstacles && o.kind == Moving :: o.path
      ensures forall i :: 0 <= i < |obstacles| && obstacles[i].kind == Moving ==>
        var path := obstacles[i].path;
        path.stepList == CurveSteps(path.points, pascalsTriangle[|path.points| - 1])
        && |path.stepList| == NumberOfSteps + 1
      ensures forall i :: 0 <= i < |obstacles| && obstacles[i].kind == Static ==>
        obstacles[i].path.stepList == old(obstacles[i].path.stepList)
    {
      var i := 0;
      while i < |obstacles|
        invariant 0 <= i <= |obstacles|
        invariant forall j :: 0 <= j < i && obstacles[j].kind == Moving ==>
          var path := obstacles[j].path;
          path.stepList == CurveSteps(path.points, pascalsTriangle[|path.points| - 1])
        invariant forall j :: 0 <= j < |obstacles| && (i <= j || obstacles[j].kind == Static) ==>
          obstacles[j].path.stepList == old(obstacles[j].path.stepList)
      {
        var o := obstacles[i];
        if o.kind == Moving {
          o.path.CalculateCurve(pascalsTriangle);
        }
        i := i + 1;
      }
    }
  }

  /**
   * No obstacle is listed twice and no two obstacles share a path: each
   * Obstacle holds its own BezierCurve by value.
   */
  predicate Unshared(obstacles: seq<Obstacle>)
  {
    forall i, j :: 0 <= i < j < |obstacles| ==> obstacles[i] != obstacles[j] && obstacles[i].path != obstacles[j].path
  }

  /** Appending an obstacle that shares nothing with the list keeps it unshared. */
  lemma UnsharedAppend(obstacles: seq<Obstacle>, o: Obstacle)
    requires Unshared(obstacles)
    requires forall k :: 0 <= k < |obstacles| ==> obstacles[k] != o && obstacles[k].path != o.path
    ensures Unshared(obstacles + [o])
  {
  }

  /** A static obstacle as LoadLevel creates it (headers/level.hpp:68). */
  predicate IsStatic(o: Obstacle, s: StaticSpec)
    reads o
  {
    o.kind == Static && o.position == s.position && o.halfSizes == s.halfSizes && o.progress == 0 && o.isMovingForward
  }

  /** The parts of IsMoving that never change after construction. */
  predicate Shaped(o: Obstacle, m: MovingSpec)
  {
    o.kind == Moving && o.halfSizes == m.halfSizes && o.path.points == m.points
  }

  /**
   * A moving obstacle as LoadLevel creates it (headers/level.hpp:105-116):
   * at the origin, at index 0 moving forward, holding its control points
   * and no waypoints yet.
   */
  predicate IsMoving(o: Obstacle, m: MovingSpec)
    reads o, o.path
  {
    Shaped(o, m) && o.position == Vec2(0.0, 0.0) && o.progress == 0 && o.isMovingForward && o.path.stepList == []
  }


  /** The level holds what the file describes: statics first, then movings, each in file order. */
  predicate Builds(level: Level, spec: LevelSpec)
    reads level.player, set o | o in level.obstacles, set o | o in level.obstacles :: o.path
  {
    level.player.position == spec.playerPosition && level.player.halfSizes == PlayerHalfSizes
    && level.player.velocity == Vec2(0.0, 0.0)
    && |level.obstacles| == |spec.statics| + |spec.movings|
    && (forall k :: 0 <= k < |spec.statics| ==> IsStatic(level.obstacles[k], spec.statics[k]))
    && (forall k :: 0 <= k < |spec.movings| ==> IsMoving(level.obstacles[|spec.statics| + k], spec.movings[k]))
  }

  /**
   * LoadLevel (headers/level.hpp:42-126), with the global coefficient
   * table passed in and handed back. A rejected obstacle ends the load
   * with its error and leaves the table alone. Otherwise the level is
   * what ParseLevel reads, and when there is a moving obstacle the table
   * is regenerated to the largest control-point count, so that every
   * moving obstacle's curve finds its row.
   */
  method LoadLevel(tokens: seq<real>, pascalsTriangle: seq<seq<int>>)
    returns (r: Result<Level, LoadError>, triangle: seq<seq<int>>)
    ensures ParseLevel(tokens).Err? ==> r == Err(ParseLevel(tokens).error) && triangle == pascalsTriangle
    ensures ParseLevel(tokens).Ok? ==>
      r.Ok? && fresh(r.value) && fresh(r.value.player) && Builds(r.value, ParseLevel(tokens).value)
      && r.value.Distinct() && r.value.PathsFit(triangle)
    ensures ParseLevel(tokens).Ok? && |ParseLevel(tokens).value.movings| == 0 ==> triangle == pascalsTriangle
    ensures ParseLevel(tokens).Ok? && |ParseLevel(tokens).value.movings| > 0 ==>
      |triangle| == MaxCount(ParseLevel(tokens).value.movings) + 1
      && forall i :: 0 <= i < |triangle| ==> IsPascalRow(triangle[i], i)
  {
    ParsedMovings(tokens);
    var player := new Player(Vec2(At(tokens, 0), At(tokens, 1)), PlayerHalfSizes);
    var staticCount := AtInt(tokens, 2);
    var movingCount := AtInt(tokens, 3);

    var statics := ReadStaticObstacles(tokens, staticCount);
    var at := 4 + 4 * Runs(staticCount);

    var movingsOrError := ReadMovingObstacles(tokens, at, movingCount, statics);
    if movingsOrError.Err? {
      return Err(movingsOrError.error), pascalsTriangle;
    }
    var (movings, highest) := movingsOrError.value;
    var level;
    level, triangle := AssembleLevel(tokens, player, statics, movings, at, highest, pascalsTriangle);
    r := Ok(level);
  }

  /**
   * The end of LoadLevel (headers/level.hpp:119-125): the coefficient table
   * is regenerated when some moving obstacle was read, and the level is
   * made of the player and the two obstacle lists.
   */
  method AssembleLevel(tokens: seq<real>, player: Player, statics: seq<Obstacle>, movings: seq<Obstacle>,
                       at: int, highest: nat, pascalsTriangle: seq<seq<int>>)
    returns (level: Level, triangle: seq<seq<int>>)
    requires player.position == Vec2(At(tokens, 0), At(tokens, 1)) && player.halfSizes == PlayerHalfSizes
    requires player.velocity == Vec2(0.0, 0.0)
    requires |statics| == Runs(AtInt(tokens, 2))
    requires forall k :: 0 <= k < |statics| ==> IsStatic(statics[k], ReadStatic(tokens, 4 + 4 * k))
    requires at == 4 + 4 * Runs(AtInt(tokens, 2)) && Built(tokens, at, Runs(AtInt(tokens, 3)), statics, movings, highest)
    ensures fresh(level) && level.player == player
    ensures ParseLevel(tokens).Ok? && Builds(level, ParseLevel(tokens).value)
    ensures level.Distinct() && level.PathsFit(triangle)
    ensures |ParseLevel(tokens).value.movings| == 0 ==> triangle == pascalsTriangle
    ensures |ParseLevel(tokens).value.movings| > 0 ==>
      |triangle| == MaxCount(ParseLevel(tokens).value.movings) + 1
      && forall i :: 0 <= i < |triangle| ==> IsPascalRow(triangle[i], i)
  {
    ParsedMovings(tokens);
    ghost var specs := ReadMovings(tokens, at, Runs(AtInt(tokens, 3))).value.0;
    assert specs == ParseLevel(tokens).value.movings;
    assert highest == MaxCount(specs) && |specs| == |movings|;
    MaxCountOfValid(specs);
    assert highest == 0 || highest >= 2;

    if highest > 0 {
      triangle := GeneratePascalsTriangle(highest);
      assert |triangle| == highest + 1;
    } else {
      triangle := pascalsTriangle;
    }

    level := new Level(player, statics + movings);
    LevelAssembled(tokens, level, statics, movings, at, highest, triangle);
  }

  /**
   * The level LoadLevel assembles (player, then the static obstacles, then
   * the moving ones) is what ParseLevel reads, shares no obstacle or path,
   * and finds every curve's row in the table.
   */
  lemma LevelAssembled(tokens: seq<real>, level: Level, statics: seq<Obstacle>, movings: seq<Obstacle>,
                       at: int, highest: nat, triangle: seq<seq<int>>)
    requires level.player.position == Vec2(At(tokens, 0), At(tokens, 1)) && level.player.halfSizes == PlayerHalfSizes
    requires level.player.velocity == Vec2(0.0, 0.0)
    requires level.obstacles == statics + movings
    requires |statics| == Runs(AtInt(tokens, 2))
    requires forall k :: 0 <= k < |statics| ==> IsStatic(statics[k], ReadStatic(tokens, 4 + 4 * k))
    requires at == 4 + 4 * Runs(AtInt(tokens, 2)) && Built(tokens, at, Runs(AtInt(tokens, 3)), statics, movings, highest)
    requires highest > 0 ==> |triangle| == highest + 1 && forall i :: 0 <= i < |triangle| ==> |triangle[i]| == i + 1
    ensures ParseLevel(tokens).Ok? && Builds(level, ParseLevel(tokens).value)
    ensures level.Distinct() && level.PathsFit(triangle)
  {
    var n := Runs(AtInt(tokens, 3));
    var specs := ReadMovings(tokens, at, n).value.0;
    forall k | 0 <= k < |movings|
      ensures 1 <= |movings[k].path.points| <= highest
    {
      AllMovingAt(movings, specs, k);
      assert ValidMoving(specs[k]);
    }
    AssembledPathsFit(level, statics, movings, highest, triangle);
    forall k | 0 <= k < |movings|
      ensures IsMoving(movings[k], specs[k])
    {
      AllMovingAt(movings, specs, k);
    }
    AssembledBuilds(tokens, level, statics, movings, at);
  }

  /** Every moving obstacle's control-point count has its row in the table. */
  lemma AssembledPathsFit(level: Level, statics: seq<Obstacle>, movings: seq<Obstacle>, highest: nat, triangle: seq<seq<int>>)
    requires level.obstacles == statics + movings
    requires forall k :: 0 <= k < |statics| ==> statics[k].kind == Static
    requires forall k :: 0 <= k < |movings| ==> 1 <= |movings[k].path.points| <= highest
    requires highest > 0 ==> |triangle| == highest + 1 && forall i :: 0 <= i < |triangle| ==> |triangle[i]| == i + 1
    ensures level.PathsFit(triangle)
  {
    forall i | 0 <= i < |level.obstacles| && level.obstacles[i].kind == Moving
      ensures var n := |level.obstacles[i].path.points|;
        1 <= n <= |triangle| && n <= |triangle[n - 1]|
    {
      assert i >= |statics| && level.obstacles[i] == movings[i - |statics|];
    }
  }

  /** The player and the two obstacle lists, as read, make the level ParseLevel describes. */
  lemma AssembledBuilds(tokens: seq<real>, level: Level, statics: seq<Obstacle>, movings: seq<Obstacle>, at: int)
    requires level.player.position == Vec2(At(tokens, 0), At(tokens, 1)) && level.player.halfSizes == PlayerHalfSizes
    requires level.player.velocity == Vec2(0.0, 0.0)
    requires level.obstacles == statics + movings
    requires |statics| == Runs(AtInt(tokens, 2))
    requires forall k :: 0 <= k < |statics| ==> IsStatic(statics[k], ReadStatic(tokens, 4 + 4 * k))
    requires at == 4 + 4 * Runs(AtInt(tokens, 2))
    requires ReadMovings(tokens, at, Runs(AtInt(tokens, 3))).Ok?
    requires var specs := ReadMovings(tokens, at, Runs(AtInt(tokens, 3))).value.0;
      |movings| == |specs| && forall k :: 0 <= k < |movings| ==> IsMoving(movings[k], specs[k])
    ensures ParseLevel(tokens).Ok? && Builds(level, ParseLevel(tokens).value)
  {
    ParsedMovings(tokens);
    var spec := ParseLevel(tokens).value;
    StaticsPrefix(level.obstacles, statics, movings, spec.statics);
    MovingsSuffix(level.obstacles, statics, movings, spec.movings);
  }

  /** The static obstacles keep their places at the front of the level's list. */
  lemma StaticsPrefix(obstacles: seq<Obstacle>, statics: seq<Obstacle>, movings: seq<Obstacle>, specs: seq<StaticSpec>)
    requires obstacles == statics + movings && |statics| == |specs|
    requires forall k :: 0 <= k < |statics| ==> IsStatic(statics[k], specs[k])
    ensures forall k :: 0 <= k < |specs| ==> IsStatic(obstacles[k], specs[k])
  {
    forall k | 0 <= k < |specs|
      ensures IsStatic(obstacles[k], specs[k])
    {
      assert obstacles[k] == statics[k];
    }
  }

  /** The moving obstacles follow the static ones, in order. */
  lemma MovingsSuffix(obstacles: seq<Obstacle>, statics: seq<Obstacle>, movings: seq<Obstacle>, specs: seq<MovingSpec>)
    requires obstacles == statics + movings && |movings| == |specs|
    requires forall k :: 0 <= k < |movings| ==> IsMoving(movings[k], specs[k])
    ensures forall k :: 0 <= k < |specs| ==> IsMoving(obstacles[|statics| + k], specs[k])
  {
    forall k | 0 <= k < |specs|
      ensures IsMoving(obstacles[|statics| + k], specs[k])
    {
      assert obstacles[|statics| + k] == movings[k];
    }
  }

  /** The static-obstacle loop of LoadLevel (headers/level.hpp:63-70). */
  method ReadStaticObstacles(tokens: seq<real>, count: int) returns (statics: seq<Obstacle>)
    ensures |statics| == Runs(count)
    ensures forall k :: 0 <= k < |statics| ==> fresh(statics[k]) && fresh(statics[k].path)
    ensures forall k :: 0 <= k < |statics| ==> IsStatic(statics[k], ReadStatic(tokens, 4 + 4 * k))
    ensures Unshared(statics)
  {
    statics := [];
    var i := 0;
    while i < count
      invariant 0 <= i <= Runs(count) && |statics| == i
      invariant forall k :: 0 <= k < i ==> fresh(statics[k]) && fresh(statics[k].path)
      invariant forall k :: 0 <= k < i ==> IsStatic(statics[k], ReadStatic(tokens, 4 + 4 * k))
      invariant Unshared(statics)
    {
      var at := 4 + 4 * i;
      var oPosition := Vec2(At(tokens, at), At(tokens, at + 1));
      var oHalfSizes := Vec2(At(tokens, at + 2), At(tokens, at + 3));
      var path := new BezierCurve([]);
      var o := new Obstacle(Static, oPosition, oHalfSizes, path);
      UnsharedAppend(statics, o);
      statics := statics + [o];
      i := i + 1;
    }
  }

  /**
   * The first `i` moving obstacles have been read and built: each is as
   * IsMoving describes its entry of ReadMovings, none is shared, and
   * `highest` is the largest control-point count so far.
   */
  predicate Built(tokens: seq<real>, at: int, i: nat, statics: seq<Obstacle>, movings: seq<Obstacle>, highest: nat)
    reads set o | o in movings, set o | o in movings :: o.path
  {
    var read := ReadMovings(tokens, at, i);
    read.Ok? && |movings| == i && highest == MaxCount(read.value.0) && Unshared(statics + movings)
    && AllMoving(movings, read.value.0)
  }

  /** Each obstacle of `movings` is as IsMoving describes the matching entry of `specs`. */
  predicate AllMoving(movings: seq<Obstacle>, specs: seq<MovingSpec>)
    reads set o | o in movings, set o | o in movings :: o.path
    decreases |movings|
  {
    |movings| == |specs|
    && (|movings| > 0 ==>
          AllMoving(movings[..|movings| - 1], specs[..|specs| - 1]) && IsMoving(movings[|movings| - 1], specs[|specs| - 1]))
  }

  lemma {:induction false} AllMovingAt(movings: seq<Obstacle>, specs: seq<MovingSpec>, k: nat)
    requires AllMoving(movings, specs) && k < |movings|
    ensures IsMoving(movings[k], specs[k])
  {
    if k < |movings| - 1 {
      AllMovingAt(movings[..|movings| - 1], specs[..|specs| - 1], k);
    }
  }

  lemma AllMovingAppend(movings: seq<Obstacle>, specs: seq<MovingSpec>, o: Obstacle, m: MovingSpec)
    requires AllMoving(movings, specs) && IsMoving(o, m)
    ensures AllMoving(movings + [o], specs + [m])
  {
    assert (movings + [o])[..|movings|] == movings;
    assert (specs + [m])[..|specs|] == specs;
  }

  /**
   * The moving-obstacle loop of LoadLevel (headers/level.hpp:72-117): each
   * obstacle is checked and built as ReadMoving describes, and the
   * largest control-point count is tracked. The first rejected obstacle
   * ends the loop with its error.
   */
  method ReadMovingObstacles(tokens: seq<real>, at: int, count: int, statics: seq<Obstacle>)
    returns (r: Result<(seq<Obstacle>, nat), LoadError>)
    requires Unshared(statics)
    ensures ReadMovings(tokens, at, Runs(count)).Err? ==> r == Err(ReadMovings(tokens, at, Runs(count)).error)
    ensures ReadMovings(tokens, at, Runs(count)).Ok? ==> r.Ok?
    ensures r.Ok? ==> Built(tokens, at, Runs(count), statics, r.value.0, r.value.1)
  {
    assert statics + [] == statics;
    var movings: seq<Obstacle> := [];
    var highest := 0;
    var next := at;
    var i := 0;
    while i < count
      invariant 0 <= i <= Runs(count)
      invariant Built(tokens, at, i, statics, movings, highest) && ReadMovings(tokens, at, i).value.1 == next
    {
      var more := ReadNextMovingObstacle(tokens, at, Runs(count), i, statics, movings, next, highest);
      if more.Err? {
        return Err(more.error);
      }
      movings, next, highest := movings + [more.value.0], more.value.1, more.value.2;
      i := i + 1;
    }
    r := Ok((movings, highest));
  }

  /**
   * One pass of the moving-obstacle loop, with its bookkeeping: the next
   * obstacle is read; a rejection is the error of the first `n` reads;
   * on success it is returned with where the one after
   * it starts and the running maximum updated (headers/level.hpp:101-103,116).
   */
  method ReadNextMovingObstacle(tokens: seq<real>, at: int, n: nat, i: nat, statics: seq<Obstacle>, movings: seq<Obstacle>,
                                next: int, highest: nat)
    returns (r: Result<(Obstacle, int, nat), LoadError>)
    requires i < n && Built(tokens, at, i, statics, movings, highest) && ReadMovings(tokens, at, i).value.1 == next
    ensures r.Err? ==> ReadMovings(tokens, at, n) == Err(r.error)
    ensures r.Ok? ==> Built(tokens, at, i + 1, statics, movings + [r.value.0], r.value.2)
                      && ReadMovings(tokens, at, i + 1).value.1 == r.value.1
  {
    var one := ReadMovingObstacle(tokens, next);
    if one.Err? {
      ReadMovingsStep(tokens, at, i);
      RejectionIsFinal(tokens, at, i + 1, n);
      return Err(one.error);
    }
    var o := one.value;
    BuiltAppend(tokens, at, i, statics, movings, highest, o);
    var highest' := if |o.path.points| > highest then |o.path.points| else highest;
    r := Ok((o, ReadMoving(tokens, next).value.1, highest'));
  }

  /** Appending the next obstacle as ReadMoving describes it keeps Built. */
  lemma BuiltAppend(tokens: seq<real>, at: int, i: nat, statics: seq<Obstacle>, movings: seq<Obstacle>, highest: nat, o: Obstacle)
    requires Built(tokens, at, i, statics, movings, highest)
    requires ReadMoving(tokens, ReadMovings(tokens, at, i).value.1).Ok?
    requires IsMoving(o, ReadMoving(tokens, ReadMovings(tokens, at, i).value.1).value.0)
    requires forall k :: 0 <= k < |statics + movings| ==> (statics + movings)[k] != o && (statics + movings)[k].path != o.path
    ensures Built(tokens, at, i + 1, statics, movings + [o], if |o.path.points| > highest then |o.path.points| else highest)
    ensures ReadMovings(tokens, at, i + 1).value.1 == ReadMoving(tokens, ReadMovings(tokens, at, i).value.1).value.1
  {
    ReadMovingsStep(tokens, at, i);
    MaxCountSnoc(ReadMovings(tokens, at, i).value.0, ReadMoving(tokens, ReadMovings(tokens, at, i).value.1).value.0);
    UnsharedAppend(statics + movings, o);
    assert statics + movings + [o] == statics + (movings + [o]);
    AllMovingAppend(movings, ReadMovings(tokens, at, i).value.0, o, ReadMoving(tokens, ReadMovings(tokens, at, i).value.1).value.0);
  }

  /**
   * One pass of the moving-obstacle loop (headers/level.hpp:73-116): the
   * two checks, in order, then the control points and the new obstacle.
   */
  method ReadMovingObstacle(tokens: seq<real>, at: int) returns (r: Result<Obstacle, LoadError>)
    ensures ReadMoving(tokens, at).Err? ==> r == Err(ReadMoving(tokens, at).error)
    ensures ReadMoving(tokens, at).Ok? ==>
      r.Ok? && fresh(r.value) && fresh(r.value.path) && IsMoving(r.value, ReadMoving(tokens, at).value.0)
  {
    var oHalfSizes := Vec2(At(tokens, at), At(tokens, at + 1));
    var oCurveOrder := AtInt(tokens, at + 2);
    var oControlPointCount := AtInt(tokens, at + 3);

    if oCurveOrder <= 0 {
      return Err(BadCurveOrder(oCurveOrder));
    }
    if !ValidateControlPointCount(oCurveOrder, oControlPointCount) {
      return Err(BadControlPointCount(oCurveOrder, oControlPointCount));
    }

    var points := ReadControlPoints(tokens, at + 5, oControlPointCount);
    var path := new BezierCurve(points);
    var o := new Obstacle(Moving, Vec2(0.0, 0.0), oHalfSizes, path);
    r := Ok(o);
  }

  /** The control-point loop of LoadLevel (headers/level.hpp:105-109). */
  method ReadControlPoints(tokens: seq<real>, at: int, count: nat) returns (points: seq<Vec2>)
    ensures points == ReadPoints(tokens, at, count)
  {
    points := [];
    var j := 0;
    while j < count
      invariant 0 <= j <= count
      invariant points == ReadPoints(tokens, at, j)
    {
      points := points + [Vec2(At(tokens, at + 2 * j), At(tokens, at + 2 * j + 1))];
      j := j + 1;
    }
  }
}
