/**
 One frame of the Greed simulation as a function on values: the robot moves,
 then every rock and then every gem falls, is tested against the robot and,
 on a hit, scores and is replaced by a fresh object on row 0.
 The Director class is proved to compute exactly Step.
 */
module Frame {
  import opened Casting

  /**
   Actor.MoveNext: the new position from the position, the velocity and the
   field's width and height. Its body is not part of this model, so every
   total function of that shape is allowed.
   */
  type MoveFn = (Point, Point, int, int) -> Point

  /** The field a frame runs in: the grid quantum, MoveNext and the wrap bounds. */
  datatype Env = Env(cellSize: int, move: MoveFn, maxX: int, maxY: int)

  /** The draws random.Next makes for one spawn: a column and three colour channels. */
  datatype SpawnDraw = SpawnDraw(col: int, r: int, g: int, b: int)

  /**
   The draws made while one falling object is visited: its fall speed in cells,
   and the spawn draws that are used only when it hits the robot.
   */
  datatype FallDraw = FallDraw(fall: int, spawn: SpawnDraw)

  /** Exclusive upper bound of the spawn column drawn on a respawn: random.Next(1, 60). */
  const SPAWN_COLS := 60

  /** Font size of a respawned object. */
  const RESPAWN_FONT_SIZE := 15

  predicate ValidChannel(c: int)
  {
    0 <= c < 256
  }

  predicate ValidColor(c: Color)
  {
    ValidChannel(c.r) && ValidChannel(c.g) && ValidChannel(c.b)
  }

  /** What random.Next(1, cols) and three random.Next(0, 256) can return. */
  predicate ValidSpawn(d: SpawnDraw, cols: int)
  {
    1 <= d.col < cols && ValidColor(Color(d.r, d.g, d.b))
  }

  /** What random.Next(0, 3) and the respawn draws can return. */
  predicate ValidFall(d: FallDraw)
  {
    0 <= d.fall < 3 && ValidSpawn(d.spawn, SPAWN_COLS)
  }

  predicate ValidFalls(ds: seq<FallDraw>)
  {
    forall i :: 0 <= i < |ds| ==> ValidFall(ds[i])
  }

  /** Pixel x-coordinate of grid column c. */
  function Column(c: int, cellSize: int): int
  {
    c * cellSize
  }

  /** p is on row 0, on a grid column in [1, cols). */
  predicate OnSpawnRow(p: Point, cellSize: int, cols: int)
  {
    p.y == 0 && exists c :: 1 <= c < cols && p.x == Column(c, cellSize)
  }

  function Glyph(k: Kind): string
  {
    match k
    case Rock => "0"
    case Gem => "*"
  }

  function Reward(k: Kind): int
  {
    match k
    case Rock => -5
    case Gem => 10
  }

  /** What every replacement object of group k looks like. */
  predicate IsRespawn(k: Kind, o: FallingObject, cellSize: int)
  {
    && o.text == Glyph(k)
    && o.point == Reward(k)
    && o.fontSize == RESPAWN_FONT_SIZE
    && ValidColor(o.color)
    && OnSpawnRow(o.position, cellSize, SPAWN_COLS)
    && o.velocity == DEFAULT_VELOCITY
  }

  /** The replacement built after a collision in group k. */
  function Respawn(k: Kind, d: SpawnDraw, cellSize: int): FallingObject
  {
    FallingObject(Glyph(k), RESPAWN_FONT_SIZE, Color(d.r, d.g, d.b),
                  Point(d.col, 0).Scale(cellSize), DEFAULT_VELOCITY, Reward(k))
  }

  lemma RespawnShape(k: Kind, d: SpawnDraw, cellSize: int)
    requires ValidSpawn(d, SPAWN_COLS)
    ensures IsRespawn(k, Respawn(k, d, cellSize), cellSize)
  {
    assert Respawn(k, d, cellSize).position.x == Column(d.col, cellSize);
  }

  /** SetVelocity to a straight-down fall of d.fall cells, then MoveNext. */
  function Fall(o: FallingObject, d: FallDraw, env: Env): (m: FallingObject)
    ensures m.velocity == Point(0, d.fall * env.cellSize)
    ensures 0 <= d.fall < 3 ==> m.velocity.y in {0, env.cellSize, 2 * env.cellSize}
    ensures m.position == env.move(o.position, m.velocity, env.maxX, env.maxY)
    ensures m == o.(velocity := m.velocity, position := m.position)
  {
    var v := Point(0, d.fall).Scale(env.cellSize);
    o.(velocity := v, position := env.move(o.position, v, env.maxX, env.maxY))
  }

  /** Every object of objs after its fall, in order. */
  function Moved(objs: seq<FallingObject>, draws: seq<FallDraw>, env: Env): (ms: seq<FallingObject>)
    requires |draws| == |objs|
    ensures |ms| == |objs|
  {
    seq(|objs|, i requires 0 <= i < |objs| => Fall(objs[i], draws[i], env))
  }

  /** The objects of ms that sit exactly on the robot's position, in order. */
  function Hits(ms: seq<FallingObject>, robot: Point): seq<FallingObject>
  {
    if ms == [] then []
    else (if ms[0].position == robot then [ms[0]] else []) + Hits(ms[1..], robot)
  }

  /** The objects of ms that do not, in order. */
  function Misses(ms: seq<FallingObject>, robot: Point): seq<FallingObject>
  {
    if ms == [] then []
    else (if ms[0].position == robot then [] else [ms[0]]) + Misses(ms[1..], robot)
  }

  function SumPoints(os: seq<FallingObject>): int
  {
    if os == [] then 0 else os[0].point + SumPoints(os[1..])
  }

  /** The Director's score and points fields and the banner text, as a pass goes along. */
  datatype Tally = Tally(score: int, points: int, banner: BannerText)

  /**
   The outcome of one pass over a group: the objects that stayed (moved, in
   their order), the replacements appended, and the tally.
   */
  datatype PassResult = PassResult(kept: seq<FallingObject>, spawned: seq<FallingObject>, tally: Tally)

  /** The tally after catching m: its point value is added to the score, which the banner shows bare. */
  function Credit(t: Tally, m: FallingObject): Tally
  {
    Tally(m.point + t.score, m.point, Bare(m.point + t.score))
  }

  /**
   One visit of the foreach over group k, after the visits that produced
   prev: o falls; if it lands on the robot its point value is added to the
   score, the banner shows the bare score and a replacement is appended,
   otherwise it stays in the group.
   */
  function PassStep(k: Kind, prev: PassResult, o: FallingObject, d: FallDraw, robot: Point, env: Env): PassResult
  {
    var m := Fall(o, d, env);
    if m.position == robot then
      PassResult(prev.kept, prev.spawned + [Respawn(k, d.spawn, env.cellSize)], Credit(prev.tally, m))
    else
      PassResult(prev.kept + [m], prev.spawned, prev.tally)
  }

  /**
   The foreach pass over the group objs from index i on, after the visits that
   produced acc. objs is the list fetched before the pass, so replacements are
   not visited.
   */
  function PassFrom(k: Kind, objs: seq<FallingObject>, draws: seq<FallDraw>, i: nat, robot: Point, env: Env, acc: PassResult): PassResult
    requires |draws| == |objs| && i <= |objs|
    decreases |objs| - i
  {
    if i == |objs| then acc
    else PassFrom(k, objs, draws, i + 1, robot, env, PassStep(k, acc, objs[i], draws[i], robot, env))
  }

  /** The whole foreach pass over group k, starting from tally t. */
  function Pass(k: Kind, objs: seq<FallingObject>, draws: seq<FallDraw>, robot: Point, env: Env, t: Tally): PassResult
    requires |draws| == |objs|
  {
    PassFrom(k, objs, draws, 0, robot, env, PassResult([], [], t))
  }

  /** Hits and Misses together are a permutation of ms. */
  lemma {:induction false} HitsAndMisses(ms: seq<FallingObject>, robot: Point)
    ensures multiset(Hits(ms, robot)) + multiset(Misses(ms, robot)) == multiset(ms)
    ensures |Hits(ms, robot)| + |Misses(ms, robot)| == |ms|
  {
    if ms != [] {
      var m, rest := ms[0], ms[1..];
      assert ms == [m] + rest;
      HitsAndMisses(rest, robot);
      HitsMissesCons(m, rest, robot);
      var h, mi := Hits(rest, robot), Misses(rest, robot);
      assert multiset(ms) == multiset{m} + multiset(rest);
      if m.position == robot {
        assert Hits(ms, robot) == [m] + h && Misses(ms, robot) == mi;
        assert multiset([m] + h) == multiset{m} + multiset(h);
      } else {
        assert Hits(ms, robot) == h && Misses(ms, robot) == [m] + mi;
        assert multiset([m] + mi) == multiset{m} + multiset(mi);
      }
    }
  }

  /** Every hit sits on the robot and no miss does. */
  lemma {:induction false} HitsOnRobot(ms: seq<FallingObject>, robot: Point)
    ensures forall o | o in Hits(ms, robot) :: o.position == robot
    ensures forall o | o in Misses(ms, robot) :: o.position != robot
  {
    if ms != [] {
      HitsOnRobot(ms[1..], robot);
      HitsMissesCons(ms[0], ms[1..], robot);
      assert ms == [ms[0]] + ms[1..];
    }
  }

  lemma {:induction false} SumPointsAppend(a: seq<FallingObject>, b: seq<FallingObject>)
    ensures SumPoints(a + b) == SumPoints(a) + SumPoints(b)
  {
    if a == [] {
      assert a + b == b;
    } else {
      assert (a + b)[1..] == a[1..] + b;
      SumPointsAppend(a[1..], b);
    }
  }

  /**
   Hits and Misses of a list that starts with m: m joins the hits exactly when
   it is on the robot, and then it is the first hit, adds its point value to
   their sum, and is the last hit when no other follows.
   */
  lemma HitsMissesCons(m: FallingObject, rest: seq<FallingObject>, robot: Point)
    ensures var h, hr := Hits([m] + rest, robot), Hits(rest, robot);
            && Misses([m] + rest, robot) == (if m.position == robot then [] else [m]) + Misses(rest, robot)
            && (m.position != robot ==> h == hr)
            && (m.position == robot ==>
                  && h == [m] + hr
                  && SumPoints(h) == m.point + SumPoints(hr)
                  && h[|h| - 1].point == (if hr == [] then m.point else hr[|hr| - 1].point))
  {
    assert ([m] + rest)[1..] == rest;
    if m.position == robot {
      var h, hr := Hits([m] + rest, robot), Hits(rest, robot);
      assert h == [m] + hr;
      assert h[1..] == hr;
    }
  }

  /** The moved objects from index i on: the first one, then the rest. */
  lemma MovedSuffix(objs: seq<FallingObject>, draws: seq<FallDraw>, i: nat, env: Env)
    requires |draws| == |objs| && i < |objs|
    ensures Moved(objs, draws, env)[i..] == [Fall(objs[i], draws[i], env)] + Moved(objs, draws, env)[i + 1..]
  {
  }

  /**
   One visit seen from the group's side: if the pass after visiting o keeps
   the misses of rest and spawns one object per hit of rest, then the pass
   from o on does the same for o's moved self followed by rest.
   */
  lemma GroupStep(k: Kind, acc: PassResult, o: FallingObject, d: FallDraw, robot: Point, env: Env,
                  rest: seq<FallingObject>, r: PassResult)
    requires var next := PassStep(k, acc, o, d, robot, env);
             && r.kept == next.kept + Misses(rest, robot)
             && |r.spawned| == |next.spawned| + |Hits(rest, robot)|
    ensures var ms := [Fall(o, d, env)] + rest;
            && r.kept == acc.kept + Misses(ms, robot)
            && |r.spawned| == |acc.spawned| + |Hits(ms, robot)|
  {
    var m, next := Fall(o, d, env), PassStep(k, acc, o, d, robot, env);
    HitsMissesCons(m, rest, robot);
    if m.position == robot {
      assert next.kept == acc.kept && |next.spawned| == |acc.spawned| + 1;
      assert Misses([m] + rest, robot) == Misses(rest, robot);
      assert |Hits([m] + rest, robot)| == 1 + |Hits(rest, robot)|;
    } else {
      assert next.kept == acc.kept + [m] && next.spawned == acc.spawned;
      assert Misses([m] + rest, robot) == [m] + Misses(rest, robot);
      assert Hits([m] + rest, robot) == Hits(rest, robot);
      assert (acc.kept + [m]) + Misses(rest, robot) == acc.kept + ([m] + Misses(rest, robot));
    }
  }

  /**
   One visit seen from the tally's side: if visiting the moved object m turns
   tally t into next, then the score, points and banner the pass reaches,
   stated against the hits of rest and next, hold against the hits of m
   followed by rest and t.
   */
  lemma TallyStep(m: FallingObject, rest: seq<FallingObject>, robot: Point, t: Tally, next: Tally, r: Tally)
    requires next == (if m.position == robot then Credit(t, m) else t)
    requires var hr := Hits(rest, robot);
             && r.score == next.score + SumPoints(hr)
             && r.points == (if hr == [] then next.points else hr[|hr| - 1].point)
             && r.banner == (if hr == [] then next.banner else Bare(r.score))
    ensures var hits := Hits([m] + rest, robot);
            && r.score == t.score + SumPoints(hits)
            && r.points == (if hits == [] then t.points else hits[|hits| - 1].point)
            && r.banner == (if hits == [] then t.banner else Bare(r.score))
  {
    HitsMissesCons(m, rest, robot);
    var hits, hr := Hits([m] + rest, robot), Hits(rest, robot);
    if m.position == robot {
      assert hits != [] && SumPoints(hits) == m.point + SumPoints(hr);
    } else {
      assert hits == hr;
    }
  }

  /**
   The objects the pass from index i keeps and appends, stated against the
   moved objects from i on: the survivors are the misses in order, and there
   is one replacement per hit.
   */
  lemma {:induction false} PassFromGroup(k: Kind, objs: seq<FallingObject>, draws: seq<FallDraw>, i: nat, robot: Point, env: Env, acc: PassResult)
    requires |draws| == |objs| && i <= |objs|
    ensures var r, ms := PassFrom(k, objs, draws, i, robot, env, acc), Moved(objs, draws, env)[i..];
            && r.kept == acc.kept + Misses(ms, robot)
            && |r.spawned| == |acc.spawned| + |Hits(ms, robot)|
    decreases |objs| - i
  {
    if i == |objs| {
      assert Moved(objs, draws, env)[i..] == [];
    } else {
      var next := PassStep(k, acc, objs[i], draws[i], robot, env);
      var r := PassFrom(k, objs, draws, i + 1, robot, env, next);
      assert PassFrom(k, objs, draws, i, robot, env, acc) == r;
      PassFromGroup(k, objs, draws, i + 1, robot, env, next);
      MovedSuffix(objs, draws, i, env);
      GroupStep(k, acc, objs[i], draws[i], robot, env, Moved(objs, draws, env)[i + 1..], r);
    }
  }

  /**
   The tally after the pass from index i: the score grows by the hits' point
   values, points is the last hit's value, and the banner shows the bare
   score after any hit.
   */
  lemma {:induction false} PassFromTally(k: Kind, objs: seq<FallingObject>, draws: seq<FallDraw>, i: nat, robot: Point, env: Env, acc: PassResult)
    requires |draws| == |objs| && i <= |objs|
    ensures var r, hits := PassFrom(k, objs, draws, i, robot, env, acc).tally, Hits(Moved(objs, draws, env)[i..], robot);
            && r.score == acc.tally.score + SumPoints(hits)
            && r.points == (if hits == [] then acc.tally.points else hits[|hits| - 1].point)
            && r.banner == (if hits == [] then acc.tally.banner else Bare(r.score))
    decreases |objs| - i
  {
    if i == |objs| {
      assert Moved(objs, draws, env)[i..] == [];
    } else {
      var next := PassStep(k, acc, objs[i], draws[i], robot, env);
      var r := PassFrom(k, objs, draws, i + 1, robot, env, next);
      assert PassFrom(k, objs, draws, i, robot, env, acc) == r;
      PassFromTally(k, objs, draws, i + 1, robot, env, next);
      MovedSuffix(objs, draws, i, env);
      TallyStep(Fall(objs[i], draws[i], env), Moved(objs, draws, env)[i + 1..], robot, acc.tally, next.tally, r.tally);
    }
  }

  /** The whole pass, stated against all moved objects. */
  lemma PassOutcome(k: Kind, objs: seq<FallingObject>, draws: seq<FallDraw>, robot: Point, env: Env, t: Tally)
    requires |draws| == |objs|
    ensures var p := Pass(k, objs, draws, robot, env, t);
            var hits := Hits(Moved(objs, draws, env), robot);
            && p.kept == Misses(Moved(objs, draws, env), robot)
            && |p.spawned| == |hits|
            && p.tally.score == t.score + SumPoints(hits)
            && p.tally.points == (if hits == [] then t.points else hits[|hits| - 1].point)
            && p.tally.banner == (if hits == [] then t.banner else Bare(p.tally.score))
  {
    PassFromGroup(k, objs, draws, 0, robot, env, PassResult([], [], t));
    PassFromTally(k, objs, draws, 0, robot, env, PassResult([], [], t));
    assert Moved(objs, draws, env)[0..] == Moved(objs, draws, env);
  }

  /** The replacements a pass from index i appends are well-formed respawns of group k. */
  lemma {:induction false} PassFromRespawns(k: Kind, objs: seq<FallingObject>, draws: seq<FallDraw>, i: nat, robot: Point, env: Env, acc: PassResult)
    requires |draws| == |objs| && i <= |objs| && ValidFalls(draws)
    requires forall o | o in acc.spawned :: IsRespawn(k, o, env.cellSize)
    ensures forall o | o in PassFrom(k, objs, draws, i, robot, env, acc).spawned :: IsRespawn(k, o, env.cellSize)
    decreases |objs| - i
  {
    if i < |objs| {
      RespawnShape(k, draws[i].spawn, env.cellSize);
      PassFromRespawns(k, objs, draws, i + 1, robot, env, PassStep(k, acc, objs[i], draws[i], robot, env));
    }
  }

  /** Every replacement a pass appends is a well-formed respawn of its group. */
  lemma PassRespawns(k: Kind, objs: seq<FallingObject>, draws: seq<FallDraw>, robot: Point, env: Env, t: Tally)
    requires |draws| == |objs| && ValidFalls(draws)
    ensures forall o | o in Pass(k, objs, draws, robot, env, t).spawned :: IsRespawn(k, o, env.cellSize)
  {
    PassFromRespawns(k, objs, draws, 0, robot, env, PassResult([], [], t));
  }

  /** A pass leaves its group with as many objects as it started with. */
  lemma PassKeepsSize(k: Kind, objs: seq<FallingObject>, draws: seq<FallDraw>, robot: Point, env: Env, t: Tally)
    requires |draws| == |objs|
    ensures var p := Pass(k, objs, draws, robot, env, t); |p.kept| + |p.spawned| == |objs|
  {
    PassOutcome(k, objs, draws, robot, env, t);
    HitsAndMisses(Moved(objs, draws, env), robot);
  }

  /** The state one DoUpdates reads and writes: the cast and the Director's score and points. */
  datatype World = World(banner: Banner, robot: Actor, rocks: seq<FallingObject>, gems: seq<FallingObject>,
                         score: int, points: int)

  /** The robot after its MoveNext, which happens before any object falls. */
  function MovedRobot(w: World, env: Env): Actor
  {
    w.robot.(position := env.move(w.robot.position, w.robot.velocity, env.maxX, env.maxY))
  }

  /** DoUpdates on values. */
  function Step(w: World, rockDraws: seq<FallDraw>, gemDraws: seq<FallDraw>, env: Env): World
    requires |rockDraws| == |w.rocks| && |gemDraws| == |w.gems|
  {
    var robot := MovedRobot(w, env);
    var rp := Pass(Rock, w.rocks, rockDraws, robot.position, env, Tally(w.score, w.points, Labelled(w.score)));
    var gp := Pass(Gem, w.gems, gemDraws, robot.position, env, rp.tally);
    World(w.banner.(text := gp.tally.banner), robot, rp.kept + rp.spawned, gp.kept + gp.spawned,
          gp.tally.score, gp.tally.points)
  }

  /** The rocks, or the gems, that the robot catches in this frame. */
  function FrameHits(w: World, k: Kind, draws: seq<FallDraw>, env: Env): seq<FallingObject>
    requires |draws| == |(if k == Rock then w.rocks else w.gems)|
  {
    Hits(Moved(if k == Rock then w.rocks else w.gems, draws, env), MovedRobot(w, env).position)
  }

  /** The rocks, or the gems, that the robot does not catch. */
  function FrameMisses(w: World, k: Kind, draws: seq<FallDraw>, env: Env): seq<FallingObject>
    requires |draws| == |(if k == Rock then w.rocks else w.gems)|
  {
    Misses(Moved(if k == Rock then w.rocks else w.gems, draws, env), MovedRobot(w, env).position)
  }

  /** DoUpdates keeps the number of rocks and the number of gems. */
  lemma StepKeepsGroupSizes(w: World, rockDraws: seq<FallDraw>, gemDraws: seq<FallDraw>, env: Env)
    requires |rockDraws| == |w.rocks| && |gemDraws| == |w.gems|
    ensures |Step(w, rockDraws, gemDraws, env).rocks| == |w.rocks|
    ensures |Step(w, rockDraws, gemDraws, env).gems| == |w.gems|
  {
    var robot := MovedRobot(w, env);
    var t0 := Tally(w.score, w.points, Labelled(w.score));
    PassKeepsSize(Rock, w.rocks, rockDraws, robot.position, env, t0);
    PassKeepsSize(Gem, w.gems, gemDraws, robot.position, env, Pass(Rock, w.rocks, rockDraws, robot.position, env, t0).tally);
  }

  /**
   The score after DoUpdates is the score before plus the point values of all
   caught rocks and gems; points holds the value of the last one caught.
   */
  lemma StepScore(w: World, rockDraws: seq<FallDraw>, gemDraws: seq<FallDraw>, env: Env)
    requires |rockDraws| == |w.rocks| && |gemDraws| == |w.gems|
    ensures var w' := Step(w, rockDraws, gemDraws, env);
            var hits := FrameHits(w, Rock, rockDraws, env) + FrameHits(w, Gem, gemDraws, env);
            && w'.score == w.score + SumPoints(hits)
            && w'.points == (if hits == [] then w.points else hits[|hits| - 1].point)
  {
    var robot := MovedRobot(w, env);
    var t0 := Tally(w.score, w.points, Labelled(w.score));
    var rp := Pass(Rock, w.rocks, rockDraws, robot.position, env, t0);
    PassOutcome(Rock, w.rocks, rockDraws, robot.position, env, t0);
    PassOutcome(Gem, w.gems, gemDraws, robot.position, env, rp.tally);
    SumPointsAppend(FrameHits(w, Rock, rockDraws, env), FrameHits(w, Gem, gemDraws, env));
  }

  /**
   The banner after DoUpdates reads "Score: " and the old score when nothing
   was caught, and the bare new score otherwise; its other fields are kept.
   */
  lemma StepBanner(w: World, rockDraws: seq<FallDraw>, gemDraws: seq<FallDraw>, env: Env)
    requires |rockDraws| == |w.rocks| && |gemDraws| == |w.gems|
    ensures var w' := Step(w, rockDraws, gemDraws, env);
            var caught := FrameHits(w, Rock, rockDraws, env) + FrameHits(w, Gem, gemDraws, env);
            && w'.banner == w.banner.(text := w'.banner.text)
            && w'.banner.text == (if caught == [] then Labelled(w.score) else Bare(w'.score))
  {
    var robot := MovedRobot(w, env);
    var t0 := Tally(w.score, w.points, Labelled(w.score));
    var rp := Pass(Rock, w.rocks, rockDraws, robot.position, env, t0);
    PassOutcome(Rock, w.rocks, rockDraws, robot.position, env, t0);
    PassOutcome(Gem, w.gems, gemDraws, robot.position, env, rp.tally);
  }

  /**
   The live group after a pass: the misses in their old order, then one
   well-formed replacement per hit.
   */
  lemma PassGroup(k: Kind, objs: seq<FallingObject>, draws: seq<FallDraw>, robot: Point, env: Env, t: Tally)
    requires |draws| == |objs| && ValidFalls(draws)
    ensures var p := Pass(k, objs, draws, robot, env, t);
            var g, misses := p.kept + p.spawned, Misses(Moved(objs, draws, env), robot);
            && |g| == |misses| + |Hits(Moved(objs, draws, env), robot)|
            && g[..|misses|] == misses
            && forall j :: |misses| <= j < |g| ==> IsRespawn(k, g[j], env.cellSize)
  {
    var p := Pass(k, objs, draws, robot, env, t);
    PassOutcome(k, objs, draws, robot, env, t);
    PassRespawns(k, objs, draws, robot, env, t);
    var g := p.kept + p.spawned;
    assert g[..|p.kept|] == p.kept;
    forall j | |p.kept| <= j < |g|
      ensures IsRespawn(k, g[j], env.cellSize)
    {
      assert g[j] == p.spawned[j - |p.kept|];
    }
  }

  /**
   After DoUpdates each group is its uncaught objects, moved and in their old
   order, followed by one well-formed replacement per caught object.
   */
  lemma StepGroups(w: World, rockDraws: seq<FallDraw>, gemDraws: seq<FallDraw>, env: Env)
    requires |rockDraws| == |w.rocks| && |gemDraws| == |w.gems|
    requires ValidFalls(rockDraws) && ValidFalls(gemDraws)
    ensures var w' := Step(w, rockDraws, gemDraws, env);
            var rm := FrameMisses(w, Rock, rockDraws, env);
            && |w'.rocks| == |rm| + |FrameHits(w, Rock, rockDraws, env)|
            && w'.rocks[..|rm|] == rm
            && forall j :: |rm| <= j < |w'.rocks| ==> IsRespawn(Rock, w'.rocks[j], env.cellSize)
    ensures var w' := Step(w, rockDraws, gemDraws, env);
            var gm := FrameMisses(w, Gem, gemDraws, env);
            && |w'.gems| == |gm| + |FrameHits(w, Gem, gemDraws, env)|
            && w'.gems[..|gm|] == gm
            && forall j :: |gm| <= j < |w'.gems| ==> IsRespawn(Gem, w'.gems[j], env.cellSize)
  {
    var robot := MovedRobot(w, env);
    var t0 := Tally(w.score, w.points, Labelled(w.score));
    PassGroup(Rock, w.rocks, rockDraws, robot.position, env, t0);
    PassGroup(Gem, w.gems, gemDraws, robot.position, env, Pass(Rock, w.rocks, rockDraws, robot.position, env, t0).tally);
  }

  /** The draws for one frame: the keyboard's direction and the random draws of DoUpdates. */
  datatype Input = Input(direction: Point, rockDraws: seq<FallDraw>, gemDraws: seq<FallDraw>)

  /** GetInputs on values: the robot's velocity becomes the keyboard's direction. */
  function Steer(w: World, direction: Point): World
  {
    w.(robot := w.robot.(velocity := direction))
  }

  /** One iteration of the game loop without its output: GetInputs, then DoUpdates. */
  function Tick(w: World, input: Input, env: Env): World
    requires |input.rockDraws| == |w.rocks| && |input.gemDraws| == |w.gems|
  {
    Step(Steer(w, input.direction), input.rockDraws, input.gemDraws, env)
  }

  /** Every frame's draws fit groups of nr rocks and ng gems. */
  predicate InputsFit(inputs: seq<Input>, nr: nat, ng: nat)
  {
    forall i :: 0 <= i < |inputs| ==> |inputs[i].rockDraws| == nr && |inputs[i].gemDraws| == ng
  }

  /** A run of frames. */
  function Play(w: World, inputs: seq<Input>, env: Env): World
    requires InputsFit(inputs, |w.rocks|, |w.gems|)
    decreases |inputs|
  {
    if inputs == [] then w
    else
      var input := inputs[0];
      StepKeepsGroupSizes(Steer(w, input.direction), input.rockDraws, input.gemDraws, env);
      Play(Tick(w, input, env), inputs[1..], env)
  }

  /** However many frames are played, the rock and gem groups keep their sizes. */
  lemma {:induction false} PlayKeepsGroupSizes(w: World, inputs: seq<Input>, env: Env)
    requires InputsFit(inputs, |w.rocks|, |w.gems|)
    ensures |Play(w, inputs, env).rocks| == |w.rocks|
    ensures |Play(w, inputs, env).gems| == |w.gems|
    decreases |inputs|
  {
    if inputs != [] {
      var input := inputs[0];
      StepKeepsGroupSizes(Steer(w, input.direction), input.rockDraws, input.gemDraws, env);
      PlayKeepsGroupSizes(Tick(w, input, env), inputs[1..], env);
    }
  }
}
