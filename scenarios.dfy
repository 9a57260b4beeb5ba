/**
 Concrete frames of the game, with MoveNext taken as plain addition (no wrap
 is reached at these positions).
 */
module Scenarios {
  import opened Casting
  import opened Frame
  import Program

  /** MoveNext for positions that stay inside the field. */
  function AddMove(p: Point, v: Point, maxX: int, maxY: int): Point
  {
    Point(p.x + v.x, p.y + v.y)
  }

  const FIELD := Env(15, AddMove, 900, 600)

  function RobotAt(p: Point): Actor
  {
    Actor("#", 15, Program.WHITE, p, Point(0, 0))
  }

  function ObjectAt(text: string, p: Point, point: int): FallingObject
  {
    FallingObject(text, 15, Program.WHITE, p, Point(0, 0), point)
  }

  /**
   A still robot at (300, 300) and one rock of value -5 on it that does not
   fall: the frame costs 5 points, the banner shows the bare -5, and the rock
   is replaced by a fresh "0" at the drawn column on row 0.
   */
  lemma RockUnderRobot()
    ensures var w := World(Program.INITIAL_BANNER, RobotAt(Point(300, 300)),
                           [ObjectAt("0", Point(300, 300), -5)], [], 0, 0);
            var w' := Step(w, [FallDraw(0, SpawnDraw(10, 1, 2, 3))], [], FIELD);
            && w'.score == -5 && w'.points == -5
            && w'.banner.text == Bare(-5)
            && w'.rocks == [FallingObject("0", 15, Color(1, 2, 3), Point(150, 0), DEFAULT_VELOCITY, -5)]
  {
    var w := World(Program.INITIAL_BANNER, RobotAt(Point(300, 300)),
                   [ObjectAt("0", Point(300, 300), -5)], [], 0, 0);
    var draws := [FallDraw(0, SpawnDraw(10, 1, 2, 3))];
    var t0 := Tally(0, 0, Labelled(0));
    var r := Respawn(Rock, SpawnDraw(10, 1, 2, 3), 15);
    assert Fall(w.rocks[0], draws[0], FIELD).position == Point(300, 300);
    assert PassStep(Rock, PassResult([], [], t0), w.rocks[0], draws[0], Point(300, 300), FIELD)
           == PassResult([], [r], Tally(-5, -5, Bare(-5)));
  }

  /**
   The same rock one cell to the right of the robot: no collision, so the
   score stays and the banner keeps the "Score: " form.
   */
  lemma NearMissScoresNothing()
    ensures var w := World(Program.INITIAL_BANNER, RobotAt(Point(300, 300)),
                           [ObjectAt("0", Point(315, 300), -5)], [], 7, 0);
            var w' := Step(w, [FallDraw(0, SpawnDraw(10, 1, 2, 3))], [], FIELD);
            && w'.score == 7 && w'.banner.text == Labelled(7) && |w'.rocks| == 1
            && w'.rocks[0].position == Point(315, 300)
  {
    var w := World(Program.INITIAL_BANNER, RobotAt(Point(300, 300)),
                   [ObjectAt("0", Point(315, 300), -5)], [], 7, 0);
    var draws := [FallDraw(0, SpawnDraw(10, 1, 2, 3))];
    var t0 := Tally(7, 0, Labelled(7));
    assert Fall(w.rocks[0], draws[0], FIELD).position == Point(315, 300);
    assert PassStep(Rock, PassResult([], [], t0), w.rocks[0], draws[0], Point(300, 300), FIELD)
           == PassResult([Fall(w.rocks[0], draws[0], FIELD)], [], t0);
  }

  /**
   Three gems of value 10 land on the robot in one frame, starting from
   score 0: the score is 30 and the banner shows the bare 30.
   */
  lemma ThreeGemsMakeThirty()
    ensures var g := ObjectAt("*", Point(300, 285), 10);
            var w := World(Program.INITIAL_BANNER, RobotAt(Point(300, 300)), [], [g, g, g], 0, 0);
            var d := FallDraw(1, SpawnDraw(5, 0, 0, 0));
            var w' := Step(w, [], [d, d, d], FIELD);
            && w'.score == 30 && w'.banner.text == Bare(30) && |w'.gems| == 3
  {
    var g := ObjectAt("*", Point(300, 285), 10);
    var w := World(Program.INITIAL_BANNER, RobotAt(Point(300, 300)), [], [g, g, g], 0, 0);
    var d := FallDraw(1, SpawnDraw(5, 0, 0, 0));
    var draws := [d, d, d];
    var robot := Point(300, 300);
    var r := Respawn(Gem, d.spawn, 15);
    assert Fall(g, d, FIELD).position == robot;
    var p0 := PassResult([], [], Tally(0, 0, Labelled(0)));
    var p1 := PassStep(Gem, p0, g, d, robot, FIELD);
    assert p1 == PassResult([], [r], Tally(10, 10, Bare(10)));
    var p2 := PassStep(Gem, p1, g, d, robot, FIELD);
    assert p2 == PassResult([], [r, r], Tally(20, 10, Bare(20)));
    var p3 := PassStep(Gem, p2, g, d, robot, FIELD);
    assert p3 == PassResult([], [r, r, r], Tally(30, 10, Bare(30)));
    assert PassFrom(Gem, [g, g, g], draws, 3, robot, FIELD, p3) == p3;
    assert PassFrom(Gem, [g, g, g], draws, 2, robot, FIELD, p2) == p3;
    assert PassFrom(Gem, [g, g, g], draws, 1, robot, FIELD, p1) == p3;
    assert PassFrom(Gem, [g, g, g], draws, 0, robot, FIELD, p0) == p3;
  }
}
