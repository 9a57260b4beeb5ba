/**
 The entry point's set-up of the Greed game: its configuration constants and
 the initial cast of one banner, one robot, and rows of rocks and gems.
 */
module Program {
  import opened Casting
  import opened Frame
  import opened Directing

  const MAX_X := 900
  const MAX_Y := 600
  const CELL_SIZE := 15
  const FONT_SIZE := 15
  const COLS := 60
  const ROWS := 40
  const DEFAULT_ROCKS := 25
  const DEFAULT_GEMS := 25
  const WHITE := Color(255, 255, 255)

  /** The banner as created: empty text at (CELL_SIZE, 0). */
  const INITIAL_BANNER := Banner(Empty, FONT_SIZE, WHITE, Point(CELL_SIZE, 0))

  /** The robot as created: "#" in the middle of the field. */
  const INITIAL_ROBOT := Actor("#", FONT_SIZE, WHITE, Point(MAX_X / 2, MAX_Y / 2), DEFAULT_VELOCITY)

  /** p lies inside the MAX_X by MAX_Y field. */
  predicate InField(p: Point)
  {
    0 <= p.x < MAX_X && 0 <= p.y < MAX_Y
  }

  /**
   One object of the spawn loop for group k: glyph, font size, colour and a
   position on row 0, but no point value (setPoint is not called).
   */
  function Seed(k: Kind, d: SpawnDraw): FallingObject
  {
    FallingObject(Glyph(k), FONT_SIZE, Color(d.r, d.g, d.b), Point(d.col, 0).Scale(CELL_SIZE),
                  DEFAULT_VELOCITY, DEFAULT_POINT)
  }

  /** All objects the spawn loop for group k creates, in order. */
  function SeedGroup(k: Kind, draws: seq<SpawnDraw>): seq<FallingObject>
  {
    seq(|draws|, i requires 0 <= i < |draws| => Seed(k, draws[i]))
  }

  /** A point on row 0 of a spawn column lies inside the field. */
  lemma SpawnRowInField(p: Point)
    requires OnSpawnRow(p, CELL_SIZE, COLS)
    ensures InField(p)
  {
    var c :| 1 <= c < COLS && p.x == Column(c, CELL_SIZE);
  }

  /**
   Each initial rock or gem is its group's glyph in FONT_SIZE, with colour
   channels in [0, 256), on row 0 of a grid column in [1, COLS) and so inside
   the field, and it carries the unset point value rather than its group's reward.
   */
  lemma SeedShape(k: Kind, d: SpawnDraw)
    requires ValidSpawn(d, COLS)
    ensures var o := Seed(k, d);
            && o.text == Glyph(k) && o.fontSize == FONT_SIZE && ValidColor(o.color)
            && OnSpawnRow(o.position, CELL_SIZE, COLS) && InField(o.position)
            && o.point == DEFAULT_POINT && o.point != Reward(k)
  {
    var o := Seed(k, d);
    assert o.position.x == Column(d.col, CELL_SIZE);
    SpawnRowInField(o.position);
  }

  /** A replacement spawned by the Director with its cell size lies inside the field, on row 0. */
  lemma RespawnInField(k: Kind, d: SpawnDraw)
    requires ValidSpawn(d, SPAWN_COLS)
    ensures IsRespawn(k, Respawn(k, d, CELL_SIZE), CELL_SIZE)
    ensures InField(Respawn(k, d, CELL_SIZE).position)
  {
    RespawnShape(k, d, CELL_SIZE);
    SpawnRowInField(Respawn(k, d, CELL_SIZE).position);
  }

  /**
   Builds the cast: the banner, the robot, then DEFAULT_ROCKS rocks and
   DEFAULT_GEMS gems from the given spawn draws.
   */
  method BuildCast(rockDraws: seq<SpawnDraw>, gemDraws: seq<SpawnDraw>) returns (cast: Cast)
    requires |rockDraws| == DEFAULT_ROCKS && |gemDraws| == DEFAULT_GEMS
    ensures fresh(cast)
    ensures cast.banner == INITIAL_BANNER && cast.robot == INITIAL_ROBOT
    ensures cast.rocks == SeedGroup(Rock, rockDraws) && cast.gems == SeedGroup(Gem, gemDraws)
  {
    cast := new Cast(INITIAL_BANNER, INITIAL_ROBOT);
    for i := 0 to DEFAULT_ROCKS
      invariant cast.banner == INITIAL_BANNER && cast.robot == INITIAL_ROBOT
      invariant cast.rocks == SeedGroup(Rock, rockDraws[..i]) && cast.gems == []
    {
      cast.AddActor(Rock, Seed(Rock, rockDraws[i]));
    }
    for i := 0 to DEFAULT_GEMS
      invariant cast.banner == INITIAL_BANNER && cast.robot == INITIAL_ROBOT
      invariant cast.rocks == SeedGroup(Rock, rockDraws) && cast.gems == SeedGroup(Gem, gemDraws[..i])
    {
      cast.AddActor(Gem, Seed(Gem, gemDraws[i]));
    }
    assert rockDraws[..DEFAULT_ROCKS] == rockDraws && gemDraws[..DEFAULT_GEMS] == gemDraws;
  }

  /** The game's state just before StartGame: the built cast and a Director with score 0. */
  function InitialWorld(rockDraws: seq<SpawnDraw>, gemDraws: seq<SpawnDraw>): World
  {
    World(INITIAL_BANNER, INITIAL_ROBOT, SeedGroup(Rock, rockDraws), SeedGroup(Gem, gemDraws), 0, 0)
  }

  /** The set-up part of Main: builds the cast and the Director. */
  method Setup(rockDraws: seq<SpawnDraw>, gemDraws: seq<SpawnDraw>) returns (cast: Cast, director: Director)
    requires |rockDraws| == DEFAULT_ROCKS && |gemDraws| == DEFAULT_GEMS
    ensures fresh(cast) && fresh(director)
    ensures director.State(cast) == InitialWorld(rockDraws, gemDraws)
  {
    cast := BuildCast(rockDraws, gemDraws);
    director := new Director();
  }

  /**
   The initial world has 25 rocks and 25 gems, each a seed of its group on
   row 0 inside the field, a banner with empty text and the robot at (450, 300).
   */
  lemma {:induction false} InitialWorldShape(rockDraws: seq<SpawnDraw>, gemDraws: seq<SpawnDraw>)
    requires |rockDraws| == DEFAULT_ROCKS && |gemDraws| == DEFAULT_GEMS
    requires forall i :: 0 <= i < |rockDraws| ==> ValidSpawn(rockDraws[i], COLS)
    requires forall i :: 0 <= i < |gemDraws| ==> ValidSpawn(gemDraws[i], COLS)
    ensures var w := InitialWorld(rockDraws, gemDraws);
            && |w.rocks| == 25 && |w.gems| == 25 && w.score == 0
            && w.banner.text == Empty && w.banner.position == Point(15, 0)
            && w.robot.position == Point(450, 300)
            && (forall i :: 0 <= i < 25 ==> w.rocks[i].text == "0" && InField(w.rocks[i].position)
                                            && w.rocks[i].position.y == 0)
            && (forall i :: 0 <= i < 25 ==> w.gems[i].text == "*" && InField(w.gems[i].position)
                                            && w.gems[i].position.y == 0)
  {
    var w := InitialWorld(rockDraws, gemDraws);
    forall i | 0 <= i < 25
      ensures w.rocks[i].text == "0" && InField(w.rocks[i].position) && w.rocks[i].position.y == 0
      ensures w.gems[i].text == "*" && InField(w.gems[i].position) && w.gems[i].position.y == 0
    {
      SeedShape(Rock, rockDraws[i]);
      SeedShape(Gem, gemDraws[i]);
    }
  }

  /** Whatever the frames played, the game keeps DEFAULT_ROCKS rocks and DEFAULT_GEMS gems. */
  lemma GroupsStayFull(rockDraws: seq<SpawnDraw>, gemDraws: seq<SpawnDraw>, inputs: seq<Input>, env: Env)
    requires |rockDraws| == DEFAULT_ROCKS && |gemDraws| == DEFAULT_GEMS
    requires InputsFit(inputs, DEFAULT_ROCKS, DEFAULT_GEMS)
    ensures |Play(InitialWorld(rockDraws, gemDraws), inputs, env).rocks| == DEFAULT_ROCKS
    ensures |Play(InitialWorld(rockDraws, gemDraws), inputs, env).gems| == DEFAULT_GEMS
  {
    PlayKeepsGroupSizes(InitialWorld(rockDraws, gemDraws), inputs, env);
  }
}
