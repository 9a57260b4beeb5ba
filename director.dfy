/**
 The Director: it owns the score and runs each frame against the cast.
 Keyboard polling, the random source and Actor.MoveNext come in as parameters.
 */
module Directing {
  import opened Casting
  import opened Frame

  class Director {
    /** Grid quantum of every fall velocity and spawn position. */
    const cellSize: int := 15
    var score: int
    /** Point value of the object most recently caught. */
    var points: int

    constructor ()
      ensures score == 0 && points == 0
    {
      score := 0;
      points := 0;
    }

    /** The cast together with this Director's score fields, as a value. */
    function State(cast: Cast): World
      reads this, cast
    {
      World(cast.banner, cast.robot, cast.rocks, cast.gems, score, points)
    }

    /** The field a frame runs in, given MoveNext and the window's size. */
    function Field(move: MoveFn, maxX: int, maxY: int): Env
    {
      Env(cellSize, move, maxX, maxY)
    }

    /** The pass over group k as it would run from the current state. */
    function PassOver(cast: Cast, k: Kind, draws: seq<FallDraw>, env: Env): PassResult
      requires |draws| == |cast.Group(k)|
      reads this, cast
    {
      Pass(k, cast.Group(k), draws, cast.robot.position, env, Tally(score, points, cast.banner.text))
    }

    /** Applies the keyboard's direction to the robot as its velocity. */
    method GetInputs(cast: Cast, direction: Point)
      modifies cast
      ensures cast.robot == old(cast.robot).(velocity := direction)
      ensures cast.banner == old(cast.banner) && cast.rocks == old(cast.rocks) && cast.gems == old(cast.gems)
      ensures State(cast) == Steer(old(State(cast)), direction)
    {
      cast.robot := cast.robot.(velocity := direction);
    }

    /**
     Moves the robot, then lets every rock and then every gem fall; each object
     that lands on the robot scores and is replaced.
     */
    method DoUpdates(cast: Cast, rockDraws: seq<FallDraw>, gemDraws: seq<FallDraw>, move: MoveFn, maxX: int, maxY: int)
      requires |rockDraws| == |cast.rocks| && |gemDraws| == |cast.gems|
      modifies this, cast
      ensures State(cast) == Step(old(State(cast)), rockDraws, gemDraws, Field(move, maxX, maxY))
      ensures |cast.rocks| == old(|cast.rocks|) && |cast.gems| == old(|cast.gems|)
    {
      ghost var w := State(cast);
      var env := Field(move, maxX, maxY);
      cast.banner := cast.banner.(text := Labelled(score));
      cast.robot := cast.robot.(position := move(cast.robot.position, cast.robot.velocity, maxX, maxY));
      FallPass(cast, Rock, rockDraws, env);
      FallPass(cast, Gem, gemDraws, env);
      StepKeepsGroupSizes(w, rockDraws, gemDraws, env);
    }

    /** The Director's running tally: score, points and the banner's text. */
    function Current(cast: Cast): Tally
      reads this, cast
    {
      Tally(score, points, cast.banner.text)
    }

    /**
     The foreach over group k: each object listed when the pass starts is
     visited once, in order; replacements appended meanwhile are not visited.
     */
    method FallPass(cast: Cast, k: Kind, draws: seq<FallDraw>, env: Env)
      requires |draws| == |cast.Group(k)| && env.cellSize == cellSize
      modifies this, cast
      ensures cast.Group(k) == old(PassOver(cast, k, draws, env)).kept + old(PassOver(cast, k, draws, env)).spawned
      ensures Current(cast) == old(PassOver(cast, k, draws, env)).tally
      ensures cast.robot == old(cast.robot) && cast.banner == old(cast.banner).(text := cast.banner.text)
      ensures k == Rock ==> cast.gems == old(cast.gems)
      ensures k == Gem ==> cast.rocks == old(cast.rocks)
    {
      var objs := cast.Group(k);
      ghost var robot := cast.robot.position;
      ghost var p := PassResult([], [], Current(cast));
      ghost var target := PassOver(cast, k, draws, env);
      var i, at := 0, 0;
      EmptyEnds(objs);
      while i < |objs|
        invariant i <= |objs|
        invariant PassFrom(k, objs, draws, i, robot, env, p) == target
        invariant at == |p.kept| && cast.Group(k) == p.kept + objs[i..] + p.spawned
        invariant Current(cast) == p.tally
        invariant cast.robot == old(cast.robot) && cast.banner == old(cast.banner).(text := cast.banner.text)
        invariant k == Rock ==> cast.gems == old(cast.gems)
        invariant k == Gem ==> cast.rocks == old(cast.rocks)
      {
        var caught: bool;
        caught, at := Visit(cast, k, at, draws[i], env, p, objs, i, robot);
        p := PassStep(k, p, objs[i], draws[i], robot, env);
        i := i + 1;
      }
      EmptyTail(p.kept, objs, p.spawned);
    }

    /**
     The body of the foreach for objs[i], which sits in the live group at
     index at, right after the objects kept so far: it is given a fall
     velocity and moved, and when it lands on the robot its point value is
     added to the score, the banner shows the bare score, and it is removed
     and a replacement appended. Returns whether it was caught and the index
     of the next object to visit; the effect is one PassStep.
     */
    method Visit(cast: Cast, k: Kind, at: nat, d: FallDraw, env: Env,
                 ghost prev: PassResult, ghost objs: seq<FallingObject>, ghost i: nat, ghost robot: Point)
      returns (caught: bool, next: nat)
      requires i < |objs| && env.cellSize == cellSize && cast.robot.position == robot
      requires at == |prev.kept| && cast.Group(k) == prev.kept + objs[i..] + prev.spawned
      requires Current(cast) == prev.tally
      modifies this, cast
      ensures caught == (Fall(objs[i], d, env).position == robot)
      ensures var step := PassStep(k, prev, objs[i], d, robot, env);
              && next == |step.kept| && cast.Group(k) == step.kept + objs[i + 1..] + step.spawned
              && Current(cast) == step.tally
      ensures cast.robot == old(cast.robot) && cast.banner == old(cast.banner).(text := cast.banner.text)
      ensures k == Rock ==> cast.gems == old(cast.gems)
      ensures k == Gem ==> cast.rocks == old(cast.rocks)
    {
      ghost var g0 := cast.Group(k);
      ghost var x, rest := objs[i], objs[i + 1..];
      Uncons(objs, i);
      assert g0 == prev.kept + [x] + rest + prev.spawned;
      assert g0[at] == x;
      var actor := cast.Group(k)[at];
      var direction := Point(0, d.fall).Scale(cellSize);
      actor := actor.(velocity := direction);
      actor := actor.(position := env.move(actor.position, actor.velocity, env.maxX, env.maxY));
      assert actor == Fall(x, d, env);
      cast.SetMember(k, at, actor);
      GroupAfterMiss(prev.kept, x, actor, rest, prev.spawned, g0, cast.Group(k));
      caught := cast.robot.position == actor.position;
      ghost var step := PassStep(k, prev, x, d, robot, env);
      if caught {
        var r := Respawn(k, d.spawn, cellSize);
        ghost var g1 := cast.Group(k);
        Catch(cast, k, at, r);
        GroupAfterCatch(prev.kept, actor, rest, prev.spawned, r, g1, cast.Group(k));
        next := at;
        assert step == PassResult(prev.kept, prev.spawned + [r], Current(cast));
      } else {
        next := at + 1;
        assert step == PassResult(prev.kept + [actor], prev.spawned, prev.tally);
      }
    }

    /**
     The collision branch for the object at index at of group k: its point
     value is added to the score, the banner shows the bare score, the object
     is removed and the replacement r appended.
     */
    method Catch(cast: Cast, k: Kind, at: nat, r: FallingObject)
      requires at < |cast.Group(k)|
      modifies this, cast
      ensures points == old(cast.Group(k))[at].point && score == points + old(score)
      ensures cast.banner == old(cast.banner).(text := Bare(score))
      ensures cast.Group(k) == old(cast.Group(k))[..at] + old(cast.Group(k))[at + 1..] + [r]
      ensures cast.robot == old(cast.robot)
      ensures k == Rock ==> cast.gems == old(cast.gems)
      ensures k == Gem ==> cast.rocks == old(cast.rocks)
    {
      points := cast.Group(k)[at].point;
      score := points + score;
      cast.banner := cast.banner.(text := Bare(score));
      cast.RemoveActor(k, at);
      cast.AddActor(k, r);
    }

    /** One iteration of StartGame's loop, without DoOutputs. */
    method RunFrame(cast: Cast, input: Input, move: MoveFn, maxX: int, maxY: int)
      requires |input.rockDraws| == |cast.rocks| && |input.gemDraws| == |cast.gems|
      modifies this, cast
      ensures State(cast) == Tick(old(State(cast)), input, Field(move, maxX, maxY))
    {
      GetInputs(cast, input.direction);
      DoUpdates(cast, input.rockDraws, input.gemDraws, move, maxX, maxY);
    }
  }

  /** Empty ends around the whole of s leave s. */
  lemma EmptyEnds<T>(s: seq<T>)
    ensures [] + s[0..] + [] == s
  {
    assert s[0..] == s;
  }

  /** The empty suffix of s contributes nothing. */
  lemma EmptyTail<T>(a: seq<T>, s: seq<T>, b: seq<T>)
    ensures a + s[|s|..] + b == a + b
  {
    assert s[|s|..] == [];
  }

  /** The suffix from index i is its first element followed by the suffix after it. */
  lemma Uncons<T>(s: seq<T>, i: nat)
    requires i < |s|
    ensures s[i..] == [s[i]] + s[i + 1..]
  {
  }

  /** The live group after a catch: the caught object x is dropped and the replacement r appended. */
  lemma GroupAfterCatch<T>(kept: seq<T>, x: T, rest: seq<T>, spawned: seq<T>, r: T, g0: seq<T>, g1: seq<T>)
    requires g0 == kept + [x] + rest + spawned
    requires g1 == g0[..|kept|] + g0[|kept| + 1..] + [r]
    ensures g1 == kept + rest + (spawned + [r])
  {
    assert g0[..|kept|] == kept;
    assert g0[|kept| + 1..] == rest + spawned;
  }

  /** The live group after a miss: x, right after the kept prefix, is replaced by its moved self m. */
  lemma GroupAfterMiss<T>(kept: seq<T>, x: T, m: T, rest: seq<T>, spawned: seq<T>, g0: seq<T>, g1: seq<T>)
    requires g0 == kept + [x] + rest + spawned
    requires g1 == g0[|kept| := m]
    ensures g1 == (kept + [m]) + rest + spawned
  {
  }
}
