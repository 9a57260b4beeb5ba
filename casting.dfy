/**
 The entities of the Greed game: grid points, colours, the robot and banner
 actors, the falling rocks and gems, and the cast that holds them.
 */
module Casting {

  /** A 2D integer coordinate in pixels; used both as a position and as a velocity. */
  datatype Point = Point(x: int, y: int)
  {
    /** Multiplies both components; turns grid cells into pixels. */
    function Scale(factor: int): Point
    {
      Point(x * factor, y * factor)
    }
  }

  /** An RGB colour; the spawn code draws each channel from [0, 256). */
  datatype Color = Color(r: int, g: int, b: int)

  /** The two groups of falling objects: "rock" and "gem". */
  datatype Kind = Rock | Gem

  /**
   What the banner shows: nothing yet, "Score: n", or the bare "n" written
   after a collision.
   */
  datatype BannerText = Empty | Labelled(score: int) | Bare(score: int)

  /** The robot: a glyph the player steers. */
  datatype Actor = Actor(text: string, fontSize: int, color: Color, position: Point, velocity: Point)

  /** The score banner. It is never moved, so its velocity is not kept. */
  datatype Banner = Banner(text: BannerText, fontSize: int, color: Color, position: Point)

  /** A rock or a gem: an actor with the point value a collision adds to the score. */
  datatype FallingObject = FallingObject(
    text: string, fontSize: int, color: Color, position: Point, velocity: Point, point: int)

  /** Velocity of an actor before SetVelocity is called (the zero default of a C# field). */
  const DEFAULT_VELOCITY := Point(0, 0)

  /** Point value of a falling object before setPoint is called (the zero default of a C# field). */
  const DEFAULT_POINT := 0

  /**
   The cast of actors. The "banner" and "robot" groups always hold exactly one
   actor, so they are single fields; the "rock" and "gem" groups hold only
   falling objects, in insertion order.
   */
  class Cast {
    var banner: Banner
    var robot: Actor
    var rocks: seq<FallingObject>
    var gems: seq<FallingObject>

    constructor (banner: Banner, robot: Actor)
      ensures this.banner == banner && this.robot == robot
      ensures rocks == [] && gems == []
    {
      this.banner := banner;
      this.robot := robot;
      rocks := [];
      gems := [];
    }

    /** The live list of a falling group. */
    function Group(k: Kind): seq<FallingObject>
      reads this
    {
      if k == Rock then rocks else gems
    }

    /** AddActor: appends o to group k. */
    method AddActor(k: Kind, o: FallingObject)
      modifies this
      ensures Group(k) == old(Group(k)) + [o]
      ensures k == Rock ==> gems == old(gems)
      ensures k == Gem ==> rocks == old(rocks)
      ensures banner == old(banner) && robot == old(robot)
    {
      if k == Rock {
        rocks := rocks + [o];
      } else {
        gems := gems + [o];
      }
    }

    /** RemoveActor: removes the object at index i of group k (the actor's identity is its place). */
    method RemoveActor(k: Kind, i: nat)
      requires i < |Group(k)|
      modifies this
      ensures Group(k) == old(Group(k))[..i] + old(Group(k))[i + 1..]
      ensures k == Rock ==> gems == old(gems)
      ensures k == Gem ==> rocks == old(rocks)
      ensures banner == old(banner) && robot == old(robot)
    {
      if k == Rock {
        rocks := rocks[..i] + rocks[i + 1..];
      } else {
        gems := gems[..i] + gems[i + 1..];
      }
    }

    /** Stands for the setters called on the actor at index i of group k, which change it in place. */
    method SetMember(k: Kind, i: nat, o: FallingObject)
      requires i < |Group(k)|
      modifies this
      ensures Group(k) == old(Group(k))[i := o]
      ensures k == Rock ==> gems == old(gems)
      ensures k == Gem ==> rocks == old(rocks)
      ensures banner == old(banner) && robot == old(robot)
    {
      if k == Rock {
        rocks := rocks[i := o];
      } else {
        gems := gems[i := o];
      }
    }
  }
}
