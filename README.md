# Greed: the Director's frame step and the initial cast, in Dafny

This project models the core of "Greed", a small C# console game. The player
steers a robot (`#`) that starts at the centre of a 900 by 600 pixel field.
Rocks (`0`) and gems (`*`) fall from the top on a 15-pixel grid. An object that
lands exactly on the robot adds its point value to the score. A caught object
is removed, and a fresh one of the same kind appears at a random column on the
top row. A fresh rock is worth -5 and a fresh gem +10. The 25 rocks and 25 gems
created at start-up never get a point value set, so they are worth 0.

The model has these parts:

- `casting.dfy` (module `Casting`) holds the entities as values:
  - `Point`, `Color`, the robot `Actor`, the score `Banner` and `FallingObject`;
  - `BannerText`, which says whether the banner shows nothing, `Score: n`, or a bare `n`;
  - the class `Cast`, whose `rocks` and `gems` groups are sequences that `AddActor`, `RemoveActor` and the setters change in place.
- `frame.dfy` (module `Frame`) is the specification of one frame as functions on values.
  - `Fall` is one object's velocity and move.
  - `PassStep`, `PassFrom` and `Pass` model the `foreach` over a group.
  - `Step` models one `DoUpdates`, `Tick` one `GetInputs` followed by `DoUpdates`, and `Play` a run of frames.
  - The lemmas state the game's rules about these functions.
- `director.dfy` (module `Directing`) holds the class `Director`.
  - Its fields are `cellSize`, `score` and `points`, and its methods are `GetInputs` and `DoUpdates`.
  - Both methods are imperative and change the cast in place.
  - Each is proved to compute exactly the value-level `Steer` and `Step`.
  - The `foreach` loops are the method `FallPass`, whose body is `Visit`.
- `program.dfy` (module `Program`) holds the entry point's set-up.
  - It has the configuration constants, the banner and the robot.
  - The two spawn loops that add 25 rocks and 25 gems are `BuildCast`.
  - `Setup` builds the cast together with a fresh `Director`.
- `scenarios.dfy` (module `Scenarios`) contains concrete frames: a rock caught under the robot, a near miss, and three gems caught in one frame.

Inputs that are outside this model become parameters:

- The keyboard's direction is a `Point`.
- Every random draw is a `FallDraw`: the fall speed, plus the column and colour used only if the object is caught. There is one draw per visited object.
- `Actor.MoveNext` is any total function `MoveFn` of position, velocity and field size.

## Model

| member | source | states |
|---|---|---|
| Frame.Fall | Game/Directing/Director.cs:77-81 | Before it moves, a falling object gets the velocity (0, fall times cellSize) for the drawn fall. For any value random.Next(0, 3) can return, that is 0, 1 or 2 cells straight down. It is then moved by MoveNext with that velocity, and nothing else about it changes. |
| Frame.RespawnShape | Game/Directing/Director.cs:89-106 | A replacement is its group's glyph and reward: rock "0" with -5, gem "*" with +10. It has font size 15 and colour channels in [0, 256). It sits on row 0 at x = c times cellSize with c in [1, 60), and its velocity has not been set. |
| Frame.HitsAndMisses | Game/Directing/Director.cs:82 | The exact-equality collision test splits a moved group into caught and uncaught objects. Together these are a permutation of the group, and their counts add up to its size. |
| Frame.HitsOnRobot | Game/Directing/Director.cs:82 | Every caught object is on the robot's position, and no uncaught one is. |
| Frame.HitsMissesCons | Game/Directing/Director.cs:82 | A moved object at the head of the list joins the caught objects exactly when it is on the robot. It then adds its point value to their sum, and it is the last caught object if no other follows. |
| Frame.GroupStep | Game/Directing/Director.cs:82-106 | One visit keeps a missed object at the end of the kept list and turns a caught object into one more replacement. So a statement about the kept and appended objects after the visit carries over to the list that starts with the visited object. |
| Frame.TallyStep | Game/Directing/Director.cs:82-86 | A catch adds the object's value to the score, sets points to it and shows the bare score; a miss changes nothing. So the score, points and banner stated after the visit carry over to the list that starts with the visited object. |
| Frame.PassFromGroup | Game/Directing/Director.cs:75-108 | From any point of the foreach, the remaining visits keep the uncaught moved objects in order and append one replacement per catch. |
| Frame.PassFromTally | Game/Directing/Director.cs:75-108 | From any point of the foreach, the remaining visits add the caught objects' point values to the score. They leave points at the last caught value, and they set the banner to the bare score if anything was caught. |
| Frame.PassOutcome | Game/Directing/Director.cs:75-108 | A whole pass over the group fetched before the loop leaves the uncaught moved objects in their old order, followed by one replacement per catch. The score becomes the starting score plus the sum of the caught objects' point values. points holds the last caught object's value, or is unchanged. The banner shows the bare new score exactly when something was caught, and is otherwise unchanged. |
| Frame.PassFromRespawns | Game/Directing/Director.cs:99-106 | Visits from any point of the foreach append only well-formed replacements of the group being visited. |
| Frame.PassRespawns | Game/Directing/Director.cs:99-106 | Every object a pass appends is a well-formed replacement of its own group. A rock pass never adds a gem, and a gem pass never adds a rock. |
| Frame.PassKeepsSize | Game/Directing/Director.cs:88-106 | Each catch removes one object and adds one, so a pass leaves its group with as many objects as it started with. |
| Frame.StepKeepsGroupSizes | Game/Directing/Director.cs:75-140 | One DoUpdates leaves the number of rocks and the number of gems unchanged. |
| Frame.StepScore | Game/Directing/Director.cs:85-86 | After one DoUpdates the score is the old score plus the point values of every rock and gem caught in the frame. points is the value of the last object caught, rocks before gems, or is unchanged when nothing was caught. |
| Frame.StepBanner | Game/Directing/Director.cs:70 | After one DoUpdates the banner reads "Score: " and the pre-update score if nothing was caught, and the bare new score otherwise. Its font, colour and position are unchanged. |
| Frame.PassGroup | Game/Directing/Director.cs:88-106 | After a pass, a group is its uncaught objects in their old order, followed by exactly as many well-formed replacements as objects were caught. |
| Frame.StepGroups | Game/Directing/Director.cs:63-141 | After one DoUpdates, each group is its uncaught objects in their old order, at their new positions. They are followed by exactly as many well-formed replacements of that group as objects were caught. Collisions are tested against the robot's position after its own move. |
| Frame.PlayKeepsGroupSizes | Game/Directing/Director.cs:39-44 | However many GetInputs and DoUpdates rounds the game loop runs, the rock and gem groups keep their sizes. |
| Casting.Cast.AddActor | Game/Directing/Director.cs:106 | The object is appended at the end of its group, and the other group, the banner and the robot are unchanged. This is the assumed behaviour of the unseen `Cast.AddActor`, used here and at Director.cs:138 and Program.cs:77 and 95. |
| Casting.Cast.RemoveActor | Game/Directing/Director.cs:88 | The object at the given index is removed and the rest of the group keeps its order; the other group, the banner and the robot are unchanged. The unseen `Cast.RemoveActor` is assumed to remove the one entry that is the visited object (also at Director.cs:122), which the model identifies by its index. |
| Casting.Cast.SetMember | Game/Directing/Director.cs:80-81 | Only the entry at the given index changes, to the given value; the other group, the banner and the robot are unchanged. It stands for `SetVelocity` and `MoveNext` called on a list entry (also at Director.cs:114-115), which are assumed to change that entry in place. |
| Directing.Director.constructor | Game/Directing/Director.cs:17-30 | A new Director starts with score 0 and points 0. |
| Directing.Director.GetInputs | Game/Directing/Director.cs:52-57 | The robot's velocity becomes exactly the keyboard's direction. Its other fields, the banner, the rocks, the gems and the Director's fields are unchanged. |
| Directing.Director.DoUpdates | Game/Directing/Director.cs:63-141 | The in-place update of the cast and of score and points has exactly the effect of Step on the old state. It keeps both group sizes. |
| Directing.Director.FallPass | Game/Directing/Director.cs:75-108 | The foreach over the group's list fetched before the loop leaves the live group, the score, points and the banner text exactly as Pass computes them. The robot and the other group are untouched. |
| Directing.Director.Visit | Game/Directing/Director.cs:76-107 | One loop body on the live group has exactly the effect of PassStep. It reports whether the moved object landed on the robot, and the index of the next object to visit. A miss stays in place; a catch is removed at its index and its replacement is appended at the end. |
| Directing.Director.Catch | Game/Directing/Director.cs:84-106 | A catch sets points to the caught object's value and adds it to the score, and the banner shows the bare new score. The object is removed from its group and the replacement is appended at the end. The robot and the other group are unchanged. |
| Directing.Director.RunFrame | Game/Directing/Director.cs:41-42 | One GetInputs followed by one DoUpdates on the cast has exactly the effect of Tick. |
| Program.SpawnRowInField | Program.cs:17-22 | Every point on row 0 of a grid column in [1, COLS) lies inside the MAX_X by MAX_Y field. |
| Program.SeedShape | Program.cs:61-77 | An initial rock or gem has its group's glyph, FONT_SIZE and colour channels in [0, 256). It sits on row 0 of a column in [1, COLS), inside the field. Its point value is the unset default, not its group's reward. |
| Program.RespawnInField | Game/Directing/Director.cs:89-92 | A replacement built with the Director's cell size lies on row 0 inside the 900 by 600 field. |
| Program.BuildCast | Program.cs:36-96 | The built cast holds the banner with empty text at (CELL_SIZE, 0) and the robot "#" at (MAX_X/2, MAX_Y/2). It also holds exactly the 25 rocks and the 25 gems that the spawn loops create from their draws, in order. |
| Program.Setup | Program.cs:36-107 | Main's set-up yields the initial world: the built cast, with score 0 and points 0. |
| Program.InitialWorldShape | Program.cs:38-96 | The initial world has 25 rocks and 25 gems and score 0. The banner is empty at (15, 0) and the robot is at (450, 300). Every rock is "0" and every gem "*", each on row 0 inside the field. |
| Program.GroupsStayFull | Program.cs:56-96 | Starting from the initial world, any run of frames keeps exactly 25 rocks and 25 gems. |
| Scenarios.RockUnderRobot | Game/Directing/Director.cs:82-106 | Take a rock of value -5 that does not fall and sits on a still robot at (300, 300). One frame makes the score -5, shows the bare -5 and replaces the rock with a fresh "0" at column 10 of row 0. |
| Scenarios.NearMissScoresNothing | Game/Directing/Director.cs:82 | A rock one cell beside the robot is not caught. The score and the "Score: " banner stay, and the rock stays where it is. |
| Scenarios.ThreeGemsMakeThirty | Game/Directing/Director.cs:116-121 | Three gems landing on the robot in one frame raise the score from 0 to 30. The banner shows the bare 30, and the gem group keeps 3 members. |

## Left out

- `StartGame`'s window loop and `DoOutputs` are rendering and window I/O through `VideoService`. Only the `GetInputs`-then-`DoUpdates` order of one iteration is kept, as `RunFrame`, `Tick` and `Play`.
- `KeyboardService.GetDirection` is input polling. Its result is the `direction` parameter of `GetInputs`.
- `VideoService.GetWidth`/`GetHeight` become the `maxX`/`maxY` parameters of `DoUpdates`.
- `System.Random` becomes draws passed in as parameters, one `FallDraw` per visited object. Its ranges (`ValidFall`, `ValidSpawn`) are hypotheses of the lemmas that need them, not requirements of `DoUpdates`, because the C# code does not demand them.
- `Actor.MoveNext` is not part of this model. It is an arbitrary `MoveFn`, so no wrap-around or in-field invariant is claimed for objects after they move. Only spawn positions are proved to lie in the field.
- The source files of `Point`, `Color`, `Actor`, `FallingObject` and `Cast` are not shown. `casting.dfy` models them from their uses in `Director.cs` and `Program.cs`, under these assumptions:
  - Points compare by their two coordinates, which is what `Point.Equals` is assumed to do.
  - An actor whose velocity has not been set has velocity (0, 0), and a falling object whose point value has not been set has point value 0. These are the C# zero defaults (`DEFAULT_VELOCITY`, `DEFAULT_POINT`). As a result, the initial rocks and gems, which never get `setPoint`, score 0 when caught (`Program.SeedShape`).
  - `Cast.GetActors` is taken to return a copy of the group's list. The model therefore visits the list fetched before each `foreach` and does not visit replacements appended during the pass. A live list would make C# throw on the first removal, and that behaviour is not modelled.
  - `Cast.AddActor` appends at the end of its group's list (`Casting.Cast.AddActor`).
  - `Cast.RemoveActor` removes by object identity; the model removes at the visited object's index (`Casting.Cast.RemoveActor`). The two agree because the visited object sits at that index of the live list.
  - The setters that `DoUpdates` calls on a list entry change that entry in place; the model replaces the entry at its index (`Casting.Cast.SetMember`).
  - The `banner` and `robot` groups always hold one actor, so the cast keeps them as single fields.
- Aliasing between the robot and the banner objects and the list entries is not modelled: actors are values stored in the cast and updated there.
- The `(FallingObject)` downcasts are not needed, because the rock and gem groups hold `FallingObject` values.
- The banner's string formatting is the `BannerText` datatype: `Labelled(n)` for `Score: n` and `Bare(n)` for the bare number. The banner never moves, so its velocity is not kept.
- Integers are unbounded. Score overflow of the C# 32-bit `int` is not modelled.
- `FRAME_RATE`, `CAPTION`, `DATA_PATH` and the service construction in `Program.Main` are configuration without behaviour here. `ROWS` is declared but unused by the set-up.
- Only the remove-and-respawn behaviour of `DoUpdates` is modelled.
