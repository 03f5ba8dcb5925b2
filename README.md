# simple_pool: the level's turn and rule engine, in Dafny

This project models the core of the eight-ball pool game simple_pool: the
`Level` game state (src/level.cpp, include/level.h) and the `Table` it is
played on (src/table.cpp).

- **The level's state.** The level holds fifteen object balls (ids 1-7
  solids, 8 the eight-ball, 9-15 stripes), a separate cue ball (id 0), six
  pocket sensors, the ids potted during the current shot, and the turn
  state: whose turn, the team colour, whether a shot was made, whether
  anything moves, and the game result.
- **Resolving a shot.** `change_state` applies the rules:
  - a foul on the first hit;
  - an empty shot;
  - a scratch;
  - a shooter who potted none of their group;
  - the eight-ball verdict;
  - the assignment of groups;
  - putting back balls that left the table.
- **Helpers around a shot.**
  - `check_pocket` pots balls.
  - `get_safe_pos` searches for a free spot.
  - `create_balls`, `create_cue_ball` and `create_sensors` set up the level.
  - `logic` and `handle_events` accept input only while nothing moves and resolve a shot once everything is still.
- **The table.** `Table::Table` centres the table image in the window. It
  then places six rail colliders and twelve pocket colliders at fixed
  offsets, all reporting to the collision observer.

The modules are:

- **`Bodies`** (bodies.dfy): the ball value and the two distance tests, as
  `hypot` comparisons done on squares. It also holds what pocketing does to
  a ball.
- **`Tables`** (tables.dfy): class `Table`, its constructor over arrays of
  rails and colliders, and the layouts they are proved to produce.
- **`Rules`** (rules.dfy): `Judge`, a declarative statement of the shot
  rules in terms of groups, and the team-colour encoding.
- **`Placement`** (placement.dfy):
  - the off-table test;
  - the free-spot search `SafeX`, with its termination measure;
  - the off-table loop `Respawned`;
  - the sensor layout;
  - the rack slots.
- **`Levels`** (level.dfy): class `Level`, whose fields mirror
  include/level.h.
  - Each method changes the fields in place.
  - Each method is proved against a function on a value of the level's
    state (`Snapshot`):
    - `ChangeState` against `Resolve`;
    - `Logic` against `Tick`;
    - `HandleEvents` against `Handled`.
  - Some loops and branches of the source functions are separate methods
    so that each proof stays small:
    - the rack-filling loops (`FillRack`);
    - the inner scan of the search (`FirstInWay`);
    - the moving part of `logic`, its object-ball loop and one ball of it
      (`MoveAll`, `MoveBalls`, `MoveBall`);
    - the rules half of `change_state` (`ShotRules`, `FoulCheck`,
      `PottedRules`, `ClaimGroup`);
    - its off-table loop and one pass of it (`ReturnBalls`, `ReturnBall`);
    - its cue-ball check (`ReturnCue`);
    - the two halves of the collider placement (`PlaceTop`, `PlaceBottom`).

The values that are not visible in these files come in as parameters:

| value | parameter |
|---|---|
| window size | constructor parameter |
| what `Ball{}` and `setTex` leave in a ball | `blank` |
| the value of `std::sqrt(3)` | `sqrt3` |
| which balls move, and where `Ball::move` takes them | `moving`, `steps` |
| the first hit the collision observer holds after a frame's moves | `hit` |
| the polled events | `events` |
| the velocity a strike gives | `shots` |

## Model

| member | source | states |
|---|---|---|
| Bodies.Without | src/level.cpp:200 | the observer list without the collision observer: it no longer contains it, keeps every other observer, and is no longer than before |
| Bodies.Pocketed | src/level.cpp:199-202 | a potted ball is invisible, immovable and out of collisions; its audio observer, position, velocity, id and mass are kept |
| Bodies.OverlapBound | src/level.cpp:239-252 | a candidate can be in a ball's way (`hypot` below two radii) only right of the ball's x minus two radii |
| Bodies.OverlapsNear | src/level.cpp:239-252 | a candidate in a ball's way lies within two radii of its centre along each axis |
| Bodies.CoversNear | src/level.cpp:193-197 | a sensor within the ball's radius (`hypot` at most the radius) lies within one radius of its centre along each axis |
| Tables.Centre | src/table.cpp:11-12 | the origin centres the image: for a window at least as large as the image, the two margins are equal or differ by one pixel, the larger on the far side |
| Tables.RailLayout | src/table.cpp:17-32 | six rails, all observed by the given observer only; side rails 40 wide, top and bottom rails 40 tall; the left rail starts 3 left of the table and the right rail ends 3 right of it; the two halves of the top and bottom rails line up |
| Tables.Collider | src/table.cpp:35-42 | a pocket collider has id 999, is immovable, has mass `LONG_MAX` and has the observer added to its list |
| Tables.ColliderLayout | src/table.cpp:35-56 | twelve colliders, each with id 999, immovable, mass `LONG_MAX` and the observer; the left pairs mirror top to bottom: b[0] and b[6] at x+27, 58 from the top and from the bottom; b[1] and b[7] at x+58, 25 from either edge |
| Tables.LayoutFollowsOrigin | src/table.cpp:17-56 | every rail and every collider is a fixed offset from the origin: moving the origin moves each by the same amount |
| Tables.SetUpRails | src/table.cpp:17-32 | the `setShape`/`addObserver` sequence on the rail array yields exactly `RailLayout` |
| Tables.ReadyColliders | src/table.cpp:35-42 | after the set-up loop every element of the collider array is that element made a collider |
| Tables.SetUpColliders | src/table.cpp:35-56 | the set-up loop plus the twelve `setPos` calls yield exactly `ColliderLayout` |
| Tables.PlaceTop | src/table.cpp:45-50 | the six `setPos` calls at the top pockets put the first six colliders where the layout says and leave the rest alone |
| Tables.PlaceBottom | src/table.cpp:51-56 | the six `setPos` calls at the bottom pockets put the last six colliders where the layout says and leave the rest alone |
| Tables.Table.constructor | src/table.cpp:7-57 | a table with origin `Centre` of window and image sizes, its rail array equal to `RailLayout` and its collider array equal to `ColliderLayout` |
| Rules.ShooterGroup | include/level.h:34 | team colour 0 leaves the shooter without a group; otherwise the shooter owns solids exactly when colour 1 and player 1, or colour 2 and player 2 |
| Rules.TeamFor | src/level.cpp:416-421 | the team colour chosen for a claimed group gives that group to the shooter and the other group to the opponent |
| Rules.Claimed | src/level.cpp:416-421 | a non-empty shot claims solids exactly when every potted ball is a solid, and stripes exactly when every one is a stripe; a mixed shot claims neither |
| Rules.Judge | src/level.cpp:304-425 | the shot rules (listed below) |
| Placement.FirstBlocker | src/level.cpp:239-246 | the index of the first visible ball overlapping the candidate, none before it overlapping; 15 when none does |
| Placement.FirstBlockerIs | src/level.cpp:239-246 | a left-to-right scan that stops at the first overlapping visible ball finds `FirstBlocker` |
| Placement.SafeX | src/level.cpp:229-256 | the search terminates (decreasing measure: how many minimal shifts fit between x and the leftmost reach of any ball); its result is never right of the start and is clear of every visible ball and of the cue ball |
| Placement.ShiftShortens | src/level.cpp:240-252 | every pass that shifts lowers the termination measure by at least one and keeps it non-negative, since a ball only blocks right of x − 2r |
| Placement.Place | src/level.cpp:432-435 | a put-back ball is at the given (x, y) and at rest, with its id, visibility and radius kept |
| Placement.Returned | src/level.cpp:428-438 | one pass of the off-table loop changes only ball i, and only when it is off the table: it lands at rest on the search row at the x the free-spot search finds from 600 (so at most 600), clear of the cue ball and of every other visible ball |
| Placement.Respawned | src/level.cpp:427-438 | the whole off-table loop: balls on the table are untouched; every ball off it lands on the search row, at rest, with id, visibility and radius kept, clear of the cue ball, of every visible ball put back before it and of every visible ball that stayed on the table |
| Placement.RespawnedNothing | src/level.cpp:427-438 | with every ball on the table the off-table loop changes nothing |
| Placement.SearchRowOnTable | src/level.cpp:232 | on a table at least 6 tall the search row lies between the top and bottom edges |
| Placement.ReturnedOnTable | src/level.cpp:214-226 | a ball put back on the search row is on the table exactly when the search stopped between the left and right edges |
| Placement.SensorLayout | src/level.cpp:174-189 | six integer sensors; the two top corners share a row, the middle pair sits at x + w/2; on a table at least 70 wide and tall every sensor lies on the table |
| Placement.InPocketNear | src/level.cpp:193-197 | a ball counted as in a pocket has a sensor within one radius of its centre along each axis |
| Placement.Slot | src/level.cpp:144-147 | the rack is filled column by column with 5, 4, 3, 2 and 1 slots: index k is row r of column c with r < 5 − c |
| Placement.SlotOfColumn | src/level.cpp:144-147 | filling row j of column c writes slot `ColumnStart(c) + j`, below 15 |
| Placement.RackSwap | src/level.cpp:153-157 | the swaps move exactly the indices 4, 7, 8 and 10 and keep every index below 15 |
| Placement.RackSwapExchanges | src/level.cpp:153-157 | the swaps are the two exchanges 7 with 10 and 4 with 8: 7 goes to 10, 4 goes to 8, and swapping twice gives back every index |
| Placement.RackSlot | src/level.cpp:144-157 | after the swaps the eight-ball (index 7) is exactly in the middle of the middle column; the first column's corners hold ball 1 and ball 9; the apex holds ball 15 |
| Placement.RackSlotsDistinct | src/level.cpp:144-157 | no two balls share a rack slot |
| Placement.SpotOfFirstSlot | src/level.cpp:142-143 | the first ball of the rack is at x = 200, five radii above the table's middle |
| Placement.SpotDownColumn | src/level.cpp:146-147 | down a column each ball is one diameter below the first, at the same x |
| Placement.SpotNextColumn | src/level.cpp:149-150 | each column starts radius·√3 right of the previous one and one radius lower |
| Placement.RackSymmetric | src/level.cpp:141-151 | each column is symmetric about the row one spacing above the table's middle, and its balls share x |
| Placement.SlotsApart | src/level.cpp:141-151 | with an exact √3, the spots of two different slots are at least two spacings apart |
| Levels.Labelled | src/level.cpp:131-137 | ball k gets id k + 1 and both observers, keeping its position |
| Levels.Racked | src/level.cpp:128-158 | ball k gets id k + 1, both observers, and the spot of its rack slot after the swaps |
| Levels.RackedApart | src/level.cpp:141-151 | with an exact √3 no two racked balls overlap |
| Levels.CueTemplate | src/level.cpp:163-168 | the new cue ball has id 0, mass 13 and both observers |
| Levels.NewCueBall | src/level.cpp:160-172 | the recreated cue ball has id 0 and mass 13, sits on the search row at most at x = 600, and overlaps no visible object ball |
| Levels.Resolve | src/level.cpp:302-447 | resolution is the rules, then the object balls, then the cue ball; afterwards the potted list is empty, the shot is over, moving flag and first hit are kept, and team colour and result are the ones `Judge` gives |
| Levels.ResolveTurn | src/level.cpp:304-443 | the turn ends either unchanged or negated, never toggled twice; it stays exactly when the rules let it stay and no ball, object or cue, was off the table |
| Levels.ResolveBalls | src/level.cpp:427-438 | object balls on the table stay put; every one off the table returns to the search row, at most at x = 600, with zero velocity, clear of every visible ball put back before it and of every visible ball that stayed; when the cue ball is kept, clear of it too |
| Levels.ResolveCue | src/level.cpp:328-446 | the cue ball is kept unless potted or off the table; otherwise the new one has id 0 and mass 13, sits on the search row at most at x = 600 and overlaps no visible object ball that stayed on the table; a cue ball that left the table unpotted is replaced by one that overlaps no visible object ball at all |
| Levels.Ruled | src/level.cpp:304-425 | the rules half gives the team colour and result `Judge` decides, empties the potted list, keeps the balls, and changes nothing else of the frame state |
| Levels.BallsBack | src/level.cpp:427-438 | the object-ball off-table checks keep the cue ball, potted list, team, result, shot flag and first hit, and keep the state well formed |
| Levels.CueBack | src/level.cpp:440-446 | the cue-ball off-table check keeps the object balls, potted list, team, result and first hit, and ends the shot; a cue ball on the table and the turn stay; a cue ball off the table passes the turn and is replaced by one with id 0 and mass 13 on the search row, at most at x = 600, overlapping no visible object ball |
| Levels.Moved | src/level.cpp:49 | a moved ball takes the step's position and velocity, keeping id, radius and visibility |
| Levels.Advance | src/level.cpp:45-58 | a still ball is untouched; a moving one is moved, and if it then covers a sensor it becomes invisible, immovable and out of collisions |
| Levels.PottedIds | src/level.cpp:45-51 | the ids pushed in one frame are exactly those of balls that moved and landed in a pocket, no more than there are balls |
| Levels.PottedIdsCount | src/level.cpp:45-51 | every potted ball pushes its id exactly once: the list is as long as the set of balls that moved and landed in a pocket |
| Levels.NothingPottedWhenStill | src/level.cpp:45-51 | balls that did not move push nothing |
| Levels.Moves | src/level.cpp:43-58 | the moves of a frame: the moving flag says whether any ball moved; turn, team, result and shot flag stay; the first hit is the observer's when something moved; the potted list grows by the object balls' pocketed ids, in order, then the cue ball's; a frame in which nothing moves changes nothing else |
| Levels.Tick | src/level.cpp:41-68 | the moving flag says whether any ball moved, and then the first hit is the observer's; while balls move, turn, team, result and shot flag stay and the frame's pocketed ids are appended; a still frame after a shot resolves it; a still frame with no shot pending changes nothing |
| Levels.FoulAfterShot | src/level.cpp:306-321 | a shot whose balls roll with a first hit outside the shooter's group loses the turn at the first still frame after it, which ends the shot |
| Levels.Heard | src/level.cpp:34-37 | quitting is always heard; while balls move every other event is ignored; a strike resets the first hit, sets the cue ball's velocity and marks the shot as made |
| Levels.Handled | src/level.cpp:28-39 | a frame of events changes only result, first hit, shot flag and the cue ball's velocity; the result is Quit exactly when a quit event came; while balls move only quitting is heard; otherwise the shot flag is set exactly when a strike came or it was set, and any strike resets the first hit |
| Levels.Level.constructor | src/level.cpp:11-26 | a new level with the initial flags of include/level.h: player 1 to shoot, team colour 0, no shot made, nothing moving, nothing potted; the balls racked by `Racked`; the cue ball from `NewCueBall`; the sensors from `SensorLayout` |
| Levels.Level.CreateBalls | src/level.cpp:128-158 | the labelling loop, the column-by-column placing loops and the two swaps leave ball k equal to `Racked` for k |
| Levels.Level.FillRack | src/level.cpp:139-151 | the placing loops put ball k on the spot of slot k |
| Levels.Level.CreateCueBall | src/level.cpp:160-172 | the cue ball becomes `NewCueBall` among the current object balls |
| Levels.Level.CreateSensors | src/level.cpp:174-189 | the sensor array becomes `SensorLayout` of the table's bounds |
| Levels.Level.GetSafePos | src/level.cpp:229-256 | the loop returns y on the search row and x = `SafeX` from 600, at most 600, clear of every visible ball and of the cue ball |
| Levels.Level.FirstInWay | src/level.cpp:239-246 | the inner scan returns `FirstBlocker` |
| Levels.Level.CheckPocket | src/level.cpp:191-211 | returns true exactly when some sensor lies within the ball's radius; then the ball is `Pocketed` and its id is appended once; otherwise ball and list are unchanged |
| Levels.Level.BallOffTable | src/level.cpp:214-226 | true exactly when the ball lies left of, right of, above or below the table (`OffTable`) |
| Levels.Level.AnyVisibleBetween | src/level.cpp:348-352 | the flag is set exactly when some visible ball has an id strictly between the bounds |
| Levels.Level.ChangeState | src/level.cpp:302-447 | the new state of the level is `Resolve` of the old one |
| Levels.Level.ShotRules | src/level.cpp:304-425 | the foul, potted and group checks give the turn, team colour, result and cue ball that `Judge` decides, and empty the potted list: the new state is `Ruled` of the old one |
| Levels.Level.FoulCheck | src/level.cpp:306-321 | the turn passes exactly when the first hit is a foul for the shooter's group |
| Levels.Level.ClaimGroup | src/level.cpp:415-422 | the team colour changes only while it is 0, and then to the colour giving the shooter the group the shot claims |
| Levels.Level.PottedRules | src/level.cpp:328-413 | a scratch recreates the cue ball and passes the turn; a shooter with a group who potted none of it passes the turn; the result is the one `Judge` gives |
| Levels.Level.ReturnBalls | src/level.cpp:427-438 | the off-table loop leaves the balls `Respawned`, and the turn passes exactly when some ball was off the table |
| Levels.Level.ReturnBall | src/level.cpp:428-438 | one iteration yields `Returned` and passes the turn exactly when that ball was off the table |
| Levels.Level.ReturnCue | src/level.cpp:440-446 | the new state is `CueBack` of the old one: an off-table cue ball is recreated and passes the turn, and the shot is over |
| Levels.Level.Logic | src/level.cpp:41-68 | the new state is `Tick` of the old one, with the first hit `hit` the observer holds after the moves |
| Levels.Level.MoveAll | src/level.cpp:43-58 | the moving part of a frame yields `Moves` of the old state |
| Levels.Level.MoveBalls | src/level.cpp:45-51 | each object ball becomes its `Advance`; the potted list grows by `PottedIds`; the moving flag is set exactly when some object ball moved |
| Levels.Level.MoveBall | src/level.cpp:46-51 | a moving ball sets the moving flag, moves, and, if it then covers a sensor, is pocketed with its id appended; a still ball changes nothing |
| Levels.Level.HandleEvents | src/level.cpp:28-39 | the new state is `Handled` of the old one, and the level stays well formed |
| Levels.Level.HandleWhenStill | src/level.cpp:92-108 | a strike resets the first hit, gives the cue ball the shot's velocity and marks the shot as made; any other event changes none of these |

`Rules.Judge` states the shot rules as follows:

- **Fouls on the first hit.**
  - If the shooter owns solids, a first hit in 8..15 passes the turn.
  - If the shooter owns stripes, a first hit in 1..8 passes the turn.
  - A first hit ≤ 0 is never a foul.
- **Potted balls.**
  - Potting nothing passes the turn.
  - A potted cue ball is a scratch and passes the turn.
  - A shooter with a group who potted none of it passes the turn, and the eight-ball is not judged.
- **The eight-ball.**
  - With team colour 0 it loses.
  - Otherwise it wins exactly when no visible ball of the shooter's group remains, and loses exactly when one does.
- **Groups.**
  - A colour once set is never changed.
  - With colour 0, an all-solid shot gives player 1 colour 1 and player 2 colour 2; an all-stripe shot gives the reverse.
- **The turn stays** exactly when there is no foul, something was potted, the cue ball was not, and the shooter has no group or potted some of it.

## Left out

- Rendering, textures, fonts, `render_head`, `recenter_cue` and `Table::render`: these are presentation and asset loading.
- SDL event polling: the events of a frame are a parameter.
- The cue angle from mouse motion: this is trigonometry on floating point. A mouse-motion event is accepted and changes nothing that is modelled.
- The strike velocity from `sin` and `cos`: it is a parameter (`shots`).
- `Ball::move`, `is_moving`, collision response, `notify`, and the audio and collision observers: ball.h, collisionobserver.h and audioobserver.h are not part of this model, and the physics is floating point. Movement enters as the parameters `moving` and `steps`.
- How the collision observer records the first hit during a shot: collisionobserver.h is not part of this model. The first hit is a field, reset to -1 by a strike. After a frame in which something moved it takes the parameter `hit`; a frame in which nothing moves has no collisions and keeps it.
- `GameState` switching and the main loop: these are the application shell.
- Floating-point rounding: positions and velocities are exact reals. `hypot(d) < 2r` and `hypot(d) <= r` are compared on squares, which is equivalent for exact reals.
- Levels.Level.constructor: what a default-constructed ball holds after `setTex` is the parameter `blank`, because ball.h and texture.h are not part of this model. The window size is a parameter, because mainwindow.h is not part of this model. The first hit is assumed to start at -1. `GameState::next_state` is assumed to hold no request (`None`) when the level is made, because gamestate.h is not part of this model.
- Tables.Centre: models a signed window − image difference halved with truncation. When the image is wider than the window, an unsigned subtraction in the source would wrap instead; the size types are in headers that are not part of this model.
- Placement.OffTable: computes X + W and Y + H as mathematical integers, with no unsigned wrap-around.
- Tables.LongMax: taken as the maximum of a 64-bit `long`. On a target with a 32-bit `long` it is 2147483647.
- Bodies.Without: removing an observer is modelled as removing every registration of it, because the subject class is not part of this model.
- Levels.RackedApart: proved for an exact √3 only. With a rounded `std::sqrt(3)` the diagonal neighbours are apart only up to rounding.
