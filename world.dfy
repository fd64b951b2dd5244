/**
 * The world of Game.js as a value, and one function per phase of `update()`
 * (Game.js:84-184 without the drawing). `Step` composes the phases in the
 * order the source runs them; the class in game.dfy is proved against it.
 */
module World {
  import opened Geometry
  import opened Seqs

  // The player's fixed attributes (Game.js:13-23).
  const PLAYER_WIDTH: real := 40.0
  const PLAYER_HEIGHT: real := 40.0
  const PLAYER_SPEED: real := 5.0
  const GRAVITY: real := 0.5
  const JUMP_POWER: real := -12.0
  const THINK_MODE_DURATION: int := 120

  // Where a hazard collision puts the player back (Game.js:143-144, 162-163).
  const START_X: real := 50.0
  const START_RISE: real := 50.0

  // Spawned entities (Game.js:43-73).
  const BONE_SIZE: real := 20.0
  const HIDDEN_CHANCE: real := 0.3
  const ASTEROID_SIZE: real := 30.0
  const ASTEROID_MIN_SPEED: real := 3.0
  const ASTEROID_SPEED_RANGE: real := 2.0
  const ASTEROID_CEILING_GAP: real := 100.0
  const ROBOT_SIZE: real := 40.0
  const ROBOT_SPEED: real := -2.0

  // Spawn cadence in frames (Game.js:182-184).
  const BONE_EVERY: int := 60
  const ASTEROID_EVERY: int := 120
  const ROBOT_EVERY: int := 180

  /** The canvas dimensions, fixed for the life of the page. */
  datatype Canvas = Canvas(width: real, height: real)

  /** Wide enough that the restart position lies inside the horizontal clamp. */
  predicate ValidCanvas(c: Canvas)
  {
    c.width >= START_X + PLAYER_WIDTH
  }

  datatype PlayerState = PlayerState(
    x: real, y: real, dy: real,
    grounded: bool, deepSearch: bool, thinkMode: bool,
    thinkModeTimer: int)

  datatype Bone = Bone(box: Box, hidden: bool)
  datatype Asteroid = Asteroid(box: Box, speed: real)
  datatype Robot = Robot(box: Box, speed: real)

  /** The held keys the step reads: `ArrowLeft`, `ArrowRight`, `Space`, `d`, `t`. */
  datatype Keys = Keys(left: bool, right: bool, space: bool, d: bool, t: bool)

  /** The `Math.random()` values the three spawners may consume this frame. */
  datatype Draws = Draws(
    bonePlatform: real, boneOffset: real, boneHidden: real,
    asteroidHeight: real, asteroidSpeed: real,
    robotPlatform: real)

  predicate UnitDraw(r: real) { 0.0 <= r < 1.0 }

  predicate ValidDraws(d: Draws)
  {
    UnitDraw(d.bonePlatform) && UnitDraw(d.boneOffset) && UnitDraw(d.boneHidden) &&
    UnitDraw(d.asteroidHeight) && UnitDraw(d.asteroidSpeed) && UnitDraw(d.robotPlatform)
  }

  datatype WorldState = WorldState(
    player: PlayerState,
    bones: seq<Bone>,
    hiddenBones: seq<Bone>,
    asteroids: seq<Asteroid>,
    robots: seq<Robot>,
    score: int,
    gameTime: int)

  function PlayerBox(p: PlayerState): Box
  {
    Box(p.x, p.y, PLAYER_WIDTH, PLAYER_HEIGHT)
  }

  const PLATFORM_COUNT: nat := 3

  /** The three static platforms (Game.js:31-35). */
  function Platforms(c: Canvas): (ps: seq<Box>)
    ensures |ps| == PLATFORM_COUNT
  {
    [ Box(0.0, c.height - 20.0, 200.0, 20.0),
      Box(300.0, c.height - 100.0, 200.0, 20.0),
      Box(600.0, c.height - 200.0, 200.0, 20.0) ]
  }

  /** The world before the first frame: the start position, empty collections, one spawn of each kind (Game.js:6-35, 224-226). */
  function Initial(c: Canvas, d: Draws): WorldState
    requires ValidDraws(d)
  {
    WorldState(
      PlayerState(START_X, c.height - START_RISE, 0.0, false, false, false, 0),
      [NewBone(c, d)], [], [NewAsteroid(c, d)], [NewRobot(c, d)], 0, 0)
  }

  // ----- Spawners (Game.js:43-73) -----

  /** `Math.floor(Math.random() * platforms.length)`, the list having its fixed length. */
  function PlatformIndex(r: real): (i: nat)
    requires UnitDraw(r)
    ensures i < PLATFORM_COUNT
    ensures i as real <= r * PLATFORM_COUNT as real < i as real + 1.0
  {
    (r * PLATFORM_COUNT as real).Floor
  }

  function NewBone(c: Canvas, d: Draws): Bone
    requires ValidDraws(d)
  {
    var p := Platforms(c)[PlatformIndex(d.bonePlatform)];
    Bone(Box(p.x + d.boneOffset * (p.width - BONE_SIZE), p.y - BONE_SIZE, BONE_SIZE, BONE_SIZE),
         d.boneHidden < HIDDEN_CHANCE)
  }

  function NewAsteroid(c: Canvas, d: Draws): Asteroid
  {
    Asteroid(Box(c.width, d.asteroidHeight * (c.height - ASTEROID_CEILING_GAP), ASTEROID_SIZE, ASTEROID_SIZE),
             ASTEROID_MIN_SPEED + d.asteroidSpeed * ASTEROID_SPEED_RANGE)
  }

  function NewRobot(c: Canvas, d: Draws): Robot
    requires ValidDraws(d)
  {
    var p := Platforms(c)[PlatformIndex(d.robotPlatform)];
    Robot(Box(p.x + p.width - ROBOT_SIZE, p.y - ROBOT_SIZE, ROBOT_SIZE, ROBOT_SIZE), ROBOT_SPEED)
  }

  // ----- Input (Game.js:85-106) -----

  /** Frame counter, horizontal keys and the jump, which only a grounded player can start. */
  function Move(w: WorldState, k: Keys): WorldState
  {
    var p := w.player;
    var x1 := if k.left then p.x - PLAYER_SPEED else p.x;
    var x2 := if k.right then x1 + PLAYER_SPEED else x1;
    var moved := p.(x := x2);
    var jumped := if k.space && p.grounded then moved.(dy := JUMP_POWER, grounded := false) else moved;
    w.(player := jumped, gameTime := w.gameTime + 1)
  }

  predicate IsHidden(b: Bone) { b.hidden }
  predicate IsShown(b: Bone) { !b.hidden }

  /** Deep search: park the hidden bones on the first held frame, merge them back on every frame the key is up. */
  function DeepSearch(w: WorldState, held: bool): WorldState
  {
    if held && !w.player.deepSearch then
      w.(player := w.player.(deepSearch := true),
         hiddenBones := Filter(w.bones, IsHidden),
         bones := Filter(w.bones, IsShown))
    else if !held then
      w.(player := w.player.(deepSearch := false),
         bones := w.bones + w.hiddenBones,
         hiddenBones := [])
    else w
  }

  /** Think mode starts its countdown only when the key is held and the mode is off. */
  function ThinkActivate(w: WorldState, held: bool): WorldState
  {
    if held && !w.player.thinkMode then
      w.(player := w.player.(thinkMode := true, thinkModeTimer := THINK_MODE_DURATION))
    else w
  }

  function Input(w: WorldState, k: Keys): WorldState
  {
    ThinkActivate(DeepSearch(Move(w, k), k.d), k.t)
  }

  // ----- Physics (Game.js:108-129) -----

  function ApplyGravity(w: WorldState): WorldState
  {
    var dy := w.player.dy + GRAVITY;
    w.(player := w.player.(dy := dy, y := w.player.y + dy))
  }

  /** The two horizontal clamps, in source order, then the floor clamp. */
  function Clamp(c: Canvas, w: WorldState): WorldState
  {
    var p := w.player;
    var x1 := if p.x < 0.0 then 0.0 else p.x;
    var x2 := if x1 + PLAYER_WIDTH > c.width then c.width - PLAYER_WIDTH else x1;
    var p1 := p.(x := x2);
    var p2 := if p1.y + PLAYER_HEIGHT > c.height then p1.(y := c.height - PLAYER_HEIGHT, dy := 0.0, grounded := true) else p1;
    w.(player := p2)
  }

  /** The landing test of Game.js:124: overlapping, falling, and the bottom was at or above the top before this frame's move. */
  predicate Lands(p: PlayerState, q: Box)
  {
    Collides(PlayerBox(p), q) && p.dy > 0.0 && p.y + PLAYER_HEIGHT - p.dy <= q.y
  }

  function LandOnce(p: PlayerState, q: Box): PlayerState
  {
    if Lands(p, q) then p.(y := q.y - PLAYER_HEIGHT, dy := 0.0, grounded := true) else p
  }

  /** The platform loop, one platform after the other in list order. */
  function LandOn(p: PlayerState, ps: seq<Box>): PlayerState
    decreases |ps|
  {
    if ps == [] then p else LandOnce(LandOn(p, ps[..|ps| - 1]), ps[|ps| - 1])
  }

  /** `grounded` is cleared (discarding the floor clamp's `true`) before the platform loop. */
  function Land(c: Canvas, w: WorldState): WorldState
  {
    w.(player := LandOn(w.player.(grounded := false), Platforms(c)))
  }

  function Physics(c: Canvas, w: WorldState): WorldState
  {
    Land(c, Clamp(c, ApplyGravity(w)))
  }

  // ----- Think mode countdown (Game.js:131-135) -----

  function ThinkTick(w: WorldState): WorldState
  {
    var p := w.player;
    if p.thinkMode then
      var t := p.thinkModeTimer - 1;
      w.(player := p.(thinkModeTimer := t, thinkMode := !(t <= 0)))
    else w
  }

  /** Everything the frame does before the hazards move. */
  function PreHazards(c: Canvas, w: WorldState, k: Keys): WorldState
  {
    ThinkTick(Physics(c, Input(w, k)))
  }

  // ----- Hazards (Game.js:137-170) -----

  /** `v * (thinkMode ? 0.5 : 1)`. */
  function Scale(v: real, slow: bool): real
  {
    if slow then v * 0.5 else v
  }

  /** The collision outcome: score, player position and the three live collections are reset; `hiddenBones` is not. */
  function Reset(c: Canvas, w: WorldState): WorldState
  {
    w.(score := 0,
       player := w.player.(x := START_X, y := c.height - START_RISE, dy := 0.0),
       asteroids := [], robots := [], bones := [])
  }

  predicate OnScreen(a: Asteroid) { a.box.x > -a.box.width }

  function Drift(a: Asteroid, slow: bool): Asteroid
  {
    a.(box := a.box.(x := a.box.x - Scale(a.speed, slow)))
  }

  /** The surviving asteroids after this frame's move. */
  function DriftAll(s: seq<Asteroid>, slow: bool): seq<Asteroid>
  {
    seq(|s|, i requires 0 <= i < |s| => Drift(s[i], slow))
  }

  function MovedAsteroids(w: WorldState): seq<Asteroid>
  {
    DriftAll(Filter(w.asteroids, OnScreen), w.player.thinkMode)
  }

  predicate AsteroidHit(w: WorldState)
  {
    var moved := MovedAsteroids(w);
    exists i :: 0 <= i < |moved| && Collides(PlayerBox(w.player), moved[i].box)
  }

  /**
   * Filter, then move and test each asteroid. A collision resets the world;
   * the loop goes on over the old array, and a later collision only repeats
   * the same reset, so one collision anywhere decides the outcome.
   */
  function Asteroids(c: Canvas, w: WorldState): WorldState
  {
    if AsteroidHit(w) then Reset(c, w) else w.(asteroids := MovedAsteroids(w))
  }

  /** `platforms.find(p => p.y === top)` as an index. */
  function FindTop(ps: seq<Box>, top: real): (r: Option<nat>)
    ensures r.Some? ==> r.value < |ps| && ps[r.value].y == top
    ensures r.Some? ==> forall j :: 0 <= j < r.value ==> ps[j].y != top
    ensures r.None? ==> forall j :: 0 <= j < |ps| ==> ps[j].y != top
  {
    if ps == [] then None
    else if ps[0].y == top then Some(0)
    else match FindTop(ps[1..], top)
      case Some(k) => Some(k + 1)
      case None => None
  }

  /** The robot's horizontal extent is not within the platform's. */
  predicate Overhangs(b: Box, q: Box)
  {
    b.x < q.x || b.x + b.width > q.x + q.width
  }

  /** One robot's move and its turn at a platform edge (Game.js:155-159). */
  function Patrol(ps: seq<Box>, r: Robot, slow: bool): Robot
  {
    var moved := r.(box := r.box.(x := r.box.x + Scale(r.speed, slow)));
    match FindTop(ps, moved.box.y + moved.box.height)
    case Some(k) => if Overhangs(moved.box, ps[k]) then moved.(speed := -moved.speed) else moved
    case None => moved
  }

  function PatrolAll(ps: seq<Box>, s: seq<Robot>, slow: bool): seq<Robot>
  {
    seq(|s|, i requires 0 <= i < |s| => Patrol(ps, s[i], slow))
  }

  function MovedRobots(c: Canvas, w: WorldState): seq<Robot>
  {
    PatrolAll(Platforms(c), w.robots, w.player.thinkMode)
  }

  predicate RobotHit(c: Canvas, w: WorldState)
  {
    var moved := MovedRobots(c, w);
    exists i :: 0 <= i < |moved| && Collides(PlayerBox(w.player), moved[i].box)
  }

  function Robots(c: Canvas, w: WorldState): WorldState
  {
    if RobotHit(c, w) then Reset(c, w) else w.(robots := MovedRobots(c, w))
  }

  // ----- Bone collection (Game.js:172-179) -----

  /** A bone is picked up when the player touches it and it is visible or deep search is on. */
  predicate Picked(pb: Box, deep: bool, b: Bone)
  {
    Collides(pb, b.box) && (!b.hidden || deep)
  }

  function PickTest(pb: Box, deep: bool): Bone -> bool
  {
    b => Picked(pb, deep, b)
  }

  function KeepTest(pb: Box, deep: bool): Bone -> bool
  {
    b => !Picked(pb, deep, b)
  }

  /** The bones that are not picked stay; every picked bone is worth one point. */
  function Collect(w: WorldState): WorldState
  {
    var pb := PlayerBox(w.player);
    var deep := w.player.deepSearch;
    w.(bones := Filter(w.bones, KeepTest(pb, deep)),
       score := w.score + |Filter(w.bones, PickTest(pb, deep))|)
  }

  // ----- Spawn cadence (Game.js:181-184) -----

  function Spawn(c: Canvas, d: Draws, w: WorldState): WorldState
    requires ValidDraws(d)
  {
    var w1 := if w.gameTime % BONE_EVERY == 0 then w.(bones := w.bones + [NewBone(c, d)]) else w;
    var w2 := if w1.gameTime % ASTEROID_EVERY == 0 then w1.(asteroids := w1.asteroids + [NewAsteroid(c, d)]) else w1;
    if w2.gameTime % ROBOT_EVERY == 0 then w2.(robots := w2.robots + [NewRobot(c, d)]) else w2
  }

  // ----- The whole frame -----

  function Hazards(c: Canvas, w: WorldState): WorldState
  {
    Robots(c, Asteroids(c, w))
  }

  function Step(c: Canvas, w: WorldState, k: Keys, d: Draws): WorldState
    requires ValidDraws(d)
  {
    Spawn(c, d, Collect(Hazards(c, PreHazards(c, w, k))))
  }

  predicate AllValid(ds: seq<Draws>)
  {
    forall i :: 0 <= i < |ds| ==> ValidDraws(ds[i])
  }

  /** The frames the host schedules one after another (Game.js:220), each with its held keys and draws. */
  function Frames(c: Canvas, w: WorldState, ks: seq<Keys>, ds: seq<Draws>): WorldState
    requires |ks| == |ds| && AllValid(ds)
    decreases |ks|
  {
    if ks == [] then w
    else
      var n := |ks| - 1;
      Step(c, Frames(c, w, ks[..n], ds[..n]), ks[n], ds[n])
  }

  /** What every frame preserves. */
  predicate Invariant(c: Canvas, w: WorldState)
  {
    w.score >= 0 && w.gameTime >= 0 &&
    0.0 <= w.player.x <= c.width - PLAYER_WIDTH &&
    (!w.player.deepSearch ==> w.hiddenBones == []) &&
    (forall i :: 0 <= i < |w.hiddenBones| ==> w.hiddenBones[i].hidden) &&
    (w.player.thinkMode ==> 0 < w.player.thinkModeTimer <= THINK_MODE_DURATION)
  }
}
