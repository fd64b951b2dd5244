/**
 * The mutable game of Game.js: the `player` object and the module-level
 * state, updated in place by `update()` and the spawners. Every method is
 * proved against the phase function of `World` that describes it.
 */
module GameLoop {
  import opened Geometry
  import opened Seqs
  import opened World
  import opened WorldProps

  /** The `player` object (Game.js:10-24); its constant attributes are the constants of `World`. */
  class Player {
    var x: real
    var y: real
    var dy: real
    var grounded: bool
    var deepSearch: bool
    var thinkMode: bool
    var thinkModeTimer: int

    constructor (c: Canvas)
      ensures State() == PlayerState(START_X, c.height - START_RISE, 0.0, false, false, false, 0)
    {
      x, y, dy := START_X, c.height - START_RISE, 0.0;
      grounded, deepSearch, thinkMode := false, false, false;
      thinkModeTimer := 0;
    }

    function State(): PlayerState
      reads this
    {
      PlayerState(x, y, dy, grounded, deepSearch, thinkMode, thinkModeTimer)
    }

    function Bounds(): Box
      reads this
    {
      Box(x, y, PLAYER_WIDTH, PLAYER_HEIGHT)
    }
  }

  /**
   * The `bones.filter` callback of Game.js:173-179: a bone the player picks up
   * is dropped and counted, every other bone is kept in order. The callback's
   * `score++` is returned as `gained`, which the caller adds to the score.
   */
  method SiftBones(bones: seq<Bone>, pb: Box, deep: bool) returns (kept: seq<Bone>, gained: nat)
    ensures kept == Filter(bones, KeepTest(pb, deep))
    ensures gained == |Filter(bones, PickTest(pb, deep))|
    ensures gained == |bones| - |kept|
  {
    kept, gained := [], 0;
    for i := 0 to |bones|
      invariant kept == Filter(bones[..i], KeepTest(pb, deep))
      invariant gained == |Filter(bones[..i], PickTest(pb, deep))|
    {
      var bone := bones[i];
      assert bones[..i + 1] == bones[..i] + [bone];
      FilterSnoc(bones[..i], bone, KeepTest(pb, deep));
      FilterSnoc(bones[..i], bone, PickTest(pb, deep));
      if Collides(pb, bone.box) && (!bone.hidden || deep) {
        gained := gained + 1;
      } else {
        kept := kept + [bone];
      }
    }
    assert bones[..|bones|] == bones;
    FilterSplits(bones, KeepTest(pb, deep), PickTest(pb, deep));
  }

  /** One robot's move and turn, Game.js:155-159: the robot object is updated in place there. */
  method PatrolRobot(platforms: seq<Box>, robot: Robot, slow: bool) returns (r: Robot)
    ensures r == Patrol(platforms, robot, slow)
  {
    r := robot.(box := robot.box.(x := robot.box.x + Scale(robot.speed, slow)));
    var platform := FindTop(platforms, r.box.y + r.box.height);
    if platform.Some? &&
       (r.box.x < platforms[platform.value].x ||
        r.box.x + r.box.width > platforms[platform.value].x + platforms[platform.value].width) {
      r := r.(speed := -r.speed);
    }
  }

  class Game {
    const canvas: Canvas
    const platforms: seq<Box>
    const player: Player
    var score: int
    var gameTime: int
    var bones: seq<Bone>
    var hiddenBones: seq<Bone>
    var asteroids: seq<Asteroid>
    var robots: seq<Robot>

    function State(): WorldState
      reads this, player
    {
      WorldState(player.State(), bones, hiddenBones, asteroids, robots, score, gameTime)
    }

    /** The fixed geometry: a canvas wide enough for the restart position, and its three platforms. */
    predicate Fixed()
    {
      ValidCanvas(canvas) && platforms == Platforms(canvas)
    }

    ghost predicate Valid()
      reads this, player
    {
      Fixed() && Invariant(canvas, State())
    }

    /** Page load: the initial state, then one spawn of each kind (Game.js:6-35, 224-226). */
    constructor (c: Canvas, d: Draws)
      requires ValidCanvas(c) && ValidDraws(d)
      ensures Valid() && canvas == c && fresh(player)
      ensures State() == Initial(c, d)
    {
      canvas := c;
      platforms := Platforms(c);
      player := new Player(c);
      score, gameTime := 0, 0;
      bones, hiddenBones, asteroids, robots := [], [], [], [];
      new;
      SpawnBone(d);
      SpawnAsteroid(d);
      SpawnRobot(d);
      InitialInvariant(c, d);
    }

    method SpawnBone(d: Draws)
      requires Fixed() && ValidDraws(d)
      modifies this
      ensures State() == old(State()).(bones := old(bones) + [NewBone(canvas, d)])
    {
      var platform := platforms[PlatformIndex(d.bonePlatform)];
      bones := bones + [Bone(Box(platform.x + d.boneOffset * (platform.width - BONE_SIZE), platform.y - BONE_SIZE,
                                 BONE_SIZE, BONE_SIZE),
                             d.boneHidden < HIDDEN_CHANCE)];
    }

    method SpawnAsteroid(d: Draws)
      modifies this
      ensures State() == old(State()).(asteroids := old(asteroids) + [NewAsteroid(canvas, d)])
    {
      var a := Asteroid(Box(canvas.width, d.asteroidHeight * (canvas.height - ASTEROID_CEILING_GAP),
                            ASTEROID_SIZE, ASTEROID_SIZE),
                        ASTEROID_MIN_SPEED + d.asteroidSpeed * ASTEROID_SPEED_RANGE);
      assert a == NewAsteroid(canvas, d);
      asteroids := asteroids + [a];
    }

    method SpawnRobot(d: Draws)
      requires Fixed() && ValidDraws(d)
      modifies this
      ensures State() == old(State()).(robots := old(robots) + [NewRobot(canvas, d)])
    {
      var platform := platforms[PlatformIndex(d.robotPlatform)];
      robots := robots + [Robot(Box(platform.x + platform.width - ROBOT_SIZE, platform.y - ROBOT_SIZE,
                                    ROBOT_SIZE, ROBOT_SIZE),
                                ROBOT_SPEED)];
    }

    /** One frame of `update()` (Game.js:84-184), drawing left out. */
    method Update(keys: Keys, d: Draws)
      requires Valid() && ValidDraws(d)
      modifies this, player
      ensures Valid()
      ensures State() == Step(canvas, old(State()), keys, d)
    {
      ghost var w := State();
      HandleInput(keys);
      ApplyGravity();
      KeepInBounds();
      LandOnPlatforms();
      TickThinkMode();
      UpdateAsteroids();
      UpdateRobots();
      CollectBones();
      SpawnObjects(d);
      StepPreservesInvariant(canvas, w, keys, d);
    }

    /** Game.js:85-106. */
    method HandleInput(keys: Keys)
      modifies this, player
      ensures State() == Input(old(State()), keys)
    {
      MoveByKeys(keys);
      ToggleDeepSearch(keys.d);
      StartThinkMode(keys.t);
    }

    /** Game.js:85-93: the frame counter, the arrow keys and the jump. */
    method MoveByKeys(keys: Keys)
      modifies this, player
      ensures State() == Move(old(State()), keys)
    {
      gameTime := gameTime + 1;
      if keys.left { player.x := player.x - PLAYER_SPEED; }
      if keys.right { player.x := player.x + PLAYER_SPEED; }
      if keys.space && player.grounded {
        player.dy := JUMP_POWER;
        player.grounded := false;
      }
    }

    /** Game.js:94-102. */
    method ToggleDeepSearch(held: bool)
      modifies this, player
      ensures State() == DeepSearch(old(State()), held)
    {
      if held && !player.deepSearch {
        player.deepSearch := true;
        hiddenBones := Filter(bones, IsHidden);
        bones := Filter(bones, IsShown);
      } else if !held {
        player.deepSearch := false;
        bones := bones + hiddenBones;
        hiddenBones := [];
      }
    }

    /** Game.js:103-106. */
    method StartThinkMode(held: bool)
      modifies player
      ensures State() == ThinkActivate(old(State()), held)
    {
      if held && !player.thinkMode {
        player.thinkMode := true;
        player.thinkModeTimer := THINK_MODE_DURATION;
      }
    }

    /** Game.js:108-110. */
    method ApplyGravity()
      modifies player
      ensures State() == World.ApplyGravity(old(State()))
    {
      player.dy := player.dy + GRAVITY;
      player.y := player.y + player.dy;
    }

    /** Game.js:112-119. */
    method KeepInBounds()
      modifies player
      ensures State() == Clamp(canvas, old(State()))
    {
      if player.x < 0.0 { player.x := 0.0; }
      if player.x + PLAYER_WIDTH > canvas.width { player.x := canvas.width - PLAYER_WIDTH; }
      if player.y + PLAYER_HEIGHT > canvas.height {
        player.y := canvas.height - PLAYER_HEIGHT;
        player.dy := 0.0;
        player.grounded := true;
      }
    }

    /** Game.js:121-129. */
    method LandOnPlatforms()
      requires Fixed()
      modifies player
      ensures State() == Land(canvas, old(State()))
    {
      player.grounded := false;
      ghost var start := player.State();
      for i := 0 to |platforms|
        invariant player.State() == LandOn(start, platforms[..i])
      {
        var platform := platforms[i];
        if Collides(player.Bounds(), platform) && player.dy > 0.0 && player.y + PLAYER_HEIGHT - player.dy <= platform.y {
          player.y := platform.y - PLAYER_HEIGHT;
          player.dy := 0.0;
          player.grounded := true;
        }
        assert platforms[..i + 1][..i] == platforms[..i];
      }
      assert platforms[..|platforms|] == platforms;
    }

    /** Game.js:131-135. */
    method TickThinkMode()
      modifies player
      ensures State() == ThinkTick(old(State()))
    {
      if player.thinkMode {
        player.thinkModeTimer := player.thinkModeTimer - 1;
        if player.thinkModeTimer <= 0 { player.thinkMode := false; }
      }
    }

    /** The reset after a hazard collision (Game.js:142-148, 161-167); the message text is left out. */
    method ResetWorld()
      modifies this, player
      ensures State() == Reset(canvas, old(State()))
    {
      score := 0;
      player.x := START_X;
      player.y := canvas.height - START_RISE;
      player.dy := 0.0;
      asteroids := [];
      robots := [];
      bones := [];
    }

    /**
     * Game.js:137-151. The loop runs over the filtered array `pass`; the
     * field names that same array until a reset reassigns it, after which
     * the loop goes on moving the old asteroids.
     */
    method UpdateAsteroids()
      modifies this, player
      ensures State() == Asteroids(canvas, old(State()))
    {
      ghost var w := State();
      asteroids := Filter(asteroids, OnScreen);
      var pass := asteroids;
      ghost var kept := pass;
      var hit := false;
      for i := 0 to |pass|
        invariant |pass| == |kept|
        invariant forall j :: 0 <= j < i ==> pass[j] == Drift(kept[j], w.player.thinkMode)
        invariant forall j :: i <= j < |pass| ==> pass[j] == kept[j]
        invariant player.thinkMode == w.player.thinkMode
        invariant hit <==> exists j :: 0 <= j < i && Collides(PlayerBox(w.player), pass[j].box)
        invariant hit ==> State() == Reset(canvas, w)
        invariant !hit ==> State() == w.(asteroids := pass)
      {
        var asteroid := pass[i];
        asteroid := asteroid.(box := asteroid.box.(x := asteroid.box.x - Scale(asteroid.speed, player.thinkMode)));
        pass := pass[i := asteroid];
        if !hit { asteroids := pass; }
        if Collides(player.Bounds(), asteroid.box) {
          ResetWorld();
          hit := true;
        }
      }
      assert pass == MovedAsteroids(w);
    }

    /** Game.js:153-170, with the same aliasing as the asteroid loop. */
    method UpdateRobots()
      requires Fixed()
      modifies this, player
      ensures State() == Robots(canvas, old(State()))
    {
      ghost var w := State();
      var pass := robots;
      var hit := false;
      for i := 0 to |pass|
        invariant |pass| == |w.robots|
        invariant forall j :: 0 <= j < i ==> pass[j] == Patrol(platforms, w.robots[j], w.player.thinkMode)
        invariant forall j :: i <= j < |pass| ==> pass[j] == w.robots[j]
        invariant player.thinkMode == w.player.thinkMode
        invariant hit <==> exists j :: 0 <= j < i && Collides(PlayerBox(w.player), pass[j].box)
        invariant hit ==> State() == Reset(canvas, w)
        invariant !hit ==> State() == w.(robots := pass)
      {
        var robot := PatrolRobot(platforms, pass[i], player.thinkMode);
        pass := pass[i := robot];
        if !hit { robots := pass; }
        if Collides(player.Bounds(), robot.box) {
          ResetWorld();
          hit := true;
        }
      }
      assert pass == MovedRobots(canvas, w);
    }

    /** Game.js:172-179. */
    method CollectBones()
      modifies this
      ensures State() == Collect(old(State()))
    {
      var kept, gained := SiftBones(bones, player.Bounds(), player.deepSearch);
      score := score + gained;
      bones := kept;
    }

    /** Game.js:181-184. */
    method SpawnObjects(d: Draws)
      requires Fixed() && ValidDraws(d)
      modifies this
      ensures State() == Spawn(canvas, d, old(State()))
    {
      if gameTime % BONE_EVERY == 0 { SpawnBone(d); }
      if gameTime % ASTEROID_EVERY == 0 { SpawnAsteroid(d); }
      if gameTime % ROBOT_EVERY == 0 { SpawnRobot(d); }
    }
  }
}
