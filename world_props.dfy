/** Properties of the frame step of Game.js, proved about the functions of `World`. */
module WorldProps {
  import opened Geometry
  import opened Seqs
  import opened World

  // ----- Landing (Game.js:121-129) -----

  /** The platform loop touches only y, dy and grounded. */
  lemma {:induction false} LandOnKeeps(p: PlayerState, ps: seq<Box>)
    ensures var r := LandOn(p, ps);
      r.x == p.x && r.deepSearch == p.deepSearch &&
      r.thinkMode == p.thinkMode && r.thinkModeTimer == p.thinkModeTimer
    decreases |ps|
  {
    if ps != [] {
      LandOnKeeps(p, ps[..|ps| - 1]);
    }
  }

  /** No qualifying platform: the loop leaves the player as it found it. */
  lemma {:induction false} LandOnNone(p: PlayerState, ps: seq<Box>)
    requires forall j :: 0 <= j < |ps| ==> !Lands(p, ps[j])
    ensures LandOn(p, ps) == p
    decreases |ps|
  {
    if ps != [] {
      var n := |ps| - 1;
      assert forall j :: 0 <= j < n ==> ps[..n][j] == ps[j];
      LandOnNone(p, ps[..n]);
    }
  }

  /**
   * The first platform that passes the landing test is the one the player ends on:
   * landing zeroes dy, so no later platform passes the `dy > 0` part of the test.
   */
  lemma {:induction false} LandOnFirst(p: PlayerState, ps: seq<Box>, k: nat)
    requires k < |ps| && Lands(p, ps[k])
    requires forall j :: 0 <= j < k ==> !Lands(p, ps[j])
    ensures LandOn(p, ps) == p.(y := ps[k].y - PLAYER_HEIGHT, dy := 0.0, grounded := true)
    ensures LandOn(p, ps).y + PLAYER_HEIGHT == ps[k].y
    decreases |ps|
  {
    var n := |ps| - 1;
    assert forall j :: 0 <= j < n ==> ps[..n][j] == ps[j];
    if k == n {
      LandOnNone(p, ps[..n]);
    } else {
      LandOnFirst(p, ps[..n], k);
    }
  }

  /** The loop ends grounded exactly when the player was already grounded or some platform passes the test. */
  lemma {:induction false} LandOnGrounded(p: PlayerState, ps: seq<Box>)
    ensures LandOn(p, ps).grounded <==> p.grounded || exists j :: 0 <= j < |ps| && Lands(p, ps[j])
    decreases |ps|
  {
    if ps != [] {
      var n := |ps| - 1;
      assert forall j :: 0 <= j < n ==> ps[..n][j] == ps[j];
      LandOnGrounded(p, ps[..n]);
      if !exists j :: 0 <= j < n && Lands(p, ps[..n][j]) {
        LandOnNone(p, ps[..n]);
      }
    }
  }

  /** The floor clamp's `grounded := true` never survives: after the platform phase only a landing leaves it set. */
  lemma LandGroundedIff(c: Canvas, w: WorldState)
    ensures Land(c, w).player.grounded <==>
      exists j :: 0 <= j < |Platforms(c)| && Lands(w.player, Platforms(c)[j])
  {
    var p := w.player.(grounded := false);
    LandOnGrounded(p, Platforms(c));
    assert forall q :: Lands(p, q) == Lands(w.player, q);
  }

  /** A landing leaves dy at 0 and grounded set, with the player's bottom on the platform's top. */
  lemma LandingSnaps(c: Canvas, w: WorldState, k: nat)
    requires k < |Platforms(c)| && Lands(w.player, Platforms(c)[k])
    requires forall j :: 0 <= j < k ==> !Lands(w.player, Platforms(c)[j])
    ensures var r := Land(c, w).player;
      r.y + PLAYER_HEIGHT == Platforms(c)[k].y && r.dy == 0.0 && r.grounded && r.x == w.player.x
  {
    var p := w.player.(grounded := false);
    assert forall q :: Lands(p, q) == Lands(w.player, q);
    LandOnFirst(p, Platforms(c), k);
  }

  // ----- Input (Game.js:85-106) -----

  /** A jump takes effect in the frame of the key press, and gravity is applied on top of it; airborne, the key does nothing. */
  lemma JumpSameFrame(w: WorldState, k: Keys)
    ensures var r := ApplyGravity(Input(w, k)).player;
      if k.space && w.player.grounded then r.dy == JUMP_POWER + GRAVITY && !r.grounded
      else r.dy == w.player.dy + GRAVITY && r.grounded == w.player.grounded
  {
  }

  /** Deep search keeps every bone in exactly one of the two collections (given that nothing is parked while it is off). */
  lemma DeepSearchConserves(w: WorldState, held: bool)
    requires !w.player.deepSearch ==> w.hiddenBones == []
    ensures var r := DeepSearch(w, held);
      multiset(r.bones + r.hiddenBones) == multiset(w.bones + w.hiddenBones)
  {
    if held && !w.player.deepSearch {
      FilterSplits(w.bones, IsShown, IsHidden);
      assert w.bones + w.hiddenBones == w.bones;
    }
  }

  /** The three cases of the deep-search key. */
  lemma DeepSearchModes(w: WorldState, held: bool)
    ensures var r := DeepSearch(w, held);
      (held && !w.player.deepSearch ==>
        r.player.deepSearch &&
        (forall b :: b in r.hiddenBones ==> b.hidden) &&
        (forall b :: b in r.bones ==> !b.hidden)) &&
      (!held ==>
        !r.player.deepSearch && r.hiddenBones == [] && r.bones == w.bones + w.hiddenBones) &&
      (held && w.player.deepSearch ==> r == w)
  {
  }

  /** The timer is set only on activation, to the full duration. */
  lemma ThinkSetOnlyOnActivation(w: WorldState, k: Keys)
    ensures var r := Input(w, k).player;
      (k.t && !w.player.thinkMode <==> r.thinkMode != w.player.thinkMode) &&
      (r.thinkModeTimer != w.player.thinkModeTimer ==> k.t && !w.player.thinkMode) &&
      (k.t && !w.player.thinkMode ==> r.thinkMode && r.thinkModeTimer == THINK_MODE_DURATION)
  {
  }

  // ----- Hazards (Game.js:137-170) -----

  /** The hazard phases change the player only by a reset, and never touch the parked bones or the clock. */
  lemma HazardsShape(c: Canvas, w: WorldState)
    ensures var r := Hazards(c, w);
      (r.player == w.player || r.player == w.player.(x := START_X, y := c.height - START_RISE, dy := 0.0)) &&
      (r.score == w.score || (r.score == 0 && r.bones == [] && r.asteroids == [] && r.robots == [])) &&
      r.hiddenBones == w.hiddenBones && r.gameTime == w.gameTime
    ensures AsteroidHit(w) || RobotHit(c, Asteroids(c, w)) ==> Hazards(c, w) == Reset(c, w)
    ensures !AsteroidHit(w) && !RobotHit(c, Asteroids(c, w)) ==>
      var r := Hazards(c, w);
      r.player == w.player && r.score == w.score && r.bones == w.bones &&
      r.asteroids == MovedAsteroids(w) && r.robots == MovedRobots(c, Asteroids(c, w))
  {
  }

  /** Each surviving asteroid moves left by its speed, or by half of it in think mode. */
  lemma AsteroidMotion(c: Canvas, w: WorldState)
    requires !AsteroidHit(w)
    ensures var kept := Filter(w.asteroids, OnScreen);
      var r := Asteroids(c, w).asteroids;
      |r| == |kept| &&
      forall i :: 0 <= i < |r| ==>
        r[i].speed == kept[i].speed &&
        r[i].box.y == kept[i].box.y && r[i].box.width == kept[i].box.width && r[i].box.height == kept[i].box.height &&
        r[i].box.x == kept[i].box.x - (if w.player.thinkMode then kept[i].speed / 2.0 else kept[i].speed)
  {
  }

  /**
   * An asteroid whose right edge is at or past the left border is filtered out:
   * the phase ends with no asteroids or with the survivors of the filter, drifted.
   */
  lemma OffscreenAsteroidDropped(c: Canvas, w: WorldState, a: Asteroid)
    requires a in w.asteroids && a.box.x <= -a.box.width
    ensures a !in Filter(w.asteroids, OnScreen)
    ensures var r := Asteroids(c, w).asteroids;
      r == [] || r == DriftAll(Filter(w.asteroids, OnScreen), w.player.thinkMode)
    ensures |Asteroids(c, w).asteroids| < |w.asteroids|
  {
    var i :| 0 <= i < |w.asteroids| && w.asteroids[i] == a;
    assert !OnScreen(w.asteroids[i]);
  }

  function Abs(v: real): real { if v < 0.0 then -v else v }

  /** A robot's speed keeps its magnitude; it moves by its scaled speed and only horizontally. */
  lemma PatrolMotion(ps: seq<Box>, r: Robot, slow: bool)
    ensures var m := Patrol(ps, r, slow);
      Abs(m.speed) == Abs(r.speed) &&
      (m.speed == r.speed || m.speed == -r.speed) &&
      m.box == r.box.(x := r.box.x + Scale(r.speed, slow))
  {
  }

  /** A robot turns exactly when the first platform whose top meets its bottom no longer spans it. */
  lemma PatrolTurnsAtEdge(ps: seq<Box>, r: Robot, slow: bool)
    requires r.speed != 0.0
    ensures var m := Patrol(ps, r, slow);
      m.speed != r.speed <==>
        exists k :: 0 <= k < |ps| && ps[k].y == m.box.y + m.box.height && Overhangs(m.box, ps[k]) &&
          forall j :: 0 <= j < k ==> ps[j].y != m.box.y + m.box.height
  {
    var m := Patrol(ps, r, slow);
    var found := FindTop(ps, m.box.y + m.box.height);
    if found.Some? && Overhangs(m.box, ps[found.value]) {
      assert m.speed != r.speed;
    }
    if m.speed != r.speed {
      assert found.Some?;
    }
  }

  // ----- Bone collection (Game.js:172-179) -----

  /**
   * Collection removes exactly the picked bones, keeps the others in order,
   * and raises the score by exactly the number removed.
   */
  lemma CollectRemovesPicked(w: WorldState)
    ensures var pb := PlayerBox(w.player);
      var r := Collect(w);
      var removed := Filter(w.bones, PickTest(pb, w.player.deepSearch));
      r.score - w.score == |w.bones| - |r.bones| &&
      multiset(r.bones) + multiset(removed) == multiset(w.bones) &&
      (forall b :: b in removed ==> Picked(pb, w.player.deepSearch, b)) &&
      (forall b :: b in r.bones ==> !Picked(pb, w.player.deepSearch, b)) &&
      IsSubsequence(r.bones, w.bones)
  {
    var pb := PlayerBox(w.player);
    var deep := w.player.deepSearch;
    FilterSplits(w.bones, KeepTest(pb, deep), PickTest(pb, deep));
    FilterKeepsOrder(w.bones, KeepTest(pb, deep));
  }

  /** A hidden bone cannot be picked up while deep search is off. */
  lemma HiddenBoneNeedsDeepSearch(w: WorldState, b: Bone)
    requires b.hidden && !w.player.deepSearch
    ensures multiset(Collect(w).bones)[b] == multiset(w.bones)[b]
  {
    FilterMultiset(w.bones, KeepTest(PlayerBox(w.player), w.player.deepSearch));
  }

  // ----- Spawning (Game.js:43-73, 181-184) -----

  /** A spawned bone rests on top of the chosen platform, within its span. */
  lemma SpawnedBoneOnPlatform(c: Canvas, d: Draws)
    requires ValidDraws(d)
    ensures var p := Platforms(c)[PlatformIndex(d.bonePlatform)];
      var b := NewBone(c, d);
      b.box.y + b.box.height == p.y &&
      p.x <= b.box.x < p.x + p.width - BONE_SIZE &&
      (b.hidden <==> d.boneHidden < HIDDEN_CHANCE)
  {
    var p := Platforms(c)[PlatformIndex(d.bonePlatform)];
    assert p.width - BONE_SIZE == 180.0;
    assert 0.0 <= d.boneOffset * 180.0 < 180.0;
  }

  /** A spawned asteroid starts at the right border with a speed in [3, 5). */
  lemma SpawnedAsteroid(c: Canvas, d: Draws)
    requires ValidCanvas(c) && ValidDraws(d)
    ensures var a := NewAsteroid(c, d);
      a.box.x == c.width && ASTEROID_MIN_SPEED <= a.speed < ASTEROID_MIN_SPEED + ASTEROID_SPEED_RANGE && OnScreen(a)
  {
  }

  /** A spawned robot stands on its platform, so the patrol's lookup finds that very platform and no turn is due yet. */
  lemma SpawnedRobotFindsPlatform(c: Canvas, d: Draws)
    requires ValidDraws(d)
    ensures var i := PlatformIndex(d.robotPlatform);
      var r := NewRobot(c, d);
      r.box.y + r.box.height == Platforms(c)[i].y &&
      FindTop(Platforms(c), r.box.y + r.box.height) == Some(i) &&
      !Overhangs(r.box, Platforms(c)[i])
  {
    var ps := Platforms(c);
    var i := PlatformIndex(d.robotPlatform);
    var top := NewRobot(c, d).box.y + NewRobot(c, d).box.height;
    assert top == ps[i].y;
    var found := FindTop(ps, top);
    assert found.Some? && found.value <= i;
    assert forall j :: 0 <= j < 3 && j != i ==> ps[j].y != ps[i].y;
  }

  /** Every 60th, 120th and 180th frame appends the spawner's bone, asteroid and robot for this frame's draws; nothing else changes. */
  lemma SpawnCadence(c: Canvas, d: Draws, w: WorldState)
    requires ValidDraws(d)
    ensures var r := Spawn(c, d, w);
      r.bones == w.bones + (if w.gameTime % BONE_EVERY == 0 then [NewBone(c, d)] else []) &&
      r.asteroids == w.asteroids + (if w.gameTime % ASTEROID_EVERY == 0 then [NewAsteroid(c, d)] else []) &&
      r.robots == w.robots + (if w.gameTime % ROBOT_EVERY == 0 then [NewRobot(c, d)] else []) &&
      r.player == w.player && r.score == w.score && r.hiddenBones == w.hiddenBones && r.gameTime == w.gameTime
  {
  }

  // ----- The whole frame -----

  /** After any frame the player is horizontally inside the canvas, whatever the state before. */
  lemma StepKeepsPlayerInside(c: Canvas, w: WorldState, k: Keys, d: Draws)
    requires ValidCanvas(c) && ValidDraws(d)
    ensures 0.0 <= Step(c, w, k, d).player.x <= c.width - PLAYER_WIDTH
  {
    var v := Clamp(c, ApplyGravity(Input(w, k)));
    LandOnKeeps(v.player.(grounded := false), Platforms(c));
    HazardsShape(c, PreHazards(c, w, k));
  }

  /**
   * A collision with a hazard in a frame leaves the score at 0 at the end of that frame, the player at the
   * start position, the parked bones untouched, and only this frame's spawns in the live collections.
   */
  lemma HazardHitZeroesScore(c: Canvas, w: WorldState, k: Keys, d: Draws)
    requires ValidDraws(d)
    requires var h := PreHazards(c, w, k); AsteroidHit(h) || RobotHit(c, Asteroids(c, h))
    ensures var h := PreHazards(c, w, k);
      var r := Step(c, w, k, d);
      r.score == 0 && r.player.x == START_X && r.player.y == c.height - START_RISE && r.player.dy == 0.0 &&
      r.hiddenBones == h.hiddenBones &&
      r.bones == (if r.gameTime % BONE_EVERY == 0 then [NewBone(c, d)] else []) &&
      r.asteroids == (if r.gameTime % ASTEROID_EVERY == 0 then [NewAsteroid(c, d)] else []) &&
      r.robots == (if r.gameTime % ROBOT_EVERY == 0 then [NewRobot(c, d)] else [])
  {
  }

  /** The think-mode fields after a whole frame: activation and the first countdown tick share the frame. */
  lemma StepThink(c: Canvas, w: WorldState, k: Keys, d: Draws)
    requires ValidDraws(d)
    ensures var p := w.player;
      var r := Step(c, w, k, d).player;
      if p.thinkMode then r.thinkModeTimer == p.thinkModeTimer - 1 && (r.thinkMode <==> r.thinkModeTimer > 0)
      else if k.t then r.thinkMode && r.thinkModeTimer == THINK_MODE_DURATION - 1
      else !r.thinkMode && r.thinkModeTimer == p.thinkModeTimer
  {
    var v := Clamp(c, ApplyGravity(Input(w, k)));
    LandOnKeeps(v.player.(grounded := false), Platforms(c));
    HazardsShape(c, PreHazards(c, w, k));
  }

  lemma StepPreservesInvariant(c: Canvas, w: WorldState, k: Keys, d: Draws)
    requires ValidCanvas(c) && ValidDraws(d) && Invariant(c, w)
    ensures Invariant(c, Step(c, w, k, d))
  {
    var i := Input(w, k);
    var v := Clamp(c, ApplyGravity(i));
    LandOnKeeps(v.player.(grounded := false), Platforms(c));
    var h := PreHazards(c, w, k);
    HazardsShape(c, h);
    StepKeepsPlayerInside(c, w, k, d);
    StepThink(c, w, k, d);
    DeepSearchModes(Move(w, k), k.d);
    assert h.hiddenBones == i.hiddenBones && h.player.deepSearch == i.player.deepSearch;
  }

  lemma InitialInvariant(c: Canvas, d: Draws)
    requires ValidCanvas(c) && ValidDraws(d)
    ensures Invariant(c, Initial(c, d))
  {
  }

  /** The invariant holds after any number of frames; in particular the score is never negative. */
  lemma {:induction false} FramesPreserveInvariant(c: Canvas, w: WorldState, ks: seq<Keys>, ds: seq<Draws>)
    requires ValidCanvas(c) && Invariant(c, w)
    requires |ks| == |ds| && AllValid(ds)
    ensures Invariant(c, Frames(c, w, ks, ds))
    ensures Frames(c, w, ks, ds).score >= 0
    decreases |ks|
  {
    if ks != [] {
      var n := |ks| - 1;
      assert AllValid(ds[..n]);
      FramesPreserveInvariant(c, w, ks[..n], ds[..n]);
      StepPreservesInvariant(c, Frames(c, w, ks[..n], ds[..n]), ks[n], ds[n]);
    }
  }

  /**
   * Think mode, switched on by the first of n frames, is on after each of the
   * first 119 frames and off after the 120th, whatever keys are held after
   * the first frame: it lasts exactly THINK_MODE_DURATION frames.
   */
  lemma {:induction false} ThinkModeLastsExactly(c: Canvas, w: WorldState, ks: seq<Keys>, ds: seq<Draws>)
    requires !w.player.thinkMode
    requires |ks| == |ds| && AllValid(ds)
    requires 1 <= |ks| <= THINK_MODE_DURATION && ks[0].t
    ensures var p := Frames(c, w, ks, ds).player;
      p.thinkModeTimer == THINK_MODE_DURATION - |ks| && (p.thinkMode <==> |ks| < THINK_MODE_DURATION)
    decreases |ks|
  {
    var n := |ks| - 1;
    assert AllValid(ds[..n]);
    var before := Frames(c, w, ks[..n], ds[..n]);
    if n == 0 {
      assert before == w;
    } else {
      assert ks[..n][0] == ks[0];
      ThinkModeLastsExactly(c, w, ks[..n], ds[..n]);
    }
    StepThink(c, before, ks[n], ds[n]);
  }

  // ----- The jump branch is unreachable -----

  /** The player is at or below the start height, not rising, and not grounded. */
  predicate NotAbovePlatforms(c: Canvas, w: WorldState)
  {
    w.player.y >= c.height - START_RISE && w.player.dy >= 0.0 && !w.player.grounded
  }

  /**
   * From at or below the start height the player never lands: above the floor
   * its bottom started the frame below every platform top, and on the floor
   * `dy` is 0. So it is never grounded, and the jump at Game.js:90-93 never fires.
   */
  lemma StepStaysBelowPlatforms(c: Canvas, w: WorldState, k: Keys, d: Draws)
    requires ValidDraws(d) && NotAbovePlatforms(c, w)
    ensures NotAbovePlatforms(c, Step(c, w, k, d))
  {
    var v := Clamp(c, ApplyGravity(Input(w, k)));
    var p := v.player.(grounded := false);
    var ps := Platforms(c);
    forall j | 0 <= j < |ps|
      ensures !Lands(p, ps[j])
    {
    }
    LandOnNone(p, ps);
    HazardsShape(c, PreHazards(c, w, k));
  }

  lemma {:induction false} FramesNeverGrounded(c: Canvas, w: WorldState, ks: seq<Keys>, ds: seq<Draws>)
    requires NotAbovePlatforms(c, w)
    requires |ks| == |ds| && AllValid(ds)
    ensures !Frames(c, w, ks, ds).player.grounded
    ensures NotAbovePlatforms(c, Frames(c, w, ks, ds))
    decreases |ks|
  {
    if ks != [] {
      var n := |ks| - 1;
      assert AllValid(ds[..n]);
      FramesNeverGrounded(c, w, ks[..n], ds[..n]);
      StepStaysBelowPlatforms(c, Frames(c, w, ks[..n], ds[..n]), ks[n], ds[n]);
    }
  }

  /** The page-load state is at the start height, at rest and not grounded. */
  lemma InitialBelowPlatforms(c: Canvas, d: Draws)
    requires ValidDraws(d)
    ensures NotAbovePlatforms(c, Initial(c, d))
  {
  }
}
