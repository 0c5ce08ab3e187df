/**
 * The jump-and-dodge minigame: a player that falls under integer-tick gravity
 * and jumps on Space or a pointer press, obstacles that spawn at the right
 * edge at a speed-dependent cadence and scroll left, are culled and scored
 * once they leave the screen, a three-condition collision test, a linear
 * speed ramp, and the start / end / exit / resize lifecycle.
 *
 * Numbers are exact reals. `Math.random()` is the parameter `r`, and the
 * window's inner size is passed to the entry points that read it.
 */
module Minigame {
  const GRAVITY: real := 0.5
  const JUMP_FORCE: real := -12.0
  const PLAYER_SIZE: real := 30.0
  const OBSTACLE_WIDTH: real := 20.0
  const GAME_SPEED_START: real := 5.0
  const GAME_SPEED_INCREMENT: real := 0.005
  /** The player's fixed horizontal position. */
  const PLAYER_X: real := 80.0
  /** The ground line sits this far above the bottom of the canvas. */
  const GROUND_MARGIN: int := 120

  datatype Player = Player(x: real, y: real, vy: real, jumping: bool)

  datatype Obstacle = Obstacle(x: real, y: real, width: real, height: real)

  /** The three situations the game can be in, told apart by the active flag and the overlay. */
  datatype Phase = Idle | Running | Ended

  /** A key the game's keydown listener distinguishes (`e.code`). */
  datatype KeyCode = SpaceKey | EscapeKey | OtherKey

  /** Everything the game's entry points read or change, as one value. */
  datatype World = World(
    active: bool,          // gameActive
    overlay: bool,         // the game-over overlay is displayed
    canvasShown: bool,     // the canvas is displayed
    score: nat,
    speed: real,           // gameSpeed
    frame: nat,            // frameCount
    player: Player,
    groundY: real,
    width: int,            // canvas.width
    height: int,           // canvas.height
    obstacles: seq<Obstacle>)

  function PhaseOf(s: World): Phase
  {
    if s.active then Running else if s.overlay then Ended else Idle
  }

  // ---------------------------------------------------------------------
  // Physics

  /** One tick of gravity (velocity first, then position), then the landing clamp. */
  function Fall(p: Player, groundY: real): (q: Player)
    ensures q.y <= groundY - PLAYER_SIZE
    ensures q.x == p.x
    ensures p.y + p.vy + GRAVITY > groundY - PLAYER_SIZE ==>
      q.y == groundY - PLAYER_SIZE && q.vy == 0.0 && !q.jumping
    ensures p.y + p.vy + GRAVITY <= groundY - PLAYER_SIZE ==>
      q.vy == p.vy + GRAVITY && q.y == p.y + q.vy && q.jumping == p.jumping
  {
    var vy := p.vy + GRAVITY;
    var y := p.y + vy;
    if y > groundY - PLAYER_SIZE then p.(y := groundY - PLAYER_SIZE, vy := 0.0, jumping := false)
    else p.(y := y, vy := vy)
  }

  /** A player resting on the ground stays there, at rest, tick after tick. */
  lemma RestingPlayerStaysGrounded(p: Player, groundY: real)
    requires p.y == groundY - PLAYER_SIZE && p.vy == 0.0
    ensures Fall(p, groundY) == p.(jumping := false)
  {
  }

  /** Without a jump the player never moves up: a falling player's y does not decrease. */
  lemma FallingIsMonotone(p: Player, groundY: real)
    requires p.vy >= 0.0 && p.y <= groundY - PLAYER_SIZE
    ensures Fall(p, groundY).y >= p.y
    ensures Fall(p, groundY).vy >= 0.0
  {
  }

  /** A jump input: a grounded player gets the upward impulse; an airborne one is left alone. */
  function Jump(p: Player): (q: Player)
    ensures p.jumping ==> q == p
    ensures !p.jumping ==> q.jumping && q.vy == JUMP_FORCE && q.y == p.y && q.x == p.x
  {
    if p.jumping then p else p.(vy := JUMP_FORCE, jumping := true)
  }

  /** A jump from the ground lifts the player on the next tick. */
  lemma JumpLifts(p: Player, groundY: real)
    requires p.y == groundY - PLAYER_SIZE && !p.jumping
    ensures Fall(Jump(p), groundY).y < p.y
    ensures Fall(Jump(p), groundY).jumping
  {
  }

  // ---------------------------------------------------------------------
  // Spawning

  /** Frames between spawns: `max(60, floor(120 - speed * 6))`. */
  function SpawnGap(speed: real): (g: int)
    ensures g >= 60
    ensures g as real > 120.0 - speed * 6.0 - 1.0
    ensures g == 60 || g as real <= 120.0 - speed * 6.0
    ensures speed >= GAME_SPEED_START ==> g <= 90
  {
    var f := (120.0 - speed * 6.0).Floor;
    if f > 60 then f else 60
  }

  /** A faster game never spawns less often. */
  lemma SpawnGapShrinks(slow: real, fast: real)
    requires slow <= fast
    ensures SpawnGap(fast) <= SpawnGap(slow)
  {
  }

  /** The obstacle `generateObstacle` pushes, for a random draw `r`. */
  function NewObstacle(canvasWidth: int, groundY: real, r: real): (o: Obstacle)
    requires 0.0 <= r < 1.0
    ensures o.x == canvasWidth as real + 10.0
    ensures o.width == OBSTACLE_WIDTH
    ensures 30.0 <= o.height < 90.0
    ensures o.y + o.height == groundY
  {
    var height := 30.0 + r * 60.0;
    Obstacle(canvasWidth as real + 10.0, groundY - height, OBSTACLE_WIDTH, height)
  }

  /** An obstacle as spawned: standard width, height drawn from `[30, 90)`, bottom on the ground line. */
  predicate Grounded(o: Obstacle, groundY: real)
  {
    o.width == OBSTACLE_WIDTH && 30.0 <= o.height < 90.0 && o.y + o.height == groundY
  }

  // ---------------------------------------------------------------------
  // The obstacle pass: move every obstacle left, cull and score those off screen

  predicate OnScreen(o: Obstacle)
  {
    !(o.x + o.width < 0.0)
  }

  /** Every obstacle moved left by `speed`. */
  function Moved(obs: seq<Obstacle>, speed: real): (m: seq<Obstacle>)
    ensures |m| == |obs|
    ensures forall j :: 0 <= j < |obs| ==> m[j] == obs[j].(x := obs[j].x - speed)
  {
    if obs == [] then [] else [obs[0].(x := obs[0].x - speed)] + Moved(obs[1..], speed)
  }

  /** The obstacles still on screen, in their order. */
  function Visible(obs: seq<Obstacle>): (v: seq<Obstacle>)
    ensures |v| <= |obs|
    ensures forall j :: 0 <= j < |v| ==> OnScreen(v[j])
  {
    if obs == [] then []
    else (if OnScreen(obs[0]) then [obs[0]] else []) + Visible(obs[1..])
  }

  /** How many obstacles have left the screen. */
  function Offscreen(obs: seq<Obstacle>): nat
  {
    if obs == [] then 0
    else (if OnScreen(obs[0]) then 0 else 1) + Offscreen(obs[1..])
  }

  /** The obstacle list after one pass at `speed`. */
  function Pass(obs: seq<Obstacle>, speed: real): seq<Obstacle>
  {
    Visible(Moved(obs, speed))
  }

  /** The points one pass at `speed` scores. */
  function Culled(obs: seq<Obstacle>, speed: real): nat
  {
    Offscreen(Moved(obs, speed))
  }

  /** The pass keeps exactly the moved obstacles that are on screen. */
  lemma {:induction false} VisibleMembers(obs: seq<Obstacle>, o: Obstacle)
    ensures o in Visible(obs) <==> o in obs && OnScreen(o)
  {
    if obs != [] {
      VisibleMembers(obs[1..], o);
      assert obs == [obs[0]] + obs[1..];
    }
  }

  /** Every obstacle is either kept or counted, never both and never twice. */
  lemma {:induction false} VisibleAndOffscreenPartition(obs: seq<Obstacle>)
    ensures |Visible(obs)| + Offscreen(obs) == |obs|
  {
    if obs != [] {
      VisibleAndOffscreenPartition(obs[1..]);
    }
  }

  /**
   * The pass in terms of the input: an obstacle survives iff it is the
   * moved form of an input obstacle that is still on screen, and the
   * survivors and the score increase together account for every input.
   */
  lemma PassSpec(obs: seq<Obstacle>, speed: real, o: Obstacle)
    ensures o in Pass(obs, speed) <==>
      exists j :: 0 <= j < |obs| && o == obs[j].(x := obs[j].x - speed) && OnScreen(o)
    ensures |Pass(obs, speed)| + Culled(obs, speed) == |obs|
  {
    VisibleMembers(Moved(obs, speed), o);
    VisibleAndOffscreenPartition(Moved(obs, speed));
    if o in Moved(obs, speed) {
      var j :| 0 <= j < |obs| && Moved(obs, speed)[j] == o;
    }
  }

  /** The pass culls nothing that stays on screen: obstacles other than position are untouched. */
  lemma {:induction false} PassKeepsGrounded(obs: seq<Obstacle>, speed: real, groundY: real)
    requires forall j :: 0 <= j < |obs| ==> Grounded(obs[j], groundY)
    ensures forall j :: 0 <= j < |Pass(obs, speed)| ==> Grounded(Pass(obs, speed)[j], groundY)
  {
    var m := Moved(obs, speed);
    forall j | 0 <= j < |Pass(obs, speed)|
      ensures Grounded(Pass(obs, speed)[j], groundY)
    {
      var o := Pass(obs, speed)[j];
      VisibleMembers(m, o);
      var k :| 0 <= k < |m| && m[k] == o;
    }
  }

  /** One step of the backward splice loop, as seen on the suffix already processed. */
  lemma PassStep(obs: seq<Obstacle>, i: nat, speed: real)
    requires i < |obs|
    ensures var o := obs[i].(x := obs[i].x - speed);
      Pass(obs[i..], speed) == (if OnScreen(o) then [o] else []) + Pass(obs[i + 1..], speed) &&
      Culled(obs[i..], speed) == (if OnScreen(o) then 0 else 1) + Culled(obs[i + 1..], speed)
  {
  }

  // ---------------------------------------------------------------------
  // Collision

  /** `checkCollision`'s test for one obstacle, with its three conditions as written. */
  predicate Hits(p: Player, o: Obstacle)
  {
    p.x + PLAYER_SIZE > o.x && p.x < o.x + o.width && p.y + PLAYER_SIZE > o.y
  }

  predicate AnyHit(p: Player, obs: seq<Obstacle>)
  {
    exists j :: 0 <= j < |obs| && Hits(p, obs[j])
  }

  /**
   * Four-sided overlap of the box the code tests, `[x, x + 30] x [y, y + 30]`,
   * with the obstacle's rectangle: the three conditions of `Hits` plus the one
   * the code leaves out. The ball is drawn as a circle of radius 30 centred on
   * `(x, y)`, so this box is the ball's lower-right quarter, not its bounding box.
   */
  predicate Overlaps(p: Player, o: Obstacle)
  {
    Hits(p, o) && p.y < o.y + o.height
  }

  /**
   * The missing fourth condition cannot matter: a player on or above the
   * ground line is never below an obstacle whose bottom is on it.
   */
  lemma ThreeConditionsSuffice(p: Player, o: Obstacle, groundY: real)
    requires p.y <= groundY - PLAYER_SIZE && Grounded(o, groundY)
    ensures Hits(p, o) <==> Overlaps(p, o)
  {
  }

  // ---------------------------------------------------------------------
  // The state transitions of the entry points

  /** `initGame`: new canvas size and ground line, player grounded at rest, counters reset. */
  function AfterInit(s: World, w: nat, h: nat): World
  {
    var groundY := (h - GROUND_MARGIN) as real;
    s.(width := w, height := h, groundY := groundY,
       player := s.player.(y := groundY - PLAYER_SIZE, vy := 0.0, jumping := false),
       obstacles := [], speed := GAME_SPEED_START, score := 0, frame := 0, canvasShown := true)
  }

  /** `startGame`: ignored while running; otherwise initialise, activate and hide the overlay. */
  function AfterStart(s: World, w: nat, h: nat): World
  {
    if s.active then s else AfterInit(s, w, h).(active := true, overlay := false)
  }

  /** `endGame`: stop and show the overlay; everything else, the score included, is kept. */
  function AfterEnd(s: World): World
  {
    s.(active := false, overlay := true)
  }

  /** `exitGame`: stop, hide overlay and canvas, drop the obstacles and the score. */
  function AfterExit(s: World): World
  {
    s.(active := false, overlay := false, canvasShown := false, obstacles := [], score := 0)
  }

  /** Space or a pointer press: start when not running, else jump unless already airborne. */
  function AfterJumpInput(s: World, w: nat, h: nat): World
  {
    if !s.active then AfterStart(s, w, h) else s.(player := Jump(s.player))
  }

  /** Escape: end a running game, otherwise exit. */
  function AfterEscape(s: World): World
  {
    if s.active then AfterEnd(s) else AfterExit(s)
  }

  function AfterKey(s: World, key: KeyCode, w: nat, h: nat): World
  {
    match key
    case SpaceKey => AfterJumpInput(s, w, h)
    case EscapeKey => AfterEscape(s)
    case OtherKey => s
  }

  /** A window resize re-initialises a running game and is ignored otherwise. */
  function AfterResize(s: World, w: nat, h: nat): World
  {
    if s.active then AfterInit(s, w, h) else s
  }

  /** Whether the tick numbered `frame` spawns an obstacle. */
  predicate SpawnDue(frame: nat, speed: real)
  {
    frame % SpawnGap(speed) == 0
  }

  /** The obstacle list after the spawn step of a tick. */
  function Spawned(s: World, frame: nat, r: real): seq<Obstacle>
    requires 0.0 <= r < 1.0
  {
    if SpawnDue(frame, s.speed) then s.obstacles + [NewObstacle(s.width, s.groundY, r)] else s.obstacles
  }

  /**
   * One call of `update`: nothing when inactive; otherwise count the frame,
   * fall, maybe spawn, run the obstacle pass, then either end the game on a
   * collision or ramp the speed up.
   */
  function AfterTick(s: World, r: real): World
    requires 0.0 <= r < 1.0
  {
    if !s.active then s
    else
      var frame := s.frame + 1;
      var player := Fall(s.player, s.groundY);
      var spawned := Spawned(s, frame, r);
      var moved := s.(frame := frame, player := player, obstacles := Pass(spawned, s.speed),
                      score := s.score + Culled(spawned, s.speed));
      if AnyHit(moved.player, moved.obstacles) then AfterEnd(moved)
      else moved.(speed := s.speed + GAME_SPEED_INCREMENT)
  }

  // ---------------------------------------------------------------------
  // Properties of the transitions

  /** What always holds of the game's state. */
  predicate Inv(s: World)
  {
    (s.active ==> !s.overlay && s.canvasShown && s.player.y <= s.groundY - PLAYER_SIZE) &&
    s.player.x == PLAYER_X &&
    s.speed >= GAME_SPEED_START &&
    forall j :: 0 <= j < |s.obstacles| ==> Grounded(s.obstacles[j], s.groundY)
  }

  lemma {:induction false} TickKeepsInv(s: World, r: real)
    requires Inv(s) && 0.0 <= r < 1.0
    ensures Inv(AfterTick(s, r))
  {
    if s.active {
      var spawned := Spawned(s, s.frame + 1, r);
      assert forall j :: 0 <= j < |spawned| ==> Grounded(spawned[j], s.groundY);
      PassKeepsGrounded(spawned, s.speed, s.groundY);
    }
  }

  lemma EntryPointsKeepInv(s: World, key: KeyCode, w: nat, h: nat)
    requires Inv(s)
    ensures Inv(AfterInit(s, w, h)) && Inv(AfterStart(s, w, h)) && Inv(AfterEnd(s)) && Inv(AfterExit(s))
    ensures Inv(AfterJumpInput(s, w, h)) && Inv(AfterEscape(s)) && Inv(AfterKey(s, key, w, h))
    ensures Inv(AfterResize(s, w, h))
  {
  }

  /** At the end of every tick the player is on or above the ground line, and landing stops it. */
  lemma TickGroundClamp(s: World, r: real)
    requires 0.0 <= r < 1.0 && s.active
    ensures AfterTick(s, r).player.y <= AfterTick(s, r).groundY - PLAYER_SIZE
    ensures s.player.y + s.player.vy + GRAVITY > s.groundY - PLAYER_SIZE ==>
      AfterTick(s, r).player.vy == 0.0 && !AfterTick(s, r).player.jumping
  {
  }

  /** `update` while inactive changes nothing. */
  lemma TickWhileInactive(s: World, r: real)
    requires 0.0 <= r < 1.0 && !s.active
    ensures AfterTick(s, r) == s
  {
  }

  /**
   * Scoring is exactly-once: the score grows by the number of obstacles
   * culled, and the obstacles before the tick (plus a spawned one) are
   * exactly those remaining plus those scored.
   */
  lemma TickScoresCulled(s: World, r: real)
    requires 0.0 <= r < 1.0 && s.active
    ensures AfterTick(s, r).score == s.score + Culled(Spawned(s, s.frame + 1, r), s.speed)
    ensures AfterTick(s, r).score >= s.score
    ensures |AfterTick(s, r).obstacles| + (AfterTick(s, r).score - s.score) ==
      |s.obstacles| + (if SpawnDue(s.frame + 1, s.speed) then 1 else 0)
  {
    var spawned := Spawned(s, s.frame + 1, r);
    PassSpec(spawned, s.speed, Obstacle(0.0, 0.0, 0.0, 0.0));
  }

  /** A tick that collides ends the game without the speed increment; any other running tick adds it. */
  lemma TickSpeedRamp(s: World, r: real)
    requires 0.0 <= r < 1.0 && s.active
    ensures var t := AfterTick(s, r);
      (AnyHit(t.player, t.obstacles) ==> PhaseOf(t) == Ended && t.speed == s.speed) &&
      (!AnyHit(t.player, t.obstacles) ==> PhaseOf(t) == Running && t.speed == s.speed + GAME_SPEED_INCREMENT)
    ensures AfterTick(s, r).speed >= s.speed
  {
  }

  /** Pressing jump in mid-air changes nothing; when not running it starts the game. */
  lemma NoDoubleJump(s: World, w: nat, h: nat)
    ensures s.active && s.player.jumping ==> AfterJumpInput(s, w, h) == s
    ensures !s.active ==> AfterJumpInput(s, w, h) == AfterStart(s, w, h)
  {
  }

  /** `startGame` while running is a no-op, so starting twice is starting once. */
  lemma StartIdempotent(s: World, w: nat, h: nat, w2: nat, h2: nat)
    ensures s.active ==> AfterStart(s, w, h) == s
    ensures AfterStart(AfterStart(s, w, h), w2, h2) == AfterStart(s, w, h)
  {
  }

  /** Starting from a stopped game gives a fresh run. */
  lemma StartResets(s: World, w: nat, h: nat)
    requires !s.active
    ensures var t := AfterStart(s, w, h);
      PhaseOf(t) == Running && t.score == 0 && t.speed == GAME_SPEED_START && t.frame == 0 &&
      t.obstacles == [] && t.player.y == t.groundY - PLAYER_SIZE && t.player.vy == 0.0 &&
      !t.player.jumping && t.groundY == (h - GROUND_MARGIN) as real
  {
  }

  /** Ending keeps the score; exiting clears it and is idempotent. */
  lemma EndAndExit(s: World)
    ensures AfterEnd(s).score == s.score && PhaseOf(AfterEnd(s)) == Ended
    ensures AfterExit(s).score == 0 && AfterExit(s).obstacles == [] && PhaseOf(AfterExit(s)) == Idle
    ensures AfterExit(AfterExit(s)) == AfterExit(s)
  {
  }

  /** Escape ends a running game and takes an ended game back to idle. */
  lemma EscapeTransitions(s: World)
    ensures PhaseOf(s) == Running ==> PhaseOf(AfterEscape(s)) == Ended && AfterEscape(s).score == s.score
    ensures PhaseOf(s) != Running ==> PhaseOf(AfterEscape(s)) == Idle
  {
  }

  /** A resize restarts a running game in place and leaves a stopped one alone. */
  lemma ResizeTransitions(s: World, w: nat, h: nat)
    ensures s.active ==>
      AfterResize(s, w, h).active && AfterResize(s, w, h).score == 0 && AfterResize(s, w, h).obstacles == []
    ensures !s.active ==> AfterResize(s, w, h) == s
  {
  }

  // ---------------------------------------------------------------------
  // The game itself: its module-level state and its entry points

  class Game {
    var gameActive: bool
    var overlayShown: bool
    var canvasShown: bool
    var score: nat
    var gameSpeed: real
    var frameCount: nat
    var player: Player
    var groundY: real
    var canvasWidth: int
    var canvasHeight: int
    var obstacles: seq<Obstacle>

    function State(): World
      reads this
    {
      World(gameActive, overlayShown, canvasShown, score, gameSpeed, frameCount, player,
            groundY, canvasWidth, canvasHeight, obstacles)
    }

    ghost predicate Valid()
      reads this
    {
      Inv(State())
    }

    /**
     * The script's start-up state. The ground line is undefined until the
     * first `initGame` and is 0 here; the canvas size is the HTML default.
     * Neither is read before `initGame` sets it.
     */
    constructor ()
      ensures Valid() && PhaseOf(State()) == Idle
      ensures score == 0 && gameSpeed == GAME_SPEED_START && frameCount == 0 && obstacles == []
      ensures player == Player(PLAYER_X, 0.0, 0.0, false)
    {
      gameActive := false;
      overlayShown := false;
      canvasShown := false;
      score := 0;
      gameSpeed := GAME_SPEED_START;
      frameCount := 0;
      player := Player(PLAYER_X, 0.0, 0.0, false);
      groundY := 0.0;
      canvasWidth := 300;
      canvasHeight := 150;
      obstacles := [];
    }

    method InitGame(w: nat, h: nat)
      modifies this
      ensures State() == AfterInit(old(State()), w, h)
    {
      canvasWidth := w;
      canvasHeight := h;
      groundY := (canvasHeight - GROUND_MARGIN) as real;
      player := player.(y := groundY - PLAYER_SIZE);
      player := player.(vy := 0.0);
      player := player.(jumping := false);
      obstacles := [];
      gameSpeed := GAME_SPEED_START;
      score := 0;
      frameCount := 0;
      canvasShown := true;
    }

    method GenerateObstacle(r: real)
      requires 0.0 <= r < 1.0
      modifies this
      ensures State() == old(State()).(obstacles := old(obstacles) + [NewObstacle(canvasWidth, groundY, r)])
    {
      var height := 30.0 + r * 60.0;
      obstacles := obstacles + [Obstacle(canvasWidth as real + 10.0, groundY - height, OBSTACLE_WIDTH, height)];
    }

    /** Whether the player touches any obstacle, by the three-condition test. */
    method CheckCollision() returns (hit: bool)
      ensures hit <==> exists j :: 0 <= j < |obstacles| && Hits(player, obstacles[j])
    {
      for j := 0 to |obstacles|
        invariant forall k :: 0 <= k < j ==> !Hits(player, obstacles[k])
      {
        var obstacle := obstacles[j];
        if player.x + PLAYER_SIZE > obstacle.x &&
           player.x < obstacle.x + obstacle.width &&
           player.y + PLAYER_SIZE > obstacle.y
        {
          return true;
        }
      }
      return false;
    }

    /** The backward loop of `update` that moves every obstacle and splices out and scores those off screen. */
    method MoveObstacles()
      modifies this
      ensures State() == old(State()).(obstacles := Pass(old(obstacles), gameSpeed),
                                       score := old(score) + Culled(old(obstacles), gameSpeed))
    {
      ghost var before := obstacles;
      ghost var score0 := score;
      var i := |obstacles|;
      while i > 0
        modifies this`obstacles, this`score
        invariant 0 <= i <= |before|
        invariant obstacles == before[..i] + Pass(before[i..], gameSpeed)
        invariant score == score0 + Culled(before[i..], gameSpeed)
      {
        i := i - 1;
        PassStep(before, i, gameSpeed);
        assert obstacles[i] == before[i];
        obstacles := obstacles[i := obstacles[i].(x := obstacles[i].x - gameSpeed)];
        if obstacles[i].x + obstacles[i].width < 0.0 {
          assert obstacles[..i] + obstacles[i + 1..] == before[..i] + Pass(before[i..], gameSpeed);
          obstacles := obstacles[..i] + obstacles[i + 1..];
          score := score + 1;
        } else {
          assert obstacles == before[..i] + Pass(before[i..], gameSpeed);
        }
      }
      assert before[0..] == before;
    }

    method Update(r: real)
      requires Valid() && 0.0 <= r < 1.0
      modifies this
      ensures Valid() && State() == AfterTick(old(State()), r)
    {
      ghost var s := State();
      TickKeepsInv(s, r);
      if !gameActive {
        return;
      }
      frameCount := frameCount + 1;

      player := player.(vy := player.vy + GRAVITY);
      player := player.(y := player.y + player.vy);
      if player.y > groundY - PLAYER_SIZE {
        player := player.(y := groundY - PLAYER_SIZE, vy := 0.0, jumping := false);
      }
      assert player == Fall(s.player, s.groundY);

      if frameCount % SpawnGap(gameSpeed) == 0 {
        GenerateObstacle(r);
      }
      assert obstacles == Spawned(s, frameCount, r);
      assert State() == s.(frame := frameCount, player := player, obstacles := Spawned(s, frameCount, r));

      MoveObstacles();

      var hit := CheckCollision();
      if hit {
        EndGame();
        return;
      }

      gameSpeed := gameSpeed + GAME_SPEED_INCREMENT;
    }

    method StartGame(w: nat, h: nat)
      requires Valid()
      modifies this
      ensures Valid() && State() == AfterStart(old(State()), w, h)
    {
      if gameActive {
        return;
      }
      InitGame(w, h);
      gameActive := true;
      overlayShown := false;
    }

    /** Stop the run and show the game-over overlay, whose buttons call `StartGame` and `ExitGame`. */
    method EndGame()
      modifies this
      ensures State() == AfterEnd(old(State()))
    {
      gameActive := false;
      overlayShown := true;
    }

    method ExitGame()
      requires Valid()
      modifies this
      ensures Valid() && State() == AfterExit(old(State()))
    {
      gameActive := false;
      overlayShown := false;
      canvasShown := false;
      obstacles := [];
      score := 0;
    }

    /** The shared reaction of Space and a pointer press. */
    method JumpOrStart(w: nat, h: nat)
      requires Valid()
      modifies this
      ensures Valid() && State() == AfterJumpInput(old(State()), w, h)
    {
      if !gameActive {
        StartGame(w, h);
      } else if !player.jumping {
        player := player.(vy := JUMP_FORCE, jumping := true);
      }
    }

    /** The window's keydown listener; `w` and `h` are the window's inner size at that moment. */
    method HandleKey(key: KeyCode, w: nat, h: nat)
      requires Valid()
      modifies this
      ensures Valid() && State() == AfterKey(old(State()), key, w, h)
    {
      if key == SpaceKey {
        JumpOrStart(w, h);
      } else if key == EscapeKey {
        if gameActive {
          EndGame();
        } else {
          ExitGame();
        }
      }
    }

    /** The canvas's pointerdown listener. */
    method PointerDown(w: nat, h: nat)
      requires Valid()
      modifies this
      ensures Valid() && State() == AfterJumpInput(old(State()), w, h)
    {
      JumpOrStart(w, h);
    }

    /** The window's resize listener, given the new inner size. */
    method Resize(w: nat, h: nat)
      requires Valid()
      modifies this
      ensures Valid() && State() == AfterResize(old(State()), w, h)
    {
      if gameActive {
        InitGame(w, h);
      }
    }
  }
}
