/**
 * The runner simulation behind the game canvas: the player record with its
 * jump / duck / stand-up state machine, obstacle spawning, and the update tick
 * run on every admitted frame.  The host's clock, random source and the
 * sound and score callbacks are parameters or an emitted list of events.
 */
module GameCanvas {
  import opened GameLoop

  // ---------------------------------------------------------------------------
  // Layout constants written inline in the component
  // ---------------------------------------------------------------------------

  /** The player's resting y: CANVAS_HEIGHT - PLAYER_HEIGHT - 50 = 290. */
  const GROUND_Y: real := CANVAS_HEIGHT - PLAYER_HEIGHT - 50.0
  const PLAYER_START_X: real := 100.0
  const DUCK_HEIGHT: real := PLAYER_HEIGHT * 0.5
  /** y of a 'high' obstacle (290), standing on the ground. */
  const HIGH_OBSTACLE_Y: real := CANVAS_HEIGHT - OBSTACLE_HEIGHT - 50.0
  /** y of a 'low' obstacle (240), hanging at head height. */
  const LOW_OBSTACLE_Y: real := CANVAS_HEIGHT - OBSTACLE_HEIGHT - 100.0
  const GROUND_TILE: real := 50.0
  const OFFSCREEN_BONUS: nat := SCORE_INCREMENT * 10
  const SCORE_SOUND_INTERVAL: nat := 100

  // ---------------------------------------------------------------------------
  // Player
  // ---------------------------------------------------------------------------

  datatype Player = Player(x: real, y: real, width: real, height: real,
                           velocityY: real, isJumping: bool, isDucking: bool,
                           groundY: real)

  const INITIAL_PLAYER: Player :=
    Player(PLAYER_START_X, GROUND_Y, PLAYER_WIDTH, PLAYER_HEIGHT, 0.0, false, false, GROUND_Y)

  /** The shapes the player record can take. */
  predicate PlayerValid(p: Player)
  {
    && p.x == PLAYER_START_X && p.width == PLAYER_WIDTH && p.groundY == GROUND_Y
    && !(p.isJumping && p.isDucking)
    && (p.isDucking ==> p.height == DUCK_HEIGHT && p.y == p.groundY + DUCK_HEIGHT)
    && (!p.isDucking ==> p.height == PLAYER_HEIGHT)
    && (!p.isJumping ==> p.velocityY == 0.0)
    && (!p.isJumping && !p.isDucking ==> p.y == p.groundY)
    && (p.isJumping ==> p.y <= p.groundY)
  }

  function PlayerRect(p: Player): Rect
  {
    Rect(p.x, p.y, p.width, p.height)
  }

  /** jump(): launch upwards. */
  function Jumped(p: Player): Player
  {
    p.(velocityY := -PLAYER_JUMP_SPEED, isJumping := true)
  }

  /** duck(): half height, top edge moved down by the same amount. */
  function Ducked(p: Player): Player
  {
    p.(isDucking := true, height := PLAYER_HEIGHT * 0.5, y := p.groundY + PLAYER_HEIGHT * 0.5)
  }

  /** standUp(): full height back on the ground line. */
  function StoodUp(p: Player): Player
  {
    p.(isDucking := false, height := PLAYER_HEIGHT, y := p.groundY)
  }

  predicate CanJump(p: Player) { !p.isJumping && !p.isDucking }

  predicate CanDuck(p: Player) { !p.isJumping }

  // ---------------------------------------------------------------------------
  // Events the component emits instead of calling out
  // ---------------------------------------------------------------------------

  datatype SoundKind = JumpSound | ScoreSound | CollisionSound

  datatype Event =
    | ScoreUpdate(score: nat)       // onScoreUpdate(score)
    | GameOver(finalScore: nat)     // onGameOver(finalScore)
    | Sound(kind: SoundKind)        // playSound(kind)

  // ---------------------------------------------------------------------------
  // Input handlers
  // ---------------------------------------------------------------------------

  datatype Intent = JumpIntent | DuckIntent | NoIntent

  predicate IsJumpKey(code: string) { code == "Space" || code == "ArrowUp" || code == "KeyW" }

  predicate IsDuckKey(code: string) { code == "ArrowDown" || code == "KeyS" }

  function KeyDownIntent(code: string): Intent
  {
    if IsJumpKey(code) then JumpIntent else if IsDuckKey(code) then DuckIntent else NoIntent
  }

  /** A touch in the upper half of the canvas jumps, anywhere else ducks. */
  function TouchIntent(touchY: real, canvasHeight: real): (i: Intent)
    ensures i == JumpIntent <==> touchY < canvasHeight / 2.0
    ensures i != NoIntent
  {
    if touchY < canvasHeight / 2.0 then JumpIntent else DuckIntent
  }

  datatype PlayerStep = PlayerStep(player: Player, events: seq<Event>)

  /** The guarded press shared by the keydown and touchstart handlers. */
  function Press(p: Player, i: Intent): PlayerStep
  {
    match i
    case JumpIntent => if CanJump(p) then PlayerStep(Jumped(p), [Sound(JumpSound)]) else PlayerStep(p, [])
    case DuckIntent => if CanDuck(p) then PlayerStep(Ducked(p), []) else PlayerStep(p, [])
    case NoIntent => PlayerStep(p, [])
  }

  function KeyDown(p: Player, code: string, isGameRunning: bool, isPaused: bool): PlayerStep
  {
    if !isGameRunning || isPaused then PlayerStep(p, []) else Press(p, KeyDownIntent(code))
  }

  function TouchStart(p: Player, touchY: real, canvasHeight: real,
                      isGameRunning: bool, isPaused: bool): PlayerStep
  {
    if !isGameRunning || isPaused then PlayerStep(p, []) else Press(p, TouchIntent(touchY, canvasHeight))
  }

  /** The touchend handler, and the keyup handler for a duck key. */
  function Release(p: Player): Player
  {
    if p.isDucking then StoodUp(p) else p
  }

  function KeyUp(p: Player, code: string): Player
  {
    if IsDuckKey(code) then Release(p) else p
  }

  /**
   * A jump is accepted exactly on a jump key while running, unpaused and
   * neither jumping nor ducking; an accepted jump is jump(), and a jump key
   * pressed while ducking changes nothing.
   */
  lemma KeyDownJumpAccepted(p: Player, code: string, isGameRunning: bool, isPaused: bool)
    ensures var r := KeyDown(p, code, isGameRunning, isPaused);
            r.events == [Sound(JumpSound)] <==>
            isGameRunning && !isPaused && IsJumpKey(code) && !p.isJumping && !p.isDucking
    ensures (KeyDown(p, code, isGameRunning, isPaused).player.isJumping && !p.isJumping) <==>
            (isGameRunning && !isPaused && IsJumpKey(code) && !p.isJumping && !p.isDucking)
    ensures isGameRunning && !isPaused && IsJumpKey(code) && CanJump(p) ==>
            KeyDown(p, code, isGameRunning, isPaused) == PlayerStep(Jumped(p), [Sound(JumpSound)])
    ensures IsJumpKey(code) && p.isDucking ==>
            KeyDown(p, code, isGameRunning, isPaused) == PlayerStep(p, [])
    ensures var q := KeyDown(p, code, isGameRunning, isPaused).player;
            q.isJumping && !p.isJumping ==>
              q.velocityY == -PLAYER_JUMP_SPEED &&
              q.x == p.x && q.y == p.y && q.width == p.width && q.height == p.height &&
              q.isDucking == p.isDucking && q.groundY == p.groundY
  {
  }

  /**
   * A duck is accepted on a duck key while running, unpaused and not
   * jumping; it halves the height and keeps the bottom edge on the ground.
   */
  lemma KeyDownDuckAccepted(p: Player, code: string, isGameRunning: bool, isPaused: bool)
    requires PlayerValid(p)
    ensures var q := KeyDown(p, code, isGameRunning, isPaused).player;
            q.isDucking <==>
            p.isDucking || (isGameRunning && !isPaused && IsDuckKey(code) && !p.isJumping)
    ensures var q := KeyDown(p, code, isGameRunning, isPaused).player;
            q.isDucking ==> q.height == DUCK_HEIGHT && q.y + q.height == GROUND_Y + PLAYER_HEIGHT
  {
  }

  /**
   * A touch jumps exactly in the upper half of the canvas, while running,
   * unpaused and neither jumping nor ducking; anywhere else it ducks, unless
   * the player is in the air. An accepted touch is jump() or duck().
   */
  lemma TouchStartAccepted(p: Player, touchY: real, canvasHeight: real, isGameRunning: bool, isPaused: bool)
    ensures var q := TouchStart(p, touchY, canvasHeight, isGameRunning, isPaused).player;
            (q.isJumping && !p.isJumping) <==>
            (isGameRunning && !isPaused && touchY < canvasHeight / 2.0 && CanJump(p))
    ensures var q := TouchStart(p, touchY, canvasHeight, isGameRunning, isPaused).player;
            q.isDucking <==>
            p.isDucking || (isGameRunning && !isPaused && touchY >= canvasHeight / 2.0 && !p.isJumping)
    ensures isGameRunning && !isPaused && touchY < canvasHeight / 2.0 && CanJump(p) ==>
              TouchStart(p, touchY, canvasHeight, isGameRunning, isPaused) == PlayerStep(Jumped(p), [Sound(JumpSound)])
    ensures isGameRunning && !isPaused && touchY >= canvasHeight / 2.0 && CanDuck(p) ==>
              TouchStart(p, touchY, canvasHeight, isGameRunning, isPaused) == PlayerStep(Ducked(p), [])
  {
  }

  /** Nothing a press does while the game is stopped or paused, or while in the air. */
  lemma PressIgnored(p: Player, code: string, touchY: real, canvasHeight: real,
                     isGameRunning: bool, isPaused: bool)
    requires PlayerValid(p)
    requires !isGameRunning || isPaused || p.isJumping
    ensures KeyDown(p, code, isGameRunning, isPaused) == PlayerStep(p, [])
    ensures TouchStart(p, touchY, canvasHeight, isGameRunning, isPaused) == PlayerStep(p, [])
  {
  }

  /** Releasing always leaves the player standing; only a ducking player moves. */
  lemma ReleaseStands(p: Player)
    requires PlayerValid(p)
    ensures !Release(p).isDucking
    ensures p.isDucking ==> Release(p).y == GROUND_Y && Release(p).height == PLAYER_HEIGHT
    ensures !p.isDucking ==> Release(p) == p
  {
  }

  /** A duck key released while ducking stands up; any other keyup changes nothing. */
  lemma KeyUpStands(p: Player, code: string)
    ensures KeyUp(p, code).isDucking <==> p.isDucking && !IsDuckKey(code)
    ensures IsDuckKey(code) && p.isDucking ==> KeyUp(p, code) == StoodUp(p)
    ensures !(IsDuckKey(code) && p.isDucking) ==> KeyUp(p, code) == p
  {
  }

  // ---------------------------------------------------------------------------
  // Gravity
  // ---------------------------------------------------------------------------

  /** The player part of a tick. */
  function Physics(p: Player): Player
  {
    if !p.isJumping then p
    else
      var v := p.velocityY + GRAVITY;
      var y := p.y + v;
      if y >= p.groundY then p.(y := p.groundY, velocityY := 0.0, isJumping := false)
      else p.(y := y, velocityY := v)
  }

  lemma PhysicsKeepsValid(p: Player)
    requires PlayerValid(p)
    ensures PlayerValid(Physics(p))
    ensures p.isJumping ==> Physics(p).y <= p.groundY
    ensures Physics(p).isJumping ==> Physics(p).y < p.groundY
  {
  }

  lemma PressKeepsValid(p: Player, i: Intent)
    requires PlayerValid(p)
    ensures PlayerValid(Press(p, i).player)
  {
  }

  /** On the ground, ducking or not, the bottom edge is the ground line plus 60. */
  lemma FeetOnGround(p: Player)
    requires PlayerValid(p) && !p.isJumping
    ensures p.y + p.height == GROUND_Y + PLAYER_HEIGHT
  {
  }

  /** One step of the player in isolation. */
  datatype PlayerInput =
    | KeyPressed(code: string, isGameRunning: bool, isPaused: bool)
    | KeyReleased(code: string)
    | Touched(touchY: real, canvasHeight: real, isGameRunning: bool, isPaused: bool)
    | Untouched
    | Ticked

  function PlayerInputStep(p: Player, i: PlayerInput): Player
  {
    match i
    case KeyPressed(code, r, ps) => KeyDown(p, code, r, ps).player
    case KeyReleased(code) => KeyUp(p, code)
    case Touched(y, h, r, ps) => TouchStart(p, y, h, r, ps).player
    case Untouched => Release(p)
    case Ticked => Physics(p)
  }

  function RunPlayer(p: Player, inputs: seq<PlayerInput>): Player
    decreases |inputs|
  {
    if inputs == [] then p
    else PlayerInputStep(RunPlayer(p, inputs[..|inputs| - 1]), inputs[|inputs| - 1])
  }

  /** Under any interleaving of inputs and ticks the player never jumps and ducks at once. */
  lemma {:induction false} RunPlayerKeepsValid(p: Player, inputs: seq<PlayerInput>)
    requires PlayerValid(p)
    ensures PlayerValid(RunPlayer(p, inputs))
    ensures !(RunPlayer(p, inputs).isJumping && RunPlayer(p, inputs).isDucking)
    decreases |inputs|
  {
    if inputs != [] {
      var q := RunPlayer(p, inputs[..|inputs| - 1]);
      RunPlayerKeepsValid(p, inputs[..|inputs| - 1]);
      match inputs[|inputs| - 1]
      case KeyPressed(code, r, ps) => PressKeepsValid(q, KeyDownIntent(code));
      case KeyReleased(code) =>
      case Touched(y, h, r, ps) => PressKeepsValid(q, TouchIntent(y, h));
      case Untouched =>
      case Ticked => PhysicsKeepsValid(q);
    }
  }

  // ---------------------------------------------------------------------------
  // The arc of a jump
  // ---------------------------------------------------------------------------

  /** The player k ticks after a jump from the initial position. */
  function Airborne(k: nat): Player
  {
    if k == 0 then Jumped(INITIAL_PLAYER) else Physics(Airborne(k - 1))
  }

  /** The height of the arc k ticks after the jump, above the ground line. */
  function ArcY(k: nat): real
  {
    GROUND_Y - 15.0 * (k as real) + 0.4 * (k as real) * (k as real + 1.0)
  }

  /** For 36 ticks the player is in the air on the parabola y = 290 - 15k + 0.4k(k+1). */
  lemma {:induction false} JumpArc(k: nat)
    requires k <= 36
    ensures Airborne(k) == INITIAL_PLAYER.(isJumping := true,
                                           velocityY := (k as real) * GRAVITY - PLAYER_JUMP_SPEED,
                                           y := ArcY(k))
  {
    if k > 0 {
      JumpArc(k - 1);
      ArcStep(k - 1);
    }
  }

  /** One tick along the arc, while still below the ground line. */
  lemma ArcStep(j: nat)
    requires j <= 35
    ensures ArcY(j) + ((j + 1) as real * GRAVITY - PLAYER_JUMP_SPEED) == ArcY(j + 1)
    ensures ArcY(j + 1) < GROUND_Y
  {
    var a, b := j as real + 1.0, 15.0 - 0.4 * (j as real + 2.0);
    assert ArcY(j + 1) == GROUND_Y - a * b;
    PositiveProduct(a, b);
  }

  lemma PositiveProduct(a: real, b: real)
    requires a > 0.0 && b > 0.0
    ensures a * b > 0.0
  {
  }

  /** The two heights the arc lemmas need: at the apex and on the last tick in the air. */
  lemma ArcAt(k: nat)
    requires k == 18 || k == 36
    ensures k == 18 ==> ArcY(k) == 156.8
    ensures k == 36 ==> ArcY(k) == 282.8
  {
  }

  /** On the 37th tick the player lands and is back in the initial record. */
  lemma JumpLands()
    ensures Airborne(37) == INITIAL_PLAYER
  {
    LandsAfter(36);
  }

  /** The tick after the 36th: the fall passes the ground line and is clamped. */
  lemma LandsAfter(k: nat)
    requires k == 36
    ensures Airborne(k + 1) == INITIAL_PLAYER
  {
    JumpArc(k);
    var p := Airborne(k);
    assert p.y == 282.8 by { ArcAt(k); }
    assert p.velocityY == 13.8;
    assert Airborne(k + 1) == Physics(p);
  }

  /** The top of the arc is y = 156.8, reached 18 ticks after the jump. */
  lemma JumpApex(k: nat)
    requires k <= 36
    ensures Airborne(k).y >= Airborne(18).y == 156.8
  {
    JumpArc(k);
    ApexBound(k);
    ApexAt18();
  }

  lemma ApexAt18()
    ensures Airborne(18).y == 156.8
  {
    var k: nat := 18;
    JumpArc(k);
    ArcAt(k);
  }

  /** ArcY(k) - 156.8 = 0.4 (k - 18) (k - 18.5), which no whole k makes negative. */
  lemma ApexBound(k: nat)
    ensures ArcY(k) >= 156.8
  {
    var a, b := k as real - 18.0, k as real - 18.5;
    assert ArcY(k) - 156.8 == 0.4 * (a * b);
    if k <= 18 {
      NonNegativeProduct(-a, -b);
      assert a * b == (-a) * (-b);
    } else {
      NonNegativeProduct(a, b);
    }
  }

  lemma NonNegativeProduct(a: real, b: real)
    requires a >= 0.0 && b >= 0.0
    ensures a * b >= 0.0
  {
  }

  // ---------------------------------------------------------------------------
  // Obstacles
  // ---------------------------------------------------------------------------

  datatype Kind = High | Low

  datatype Obstacle = Obstacle(id: int, x: real, y: real, width: real, height: real, kind: Kind)

  function ObstacleRect(o: Obstacle): Rect
  {
    Rect(o.x, o.y, o.width, o.height)
  }

  /** Math.random() > 0.5 picks 'high'. */
  function ChooseKind(random: real): (k: Kind)
    ensures k == High <==> random > 0.5
  {
    if random > 0.5 then High else Low
  }

  function KindY(k: Kind): real
  {
    if k == High then HIGH_OBSTACLE_Y else LOW_OBSTACLE_Y
  }

  /** A new obstacle enters at the right edge of the canvas. */
  function NewObstacle(kind: Kind, id: int): (o: Obstacle)
    ensures o.x == CANVAS_WIDTH && o.width == OBSTACLE_WIDTH && o.height == OBSTACLE_HEIGHT
    ensures o.y == (if kind == High then 290.0 else 240.0) && o.kind == kind && o.id == id
  {
    Obstacle(id, CANVAS_WIDTH, KindY(kind), OBSTACLE_WIDTH, OBSTACLE_HEIGHT, kind)
  }

  predicate ObstacleValid(o: Obstacle)
  {
    && o.y == KindY(o.kind) && o.width == OBSTACLE_WIDTH && o.height == OBSTACLE_HEIGHT
    && -o.width <= o.x <= CANVAS_WIDTH
  }

  function Advance(o: Obstacle, speed: real): Obstacle
  {
    o.(x := o.x - speed)
  }

  predicate OffScreen(o: Obstacle) { o.x + o.width < 0.0 }

  predicate Hits(p: Player, o: Obstacle) { CheckCollision(PlayerRect(p), ObstacleRect(o)) }

  /** A standing player is hit by either kind of obstacle it overlaps horizontally. */
  lemma StandingIsHit(p: Player, o: Obstacle)
    requires PlayerValid(p) && !p.isJumping && !p.isDucking && ObstacleValid(o)
    ensures Hits(p, o) <==> PLAYER_START_X - OBSTACLE_WIDTH < o.x < PLAYER_START_X + PLAYER_WIDTH
  {
  }

  /** Ducking passes under a low obstacle but not a high one. */
  lemma DuckingPassesUnderLow(p: Player, o: Obstacle)
    requires PlayerValid(p) && p.isDucking && ObstacleValid(o)
    ensures o.kind == Low ==> !Hits(p, o)
    ensures o.kind == High ==>
              (Hits(p, o) <==> PLAYER_START_X - OBSTACLE_WIDTH < o.x < PLAYER_START_X + PLAYER_WIDTH)
  {
  }

  /** At the top of a jump the player clears both kinds of obstacle. */
  lemma ApexClearsBoth(o: Obstacle)
    requires ObstacleValid(o)
    ensures !Hits(Airborne(18), o)
  {
    var k: nat := 18;
    JumpArc(k);
    ArcAt(k);
  }

  /** A jump clears a low obstacle it overlaps horizontally exactly on ticks 11 to 25 of the arc. */
  lemma JumpClearsLow(k: nat, o: Obstacle)
    requires k <= 36 && ObstacleValid(o) && o.kind == Low
    requires PLAYER_START_X - OBSTACLE_WIDTH < o.x < PLAYER_START_X + PLAYER_WIDTH
    ensures !Hits(Airborne(k), o) <==> 11 <= k <= 25
  {
    JumpArc(k);
    ArcWindow(k);
  }

  /** ArcY(k) - 180 = 0.4 (k - 11) (k - 25) - 0.2 k: below 180 exactly for k in [11, 25]. */
  lemma ArcWindow(k: nat)
    ensures 11 <= k <= 25 ==> ArcY(k) < 180.0
    ensures !(11 <= k <= 25) ==> ArcY(k) > 180.0
  {
    var a, b := k as real - 11.0, k as real - 25.0;
    assert ArcY(k) - 180.0 == 0.4 * (a * b) - 0.2 * (k as real);
    if 11 <= k <= 25 {
      NonNegativeProduct(a, -b);
      assert a * b == -(a * -b);
    } else if k <= 10 {
      ProductAtLeast(-a, -b, 15.0);
      assert a * b == (-a) * (-b);
    } else {
      ProductAtLeast(b, a, 15.0);
      assert a * b == b * a;
    }
  }

  lemma ProductAtLeast(x: real, y: real, c: real)
    requires x >= 0.0 && y >= c
    ensures x * y >= x * c
  {
    NonNegativeProduct(x, y - c);
    assert x * y - x * c == x * (y - c);
  }

  /** An off-screen obstacle never overlaps the player, so testing it first changes nothing. */
  lemma OffScreenMissesPlayer(p: Player, o: Obstacle)
    requires PlayerValid(p) && OffScreen(o)
    ensures !Hits(p, o)
  {
  }

  /** Advancing k times at a fixed speed. */
  function AdvanceTimes(o: Obstacle, speed: real, k: nat): Obstacle
  {
    if k == 0 then o else Advance(AdvanceTimes(o, speed, k - 1), speed)
  }

  lemma {:induction false} AdvanceTimesX(o: Obstacle, speed: real, k: nat)
    ensures AdvanceTimes(o, speed, k) == o.(x := o.x - (k as real) * speed)
  {
    if k > 0 {
      AdvanceTimesX(o, speed, k - 1);
    }
  }

  /** At multiplier 1 a new obstacle is off-screen exactly from its 167th advancement on. */
  lemma CulledOn167th(kind: Kind, id: int, k: nat)
    ensures OffScreen(AdvanceTimes(NewObstacle(kind, id), OBSTACLE_SPEED, k)) <==> k >= 167
  {
    AdvanceTimesX(NewObstacle(kind, id), OBSTACLE_SPEED, k);
  }

  // ---------------------------------------------------------------------------
  // Game state
  // ---------------------------------------------------------------------------

  datatype GameState = GameState(score: nat, lastObstacleSpawn: real, groundOffset: real,
                                 difficultyMultiplier: real, lastDifficultyIncrease: real)

  const INITIAL_GAME: GameState := GameState(0, 0.0, 0.0, 1.0, 0.0)

  /** The multiplier was computed from some score not above the present one. */
  predicate GameValid(g: GameState)
  {
    && 1.0 <= g.difficultyMultiplier <= DifficultyMultiplier(g.score)
    && -GROUND_TILE < g.groundOffset <= 0.0
  }

  datatype World = World(player: Player, obstacles: seq<Obstacle>, game: GameState)

  const INITIAL_WORLD: World := World(INITIAL_PLAYER, [], INITIAL_GAME)

  predicate WorldValid(w: World)
  {
    && PlayerValid(w.player) && GameValid(w.game)
    && forall i :: 0 <= i < |w.obstacles| ==> ObstacleValid(w.obstacles[i])
  }

  lemma InitialWorldValid()
    ensures WorldValid(INITIAL_WORLD)
  {
  }

  // ---------------------------------------------------------------------------
  // The pieces of a tick
  // ---------------------------------------------------------------------------

  function RecomputeDifficulty(g: GameState, currentTime: real): GameState
  {
    if currentTime - g.lastDifficultyIncrease > DIFFICULTY_INCREASE_INTERVAL then
      g.(difficultyMultiplier := DifficultyMultiplier(g.score), lastDifficultyIncrease := currentTime)
    else g
  }

  predicate SpawnDue(g: GameState, currentTime: real)
    requires g.difficultyMultiplier > 0.0
  {
    currentTime - g.lastObstacleSpawn > OBSTACLE_SPAWN_INTERVAL / g.difficultyMultiplier
  }

  datatype Spawned = Spawned(obstacles: seq<Obstacle>, game: GameState)

  /** spawnObstacle(currentTime) */
  function Spawn(obs: seq<Obstacle>, g: GameState, currentTime: real, random: real, id: int): Spawned
    requires g.difficultyMultiplier > 0.0
  {
    if SpawnDue(g, currentTime) then
      Spawned(obs + [NewObstacle(ChooseKind(random), id)], g.(lastObstacleSpawn := currentTime))
    else Spawned(obs, g)
  }

  /** At most one obstacle is added, at the end, and only when the interval has passed. */
  lemma SpawnAtMostOne(obs: seq<Obstacle>, g: GameState, currentTime: real, random: real, id: int)
    requires g.difficultyMultiplier > 0.0
    ensures var r := Spawn(obs, g, currentTime, random, id);
            && r.obstacles[..|obs|] == obs
            && |r.obstacles| == |obs| + (if SpawnDue(g, currentTime) then 1 else 0)
            && (SpawnDue(g, currentTime) ==>
                  r.obstacles[|obs|] == NewObstacle(ChooseKind(random), id) &&
                  r.game.lastObstacleSpawn == currentTime)
            && (!SpawnDue(g, currentTime) ==> r.game == g)
            && r.game.(lastObstacleSpawn := g.lastObstacleSpawn) == g
  {
  }

  /** The spawn test at multiplier m: more than 2000 / m milliseconds since the last spawn. */
  lemma SpawnDueIff(g: GameState, currentTime: real)
    requires g.difficultyMultiplier > 0.0
    ensures SpawnDue(g, currentTime) <==>
            (currentTime - g.lastObstacleSpawn) * g.difficultyMultiplier > OBSTACLE_SPAWN_INTERVAL
  {
    var m := g.difficultyMultiplier;
    var d := currentTime - g.lastObstacleSpawn;
    assert (OBSTACLE_SPAWN_INTERVAL / m) * m == OBSTACLE_SPAWN_INTERVAL;
    if d > OBSTACLE_SPAWN_INTERVAL / m {
      assert d * m > (OBSTACLE_SPAWN_INTERVAL / m) * m;
    } else {
      assert d * m <= (OBSTACLE_SPAWN_INTERVAL / m) * m;
    }
  }

  datatype Swept = Swept(kept: seq<Obstacle>, score: nat, events: seq<Event>)

  /** The filter callback for one obstacle: advance, then cull, then collide. */
  function SweepOne(r: Swept, o: Obstacle, p: Player, speed: real): Swept
  {
    var m := Advance(o, speed);
    if OffScreen(m) then
      var s := r.score + OFFSCREEN_BONUS;
      Swept(r.kept, s, r.events + [ScoreUpdate(s)] +
                       (if s % SCORE_SOUND_INTERVAL == 0 then [Sound(ScoreSound)] else []))
    else if Hits(p, m) then
      Swept(r.kept, r.score, r.events + [Sound(CollisionSound), GameOver(r.score)])
    else
      Swept(r.kept + [m], r.score, r.events)
  }

  /** The same callback with the collision tested before the cull. */
  function SweepOneCollisionFirst(r: Swept, o: Obstacle, p: Player, speed: real): Swept
  {
    var m := Advance(o, speed);
    if Hits(p, m) then
      Swept(r.kept, r.score, r.events + [Sound(CollisionSound), GameOver(r.score)])
    else if OffScreen(m) then
      var s := r.score + OFFSCREEN_BONUS;
      Swept(r.kept, s, r.events + [ScoreUpdate(s)] +
                       (if s % SCORE_SOUND_INTERVAL == 0 then [Sound(ScoreSound)] else []))
    else
      Swept(r.kept + [m], r.score, r.events)
  }

  /** For any reachable player the order of the two tests does not matter. */
  lemma TestOrderImmaterial(r: Swept, o: Obstacle, p: Player, speed: real)
    requires PlayerValid(p)
    ensures SweepOne(r, o, p, speed) == SweepOneCollisionFirst(r, o, p, speed)
  {
    if OffScreen(Advance(o, speed)) {
      OffScreenMissesPlayer(p, Advance(o, speed));
    }
  }

  /** The whole filter, left to right, starting from the given score. */
  function Sweep(obs: seq<Obstacle>, p: Player, speed: real, score: nat): Swept
    decreases |obs|
  {
    if obs == [] then Swept([], score, [])
    else SweepOne(Sweep(obs[..|obs| - 1], p, speed, score), obs[|obs| - 1], p, speed)
  }

  // Reference definitions of what the filter keeps and counts.

  function Survivors(obs: seq<Obstacle>, p: Player, speed: real): seq<Obstacle>
    decreases |obs|
  {
    if obs == [] then []
    else
      var m := Advance(obs[|obs| - 1], speed);
      Survivors(obs[..|obs| - 1], p, speed) + (if !OffScreen(m) && !Hits(p, m) then [m] else [])
  }

  function CountOffScreen(obs: seq<Obstacle>, speed: real): nat
    decreases |obs|
  {
    if obs == [] then 0
    else CountOffScreen(obs[..|obs| - 1], speed) + (if OffScreen(Advance(obs[|obs| - 1], speed)) then 1 else 0)
  }

  function CountHits(obs: seq<Obstacle>, p: Player, speed: real): nat
    decreases |obs|
  {
    if obs == [] then 0
    else
      var m := Advance(obs[|obs| - 1], speed);
      CountHits(obs[..|obs| - 1], p, speed) + (if !OffScreen(m) && Hits(p, m) then 1 else 0)
  }

  function NumGameOver(events: seq<Event>): nat
  {
    if events == [] then 0 else (if events[0].GameOver? then 1 else 0) + NumGameOver(events[1..])
  }

  lemma {:induction false} NumGameOverAppend(a: seq<Event>, b: seq<Event>)
    ensures NumGameOver(a + b) == NumGameOver(a) + NumGameOver(b)
  {
    if a != [] {
      assert (a + b)[1..] == a[1..] + b;
      NumGameOverAppend(a[1..], b);
    } else {
      assert a + b == b;
    }
  }

  /** Every score carried by an event is at most s. */
  predicate ScoresAtMost(events: seq<Event>, s: nat)
  {
    forall i :: 0 <= i < |events| ==>
      (events[i].ScoreUpdate? ==> events[i].score <= s) &&
      (events[i].GameOver? ==> events[i].finalScore <= s)
  }

  /** What one filter step adds to the kept list, the score and the events. */
  lemma SweepOneAccounts(r: Swept, o: Obstacle, p: Player, speed: real)
    ensures var r1, m := SweepOne(r, o, p, speed), Advance(o, speed);
            && r1.kept == r.kept + (if !OffScreen(m) && !Hits(p, m) then [m] else [])
            && r1.score == r.score + (if OffScreen(m) then OFFSCREEN_BONUS else 0)
            && NumGameOver(r1.events) ==
               NumGameOver(r.events) + (if !OffScreen(m) && Hits(p, m) then 1 else 0)
            && (ScoresAtMost(r.events, r.score) ==> ScoresAtMost(r1.events, r1.score))
  {
    var m := Advance(o, speed);
    if OffScreen(m) {
      var s := r.score + OFFSCREEN_BONUS;
      var tail := [ScoreUpdate(s)] + (if s % SCORE_SOUND_INTERVAL == 0 then [Sound(ScoreSound)] else []);
      assert SweepOne(r, o, p, speed).events == r.events + tail;
      NumGameOverAppend(r.events, tail);
      if s % SCORE_SOUND_INTERVAL == 0 {
        assert tail[1..] == [Sound(ScoreSound)];
        assert NumGameOver([Sound(ScoreSound)]) == 0 by {
          assert [Sound(ScoreSound)][1..] == [];
        }
      } else {
        assert tail[1..] == [];
      }
      assert NumGameOver(tail) == 0;
    } else if Hits(p, m) {
      var tail := [Sound(CollisionSound), GameOver(r.score)];
      assert SweepOne(r, o, p, speed).events == r.events + tail;
      NumGameOverAppend(r.events, tail);
      assert tail[1..] == [GameOver(r.score)];
      assert NumGameOver([GameOver(r.score)]) == 1 by {
        assert [GameOver(r.score)][1..] == [];
      }
      assert NumGameOver(tail) == 1;
    }
  }

  /**
   * The filter keeps exactly the survivors, in order; the score grows by ten
   * per culled obstacle; there is one GameOver per obstacle hit; and no event
   * reports more than the final score.
   */
  lemma {:induction false} SweepAccounts(obs: seq<Obstacle>, p: Player, speed: real, score: nat)
    ensures var r := Sweep(obs, p, speed, score);
            && r.kept == Survivors(obs, p, speed)
            && r.score == score + OFFSCREEN_BONUS * CountOffScreen(obs, speed)
            && NumGameOver(r.events) == CountHits(obs, p, speed)
            && ScoresAtMost(r.events, r.score)
    decreases |obs|
  {
    if obs != [] {
      var init := obs[..|obs| - 1];
      SweepAccounts(init, p, speed, score);
      SweepOneAccounts(Sweep(init, p, speed, score), obs[|obs| - 1], p, speed);
    }
  }

  /** Every obstacle is kept, culled or hit, and only one of them. */
  lemma {:induction false} SweepConserves(obs: seq<Obstacle>, p: Player, speed: real)
    ensures |Survivors(obs, p, speed)| + CountOffScreen(obs, speed) + CountHits(obs, p, speed) == |obs|
    decreases |obs|
  {
    if obs != [] {
      SweepConserves(obs[..|obs| - 1], p, speed);
    }
  }

  /** Survivors are advanced, on screen and within the canvas. */
  lemma {:induction false} SurvivorsValid(obs: seq<Obstacle>, p: Player, speed: real)
    requires speed >= 0.0
    requires forall i :: 0 <= i < |obs| ==>
               obs[i].y == KindY(obs[i].kind) && obs[i].width == OBSTACLE_WIDTH &&
               obs[i].height == OBSTACLE_HEIGHT && obs[i].x <= CANVAS_WIDTH
    ensures forall i :: 0 <= i < |Survivors(obs, p, speed)| ==>
              ObstacleValid(Survivors(obs, p, speed)[i]) &&
              Survivors(obs, p, speed)[i].x <= CANVAS_WIDTH - speed
    decreases |obs|
  {
    if obs != [] {
      var init := obs[..|obs| - 1];
      SurvivorsValid(init, p, speed);
      var s0 := Survivors(init, p, speed);
      var m := Advance(obs[|obs| - 1], speed);
      if !OffScreen(m) && !Hits(p, m) {
        var s := Survivors(obs, p, speed);
        assert s == s0 + [m];
        assert ObstacleValid(m) && m.x <= CANVAS_WIDTH - speed;
        forall i | 0 <= i < |s| ensures ObstacleValid(s[i]) && s[i].x <= CANVAS_WIDTH - speed {
          if i < |s0| {
            assert s[i] == s0[i];
          } else {
            assert s[i] == m;
          }
        }
      }
    }
  }

  /** groundOffset -= GROUND_SPEED * m, wrapping to 0 at one tile. */
  function ScrollGround(offset: real, m: real): (r: real)
    ensures offset <= 0.0 && m >= 0.0 ==> -GROUND_TILE < r <= 0.0
    ensures offset <= 0.0 && m >= 0.0 && r != 0.0 ==> r == offset - GROUND_SPEED * m
  {
    var o := offset - GROUND_SPEED * m;
    if o <= -GROUND_TILE then 0.0 else o
  }

  /** From multiplier 10 on (score 45000) the ground is reset on every tick and stands still. */
  lemma GroundFreezes(offset: real, m: real)
    requires offset <= 0.0 && m >= 10.0
    ensures ScrollGround(offset, m) == 0.0
  {
  }

  /** Difficulty recompute followed by the spawn: the state the filter starts from. */
  function Prepared(w: World, currentTime: real, random: real, id: int): Spawned
    requires w.game.difficultyMultiplier > 0.0
  {
    Spawn(w.obstacles, RecomputeDifficulty(w.game, currentTime), currentTime, random, id)
  }

  /** The speed of this tick: OBSTACLE_SPEED times the recomputed multiplier. */
  function TickSpeed(w: World, currentTime: real): real
  {
    OBSTACLE_SPEED * RecomputeDifficulty(w.game, currentTime).difficultyMultiplier
  }

  datatype TickResult = TickResult(world: World, events: seq<Event>)

  /** updateGame: difficulty, gravity, spawn, filter, ground, passive score. */
  function TickSpec(w: World, currentTime: real, random: real, id: int): TickResult
    requires w.game.difficultyMultiplier > 0.0
  {
    var sp := Prepared(w, currentTime, random, id);
    var p := Physics(w.player);
    var sw := Sweep(sp.obstacles, p, TickSpeed(w, currentTime), sp.game.score);
    var offset := ScrollGround(sp.game.groundOffset, sp.game.difficultyMultiplier);
    var score := sw.score + SCORE_INCREMENT;
    TickResult(World(p, sw.kept, sp.game.(score := score, groundOffset := offset)),
               sw.events + [ScoreUpdate(score)])
  }

  /** The game-state fields a tick sets, before the filter's score. */
  lemma PreparedGame(w: World, currentTime: real, random: real, id: int)
    requires w.game.difficultyMultiplier > 0.0
    ensures var g := Prepared(w, currentTime, random, id).game;
            && g.score == w.game.score
            && g.groundOffset == w.game.groundOffset
            && g.difficultyMultiplier == RecomputeDifficulty(w.game, currentTime).difficultyMultiplier
  {
  }

  /** A tick keeps every invariant of the world record. */
  lemma TickPreservesValid(w: World, currentTime: real, random: real, id: int)
    requires WorldValid(w)
    ensures WorldValid(TickSpec(w, currentTime, random, id).world)
  {
    var g1 := RecomputeDifficulty(w.game, currentTime);
    var sp := Prepared(w, currentTime, random, id);
    var p := Physics(w.player);
    var speed := TickSpeed(w, currentTime);
    var sw := Sweep(sp.obstacles, p, speed, sp.game.score);
    var r := TickSpec(w, currentTime, random, id).world;
    PhysicsKeepsValid(w.player);
    SurvivorsValid(sp.obstacles, p, speed);
    SweepAccounts(sp.obstacles, p, speed, sp.game.score);
    DifficultyMonotone(w.game.score, r.game.score);
  }

  /**
   * The score rises by ten per culled obstacle plus one, and never falls;
   * the filter keeps exactly the survivors of the advanced obstacles.
   */
  lemma TickScore(w: World, currentTime: real, random: real, id: int)
    requires w.game.difficultyMultiplier > 0.0
    ensures var sp := Prepared(w, currentTime, random, id);
            var r := TickSpec(w, currentTime, random, id);
            && r.world.game.score ==
               w.game.score + SCORE_INCREMENT + OFFSCREEN_BONUS * CountOffScreen(sp.obstacles, TickSpeed(w, currentTime))
            && r.world.game.score > w.game.score
            && r.world.obstacles == Survivors(sp.obstacles, Physics(w.player), TickSpeed(w, currentTime))
  {
    var sp := Prepared(w, currentTime, random, id);
    SweepAccounts(sp.obstacles, Physics(w.player), TickSpeed(w, currentTime), sp.game.score);
  }

  /**
   * A tick reports one GameOver per obstacle hit, every score it reports is
   * below the final one, and its last event is the passive ScoreUpdate, which
   * is emitted in a collision tick too.
   */
  lemma TickEvents(w: World, currentTime: real, random: real, id: int)
    requires w.game.difficultyMultiplier > 0.0
    ensures var sp := Prepared(w, currentTime, random, id);
            var r := TickSpec(w, currentTime, random, id);
            var n := |r.events|;
            && NumGameOver(r.events) == CountHits(sp.obstacles, Physics(w.player), TickSpeed(w, currentTime))
            && n >= 1 && r.events[n - 1] == ScoreUpdate(r.world.game.score)
            && ScoresAtMost(r.events[..n - 1], r.world.game.score - 1)
  {
    var sp := Prepared(w, currentTime, random, id);
    var sw := Sweep(sp.obstacles, Physics(w.player), TickSpeed(w, currentTime), sp.game.score);
    var r := TickSpec(w, currentTime, random, id);
    SweepAccounts(sp.obstacles, Physics(w.player), TickSpeed(w, currentTime), sp.game.score);
    NumGameOverAppend(sw.events, [ScoreUpdate(r.world.game.score)]);
    assert r.events[..|r.events| - 1] == sw.events;
  }

  /** The multiplier never falls, and changes only when the recompute interval has passed. */
  lemma TickMultiplier(w: World, currentTime: real, random: real, id: int)
    requires WorldValid(w)
    ensures var m := TickSpec(w, currentTime, random, id).world.game.difficultyMultiplier;
            && m >= w.game.difficultyMultiplier
            && (m != w.game.difficultyMultiplier ==>
                  currentTime - w.game.lastDifficultyIncrease > DIFFICULTY_INCREASE_INTERVAL &&
                  m == DifficultyMultiplier(w.game.score))
  {
  }

  // ---------------------------------------------------------------------------
  // The component's mutable records
  // ---------------------------------------------------------------------------

  class Canvas {
    var player: Player
    var obstacles: seq<Obstacle>
    var game: GameState

    function State(): World
      reads this
    {
      World(player, obstacles, game)
    }

    predicate Valid()
      reads this
    {
      WorldValid(State())
    }

    constructor ()
      ensures State() == INITIAL_WORLD && Valid()
    {
      player := INITIAL_PLAYER;
      obstacles := [];
      game := INITIAL_GAME;
    }

    /** resetGame() */
    method Reset()
      modifies this
      ensures State() == INITIAL_WORLD && Valid()
    {
      player := Player(PLAYER_START_X, CANVAS_HEIGHT - PLAYER_HEIGHT - 50.0, PLAYER_WIDTH,
                       PLAYER_HEIGHT, 0.0, false, false, CANVAS_HEIGHT - PLAYER_HEIGHT - 50.0);
      obstacles := [];
      game := GameState(0, 0.0, 0.0, 1.0, 0.0);
    }

    method Jump() returns (events: seq<Event>)
      modifies this
      ensures player == Jumped(old(player)) && events == [Sound(JumpSound)]
      ensures obstacles == old(obstacles) && game == old(game)
    {
      player := player.(velocityY := -PLAYER_JUMP_SPEED);
      player := player.(isJumping := true);
      events := [Sound(JumpSound)];
    }

    method Duck()
      modifies this
      ensures player == Ducked(old(player))
      ensures obstacles == old(obstacles) && game == old(game)
    {
      player := player.(isDucking := true);
      player := player.(height := PLAYER_HEIGHT * 0.5);
      player := player.(y := player.groundY + PLAYER_HEIGHT * 0.5);
    }

    method StandUp()
      modifies this
      ensures player == StoodUp(old(player))
      ensures obstacles == old(obstacles) && game == old(game)
    {
      player := player.(isDucking := false);
      player := player.(height := PLAYER_HEIGHT);
      player := player.(y := player.groundY);
    }

    /** The guarded press, as both the key and the touch handler perform it. */
    method HandlePress(intent: Intent) returns (events: seq<Event>)
      requires Valid()
      modifies this
      ensures Valid()
      ensures Press(old(player), intent) == PlayerStep(player, events)
      ensures obstacles == old(obstacles) && game == old(game)
    {
      events := [];
      match intent
      case JumpIntent =>
        if !player.isJumping && !player.isDucking {
          events := Jump();
        }
      case DuckIntent =>
        if !player.isJumping {
          Duck();
        }
      case NoIntent =>
    }

    method HandleKeyDown(code: string, isGameRunning: bool, isPaused: bool) returns (events: seq<Event>)
      requires Valid()
      modifies this
      ensures Valid()
      ensures KeyDown(old(player), code, isGameRunning, isPaused) == PlayerStep(player, events)
      ensures obstacles == old(obstacles) && game == old(game)
    {
      events := [];
      if !isGameRunning || isPaused {
        return;
      }
      if code == "Space" || code == "ArrowUp" || code == "KeyW" {
        events := HandlePress(JumpIntent);
      } else if code == "ArrowDown" || code == "KeyS" {
        events := HandlePress(DuckIntent);
      }
    }

    method HandleKeyUp(code: string)
      requires Valid()
      modifies this
      ensures Valid()
      ensures player == KeyUp(old(player), code)
      ensures obstacles == old(obstacles) && game == old(game)
    {
      if code == "ArrowDown" || code == "KeyS" {
        if player.isDucking {
          StandUp();
        }
      }
    }

    method HandleTouchStart(touchY: real, canvasHeight: real, isGameRunning: bool, isPaused: bool)
      returns (events: seq<Event>)
      requires Valid()
      modifies this
      ensures Valid()
      ensures TouchStart(old(player), touchY, canvasHeight, isGameRunning, isPaused) == PlayerStep(player, events)
      ensures obstacles == old(obstacles) && game == old(game)
    {
      events := [];
      if !isGameRunning || isPaused {
        return;
      }
      if touchY < canvasHeight / 2.0 {
        events := HandlePress(JumpIntent);
      } else {
        events := HandlePress(DuckIntent);
      }
    }

    method HandleTouchEnd()
      requires Valid()
      modifies this
      ensures Valid()
      ensures player == Release(old(player))
      ensures obstacles == old(obstacles) && game == old(game)
    {
      if player.isDucking {
        StandUp();
      }
    }

    /** spawnObstacle(currentTime), with Math.random() and Date.now() passed in. */
    method SpawnObstacle(currentTime: real, random: real, now: int)
      requires game.difficultyMultiplier > 0.0
      modifies this
      ensures Spawned(obstacles, game) == Spawn(old(obstacles), old(game), currentTime, random, now)
      ensures player == old(player)
    {
      var timeSinceLastSpawn := currentTime - game.lastObstacleSpawn;
      var spawnInterval := OBSTACLE_SPAWN_INTERVAL / game.difficultyMultiplier;
      if timeSinceLastSpawn > spawnInterval {
        var obstacleType := if random > 0.5 then High else Low;
        var obstacle := Obstacle(now, CANVAS_WIDTH,
                                 if obstacleType == High then CANVAS_HEIGHT - OBSTACLE_HEIGHT - 50.0
                                 else CANVAS_HEIGHT - OBSTACLE_HEIGHT - 100.0,
                                 OBSTACLE_WIDTH, OBSTACLE_HEIGHT, obstacleType);
        obstacles := obstacles + [obstacle];
        game := game.(lastObstacleSpawn := currentTime);
      }
    }

    /**
     * The filter over the obstacle list: advance each obstacle, cull it when
     * off-screen (ten points), drop it on a collision (GameOver), keep it otherwise.
     */
    method FilterObstacles(speed: real) returns (kept: seq<Obstacle>, score: nat, events: seq<Event>)
      ensures Swept(kept, score, events) == Sweep(obstacles, player, speed, game.score)
    {
      kept := [];
      score := game.score;
      events := [];
      var i := 0;
      while i < |obstacles|
        invariant 0 <= i <= |obstacles|
        invariant Sweep(obstacles[..i], player, speed, game.score) == Swept(kept, score, events)
      {
        var obstacle := obstacles[i];
        obstacle := obstacle.(x := obstacle.x - speed);
        if obstacle.x + obstacle.width < 0.0 {
          score := score + OFFSCREEN_BONUS;
          events := events + [ScoreUpdate(score)];
          if score % SCORE_SOUND_INTERVAL == 0 {
            events := events + [Sound(ScoreSound)];
          }
        } else if CheckCollision(PlayerRect(player), ObstacleRect(obstacle)) {
          events := events + [Sound(CollisionSound), GameOver(score)];
        } else {
          kept := kept + [obstacle];
        }
        assert obstacles[..i + 1][..i] == obstacles[..i];
        i := i + 1;
      }
      assert obstacles[..i] == obstacles;
    }

    /** The difficulty step of updateGame: recompute every ten seconds. */
    method UpdateDifficulty(currentTime: real)
      modifies this
      ensures game == RecomputeDifficulty(old(game), currentTime)
      ensures player == old(player) && obstacles == old(obstacles)
    {
      if currentTime - game.lastDifficultyIncrease > DIFFICULTY_INCREASE_INTERVAL {
        game := game.(difficultyMultiplier := DifficultyMultiplier(game.score));
        game := game.(lastDifficultyIncrease := currentTime);
      }
    }

    /** The gravity step of updateGame. */
    method ApplyGravity()
      modifies this
      ensures player == Physics(old(player))
      ensures obstacles == old(obstacles) && game == old(game)
    {
      if player.isJumping {
        player := player.(velocityY := player.velocityY + GRAVITY);
        player := player.(y := player.y + player.velocityY);
        if player.y >= player.groundY {
          player := player.(y := player.groundY, velocityY := 0.0, isJumping := false);
        }
      }
    }

    /** The ground scroll and the passive point at the end of updateGame. */
    method ScrollAndScore() returns (update: Event)
      modifies this
      ensures game == old(game).(score := old(game).score + SCORE_INCREMENT,
                                 groundOffset := ScrollGround(old(game).groundOffset,
                                                              old(game).difficultyMultiplier))
      ensures update == ScoreUpdate(game.score)
      ensures player == old(player) && obstacles == old(obstacles)
    {
      game := game.(groundOffset := game.groundOffset - GROUND_SPEED * game.difficultyMultiplier);
      if game.groundOffset <= -GROUND_TILE {
        game := game.(groundOffset := 0.0);
      }
      game := game.(score := game.score + SCORE_INCREMENT);
      update := ScoreUpdate(game.score);
    }

    /** updateGame(deltaTime, fps), with performance.now(), Math.random() and Date.now() passed in. */
    method Tick(currentTime: real, random: real, now: int) returns (events: seq<Event>)
      requires Valid()
      modifies this
      ensures Valid()
      ensures TickResult(State(), events) == TickSpec(old(State()), currentTime, random, now)
    {
      ghost var w := State();
      UpdateDifficulty(currentTime);
      ApplyGravity();
      SpawnObstacle(currentTime, random, now);
      ghost var sp := Prepared(w, currentTime, random, now);
      assert obstacles == sp.obstacles && game == sp.game;

      var speed := OBSTACLE_SPEED * game.difficultyMultiplier;
      var kept, score;
      kept, score, events := FilterObstacles(speed);
      obstacles := kept;
      game := game.(score := score);

      var update := ScrollAndScore();
      events := events + [update];
      ghost var spec := TickSpec(w, currentTime, random, now);
      assert spec.world == State() && spec.events == events;
      TickPreservesValid(w, currentTime, random, now);
    }
  }
}
