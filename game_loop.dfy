/**
 * The game-loop hook: the tuning constants, the axis-aligned collision test,
 * the score-driven difficulty curve and the frame-admission / FPS bookkeeping
 * that runs once per display refresh.
 */
module GameLoop {

  // ---------------------------------------------------------------------------
  // GAME_CONFIG
  // ---------------------------------------------------------------------------

  const PLAYER_JUMP_SPEED: real := 15.0
  /** Declared in the configuration but read nowhere in the simulation. */
  const PLAYER_DUCK_DURATION: real := 500.0
  const GRAVITY: real := 0.8
  const GROUND_SPEED: real := 5.0
  const OBSTACLE_SPEED: real := 5.0
  const OBSTACLE_SPAWN_INTERVAL: real := 2000.0
  const DIFFICULTY_INCREASE_INTERVAL: real := 10000.0
  const SCORE_INCREMENT: nat := 1
  const CANVAS_WIDTH: real := 800.0
  const CANVAS_HEIGHT: real := 400.0
  const MOBILE_CANVAS_WIDTH: real := 350.0
  const MOBILE_CANVAS_HEIGHT: real := 300.0
  const PLAYER_WIDTH: real := 40.0
  const PLAYER_HEIGHT: real := 60.0
  const OBSTACLE_WIDTH: real := 30.0
  const OBSTACLE_HEIGHT: real := 60.0
  const PLAYER_X_DESKTOP: real := 100.0
  const PLAYER_X_MOBILE: real := 60.0

  /** The two thresholds written inline in the frame callback (milliseconds). */
  const MIN_FRAME_INTERVAL: real := 16.67
  const FPS_WINDOW: real := 1000.0

  // ---------------------------------------------------------------------------
  // Collision
  // ---------------------------------------------------------------------------

  datatype Rect = Rect(x: real, y: real, width: real, height: real)

  /** Strict axis-aligned bounding-box overlap. */
  predicate CheckCollision(r1: Rect, r2: Rect)
  {
    && r1.x < r2.x + r2.width
    && r1.x + r1.width > r2.x
    && r1.y < r2.y + r2.height
    && r1.y + r1.height > r2.y
  }

  /** The point (px, py) lies in the open interior of r. */
  predicate StrictlyInside(px: real, py: real, r: Rect)
  {
    r.x < px < r.x + r.width && r.y < py < r.y + r.height
  }

  function Max(a: real, b: real): real { if a < b then b else a }
  function Min(a: real, b: real): real { if a < b then a else b }

  /**
   * Reference meaning of the test: two rectangles of positive size collide
   * exactly when some point lies strictly inside both.
   */
  lemma CollisionIffCommonInteriorPoint(a: Rect, b: Rect)
    requires a.width > 0.0 && a.height > 0.0 && b.width > 0.0 && b.height > 0.0
    ensures CheckCollision(a, b) <==>
            exists px, py :: StrictlyInside(px, py, a) && StrictlyInside(px, py, b)
  {
    if CheckCollision(a, b) {
      var px := (Max(a.x, b.x) + Min(a.x + a.width, b.x + b.width)) / 2.0;
      var py := (Max(a.y, b.y) + Min(a.y + a.height, b.y + b.height)) / 2.0;
      assert StrictlyInside(px, py, a) && StrictlyInside(px, py, b);
    }
  }

  lemma CollisionSymmetric(a: Rect, b: Rect)
    ensures CheckCollision(a, b) == CheckCollision(b, a)
  {
  }

  /** Rectangles that only share an edge do not collide. */
  lemma TouchingEdgesDoNotCollide(a: Rect, b: Rect)
    requires || a.x + a.width == b.x || b.x + b.width == a.x
             || a.y + a.height == b.y || b.y + b.height == a.y
    ensures !CheckCollision(a, b)
  {
  }

  lemma SelfCollision(a: Rect)
    ensures CheckCollision(a, a) <==> a.width > 0.0 && a.height > 0.0
  {
  }

  // ---------------------------------------------------------------------------
  // Difficulty curve
  // ---------------------------------------------------------------------------

  /**
   * 1 + floor(score / 1000) * 0.2, in exact arithmetic. Dafny's integer
   * division rounds towards negative infinity for a positive divisor, which
   * is Math.floor of the quotient for every integer score.
   */
  function DifficultyMultiplier(score: int): (m: real)
    ensures score >= 0 ==> m >= 1.0
  {
    1.0 + (score / 1000) as real * 0.2
  }

  /** On the k-th plateau of 1000 points the multiplier is 1 + 0.2k. */
  lemma DifficultyPlateau(k: int, score: int)
    requires k * 1000 <= score < (k + 1) * 1000
    ensures DifficultyMultiplier(score) == 1.0 + k as real * 0.2
  {
    assert score / 1000 == k by {
      var q := score / 1000;
      assert q * 1000 <= score < (q + 1) * 1000;
    }
  }

  lemma DifficultyMonotone(s1: int, s2: int)
    requires s1 <= s2
    ensures DifficultyMultiplier(s1) <= DifficultyMultiplier(s2)
  {
    var q1, q2 := s1 / 1000, s2 / 1000;
    assert q1 <= q2 by {
      assert q1 * 1000 <= s1 && s2 < q2 * 1000 + 1000;
    }
    assert (q1 as real) * 0.2 <= (q2 as real) * 0.2;
  }

  /** The examples of the doc comment: 0-999, 1000-1999, 2000-2999, 3000. */
  lemma DifficultyExamples(score: int)
    ensures 0 <= score < 1000 ==> DifficultyMultiplier(score) == 1.0
    ensures 1000 <= score < 2000 ==> DifficultyMultiplier(score) == 1.2
    ensures 2000 <= score < 3000 ==> DifficultyMultiplier(score) == 1.4
    ensures DifficultyMultiplier(3000) == 1.6
  {
    if 0 <= score < 1000 { DifficultyPlateau(0, score); }
    if 1000 <= score < 2000 { DifficultyPlateau(1, score); }
    if 2000 <= score < 3000 { DifficultyPlateau(2, score); }
    DifficultyPlateau(3, 3000);
  }

  // ---------------------------------------------------------------------------
  // Frame admission and FPS sampling
  // ---------------------------------------------------------------------------

  /** The four refs the hook keeps between frames. */
  datatype Clock = Clock(lastTime: real, frameCount: nat, fps: nat, lastFpsTime: real)

  /** Whether, and with what arguments, onUpdate is called in one frame. */
  datatype UpdateCall = NoUpdate | Update(deltaTime: real, fps: nat)

  /** Halted: the callback returned early and scheduled no further frame. */
  datatype FrameOutcome = Halted | Scheduled(update: UpdateCall)

  datatype FrameResult = FrameResult(clock: Clock, outcome: FrameOutcome)

  /** One invocation of the frame callback at time currentTime. */
  function FrameStep(c: Clock, currentTime: real, isRunning: bool): (f: FrameResult)
    ensures !isRunning ==> f == FrameResult(c, Halted)
    ensures isRunning ==> f.outcome.Scheduled? && f.clock.lastTime == currentTime
    ensures isRunning ==>
              (f.outcome.update.Update? <==> currentTime - c.lastTime >= MIN_FRAME_INTERVAL)
    ensures isRunning && f.outcome.update.Update? ==>
              f.outcome.update == Update(currentTime - c.lastTime, f.clock.fps)
    ensures isRunning && currentTime - c.lastFpsTime >= FPS_WINDOW ==>
              f.clock.fps == c.frameCount + 1 && f.clock.frameCount == 0 &&
              f.clock.lastFpsTime == currentTime
    ensures isRunning && currentTime - c.lastFpsTime < FPS_WINDOW ==>
              f.clock.fps == c.fps && f.clock.frameCount == c.frameCount + 1 &&
              f.clock.lastFpsTime == c.lastFpsTime
  {
    if !isRunning then FrameResult(c, Halted)
    else
      var deltaTime := currentTime - c.lastTime;
      var count := c.frameCount + 1;
      var next :=
        if currentTime - c.lastFpsTime >= FPS_WINDOW
        then Clock(currentTime, 0, count, currentTime)
        else Clock(currentTime, count, c.fps, c.lastFpsTime);
      FrameResult(next, Scheduled(if deltaTime >= MIN_FRAME_INTERVAL
                                  then Update(deltaTime, next.fps) else NoUpdate))
  }

  /** The clock after a run of frames while running, and how many called onUpdate. */
  datatype Trace = Trace(clock: Clock, updates: nat)

  function RunFrames(c: Clock, ts: seq<real>): (r: Trace)
    decreases |ts|
  {
    if ts == [] then Trace(c, 0)
    else
      var prev := RunFrames(c, ts[..|ts| - 1]);
      var f := FrameStep(prev.clock, ts[|ts| - 1], true);
      Trace(f.clock, prev.updates + if f.outcome.update.Update? then 1 else 0)
  }

  /** Every frame that runs re-bases lastTime, whether or not it updates. */
  lemma RunLastTime(c: Clock, ts: seq<real>)
    requires ts != []
    ensures RunFrames(c, ts).clock.lastTime == ts[|ts| - 1]
  {
  }

  /**
   * Inside one FPS window every frame is counted and fps is held: after the
   * frames ts, frameCount has grown by |ts|.
   */
  lemma {:induction false} WindowCounting(c: Clock, ts: seq<real>)
    requires forall i :: 0 <= i < |ts| ==> ts[i] - c.lastFpsTime < FPS_WINDOW
    ensures RunFrames(c, ts).clock.frameCount == c.frameCount + |ts|
    ensures RunFrames(c, ts).clock.fps == c.fps
    ensures RunFrames(c, ts).clock.lastFpsTime == c.lastFpsTime
  {
    if ts != [] {
      WindowCounting(c, ts[..|ts| - 1]);
    }
  }

  /**
   * The frame that closes a window publishes the number of frames counted in
   * it, this frame included, and starts a new window.
   */
  lemma FpsSample(c: Clock, ts: seq<real>, t: real)
    requires forall i :: 0 <= i < |ts| ==> ts[i] - c.lastFpsTime < FPS_WINDOW
    requires t - c.lastFpsTime >= FPS_WINDOW
    ensures RunFrames(c, ts + [t]).clock.fps == c.frameCount + |ts| + 1
    ensures RunFrames(c, ts + [t]).clock.frameCount == 0
    ensures RunFrames(c, ts + [t]).clock.lastFpsTime == t
  {
    assert (ts + [t])[..|ts|] == ts;
    WindowCounting(c, ts);
  }

  /**
   * Because lastTime is re-based on skipped frames too, a display whose
   * frames arrive less than 16.67 ms apart never gets an update.
   */
  lemma {:induction false} FastFramesNeverUpdate(c: Clock, ts: seq<real>)
    requires |ts| > 0 ==> ts[0] - c.lastTime < MIN_FRAME_INTERVAL
    requires forall i :: 0 < i < |ts| ==> ts[i] - ts[i - 1] < MIN_FRAME_INTERVAL
    ensures RunFrames(c, ts).updates == 0
  {
    if |ts| > 1 {
      var init := ts[..|ts| - 1];
      FastFramesNeverUpdate(c, init);
      RunLastTime(c, init);
      assert ts[|ts| - 1] - init[|init| - 1] < MIN_FRAME_INTERVAL;
    }
  }

  /** Frames 8 ms apart, as on a 120 Hz display: three frames, no update. */
  lemma HighRefreshExample()
    ensures RunFrames(Clock(0.0, 0, 0, 0.0), [8.0, 16.0, 24.0]).updates == 0
  {
    FastFramesNeverUpdate(Clock(0.0, 0, 0, 0.0), [8.0, 16.0, 24.0]);
  }

  /** The refs of the hook, updated in place by each frame. */
  class FrameClock {
    var lastTime: real
    var frameCount: nat
    var fps: nat
    var lastFpsTime: real

    function State(): Clock
      reads this
    {
      Clock(lastTime, frameCount, fps, lastFpsTime)
    }

    constructor ()
      ensures State() == Clock(0.0, 0, 0, 0.0)
    {
      lastTime, frameCount, fps, lastFpsTime := 0.0, 0, 0, 0.0;
    }

    /**
     * The effect that runs when isRunning changes: when running it re-bases
     * lastTime to now and schedules the first frame.
     */
    method Arm(isRunning: bool, now: real) returns (scheduled: bool)
      modifies this
      ensures scheduled == isRunning
      ensures State() == if isRunning then old(State()).(lastTime := now) else old(State())
    {
      scheduled := false;
      if isRunning {
        lastTime := now;
        scheduled := true;
      }
    }

    /** One call of the frame callback. */
    method Frame(currentTime: real, isRunning: bool) returns (outcome: FrameOutcome)
      modifies this
      ensures FrameResult(State(), outcome) == FrameStep(old(State()), currentTime, isRunning)
    {
      if !isRunning {
        return Halted;
      }
      var deltaTime := currentTime - lastTime;
      lastTime := currentTime;
      frameCount := frameCount + 1;
      if currentTime - lastFpsTime >= FPS_WINDOW {
        fps := frameCount;
        frameCount := 0;
        lastFpsTime := currentTime;
      }
      var update := NoUpdate;
      if deltaTime >= MIN_FRAME_INTERVAL {
        update := Update(deltaTime, fps);
      }
      outcome := Scheduled(update);
    }
  }
}
