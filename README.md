# infinityChaser — a verified model of the runner core

InfinityChaser is a browser endless-runner. A block-shaped player runs at
x = 100 on an 800 × 400 canvas. Obstacles of two kinds scroll in from the
right edge: a 'high' one standing on the ground, which a jump clears, and a
'low' one hanging at head height, which a ducking player passes under and a
well-timed jump also clears. The score rises by one per admitted frame and by
ten for every obstacle that leaves the screen. Every 1000 points add 0.2 to
the speed multiplier, which the game picks up at its next 10-second
recompute. Overlapping an obstacle ends the game; touching only its edge does
not.

This project models the simulation core of the game in Dafny and proves
properties of it. There is one module per source file, plus the shared
helper module `Decimal`:

- `GameLoop` (`game_loop.dfy`):
  - the tuning constants;
  - the strict bounding-box collision test;
  - the difficulty curve;
  - the frame callback of the game-loop hook. The hook's refs are a class
    `FrameClock`, and its `Frame` method is proved equal to a pure
    `FrameStep`.
- `GameCanvas` (`game_canvas.dfy`):
  - the player record and its jump / duck / stand-up state machine, with the
    key and touch guards;
  - obstacle spawning;
  - one `updateGame` tick.
  The component's three mutable records are fields of the class `Canvas`.
  `Canvas.Tick` is an imperative method proved equal to the pure `TickSpec`.
  The clock (`performance.now()`), the random source (`Math.random()`) and
  the obstacle id (`Date.now()`) are parameters. The `onScoreUpdate` and
  `onGameOver` callbacks and `playSound` become a returned list of `Event`s.
- `App` (`app.dfy`):
  - the session state machine (`menu`, `playing`, `paused`, `gameOver`);
  - its handlers and the keyboard shortcuts;
  - the best-score effect;
  - what applying the events of one tick does to the session.
- `LeaderBoard` (`leader_board.dfy`):
  - the merge of the player's score into the static list;
  - the stable descending sort (ordered by ECMAScript 2019 and later), modelled
    as a stable insertion sort;
  - the rank, and the top-ten cut;
  - the rank label.
- `HUD` (`hud.dfy`): the zero-padded score, the milestone banner, the
  difficulty label and the pause button.
- `Decimal` (`decimal.dfy`): `Number.prototype.toString` for integers below 1e21 and
  reading a digit string back. `HUD` and `LeaderBoard` both use it.

All geometry, times and the multiplier are exact `real`s. The score is a
`nat`. `Math.floor(score / 1000)` is Dafny's `/` on integers, which rounds
down for the positive divisor 1000.

Some consequences of the code that are easy to miss:

- Off-screen test first. Each obstacle's off-screen test runs before its
  collision test. `GameCanvas.TestOrderImmaterial` proves that for every
  reachable player the order makes no difference.
- Several game-overs per tick. `onGameOver` fires once per obstacle hit in
  the tick (`GameCanvas.TickEvents`).
- Passive point after a collision. The passive +1 point and its
  `onScoreUpdate` still come after a collision in the same tick. So the
  game-over screen shows a score one or more points above the one
  `onGameOver` reported (`App.CollisionTickShowsLaterScore`).
- `lastTime` on every frame. The frame callback re-bases `lastTime` on skipped
  frames too. A display whose frames come less than 16.67 ms apart therefore
  never gets an update (`GameLoop.FastFramesNeverUpdate`).
- Culled on the 167th advancement. An obstacle entering at x = 800 at
  multiplier 1 first satisfies `x + width < 0` on its 167th advancement
  (`GameCanvas.CulledOn167th`).

## Model

| member | source | states |
|---|---|---|
| GameLoop.CheckCollision | src/hooks/useGameLoop.js:121-131 | checkCollision: the four strict edge comparisons; CollisionIffCommonInteriorPoint proves it means a shared interior point, and the next three lemmas give its symmetry and edge cases |
| GameLoop.CollisionIffCommonInteriorPoint | src/hooks/useGameLoop.js:121-131 | for rectangles of positive size, the four strict inequalities hold iff some point lies strictly inside both |
| GameLoop.CollisionSymmetric | src/hooks/useGameLoop.js:127-130 | the collision test is symmetric in its two rectangles |
| GameLoop.TouchingEdgesDoNotCollide | src/hooks/useGameLoop.js:127-130 | rectangles that only share an edge do not collide |
| GameLoop.SelfCollision | src/hooks/useGameLoop.js:127-130 | a rectangle collides with itself iff its width and height are positive |
| GameLoop.DifficultyMultiplier | src/hooks/useGameLoop.js:139-145 | the multiplier is at least 1 for every non-negative score |
| GameLoop.DifficultyPlateau | src/hooks/useGameLoop.js:140-144 | on the k-th block of 1000 points the multiplier is exactly 1 + 0.2k |
| GameLoop.DifficultyMonotone | src/hooks/useGameLoop.js:139-145 | the multiplier never decreases as the score grows |
| GameLoop.DifficultyExamples | src/hooks/useGameLoop.js:143-144 | the doc-comment examples: 0-999 give 1.0, 1000-1999 give 1.2, 2000-2999 give 1.4 |
| GameLoop.FrameStep | src/hooks/useGameLoop.js:23-49 | a stopped frame changes nothing and schedules nothing; a running frame sets lastTime and counts itself; onUpdate fires iff deltaTime >= 16.67, with that deltaTime and the current fps; the fps window closes at 1000 ms, publishing the count with this frame included |
| GameLoop.RunLastTime | src/hooks/useGameLoop.js:28-29 | after any run of frames, lastTime is the time of the last frame, updated or not |
| GameLoop.WindowCounting | src/hooks/useGameLoop.js:32-39 | inside one fps window every frame is counted and fps is held |
| GameLoop.FpsSample | src/hooks/useGameLoop.js:35-39 | the frame that closes a window publishes the number of frames in it and opens a new window |
| GameLoop.FastFramesNeverUpdate | src/hooks/useGameLoop.js:28-45 | frames arriving under 16.67 ms apart never call onUpdate, because skipped frames re-base lastTime |
| GameLoop.HighRefreshExample | src/hooks/useGameLoop.js:41-45 | three frames 8 ms apart, as on a 120 Hz display, call no update |
| GameLoop.FrameClock.constructor | src/hooks/useGameLoop.js:14-17 | the four refs start at zero |
| GameLoop.FrameClock.Arm | src/hooks/useGameLoop.js:55-59 | starting the loop re-bases lastTime to now and schedules a frame; stopping changes no ref |
| GameLoop.FrameClock.Frame | src/hooks/useGameLoop.js:23-49 | the in-place update of the refs and the outcome of the frame equal FrameStep |
| Decimal.NatToString | src/components/HUD.jsx:14 | the decimal text of a number is non-empty, all digits, and starts with '0' only for 0 |
| Decimal.IntToString | src/components/LeaderBoard.jsx:38 | the text of an integer starts with '-' exactly for negative values |
| Decimal.ParseNatToString | src/components/HUD.jsx:14 | reading the decimal text back gives the number |
| Decimal.NatToStringInjective | src/components/HUD.jsx:14 | different numbers have different decimal texts |
| Decimal.IntToStringInjective | src/components/LeaderBoard.jsx:38 | different integers have different texts |
| Decimal.ParseLeadingZeros | src/components/HUD.jsx:14 | leading zeros do not change the value of a digit string |
| Decimal.StripZerosOfNatToString | src/components/HUD.jsx:14 | stripping leading zeros from zeros + the text of n gives back the text of n |
| HUD.PadStart | src/components/HUD.jsx:14 | padStart with a one-character pad: length max(target, length), the original text as suffix, pad characters before it |
| HUD.FormatScore | src/components/HUD.jsx:13-15 | formatScore: the decimal text padded to six with '0'; the five FormatScore lemmas below prove what it yields |
| HUD.FormatScoreIsZerosThenDigits | src/components/HUD.jsx:13-15 | the formatted score is zeros followed by the decimal digits, padded to six |
| HUD.FormatScoreLength | src/components/HUD.jsx:13-15 | its length is max(6, digit count), and it is the plain text when there are six or more digits |
| HUD.FormatScoreStrip | src/components/HUD.jsx:14 | stripping the leading zeros, keeping one digit, gives the decimal text of the score |
| HUD.FormatScoreValue | src/components/HUD.jsx:13-15 | the formatted score is all digits and reads back as the score |
| HUD.FormatScoreInjective | src/components/HUD.jsx:13-15 | different scores are formatted differently |
| HUD.Milestone | src/components/HUD.jsx:122 | the banner condition; MilestoneIffPositiveMultiple and MilestoneAt state when it holds |
| HUD.MilestoneIffPositiveMultiple | src/components/HUD.jsx:122 | the banner shows iff the game runs and the score is a positive multiple of 500 |
| HUD.MilestoneAt | src/components/HUD.jsx:122 | the banner appears at 500k while running, not when stopped, and not at 500k + 1 |
| HUD.DisplayedDifficulty | src/components/HUD.jsx:85 | the multiplier formula written in the HUD; DisplayedDifficultyAgrees and DifficultyLabel prove its value and label |
| HUD.DisplayedDifficultyAgrees | src/components/HUD.jsx:85 | the formula written again in the display equals the difficulty multiplier |
| HUD.ToFixed1 | src/components/HUD.jsx:85 | toFixed(1) on a non-negative exact value: round half up to tenths, then integer part, '.', tenths digit; DifficultyLabel and DifficultyLabelExamples prove its output on the difficulty |
| HUD.DifficultyLabel | src/components/HUD.jsx:85 | toFixed(1) of the displayed multiplier shows the tenths 10 + 2k exactly, k the thousands in the score |
| HUD.DifficultyLabelExamples | src/components/HUD.jsx:85 | scores 999, 1000, 3000 and 25000 are labelled "1.0", "1.2", "1.6" and "6.0" |
| HUD.PauseButtonAction | src/components/HUD.jsx:53 | the button is wired to resume exactly when paused, to pause otherwise |
| LeaderBoard.Insert | src/components/LeaderBoard.jsx:23 | one insertion step makes the list one longer |
| LeaderBoard.InsertPermutes | src/components/LeaderBoard.jsx:23 | one insertion step adds the entry and nothing else, as multisets |
| LeaderBoard.InsertSorted | src/components/LeaderBoard.jsx:23 | inserting into a list sorted by descending score keeps it sorted |
| LeaderBoard.SortByScoreDesc | src/components/LeaderBoard.jsx:23 | the sort keeps the length |
| LeaderBoard.SortPermutes | src/components/LeaderBoard.jsx:23 | the sort is a permutation of its input |
| LeaderBoard.SortSorted | src/components/LeaderBoard.jsx:23 | the result is ordered by non-increasing score |
| LeaderBoard.SortIsStable | src/components/LeaderBoard.jsx:23 | entries with equal scores keep their relative order |
| LeaderBoard.CountAtLeastSorted | src/components/LeaderBoard.jsx:23 | sorting does not change how many entries score at least v |
| LeaderBoard.InsertPosition | src/components/LeaderBoard.jsx:22-23 | the pushed entry lands right after the entries scoring at least as much |
| LeaderBoard.IndexOfId | src/components/LeaderBoard.jsx:26 | findIndex: -1 when no entry has the id, otherwise the first index with it |
| LeaderBoard.Combined | src/components/LeaderBoard.jsx:11-23 | combinedData: with a positive score the static data plus the player's entry, sorted by descending score, else the data; CombinedIsInsert, CombinedShape and ExactlyOneCurrent prove its shape |
| LeaderBoard.CombinedIsInsert | src/components/LeaderBoard.jsx:13-23 | push-then-sort equals inserting the player's entry into the sorted static data |
| LeaderBoard.CombinedShape | src/components/LeaderBoard.jsx:13-23 | with a positive score the combined list is one longer, sorted descending, and a permutation of the data plus the player's entry |
| LeaderBoard.ExactlyOneCurrent | src/components/LeaderBoard.jsx:14-23 | exactly one combined entry has id 'current' |
| LeaderBoard.UserRank | src/components/LeaderBoard.jsx:26 | the rank: findIndex of 'current' plus one; UserRankCountsBetterOrEqual proves what it counts |
| LeaderBoard.UserRankCountsBetterOrEqual | src/components/LeaderBoard.jsx:22-27 | the rank is 1 + the number of static entries scoring at least as much, so it lies between 1 and length + 1 |
| LeaderBoard.NoScoreKeepsStaticOrder | src/components/LeaderBoard.jsx:11-30 | without a positive score the list is the static data in its own order, cut to ten |
| LeaderBoard.Displayed | src/components/LeaderBoard.jsx:30 | slice(0, 10) of the combined list; DisplayedIsTopTen proves it is the first min(10, n) combined entries |
| LeaderBoard.DisplayedIsTopTen | src/components/LeaderBoard.jsx:30 | the list shown is the first min(10, n) combined entries |
| LeaderBoard.Board.constructor | src/components/LeaderBoard.jsx:6-7 | an empty list and no rank |
| LeaderBoard.Board.Refresh | src/components/LeaderBoard.jsx:9-31 | the imported array is not changed; the list becomes the top ten; the rank is set only when the score is positive, and it is kept otherwise |
| LeaderBoard.RankEmoji | src/components/LeaderBoard.jsx:33-40 | ranks 1, 2 and 3 get the trophy, silver and bronze medals |
| LeaderBoard.RankEmojiInjective | src/components/LeaderBoard.jsx:33-40 | different ranks never get the same label |
| LeaderBoard.RankEmojiOtherwise | src/components/LeaderBoard.jsx:38 | any other rank is '#' followed by its decimal text |
| GameCanvas.TouchIntent | src/components/GameCanvas.jsx:89-99 | a touch above half the canvas height jumps, any other touch ducks |
| GameCanvas.KeyDown | src/components/GameCanvas.jsx:46-66 | the keydown handler's effect on the player; KeyDownJumpAccepted, KeyDownDuckAccepted and PressIgnored state its cases |
| GameCanvas.KeyDownJumpAccepted | src/components/GameCanvas.jsx:47-57 | a jump (and its sound) happens iff the game runs unpaused, the key is Space/ArrowUp/KeyW, and the player neither jumps nor ducks; it sets velocity -15 and changes no other field |
| GameCanvas.KeyDownDuckAccepted | src/components/GameCanvas.jsx:58-64 | after a keydown the player ducks iff it already did, or the game runs unpaused, the key is ArrowDown/KeyS and the player is not jumping; a ducking player has height 30, bottom edge on the ground |
| GameCanvas.TouchStart | src/components/GameCanvas.jsx:80-100 | the touchstart handler's effect on the player; TouchStartAccepted and PressIgnored state its cases |
| GameCanvas.TouchStartAccepted | src/components/GameCanvas.jsx:80-100 | a touch jumps iff it is in the upper half while running unpaused and the player neither jumps nor ducks, and is then jump() with its sound; a lower-half touch ducks iff running unpaused and not in the air, and is then duck() |
| GameCanvas.PressIgnored | src/components/GameCanvas.jsx:46-100 | keys and touches do nothing while stopped, paused or airborne |
| GameCanvas.Press | src/components/GameCanvas.jsx:54-63 | the guarded jump or duck for one intent; PressIgnored and PressKeepsValid state what it does |
| GameCanvas.Release | src/components/GameCanvas.jsx:102-106 | the touchend handler: stand up when ducking; ReleaseStands states its effect |
| GameCanvas.ReleaseStands | src/components/GameCanvas.jsx:140-145 | release leaves the player standing, at full height on the ground line, and changes nothing if it was not ducking |
| GameCanvas.KeyUp | src/components/GameCanvas.jsx:68-77 | the keyup handler: a duck key releases; KeyUpStands states its effect |
| GameCanvas.KeyUpStands | src/components/GameCanvas.jsx:68-77 | after a keyup the player ducks iff it did and the key was not ArrowDown/KeyS; such a key while ducking is standUp(), any other keyup changes nothing, with no running or paused guard |
| GameCanvas.Physics | src/components/GameCanvas.jsx:179-191 | gravity for one tick; PhysicsKeepsValid, JumpArc, JumpLands and JumpApex prove its effect |
| GameCanvas.Jumped | src/components/GameCanvas.jsx:126-131 | jump() on the player record; KeyDownJumpAccepted, PressKeepsValid and JumpArc use it |
| GameCanvas.Ducked | src/components/GameCanvas.jsx:133-138 | duck() on the player record; PressKeepsValid and FeetOnGround state the ducked shape |
| GameCanvas.StoodUp | src/components/GameCanvas.jsx:140-145 | standUp() on the player record; ReleaseStands and FeetOnGround state the standing shape |
| GameCanvas.PhysicsKeepsValid | src/components/GameCanvas.jsx:179-191 | gravity keeps the player well-formed; after a tick that began airborne, y <= groundY, and a player still airborne is strictly above ground |
| GameCanvas.PressKeepsValid | src/components/GameCanvas.jsx:126-145 | jump and duck, behind their guards, keep the player well-formed |
| GameCanvas.FeetOnGround | src/components/GameCanvas.jsx:133-145 | on the ground, ducking or not, the bottom edge is at groundY + 60 |
| GameCanvas.RunPlayerKeepsValid | src/components/GameCanvas.jsx:49-188 | under any interleaving of key, touch and tick inputs the player is never jumping and ducking at once |
| GameCanvas.JumpArc | src/components/GameCanvas.jsx:179-191 | for 36 ticks after a jump the player is airborne at y = 290 - 15k + 0.4k(k+1), velocity 0.8k - 15 |
| GameCanvas.JumpLands | src/components/GameCanvas.jsx:183-188 | on the 37th tick the player lands and is exactly the initial player again |
| GameCanvas.JumpApex | src/components/GameCanvas.jsx:179-182 | the top of the arc is y = 156.8, reached on the 18th tick |
| GameCanvas.ChooseKind | src/components/GameCanvas.jsx:152 | 'high' exactly when the random number exceeds 0.5 |
| GameCanvas.NewObstacle | src/components/GameCanvas.jsx:153-162 | a new obstacle is 30 by 60 at x = 800, y = 290 if high and 240 if low |
| GameCanvas.StandingIsHit | src/components/GameCanvas.jsx:212 | a player standing on the ground hits either kind of obstacle exactly when they overlap horizontally |
| GameCanvas.DuckingPassesUnderLow | src/components/GameCanvas.jsx:212 | ducking never hits a low obstacle, and still hits a high one that overlaps horizontally |
| GameCanvas.ApexClearsBoth | src/components/GameCanvas.jsx:212 | at the top of a jump no obstacle hits the player |
| GameCanvas.JumpClearsLow | src/components/GameCanvas.jsx:212 | a jump clears a low obstacle it overlaps horizontally exactly on ticks 11 to 25 of the arc |
| GameCanvas.OffScreenMissesPlayer | src/components/GameCanvas.jsx:202-216 | an off-screen obstacle never overlaps a well-formed player |
| GameCanvas.TestOrderImmaterial | src/components/GameCanvas.jsx:198-219 | testing the collision before the cull gives the same outcome for every well-formed player |
| GameCanvas.CulledOn167th | src/components/GameCanvas.jsx:197-209 | at multiplier 1 a new obstacle is off-screen exactly from its 167th advancement on |
| GameCanvas.InitialWorldValid | src/components/GameCanvas.jsx:14-32 | the initial records satisfy every invariant of the model |
| GameCanvas.Spawn | src/components/GameCanvas.jsx:147-167 | spawnObstacle on values; SpawnAtMostOne and SpawnDueIff prove what it appends and when |
| GameCanvas.SpawnAtMostOne | src/components/GameCanvas.jsx:147-166 | a spawn appends at most one obstacle, the new one, only when due, and then sets lastObstacleSpawn to now; nothing else changes |
| GameCanvas.SpawnDueIff | src/components/GameCanvas.jsx:148-151 | an obstacle is due iff (now - lastObstacleSpawn) * multiplier > 2000 |
| GameCanvas.Sweep | src/components/GameCanvas.jsx:198-219 | the filter over the obstacles, one SweepOne step per element in order; SweepAccounts, SweepConserves and SurvivorsValid prove what it keeps, scores and reports |
| GameCanvas.SweepOne | src/components/GameCanvas.jsx:199-218 | the filter callback for one obstacle: advance, then cull, hit or keep; SweepOneAccounts and TestOrderImmaterial state what it does |
| GameCanvas.SweepOneAccounts | src/components/GameCanvas.jsx:199-218 | one filter step keeps the advanced obstacle only if it is neither off-screen nor hit, adds 10 only for an off-screen one, adds a GameOver only for a hit, and reports no score above the new one |
| GameCanvas.SweepAccounts | src/components/GameCanvas.jsx:198-219 | the filter keeps exactly the advanced survivors in order, adds 10 per culled obstacle, emits one GameOver per obstacle hit, and reports no score above its final one |
| GameCanvas.SweepConserves | src/components/GameCanvas.jsx:198-219 | each obstacle is kept, culled or hit: the three counts add up to the list length |
| GameCanvas.SurvivorsValid | src/components/GameCanvas.jsx:198-219 | survivors moved left by the speed and remain within [-width, 800 - speed] |
| GameCanvas.ScrollGround | src/components/GameCanvas.jsx:222-225 | from a non-positive offset the ground offset stays in (-50, 0], and it moves by 5 × multiplier unless it wraps |
| GameCanvas.GroundFreezes | src/components/GameCanvas.jsx:222-225 | from multiplier 10 on, every tick resets the offset to 0 from any non-positive offset, the first such tick included |
| GameCanvas.RecomputeDifficulty | src/components/GameCanvas.jsx:173-176 | the difficulty step of the tick; TickMultiplier proves it never lowers the multiplier |
| GameCanvas.PreparedGame | src/components/GameCanvas.jsx:172-176 | before the filter the score and ground are unchanged and the multiplier is the recomputed one, which the spawn test uses |
| GameCanvas.TickSpec | src/components/GameCanvas.jsx:169-233 | the updateGame tick on values; TickPreservesValid, TickScore, TickEvents and TickMultiplier prove its invariants and outcome |
| GameCanvas.TickPreservesValid | src/components/GameCanvas.jsx:169-230 | a tick keeps the player well-formed, every obstacle on the canvas, the multiplier between 1 and that of the score, and the ground offset in (-50, 0] |
| GameCanvas.TickScore | src/components/GameCanvas.jsx:197-229 | a tick raises the score by exactly 1 + 10 per culled obstacle and keeps the advanced survivors |
| GameCanvas.TickEvents | src/components/GameCanvas.jsx:198-229 | a tick emits one GameOver per hit and ends with the passive ScoreUpdate of the new score; every earlier event reports less |
| GameCanvas.TickMultiplier | src/components/GameCanvas.jsx:173-176 | the multiplier never decreases, and changes only after more than 10000 ms, to that of the score |
| GameCanvas.Canvas.constructor | src/components/GameCanvas.jsx:14-32 | the three records start in the initial world |
| GameCanvas.Canvas.Reset | src/components/GameCanvas.jsx:280-306 | resetGame restores exactly the initial player, obstacle list and game state |
| GameCanvas.Canvas.Jump | src/components/GameCanvas.jsx:126-131 | jump() sets velocity -15 and isJumping and plays the jump sound |
| GameCanvas.Canvas.Duck | src/components/GameCanvas.jsx:133-138 | duck() halves the height and lowers the top edge by 30 |
| GameCanvas.Canvas.StandUp | src/components/GameCanvas.jsx:140-145 | standUp() restores height 60 at y = groundY |
| GameCanvas.Canvas.HandlePress | src/components/GameCanvas.jsx:54-63 | the guarded jump or duck, equal to Press |
| GameCanvas.Canvas.HandleKeyDown | src/components/GameCanvas.jsx:46-66 | the keydown handler, equal to KeyDown, touching only the player |
| GameCanvas.Canvas.HandleKeyUp | src/components/GameCanvas.jsx:68-77 | the keyup handler stands up on a duck key while ducking, paused or not |
| GameCanvas.Canvas.HandleTouchStart | src/components/GameCanvas.jsx:80-100 | the touchstart handler, equal to TouchStart |
| GameCanvas.Canvas.HandleTouchEnd | src/components/GameCanvas.jsx:102-106 | the touchend handler stands up while ducking |
| GameCanvas.Canvas.SpawnObstacle | src/components/GameCanvas.jsx:147-167 | the in-place spawn equals Spawn and leaves the player alone |
| GameCanvas.Canvas.FilterObstacles | src/components/GameCanvas.jsx:198-219 | the loop over the obstacle array computes the kept list, the score and the events of Sweep |
| GameCanvas.Canvas.UpdateDifficulty | src/components/GameCanvas.jsx:173-176 | the in-place difficulty step equals RecomputeDifficulty and touches only the game record |
| GameCanvas.Canvas.ApplyGravity | src/components/GameCanvas.jsx:179-191 | the in-place gravity step equals Physics and touches only the player |
| GameCanvas.Canvas.ScrollAndScore | src/components/GameCanvas.jsx:222-229 | the ground scrolls by ScrollGround, the score rises by one, and the ScoreUpdate carries the new score |
| GameCanvas.Canvas.Tick | src/components/GameCanvas.jsx:169-233 | the in-place tick keeps the invariants and ends in the world and events of TickSpec |
| App.IsGameRunning | src/App.jsx:113 | isGameRunning: playing or paused; KeyPToggles, HudButtonToggles and DispatchGuards use it |
| App.IsPaused | src/App.jsx:114 | isPaused: the paused screen; HudButtonToggles and DispatchGuards use it |
| App.SyncBestScore | src/App.jsx:27-32 | the effect makes the best score max(best, score) and changes nothing else |
| App.GameStart | src/App.jsx:35-39 | handleGameStart; LifecycleHandlers states its effect and GameApp.HandleGameStart performs it |
| App.OnGameOver | src/App.jsx:41-44 | handleGameOver; LifecycleHandlers states its effect and GameApp.HandleGameOver performs it |
| App.OnScoreUpdate | src/App.jsx:46-48 | handleScoreUpdate; GameApp.HandleScoreUpdate performs it and ApplyBoundedEvents bounds its effect on the best score |
| App.Pause | src/App.jsx:50-52 | handlePause; KeyPToggles, EscapeClosesAtMostOne and HudButtonToggles state its effect |
| App.Resume | src/App.jsx:54-56 | handleResume; KeyPToggles, EscapeClosesAtMostOne and HudButtonToggles state its effect |
| App.Restart | src/App.jsx:58-62 | handleRestart; LifecycleHandlers states its effect and GameApp.HandleRestart performs it |
| App.MenuReturn | src/App.jsx:64-67 | handleMenuReturn; LifecycleHandlers states its effect and GameApp.HandleMenuReturn performs it |
| App.LifecycleHandlers | src/App.jsx:35-67 | start equals restart: playing, score 0, restartTrigger + 1, nothing else; game over sets gameOver and the final score; menu return sets menu and score 0, keeping restartTrigger |
| App.KeyDown | src/App.jsx:70-107 | the keyboard shortcuts; KeyPToggles, EscapeClosesAtMostOne, KeyGuards and OtherKeysInert state each key |
| App.KeyPToggles | src/App.jsx:73-79 | P swaps playing and paused and is a no-op on the menu and game-over screens; pressed twice in a game it changes nothing |
| App.EscapeClosesAtMostOne | src/App.jsx:80-90 | Escape pauses or resumes a game, otherwise closes the leaderboard if shown, else the controls; it never closes both and never opens anything |
| App.KeyGuards | src/App.jsx:91-105 | R restarts from every screen but the menu; L opens the leaderboard only on the menu and game-over screens; H opens the controls only on the menu |
| App.OtherKeysInert | src/App.jsx:72-106 | any other key changes nothing |
| App.Dispatch | src/App.jsx:35-67 | one handler call per action the screen offers, and no change for a button that is not on screen; LifecycleHandlers, HudButtonToggles, DispatchGuards and Step state what it does |
| App.DispatchGuards | src/App.jsx:150-250 | a button not on screen changes nothing; a game is paused only from a running game; the menu leads into a game only by the start button |
| App.Step | src/App.jsx:27-32 | after any action and the best-score effect, the best score has not fallen and bounds the score |
| App.HudButtonToggles | src/App.jsx:150-160 | while a game runs, the HUD button acts like P: it toggles between playing and paused |
| App.RunKeepsBest | src/App.jsx:27-32 | over any run of actions the best score never falls and bounds the score |
| App.ApplyBoundedEvents | src/App.jsx:46-48 | callbacks whose scores are at most f change the best score only up to max(best, f) |
| App.TickBatchingImmaterial | src/App.jsx:27-48 | for the events of one tick, running the best-score effect after each callback or once at the end gives the same session |
| App.EventsGameState | src/App.jsx:41-48 | after a run of callbacks the screen is game-over iff a GameOver was among them, else unchanged |
| App.CollisionTickShowsLaterScore | src/App.jsx:41-48 | after a collision tick the session shows game over with the tick's final score, which is above every score that onGameOver reported |
| App.GameApp.constructor | src/App.jsx:11-24 | the menu, score 0, panels closed, restartTrigger 0, and the saved best score |
| App.GameApp.HandleGameStart | src/App.jsx:35-39 | the in-place handler equals GameStart |
| App.GameApp.HandleGameOver | src/App.jsx:41-44 | the in-place handler equals OnGameOver |
| App.GameApp.HandleScoreUpdate | src/App.jsx:46-48 | the in-place handler sets the score |
| App.GameApp.HandlePause | src/App.jsx:50-52 | the in-place handler equals Pause |
| App.GameApp.HandleResume | src/App.jsx:54-56 | the in-place handler equals Resume |
| App.GameApp.HandleRestart | src/App.jsx:58-62 | the in-place handler equals Restart |
| App.GameApp.HandleMenuReturn | src/App.jsx:64-67 | the in-place handler equals MenuReturn |
| App.GameApp.SaveBestScore | src/App.jsx:27-32 | the in-place effect equals SyncBestScore |
| App.GameApp.HandleKeyDown | src/App.jsx:70-107 | the in-place key dispatch equals KeyDown |
| App.GameApp.Perform | src/App.jsx:27-67 | any action, applied when the screen offers it, then the effect, equals Step |

## Left out

- Drawing: the canvas, its gradients and the player's eyes, all markup, and
  framer-motion animation. These are presentation only.
- `playSound` and the Web Audio code behind it. A sound is only an emitted
  `Sound(kind)` event.
- `requestAnimationFrame` and `cancelAnimationFrame`, and React effect
  lifecycles. The model keeps the per-frame step and the re-basing of the
  clock on start. It does not model which `isRunning` a scheduled frame reads
  when the flag flips.
- Host inputs are parameters: `performance.now()`, `Math.random()` and
  `Date.now()`. Nothing is claimed about obstacle ids being unique.
- `localStorage` loading, saving and `parseInt` of the stored best score. The
  saved value is a constructor parameter of `App.GameApp`.
- DOM listener registration and `getBoundingClientRect`. A touch is given as
  its y within the canvas and the canvas height.
- React batching and re-rendering. Callbacks are applied in order, followed
  by the best-score effect; `App.TickBatchingImmaterial` shows that batching
  a tick does not change the result. The `setPlayerState` mirror of the
  player's flags is left out because nothing in the core reads it.
- IEEE-754 rounding. Arithmetic is exact, so `1 + 3 * 0.2` is exactly 1.6
  and `toFixed(1)` is exact rounding of an exact value.
- HUD.PadStart: models `padStart` only with a one-character pad string, the
  only form the source uses.
- `formatDate` and the ISO date of the player's entry. The date is a
  parameter `today`.
- The contents of `leaderboard.json`. The static data is an arbitrary array.
  The rank lemmas assume that no static entry uses the id 'current'.
- LeaderBoard.Board.Refresh: `Array.prototype.sort` is modelled by a stable
  insertion sort on a sequence copy, not by an in-place sort of the array.
  Only its result is specified, because ECMAScript fixes only the result of a
  stable sort.
- App.Dispatch: canvas callbacks are accepted on every screen. The source
  fires them only from a running canvas, including the rest of a tick after a
  collision has already shown the game-over screen. The run lemmas
  therefore hold over a superset of the runs the app can make.
- Controls.jsx. It is static help text.
- The mobile layout and a timed duck. `GameLoop` declares
  `MOBILE_CANVAS_WIDTH`, `MOBILE_CANVAS_HEIGHT`, `PLAYER_X_MOBILE` and
  `PLAYER_DUCK_DURATION`, but the simulation never reads them, in the source
  as in the model.
- Decimal.NatToString: JavaScript prints integers of 1e21 and more in
  exponent notation. The model always prints plain digits, so it agrees with
  `toString` only below 1e21.
- The development-only FPS and obstacle-count overlay.
