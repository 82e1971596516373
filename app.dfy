/**
 * The session state machine of the application shell: the four screens,
 * the handlers wired to the canvas, the heads-up display and the menu
 * buttons, the global keyboard shortcuts, and the best-score effect.
 */
module App {
  import GameCanvas
  import HUD

  datatype Screen = Menu | Playing | Paused | GameOver

  datatype Session = Session(gameState: Screen, score: nat, bestScore: nat,
                             showLeaderboard: bool, showControls: bool, restartTrigger: nat)

  const INITIAL_SESSION: Session := Session(Menu, 0, 0, false, false, 0)

  predicate IsGameRunning(s: Session) { s.gameState == Playing || s.gameState == Paused }

  predicate IsPaused(s: Session) { s.gameState == Paused }

  function Max(a: nat, b: nat): nat { if a < b then b else a }

  // ---------------------------------------------------------------------------
  // Handlers
  // ---------------------------------------------------------------------------

  function GameStart(s: Session): Session
  {
    s.(gameState := Playing, score := 0, restartTrigger := s.restartTrigger + 1)
  }

  function OnGameOver(s: Session, finalScore: nat): Session
  {
    s.(gameState := GameOver, score := finalScore)
  }

  function OnScoreUpdate(s: Session, newScore: nat): Session
  {
    s.(score := newScore)
  }

  function Pause(s: Session): Session { s.(gameState := Paused) }

  function Resume(s: Session): Session { s.(gameState := Playing) }

  function Restart(s: Session): Session
  {
    s.(gameState := Playing, score := 0, restartTrigger := s.restartTrigger + 1)
  }

  function MenuReturn(s: Session): Session
  {
    s.(gameState := Menu, score := 0)
  }

  /** The effect on [score, bestScore]: raise the best score to the score. */
  function SyncBestScore(s: Session): (r: Session)
    ensures r.bestScore == Max(s.bestScore, s.score)
    ensures r.(bestScore := s.bestScore) == s
  {
    if s.score > s.bestScore then s.(bestScore := s.score) else s
  }

  /** Start, restart and menu return, as the lifecycle handlers promise. */
  lemma LifecycleHandlers(s: Session, finalScore: nat)
    ensures GameStart(s) == Restart(s)
    ensures var r := Restart(s);
            r.gameState == Playing && r.score == 0 && r.restartTrigger == s.restartTrigger + 1 &&
            r.(gameState := s.gameState, score := s.score, restartTrigger := s.restartTrigger) == s
    ensures var r := OnGameOver(s, finalScore);
            r.gameState == GameOver && r.score == finalScore && r.restartTrigger == s.restartTrigger
    ensures var r := MenuReturn(s);
            r.gameState == Menu && r.score == 0 && r.restartTrigger == s.restartTrigger &&
            r.bestScore == s.bestScore
  {
  }

  // ---------------------------------------------------------------------------
  // Keyboard shortcuts
  // ---------------------------------------------------------------------------

  function KeyDown(s: Session, code: string): Session
  {
    if code == "KeyP" then
      if s.gameState == Playing then Pause(s)
      else if s.gameState == Paused then Resume(s)
      else s
    else if code == "Escape" then
      if s.gameState == Playing then Pause(s)
      else if s.gameState == Paused then Resume(s)
      else if s.showLeaderboard then s.(showLeaderboard := false)
      else if s.showControls then s.(showControls := false)
      else s
    else if code == "KeyR" then
      if s.gameState == Playing || s.gameState == Paused || s.gameState == GameOver then Restart(s)
      else s
    else if code == "KeyL" then
      if s.gameState == Menu || s.gameState == GameOver then s.(showLeaderboard := true) else s
    else if code == "KeyH" then
      if s.gameState == Menu then s.(showControls := true) else s
    else s
  }

  /** P swaps playing and paused, touches nothing else, and is inert elsewhere. */
  lemma KeyPToggles(s: Session)
    ensures var r := KeyDown(s, "KeyP");
            && (s.gameState == Playing ==> r == s.(gameState := Paused))
            && (s.gameState == Paused ==> r == s.(gameState := Playing))
            && (!IsGameRunning(s) ==> r == s)
    ensures IsGameRunning(s) ==> KeyDown(KeyDown(s, "KeyP"), "KeyP") == s
  {
  }

  /** Escape pauses or resumes a game; otherwise it closes one panel, never both. */
  lemma EscapeClosesAtMostOne(s: Session)
    ensures var r := KeyDown(s, "Escape");
            && (IsGameRunning(s) ==> r == KeyDown(s, "KeyP"))
            && (!IsGameRunning(s) ==>
                  r.gameState == s.gameState &&
                  (r.showLeaderboard != s.showLeaderboard ==> r.showControls == s.showControls) &&
                  (s.showLeaderboard ==> !r.showLeaderboard && r.showControls == s.showControls) &&
                  (!s.showLeaderboard && s.showControls ==> !r.showControls))
            && !(r.showLeaderboard && !s.showLeaderboard) && !(r.showControls && !s.showControls)
  {
  }

  /** R restarts from any screen but the menu; L opens the leaderboard on the menu and game-over screens; H opens the help on the menu. */
  lemma KeyGuards(s: Session)
    ensures KeyDown(s, "KeyR") == (if s.gameState == Menu then s else Restart(s))
    ensures KeyDown(s, "KeyL").showLeaderboard <==>
            s.showLeaderboard || s.gameState == Menu || s.gameState == GameOver
    ensures KeyDown(s, "KeyL").(showLeaderboard := s.showLeaderboard) == s
    ensures KeyDown(s, "KeyH").showControls <==> s.showControls || s.gameState == Menu
    ensures KeyDown(s, "KeyH").(showControls := s.showControls) == s
  {
  }

  /** Keys other than the five shortcuts do nothing. */
  lemma OtherKeysInert(s: Session, code: string)
    requires code !in {"KeyP", "Escape", "KeyR", "KeyL", "KeyH"}
    ensures KeyDown(s, code) == s
  {
  }

  // ---------------------------------------------------------------------------
  // Everything that can happen to the session
  // ---------------------------------------------------------------------------

  datatype Action =
    | StartClicked                      // handleGameStart (menu or canvas overlay)
    | CanvasEvent(e: GameCanvas.Event)  // a callback fired by the canvas tick or input
    | HudPauseButton                    // the HUD's pause/resume button
    | RestartClicked                    // HUD restart and "play again"
    | MenuClicked                       // "back to menu"
    | KeyPressed(code: string)
    | OpenLeaderboard | CloseLeaderboard
    | OpenControls | CloseControls

  function OnEvent(s: Session, e: GameCanvas.Event): Session
  {
    match e
    case ScoreUpdate(n) => OnScoreUpdate(s, n)
    case GameOver(f) => OnGameOver(s, f)
    case Sound(_) => s
  }

  /**
   * Whether the screen offers the action. The start button is on the
   * canvas overlay whenever no game runs; restart is in the HUD and on
   * the game-over screen; the pause button is in the HUD, which is shown
   * only while a game runs; "back to menu" is on the game-over screen; the
   * two panels open from the menu and game-over screens and close while
   * shown. Keys and canvas callbacks can always arrive.
   */
  predicate Offered(s: Session, a: Action)
  {
    match a
    case StartClicked => !IsGameRunning(s)
    case HudPauseButton => IsGameRunning(s)
    case RestartClicked => s.gameState != Menu
    case MenuClicked => s.gameState == GameOver
    case OpenLeaderboard => s.gameState == Menu || s.gameState == GameOver
    case OpenControls => s.gameState == Menu || s.gameState == GameOver
    case CloseLeaderboard => s.showLeaderboard
    case CloseControls => s.showControls
    case CanvasEvent(_) => true
    case KeyPressed(_) => true
  }

  /** One handler call per action; a button that is not on screen cannot be clicked. */
  function Dispatch(s: Session, a: Action): Session
  {
    if !Offered(s, a) then s else
    match a
    case StartClicked => GameStart(s)
    case CanvasEvent(e) => OnEvent(s, e)
    case HudPauseButton =>
      if HUD.PauseButtonAction(IsPaused(s)) == HUD.ResumeClicked then Resume(s) else Pause(s)
    case RestartClicked => Restart(s)
    case MenuClicked => MenuReturn(s)
    case KeyPressed(code) => KeyDown(s, code)
    case OpenLeaderboard => s.(showLeaderboard := true)
    case CloseLeaderboard => s.(showLeaderboard := false)
    case OpenControls => s.(showControls := true)
    case CloseControls => s.(showControls := false)
  }

  /**
   * Only the offered actions act. A game is paused only from a running game,
   * and the menu leads into a game only by the start button.
   */
  lemma DispatchGuards(s: Session, a: Action)
    ensures !Offered(s, a) ==> Dispatch(s, a) == s
    ensures IsPaused(Dispatch(s, a)) ==> IsGameRunning(s)
    ensures s.gameState == Menu && Dispatch(s, a).gameState == Playing ==> a == StartClicked
  {
  }

  /** An action followed by the best-score effect. */
  function Step(s: Session, a: Action): (r: Session)
    ensures r.bestScore >= s.bestScore && r.bestScore >= r.score
  {
    SyncBestScore(Dispatch(s, a))
  }

  /** Shown only while a game runs, the HUD button toggles pause. */
  lemma HudButtonToggles(s: Session)
    requires IsGameRunning(s)
    ensures Dispatch(s, HudPauseButton) == KeyDown(s, "KeyP")
    ensures IsGameRunning(Dispatch(s, HudPauseButton))
    ensures IsPaused(Dispatch(s, HudPauseButton)) != IsPaused(s)
  {
  }

  function Run(s: Session, actions: seq<Action>): Session
    decreases |actions|
  {
    if actions == [] then s else Step(Run(s, actions[..|actions| - 1]), actions[|actions| - 1])
  }

  /** Over any run the best score never falls and, after each effect, bounds the score. */
  lemma {:induction false} RunKeepsBest(s: Session, actions: seq<Action>)
    requires s.bestScore >= s.score
    ensures Run(s, actions).bestScore >= s.bestScore
    ensures Run(s, actions).bestScore >= Run(s, actions).score
    decreases |actions|
  {
    if actions != [] {
      RunKeepsBest(s, actions[..|actions| - 1]);
    }
  }

  // ---------------------------------------------------------------------------
  // The events of one canvas tick
  // ---------------------------------------------------------------------------

  /** The callbacks of a tick, each followed by the best-score effect. */
  function ApplyEvents(s: Session, events: seq<GameCanvas.Event>): Session
    decreases |events|
  {
    if events == [] then s
    else Step(ApplyEvents(s, events[..|events| - 1]), CanvasEvent(events[|events| - 1]))
  }

  /** The same callbacks with the effect run once at the end, as a batched render does. */
  function DispatchEvents(s: Session, events: seq<GameCanvas.Event>): Session
    decreases |events|
  {
    if events == [] then s
    else OnEvent(DispatchEvents(s, events[..|events| - 1]), events[|events| - 1])
  }

  lemma {:induction false} DispatchKeepsBest(s: Session, events: seq<GameCanvas.Event>)
    ensures DispatchEvents(s, events).bestScore == s.bestScore
    decreases |events|
  {
    if events != [] {
      DispatchKeepsBest(s, events[..|events| - 1]);
    }
  }

  /**
   * While every event score is at most f, applying the events one by one
   * differs from dispatching them only in the best score, which stays
   * between the old best score and max(old best, f).
   */
  lemma {:induction false} ApplyBoundedEvents(s: Session, events: seq<GameCanvas.Event>, f: nat)
    requires s.bestScore >= s.score
    requires GameCanvas.ScoresAtMost(events, f)
    ensures var a := ApplyEvents(s, events);
            && a.(bestScore := s.bestScore) == DispatchEvents(s, events)
            && s.bestScore <= a.bestScore <= Max(s.bestScore, f)
    decreases |events|
  {
    if events != [] {
      var init, e := events[..|events| - 1], events[|events| - 1];
      assert GameCanvas.ScoresAtMost(init, f) by {
        forall i | 0 <= i < |init| ensures init[i] == events[i] { }
      }
      assert e == events[|events| - 1];
      ApplyBoundedEvents(s, init, f);
      DispatchKeepsBest(s, init);
    }
  }

  /**
   * For the events of a tick, applying the best-score effect after every
   * callback or once after all of them ends in the same session.
   */
  lemma TickBatchingImmaterial(s: Session, w: GameCanvas.World, currentTime: real, random: real, id: int)
    requires s.bestScore >= s.score
    requires w.game.difficultyMultiplier > 0.0
    ensures var r := GameCanvas.TickSpec(w, currentTime, random, id);
            ApplyEvents(s, r.events) == SyncBestScore(DispatchEvents(s, r.events))
  {
    var r := GameCanvas.TickSpec(w, currentTime, random, id);
    var n := |r.events|;
    var f := r.world.game.score;
    GameCanvas.TickEvents(w, currentTime, random, id);
    var init := r.events[..n - 1];
    assert r.events == init + [GameCanvas.ScoreUpdate(f)];
    assert init == r.events[..|r.events| - 1];
    ApplyBoundedEvents(s, init, f - 1);
    DispatchKeepsBest(s, init);
  }

  /** The game state after a run of events: game over once any GameOver was among them. */
  lemma {:induction false} EventsGameState(s: Session, events: seq<GameCanvas.Event>)
    ensures ApplyEvents(s, events).gameState ==
            if GameCanvas.NumGameOver(events) > 0 then GameOver else s.gameState
    decreases |events|
  {
    if events != [] {
      var init, e := events[..|events| - 1], events[|events| - 1];
      EventsGameState(s, init);
      assert events == init + [e];
      GameCanvas.NumGameOverAppend(init, [e]);
      assert [e][1..] == [];
    }
  }

  /**
   * After a tick with a collision the session is on the game-over screen,
   * but shows the score of the final passive ScoreUpdate, which is larger
   * than every score a GameOver callback of that tick reported.
   */
  lemma CollisionTickShowsLaterScore(s: Session, w: GameCanvas.World, currentTime: real,
                                     random: real, id: int)
    requires w.game.difficultyMultiplier > 0.0
    requires GameCanvas.NumGameOver(GameCanvas.TickSpec(w, currentTime, random, id).events) > 0
    ensures var r := GameCanvas.TickSpec(w, currentTime, random, id);
            var a := ApplyEvents(s, r.events);
            && a.gameState == GameOver
            && a.score == r.world.game.score
            && forall i :: 0 <= i < |r.events| && r.events[i].GameOver? ==>
                 r.events[i].finalScore < a.score
  {
    var r := GameCanvas.TickSpec(w, currentTime, random, id);
    var n := |r.events|;
    GameCanvas.TickEvents(w, currentTime, random, id);
    EventsGameState(s, r.events);
    forall i | 0 <= i < n && r.events[i].GameOver?
      ensures r.events[i].finalScore < r.world.game.score
    {
      assert r.events[..n - 1][i] == r.events[i];
    }
  }

  // ---------------------------------------------------------------------------
  // The component's state cells
  // ---------------------------------------------------------------------------

  class GameApp {
    var gameState: Screen
    var score: nat
    var bestScore: nat
    var showLeaderboard: bool
    var showControls: bool
    var restartTrigger: nat

    function State(): Session
      reads this
    {
      Session(gameState, score, bestScore, showLeaderboard, showControls, restartTrigger)
    }

    /** The saved best score is I/O and is passed in here. */
    constructor (savedBestScore: nat)
      ensures State() == INITIAL_SESSION.(bestScore := savedBestScore)
    {
      gameState := Menu;
      score := 0;
      bestScore := savedBestScore;
      showLeaderboard := false;
      showControls := false;
      restartTrigger := 0;
    }

    method HandleGameStart()
      modifies this
      ensures State() == GameStart(old(State()))
    {
      gameState := Playing;
      score := 0;
      restartTrigger := restartTrigger + 1;
    }

    method HandleGameOver(finalScore: nat)
      modifies this
      ensures State() == OnGameOver(old(State()), finalScore)
    {
      gameState := GameOver;
      score := finalScore;
    }

    method HandleScoreUpdate(newScore: nat)
      modifies this
      ensures State() == OnScoreUpdate(old(State()), newScore)
    {
      score := newScore;
    }

    method HandlePause()
      modifies this
      ensures State() == Pause(old(State()))
    {
      gameState := Paused;
    }

    method HandleResume()
      modifies this
      ensures State() == Resume(old(State()))
    {
      gameState := Playing;
    }

    method HandleRestart()
      modifies this
      ensures State() == Restart(old(State()))
    {
      gameState := Playing;
      score := 0;
      restartTrigger := restartTrigger + 1;
    }

    method HandleMenuReturn()
      modifies this
      ensures State() == MenuReturn(old(State()))
    {
      gameState := Menu;
      score := 0;
    }

    /** The effect that keeps the best score; saving it to storage is left out. */
    method SaveBestScore()
      modifies this
      ensures State() == SyncBestScore(old(State()))
    {
      if score > bestScore {
        bestScore := score;
      }
    }

    method HandleKeyDown(code: string)
      modifies this
      ensures State() == KeyDown(old(State()), code)
    {
      match code {
        case "KeyP" =>
          if gameState == Playing {
            HandlePause();
          } else if gameState == Paused {
            HandleResume();
          }
        case "Escape" =>
          if gameState == Playing {
            HandlePause();
          } else if gameState == Paused {
            HandleResume();
          } else if showLeaderboard {
            showLeaderboard := false;
          } else if showControls {
            showControls := false;
          }
        case "KeyR" =>
          if gameState == Playing || gameState == Paused || gameState == GameOver {
            HandleRestart();
          }
        case "KeyL" =>
          if gameState == Menu || gameState == GameOver {
            showLeaderboard := true;
          }
        case "KeyH" =>
          if gameState == Menu {
            showControls := true;
          }
        case _ =>
      }
    }

    /** An action, when the screen offers it, and then the best-score effect. */
    method Perform(a: Action)
      modifies this
      ensures State() == Step(old(State()), a)
    {
      if Offered(State(), a) {
        match a {
          case StartClicked => HandleGameStart();
          case CanvasEvent(e) =>
            match e {
              case ScoreUpdate(n) => HandleScoreUpdate(n);
              case GameOver(f) => HandleGameOver(f);
              case Sound(_) =>
            }
          case HudPauseButton =>
            if gameState == Paused {
              HandleResume();
            } else {
              HandlePause();
            }
          case RestartClicked => HandleRestart();
          case MenuClicked => HandleMenuReturn();
          case KeyPressed(code) => HandleKeyDown(code);
          case OpenLeaderboard => showLeaderboard := true;
          case CloseLeaderboard => showLeaderboard := false;
          case OpenControls => showControls := true;
          case CloseControls => showControls := false;
        }
      }
      SaveBestScore();
    }
  }
}
