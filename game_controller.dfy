/** The session controller (`GameController`): pause and game-over flags,
    the engine time scale, the four UI panels (their active flags), and the
    once-per-episode reaction to level-lost. */
module Session {
  import opened ScoreTracking
  import opened Spawning

  /** The controller's fields, with each panel as its `activeSelf` flag. */
  datatype ControllerState = ControllerState(
    isPaused: bool,
    isGameOver: bool,
    timeScale: real,
    menuPanel: bool,
    gamePanel: bool,
    pausePanel: bool,
    losePanel: bool)

  datatype LevelLostResult = LevelLostResult(state: ControllerState, acted: bool)

  /** The inputs the controller reacts to: its public methods and the
      level-lost notification it listens to. */
  datatype Command = Pause | Resume | Toggle | LevelLost(lives: int) | StartClicked | ReturnToMenu

  datatype RunResult = RunResult(state: ControllerState, losses: nat)

  /** Whether a command clears the game-over flag. */
  predicate StartsEpisode(c: Command) {
    c.StartClicked? || c.ReturnToMenu?
  }

  /** `PauseGame`: ignored once the game is over. */
  function PauseStep(s: ControllerState): (r: ControllerState)
    ensures s.isGameOver ==> r == s
    ensures !s.isGameOver ==> r == s.(isPaused := true, timeScale := 0.0, pausePanel := true)
  {
    if s.isGameOver then s else s.(isPaused := true, timeScale := 0.0, pausePanel := true)
  }

  /** `ResumeGame`. */
  function ResumeStep(s: ControllerState): (r: ControllerState)
    ensures !r.isPaused && r.timeScale == 1.0 && !r.pausePanel
    ensures r.isGameOver == s.isGameOver && r.menuPanel == s.menuPanel
    ensures r.gamePanel == s.gamePanel && r.losePanel == s.losePanel
  {
    s.(isPaused := false, timeScale := 1.0, pausePanel := false)
  }

  /** `TogglePause`: nothing while both the game and the pause panels are
      hidden (in the menu, or after losing); otherwise it resumes a paused
      game and pauses a running one. */
  function ToggleStep(s: ControllerState): (r: ControllerState)
    ensures !s.gamePanel && !s.pausePanel ==> r == s
    ensures (s.gamePanel || s.pausePanel) && s.isPaused ==> r == ResumeStep(s)
    ensures (s.gamePanel || s.pausePanel) && !s.isPaused ==> r == PauseStep(s)
    ensures (s.gamePanel || s.pausePanel) && !s.isGameOver ==> r.isPaused == !s.isPaused
  {
    if !s.gamePanel && !s.pausePanel then s
    else if s.isPaused then ResumeStep(s)
    else PauseStep(s)
  }

  /** `OnLevelLost(lives)`: acts only when the game is not already over;
      acting stops the spawner, hides the game panel and shows the lose panel. */
  function LevelLostStep(s: ControllerState): (r: LevelLostResult)
    ensures r.acted <==> !s.isGameOver
    ensures r.state.isGameOver
    ensures !r.acted ==> r.state == s
    ensures r.acted ==> r.state == s.(isGameOver := true, gamePanel := false, losePanel := true)
  {
    if s.isGameOver then LevelLostResult(s, false)
    else LevelLostResult(s.(isGameOver := true, gamePanel := false, losePanel := true), true)
  }

  /** `OnStartButtonClicked` (the score reset and spawner start aside). */
  function StartClickedStep(s: ControllerState): (r: ControllerState)
    ensures !r.isPaused && !r.isGameOver && r.timeScale == 1.0
    ensures !r.menuPanel && r.gamePanel
    ensures r.pausePanel == s.pausePanel && r.losePanel == s.losePanel
  {
    s.(timeScale := 1.0, isPaused := false, isGameOver := false, menuPanel := false, gamePanel := true)
  }

  /** `ReturnToMainMenu` (the spawner stop and score reset aside). */
  function ReturnToMenuStep(s: ControllerState): (r: ControllerState)
    ensures !r.isPaused && !r.isGameOver && r.timeScale == 1.0
    ensures r.menuPanel && !r.gamePanel && !r.pausePanel && !r.losePanel
  {
    ControllerState(false, false, 1.0, true, false, false, false)
  }

  /** The controller's reaction to one command; `acted` is true when a
      level-lost notification ended the game. */
  function CommandStep(s: ControllerState, c: Command): LevelLostResult {
    match c
    case Pause => LevelLostResult(PauseStep(s), false)
    case Resume => LevelLostResult(ResumeStep(s), false)
    case Toggle => LevelLostResult(ToggleStep(s), false)
    case LevelLost(_) => LevelLostStep(s)
    case StartClicked => LevelLostResult(StartClickedStep(s), false)
    case ReturnToMenu => LevelLostResult(ReturnToMenuStep(s), false)
  }

  function CommandRun(s: ControllerState, cs: seq<Command>): RunResult
    decreases |cs|
  {
    if cs == [] then RunResult(s, 0)
    else
      var first := CommandStep(s, cs[0]);
      var rest := CommandRun(first.state, cs[1..]);
      RunResult(rest.state, (if first.acted then 1 else 0) + rest.losses)
  }

  /** Between two starts of an episode, level-lost is acted on at most once,
      whatever else happens (pauses, toggles, any number of notifications),
      and the game stays over once it is over. */
  lemma {:induction false} LevelLostActsOncePerEpisode(s: ControllerState, cs: seq<Command>)
    requires forall i :: 0 <= i < |cs| ==> !StartsEpisode(cs[i])
    ensures CommandRun(s, cs).losses <= (if s.isGameOver then 0 else 1)
    ensures s.isGameOver ==> CommandRun(s, cs).state.isGameOver
    decreases |cs|
  {
    if cs != [] {
      LevelLostActsOncePerEpisode(CommandStep(s, cs[0]).state, cs[1..]);
    }
  }

  /** The tracker's notifications delivered to the controller: level-lost
      goes to `OnLevelLost`, score-changed is not listened to. */
  function DeliverEvents(s: ControllerState, events: seq<ScoreEvent>): (r: RunResult)
    ensures r.losses <= (if s.isGameOver then 0 else 1)
    ensures s.isGameOver ==> r.state.isGameOver
    ensures r.losses == 1 ==> r.state.isGameOver
    decreases |events|
  {
    if events == [] then RunResult(s, 0)
    else
      var first := if events[0].LevelLost? then LevelLostStep(s) else LevelLostResult(s, false);
      var rest := DeliverEvents(first.state, events[1..]);
      RunResult(rest.state, (if first.acted then 1 else 0) + rest.losses)
  }

  /** The commands the tracker's notifications amount to: each level-lost
      becomes the controller's `OnLevelLost` input; score-changed has no
      listener here. */
  function ListenedCommands(events: seq<ScoreEvent>): seq<Command>
    decreases |events|
  {
    if events == [] then []
    else (if events[0].LevelLost? then [Command.LevelLost(events[0].lives)] else []) + ListenedCommands(events[1..])
  }

  /** Delivering notifications is running the controller on the level-lost
      commands they amount to. */
  lemma {:induction false} DeliverEventsIsCommandRun(s: ControllerState, events: seq<ScoreEvent>)
    ensures DeliverEvents(s, events) == CommandRun(s, ListenedCommands(events))
    decreases |events|
  {
    if events != [] {
      var first := if events[0].LevelLost? then LevelLostStep(s) else LevelLostResult(s, false);
      DeliverEventsIsCommandRun(first.state, events[1..]);
      var rest := ListenedCommands(events[1..]);
      if events[0].LevelLost? {
        var cs := [Command.LevelLost(events[0].lives)] + rest;
        assert ListenedCommands(events) == cs;
        assert cs[0] == Command.LevelLost(events[0].lives) && cs[1..] == rest;
      } else {
        assert ListenedCommands(events) == rest;
      }
    }
  }

  /** Although the tracker raises level-lost on every lethal damage call, a
      running game ends exactly once when its notifications are delivered. */
  lemma {:induction false} RepeatedLevelLostEndsGameOnce(s: ControllerState, events: seq<ScoreEvent>)
    requires !s.isGameOver
    ensures DeliverEvents(s, events).losses == (if exists i :: 0 <= i < |events| && events[i].LevelLost? then 1 else 0)
    decreases |events|
  {
    if events != [] {
      var first := if events[0].LevelLost? then LevelLostStep(s) else LevelLostResult(s, false);
      if events[0].LevelLost? {
        GameOverIgnoresEvents(first.state, events[1..]);
      } else {
        RepeatedLevelLostEndsGameOnce(first.state, events[1..]);
        assert (exists i :: 0 <= i < |events| && events[i].LevelLost?) <==>
               (exists i :: 0 <= i < |events[1..]| && events[1..][i].LevelLost?) by {
          forall i | 0 < i < |events| ensures events[i] == events[1..][i - 1] {}
        }
      }
    }
  }

  lemma {:induction false} GameOverIgnoresEvents(s: ControllerState, events: seq<ScoreEvent>)
    requires s.isGameOver
    ensures DeliverEvents(s, events) == RunResult(s, 0)
    decreases |events|
  {
    if events != [] {
      GameOverIgnoresEvents(s, events[1..]);
    }
  }

  class GameController {
    const spawner: TargetSpawner
    const score: ScoreManager
    var isPaused: bool
    var isGameOver: bool
    /** `Time.timeScale`. */
    var timeScale: real
    var menuPanel: bool
    var gamePanel: bool
    var pausePanel: bool
    var losePanel: bool

    function State(): ControllerState
      reads this
    {
      ControllerState(isPaused, isGameOver, timeScale, menuPanel, gamePanel, pausePanel, losePanel)
    }

    ghost predicate Valid()
      reads this, score
    {
      score.Valid()
    }

    /** The panels start as the scene sets them; the flags start false and
        the time scale at the engine's 1. */
    constructor (spawner: TargetSpawner, score: ScoreManager, menu: bool, game: bool, pause: bool, lose: bool)
      requires score.Valid()
      ensures Valid() && this.spawner == spawner && this.score == score
      ensures State() == ControllerState(false, false, 1.0, menu, game, pause, lose)
    {
      this.spawner := spawner;
      this.score := score;
      isPaused, isGameOver, timeScale := false, false, 1.0;
      menuPanel, gamePanel, pausePanel, losePanel := menu, game, pause, lose;
    }

    /** `Start`: resume (the subscription to level-lost is event plumbing). */
    method Start()
      modifies this
      ensures State() == ResumeStep(old(State()))
    {
      ResumeGame();
    }

    method PauseGame()
      modifies this
      ensures State() == PauseStep(old(State()))
    {
      if isGameOver {
        return;
      }
      isPaused := true;
      timeScale := 0.0;
      pausePanel := true;
    }

    method ResumeGame()
      modifies this
      ensures State() == ResumeStep(old(State()))
    {
      isPaused := false;
      timeScale := 1.0;
      pausePanel := false;
    }

    method TogglePause()
      modifies this
      ensures State() == ToggleStep(old(State()))
    {
      if !gamePanel && !pausePanel {
        return;
      }
      if isPaused {
        ResumeGame();
      } else {
        PauseGame();
      }
    }

    method OnLevelLost(lives: int)
      modifies this, spawner`hookCalls
      ensures State() == LevelLostStep(old(State())).state
      ensures spawner.hookCalls ==
        old(spawner.hookCalls) + if LevelLostStep(old(State())).acted then [StopGameCalled] else []
    {
      if isGameOver {
        return;
      }
      isGameOver := true;
      spawner.StopGame();
      gamePanel := false;
      losePanel := true;
    }

    method OnStartButtonClicked()
      requires Valid()
      modifies this, score, spawner`hookCalls
      ensures Valid()
      ensures State() == StartClickedStep(old(State()))
      ensures score.State() == ResetStep(old(score.State()), score.lifeCount).state
      ensures score.events == old(score.events) + ResetStep(old(score.State()), score.lifeCount).events
      ensures spawner.hookCalls == old(spawner.hookCalls) + [StartGameCalled]
    {
      timeScale := 1.0;
      isPaused := false;
      isGameOver := false;
      menuPanel := false;
      gamePanel := true;
      score.Reset();
      spawner.StartGame();
    }

    method ReturnToMainMenu()
      requires Valid()
      modifies this, score, spawner`hookCalls
      ensures Valid()
      ensures State() == ReturnToMenuStep(old(State()))
      ensures score.State() == ResetStep(old(score.State()), score.lifeCount).state
      ensures score.events == old(score.events) + ResetStep(old(score.State()), score.lifeCount).events
      ensures spawner.hookCalls == old(spawner.hookCalls) + [StopGameCalled]
    {
      timeScale := 1.0;
      isPaused := false;
      isGameOver := false;
      spawner.StopGame();
      gamePanel := false;
      pausePanel := false;
      losePanel := false;
      menuPanel := true;
      score.Reset();
    }
  }
}
