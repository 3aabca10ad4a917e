/**
  The game's state holder (Assets/SimpleGameManager.cs): the pause and
  game-over flags, the engine's time scale, the survival time and the score
  derived from it, and the rule that only the first manager survives.
*/
module GameState {
  import opened Wrappers
  import opened Engine

  /** The engine's float-to-int floor, `Mathf.FloorToInt`. */
  function FloorToInt(t: real): (n: int)
    ensures n as real <= t < n as real + 1.0
  {
    t.Floor
  }

  /** The manager's state, apart from the user interface. */
  datatype State = State(isGamePaused: bool, isGameOver: bool, survivalTime: real,
                         gameStarted: bool, timeScale: real)

  /** TogglePause: nothing once the game is over; otherwise flip the pause and stop or restart time with it. */
  function TogglePauseSpec(s: State): (t: State)
    ensures s.isGameOver ==> t == s
    ensures !s.isGameOver ==> t.isGamePaused == !s.isGamePaused
    ensures !s.isGameOver ==> t.timeScale == if t.isGamePaused then 0.0 else 1.0
    ensures t.isGameOver == s.isGameOver && t.survivalTime == s.survivalTime && t.gameStarted == s.gameStarted
  {
    if s.isGameOver then s
    else
      var paused := !s.isGamePaused;
      s.(isGamePaused := paused, timeScale := if paused then 0.0 else 1.0)
  }

  /** GameOver: the game ends and time stops; an ended game is left alone. */
  function GameOverSpec(s: State): (t: State)
    ensures t.isGameOver
    ensures !s.isGameOver ==> t.timeScale == 0.0
    ensures s.isGameOver ==> t == s
    ensures t.isGamePaused == s.isGamePaused && t.survivalTime == s.survivalTime && t.gameStarted == s.gameStarted
  {
    if s.isGameOver then s else s.(isGameOver := true, timeScale := 0.0)
  }

  /**
    One frame: Escape and P each toggle the pause while the game is not over,
    then the survival time grows by the frame's `dt` while the game runs.
  */
  function UpdateSpec(s: State, escapeDown: bool, pDown: bool, dt: real): (t: State)
    ensures t.isGameOver == s.isGameOver && t.gameStarted == s.gameStarted
    ensures s.isGameOver ==> t == s
  {
    var s1 := if escapeDown && !s.isGameOver then TogglePauseSpec(s) else s;
    var s2 := if pDown && !s1.isGameOver then TogglePauseSpec(s1) else s1;
    if s2.gameStarted && !s2.isGamePaused && !s2.isGameOver
    then s2.(survivalTime := s2.survivalTime + dt)
    else s2
  }

  /** Running the game is what makes the clock count: survival time grows by exactly dt, or not at all. */
  lemma UpdateSurvivalTime(s: State, escapeDown: bool, pDown: bool, dt: real)
    ensures var t := UpdateSpec(s, escapeDown, pDown, dt);
            && (t.gameStarted && !t.isGamePaused && !t.isGameOver ==> t.survivalTime == s.survivalTime + dt)
            && (!(t.gameStarted && !t.isGamePaused && !t.isGameOver) ==> t.survivalTime == s.survivalTime)
            && t.isGameOver == s.isGameOver && t.gameStarted == s.gameStarted
  {
  }

  /** Escape and P in the same frame toggle twice: the pause flag ends where it was. */
  lemma BothPauseKeysCancel(s: State, dt: real)
    ensures UpdateSpec(s, true, true, dt).isGamePaused == s.isGamePaused
  {
  }

  /** One pause key in a running game flips the pause, and the time scale follows it. */
  lemma OnePauseKeyToggles(s: State, escapeDown: bool, pDown: bool, dt: real)
    requires escapeDown != pDown && !s.isGameOver
    ensures var t := UpdateSpec(s, escapeDown, pDown, dt);
            t.isGamePaused == !s.isGamePaused && t.timeScale == if t.isGamePaused then 0.0 else 1.0
  {
  }

  /** A frame with no pause key keeps the pause flag and the time scale. */
  lemma NoPauseKeyKeepsPause(s: State, dt: real)
    ensures var t := UpdateSpec(s, false, false, dt);
            t.isGamePaused == s.isGamePaused && t.timeScale == s.timeScale
  {
  }

  lemma GameOverIdempotent(s: State)
    ensures GameOverSpec(GameOverSpec(s)) == GameOverSpec(s)
  {
  }

  /** The calls other scripts make, and frames. */
  datatype Event = Frame(escapeDown: bool, pDown: bool, dt: real) | TogglePause | GameOver

  function Apply(s: State, e: Event): (t: State) {
    match e
    case Frame(esc, p, dt) => UpdateSpec(s, esc, p, dt)
    case TogglePause => TogglePauseSpec(s)
    case GameOver => GameOverSpec(s)
  }

  function Run(s: State, events: seq<Event>): (t: State)
    decreases |events|
  {
    if events == [] then s else Run(Apply(s, events[0]), events[1..])
  }

  /**
    Once the game is over nothing changes any more: it stays over, and the
    pause flag, the survival time and the time scale keep their values,
    whatever frames, pause toggles and game-overs follow.
  */
  lemma {:induction false} OverIsFinal(s: State, events: seq<Event>)
    requires s.isGameOver
    ensures Run(s, events) == s
    decreases |events|
  {
    if events != [] {
      OverIsFinal(Apply(s, events[0]), events[1..]);
    }
  }

  /** A game that GameOver ends keeps time stopped from then on. */
  lemma TimeStopsForGood(s: State, events: seq<Event>)
    requires !s.isGameOver
    ensures Run(GameOverSpec(s), events).isGameOver
    ensures Run(GameOverSpec(s), events).timeScale == 0.0
  {
    OverIsFinal(GameOverSpec(s), events);
  }

  /** With frames of non-negative duration the survival time never goes down. */
  lemma {:induction false} SurvivalTimeMonotone(s: State, events: seq<Event>)
    requires forall i :: 0 <= i < |events| && events[i].Frame? ==> events[i].dt >= 0.0
    ensures Run(s, events).survivalTime >= s.survivalTime
    decreases |events|
  {
    if events != [] {
      SurvivalTimeMonotone(Apply(s, events[0]), events[1..]);
    }
  }

  /** The slot of the static `Instance` property. */
  class InstanceSlot {
    var instance: SimpleGameManager?

    constructor ()
      ensures instance == null
    {
      instance := null;
    }
  }

  class SimpleGameManager {
    /** The game object the manager sits on. */
    const gameObject: GameObject
    var isGamePaused: bool
    var isGameOver: bool
    var survivalTime: real
    var gameStarted: bool
    /** The engine's global time scale, which only this script sets. */
    var timeScale: real
    /** The number the final-score text shows, once written. */
    var finalScoreShown: Option<int>

    function Snapshot(): (s: State)
      reads this
    {
      State(isGamePaused, isGameOver, survivalTime, gameStarted, timeScale)
    }

    constructor (gameObject: GameObject)
      ensures this.gameObject == gameObject
      ensures Snapshot() == State(false, false, 0.0, false, 1.0) && finalScoreShown == None
    {
      this.gameObject := gameObject;
      isGamePaused := false;
      isGameOver := false;
      survivalTime := 0.0;
      gameStarted := false;
      timeScale := 1.0;
      finalScoreShown := None;
    }

    /**
      The manager becomes the instance when there is none, or when the
      instance is a manager whose game object has been destroyed (the
      engine's null test is true for destroyed objects); otherwise it
      destroys its own game object.
    */
    method Awake(slot: InstanceSlot)
      modifies slot, gameObject`destroyed
      ensures old(slot.instance == null || slot.instance.gameObject.destroyed) ==>
                slot.instance == this && gameObject.destroyed == old(gameObject.destroyed)
      ensures !old(slot.instance == null || slot.instance.gameObject.destroyed) ==>
                slot.instance == old(slot.instance) && gameObject.destroyed
    {
      if slot.instance == null || slot.instance.gameObject.destroyed {
        slot.instance := this;
      } else {
        gameObject.destroyed := true;
      }
    }

    method Start()
      modifies this`gameStarted
      ensures gameStarted
    {
      gameStarted := true;
    }

    method Update(escapeDown: bool, pDown: bool, dt: real)
      modifies this
      ensures Snapshot() == UpdateSpec(old(Snapshot()), escapeDown, pDown, dt)
      ensures finalScoreShown == old(finalScoreShown)
    {
      if escapeDown && !isGameOver {
        TogglePause();
      }
      if pDown && !isGameOver {
        TogglePause();
      }
      if gameStarted && !isGamePaused && !isGameOver {
        survivalTime := survivalTime + dt;
      }
    }

    method TogglePause()
      modifies this
      ensures Snapshot() == TogglePauseSpec(old(Snapshot()))
      ensures finalScoreShown == old(finalScoreShown)
    {
      if isGameOver {
        return;
      }
      isGamePaused := !isGamePaused;
      if isGamePaused {
        timeScale := 0.0;
      } else {
        timeScale := 1.0;
      }
    }

    /**
      Ends the game. `hasFinalScoreText` says whether the game-over screen
      exists and holds the final-score text, which then shows the score.
    */
    method GameOver(hasFinalScoreText: bool)
      modifies this
      ensures Snapshot() == GameOverSpec(old(Snapshot()))
      ensures finalScoreShown == if !old(isGameOver) && hasFinalScoreText
                                 then Some(FloorToInt(survivalTime)) else old(finalScoreShown)
    {
      if isGameOver {
        return;
      }
      isGameOver := true;
      timeScale := 0.0;
      if hasFinalScoreText {
        finalScoreShown := Some(FloorToInt(survivalTime));
      }
    }

    method GetSurvivalTime() returns (t: real)
      ensures t == survivalTime
    {
      t := survivalTime;
    }

    /** The score is the whole number of seconds survived. */
    method GetScore() returns (score: int)
      ensures score as real <= survivalTime < score as real + 1.0
    {
      score := FloorToInt(survivalTime);
    }
  }
}
