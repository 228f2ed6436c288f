/** The game-state store (src/contexts/GameContext.tsx): a record of six fields held by the
    provider, replaced one field at a time by its setters, and the guard that refuses a
    consumer rendered outside the provider. */
module Game {
  import opened Wrappers

  /** Every numeric field is a whole number: the only setter any component calls is
      updateSpeed, with the result of Math.round. */
  datatype GameState = GameState(
    speed: int, time: int, lap: int, position: int, isPlaying: bool, score: int)

  const Initial := GameState(0, 0, 1, 1, false, 0)

  datatype Field = Speed | Time | Lap | Position | IsPlaying | Score

  /** The provider's operations, each one call on the context value. */
  datatype Action =
    | UpdateSpeed(speed: int)
    | UpdateTime(time: int)
    | UpdateLap(lap: int)
    | UpdatePosition(position: int)
    | StartGame
    | PauseGame
    | ResetGame

  /** The fields an action may write. */
  function Writes(a: Action): set<Field> {
    match a
    case UpdateSpeed(_) => {Speed}
    case UpdateTime(_) => {Time}
    case UpdateLap(_) => {Lap}
    case UpdatePosition(_) => {Position}
    case StartGame => {IsPlaying}
    case PauseGame => {IsPlaying}
    case ResetGame => {Speed, Time, Lap, Position, IsPlaying, Score}
  }

  /** A field's value, as a number or, for the flag, 1 or 0. */
  function Get(g: GameState, f: Field): int {
    match f
    case Speed => g.speed
    case Time => g.time
    case Lap => g.lap
    case Position => g.position
    case IsPlaying => if g.isPlaying then 1 else 0
    case Score => g.score
  }

  /** The state after one action: the spread copy of the previous state with one field
      replaced, or the initial record for a reset. */
  function Step(g: GameState, a: Action): (r: GameState)
    ensures forall f :: f !in Writes(a) ==> Get(r, f) == Get(g, f)
    ensures a.UpdateSpeed? ==> r.speed == a.speed
    ensures a.UpdateTime? ==> r.time == a.time
    ensures a.UpdateLap? ==> r.lap == a.lap
    ensures a.UpdatePosition? ==> r.position == a.position
    ensures a.StartGame? ==> r.isPlaying
    ensures a.PauseGame? ==> !r.isPlaying
    ensures a.ResetGame? ==> r == Initial
  {
    match a
    case UpdateSpeed(s) => g.(speed := s)
    case UpdateTime(t) => g.(time := t)
    case UpdateLap(l) => g.(lap := l)
    case UpdatePosition(p) => g.(position := p)
    case StartGame => g.(isPlaying := true)
    case PauseGame => g.(isPlaying := false)
    case ResetGame => Initial
  }

  /** Two states that agree on every field are the same state, so the field-wise frame in
      Step's contract pins the record down completely. */
  lemma FieldsDetermineState(g: GameState, h: GameState)
    requires forall f :: Get(g, f) == Get(h, f)
    ensures g == h
  {
    assert Get(g, Speed) == Get(h, Speed) && Get(g, Time) == Get(h, Time);
    assert Get(g, Lap) == Get(h, Lap) && Get(g, Position) == Get(h, Position);
    assert Get(g, IsPlaying) == Get(h, IsPlaying) && Get(g, Score) == Get(h, Score);
  }

  /** Step's contract is complete: any record that keeps the fields the action does not
      write and gives the written field the action's value is Step's result. */
  lemma StepContractDetermines(g: GameState, a: Action, r: GameState)
    requires forall f :: f !in Writes(a) ==> Get(r, f) == Get(g, f)
    requires a.UpdateSpeed? ==> r.speed == a.speed
    requires a.UpdateTime? ==> r.time == a.time
    requires a.UpdateLap? ==> r.lap == a.lap
    requires a.UpdatePosition? ==> r.position == a.position
    requires a.StartGame? ==> r.isPlaying
    requires a.PauseGame? ==> !r.isPlaying
    requires a.ResetGame? ==> r == Initial
    ensures r == Step(g, a)
  {
    if !a.ResetGame? {
      forall f ensures Get(r, f) == Get(Step(g, a), f) {
        if f !in Writes(a) {
          assert Get(Step(g, a), f) == Get(g, f);
        }
      }
      FieldsDetermineState(r, Step(g, a));
    }
  }

  /** A reset lands on the initial record whatever came before, so resetting twice is the
      same as resetting once. */
  lemma ResetIdempotent(g: GameState)
    ensures Step(g, ResetGame) == Initial
    ensures Step(Step(g, ResetGame), ResetGame) == Step(g, ResetGame)
  {
  }

  /** The state after a run of actions, applied in order. */
  function Replay(g: GameState, actions: seq<Action>): GameState
    decreases |actions|
  {
    if actions == [] then g else Replay(Step(g, actions[0]), actions[1..])
  }

  /** Nothing but a reset writes the score: through any run of other actions it keeps its
      value. */
  lemma {:induction false} ScoreUntouched(g: GameState, actions: seq<Action>)
    requires forall i :: 0 <= i < |actions| ==> !actions[i].ResetGame?
    ensures Replay(g, actions).score == g.score
    decreases |actions|
  {
    if actions != [] {
      assert Score !in Writes(actions[0]);
      ScoreUntouched(Step(g, actions[0]), actions[1..]);
    }
  }

  /** Since the initial score is 0 and only a reset writes it (back to 0), a game that
      starts from the initial record has score 0 after any run of actions. */
  lemma {:induction false} ScoreStaysZero(g: GameState, actions: seq<Action>)
    requires g.score == 0
    ensures Replay(g, actions).score == 0
    decreases |actions|
  {
    if actions != [] {
      assert Step(g, actions[0]).score == 0;
      ScoreStaysZero(Step(g, actions[0]), actions[1..]);
    }
  }

  /** A run that ends with a reset ends at the initial record, whatever the history. */
  lemma {:induction false} ResetForgetsHistory(g: GameState, actions: seq<Action>)
    requires |actions| > 0 && actions[|actions| - 1].ResetGame?
    ensures Replay(g, actions) == Initial
    decreases |actions|
  {
    if |actions| == 1 {
      assert Replay(g, actions) == Replay(Initial, []);
    } else {
      ResetForgetsHistory(Step(g, actions[0]), actions[1..]);
    }
  }

  /** What the context carries: the current state. The setters are the provider's methods
      below. */
  datatype GameContextValue = GameContextValue(gameState: GameState)

  const OutsideProvider := "useGame must be used within a GameProvider"

  /** useGame: the context value, or the error it throws when no provider is above the
      consumer. */
  function UseGame(context: Option<GameContextValue>): (r: Result<GameContextValue, string>)
    ensures r.Failure? <==> context.None?
    ensures r.Failure? ==> r.error == OutsideProvider
    ensures r.Success? ==> Some(r.value) == context
  {
    match context
    case None => Failure(OutsideProvider)
    case Some(c) => Success(c)
  }

  /** The provider's one state cell, replaced through setGameState by each operation. */
  class GameProvider {
    var gameState: GameState

    constructor ()
      ensures gameState == Initial
    {
      gameState := GameState(0, 0, 1, 1, false, 0);
    }

    function Value(): GameContextValue
      reads this
    {
      GameContextValue(gameState)
    }

    method UpdateSpeed(speed: int)
      modifies this
      ensures gameState == Step(old(gameState), Action.UpdateSpeed(speed))
    {
      gameState := gameState.(speed := speed);
    }

    method UpdateTime(time: int)
      modifies this
      ensures gameState == Step(old(gameState), Action.UpdateTime(time))
    {
      gameState := gameState.(time := time);
    }

    method UpdateLap(lap: int)
      modifies this
      ensures gameState == Step(old(gameState), Action.UpdateLap(lap))
    {
      gameState := gameState.(lap := lap);
    }

    method UpdatePosition(position: int)
      modifies this
      ensures gameState == Step(old(gameState), Action.UpdatePosition(position))
    {
      gameState := gameState.(position := position);
    }

    method StartGame()
      modifies this
      ensures gameState == Step(old(gameState), Action.StartGame)
    {
      gameState := gameState.(isPlaying := true);
    }

    method PauseGame()
      modifies this
      ensures gameState == Step(old(gameState), Action.PauseGame)
    {
      gameState := gameState.(isPlaying := false);
    }

    method ResetGame()
      modifies this
      ensures gameState == Step(old(gameState), Action.ResetGame)
    {
      gameState := GameState(0, 0, 1, 1, false, 0);
    }
  }
}
