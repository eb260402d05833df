/**
 * The game state store: a key/value map whose key `score` holds the score.
 * Values are a small closed set standing for the JavaScript values a caller
 * may store; `Falsy` follows JavaScript's truthiness, which decides what
 * the `|| 0` default in the score accessors does.
 */
module GameStateStore {
  import opened Common

  datatype Value = Num(n: int) | Text(s: string) | Flag(b: bool) | Null

  const SCORE_KEY: string := "score"

  /** The values for which `v || 0` yields 0. */
  predicate Falsy(v: Value) {
    v == Num(0) || v == Text("") || v == Flag(false) || v == Null
  }

  /**
   * JavaScript's `v + points`, for a number `points`: numeric addition,
   * with `true`/`false` as 1/0 and `null` as 0, except that a string is
   * extended by the decimal text of `points`.
   */
  function Plus(v: Value, points: int): Value {
    match v
    case Num(n) => Num(n + points)
    case Text(s) => Text(s + IntToDecimal(points))
    case Flag(b) => Num((if b then 1 else 0) + points)
    case Null => Num(points)
  }

  /** `gameState.get('score') || 0`. */
  function ScoreOf(state: map<string, Value>): Value {
    if SCORE_KEY in state && !Falsy(state[SCORE_KEY]) then state[SCORE_KEY] else Num(0)
  }

  /** The state after `updateScore(points)`. */
  function ScoreAdded(state: map<string, Value>, points: int): map<string, Value> {
    state[SCORE_KEY := Plus(ScoreOf(state), points)]
  }

  /** The state after one `updateScore` call per element of `points`, in order. */
  function ScoresAdded(state: map<string, Value>, points: seq<int>): map<string, Value>
    decreases |points|
  {
    if points == [] then state else ScoresAdded(ScoreAdded(state, points[0]), points[1..])
  }

  function Sum(points: seq<int>): int
    decreases |points|
  {
    if points == [] then 0 else points[0] + Sum(points[1..])
  }

  /** The state right after `reset()`. */
  const RESET_STATE: map<string, Value> := map[SCORE_KEY := Num(0)]

  /**
   * A numeric score moves by exactly the sum of the updates, negative ones
   * included, and the score stays numeric; no other key is touched.
   */
  lemma {:induction false} ScoresAddUp(state: map<string, Value>, points: seq<int>)
    requires ScoreOf(state).Num?
    ensures ScoreOf(ScoresAdded(state, points)) == Num(ScoreOf(state).n + Sum(points))
    ensures ScoresAdded(state, points).Keys - {SCORE_KEY} == state.Keys - {SCORE_KEY}
    ensures forall k :: k in state && k != SCORE_KEY ==>
              k in ScoresAdded(state, points) && ScoresAdded(state, points)[k] == state[k]
    decreases |points|
  {
    if points != [] {
      var next := ScoreAdded(state, points[0]);
      assert ScoreOf(next) == Num(ScoreOf(state).n + points[0]);
      ScoresAddUp(next, points[1..]);
    }
  }

  /** The decimal texts of `points`, one after another. */
  function DecimalTexts(points: seq<int>): string
    decreases |points|
  {
    if points == [] then "" else IntToDecimal(points[0]) + DecimalTexts(points[1..])
  }

  /** One update on a text score appends the decimal text of the points. */
  lemma TextScoreStep(state: map<string, Value>, points: int)
    requires ScoreOf(state).Text?
    ensures ScoreOf(ScoreAdded(state, points)) == Text(ScoreOf(state).s + IntToDecimal(points))
  {
    assert |ScoreOf(state).s + IntToDecimal(points)| > 0;
  }

  /**
   * A text score is never added to: a run of updates appends the decimal
   * text of each update's points, in order, and the score stays text. This
   * is why `ScoresAddUp` needs a numeric score to start from.
   */
  lemma {:induction false} ScoresConcatenateOnText(state: map<string, Value>, points: seq<int>)
    requires ScoreOf(state).Text?
    ensures ScoreOf(ScoresAdded(state, points)) == Text(ScoreOf(state).s + DecimalTexts(points))
    decreases |points|
  {
    if points == [] {
      assert ScoreOf(state).s + DecimalTexts(points) == ScoreOf(state).s;
    } else {
      var s, d, rest := ScoreOf(state).s, IntToDecimal(points[0]), DecimalTexts(points[1..]);
      var next := ScoreAdded(state, points[0]);
      assert ScoresAdded(state, points) == ScoresAdded(next, points[1..]);
      TextScoreStep(state, points[0]);
      assert ScoreOf(next).s == s + d;
      ScoresConcatenateOnText(next, points[1..]);
      assert DecimalTexts(points) == d + rest;
      SeqAssoc(s, d, rest);
    }
  }

  /** Concatenation of texts is associative (a proof step kept apart to keep the proof above cheap). */
  lemma SeqAssoc(s: string, d: string, rest: string)
    ensures (s + d) + rest == s + (d + rest)
  {
  }

  /** The score never set reads 0; `+5` then `-2` then reads 3. */
  lemma ScoreExample()
    ensures ScoreOf(map[]) == Num(0)
    ensures ScoreOf(ScoresAdded(map[], [5, -2])) == Num(3)
  {
    ScoresAddUp(map[], [5, -2]);
  }

  /**
   * `get('score') || 0` gives 0 exactly for a falsy stored value (a stored
   * 0 included); any truthy value is returned as it is.
   */
  lemma {:induction false} OrZeroCoalesces(v: Value)
    ensures ScoreOf(map[SCORE_KEY := v]) == Num(0) <==> Falsy(v)
    ensures !Falsy(v) ==> ScoreOf(map[SCORE_KEY := v]) == v
  {
    assert SCORE_KEY in map[SCORE_KEY := v];
  }

  class StateManager {
    var gameState: map<string, Value>

    constructor ()
      ensures gameState == map[]
    {
      gameState := map[];
    }

    /** Adds `points` to the score, an unset (or falsy) score counting as 0. */
    method UpdateScore(points: int)
      modifies this
      ensures gameState == ScoreAdded(old(gameState), points)
      ensures ScoreOf(old(gameState)).Num? ==>
                ScoreOf(gameState) == Num(ScoreOf(old(gameState)).n + points)
      ensures forall k :: k != SCORE_KEY ==> (k in gameState <==> k in old(gameState))
      ensures forall k :: k in old(gameState) && k != SCORE_KEY ==> gameState[k] == old(gameState)[k]
    {
      var currentScore := if SCORE_KEY in gameState && !Falsy(gameState[SCORE_KEY])
                          then gameState[SCORE_KEY] else Num(0);
      gameState := gameState[SCORE_KEY := Plus(currentScore, points)];
    }

    /** The score, reading 0 when it was never set. */
    method GetScore() returns (score: Value)
      ensures score == ScoreOf(gameState)
      ensures SCORE_KEY !in gameState ==> score == Num(0)
    {
      score := if SCORE_KEY in gameState && !Falsy(gameState[SCORE_KEY])
               then gameState[SCORE_KEY] else Num(0);
    }

    /** Stores `value` under `key`; the score is just the entry under `score`. */
    method SetState(key: string, value: Value)
      modifies this
      ensures gameState == old(gameState)[key := value]
      ensures key == SCORE_KEY && value.Num? ==> ScoreOf(gameState) == value
    {
      gameState := gameState[key := value];
    }

    /** The value under `key`, if any. */
    method GetState(key: string) returns (value: Option<Value>)
      ensures key in gameState ==> value == Some(gameState[key])
      ensures key !in gameState ==> value == None
    {
      value := if key in gameState then Some(gameState[key]) else None;
    }

    /** Forgets every key and sets the score to 0. */
    method Reset()
      modifies this
      ensures gameState == RESET_STATE
      ensures forall k :: k != SCORE_KEY ==> k !in gameState
      ensures ScoreOf(gameState) == Num(0)
    {
      gameState := map[];
      gameState := gameState[SCORE_KEY := Num(0)];
    }
  }

  /** The lazily created process-wide state store. */
  class StateManagerSingleton {
    var instance: StateManager?

    constructor ()
      ensures instance == null
    {
      instance := null;
    }

    /** The current store, created empty on first use. */
    method GetInstance() returns (manager: StateManager)
      modifies this
      ensures instance == manager
      ensures old(instance) != null ==> manager == old(instance)
      ensures old(instance) == null ==> fresh(manager) && manager.gameState == map[]
    {
      if instance == null {
        instance := new StateManager();
      }
      manager := instance;
    }

    /** Discards the store; the next `GetInstance` creates a new one. */
    method ResetInstance()
      modifies this
      ensures instance == null
    {
      instance := null;
    }
  }
}
