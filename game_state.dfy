/** The session's score/time tracker, `GameState`. */
module GameLogic {
  import opened Wrappers
  import opened JavaLang
  import opened GameConstants

  /** The three counters a `GameState` holds. */
  datatype Counters = Counters(score: Int32, highScore: Int32, timeLeft: Int32)

  /** Score is never negative and never above the high score. */
  predicate Inv(c: Counters) {
    0 <= c.score <= c.highScore
  }

  /** `incrementScore`: one more point (with Java `int` wrap-around), and the
      high score follows the score upwards. */
  function Incremented(c: Counters): (r: Counters)
    ensures c.score < MaxInt ==> r.score == c.score + 1
    ensures c.score == MaxInt ==> r.score == MinInt
    ensures r.highScore == c.highScore || r.highScore == r.score
    ensures r.highScore >= c.highScore && r.highScore >= r.score
    ensures r.timeLeft == c.timeLeft
  {
    var s := Wrap(c.score + 1);
    Counters(s, if s > c.highScore then s else c.highScore, c.timeLeft)
  }

  /** `decrementScore(amount)`: `Math.max(0, score - amount)` on Java `int`s. */
  function ScoreDecremented(c: Counters, amount: Int32): (r: Counters)
    ensures r.score >= 0
    ensures 0 <= amount <= c.score ==> r.score == c.score - amount
    ensures 0 <= c.score <= amount ==> r.score == 0
    ensures 0 <= amount && 0 <= c.score ==> r.score <= c.score
    ensures r.highScore == c.highScore && r.timeLeft == c.timeLeft
  {
    var d := Wrap(c.score - amount);
    c.(score := if 0 > d then 0 else d)
  }

  /** `decrementTime`: one second less, with no clamping at zero. */
  function TimeDecremented(c: Counters): (r: Counters)
    ensures c.timeLeft > MinInt ==> r.timeLeft == c.timeLeft - 1
    ensures c.timeLeft <= 0 && c.timeLeft > MinInt ==> r.timeLeft < 0
    ensures r.score == c.score && r.highScore == c.highScore
  {
    c.(timeLeft := Wrap(c.timeLeft - 1))
  }

  /** `reset(initialTime)`: a new round; the high score is kept. */
  function ResetTo(c: Counters, initialTime: Int32): (r: Counters)
    ensures r.score == 0 && r.timeLeft == initialTime
    ensures r.highScore == c.highScore
    ensures Inv(r) <==> c.highScore >= 0
  {
    Counters(0, c.highScore, initialTime)
  }

  /** The high score read from the file's text: the trimmed text as an `int`,
      or 0 when the file is missing or the text is not an `int`. */
  function LoadedHighScore(content: Option<string>): (h: Int32)
    ensures content.None? ==> h == 0
    ensures content.Some? && ParseInt(Trim(content.value)).None? ==> h == 0
    ensures content.Some? && ParseInt(Trim(content.value)).Some? ==> h == ParseInt(Trim(content.value)).value
  {
    match content
    case None => 0
    case Some(text) =>
      match ParseInt(Trim(text))
      case None => 0
      case Some(v) => v
  }

  /** The text `saveHighScore` writes. */
  function SavedHighScore(h: Int32): string {
    DecimalText(h)
  }

  /** Saving a high score and loading it back gives the same number. */
  lemma HighScoreRoundTrip(h: Int32)
    ensures LoadedHighScore(Some(SavedHighScore(h))) == h
  {
    TrimSurrounded([], DecimalText(h), []);
    assert [] + DecimalText(h) + [] == DecimalText(h);
    ParseDecimalText(h);
  }

  /** Whitespace and line breaks around the number do not matter on load. */
  lemma HighScoreIgnoresSurroundingBlanks(h: Int32, pre: string, post: string)
    requires AllTrimmable(pre) && AllTrimmable(post)
    ensures LoadedHighScore(Some(pre + SavedHighScore(h) + post)) == h
  {
    TrimSurrounded(pre, DecimalText(h), post);
    ParseDecimalText(h);
  }

  /** The operations a session applies to its `GameState`. */
  datatype Op = IncrementScore | DecrementScore(amount: Int32) | DecrementTime | Reset(initialTime: Int32)

  function Step(c: Counters, op: Op): Counters {
    match op
    case IncrementScore => Incremented(c)
    case DecrementScore(a) => ScoreDecremented(c, a)
    case DecrementTime => TimeDecremented(c)
    case Reset(t) => ResetTo(c, t)
  }

  function Run(c: Counters, ops: seq<Op>): Counters
    decreases |ops|
  {
    if ops == [] then c else Run(Step(c, ops[0]), ops[1..])
  }

  function Increments(ops: seq<Op>): nat {
    if ops == [] then 0 else (if ops[0].IncrementScore? then 1 else 0) + Increments(ops[1..])
  }

  predicate NonNegativePenalties(ops: seq<Op>) {
    forall i :: 0 <= i < |ops| ==> (ops[i].DecrementScore? ==> ops[i].amount >= 0)
  }

  /** `0 <= score <= highScore` survives any sequence of increments,
      non-negative decrements, clock ticks and resets, as long as the
      increments cannot push the score past the largest `int`; the high
      score never decreases and rises by at most one per increment. */
  lemma {:induction false} RunKeepsInv(c: Counters, ops: seq<Op>)
    requires Inv(c) && NonNegativePenalties(ops)
    requires c.highScore + Increments(ops) <= MaxInt
    ensures Inv(Run(c, ops))
    ensures c.highScore <= Run(c, ops).highScore <= c.highScore + Increments(ops)
    decreases |ops|
  {
    if ops != [] {
      var next := Step(c, ops[0]);
      assert NonNegativePenalties(ops[1..]) by {
        forall i | 0 <= i < |ops[1..]| ensures ops[1..][i].DecrementScore? ==> ops[1..][i].amount >= 0 {
          assert ops[1..][i] == ops[i + 1];
        }
      }
      assert ops[0].DecrementScore? ==> ops[0].amount >= 0;
      assert Inv(next);
      assert next.highScore <= c.highScore + (if ops[0].IncrementScore? then 1 else 0);
      RunKeepsInv(next, ops[1..]);
    }
  }

  /** A negative penalty is outside what the invariant covers: it can lift the
      score above the high score. */
  lemma NegativePenaltyBreaksInv()
    ensures Inv(Counters(0, 0, 30)) && !Inv(ScoreDecremented(Counters(0, 0, 30), -1))
  {
  }

  /** A decoy click on a score below the penalty leaves the score at zero. */
  lemma DecoyClickClampsAtZero(c: Counters)
    requires 0 <= c.score < FakeButtonPenalty
    ensures ScoreDecremented(c, FakeButtonPenalty) == c.(score := 0)
  {
  }

  /** Applying new settings resets the live state and then reloads its high
      score from the file: the invariant then holds exactly when the stored
      high score is not negative. */
  lemma ResetThenLoadInv(c: Counters, initialTime: Int32, content: Option<string>)
    ensures var r := ResetTo(c, initialTime).(highScore := LoadedHighScore(content));
            r.score == 0 && r.timeLeft == initialTime && (Inv(r) <==> LoadedHighScore(content) >= 0)
  {
  }

  /** A file holding a negative number is loaded as it stands. */
  lemma NegativeStoredHighScore()
    ensures LoadedHighScore(Some(" -3\n")) == -3
  {
    TrimSurrounded(" ", "-3", "\n");
    assert " " + "-3" + "\n" == " -3\n";
    ParseDecimalText(-3);
    assert DecimalText(-3) == "-3";
  }

  /** A file abstracted to its optional text: `None` when it does not exist or
      cannot be read; `writable` says whether a write to it would succeed. */
  class TextFile {
    var content: Option<string>
    var writable: bool

    constructor (content: Option<string>, writable: bool)
      ensures this.content == content && this.writable == writable
    {
      this.content := content;
      this.writable := writable;
    }
  }

  class GameState {
    var score: Int32
    var highScore: Int32
    var timeLeft: Int32

    function Snapshot(): Counters
      reads this
    {
      Counters(score, highScore, timeLeft)
    }

    constructor (initialTime: Int32)
      ensures Snapshot() == Counters(0, 0, initialTime)
      ensures Inv(Snapshot())
    {
      score := 0;
      highScore := 0;
      timeLeft := initialTime;
    }

    method IncrementScore()
      modifies this
      ensures Snapshot() == Incremented(old(Snapshot()))
    {
      score := Wrap(score + 1);
      if score > highScore {
        highScore := score;
      }
    }

    method DecrementScore(amount: Int32)
      modifies this
      ensures Snapshot() == ScoreDecremented(old(Snapshot()), amount)
    {
      var d := Wrap(score - amount);
      score := if 0 > d then 0 else d;
    }

    method Reset(initialTime: Int32)
      modifies this
      ensures Snapshot() == ResetTo(old(Snapshot()), initialTime)
    {
      score := 0;
      timeLeft := initialTime;
    }

    method DecrementTime()
      modifies this
      ensures Snapshot() == TimeDecremented(old(Snapshot()))
    {
      timeLeft := Wrap(timeLeft - 1);
    }

    /** Overwrites the file with the high score's decimal text; a failed
        write is ignored and leaves the file as it was. */
    method SaveHighScore(file: TextFile)
      modifies file`content
      ensures file.content == if file.writable then Some(SavedHighScore(highScore)) else old(file.content)
    {
      if file.writable {
        file.content := Some(DecimalText(highScore));
      }
    }

    method LoadHighScore(file: TextFile)
      modifies this
      ensures Snapshot() == old(Snapshot()).(highScore := LoadedHighScore(file.content))
    {
      if file.content.Some? {
        var parsed := ParseInt(Trim(file.content.value));
        if parsed.Some? {
          highScore := parsed.value;
        } else {
          highScore := 0;
        }
      } else {
        highScore := 0;
      }
    }
  }

  /** The session played through one `GameState`: three hits, one decoy
      click, a reset. */
  method ScoringSession() returns (final: Counters)
    ensures final == Counters(0, 3, 30)
  {
    var state := new GameState(30);
    state.IncrementScore();
    assert state.Snapshot() == Counters(1, 1, 30);
    state.IncrementScore();
    assert state.Snapshot() == Counters(2, 2, 30);
    state.IncrementScore();
    assert state.Snapshot() == Counters(3, 3, 30);
    state.DecrementScore(FakeButtonPenalty);
    assert state.Snapshot() == Counters(1, 3, 30);
    state.Reset(30);
    final := state.Snapshot();
  }

  /** Two hits, a penalty of 1, then a penalty of 5 that clamps at zero. */
  method ScoreDecrementCheck() returns (afterOne: Int32, afterFive: Int32)
    ensures afterOne == 1 && afterFive == 0
  {
    var state := new GameState(30);
    state.IncrementScore();
    state.IncrementScore();
    state.DecrementScore(1);
    afterOne := state.score;
    state.DecrementScore(5);
    afterFive := state.score;
  }

  /** A hit and a clock tick, then a reset to 20 seconds. */
  method ResetAndTimeCheck() returns (afterTick: Int32, afterReset: Counters)
    ensures afterTick == 29
    ensures afterReset.score == 0 && afterReset.timeLeft == 20 && afterReset.highScore == 1
  {
    var state := new GameState(30);
    state.IncrementScore();
    state.DecrementTime();
    afterTick := state.timeLeft;
    state.Reset(20);
    afterReset := state.Snapshot();
  }

  /** A high score saved by one session is the high score a fresh session
      loads. */
  method HighScorePersists(played: GameState, initialTime: Int32) returns (loaded: GameState)
    ensures fresh(loaded)
    ensures loaded.Snapshot() == Counters(0, played.highScore, initialTime)
  {
    var file := new TextFile(None, true);
    played.SaveHighScore(file);
    loaded := new GameState(initialTime);
    loaded.LoadHighScore(file);
    HighScoreRoundTrip(played.highScore);
  }
}
