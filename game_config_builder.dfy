/** `GameConfigBuilder`: a fluent builder for `Settings`, with two preset
    configurations. */
module Builders {
  import opened JavaLang
  import opened UserSettings
  import GameConstants

  /** A fresh builder's fields, taken from `GameConstants`: two decoys and a
      100 x 50 button, where a fresh `Settings` has three decoys and a
      140 x 60 button. */
  const BuilderDefaults := Config(GameConstants.GameTimeSeconds, GameConstants.NumFakeButtons, GameConstants.MoveIntervalMs,
                                  true, GameConstants.MainButtonStartWidth, GameConstants.MainButtonStartHeight)

  const QuickGame := Config(15, 1, 1500, true, 100, 50)
  const ChallengeGame := Config(60, 5, 800, true, 80, 40)

  class GameConfigBuilder {
    var gameDurationSeconds: Int32
    var numFakeButtons: Int32
    var moveIntervalMs: Int32
    var soundEnabled: bool
    var mainButtonStartWidth: Int32
    var mainButtonStartHeight: Int32

    function Snapshot(): Config
      reads this
    {
      Config(gameDurationSeconds, numFakeButtons, moveIntervalMs, soundEnabled,
             mainButtonStartWidth, mainButtonStartHeight)
    }

    constructor ()
      ensures Snapshot() == BuilderDefaults
      ensures Snapshot() != DefaultConfig
      ensures Snapshot().numFakeButtons < DefaultConfig.numFakeButtons
    {
      gameDurationSeconds := GameConstants.GameTimeSeconds;
      numFakeButtons := GameConstants.NumFakeButtons;
      moveIntervalMs := GameConstants.MoveIntervalMs;
      soundEnabled := true;
      mainButtonStartWidth := GameConstants.MainButtonStartWidth;
      mainButtonStartHeight := GameConstants.MainButtonStartHeight;
    }

    method WithGameDuration(seconds: Int32) returns (b: GameConfigBuilder)
      modifies this
      ensures b == this
      ensures Snapshot() == old(Snapshot()).(gameDurationSeconds := seconds)
    {
      gameDurationSeconds := seconds;
      b := this;
    }

    method WithFakeButtons(count: Int32) returns (b: GameConfigBuilder)
      modifies this
      ensures b == this
      ensures Snapshot() == old(Snapshot()).(numFakeButtons := count)
    {
      numFakeButtons := count;
      b := this;
    }

    method WithMoveInterval(ms: Int32) returns (b: GameConfigBuilder)
      modifies this
      ensures b == this
      ensures Snapshot() == old(Snapshot()).(moveIntervalMs := ms)
    {
      moveIntervalMs := ms;
      b := this;
    }

    method WithSound(enabled: bool) returns (b: GameConfigBuilder)
      modifies this
      ensures b == this
      ensures Snapshot() == old(Snapshot()).(soundEnabled := enabled)
    {
      soundEnabled := enabled;
      b := this;
    }

    /** Sets width and height together. */
    method WithMainButtonSize(width: Int32, height: Int32) returns (b: GameConfigBuilder)
      modifies this
      ensures b == this
      ensures Snapshot() == old(Snapshot()).(mainButtonStartWidth := width, mainButtonStartHeight := height)
    {
      mainButtonStartWidth := width;
      mainButtonStartHeight := height;
      b := this;
    }

    /** A new `Settings` filled in through its setters; it holds whatever
        the builder holds, its own defaults overwritten. */
    method Build() returns (settings: Settings)
      ensures fresh(settings)
      ensures settings.Snapshot() == Snapshot()
    {
      settings := new Settings();
      settings.SetGameDurationSeconds(gameDurationSeconds);
      settings.SetNumFakeButtons(numFakeButtons);
      settings.SetMoveIntervalMs(moveIntervalMs);
      settings.SetSoundEnabled(soundEnabled);
      settings.SetMainButtonStartWidth(mainButtonStartWidth);
      settings.SetMainButtonStartHeight(mainButtonStartHeight);
    }
  }

  /** Shorter, slower, fewer decoys; sound and button size from the builder's
      defaults. */
  method CreateQuickGame() returns (settings: Settings)
    ensures fresh(settings)
    ensures settings.Snapshot() == QuickGame
  {
    var builder := new GameConfigBuilder();
    builder := builder.WithGameDuration(15);
    builder := builder.WithFakeButtons(1);
    builder := builder.WithMoveInterval(1500);
    settings := builder.Build();
  }

  /** Longer, faster, more decoys and a smaller button. */
  method CreateChallengeGame() returns (settings: Settings)
    ensures fresh(settings)
    ensures settings.Snapshot() == ChallengeGame
  {
    var builder := new GameConfigBuilder();
    builder := builder.WithGameDuration(60);
    builder := builder.WithFakeButtons(5);
    builder := builder.WithMoveInterval(800);
    builder := builder.WithMainButtonSize(80, 40);
    settings := builder.Build();
  }

  /** Calling the same `with` method twice keeps the second value. */
  method LastWriteWins(b: GameConfigBuilder, first: Int32, second: Int32) returns (settings: Settings)
    modifies b
    ensures fresh(settings)
    ensures settings.numFakeButtons == second
    ensures settings.Snapshot() == old(b.Snapshot()).(numFakeButtons := second)
  {
    var same := b.WithFakeButtons(first);
    same := same.WithFakeButtons(second);
    settings := b.Build();
  }
}
