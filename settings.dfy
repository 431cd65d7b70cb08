/** `Settings`: the six user-adjustable gameplay options. */
module UserSettings {
  import opened JavaLang

  /** The six fields of a `Settings` object, as a value. */
  datatype Config = Config(
    gameDurationSeconds: Int32,
    numFakeButtons: Int32,
    moveIntervalMs: Int32,
    soundEnabled: bool,
    mainButtonStartWidth: Int32,
    mainButtonStartHeight: Int32)

  /** The field initialisers of `Settings`. */
  const DefaultConfig := Config(30, 3, 1000, true, 140, 60)

  /** A mutable options record; the setters store any `int`, with no range
      check. Dafny reads the fields directly where Java calls a getter. */
  class Settings {
    var gameDurationSeconds: Int32
    var numFakeButtons: Int32
    var moveIntervalMs: Int32
    var soundEnabled: bool
    var mainButtonStartWidth: Int32
    var mainButtonStartHeight: Int32

    function Snapshot(): Config
      reads this
    {
      Config(gameDurationSeconds, numFakeButtons, moveIntervalMs, soundEnabled,
             mainButtonStartWidth, mainButtonStartHeight)
    }

    constructor ()
      ensures Snapshot() == DefaultConfig
    {
      gameDurationSeconds := 30;
      numFakeButtons := 3;
      moveIntervalMs := 1000;
      soundEnabled := true;
      mainButtonStartWidth := 140;
      mainButtonStartHeight := 60;
    }

    method SetGameDurationSeconds(seconds: Int32)
      modifies this
      ensures Snapshot() == old(Snapshot()).(gameDurationSeconds := seconds)
    {
      gameDurationSeconds := seconds;
    }

    method SetNumFakeButtons(num: Int32)
      modifies this
      ensures Snapshot() == old(Snapshot()).(numFakeButtons := num)
    {
      numFakeButtons := num;
    }

    method SetMoveIntervalMs(ms: Int32)
      modifies this
      ensures Snapshot() == old(Snapshot()).(moveIntervalMs := ms)
    {
      moveIntervalMs := ms;
    }

    method SetSoundEnabled(enabled: bool)
      modifies this
      ensures Snapshot() == old(Snapshot()).(soundEnabled := enabled)
    {
      soundEnabled := enabled;
    }

    method SetMainButtonStartWidth(width: Int32)
      modifies this
      ensures Snapshot() == old(Snapshot()).(mainButtonStartWidth := width)
    {
      mainButtonStartWidth := width;
    }

    method SetMainButtonStartHeight(height: Int32)
      modifies this
      ensures Snapshot() == old(Snapshot()).(mainButtonStartHeight := height)
    {
      mainButtonStartHeight := height;
    }
  }
}
