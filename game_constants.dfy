/** The values of `GameConstants` that the model uses. */
module GameConstants {
  import opened JavaLang

  const NumFakeButtons: Int32 := 2
  const GameTimeSeconds: Int32 := 30
  const MoveIntervalMs: Int32 := 1000
  const MainButtonStartWidth: Int32 := 100
  const MainButtonStartHeight: Int32 := 50

  /** What one click on a decoy button takes off the score. */
  const FakeButtonPenalty: Int32 := 2
}
