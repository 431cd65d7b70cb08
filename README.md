# Click the Button: a verified model of the game's state core

*Click the Button* is a Swing game. A main button scores a point, and decoy buttons cost points. This project models in Dafny the part of the game that holds and persists state. It then proves what that code promises. The parts modelled are:

- **`GameState`** (`game_state.dfy`, module `GameLogic`) is the score, high-score and countdown tracker. It has in-place updates, and it saves and loads the high score through a text file.
- **`Settings`** (`settings.dfy`, module `UserSettings`) is the six-field options record, with its defaults and setters.
- **`SettingsPersistence`** (`settings_persistence.dfy`) maps a `Settings` to six key/value pairs and loads it back key by key. A malformed integer stops the load part-way.
- **`GameConfigBuilder`** (`game_config_builder.dfy`, module `Builders`) is the fluent builder with its two presets. Its defaults come from `GameConstants` and differ from the `Settings` defaults.
- **`ButtonManager.createFakeButtons` / `getFakeButtons`** (`button_manager.dfy`, module `DecoyButtons`) rebuild the decoys. The previous decoys are removed from the parent panel, and a new array of `numFakeButtons` decoys is allocated and appended.
- **`LabelPool`** (`label_pool.dfy`, module `LabelPooling`) is the FIFO pool of floating-score labels, capped at ten.
- **`ColorCache`** (`color_cache.dfy`, module `ColorCaching`) memoises darker, brighter and translucent colours under prefixed string keys.

Supporting modules:

- `java_lang.dfy` (`JavaLang`) models these Java library calls:
  - `int` wrap-around;
  - `String.valueOf(int)`;
  - `Integer.parseInt`;
  - `String.trim`;
  - `Boolean.parseBoolean`.
- `awt.dfy` (`Awt`) models `java.awt.Color` channels and `getRGB` packing.
- `game_constants.dfy` (`GameConstants`) holds the `GameConstants` values the model uses.
- `wrappers.dfy` holds `Option`.

Classes whose Java fields change in place are Dafny classes:

- Each state-changing method relates its new state to a specification function of the old state, for example `Snapshot() == Incremented(old(Snapshot()))`.
- Lemmas then prove the promised properties about those functions.

A file is abstracted to its content:

- for the high score, an optional string (`TextFile`);
- for settings, missing, unreadable, or a key/value map (`StoredFile`).

A `writable` flag stands for whether a write would succeed. The Java `int` is the subset type `Int32`. Overflow is written out with `Wrap`.

## Model

| member | source | states |
|---|---|---|
| GameLogic.Incremented | src/main/java/com/andernet/experiment/logic/GameState.java:18-21 | score rises by exactly one (from the largest `int` it wraps to the smallest); the high score becomes the larger of the old high score and the new score; time is unchanged |
| GameLogic.ScoreDecremented | src/main/java/com/andernet/experiment/logic/GameState.java:22-24 | the score never goes negative; for a non-negative score it drops by the amount when a non-negative amount fits, becomes 0 when the amount is at least the score, and never rises for a non-negative amount; high score and time unchanged |
| GameLogic.TimeDecremented | src/main/java/com/andernet/experiment/logic/GameState.java:30 | time drops by exactly one (from the smallest `int` it wraps to the largest) with no clamp, so it goes negative from zero; score and high score unchanged |
| GameLogic.ResetTo | src/main/java/com/andernet/experiment/logic/GameState.java:25-29 | score 0, time the given initial time, high score kept; the result satisfies the score invariant exactly when the high score is non-negative |
| GameLogic.LoadedHighScore | src/main/java/com/andernet/experiment/logic/GameState.java:40-52 | a missing file, or trimmed text that is not an `int`, gives 0; otherwise the parsed trimmed text |
| GameLogic.HighScoreRoundTrip | src/main/java/com/andernet/experiment/logic/GameState.java:32-52 | the text saved for any high score loads back as that high score |
| GameLogic.HighScoreIgnoresSurroundingBlanks | src/main/java/com/andernet/experiment/logic/GameState.java:43-44 | blanks and line breaks around the saved number do not change the loaded value |
| GameLogic.RunKeepsInv | src/main/java/com/andernet/experiment/logic/GameState.java:18-30 | any sequence of increments, non-negative decrements, ticks and resets keeps `0 <= score <= highScore` (while increments cannot overflow); the high score never falls and rises by at most one per increment |
| GameLogic.NegativePenaltyBreaksInv | src/main/java/com/andernet/experiment/logic/GameState.java:22-24 | a negative amount can lift the score above the high score, so the invariant needs non-negative penalties |
| GameLogic.DecoyClickClampsAtZero | src/main/java/com/andernet/experiment/logic/GameConstants.java:43 | a decoy-click penalty of 2 on a score below 2 leaves the score at exactly 0 and the rest unchanged |
| GameLogic.GameState.constructor | src/main/java/com/andernet/experiment/logic/GameState.java:6-12 | a new state has score 0, high score 0 and the given time, and satisfies the invariant |
| GameLogic.GameState.IncrementScore | src/main/java/com/andernet/experiment/logic/GameState.java:18-21 | the new state is `Incremented` of the old one |
| GameLogic.GameState.DecrementScore | src/main/java/com/andernet/experiment/logic/GameState.java:22-24 | the new state is `ScoreDecremented` of the old one |
| GameLogic.GameState.Reset | src/main/java/com/andernet/experiment/logic/GameState.java:25-29 | the new state is `ResetTo` of the old one, so the high score persists |
| GameLogic.GameState.DecrementTime | src/main/java/com/andernet/experiment/logic/GameState.java:30 | the new state is `TimeDecremented` of the old one |
| GameLogic.GameState.SaveHighScore | src/main/java/com/andernet/experiment/logic/GameState.java:32-38 | a writable file then holds the high score's decimal text; a failed write is ignored and the file keeps its content |
| GameLogic.GameState.LoadHighScore | src/main/java/com/andernet/experiment/logic/GameState.java:40-52 | only the high score changes, to `LoadedHighScore` of the file's content |
| GameLogic.ScoringSession | src/main/java/com/andernet/experiment/logic/GameState.java:18-29 | three hits, a decoy click (penalty 2) and a reset on a 30-second state end at score 0, high score 3, time 30 |
| GameLogic.ScoreDecrementCheck | src/test/java/com/andernet/experiment/logic/GameStateTest.java:22-30 | two hits then a penalty of 1 leave score 1; a further penalty of 5 leaves score 0 |
| GameLogic.ResetAndTimeCheck | src/test/java/com/andernet/experiment/logic/GameStateTest.java:33-41 | a hit and a clock tick leave 29 seconds; a reset to 20 gives score 0, time 20 and keeps the high score 1 |
| GameLogic.ResetThenLoadInv | src/main/java/com/andernet/experiment/handlers/SettingsButtonClickHandler.java:60-61 | after applying new settings (reset, then reload the high score), score is 0 and time is the new duration, and the invariant holds exactly when the stored high score is not negative |
| GameLogic.NegativeStoredHighScore | src/main/java/com/andernet/experiment/logic/GameState.java:43-45 | a file holding a negative number (with surrounding blanks) loads as that negative high score |
| GameLogic.HighScorePersists | src/test/java/com/andernet/experiment/logic/GameStateTest.java:49-53 | a high score saved by one state is the high score a fresh state loads, with score 0 and the fresh time |
| JavaLang.Wrap | src/main/java/com/andernet/experiment/logic/GameState.java:19 | two's-complement reduction: identity on `int` values, otherwise congruent modulo 2^32 |
| JavaLang.NatText | src/main/java/com/andernet/experiment/logic/GameState.java:34 | the decimal digits of a natural number: non-empty, only digits, no leading zero |
| JavaLang.DecimalText | src/main/java/com/andernet/experiment/settings/SettingsPersistence.java:15-20 | `String.valueOf(int)`: non-empty, only digits and a minus sign |
| JavaLang.ParseInt | src/main/java/com/andernet/experiment/logic/GameState.java:44 | `Integer.parseInt` accepts only non-empty text without blanks; an accepted pure digit string reads as its decimal value; the result is non-positive after a leading minus and non-negative otherwise |
| JavaLang.ParseIntAccepts | src/main/java/com/andernet/experiment/logic/GameState.java:44 | every optional sign (`+`, `-` or none) followed by at least one digit, leading zeros included, is accepted exactly when its signed value is an `int`, and reads as that value |
| JavaLang.ParseIntRejects | src/main/java/com/andernet/experiment/logic/GameState.java:44 | the empty text, a lone sign, and any text holding a character that is neither a digit nor a leading sign are rejected |
| JavaLang.NatTextValue | src/main/java/com/andernet/experiment/logic/GameState.java:34 | reading back the digits of a number gives the number |
| JavaLang.ParseDecimalText | src/main/java/com/andernet/experiment/settings/SettingsPersistence.java:15-36 | parsing the decimal text of any `int` gives that `int` |
| JavaLang.DecimalTextInjective | src/main/java/com/andernet/experiment/util/ColorCache.java:16 | two `int`s with the same decimal text are equal |
| JavaLang.Trim | src/main/java/com/andernet/experiment/logic/GameState.java:43 | `String.trim` leaves no character at or below U+0020 at either end |
| JavaLang.TrimSurrounded | src/main/java/com/andernet/experiment/logic/GameState.java:43 | trimming text whose ends are not blank, surrounded by blanks, gives that text back |
| JavaLang.ParseBoolean | src/main/java/com/andernet/experiment/settings/SettingsPersistence.java:41-42 | true exactly for "true" in any letter case, false for everything else, so it never fails |
| JavaLang.BooleanText | src/main/java/com/andernet/experiment/settings/SettingsPersistence.java:18 | the text written for a boolean parses back to it |
| UserSettings.Settings.constructor | src/main/java/com/andernet/experiment/settings/Settings.java:7-12 | defaults 30 s, 3 decoys, 1000 ms, sound on, 140 x 60 |
| UserSettings.Settings.SetGameDurationSeconds | src/main/java/com/andernet/experiment/settings/Settings.java:16 | stores any `int` and changes no other field |
| UserSettings.Settings.SetNumFakeButtons | src/main/java/com/andernet/experiment/settings/Settings.java:19 | stores any `int` and changes no other field |
| UserSettings.Settings.SetMoveIntervalMs | src/main/java/com/andernet/experiment/settings/Settings.java:22 | stores any `int` and changes no other field |
| UserSettings.Settings.SetSoundEnabled | src/main/java/com/andernet/experiment/settings/Settings.java:25 | stores the flag and changes no other field |
| UserSettings.Settings.SetMainButtonStartWidth | src/main/java/com/andernet/experiment/settings/Settings.java:28 | stores any `int` and changes no other field |
| UserSettings.Settings.SetMainButtonStartHeight | src/main/java/com/andernet/experiment/settings/Settings.java:31 | stores any `int` and changes no other field |
| SettingsPersistence.SetField | src/main/java/com/andernet/experiment/settings/SettingsPersistence.java:35-46 | setting one key's field gives it the new value and leaves the other five keys' fields unchanged |
| SettingsPersistence.FieldsDetermineConfig | src/main/java/com/andernet/experiment/settings/SettingsPersistence.java:35-46 | the six keys cover every field: two configurations that agree on them are equal |
| SettingsPersistence.ParseField | src/main/java/com/andernet/experiment/settings/SettingsPersistence.java:35-46 | the sound key always parses; a parsed value has the field's type |
| SettingsPersistence.ParseFieldText | src/main/java/com/andernet/experiment/settings/SettingsPersistence.java:15-46 | every field's saved text parses back, under its key, to the field's value |
| SettingsPersistence.SaveProperties | src/main/java/com/andernet/experiment/settings/SettingsPersistence.java:14-20 | exactly the six keys; each holds its field's text; sound is "true" or "false" |
| SettingsPersistence.LoadFile | src/main/java/com/andernet/experiment/settings/SettingsPersistence.java:29-50 | a missing file leaves the settings untouched with no error; an unreadable one leaves them untouched and reports an error |
| SettingsPersistence.LoadKeysFields | src/main/java/com/andernet/experiment/settings/SettingsPersistence.java:35-46 | after a load with no error, a present key's field holds its parsed value; an absent key's field keeps its prior value |
| SettingsPersistence.LoadKeysFailure | src/main/java/com/andernet/experiment/settings/SettingsPersistence.java:35-48 | a load reports an error exactly when some present integer key holds text that is not an `int` |
| SettingsPersistence.LoadKeysAppend | src/main/java/com/andernet/experiment/settings/SettingsPersistence.java:35-46 | loading a key list is loading its first part, then its second from there, unless the first part failed |
| SettingsPersistence.SettingsKeysDistinct | src/main/java/com/andernet/experiment/settings/SettingsPersistence.java:15-20 | the six keys are pairwise distinct |
| SettingsPersistence.LoadStopsAtMalformed | src/main/java/com/andernet/experiment/settings/SettingsPersistence.java:35-50 | at the first malformed key, the load reports an error; earlier keys have their new values, that key and all later ones keep their old values |
| SettingsPersistence.SaveLoadRoundTrip | src/test/java/com/andernet/experiment/settings/SettingsPersistenceTest.java:11-26 | loading what was saved reproduces every field without error, whatever the prior settings |
| SettingsPersistence.Save | src/main/java/com/andernet/experiment/settings/SettingsPersistence.java:13-27 | a writable file then holds the saved properties; otherwise an error is reported and the file is unchanged; the settings are never modified |
| SettingsPersistence.LoadKeyInto | src/main/java/com/andernet/experiment/settings/SettingsPersistence.java:35-46 | one key's load applied through the setters: the new state is `LoadKey` of the old one, or unchanged on failure |
| SettingsPersistence.Load | src/main/java/com/andernet/experiment/settings/SettingsPersistence.java:29-51 | the new settings and the error flag are those of `LoadFile` on the old settings and the file |
| SettingsPersistence.SaveThenLoadFresh | src/test/java/com/andernet/experiment/settings/SettingsPersistenceTest.java:11-26 | saving and loading into a new `Settings` reproduces every field, with no error |
| Builders.GameConfigBuilder.constructor | src/main/java/com/andernet/experiment/builders/GameConfigBuilder.java:10-15 | defaults 30 s, 2 decoys, 1000 ms, sound on, 100 x 50 from `GameConstants`, which differ from the `Settings` defaults (fewer decoys) |
| Builders.GameConfigBuilder.WithGameDuration | src/main/java/com/andernet/experiment/builders/GameConfigBuilder.java:17-20 | sets only the duration and returns the same builder |
| Builders.GameConfigBuilder.WithFakeButtons | src/main/java/com/andernet/experiment/builders/GameConfigBuilder.java:22-25 | sets only the decoy count and returns the same builder |
| Builders.GameConfigBuilder.WithMoveInterval | src/main/java/com/andernet/experiment/builders/GameConfigBuilder.java:27-30 | sets only the interval and returns the same builder |
| Builders.GameConfigBuilder.WithSound | src/main/java/com/andernet/experiment/builders/GameConfigBuilder.java:32-35 | sets only the sound flag and returns the same builder |
| Builders.GameConfigBuilder.WithMainButtonSize | src/main/java/com/andernet/experiment/builders/GameConfigBuilder.java:37-41 | sets width and height together, nothing else, and returns the same builder |
| Builders.GameConfigBuilder.Build | src/main/java/com/andernet/experiment/builders/GameConfigBuilder.java:43-52 | a new `Settings` whose six fields equal the builder's |
| Builders.CreateQuickGame | src/main/java/com/andernet/experiment/builders/GameConfigBuilder.java:57-63 | 15 s, 1 decoy, 1500 ms, sound on, 100 x 50 |
| Builders.CreateChallengeGame | src/main/java/com/andernet/experiment/builders/GameConfigBuilder.java:68-75 | 60 s, 5 decoys, 800 ms, sound on, 80 x 40 |
| Builders.LastWriteWins | src/main/java/com/andernet/experiment/builders/GameConfigBuilder.java:22-25 | two calls of `withFakeButtons` keep the second value and change nothing else |
| DecoyButtons.Without | src/main/java/com/andernet/experiment/logic/ButtonManager.java:32 | the children left after removals hold none of the removed ones and every other child, and are no longer than before; their order is fixed by the definition, a filter, and stated by `WithoutConcat` |
| DecoyButtons.WithoutTwice | src/main/java/com/andernet/experiment/logic/ButtonManager.java:31-33 | removing one list and then another is removing both |
| DecoyButtons.WithoutConcat | src/main/java/com/andernet/experiment/logic/ButtonManager.java:32 | removal distributes over concatenation |
| DecoyButtons.WithoutMembership | src/main/java/com/andernet/experiment/logic/ButtonManager.java:32 | a component remains exactly when it was present and not removed |
| DecoyButtons.WithoutCovered | src/main/java/com/andernet/experiment/logic/ButtonManager.java:32 | removing every element of a list leaves nothing |
| DecoyButtons.WithoutAbsent | src/main/java/com/andernet/experiment/logic/ButtonManager.java:31 | removing components that are not children changes nothing |
| DecoyButtons.Panel.Remove | src/main/java/com/andernet/experiment/logic/ButtonManager.java:32 | the panel's children lose that component and keep the rest in order |
| DecoyButtons.Panel.Add | src/main/java/com/andernet/experiment/logic/ButtonManager.java:46 | the component is moved to the end of the children |
| DecoyButtons.ButtonManager.constructor | src/main/java/com/andernet/experiment/logic/ButtonManager.java:21-28 | no decoy array yet |
| DecoyButtons.ButtonManager.RemoveDecoys | src/main/java/com/andernet/experiment/logic/ButtonManager.java:31-33 | the panel's children are the old ones without the current decoys; with no array nothing is removed |
| DecoyButtons.ButtonManager.AppendDecoys | src/main/java/com/andernet/experiment/logic/ButtonManager.java:34-47 | a new array of exactly the count, every slot a new decoy, appended to the children in index order |
| DecoyButtons.ButtonManager.CreateFakeButtons | src/main/java/com/andernet/experiment/logic/ButtonManager.java:30-48 | for a non-negative count: the old decoys are gone, other children are kept, and the new array has the configured length with non-null new decoys appended in order; a negative count fails after the removal and keeps the old array |
| DecoyButtons.ButtonManager.GetFakeButtons | src/main/java/com/andernet/experiment/logic/ButtonManager.java:58-60 | the current array, null before the first rebuild |
| DecoyButtons.RebuildTwice | src/main/java/com/andernet/experiment/logic/ButtonManager.java:30-48 | two rebuilds leave the panel's original children plus only the latest decoys, not an accumulation |
| LabelPooling.Label.constructor | src/main/java/com/andernet/experiment/util/LabelPool.java:20 | a new label is empty, at the origin, with no size and default font and colour |
| LabelPooling.LabelPool.constructor | src/main/java/com/andernet/experiment/util/LabelPool.java:11-12 | an empty pool within the bound |
| LabelPooling.LabelPool.GetLabel | src/main/java/com/andernet/experiment/util/LabelPool.java:17-25 | a non-empty pool hands out its head and drops it (FIFO); an empty pool makes a new bold 20-point Segoe UI centred label and stays empty; the pool stays within ten |
| LabelPooling.LabelPool.ReturnLabel | src/main/java/com/andernet/experiment/util/LabelPool.java:30-40 | below ten, the label is reset (empty text, black, at 0,0, 50 x 30) and queued at the tail; a full pool leaves both the pool and the label untouched; the pool stays within ten |
| LabelPooling.Recycle | src/main/java/com/andernet/experiment/util/LabelPool.java:18-38 | a label returned to an empty pool is the next one handed out, reset to empty text, black, at 0,0 and 50 x 30, and the pool is empty again |
| Awt.Packed | src/main/java/com/andernet/experiment/util/ColorCache.java:16 | the unsigned packed ARGB value fits in 32 bits |
| Awt.RGBRoundTrip | src/main/java/com/andernet/experiment/util/ColorCache.java:16 | unpacking `getRGB` gives back all four channels |
| Awt.GetRGBInjective | src/main/java/com/andernet/experiment/util/ColorCache.java:16 | two colours with the same `getRGB` are the same colour |
| ColorCaching.Translucent | src/main/java/com/andernet/experiment/util/ColorCache.java:33-38 | keeps red, green and blue and takes the given alpha; fails exactly when alpha is outside 0..255 |
| ColorCaching.KeyFamiliesDisjoint | src/main/java/com/andernet/experiment/util/ColorCache.java:16-32 | darker, brighter and translucent keys never collide |
| ColorCaching.DarkerKeyInjective | src/main/java/com/andernet/experiment/util/ColorCache.java:16 | different colours have different darker keys |
| ColorCaching.BrighterKeyInjective | src/main/java/com/andernet/experiment/util/ColorCache.java:24 | different colours have different brighter keys |
| ColorCaching.SplitAtSeparator | src/main/java/com/andernet/experiment/util/ColorCache.java:32 | texts free of `_`, each followed by `_` and a tail, match only part by part |
| ColorCaching.TranslucentKeyInjective | src/main/java/com/andernet/experiment/util/ColorCache.java:32 | translucent keys differ for different colours and for different alphas of one colour |
| ColorCaching.ColorCache.constructor | src/main/java/com/andernet/experiment/util/ColorCache.java:10 | an empty, coherent cache |
| ColorCaching.ColorCache.GetDarkerColor | src/main/java/com/andernet/experiment/util/ColorCache.java:15-18 | the answer is always the darker colour; the first request adds exactly that entry; a repeated one leaves the map unchanged; every entry stays what its key computes |
| ColorCaching.ColorCache.GetBrighterColor | src/main/java/com/andernet/experiment/util/ColorCache.java:23-26 | the answer is always the brighter colour; the first request adds exactly that entry; a repeated one leaves the map unchanged; coherence is kept |
| ColorCaching.ColorCache.GetTranslucentColor | src/main/java/com/andernet/experiment/util/ColorCache.java:31-39 | the answer is `Translucent`; a valid alpha adds exactly its own entry; an invalid alpha fails and leaves the map as it was; a repeated request changes nothing |
| ColorCaching.ColorCache.ClearCache | src/main/java/com/andernet/experiment/util/ColorCache.java:44-46 | the map is empty, so the next request recomputes |

## Left out

- Swing and AWT rendering, layout, tool-tip and listener wiring, and `JLabel` look-and-feel defaults. A decoy keeps only its text and tool-tip; a label keeps only the fields the pool sets.
- `ButtonManager.moveFakeButtons`: it depends on `Math.random` and on floating-point ratio constants that `GameConstants` does not define.
- The main-button and decoy click handlers. Their only effect on state is one `GameState` call: `incrementScore`, or `decrementScore(2)`. The decoy-click effect is stated as `GameLogic.DecoyClickClampsAtZero`.
- The settings dialog handler's `applyNewSettings`: reset, `loadHighScore`, the decoy rebuild and `save`. Each step is modelled, but the sequence is not composed into one operation. `GameLogic.ResetThenLoadInv` states the first two together: the invariant then holds only when the stored high score is not negative. The throw-away `GameState` it builds and loads, the labels and the move timer are not modelled.
- `Color.darker()` and `Color.brighter()` are floating-point arithmetic. The cache receives them as two functions.
- Real file I/O and the `java.util.Properties` text format (escaping, header comment, timestamp). Files are abstracted to their content. A failing write is modelled as writing nothing.
- The settings file path built from `user.home`, and the error dialogs. The dialogs become an error flag.
- Character encodings, `Character.isDigit` on non-ASCII digits in `Integer.parseInt`, and non-ASCII case folding in `Boolean.parseBoolean`.
- Getters: Dafny reads the public fields directly. Each setter's contract states that the field then holds the value given.
- The static pool and static cache become instances. Concurrency in `ConcurrentLinkedQueue` and `ConcurrentHashMap` is not modelled.
- GameLogic.RunKeepsInv: requires that the increments in a sequence cannot push the score past the largest `int`. Single steps model the wrap-around exactly.
- DecoyButtons.ButtonManager.CreateFakeButtons: a negative count is an error. Java throws `NegativeArraySizeException` there, and the model reports it as `ok == false`.
- The pool and cache methods require their class invariant (`Valid()`). Java states no precondition there, but each constructor establishes the invariant and every method keeps it.
