# Music tools studio: a verified model of the core

This project models the deterministic core of a small React music-practice
app. The core has seven parts:

- **Inspiration generator.** It holds the note, scale, pattern and sound tables. It walks the 12-note chromatic circle to spell a scale. Its dice roll re-draws every unlocked field, and its lock toggles flip one lock each.
- **Flow (pomodoro) timer.** It has a count of seconds and a counting flag, changed by the reset, break and play/pause buttons and by the one-second tick. It shows the count as `mm:ss`.
- **Storage service.** It defines the key scheme of the persisted state and typed reads and writes of `localStorage`, including whole-state load and save.
- **URL sharing.** It writes the state into the page URL's query parameters, reads a URL back into a partial state, and tests whether a URL carries any state.
- **Metronome.** The image click toggles playing and the speaker click toggles mute. An interval ticks every `60000 / bpm` ms. It is re-created by an effect that depends only on `playing` and `bpm`.
- **Visualizer.** A sequence steps through the scale. Each step plays a labelled note and queues a draw. The draw runs later and sets the active-note index, which drives the bar and note highlights. Pausing resets the highlight but leaves queued draws in place. A change of scale or tempo rebuilds the sequence without starting it.
- **Theme provider.** It holds the light and dark themes and the initial dark-mode choice. It persists the mode as a token and has a toggle.

Files:

| file | module |
|---|---|
| `wrappers.dfy` | `Wrappers`: `Option` |
| `js_string.dfy` | `JsString`: the JavaScript built-ins used: `String(n)`, `Number(text)`, `trim`, `padStart`, `join`, `indexOf`, `%` |
| `tiles.dfy` | `Tiles`: the shared state record `TilesState` |
| `storage_service.dfy` | `StorageService`, with the class `LocalStorage` |
| `url_sharing.dfy` | `UrlSharing` |
| `inspiration_generator.dfy` | `InspirationGenerator`, with the class `Generator` |
| `pomodoro_timer.dfy` | `PomodoroTimer`, with the class `Timer` |
| `metronome.dfy` | `Metronome`, with the class `MetronomeComponent` |
| `visualizer.dfy` | `Visualizer`, with the class `VisualizerComponent` |
| `theme_provider.dfy` | `ThemeProvider`, with the class `ThemeState` |

Each component's state changes are:
- a pure transition function on a state datatype, such as `Metronome.AfterPlayClick` or `PomodoroTimer.TickStep`;
- a class whose methods update fields and are proved to produce that function's result;
- lemmas that prove the component's properties on the functions.

Things the browser does are abstracted as follows:
- Randomness is the `Draws` parameter of a roll: indices in range.
- Time is discrete `Tick` and `Step` events.
- `localStorage` is a string map. A flag says whether `getItem` throws. A quota function of the stored items, the key and the text says whether each `setItem` succeeds, so the seven writes of a save succeed or fail one by one.
- A parsed URL is a list of name/value pairs with `URLSearchParams` behaviour:
  - `delete` removes every pair of a name;
  - `set` replaces the first pair and drops later ones, or appends;
  - `get` returns the first.
- `JSON` and `encodeURIComponent`/`decodeURIComponent` are codec values holding two functions. Round-trip lemmas require their decoder to invert their encoder.
- The OS colour preference is a boolean parameter.

## Model

| member | source | states |
|---|---|---|
| JsString.NatToStringValue | src/components/pomodoroTimer/pomodoroTimer.tsx:70-71 | `String(n)` of a non-negative integer is a run of digits (no leading zero) that reads back as `n` |
| JsString.NumberRoundTrip | src/utils/storageService.ts:37 | `Number(String(v)) == v` for every integer and for NaN, so numbers survive a save and load |
| JsString.TrimNonEmpty | src/utils/urlSharing.ts:22 | `s.trim()` is non-empty exactly when `s` holds a character that is not ECMAScript white space |
| JsString.TrimStartIsSuffix | src/utils/urlSharing.ts:22 | trimming the start leaves a suffix of the text that starts with a non-white character |
| JsString.TrimEndIsPrefix | src/utils/urlSharing.ts:22 | trimming the end leaves a prefix of the text that ends with a non-white character |
| JsString.PadStart | src/components/pomodoroTimer/pomodoroTimer.tsx:70-71 | `padStart(width, fill)`: the result has length max(width, len), ends with the text and is filled in front |
| JsString.PadZerosValue | src/components/pomodoroTimer/pomodoroTimer.tsx:70-71 | zero-padding a run of digits keeps its value |
| JsString.IndexOf | src/components/inspirationGenerator/inspirationGenerator.tsx:92 | `indexOf` gives the first position holding the value, and -1 exactly when the value is absent |
| JsString.JsRem | src/components/inspirationGenerator/inspirationGenerator.tsx:95 | JavaScript's `%`: the result lies strictly between -n and n, agrees with the Euclidean remainder for a non-negative dividend, and is the negated remainder of the magnitude for a negative one |
| StorageService.KeysDistinct | src/utils/storageService.ts:3-17 | the eight keys all start with "tiles", are pairwise distinct, and the theme key is not a state key |
| StorageService.Serialize | src/utils/storageService.ts:37 | strings are written as they are and booleans as "true"/"false" |
| StorageService.Deserialize | src/utils/storageService.ts:56-68 | the stored text is converted by the default's type: JSON for arrays (the default where parsing throws), `Number` for numbers, `=== 'true'` for booleans, as is for strings |
| StorageService.Retrieve | src/utils/storageService.ts:47-73 | `getFromStorage` returns a value of the default's type, and the default itself when the key is absent or reading throws |
| StorageService.Store | src/utils/storageService.ts:35-42 | `saveToStorage` sets exactly `key` to the serialized value and keeps every other key when the quota takes the write; a refused (throwing) `setItem` leaves the store unchanged |
| StorageService.StoreAllOutcome | src/utils/storageService.ts:35-42 | after a run of writes to distinct keys, each key holds its text or is as it was: it holds the text when the quota always takes that write, and is as it was when the quota always refuses it; every other key is unchanged |
| StorageService.SaveThenGet | src/utils/storageService.ts:35-73 | a value whose write is taken, read back with a default of the same type, is the value saved |
| StorageService.LoadState | src/utils/storageService.ts:78-88 | an unreadable store loads `DEFAULT_STATE` |
| StorageService.StateWritesKeys | src/utils/storageService.ts:93-101 | the writes of `saveAppState` go to the seven state keys in order, each once |
| StorageService.SaveStateOutcome | src/utils/storageService.ts:93-101 | whatever the quota refuses, each of the seven keys ends holding its serialized field or as it was, and every other key is unchanged |
| StorageService.SaveStateFrame | src/utils/storageService.ts:93-101 | with every write taken, `saveAppState` adds exactly the seven state keys to the store, each holding its field (the tone list stringified) |
| StorageService.SaveStateKeepsOthers | src/utils/storageService.ts:93-101 | every key other than the seven, the theme's among them, keeps its value through `saveAppState`, whichever writes are refused |
| StorageService.SaveStateFailureSwallowed | src/utils/storageService.ts:39-41 | a store that rejects writes is left untouched by `saveAppState` |
| StorageService.LoadAfterSave | src/utils/storageService.ts:78-101 | `loadAppState` after a `saveAppState(s)` whose writes were all taken returns `s` |
| StorageService.LoadAfterPartialSave | src/utils/storageService.ts:35-101 | whichever writes are refused, `loadAppState` after `saveAppState(s)` returns each field either as in `s` or as it loaded before |
| StorageService.LongNotesRefused | src/utils/storageService.ts:35-101 | with a length quota that refuses only the long notes, the six later writes still land and `loadAppState` returns `s` with the old notes |
| StorageService.LoadFromEmpty | src/utils/storageService.ts:22-30 | a store without the state keys loads `DEFAULT_STATE` |
| StorageService.LocalStorage.constructor | src/utils/storageService.ts:35-73 | the store starts with the given items, read flag, quota and codec |
| StorageService.LocalStorage.SaveToStorage | src/utils/storageService.ts:35-42 | the new items are `Store` of the old |
| StorageService.LocalStorage.GetFromStorage | src/utils/storageService.ts:47-73 | returns `Retrieve` of the current items |
| StorageService.LocalStorage.LoadAppState | src/utils/storageService.ts:78-88 | returns `LoadState` of the current items |
| StorageService.LocalStorage.SaveAppState | src/utils/storageService.ts:93-101 | the seven writes in order leave `SaveState` of the old items |
| UrlSharing.GetParam | src/utils/urlSharing.ts:43-51 | `get` finds a value exactly when `has` holds, and the value is that of a pair with the name |
| UrlSharing.Without | src/utils/urlSharing.ts:11-13 | removing names keeps exactly the pairs of other names |
| UrlSharing.SetThenGet | src/utils/urlSharing.ts:16-23 | after `set`, `get` gives the new value and the pairs of every other name are unchanged |
| UrlSharing.WithoutTwice | src/utils/urlSharing.ts:11-13 | two rounds of `delete` remove the union of the names |
| UrlSharing.ClearStateParams | src/utils/urlSharing.ts:11-13 | the `delete` loop leaves the page's parameters less the six state names, and none of the six remains |
| UrlSharing.EncodeStateToUrl | src/utils/urlSharing.ts:6-30 | the encoded parameters are the page's other parameters followed by the state's pairs in the order root, scale, bpm, sound, notes |
| UrlSharing.SetField | src/utils/urlSharing.ts:16-19 | `if (x) set(name, x)` on parameters without the name appends the pair exactly when `x` is non-empty, and no other name appears |
| UrlSharing.SetNotes | src/utils/urlSharing.ts:22-24 | the URI-encoded notes are appended exactly when the text is non-empty and not blank |
| UrlSharing.EncodedLookups | src/utils/urlSharing.ts:6-30 | the link has root, scale, bpm and sound exactly when the field is non-empty, with its value; notes exactly when the text has a non-white character, URI-encoded; never timer |
| UrlSharing.EncodeKeepsOthers | src/utils/urlSharing.ts:8-13 | the page's other parameters survive the encoding in their order |
| UrlSharing.DecodeEncodeRoundTrip | src/utils/urlSharing.ts:35-58 | decoding the encoded link gives the shared part of the state: the non-empty fields, and the notes when not blank, provided the URI decoder inverts the encoder |
| UrlSharing.DecodedFields | src/utils/urlSharing.ts:43-51 | where the notes decode, each decoded field is present exactly when the URL has the name, with the value of a pair with that name (the notes URI-decoded) |
| UrlSharing.UndecodableNotes | src/utils/urlSharing.ts:49-57 | notes that fail to decode make the `catch` return `{}`, although `hasStateParams` is true |
| UrlSharing.HasStateParams | src/utils/urlSharing.ts:63-71 | a URL that does not parse has no state parameters |
| UrlSharing.AnyPresent | src/utils/urlSharing.ts:66-67 | `some(has)` holds exactly when one of the names is present |
| UrlSharing.HasStateParamsIffDecoded | src/utils/urlSharing.ts:35-71 | where the notes decode, `hasStateParams` holds exactly when decoding gives a non-empty object |
| UrlSharing.OtherNamesAreNoState | src/utils/urlSharing.ts:63-71 | a URL whose names are all outside the five state names (such as `timer` alone) has no state parameters |
| UrlSharing.EncodedHasStateParams | src/utils/urlSharing.ts:6-71 | the shared link has state parameters exactly when the state has something to share |
| InspirationGenerator.ScaleNamesDistinct | src/components/inspirationGenerator/inspirationGenerator.tsx:57-65 | the seven mode names are pairwise distinct |
| InspirationGenerator.TablesWellFormed | src/components/inspirationGenerator/inspirationGenerator.tsx:57-87 | both tables have exactly the seven modes as keys, and every interval list is seven steps of one or two semitones summing to an octave |
| InspirationGenerator.PatternText | src/components/inspirationGenerator/inspirationGenerator.tsx:68-76 | the text a step list spells has four characters per step less three |
| InspirationGenerator.PatternTextSpells | src/components/inspirationGenerator/inspirationGenerator.tsx:68-76 | the spelled text has the step's letter every fourth character and " - " between |
| InspirationGenerator.SpellsIsPatternText | src/components/inspirationGenerator/inspirationGenerator.tsx:68-76 | a text that reads letter by letter as a step list is that list's spelled text |
| InspirationGenerator.PatternsMatchIntervals | src/components/inspirationGenerator/inspirationGenerator.tsx:68-87 | for every mode but Lydian, the pattern text as written spells the interval list (T = 2, S = 1) |
| InspirationGenerator.LydianPatternDisagrees | src/components/inspirationGenerator/inspirationGenerator.tsx:68-87 | the Lydian pattern text as written does not spell the Lydian intervals |
| InspirationGenerator.IntendedPatternsMatchIntervals | src/components/inspirationGenerator/inspirationGenerator.tsx:68-87 | with the corrected Lydian text, every mode's pattern spells its intervals |
| InspirationGenerator.TonesFrom | src/components/inspirationGenerator/inspirationGenerator.tsx:90-99 | a walk gives one tone more than it has steps and starts at the root |
| InspirationGenerator.WalkCircle | src/components/inspirationGenerator/inspirationGenerator.tsx:92-97 | the `for` loop over the steps, with JavaScript `%`, computes `TonesFrom`, the root followed by the note k steps' semitones around the circle |
| InspirationGenerator.GenerateScaleTones | src/components/inspirationGenerator/inspirationGenerator.tsx:90-99 | `generateScaleTones` computes `ScaleTones`, and None (the TypeError) exactly for a mode without intervals |
| InspirationGenerator.ScaleTonesShape | src/components/inspirationGenerator/inspirationGenerator.tsx:90-99 | the tones exist exactly for the seven modes, and are then eight, starting at the root |
| InspirationGenerator.OctaveWalkReturns | src/components/inspirationGenerator/inspirationGenerator.tsx:94-97 | a one-octave walk from a note visits only notes and ends where it started |
| InspirationGenerator.ScaleTonesCloseTheOctave | src/components/inspirationGenerator/inspirationGenerator.tsx:90-99 | for a root that is a note, all eight tones are notes and the eighth is the root |
| InspirationGenerator.UnknownRootEndsOnB | src/components/inspirationGenerator/inspirationGenerator.tsx:92-97 | a root that is not a note (index -1) keeps its text as the first tone, and the walk ends on "B" |
| InspirationGenerator.InitialScaleTones | src/components/inspirationGenerator/inspirationGenerator.tsx:102 | C major is C D E F G A B C, joined as "C - D - E - F - G - A - B - C" |
| InspirationGenerator.DefaultsAgreeWithTables | src/utils/storageService.ts:22-30 | the default tones are the C major walk and the default pattern text is Major's |
| InspirationGenerator.FlipLock | src/components/inspirationGenerator/inspirationGenerator.tsx:157-158 | `toggleLock(p)` flips lock `p` and keeps every other lock |
| InspirationGenerator.FlipLockTwice | src/components/inspirationGenerator/inspirationGenerator.tsx:157-158 | toggling a lock twice restores the locks |
| InspirationGenerator.BpmFromDraw | src/components/inspirationGenerator/inspirationGenerator.tsx:148-151 | a draw in [0, 140] gives a BPM in [75, 140]: the draw itself from 75 up, 75 below |
| InspirationGenerator.BpmTextReadsBack | src/components/inspirationGenerator/inspirationGenerator.tsx:149-151 | the BPM text a roll sets reads back through `Number` as an integer in [75, 140] |
| InspirationGenerator.RollKeepsLocked | src/components/inspirationGenerator/inspirationGenerator.tsx:120-155 | a roll never changes the locks, and each locked field keeps its value (the scale with its pattern text) |
| InspirationGenerator.RollRedrawsUnlocked | src/components/inspirationGenerator/inspirationGenerator.tsx:120-155 | each unlocked field is the drawn entry of its table, the scale with its `scalePatterns` text as written; sound and BPM are set only when the roll completes |
| InspirationGenerator.RolledPatternSpellsIntervals | src/components/inspirationGenerator/inspirationGenerator.tsx:130-136 | a re-drawn scale is shown with a pattern text that spells its intervals exactly when it is not Lydian; a Lydian draw shows the table's "T - T - S - T - S - T - T" |
| InspirationGenerator.IntendedRollDiffersOnLydian | src/components/inspirationGenerator/inspirationGenerator.tsx:130-136 | the roll with the corrected table differs from `rollDice` only in the pattern text, and exactly when an unlocked roll draws Lydian |
| InspirationGenerator.IntendedRollSpellsIntervals | src/components/inspirationGenerator/inspirationGenerator.tsx:130-136 | with the corrected table every re-drawn scale is shown with the text its intervals spell |
| InspirationGenerator.RollRecomputesTones | src/components/inspirationGenerator/inspirationGenerator.tsx:138-140 | a roll completes exactly when the chosen scale is a mode (it can fail only with a locked scale), and then shows the joined tones of the chosen root and scale |
| InspirationGenerator.Generator.constructor | src/components/inspirationGenerator/inspirationGenerator.tsx:101-105 | nothing is locked and the computed tones are "C - D - E - F - G - A - B - C" |
| InspirationGenerator.Generator.ToggleLock | src/components/inspirationGenerator/inspirationGenerator.tsx:157-158 | the locks become `FlipLock` of the old |
| InspirationGenerator.Generator.RollDice | src/components/inspirationGenerator/inspirationGenerator.tsx:120-155 | the new state is `Roll` of the old (a re-drawn scale with its `scalePatterns` text as written), and the result says whether the roll completed |
| InspirationGenerator.Generator.DrawRootAndScale | src/components/inspirationGenerator/inspirationGenerator.tsx:122-136 | the first half of the roll leaves `ChooseRootAndScale` of the old state: the unlocked root and scale drawn, the scale's text from `scalePatterns` as written |
| InspirationGenerator.Generator.FinishRoll | src/components/inspirationGenerator/inspirationGenerator.tsx:139-155 | the second half sets the joined tones, then the unlocked sound and BPM draws, then the animation flag, and changes nothing else |
| PomodoroTimer.SecondsToMinutesReadsBack | src/components/pomodoroTimer/pomodoroTimer.tsx:66-74 | for a count of seconds >= 0, the digits before the colon read as the minutes, the two after it as the seconds, and the text is five characters long exactly below 100 minutes |
| PomodoroTimer.DisplayIsClockText | src/components/pomodoroTimer/pomodoroTimer.tsx:66-74 | for a count of seconds >= 0 JavaScript's `%` is the floor remainder, so the display is the clock text of `String(minutes)` and `String(seconds % 60)` |
| PomodoroTimer.WorkDisplay | src/components/pomodoroTimer/pomodoroTimer.tsx:62-74 | the initial 1500 seconds show "25:00" |
| PomodoroTimer.BreakDisplay | src/components/pomodoroTimer/pomodoroTimer.tsx:66-83 | a break's 300 seconds show "05:00" |
| PomodoroTimer.Reset | src/components/pomodoroTimer/pomodoroTimer.tsx:76-79 | `resetTimer(interval)` stops counting and sets the count |
| PomodoroTimer.Break | src/components/pomodoroTimer/pomodoroTimer.tsx:81-83 | `takeBreak` sets 300 seconds and leaves counting alone |
| PomodoroTimer.Toggle | src/components/pomodoroTimer/pomodoroTimer.tsx:85-87 | `toggleCountdown` flips counting and leaves the count alone |
| PomodoroTimer.ToggleTwice | src/components/pomodoroTimer/pomodoroTimer.tsx:85-87 | toggling twice restores the state |
| PomodoroTimer.TickStep | src/components/pomodoroTimer/pomodoroTimer.tsx:89-110 | while counting, a tick takes a second off a positive count and stops counting at zero or below; while paused nothing happens |
| PomodoroTimer.TicksCountDown | src/components/pomodoroTimer/pomodoroTimer.tsx:89-110 | from a running count t >= 0, n ticks give t - n while n <= t, and after that the timer is stopped at 0; the count never goes negative |
| PomodoroTimer.StoppedStays | src/components/pomodoroTimer/pomodoroTimer.tsx:89-110 | a paused timer does not change however many ticks pass |
| PomodoroTimer.Timer.constructor | src/components/pomodoroTimer/pomodoroTimer.tsx:62-63 | starts at 1500 seconds, not counting |
| PomodoroTimer.Timer.ResetTimer | src/components/pomodoroTimer/pomodoroTimer.tsx:76-79 | the new state is `Reset` of the old |
| PomodoroTimer.Timer.TakeBreak | src/components/pomodoroTimer/pomodoroTimer.tsx:81-83 | the new state is `Break` of the old |
| PomodoroTimer.Timer.ToggleCountdown | src/components/pomodoroTimer/pomodoroTimer.tsx:85-87 | the new state is `Toggle` of the old |
| PomodoroTimer.Timer.Tick | src/components/pomodoroTimer/pomodoroTimer.tsx:91-100 | the new state is `TickStep` of the old |
| Metronome.TimerDelay | src/components/Metronome/Metronome.tsx:19-23 | the delay is the largest whole number of milliseconds whose product with bpm stays within 60000, and 0 for bpm <= 0 |
| Metronome.NominalPeriod | src/components/Metronome/Metronome.tsx:19 | the requested period times bpm is 60000 ms |
| Metronome.DelayTruncatesPeriod | src/components/Metronome/Metronome.tsx:19-23 | the timer's delay is the requested period truncated to whole milliseconds |
| Metronome.EffectRun | src/components/Metronome/Metronome.tsx:16-34 | after the effect an interval runs exactly while playing, at the current bpm, over the current mute flag; nothing else changes |
| Metronome.Mounted | src/components/Metronome/Metronome.tsx:11-13 | the component mounts stopped, unmuted, direction false, with no interval |
| Metronome.AfterPlayClick | src/components/Metronome/Metronome.tsx:65 | clicking the image flips `playing`, keeps mute and direction, and re-runs the effect |
| Metronome.AfterMuteClick | src/components/Metronome/Metronome.tsx:67 | clicking the speaker flips mute and keeps playing, direction and the running interval |
| Metronome.AfterBpmChange | src/components/Metronome/Metronome.tsx:34 | a changed bpm re-runs the effect; an unchanged one changes nothing |
| Metronome.Unmounted | src/components/Metronome/Metronome.tsx:29-33 | the cleanup on unmount clears the interval |
| Metronome.ConsistentPreserved | src/components/Metronome/Metronome.tsx:16-34 | every event keeps the interval in step with `playing` and `bpm` |
| Metronome.TicksOnlyWhilePlaying | src/components/Metronome/Metronome.tsx:16-34 | a tick sounds only while playing, and a stopped metronome does not move |
| Metronome.StopAndRetempo | src/components/Metronome/Metronome.tsx:17-34 | stopping clears the interval; a bpm change while playing replaces it by one at the new delay |
| Metronome.DirectionAfterTicks | src/components/Metronome/Metronome.tsx:22 | after n ticks the direction is the start value XOR (n odd), and nothing else changes |
| Metronome.MuteWaitsForRestart | src/components/Metronome/Metronome.tsx:20-67 | toggling mute mid-run does not change whether the running interval's ticks sound |
| Metronome.MuteTakesEffectOnRerun | src/components/Metronome/Metronome.tsx:16-34 | after a stop and start, or a bpm change while playing, ticks sound exactly when the current mute flag is off |
| Metronome.TogglesTwice | src/components/Metronome/Metronome.tsx:65-67 | two clicks on the image restore `playing`, two on the speaker restore the state |
| Metronome.MetronomeComponent.constructor | src/components/Metronome/Metronome.tsx:11-13 | the state is `Mounted(bpm)` |
| Metronome.MetronomeComponent.RunEffect | src/components/Metronome/Metronome.tsx:16-34 | the new state is `EffectRun` of the old |
| Metronome.MetronomeComponent.TogglePlay | src/components/Metronome/Metronome.tsx:65 | the new state is `AfterPlayClick` of the old |
| Metronome.MetronomeComponent.ToggleMute | src/components/Metronome/Metronome.tsx:67 | the new state is `AfterMuteClick` of the old |
| Metronome.MetronomeComponent.SetBpm | src/components/Metronome/Metronome.tsx:34 | the new state is `AfterBpmChange` of the old |
| Metronome.MetronomeComponent.Tick | src/components/Metronome/Metronome.tsx:20-23 | reports a sound exactly when the captured mute flag is off, and the new state is `AfterTick` of the old |
| Metronome.MetronomeComponent.Unmount | src/components/Metronome/Metronome.tsx:29-33 | the new state is `Unmounted` of the old |
| Visualizer.SequenceSteps | src/components/Visualizer/Visualizer.tsx:188-211 | the sequence's values are exactly the indices 0 .. len-1 of the scale, in order |
| Visualizer.Octave | src/components/Visualizer/Visualizer.tsx:193 | the octave is 5 exactly for steps above 7, and 4 otherwise |
| Visualizer.ActiveIndex | src/components/Visualizer/Visualizer.tsx:199 | the active index a step sets is in [0, len), and is the step itself for a step of the sequence |
| Visualizer.StepLabels | src/components/Visualizer/Visualizer.tsx:188-199 | step i plays `scale[i]` followed by its octave digit, so a scale of at most eight notes plays in octave 4; it sets the active index to i |
| Visualizer.BarIsActive | src/components/Visualizer/Visualizer.tsx:274 | a highlighted bar means an active index in range; with an empty scale no bar is highlighted |
| Visualizer.BarsFollowStep | src/components/Visualizer/Visualizer.tsx:274 | after step i, bar k is highlighted exactly when k and i fall on the same scale note, so the highlight repeats every len bars |
| Visualizer.IdleDisplay | src/components/Visualizer/Visualizer.tsx:274-313 | with no active note nothing is highlighted and the info reads "Ready to play"; an index in the scale reads "Playing: " and the note |
| Visualizer.AfterToggle | src/components/Visualizer/Visualizer.tsx:226-246 | `togglePlay` flips `isPlaying`; playing starts the current sequence, a pause resets the active index to -1 |
| Visualizer.StepPlayed | src/components/Visualizer/Visualizer.tsx:190-196 | a step plays a note exactly while playing from a started sequence, for a value of the sequence |
| Visualizer.AfterStep | src/components/Visualizer/Visualizer.tsx:190-208 | a step while playing from a started sequence queues a draw of its value and leaves the active index; otherwise nothing changes |
| Visualizer.DrawFired | src/components/Visualizer/Visualizer.tsx:198-208 | the oldest queued draw sets the active index it carries, whether or not the visualizer still plays; with none queued nothing changes |
| Visualizer.AfterPropsChange | src/components/Visualizer/Visualizer.tsx:182-223 | a new scale or tempo rebuilds the sequence unstarted and sets the transport tempo, keeping `isPlaying` and the active index; unchanged props change nothing |
| Visualizer.SettledPreserved | src/components/Visualizer/Visualizer.tsx:182-236 | a toggle, a step and a change of props keep a paused visualizer without an active note; a queued draw does so only while playing or with nothing queued |
| Visualizer.LateDrawWhilePaused | src/components/Visualizer/Visualizer.tsx:198-236 | the draw queued by the last step before a pause runs after the pause cleared the index, so the paused visualizer reads "Playing: " and the note |
| Visualizer.PauseResets | src/components/Visualizer/Visualizer.tsx:226-236 | pausing shows "Ready to play" and highlights no bar; toggling twice restores `isPlaying` |
| Visualizer.PropsChangeSilences | src/components/Visualizer/Visualizer.tsx:182-241 | after a change of scale or tempo no step fires and nothing changes although `isPlaying` stays, until a pause and a play start the new sequence, after which every step of the new scale fires |
| Visualizer.StaleHighlight | src/components/Visualizer/Visualizer.tsx:182-223 | the active index left past the end of a shorter new scale reads "Playing: undefined" |
| Visualizer.IntendedPropsChangeKeepsSounding | src/components/Visualizer/Visualizer.tsx:182-241 | with the sequence restarted on a change, a playing visualizer goes on sounding and a paused one stays idle |
| Visualizer.StepShowsNote | src/components/Visualizer/Visualizer.tsx:190-313 | while playing from a started sequence with no draw queued, step i and its draw name `scale[i]` on the info line and highlight that scale note and no other |
| Visualizer.VisualizerComponent.constructor | src/components/Visualizer/Visualizer.tsx:136-241 | mounts paused with active index -1 and the sequence built but not started |
| Visualizer.VisualizerComponent.TogglePlay | src/components/Visualizer/Visualizer.tsx:226-246 | the new state is `AfterToggle` of the old |
| Visualizer.VisualizerComponent.Step | src/components/Visualizer/Visualizer.tsx:190-209 | returns `StepPlayed`, and the new state is `AfterStep` of the old |
| Visualizer.VisualizerComponent.Draw | src/components/Visualizer/Visualizer.tsx:198-208 | the new state is `DrawFired` of the old |
| Visualizer.VisualizerComponent.SetProps | src/components/Visualizer/Visualizer.tsx:182-223 | the new state is `AfterPropsChange` of the old |
| ThemeProvider.ThemesShareLayout | src/theme/ThemeProvider.tsx:21-137 | the two themes have the same radii, font sizes, transitions and spacing; they differ in colours and shadows and nothing else |
| ThemeProvider.SelectedTheme | src/theme/ThemeProvider.tsx:155 | the supplied theme is `darkTheme` exactly when dark mode is on |
| ThemeProvider.InitialModeCases | src/theme/ThemeProvider.tsx:140-143 | the first mode is dark exactly when nothing readable is stored, the stored token is 'dark', or the OS prefers dark; a stored 'light' gives light only when the OS does not prefer dark |
| ThemeProvider.ThemeToken | src/theme/ThemeProvider.tsx:145-147 | the persisted token is 'dark' exactly in dark mode, 'light' otherwise |
| ThemeProvider.TokenReadsBack | src/theme/ThemeProvider.tsx:140-147 | a stored token whose write was taken loads back as the mode it was written for, or as dark where the OS prefers dark |
| ThemeProvider.Toggled | src/theme/ThemeProvider.tsx:149-151 | `toggleTheme` flips the mode and so the token |
| ThemeProvider.ThemeState.constructor | src/theme/ThemeProvider.tsx:140-147 | the first mode is `InitialDarkMode` of the store, and the effect then stores its token |
| ThemeProvider.ThemeState.ToggleTheme | src/theme/ThemeProvider.tsx:145-151 | the mode flips and the effect stores the new token |

## Left out

- Rendering, styling, framer-motion animation, and the JSX beyond the expressions modelled (icons, class names, bar heights).
- Tone.js: synths, volumes, `Tone.start` and `Transport`. These are foreign audio calls. A metronome tick reports whether it would play the click, and a visualizer step returns the note label it would play. `Tone.Draw.schedule` is a queue of pending draws. When a draw runs, and how far the sequence callback runs ahead of it, is up to Tone.js, so the model lets a queued draw run after any later event.
- Real time. Intervals, sequences and React effect scheduling are discrete events. The model does not say when they fire. React's batching and re-rendering are one state transition per event.
- `Math.random`. The dice draws are a `Draws` parameter, assumed in range. The visualizer's random bar heights and `randomizePattern` are not modelled.
- The URL text. `new URL`, `URLSearchParams` serialisation and `url.toString()` are left out: the model works on the parsed list of pairs, and a URL that does not parse is `None`. `window.location.href` becomes the `current` parameter.
- `encodeURIComponent`/`decodeURIComponent` are abstract, with decode failure as `None`. `copyStateURLToClipboard` (clipboard, promises) is not modelled.
- JSON and the real `localStorage` are abstract. The only objects stored are arrays of strings.
- StorageService.Deserialize: the codec's `parse` yields None for any text that is not a JSON array of strings. The source returns whatever `JSON.parse` produces (a number, an object) unless it throws. So for such texts the model returns the default where the source returns that value.
- JsString.ParseNumber: `Number(text)` is modelled only for "", and for trimmed, optionally signed runs of decimal digits. Decimal points, exponents, hex, `Infinity` and the like give NaN in the model.
- UrlSharing.GetParam: its contract says the value comes from some pair with the name. That it is the first such pair is in the definition and in `SetThenGet`, not in the ensures.
- `console.error` logging in the `catch` blocks.
- `ThemeContext`'s default value (light mode, a no-op toggle) for consumers outside the provider.
- `window.matchMedia` is the `prefersDark` parameter.
- The metronome's `else if (intervalId !== null) clearInterval(...)` branch never runs: `intervalId` is re-declared `null` on every render. Clearing is done by the effect's cleanup, which is what `EffectRun` models.
- Visualizer.AfterPropsChange: React re-runs the effect when `scale` is a new array, even one of equal contents; the model compares the values, so a re-render with an equal new array is not a change.
- Metronome.TimerDelay: `bpm` is `parseInt` of the stored or shared text, which can be NaN (a link with `?bpm=x`). The model's `bpm` is an integer and represents NaN by a non-positive bpm. Both give delay 0 (`60000 / NaN` converts to 0 like the `bpm <= 0` branch). A re-render with NaN again leaves the effect alone, because `Object.is(NaN, NaN)` holds, just as it does for an unchanged integer. The one case the model does not capture is a switch between NaN and the very integer that stands for it. The source re-runs the effect there and the model does not; the delay stays 0 either way.
- Visualizer.NoteLabel: it is called only for values of the sequence. An empty scale has no steps, so `noteIndex % 0` never happens.
- The types file and the components that only wire things together: App, Nav, Notepad, Toast, pages and common UI.

## Findings

| source | as written | input that shows it | evidently intended | confidence | as-written member | corrected member |
|---|---|---|---|---|---|---|
| src/components/inspirationGenerator/inspirationGenerator.tsx:73 | Lydian's pattern text is "T - T - S - T - S - T - T" | mode "Lydian": its intervals [2, 2, 2, 1, 2, 2, 1] read T T T S T T S, and the third letter differs | "T - T - T - S - T - T - S", the text its own intervals spell | high (not executed) | InspirationGenerator.LydianPatternDisagrees | InspirationGenerator.IntendedPatternsMatchIntervals |
| src/components/Visualizer/Visualizer.tsx:182-223 | the effect on `[scale, bpm]` disposes the running sequence and builds a new one that only the effect on `[isPlaying]` starts | a new scale while playing: `isPlaying` stays true but no step fires until pause and play | the rebuilt sequence started when playing | medium (not executed) | Visualizer.PropsChangeSilences | Visualizer.IntendedPropsChangeKeepsSounding |

The roll (`ChooseRootAndScale`, `Roll`, `Generator.RollDice`) and the visualizer's component (`VisualizerComponent.SetProps`) model the code as written. The corrected behaviours are the separate members `IntendedRoll`, with `IntendedPatternOf`, and `IntendedPropsChange`.
