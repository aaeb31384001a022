/** `inspirationGenerator.tsx`: the note and scale tables, the walk around
    the chromatic circle that spells a scale, the dice roll that re-draws
    every unlocked field, and the lock toggles. */
module InspirationGenerator {
  import opened Wrappers
  import opened JsString
  import StorageService

  // ---------------------------------------------------------------- tables

  /** The 12 chromatic notes, sharps written with U+266F. */
  const Notes: seq<string> := ["C", "C♯", "D", "D♯", "E", "F", "F♯", "G", "G♯", "A", "A♯", "B"]

  const Scales: seq<string> := ["Major", "Minor", "Dorian", "Phrygian", "Lydian", "Mixolydian", "Locrian"]

  const Sounds: seq<string> := [
    "Guitar", "Bass", "Percussion", "Pad", "Synth", "Arp",
    "Accoustic", "Box", "Coin on strings", "FX", "Lead",
    "Fuzz", "Harmonics", "Ebox", "Freeze pedal", "Lap Steel",
    "Piano", "Violin", "Cello", "Banjo", "Whistle",
    "Birdsong", "Helicopter rotor", "Siren", "Space shuttle", "Alarm clock"]

  const MaxBpm := 140
  const MinBpm := 75

  /** The mode names are pairwise distinct (the two pairs of equal length
      differ in their second letter). */
  lemma ScaleNamesDistinct()
    ensures "Major" != "Minor" && "Dorian" != "Lydian"
    ensures forall i, j :: 0 <= i < j < |Scales| ==> Scales[i] != Scales[j]
  {
    assert "Major"[1] != "Minor"[1];
    assert "Dorian"[1] != "Lydian"[1];
  }

  /** `scaleIntervals[mode]`: the semitone steps of a mode, or None
      (`undefined`) for any other key. */
  function IntervalsOf(mode: string): Option<seq<int>>
  {
    if mode == "Major" then Some([2, 2, 1, 2, 2, 2, 1])
    else if mode == "Minor" then Some([2, 1, 2, 2, 1, 2, 2])
    else if mode == "Dorian" then Some([2, 1, 2, 2, 2, 1, 2])
    else if mode == "Phrygian" then Some([1, 2, 2, 2, 1, 2, 2])
    else if mode == "Lydian" then Some([2, 2, 2, 1, 2, 2, 1])
    else if mode == "Mixolydian" then Some([2, 2, 1, 2, 2, 1, 2])
    else if mode == "Locrian" then Some([1, 2, 2, 1, 2, 2, 2])
    else None
  }

  /** `scalePatterns[mode]`: the tone/semitone text shown in the "Tones"
      row, or None (`undefined`) for any other key. */
  function PatternOf(mode: string): Option<string>
  {
    if mode == "Major" then Some("T - T - S - T - T - T - S")
    else if mode == "Minor" then Some("T - S - T - T - S - T - T")
    else if mode == "Dorian" then Some("T - S - T - T - T - S - T")
    else if mode == "Phrygian" then Some("S - T - T - T - S - T - T")
    else if mode == "Lydian" then Some("T - T - S - T - S - T - T")
    else if mode == "Mixolydian" then Some("T - T - S - T - T - S - T")
    else if mode == "Locrian" then Some("S - T - T - S - T - T - T")
    else None
  }

  /** The semitones covered by the first `k` steps. */
  function PrefixSum(steps: seq<int>, k: nat): int
    requires k <= |steps|
  {
    if k == 0 then 0 else PrefixSum(steps, k - 1) + steps[k - 1]
  }

  /** The seven prefix sums of a seven-step list, unfolded. */
  lemma PrefixSumsOfSeven(steps: seq<int>)
    requires |steps| == 7
    ensures PrefixSum(steps, 1) == steps[0]
    ensures PrefixSum(steps, 2) == steps[0] + steps[1]
    ensures PrefixSum(steps, 3) == steps[0] + steps[1] + steps[2]
    ensures PrefixSum(steps, 4) == steps[0] + steps[1] + steps[2] + steps[3]
    ensures PrefixSum(steps, 5) == steps[0] + steps[1] + steps[2] + steps[3] + steps[4]
    ensures PrefixSum(steps, 6) == steps[0] + steps[1] + steps[2] + steps[3] + steps[4] + steps[5]
    ensures PrefixSum(steps, 7) == steps[0] + steps[1] + steps[2] + steps[3] + steps[4] + steps[5] + steps[6]
  {
  }

  /** Both tables have exactly the modes of the `scales` list as keys, and
      every mode is seven steps of one or two semitones making one octave. */
  lemma TablesWellFormed(mode: string)
    ensures IntervalsOf(mode).Some? <==> mode in Scales
    ensures PatternOf(mode).Some? <==> mode in Scales
    ensures IntervalsOf(mode).Some? ==>
      var steps := IntervalsOf(mode).value;
      && |steps| == 7 && PrefixSum(steps, 7) == 12
      && forall j :: 0 <= j < |steps| ==> 1 <= steps[j] <= 2
  {
    if IntervalsOf(mode).Some? {
      IntervalsWellFormed(mode);
    }
  }

  /** Every entry of `scales` has a pattern text and an interval list. */
  lemma ScaleHasTables(i: nat)
    requires i < |Scales|
    ensures PatternOf(Scales[i]).Some? && IntervalsOf(Scales[i]).Some?
  {
    TablesWellFormed(Scales[i]);
  }

  /** Every interval list is seven steps of one or two semitones making one
      octave. */
  lemma IntervalsWellFormed(mode: string)
    requires IntervalsOf(mode).Some?
    ensures var steps := IntervalsOf(mode).value;
      && |steps| == 7 && PrefixSum(steps, 7) == 12
      && forall j :: 0 <= j < |steps| ==> 1 <= steps[j] <= 2
  {
    PrefixSumsOfSeven(IntervalsOf(mode).value);
  }

  /** The letter of one step: T (tone) for two semitones, S otherwise. */
  function StepLetter(step: int): char
  {
    if step == 2 then 'T' else 'S'
  }

  /** The "Tones" text a non-empty list of steps spells: the step letters
      separated by " - ". */
  function PatternText(steps: seq<int>): (text: string)
    requires |steps| >= 1
    ensures |text| == 4 * |steps| - 3
  {
    if |steps| == 1 then [StepLetter(steps[0])]
    else PatternText(steps[..|steps| - 1]) + " - " + [StepLetter(steps[|steps| - 1])]
  }

  /** `text` reads as `steps`, letter by letter: every fourth character is
      the letter of the next step and " - " stands between them. */
  predicate Spells(text: string, steps: seq<int>)
  {
    && |text| == 4 * |steps| - 3
    && (forall k :: 0 <= k < |steps| ==> text[4 * k] == StepLetter(steps[k]))
    && (forall k :: 0 <= k < |steps| - 1 ==>
          text[4 * k + 1] == ' ' && text[4 * k + 2] == '-' && text[4 * k + 3] == ' ')
  }

  /** The pattern text of a step list reads as that list. */
  lemma {:induction false} PatternTextSpells(steps: seq<int>)
    requires |steps| >= 1
    ensures Spells(PatternText(steps), steps)
  {
    if |steps| > 1 {
      var init := steps[..|steps| - 1];
      PatternTextSpells(init);
      var text := PatternText(steps);
      assert text == PatternText(init) + " - " + [StepLetter(steps[|steps| - 1])];
      forall k | 0 <= k < |steps| ensures text[4 * k] == StepLetter(steps[k]) {
        if k < |steps| - 1 {
          assert text[4 * k] == PatternText(init)[4 * k];
        }
      }
    }
  }

  /** ...and it is the only text that does. */
  lemma {:induction false} SpellsIsPatternText(text: string, steps: seq<int>)
    requires |steps| >= 1 && Spells(text, steps)
    ensures text == PatternText(steps)
  {
    if |steps| == 1 {
      assert text == [text[0]];
    } else {
      var head := text[..|text| - 4];
      SpellsInit(text, steps);
      SpellsIsPatternText(head, steps[..|steps| - 1]);
      SpellsLast(text, steps);
      assert text == head + text[|text| - 4..];
    }
  }

  /** Dropping the last step and its separator leaves a spelling of the
      other steps. */
  lemma SpellsInit(text: string, steps: seq<int>)
    requires |steps| >= 2 && Spells(text, steps)
    ensures Spells(text[..|text| - 4], steps[..|steps| - 1])
  {
    var n := |steps|;
    var init := steps[..n - 1];
    var head := text[..|text| - 4];
    forall k | 0 <= k < n - 1 ensures head[4 * k] == StepLetter(init[k]) {
      assert head[4 * k] == text[4 * k];
    }
  }

  /** The last four characters of a spelling are " - " and the last
      step's letter. */
  lemma SpellsLast(text: string, steps: seq<int>)
    requires |steps| >= 2 && Spells(text, steps)
    ensures text[|text| - 4..] == " - " + [StepLetter(steps[|steps| - 1])]
  {
    var n := |steps|;
    assert text[4 * (n - 1)] == StepLetter(steps[n - 1]);
    assert text[4 * (n - 2) + 1] == ' ' && text[4 * (n - 2) + 2] == '-' && text[4 * (n - 2) + 3] == ' ';
  }

  /** Read with T = 2 and S = 1, the pattern text of every mode but Lydian
      spells its intervals. */
  lemma PatternsMatchIntervals(mode: string)
    requires mode in Scales && mode != "Lydian"
    ensures PatternOf(mode) == Some(PatternText(IntervalsOf(mode).value))
  {
    ScaleNamesDistinct();
    MajorPatternSpelled();
    MinorPatternSpelled();
    DorianPatternSpelled();
    PhrygianPatternSpelled();
    MixolydianPatternSpelled();
    LocrianPatternSpelled();
    SpellsIsPatternText(PatternOf(mode).value, IntervalsOf(mode).value);
  }

  // The six agreeing pattern texts, read one lemma each, position by
  // position.

  lemma MajorPatternSpelled()
    ensures Spells("T - T - S - T - T - T - S", [2, 2, 1, 2, 2, 2, 1])
  {
    var text, steps := "T - T - S - T - T - T - S", [2, 2, 1, 2, 2, 2, 1];
    forall k | 0 <= k < 7 ensures text[4 * k] == StepLetter(steps[k]) {
      if k == 0 {} else if k == 1 {} else if k == 2 {} else if k == 3 {}
      else if k == 4 {} else if k == 5 {} else {}
    }
    forall k | 0 <= k < 6
      ensures text[4 * k + 1] == ' ' && text[4 * k + 2] == '-' && text[4 * k + 3] == ' '
    {
      if k == 0 {} else if k == 1 {} else if k == 2 {} else if k == 3 {} else if k == 4 {} else {}
    }
  }

  lemma MinorPatternSpelled()
    ensures Spells("T - S - T - T - S - T - T", [2, 1, 2, 2, 1, 2, 2])
  {
    var text, steps := "T - S - T - T - S - T - T", [2, 1, 2, 2, 1, 2, 2];
    forall k | 0 <= k < 7 ensures text[4 * k] == StepLetter(steps[k]) {
      if k == 0 {} else if k == 1 {} else if k == 2 {} else if k == 3 {}
      else if k == 4 {} else if k == 5 {} else {}
    }
    forall k | 0 <= k < 6
      ensures text[4 * k + 1] == ' ' && text[4 * k + 2] == '-' && text[4 * k + 3] == ' '
    {
      if k == 0 {} else if k == 1 {} else if k == 2 {} else if k == 3 {} else if k == 4 {} else {}
    }
  }

  lemma DorianPatternSpelled()
    ensures Spells("T - S - T - T - T - S - T", [2, 1, 2, 2, 2, 1, 2])
  {
    var text, steps := "T - S - T - T - T - S - T", [2, 1, 2, 2, 2, 1, 2];
    forall k | 0 <= k < 7 ensures text[4 * k] == StepLetter(steps[k]) {
      if k == 0 {} else if k == 1 {} else if k == 2 {} else if k == 3 {}
      else if k == 4 {} else if k == 5 {} else {}
    }
    forall k | 0 <= k < 6
      ensures text[4 * k + 1] == ' ' && text[4 * k + 2] == '-' && text[4 * k + 3] == ' '
    {
      if k == 0 {} else if k == 1 {} else if k == 2 {} else if k == 3 {} else if k == 4 {} else {}
    }
  }

  lemma PhrygianPatternSpelled()
    ensures Spells("S - T - T - T - S - T - T", [1, 2, 2, 2, 1, 2, 2])
  {
    var text, steps := "S - T - T - T - S - T - T", [1, 2, 2, 2, 1, 2, 2];
    forall k | 0 <= k < 7 ensures text[4 * k] == StepLetter(steps[k]) {
      if k == 0 {} else if k == 1 {} else if k == 2 {} else if k == 3 {}
      else if k == 4 {} else if k == 5 {} else {}
    }
    forall k | 0 <= k < 6
      ensures text[4 * k + 1] == ' ' && text[4 * k + 2] == '-' && text[4 * k + 3] == ' '
    {
      if k == 0 {} else if k == 1 {} else if k == 2 {} else if k == 3 {} else if k == 4 {} else {}
    }
  }

  lemma MixolydianPatternSpelled()
    ensures Spells("T - T - S - T - T - S - T", [2, 2, 1, 2, 2, 1, 2])
  {
    var text, steps := "T - T - S - T - T - S - T", [2, 2, 1, 2, 2, 1, 2];
    forall k | 0 <= k < 7 ensures text[4 * k] == StepLetter(steps[k]) {
      if k == 0 {} else if k == 1 {} else if k == 2 {} else if k == 3 {}
      else if k == 4 {} else if k == 5 {} else {}
    }
    forall k | 0 <= k < 6
      ensures text[4 * k + 1] == ' ' && text[4 * k + 2] == '-' && text[4 * k + 3] == ' '
    {
      if k == 0 {} else if k == 1 {} else if k == 2 {} else if k == 3 {} else if k == 4 {} else {}
    }
  }

  lemma LocrianPatternSpelled()
    ensures Spells("S - T - T - S - T - T - T", [1, 2, 2, 1, 2, 2, 2])
  {
    var text, steps := "S - T - T - S - T - T - T", [1, 2, 2, 1, 2, 2, 2];
    forall k | 0 <= k < 7 ensures text[4 * k] == StepLetter(steps[k]) {
      if k == 0 {} else if k == 1 {} else if k == 2 {} else if k == 3 {}
      else if k == 4 {} else if k == 5 {} else {}
    }
    forall k | 0 <= k < 6
      ensures text[4 * k + 1] == ' ' && text[4 * k + 2] == '-' && text[4 * k + 3] == ' '
    {
      if k == 0 {} else if k == 1 {} else if k == 2 {} else if k == 3 {} else if k == 4 {} else {}
    }
  }

  /** Lydian's pattern text (T T S T S T T) does not spell its intervals
      (2 2 2 1 2 2 1, that is T T T S T T S): the third letter differs. */
  lemma LydianPatternDisagrees()
    ensures !Spells(PatternOf("Lydian").value, IntervalsOf("Lydian").value)
    ensures PatternOf("Lydian") != Some(PatternText(IntervalsOf("Lydian").value))
  {
    var steps := IntervalsOf("Lydian").value;
    assert PatternOf("Lydian").value[8] != StepLetter(steps[2]);
    PatternTextSpells(steps);
  }

  /** The pattern table with Lydian's text spelled from its intervals
      (T - T - T - S - T - T - S); the other six entries are as written. */
  function IntendedPatternOf(mode: string): Option<string>
  {
    if mode == "Lydian" then Some("T - T - T - S - T - T - S") else PatternOf(mode)
  }

  lemma LydianIntendedSpelled()
    ensures Spells("T - T - T - S - T - T - S", [2, 2, 2, 1, 2, 2, 1])
  {
    var text, steps := "T - T - T - S - T - T - S", [2, 2, 2, 1, 2, 2, 1];
    forall k | 0 <= k < 7 ensures text[4 * k] == StepLetter(steps[k]) {
      if k == 0 {} else if k == 1 {} else if k == 2 {} else if k == 3 {}
      else if k == 4 {} else if k == 5 {} else {}
    }
    forall k | 0 <= k < 6
      ensures text[4 * k + 1] == ' ' && text[4 * k + 2] == '-' && text[4 * k + 3] == ' '
    {
      if k == 0 {} else if k == 1 {} else if k == 2 {} else if k == 3 {} else if k == 4 {} else {}
    }
  }

  /** With the corrected entry, the text of every mode spells its
      intervals. */
  lemma IntendedPatternsMatchIntervals(mode: string)
    requires mode in Scales
    ensures IntendedPatternOf(mode) == Some(PatternText(IntervalsOf(mode).value))
  {
    if mode == "Lydian" {
      LydianIntendedSpelled();
      SpellsIsPatternText("T - T - T - S - T - T - S", IntervalsOf(mode).value);
    } else {
      PatternsMatchIntervals(mode);
    }
  }

  /** `join` of seven texts, unfolded. */
  lemma JoinSeven(xs: seq<string>)
    requires |xs| == 7
    ensures Join(xs, " - ") == xs[0] + " - " + xs[1] + " - " + xs[2] + " - " + xs[3] + " - " +
                              xs[4] + " - " + xs[5] + " - " + xs[6]
  {
    var sep := " - ";
    assert xs[..2][..1] == xs[..1];
    assert Join(xs[..2], sep) == xs[0] + sep + xs[1];
    assert xs[..3][..2] == xs[..2];
    assert Join(xs[..3], sep) == xs[0] + sep + xs[1] + sep + xs[2];
    assert xs[..4][..3] == xs[..3];
    assert Join(xs[..4], sep) == xs[0] + sep + xs[1] + sep + xs[2] + sep + xs[3];
    assert xs[..5][..4] == xs[..4];
    assert Join(xs[..5], sep) == xs[0] + sep + xs[1] + sep + xs[2] + sep + xs[3] + sep + xs[4];
    assert xs[..6][..5] == xs[..5];
    assert Join(xs[..6], sep) == xs[0] + sep + xs[1] + sep + xs[2] + sep + xs[3] + sep + xs[4] + sep + xs[5];
  }

  // ---------------------------------------------------------- scale tones

  /** Where the walk stands after `k` steps from position `start`, on the
      circle of 12 notes. */
  function ToneIndex(start: int, steps: seq<int>, k: nat): (i: int)
    requires k <= |steps|
    ensures 0 <= i < 12
  {
    (start + PrefixSum(steps, k)) % 12
  }

  /** Where the walk stands after `i` steps: at the root's position before
      the first step, on the circle after it. */
  function WalkPosition(start: int, steps: seq<int>, i: nat): int
    requires i <= |steps|
  {
    if i == 0 then start else ToneIndex(start, steps, i)
  }

  /** One step of the loop: JavaScript's `%` of the position plus the step
      is the next position on the circle. The sum is never negative, even
      from position -1, since every step is at least one semitone. */
  lemma WalkStep(start: int, steps: seq<int>, i: nat)
    requires -1 <= start && i < |steps| && steps[i] >= 1
    ensures JsRem(WalkPosition(start, steps, i) + steps[i], 12) == ToneIndex(start, steps, i + 1)
  {
    assert PrefixSum(steps, i + 1) == PrefixSum(steps, i) + steps[i];
    if i > 0 {
      var a := start + PrefixSum(steps, i);
      assert WalkPosition(start, steps, i) == a % 12;
      ModShift(a, steps[i]);
    }
  }

  /** The tones a walk by `steps` visits when it starts at `root`, standing
      at position `start`: the root, then for each step k the note the first
      k steps' semitones above `start` on the 12-note circle. */
  function TonesFrom(root: string, start: int, steps: seq<int>): (tones: seq<string>)
    ensures |tones| == |steps| + 1 && tones[0] == root
  {
    [root] + seq(|steps|, k requires 0 <= k < |steps| => Notes[ToneIndex(start, steps, k + 1)])
  }

  /** The tones of `mode` from `root`, walking from the root's position in
      `notes` (-1 for a root that is not a note, as `indexOf` gives); None
      when the mode has no interval list. */
  function ScaleTones(root: string, mode: string): Option<seq<string>>
  {
    match IntervalsOf(mode)
    case None => None
    case Some(steps) => Some(TonesFrom(root, IndexOf(Notes, root), steps))
  }

  lemma ModShift(a: int, b: int)
    ensures (a % 12 + b) % 12 == (a + b) % 12
  {
    var q := a / 12;
    assert a == 12 * q + a % 12;
    assert a + b == 12 * q + (a % 12 + b);
  }

  /** `generateScaleTones(root, mode)`. None when `scaleIntervals[mode]` is
      undefined, where iterating it throws a TypeError. */
  method GenerateScaleTones(root: string, mode: string) returns (tones: Option<seq<string>>)
    ensures tones == ScaleTones(root, mode)
  {
    var lookup := IntervalsOf(mode);
    if lookup.None? {
      return None;
    }
    IntervalsWellFormed(mode);
    var result := WalkCircle(root, IndexOf(Notes, root), lookup.value);
    return Some(result);
  }

  /** The loop of `generateScaleTones`, from `idx = notes.indexOf(root)`
      on: push one note per step while walking the circle with
      JavaScript's `%`. */
  method WalkCircle(root: string, start: int, intervals: seq<int>) returns (result: seq<string>)
    requires -1 <= start < |Notes|
    requires forall j :: 0 <= j < |intervals| ==> intervals[j] >= 1
    ensures result == TonesFrom(root, start, intervals)
  {
    var idx := start;
    result := [root];
    for i := 0 to |intervals|
      invariant |result| == i + 1 && result[0] == root
      invariant idx == WalkPosition(start, intervals, i)
      invariant forall k :: 1 <= k <= i ==> result[k] == Notes[ToneIndex(start, intervals, k)]
    {
      var step := intervals[i];
      WalkStep(start, intervals, i);
      idx := JsRem(idx + step, |Notes|);
      result := result + [Notes[idx]];
    }
  }

  /** A scale of a known mode has eight tones and starts at the root. */
  lemma ScaleTonesShape(root: string, mode: string)
    ensures ScaleTones(root, mode).Some? <==> mode in Scales
    ensures mode in Scales ==> |ScaleTones(root, mode).value| == 8 && ScaleTones(root, mode).value[0] == root
  {
    TablesWellFormed(mode);
  }

  /** A walk of one octave from a position on the circle visits only notes
      and ends where it started. */
  lemma OctaveWalkReturns(root: string, start: int, steps: seq<int>)
    requires 0 <= start < 12 && |steps| == 7 && PrefixSum(steps, 7) == 12
    ensures forall k :: 1 <= k < 8 ==> TonesFrom(root, start, steps)[k] in Notes
    ensures TonesFrom(root, start, steps)[7] == Notes[start]
  {
    forall k | 1 <= k < 8 ensures TonesFrom(root, start, steps)[k] in Notes {
      ToneIsNote(root, start, steps, k);
    }
    OctaveWalkEnds(root, start, steps);
  }

  lemma OctaveWalkEnds(root: string, start: int, steps: seq<int>)
    requires 0 <= start < 12 && |steps| == 7 && PrefixSum(steps, 7) == 12
    ensures TonesFrom(root, start, steps)[7] == Notes[start]
  {
    ToneIsNote(root, start, steps, 7);
    OctaveAround(start, PrefixSum(steps, 7));
  }

  /** Twelve semitones on from a position is the same position. */
  lemma OctaveAround(start: int, shift: int)
    requires 0 <= start < 12 && shift == 12
    ensures (start + shift) % 12 == start
  {
  }

  /** The tone after `k >= 1` steps is the note at its position. */
  lemma ToneIsNote(root: string, start: int, steps: seq<int>, k: nat)
    requires 1 <= k <= |steps|
    ensures TonesFrom(root, start, steps)[k] == Notes[ToneIndex(start, steps, k)]
    ensures TonesFrom(root, start, steps)[k] in Notes
  {
    ElementIn(Notes, ToneIndex(start, steps, k));
  }

  lemma ElementIn(xs: seq<string>, i: nat)
    requires i < |xs|
    ensures xs[i] in xs
  {
  }

  /** For a root in `notes` every tone is a note, and the eighth tone is the
      root again, an octave up. */
  lemma ScaleTonesCloseTheOctave(root: string, mode: string)
    requires root in Notes && mode in Scales
    ensures |ScaleTones(root, mode).value| == 8
    ensures forall k :: 0 <= k < 8 ==> ScaleTones(root, mode).value[k] in Notes
    ensures ScaleTones(root, mode).value[7] == root
  {
    TablesWellFormed(mode);
    OctaveWalkReturns(root, IndexOf(Notes, root), IntervalsOf(mode).value);
  }

  /** A root that is not a note (say, one typed into a shared link) still
      leads the list, but the walk starts from position -1, so the eighth
      tone is "B", not the root. */
  lemma UnknownRootEndsOnB(root: string, mode: string)
    requires root !in Notes && mode in Scales
    ensures |ScaleTones(root, mode).value| == 8
    ensures ScaleTones(root, mode).value[0] == root
    ensures ScaleTones(root, mode).value[7] == "B"
  {
    TablesWellFormed(mode);
    var steps := IntervalsOf(mode).value;
    assert ToneIndex(-1, steps, 7) == 11;
  }

  /** The tones shown on first render: C major. */
  lemma InitialScaleTones()
    ensures ScaleTones("C", "Major") == Some(["C", "D", "E", "F", "G", "A", "B", "C"])
    ensures Join(ScaleTones("C", "Major").value, " - ") == "C - D - E - F - G - A - B - C"
  {
    assert IndexOf(Notes, "C") == 0;
    CMajorWalk();
    CMajorText();
  }

  /** The stored defaults agree with the tables: the default tones are the
      walk of the default root and scale, and the default pattern text is
      that scale's. */
  lemma DefaultsAgreeWithTables()
    ensures ScaleTones(StorageService.DefaultState.rootEl, StorageService.DefaultState.scaleEl)
      == Some(StorageService.DefaultState.tonesArrEl)
    ensures PatternOf(StorageService.DefaultState.scaleEl) == Some(StorageService.DefaultState.tonesEl)
  {
    InitialScaleTones();
  }

  lemma CMajorWalk()
    ensures TonesFrom("C", 0, [2, 2, 1, 2, 2, 2, 1]) == ["C", "D", "E", "F", "G", "A", "B", "C"]
  {
    var steps := [2, 2, 1, 2, 2, 2, 1];
    PrefixSumsOfSeven(steps);
    var tones := TonesFrom("C", 0, steps);
    assert tones[1] == Notes[2] && tones[2] == Notes[4] && tones[3] == Notes[5];
    assert tones[4] == Notes[7] && tones[5] == Notes[9] && tones[6] == Notes[11] && tones[7] == Notes[0];
  }

  lemma CMajorText()
    ensures Join(["C", "D", "E", "F", "G", "A", "B", "C"], " - ") == "C - D - E - F - G - A - B - C"
  {
    var tones, sep := ["C", "D", "E", "F", "G", "A", "B", "C"], " - ";
    var head := tones[..7];
    JoinSeven(head);
    assert head[0] == "C" && head[1] == "D" && head[2] == "E" && head[3] == "F";
    assert head[4] == "G" && head[5] == "A" && head[6] == "B";
    assert Join(head, sep) == "C - D - E - F - G - A - B";
    assert Join(tones, sep) == Join(head, sep) + sep + "C";
  }

  // ------------------------------------------------------------------ locks

  datatype LockedState = LockedState(root: bool, scaleAndTones: bool, bpm: bool, sound: bool)

  /** The keys of `LockedState`. */
  datatype LockParam = Root | ScaleAndTones | Bpm | Sound

  function IsLocked(s: LockedState, p: LockParam): bool
  {
    match p
    case Root => s.root
    case ScaleAndTones => s.scaleAndTones
    case Bpm => s.bpm
    case Sound => s.sound
  }

  /** The updater `s => ({ ...s, [param]: !s[param] })` of `toggleLock`:
      flips exactly the flag `p`. */
  function FlipLock(s: LockedState, p: LockParam): (t: LockedState)
    ensures IsLocked(t, p) == !IsLocked(s, p)
    ensures forall q :: q != p ==> IsLocked(t, q) == IsLocked(s, q)
  {
    match p
    case Root => s.(root := !s.root)
    case ScaleAndTones => s.(scaleAndTones := !s.scaleAndTones)
    case Bpm => s.(bpm := !s.bpm)
    case Sound => s.(sound := !s.sound)
  }

  /** Toggling the same lock twice restores the locks. */
  lemma FlipLockTwice(s: LockedState, p: LockParam)
    ensures FlipLock(FlipLock(s, p), p) == s
  {
  }

  // -------------------------------------------------------------- the dice

  /** The outcomes of `getRandomIndex` for one roll: each is an index below
      the length it was drawn for (`Math.floor(Math.random() * n)`). */
  datatype Draws = Draws(root: nat, scale: nat, sound: nat, bpm: nat)

  predicate DrawsInRange(d: Draws)
  {
    d.root < |Notes| && d.scale < |Scales| && d.sound < |Sounds| && d.bpm < MaxBpm + 1
  }

  /** The BPM a draw in [0, 140] gives: raised to 75 when below it. */
  function BpmFromDraw(draw: nat): (bpm: nat)
    requires draw <= MaxBpm
    ensures MinBpm <= bpm <= MaxBpm
    ensures draw >= MinBpm ==> bpm == draw
    ensures draw < MinBpm ==> bpm == MinBpm
  {
    if draw < MinBpm then MinBpm else draw
  }

  /** The fields the generator shows (its own state and the parent's
      values it sets through the setter props). */
  datatype GeneratorState = GeneratorState(
    animate: bool,
    rootEl: string,
    scaleEl: string,
    tonesEl: string,
    computedScaleNotes: string,
    bpmEl: string,
    soundEl: string,
    locked: LockedState)

  /** The writes `rollDice` makes before it computes the tones: `animate`
      cleared, then the root, and the scale with its pattern text from
      `scalePatterns` as written, each re-drawn unless locked. */
  function ChooseRootAndScale(s: GeneratorState, d: Draws): GeneratorState
    requires DrawsInRange(d)
  {
    ScaleHasTables(d.scale);
    var newRoot := if s.locked.root then s.rootEl else Notes[d.root];
    var newScale := if s.locked.scaleAndTones then s.scaleEl else Scales[d.scale];
    var newTones := if s.locked.scaleAndTones then s.tonesEl else PatternOf(newScale).value;
    s.(animate := false, rootEl := newRoot, scaleEl := newScale, tonesEl := newTones)
  }

  /** The state after `rollDice` with draws `d`. When the scale is locked to
      a name that is not a mode, `generateScaleTones` throws after the root
      was set: `animate` stays false and nothing later is set. */
  function Roll(s: GeneratorState, d: Draws): GeneratorState
    requires DrawsInRange(d)
  {
    var partial := ChooseRootAndScale(s, d);
    match ScaleTones(partial.rootEl, partial.scaleEl)
    case None => partial
    case Some(tones) =>
      partial.(
        computedScaleNotes := Join(tones, " - "),
        soundEl := if s.locked.sound then s.soundEl else Sounds[d.sound],
        bpmEl := if s.locked.bpm then s.bpmEl else NatToString(BpmFromDraw(d.bpm)),
        animate := true)
  }

  /** A locked field keeps its value: a locked root its root, a locked scale
      both its scale and its pattern text, a locked sound or BPM its value;
      the locks themselves never change. */
  lemma RollKeepsLocked(s: GeneratorState, d: Draws)
    requires DrawsInRange(d)
    ensures Roll(s, d).locked == s.locked
    ensures s.locked.root ==> Roll(s, d).rootEl == s.rootEl
    ensures s.locked.scaleAndTones ==> Roll(s, d).scaleEl == s.scaleEl && Roll(s, d).tonesEl == s.tonesEl
    ensures s.locked.sound ==> Roll(s, d).soundEl == s.soundEl
    ensures s.locked.bpm ==> Roll(s, d).bpmEl == s.bpmEl
  {
  }

  /** An unlocked field is re-drawn from its table: the root is a note, the
      scale a mode with its own pattern text, the sound one of `sounds`, and
      the BPM the decimal text of the raised draw. */
  lemma RollRedrawsUnlocked(s: GeneratorState, d: Draws)
    requires DrawsInRange(d)
    ensures !s.locked.root ==> Roll(s, d).rootEl == Notes[d.root]
    ensures !s.locked.scaleAndTones ==>
      Roll(s, d).scaleEl == Scales[d.scale] && Some(Roll(s, d).tonesEl) == PatternOf(Scales[d.scale])
    ensures !s.locked.sound && Roll(s, d).animate ==> Roll(s, d).soundEl == Sounds[d.sound]
    ensures !s.locked.bpm && Roll(s, d).animate ==> Roll(s, d).bpmEl == NatToString(BpmFromDraw(d.bpm))
  {
    ScaleHasTables(d.scale);
  }

  /** A re-drawn scale comes with a pattern text that spells its intervals
      exactly when it is not Lydian; a Lydian draw shows the table's
      "T - T - S - T - S - T - T", which does not. */
  lemma RolledPatternSpellsIntervals(s: GeneratorState, d: Draws)
    requires DrawsInRange(d) && !s.locked.scaleAndTones
    ensures IntervalsOf(Roll(s, d).scaleEl).Some?
    ensures Roll(s, d).tonesEl == PatternText(IntervalsOf(Roll(s, d).scaleEl).value) <==>
      Roll(s, d).scaleEl != "Lydian"
    ensures Roll(s, d).scaleEl == "Lydian" ==> Roll(s, d).tonesEl == "T - T - S - T - S - T - T"
  {
    ScaleHasTables(d.scale);
    if Scales[d.scale] == "Lydian" {
      LydianPatternDisagrees();
    } else {
      PatternsMatchIntervals(Scales[d.scale]);
    }
  }

  /** The roll with the corrected table: as `Roll`, but a re-drawn scale
      shows its `IntendedPatternOf` text. */
  function IntendedRoll(s: GeneratorState, d: Draws): GeneratorState
    requires DrawsInRange(d)
  {
    var r := Roll(s, d);
    if s.locked.scaleAndTones then r else r.(tonesEl := IntendedPatternOf(r.scaleEl).value)
  }

  /** The corrected roll differs from `rollDice` only in the pattern text of
      a re-drawn Lydian scale. */
  lemma IntendedRollDiffersOnLydian(s: GeneratorState, d: Draws)
    requires DrawsInRange(d)
    ensures IntendedRoll(s, d).(tonesEl := Roll(s, d).tonesEl) == Roll(s, d)
    ensures IntendedRoll(s, d) == Roll(s, d) <==> s.locked.scaleAndTones || Scales[d.scale] != "Lydian"
  {
    RollRedrawsUnlocked(s, d);
    CorrectedTextDiffers(s.locked.scaleAndTones, Roll(s, d), Scales[d.scale]);
  }

  /** Replacing the text of a state that shows `mode` with its table entry
      by the corrected entry changes it exactly for Lydian. */
  lemma CorrectedTextDiffers(locked: bool, r: GeneratorState, mode: string)
    requires !locked ==> r.scaleEl == mode && Some(r.tonesEl) == PatternOf(mode)
    ensures var t := if locked then r else r.(tonesEl := IntendedPatternOf(r.scaleEl).value);
      t.(tonesEl := r.tonesEl) == r && (t == r <==> locked || mode != "Lydian")
  {
    if !locked && mode == "Lydian" {
      var t := r.(tonesEl := IntendedPatternOf(r.scaleEl).value);
      assert r.tonesEl[8] != t.tonesEl[8];
    }
  }

  /** Every scale the corrected roll re-draws is shown with the text its
      intervals spell. */
  lemma IntendedRollSpellsIntervals(s: GeneratorState, d: Draws)
    requires DrawsInRange(d) && !s.locked.scaleAndTones
    ensures IntendedRoll(s, d).scaleEl == Scales[d.scale]
    ensures IntendedRoll(s, d).tonesEl == PatternText(IntervalsOf(Scales[d.scale]).value)
  {
    RollRedrawsUnlocked(s, d);
    ScaleHasTables(d.scale);
    IntendedPatternsMatchIntervals(Scales[d.scale]);
  }

  /** The BPM text a roll sets reads back, through `parseInt`/`Number`, as
      a tempo in [75, 140]. */
  lemma BpmTextReadsBack(draw: nat)
    requires draw <= MaxBpm
    ensures ParseNumber(NatToString(BpmFromDraw(draw))).Integer?
    ensures MinBpm <= ParseNumber(NatToString(BpmFromDraw(draw))).value <= MaxBpm
  {
    var bpm := BpmFromDraw(draw);
    NumberRoundTrip(Integer(bpm));
    assert NumberToString(Integer(bpm)) == NatToString(bpm);
  }

  /** The roll completes, ending with `animate` true and the computed tones
      of the chosen (possibly locked) root and scale, exactly when the
      chosen scale is a mode; it can only fail with a locked scale. */
  lemma RollRecomputesTones(s: GeneratorState, d: Draws)
    requires DrawsInRange(d)
    ensures Roll(s, d).animate <==> Roll(s, d).scaleEl in Scales
    ensures !Roll(s, d).animate ==> s.locked.scaleAndTones && s.scaleEl !in Scales
    ensures Roll(s, d).animate ==>
      Roll(s, d).computedScaleNotes == Join(ScaleTones(Roll(s, d).rootEl, Roll(s, d).scaleEl).value, " - ")
  {
    ScaleHasTables(d.scale);
    ScaleTonesShape(Roll(s, d).rootEl, Roll(s, d).scaleEl);
  }

  /** The component: its lock flags and computed tones, and the parent's
      fields it displays and sets. */
  class Generator {
    var animate: bool
    var rootEl: string
    var scaleEl: string
    var tonesEl: string
    var computedScaleNotes: string
    var bpmEl: string
    var soundEl: string
    var locked: LockedState

    function State(): GeneratorState
      reads this
    {
      GeneratorState(animate, rootEl, scaleEl, tonesEl, computedScaleNotes, bpmEl, soundEl, locked)
    }

    /** First render: nothing locked, computed tones for C major; the other
        fields are the parent's. */
    constructor (animate: bool, rootEl: string, scaleEl: string, tonesEl: string, bpmEl: string, soundEl: string)
      ensures State() == GeneratorState(animate, rootEl, scaleEl, tonesEl,
                                        "C - D - E - F - G - A - B - C", bpmEl, soundEl,
                                        LockedState(false, false, false, false))
    {
      InitialScaleTones();
      var initial := GenerateScaleTones("C", "Major");
      this.animate := animate;
      this.rootEl := rootEl;
      this.scaleEl := scaleEl;
      this.tonesEl := tonesEl;
      this.computedScaleNotes := Join(initial.value, " - ");
      this.bpmEl := bpmEl;
      this.soundEl := soundEl;
      this.locked := LockedState(false, false, false, false);
    }

    /** `toggleLock(p)`. */
    method ToggleLock(p: LockParam)
      modifies this`locked
      ensures locked == FlipLock(old(locked), p)
    {
      locked := FlipLock(locked, p);
    }

    /** `rollDice()` with the draws `d`; `ok` is false when it threw. */
    method RollDice(d: Draws) returns (ok: bool)
      requires DrawsInRange(d)
      modifies this
      ensures State() == Roll(old(State()), d)
      ensures ok == animate
    {
      DrawRootAndScale(d);
      var tones := GenerateScaleTones(rootEl, scaleEl);
      if tones.None? {
        return false;  // TypeError: the intervals are undefined
      }
      FinishRoll(d, tones.value);
      return true;
    }

    /** The first half of `rollDice()`: the root, then the scale with its
        pattern text, each re-drawn unless locked. */
    method DrawRootAndScale(d: Draws)
      requires DrawsInRange(d)
      modifies this
      ensures State() == ChooseRootAndScale(old(State()), d)
    {
      animate := false;
      if !locked.root {
        rootEl := Notes[d.root];
      }
      if !locked.scaleAndTones {
        ScaleHasTables(d.scale);
        scaleEl := Scales[d.scale];
        tonesEl := PatternOf(scaleEl).value;
      }
    }

    /** The second half, once the tones are computed: the joined tones,
        then sound and BPM unless locked, then the animation flag. */
    method FinishRoll(d: Draws, tones: seq<string>)
      requires DrawsInRange(d)
      modifies this
      ensures State() == old(State()).(
        computedScaleNotes := Join(tones, " - "),
        soundEl := if locked.sound then old(soundEl) else Sounds[d.sound],
        bpmEl := if locked.bpm then old(bpmEl) else NatToString(BpmFromDraw(d.bpm)),
        animate := true)
    {
      computedScaleNotes := Join(tones, " - ");
      if !locked.sound {
        soundEl := Sounds[d.sound];
      }
      if !locked.bpm {
        var bpmVal := d.bpm;
        if bpmVal < MinBpm {
          bpmVal := MinBpm;
        }
        bpmEl := NatToString(bpmVal);
      }
      animate := true;
    }
  }
}
