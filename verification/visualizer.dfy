/** The audio visualizer: a sequence that steps through the notes of the
    scale prop, the note each step plays, the active-note index it sets,
    which bars and scale notes are highlighted, and the play/pause state
    that resets the highlight. */
module Visualizer {
  import opened Wrappers
  import opened JsString

  // ---------------------------------------------------------- the sequence

  /** `scale.map((_, index) => index)`: the values the sequence steps
      through. */
  function SequenceSteps(scale: seq<string>): (steps: seq<int>)
    ensures |steps| == |scale|
    ensures forall i :: 0 <= i < |steps| ==> steps[i] == i
  {
    seq(|scale|, i => i)
  }

  /** `noteIndex > 7 ? 5 : 4`. */
  function Octave(noteIndex: int): (octave: nat)
    ensures octave == 4 || octave == 5
    ensures octave == 5 <==> noteIndex > 7
  {
    if noteIndex > 7 then 5 else 4
  }

  /** The note a step plays: the scale entry at `noteIndex % scale.length`
      followed by `String(octave)`. */
  function NoteLabel(scale: seq<string>, noteIndex: nat): string
    requires |scale| > 0
  {
    scale[noteIndex % |scale|] + NatToString(Octave(noteIndex))
  }

  /** The active-note index a step sets, `noteIndex % scale.length`. */
  function ActiveIndex(scale: seq<string>, noteIndex: nat): (k: int)
    requires |scale| > 0
    ensures 0 <= k < |scale|
    ensures noteIndex < |scale| ==> k == noteIndex
  {
    noteIndex % |scale|
  }

  /** Each step of the sequence plays its own entry of the scale, an
      octave digit after it: 4 for the first eight steps and 5 after.
      A scale of at most eight notes plays in octave 4 throughout. */
  lemma StepLabels(scale: seq<string>, i: nat)
    requires i < |scale|
    ensures NoteLabel(scale, SequenceSteps(scale)[i]) == scale[i] + (if i > 7 then "5" else "4")
    ensures |scale| <= 8 ==> NoteLabel(scale, SequenceSteps(scale)[i]) == scale[i] + "4"
    ensures ActiveIndex(scale, SequenceSteps(scale)[i]) == i
  {
    assert NatToString(4) == "4" && NatToString(5) == "5";
  }

  // ------------------------------------------------------------ highlights

  /** Bar `index` is highlighted when `index % scale.length` is the active
      index; with an empty scale the remainder is NaN and no bar is. */
  function BarIsActive(index: nat, scaleLength: nat, active: int): (b: bool)
    ensures b ==> 0 <= active < scaleLength
  {
    scaleLength > 0 && index % scaleLength == active
  }

  /** A scale note is highlighted when it is the active one. */
  function NoteIsActive(index: nat, active: int): bool
  {
    index == active
  }

  /** The line under the scale: the active note, or "Ready to play" when
      no note is active; an index past the end of the scale reads
      "undefined". */
  function NoteInfo(scale: seq<string>, active: int): string
  {
    if active >= 0 then "Playing: " + (if active < |scale| then scale[active] else "undefined")
    else "Ready to play"
  }

  /** After step `i`, bar `k` is highlighted exactly when it falls on the
      same note of the scale; the bars repeat the scale's pattern. */
  lemma BarsFollowStep(scale: seq<string>, i: nat, k: nat)
    requires |scale| > 0
    ensures BarIsActive(k, |scale|, ActiveIndex(scale, i)) <==> k % |scale| == i % |scale|
    ensures BarIsActive(k, |scale|, ActiveIndex(scale, i)) <==> BarIsActive(k + |scale|, |scale|, ActiveIndex(scale, i))
  {
    ModAddPeriod(k, |scale|);
  }

  lemma ModAddPeriod(k: nat, n: nat)
    requires n > 0
    ensures (k + n) % n == k % n
  {
    var q, r := k / n, k % n;
    assert k == q * n + r;
    assert k + n == (q + 1) * n + r;
    ModUnique(k + n, n, q + 1, r);
  }

  /** The remainder is the one `r` with `a == q * n + r` and `0 <= r < n`. */
  lemma ModUnique(a: nat, n: nat, q: int, r: int)
    requires n > 0 && 0 <= r < n && a == q * n + r
    ensures a % n == r
  {
    var q', r' := a / n, a % n;
    assert a == q' * n + r';
    assert (q - q') * n == q * n - q' * n;
    if q - q' >= 1 {
      MulAtLeast(q - q', n);
      assert false;
    } else if q' - q >= 1 {
      assert (q' - q) * n == q' * n - q * n;
      MulAtLeast(q' - q, n);
      assert false;
    }
  }

  lemma {:induction false} MulAtLeast(d: nat, n: nat)
    requires d >= 1
    ensures d * n >= n
  {
    if d > 1 {
      MulAtLeast(d - 1, n);
      assert d * n == (d - 1) * n + n;
    }
  }

  /** With no active note nothing is highlighted and the line reads
      "Ready to play"; with an active note inside the scale it names it. */
  lemma IdleDisplay(scale: seq<string>, k: nat)
    ensures !BarIsActive(k, |scale|, -1) && !NoteIsActive(k, -1)
    ensures NoteInfo(scale, -1) == "Ready to play"
    ensures forall a :: 0 <= a < |scale| ==> NoteInfo(scale, a) == "Playing: " + scale[a]
  {
  }

  // ---------------------------------------------------------------- state

  /** `isPlaying`, `activeNoteIndex`, the `scale` and `bpm` props,
      whether the current `Tone.Sequence` has been started, and the draws
      queued with `Tone.Draw.schedule` that have not run yet, each the
      active index it will set, oldest first. The sequence is rebuilt by
      the effect on `[scale, bpm]` and started only by the effect on
      `[isPlaying]`; a step fires only from a started sequence while the
      transport runs, and queues its draw, which runs later on its own. */
  datatype VisualizerState = VisualizerState(
    isPlaying: bool, sequenceStarted: bool, activeNoteIndex: int, scale: seq<string>, bpm: int,
    pendingDraws: seq<int>)

  /** Paused means no active note, and every queued draw sets an index of
      a note. */
  predicate Settled(s: VisualizerState)
  {
    && s.activeNoteIndex >= -1
    && (forall k :: 0 <= k < |s.pendingDraws| ==> s.pendingDraws[k] >= 0)
    && (!s.isPlaying ==> s.activeNoteIndex == -1)
  }

  /** Whether step events reach the component: the transport runs and the
      current sequence was started. */
  predicate Sounding(s: VisualizerState)
  {
    s.isPlaying && s.sequenceStarted
  }

  /** The component as mounted: the sequence built but not started, not
      playing, no active note. */
  function Mounted(scale: seq<string>, bpm: int): (t: VisualizerState)
    ensures Settled(t) && !Sounding(t)
    ensures t.scale == scale && t.bpm == bpm && t.pendingDraws == []
  {
    VisualizerState(false, false, -1, scale, bpm, [])
  }

  /** `togglePlay()` and the effect on `isPlaying` it triggers: playing
      flips; playing starts the current sequence, a pause resets the active
      index. `Tone.Transport.pause()` leaves the queued draws in place. */
  function AfterToggle(s: VisualizerState): (t: VisualizerState)
    ensures t.isPlaying == !s.isPlaying && t.scale == s.scale && t.bpm == s.bpm
    ensures t.pendingDraws == s.pendingDraws
    ensures !t.isPlaying ==> t.activeNoteIndex == -1 && t.sequenceStarted == s.sequenceStarted
    ensures t.isPlaying ==> t.activeNoteIndex == s.activeNoteIndex && Sounding(t)
  {
    if s.isPlaying then s.(isPlaying := false, activeNoteIndex := -1)
    else s.(isPlaying := true, sequenceStarted := true)
  }

  /** One step of the running sequence on the value `noteIndex`: the note
      it plays, and the active index it sets. The sequence only fires
      while sounding, on the values `SequenceSteps(scale)`. */
  function StepPlayed(s: VisualizerState, noteIndex: nat): (played: Option<string>)
    ensures played.Some? <==> Sounding(s) && noteIndex < |s.scale|
  {
    if Sounding(s) && noteIndex < |s.scale| then Some(NoteLabel(s.scale, noteIndex)) else None
  }

  /** The same step's effect on the state: it queues, with
      `Tone.Draw.schedule`, the draw that will set the active index to
      `noteIndex % scale.length`; the index itself does not change yet. */
  function AfterStep(s: VisualizerState, noteIndex: nat): (t: VisualizerState)
    ensures t.isPlaying == s.isPlaying && t.sequenceStarted == s.sequenceStarted
    ensures t.scale == s.scale && t.bpm == s.bpm && t.activeNoteIndex == s.activeNoteIndex
    ensures Sounding(s) && noteIndex < |s.scale| ==> t.pendingDraws == s.pendingDraws + [noteIndex]
    ensures !(Sounding(s) && noteIndex < |s.scale|) ==> t == s
  {
    if Sounding(s) && noteIndex < |s.scale|
    then s.(pendingDraws := s.pendingDraws + [ActiveIndex(s.scale, noteIndex)])
    else s
  }

  /** The oldest queued draw runs on an animation frame: it sets the
      active index it carries, whether or not the visualizer is still
      playing. With nothing queued nothing happens. */
  function DrawFired(s: VisualizerState): (t: VisualizerState)
    ensures t.isPlaying == s.isPlaying && t.sequenceStarted == s.sequenceStarted
    ensures t.scale == s.scale && t.bpm == s.bpm
    ensures s.pendingDraws != [] ==>
      t.activeNoteIndex == s.pendingDraws[0] && s.pendingDraws == [s.pendingDraws[0]] + t.pendingDraws
    ensures s.pendingDraws == [] ==> t == s
  {
    if s.pendingDraws == [] then s
    else s.(activeNoteIndex := s.pendingDraws[0], pendingDraws := s.pendingDraws[1..])
  }

  /** A render with new `scale` or `bpm` props: the effect disposes the
      sequence and builds a new one that nobody starts; the transport tempo
      becomes `bpm`; playing and the active index stay. Unchanged props do
      not re-run the effect. */
  function AfterPropsChange(s: VisualizerState, scale: seq<string>, bpm: int): (t: VisualizerState)
    ensures t.scale == scale && t.bpm == bpm
    ensures t.isPlaying == s.isPlaying && t.activeNoteIndex == s.activeNoteIndex
    ensures t.pendingDraws == s.pendingDraws
    ensures scale != s.scale || bpm != s.bpm ==> !t.sequenceStarted
    ensures scale == s.scale && bpm == s.bpm ==> t == s
  {
    if scale == s.scale && bpm == s.bpm then s
    else s.(scale := scale, bpm := bpm, sequenceStarted := false)
  }

  /** The events that check `isPlaying`, or that the component runs
      itself, keep a paused visualizer idle: a toggle, a step and a change
      of props. A queued draw keeps it idle only while playing or when
      nothing is queued; `LateDrawWhilePaused` shows the other case. */
  lemma SettledPreserved(s: VisualizerState, noteIndex: nat, scale: seq<string>, bpm: int)
    requires Settled(s)
    ensures Settled(AfterToggle(s)) && Settled(AfterStep(s, noteIndex))
    ensures Settled(AfterPropsChange(s, scale, bpm))
    ensures s.isPlaying || s.pendingDraws == [] ==> Settled(DrawFired(s))
  {
    if s.pendingDraws != [] {
      var t := DrawFired(s);
      forall k | 0 <= k < |t.pendingDraws|
        ensures t.pendingDraws[k] >= 0
      {
        assert t.pendingDraws[k] == s.pendingDraws[k + 1];
      }
    }
    if Sounding(s) && noteIndex < |s.scale| {
      var t := AfterStep(s, noteIndex);
      forall k | 0 <= k < |t.pendingDraws|
        ensures t.pendingDraws[k] >= 0
      {
        if k < |s.pendingDraws| {
          assert t.pendingDraws[k] == s.pendingDraws[k];
        }
      }
    }
  }

  /** A draw queued by the last step before a pause runs after the pause
      has cleared the active index: the paused visualizer then reads
      "Playing: " and the note, and highlights it. */
  lemma LateDrawWhilePaused(s: VisualizerState, i: nat)
    requires Sounding(s) && s.pendingDraws == [] && i < |s.scale|
    ensures var paused := AfterToggle(AfterStep(s, i));
      && !paused.isPlaying && NoteInfo(paused.scale, paused.activeNoteIndex) == "Ready to play"
      && var t := DrawFired(paused);
      && !t.isPlaying && !Settled(t)
      && NoteInfo(t.scale, t.activeNoteIndex) == "Playing: " + s.scale[i]
      && NoteIsActive(i, t.activeNoteIndex)
  {
  }

  /** Pausing shows "Ready to play" and highlights nothing; toggling twice
      restores `isPlaying`. */
  lemma PauseResets(s: VisualizerState, k: nat)
    requires s.isPlaying
    ensures var t := AfterToggle(s);
      !t.isPlaying && NoteInfo(t.scale, t.activeNoteIndex) == "Ready to play" &&
      !BarIsActive(k, |t.scale|, t.activeNoteIndex)
    ensures AfterToggle(AfterToggle(s)).isPlaying == s.isPlaying
  {
  }

  /** While sounding with no draw outstanding, a step and the draw it
      queues name its note on the info line and highlight its scale note
      and no other. */
  lemma StepShowsNote(s: VisualizerState, i: nat, k: nat)
    requires Sounding(s) && i < |s.scale| && s.pendingDraws == []
    ensures var t := DrawFired(AfterStep(s, i));
      && NoteInfo(t.scale, t.activeNoteIndex) == "Playing: " + s.scale[i]
      && (NoteIsActive(k, t.activeNoteIndex) <==> k == i)
      && t.pendingDraws == []
  {
  }

  /** A change of scale or tempo silences the visualizer: no step fires and
      nothing changes, while `isPlaying` still says playing, until a pause
      and a play start the new sequence, from which every step fires. */
  lemma PropsChangeSilences(s: VisualizerState, scale: seq<string>, bpm: int, i: nat)
    requires scale != s.scale || bpm != s.bpm
    ensures var t := AfterPropsChange(s, scale, bpm);
      && t.isPlaying == s.isPlaying
      && StepPlayed(t, i).None? && AfterStep(t, i) == t
    ensures var t := AfterPropsChange(s, scale, bpm);
      var resumed := if s.isPlaying then AfterToggle(AfterToggle(t)) else AfterToggle(t);
      resumed.isPlaying && resumed.scale == scale &&
      (StepPlayed(resumed, i).Some? <==> i < |scale|)
  {
  }

  /** The highlight it leaves is stale: an active index past the end of a
      shorter new scale reads "Playing: undefined". */
  lemma StaleHighlight(s: VisualizerState, scale: seq<string>, bpm: int)
    requires s.isPlaying && s.activeNoteIndex >= |scale|
    ensures var t := AfterPropsChange(s, scale, bpm);
      NoteInfo(t.scale, t.activeNoteIndex) == "Playing: undefined"
  {
  }

  /** The effect as evidently meant: a rebuilt sequence is started again
      when the visualizer is playing. */
  function IntendedPropsChange(s: VisualizerState, scale: seq<string>, bpm: int): (t: VisualizerState)
    ensures t.scale == scale && t.bpm == bpm && t.isPlaying == s.isPlaying
  {
    if scale == s.scale && bpm == s.bpm then s
    else s.(scale := scale, bpm := bpm, sequenceStarted := s.isPlaying)
  }

  /** With the intended effect a playing visualizer goes on sounding
      through a change of props, and it keeps a paused one idle. */
  lemma IntendedPropsChangeKeepsSounding(s: VisualizerState, scale: seq<string>, bpm: int, i: nat)
    requires Settled(s) && (scale != s.scale || bpm != s.bpm)
    ensures var t := IntendedPropsChange(s, scale, bpm);
      Settled(t) && (StepPlayed(t, i).Some? <==> s.isPlaying && i < |scale|)
  {
  }

  /** The component. */
  class VisualizerComponent {
    var isPlaying: bool
    var sequenceStarted: bool
    var activeNoteIndex: int
    var scale: seq<string>
    var bpm: int
    var pendingDraws: seq<int>

    function State(): VisualizerState
      reads this
    {
      VisualizerState(isPlaying, sequenceStarted, activeNoteIndex, scale, bpm, pendingDraws)
    }

    /** `useState(false)` and `useState(-1)`, then the effects' first runs:
        the sequence is built, and the pause branch leaves it unstarted. */
    constructor (scale: seq<string>, bpm: int)
      ensures State() == Mounted(scale, bpm)
    {
      isPlaying := false;
      sequenceStarted := false;
      activeNoteIndex := -1;
      this.scale := scale;
      this.bpm := bpm;
      pendingDraws := [];
    }

    /** `togglePlay`, then the play/pause effect. */
    method TogglePlay()
      modifies this
      ensures State() == AfterToggle(old(State()))
    {
      isPlaying := !isPlaying;
      if isPlaying {
        sequenceStarted := true;
      } else {
        activeNoteIndex := -1;
      }
    }

    /** The sequence callback: it plays the note and schedules its
        drawing callback. */
    method Step(noteIndex: nat) returns (played: Option<string>)
      modifies this`pendingDraws
      ensures played == StepPlayed(old(State()), noteIndex)
      ensures State() == AfterStep(old(State()), noteIndex)
    {
      played := None;
      if isPlaying && sequenceStarted && noteIndex < |scale| {
        var octave := if noteIndex > 7 then 5 else 4;
        played := Some(scale[noteIndex % |scale|] + NatToString(octave));
        pendingDraws := pendingDraws + [noteIndex % |scale|];
      }
    }

    /** The oldest scheduled drawing callback runs. */
    method Draw()
      modifies this`activeNoteIndex, this`pendingDraws
      ensures State() == DrawFired(old(State()))
    {
      if pendingDraws != [] {
        activeNoteIndex := pendingDraws[0];
        pendingDraws := pendingDraws[1..];
      }
    }

    /** A render with new `scale` and `bpm` props, and the effect on them
        when either changed. */
    method SetProps(newScale: seq<string>, newBpm: int)
      modifies this`scale, this`bpm, this`sequenceStarted
      ensures State() == AfterPropsChange(old(State()), newScale, newBpm)
    {
      if newScale != scale || newBpm != bpm {
        scale := newScale;
        bpm := newBpm;
        sequenceStarted := false;
      }
    }
  }
}
