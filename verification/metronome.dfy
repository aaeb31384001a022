/** The metronome: a playing flag toggled by clicking the image, a mute
    flag toggled by clicking the speaker, and a pendulum direction flipped
    by a repeating interval. The interval is (re)created by an effect that
    runs only when `playing` or `bpm` changes; its callback closes over the
    mute flag of that run. */
module Metronome {
  import opened Wrappers

  /** The delay `setInterval` receives for `60000 / bpm`: the quotient
      truncated to a whole number of milliseconds (WebIDL's `long`
      conversion), and 0 where the quotient is infinite or negative. */
  function TimerDelay(bpm: int): (ms: nat)
    ensures bpm > 0 ==> ms * bpm <= 60000 < (ms + 1) * bpm
    ensures bpm <= 0 ==> ms == 0
  {
    if bpm > 0 then 60000 / bpm else 0
  }

  /** The period the component asks for, `60000 / bpm` milliseconds. */
  function NominalPeriod(bpm: int): (ms: real)
    requires bpm > 0
    ensures ms * bpm as real == 60000.0
  {
    60000.0 / bpm as real
  }

  /** The timer runs at the asked-for period truncated to whole
      milliseconds. */
  lemma DelayTruncatesPeriod(bpm: int)
    requires bpm > 0
    ensures TimerDelay(bpm) as real <= NominalPeriod(bpm) < TimerDelay(bpm) as real + 1.0
  {
    var d, b, p := TimerDelay(bpm) as real, bpm as real, NominalPeriod(bpm);
    assert d * b <= 60000.0 < (d + 1.0) * b;
    assert p * b == 60000.0;
    assert d * b <= p * b;
    assert p * b < (d + 1.0) * b;
  }

  /** A running `setInterval`: its delay and the mute flag its callback
      reads. */
  datatype Interval = Interval(delay: nat, muted: bool)

  /** The component's state: the `bpm` prop, its three flags, and the
      interval the last effect run left (None once it is cleared). */
  datatype MetronomeState = MetronomeState(
    bpm: int, playing: bool, direction: bool, muted: bool, interval: Option<Interval>)

  /** An interval runs exactly while playing, at the delay of the current
      `bpm`. */
  predicate Consistent(s: MetronomeState)
  {
    (s.interval.Some? <==> s.playing) &&
    (s.interval.Some? ==> s.interval.value.delay == TimerDelay(s.bpm))
  }

  /** The effect: its cleanup clears the previous interval, and when
      playing it starts one at the current `bpm` over the current mute
      flag. */
  function EffectRun(s: MetronomeState): (t: MetronomeState)
    ensures Consistent(t)
    ensures t.interval.Some? ==> t.interval.value.muted == s.muted
    ensures t.(interval := s.interval) == s
  {
    s.(interval := if s.playing then Some(Interval(TimerDelay(s.bpm), s.muted)) else None)
  }

  /** Mounting: all three flags false, and the first effect run, which
      starts nothing. */
  function Mounted(bpm: int): (t: MetronomeState)
    ensures Consistent(t) && !t.playing && !t.direction && !t.muted
  {
    EffectRun(MetronomeState(bpm, false, false, false, None))
  }

  /** Clicking the image flips `playing`; the effect re-runs. */
  function AfterPlayClick(s: MetronomeState): (t: MetronomeState)
    ensures t.playing == !s.playing
    ensures t.muted == s.muted && t.direction == s.direction && t.bpm == s.bpm
    ensures Consistent(t)
  {
    EffectRun(s.(playing := !s.playing))
  }

  /** Clicking the speaker flips `muteSound`; the effect does not depend on
      it, so the interval is untouched. */
  function AfterMuteClick(s: MetronomeState): (t: MetronomeState)
    ensures t.muted == !s.muted
    ensures t.playing == s.playing && t.direction == s.direction && t.bpm == s.bpm
    ensures t.interval == s.interval
  {
    s.(muted := !s.muted)
  }

  /** A new `bpm` prop: the effect re-runs only when the value changed. */
  function AfterBpmChange(s: MetronomeState, bpm: int): (t: MetronomeState)
    ensures t.bpm == bpm
    ensures t.playing == s.playing && t.muted == s.muted && t.direction == s.direction
    ensures bpm != s.bpm ==> Consistent(t)
    ensures bpm == s.bpm ==> t == s
  {
    if bpm == s.bpm then s else EffectRun(s.(bpm := bpm))
  }

  /** Unmounting: the cleanup clears the interval. */
  function Unmounted(s: MetronomeState): (t: MetronomeState)
    ensures t.interval.None? && t.(interval := s.interval) == s
  {
    s.(interval := None)
  }

  /** One firing of the interval: the direction flips, muted or not.
      Without an interval nothing fires. */
  function AfterTick(s: MetronomeState): MetronomeState
  {
    if s.interval.Some? then s.(direction := !s.direction) else s
  }

  /** Whether that firing plays the click: exactly when the mute flag the
      callback closed over is false. */
  function TickSounds(s: MetronomeState): bool
  {
    s.interval.Some? && !s.interval.value.muted
  }

  /** `n` firings in a row. */
  function Ticks(s: MetronomeState, n: nat): MetronomeState
    decreases n
  {
    if n == 0 then s else Ticks(AfterTick(s), n - 1)
  }

  /** Every operation keeps the interval in step with `playing` and `bpm`. */
  lemma ConsistentPreserved(s: MetronomeState, bpm: int)
    requires Consistent(s)
    ensures Consistent(AfterPlayClick(s)) && Consistent(AfterMuteClick(s))
    ensures Consistent(AfterBpmChange(s, bpm)) && Consistent(AfterTick(s))
  {
  }

  /** Ticks happen only while playing: a stopped metronome neither sounds
      nor moves. */
  lemma TicksOnlyWhilePlaying(s: MetronomeState)
    requires Consistent(s)
    ensures TickSounds(s) ==> s.playing
    ensures !s.playing ==> AfterTick(s) == s && !TickSounds(s)
  {
  }

  /** Stopping clears the interval, and a `bpm` change while playing
      replaces it by one at the new delay. */
  lemma StopAndRetempo(s: MetronomeState, bpm: int)
    requires Consistent(s)
    ensures s.playing ==> AfterPlayClick(s).interval.None?
    ensures s.playing && bpm != s.bpm ==>
      AfterBpmChange(s, bpm).interval == Some(Interval(TimerDelay(bpm), s.muted))
  {
  }

  /** While an interval runs, `n` firings leave the direction flipped
      exactly when `n` is odd, and change nothing else. */
  lemma {:induction false} DirectionAfterTicks(s: MetronomeState, n: nat)
    requires s.interval.Some?
    ensures Ticks(s, n).direction == (s.direction != (n % 2 == 1))
    ensures Ticks(s, n).(direction := s.direction) == s
    decreases n
  {
    if n > 0 {
      DirectionAfterTicks(AfterTick(s), n - 1);
    }
  }

  /** Muting mid-run does not reach the running interval: its firings sound
      as before. */
  lemma MuteWaitsForRestart(s: MetronomeState)
    ensures TickSounds(AfterMuteClick(s)) == TickSounds(s)
  {
  }

  /** The mute flag does take effect once the effect re-runs: after
      stopping and starting again, or after a `bpm` change while playing,
      the firings sound exactly when the current flag is off. */
  lemma MuteTakesEffectOnRerun(s: MetronomeState, bpm: int)
    ensures s.playing ==> TickSounds(AfterPlayClick(AfterPlayClick(s))) == !s.muted
    ensures s.playing && bpm != s.bpm ==> TickSounds(AfterBpmChange(s, bpm)) == !s.muted
  {
  }

  /** Two clicks on the image restore `playing`, and two on the speaker
      restore the mute flag. */
  lemma TogglesTwice(s: MetronomeState)
    requires Consistent(s)
    ensures AfterPlayClick(AfterPlayClick(s)).playing == s.playing
    ensures AfterMuteClick(AfterMuteClick(s)) == s
  {
  }

  /** The component. */
  class MetronomeComponent {
    var bpm: int
    var playing: bool
    var direction: bool
    var muted: bool
    var interval: Option<Interval>

    function State(): MetronomeState
      reads this
    {
      MetronomeState(bpm, playing, direction, muted, interval)
    }

    /** The three `useState(false)` and the effect's first run. */
    constructor (bpm: int)
      ensures State() == Mounted(bpm)
    {
      this.bpm := bpm;
      playing := false;
      direction := false;
      muted := false;
      interval := None;
    }

    /** The effect after a render whose `playing` or `bpm` changed. */
    method RunEffect()
      modifies this`interval
      ensures State() == EffectRun(old(State()))
    {
      interval := None;
      if playing {
        interval := Some(Interval(TimerDelay(bpm), muted));
      }
    }

    /** The image's `onClick`. */
    method TogglePlay()
      modifies this
      ensures State() == AfterPlayClick(old(State()))
    {
      playing := !playing;
      RunEffect();
    }

    /** The speaker's `onClick`. */
    method ToggleMute()
      modifies this`muted
      ensures State() == AfterMuteClick(old(State()))
    {
      muted := !muted;
    }

    /** A render with a new `bpm` prop. */
    method SetBpm(newBpm: int)
      modifies this
      ensures State() == AfterBpmChange(old(State()), newBpm)
    {
      if newBpm != bpm {
        bpm := newBpm;
        RunEffect();
      }
    }

    /** The interval callback: play the click unless the captured flag is
        set, and flip the direction. */
    method Tick() returns (sound: bool)
      modifies this`direction
      ensures sound == TickSounds(old(State()))
      ensures State() == AfterTick(old(State()))
    {
      sound := false;
      if interval.Some? {
        sound := !interval.value.muted;
        direction := !direction;
      }
    }

    /** The cleanup on unmount. */
    method Unmount()
      modifies this`interval
      ensures State() == Unmounted(old(State()))
    {
      interval := None;
    }
  }
}
