/**
 The breathing session of the timer screen, as values.

 A `Session` holds what the screen keeps between renders: the countdown, the
 run and mute flags, the breathing phase with the scale the animation is heading
 for, the status of the looping ambient sound, and whether the 1-second and the
 4-second intervals are registered. Each function below is one atomic step: a
 button handler or an interval callback, followed by the effect keyed on
 `isRunning` whenever that step changed `isRunning`.
 */
module Breathing {

  /** Length of a session in seconds: the initial and the reset value of the countdown. */
  const SessionLength: int := 60

  /** Animation targets in hundredths of the circle's natural size (scale 1 and scale 1.2). */
  const RestScale: nat := 100
  const ExpandedScale: nat := 120

  datatype Phase = Inhale | Exhale

  /** The looping ambient track: none until a load succeeds, then playing or stopped, muted or not. */
  datatype Sound = NoSound | Loaded(playing: bool, muted: bool)

  datatype Session = Session(
    timeLeft: int,
    isRunning: bool,
    isMuted: bool,
    phase: Phase,
    scaleTarget: nat,
    sound: Sound,
    countdownTimer: bool,  // a 1-second interval is registered
    breatheTimer: bool)    // a 4-second interval is registered

  /** The state the screen is created with, before its first effect runs. */
  const Initial: Session :=
    Session(SessionLength, false, false, Inhale, RestScale, NoSound, false, false)

  /** The session with its countdown, phase and scale back at their initial values. */
  predicate AtDefaults(s: Session) {
    s.timeLeft == SessionLength && !s.isRunning && s.phase == Inhale && s.scaleTarget == RestScale
  }

  /** The scale the animation is sent towards when phase `p` begins. */
  function TargetFor(p: Phase): nat {
    if p == Exhale then ExpandedScale else RestScale
  }

  /**
   What holds after every step: the countdown stays within 0..60, the scale target
   belongs to the phase, both intervals are registered exactly while running, and
   a loaded sound plays exactly while running.
   */
  predicate Valid(s: Session) {
    && 0 <= s.timeLeft <= SessionLength
    && s.scaleTarget == TargetFor(s.phase)
    && s.countdownTimer == s.isRunning
    && s.breatheTimer == s.isRunning
    && (s.sound.Loaded? ==> s.sound.playing == s.isRunning)
  }

  /** A loaded sound's mute flag agrees with the screen's. */
  predicate MuteMirrored(s: Session) {
    s.sound.Loaded? ==> s.sound.muted == s.isMuted
  }

  // ---------------------------------------------------------------------------
  // The updaters passed to setTimeLeft and setBreathePhase

  /** Whether the countdown updater ends the session (it then also stops running and the sound). */
  predicate EndsSession(prev: int) {
    prev <= 1
  }

  /** The countdown updater: one second less, never below zero. */
  function Countdown(prev: int): (next: int)
    ensures next >= 0
    ensures prev >= 1 ==> next == prev - 1
    ensures next == 0 <==> EndsSession(prev)
  {
    if EndsSession(prev) then 0 else prev - 1
  }

  /** The phase updater: inhale and exhale alternate. */
  function NextPhase(p: Phase): (q: Phase)
    ensures q != p
  {
    if p == Inhale then Exhale else Inhale
  }

  // ---------------------------------------------------------------------------
  // The audio helpers, each guarded by the presence of a loaded sound

  /** loadSound: nothing if a sound exists; otherwise create one, stopped and unmuted, when the asset loads. */
  function LoadSound(snd: Sound, assetLoads: bool): (r: Sound)
    ensures snd.Loaded? ==> r == snd
    ensures r.Loaded? <==> snd.Loaded? || assetLoads
    ensures snd.NoSound? && r.Loaded? ==> !r.playing && !r.muted
  {
    if snd.Loaded? then snd
    else if assetLoads then Loaded(playing := false, muted := false)
    else NoSound
  }

  /** playSound: start a loaded sound; no effect without one. */
  function PlaySound(snd: Sound): (r: Sound)
    ensures r.Loaded? == snd.Loaded?
    ensures r.Loaded? ==> r.playing && r.muted == snd.muted
  {
    if snd.Loaded? then snd.(playing := true) else snd
  }

  /** stopSound: stop a loaded sound; no effect without one. */
  function StopSound(snd: Sound): (r: Sound)
    ensures r.Loaded? == snd.Loaded?
    ensures r.Loaded? ==> !r.playing && r.muted == snd.muted
  {
    if snd.Loaded? then snd.(playing := false) else snd
  }

  /** The mute apply of toggleMute: push `muted` to a loaded sound; no effect without one. */
  function ApplyMute(snd: Sound, muted: bool): (r: Sound)
    ensures r.Loaded? == snd.Loaded?
    ensures r.Loaded? ==> r.muted == muted && r.playing == snd.playing
  {
    if snd.Loaded? then snd.(muted := muted) else snd
  }

  // ---------------------------------------------------------------------------
  // The effect keyed on isRunning

  /**
   One run of the effect: the cleanup of the previous run clears both intervals;
   then the sound is loaded if there is none, and either played with both
   intervals registered (running) or stopped (not running).
   */
  function RunEffect(s: Session, assetLoads: bool): (r: Session)
    ensures r.sound.Loaded? ==> r.sound.playing == s.isRunning
    ensures r.sound.Loaded? <==> s.sound.Loaded? || assetLoads
    ensures r.countdownTimer == s.isRunning && r.breatheTimer == s.isRunning
    ensures s.sound.Loaded? ==> r.sound.muted == s.sound.muted
    ensures s.sound.NoSound? && r.sound.Loaded? ==> !r.sound.muted
    ensures r.(sound := s.sound, countdownTimer := s.countdownTimer, breatheTimer := s.breatheTimer) == s
  {
    var cleared := s.(countdownTimer := false, breatheTimer := false);
    var snd := LoadSound(s.sound, assetLoads);
    if s.isRunning then
      cleared.(sound := PlaySound(snd), countdownTimer := true, breatheTimer := true)
    else
      cleared.(sound := StopSound(snd))
  }

  /**
   The effect re-runs after a step exactly when the step changed `isRunning`: the
   intervals then follow the new run flag, and only the sound and the intervals
   differ from the state the step left.
   */
  function Commit(before: Session, after: Session, assetLoads: bool): (r: Session)
    ensures after.isRunning == before.isRunning ==> r == after
    ensures after.isRunning != before.isRunning ==>
      r.countdownTimer == after.isRunning && r.breatheTimer == after.isRunning
    ensures after.isRunning != before.isRunning ==>
      && (r.sound.Loaded? ==> r.sound.playing == after.isRunning)
      && (r.sound.Loaded? <==> after.sound.Loaded? || assetLoads)
      && (after.sound.Loaded? ==> r.sound.muted == after.sound.muted)
    ensures r.(sound := after.sound, countdownTimer := after.countdownTimer, breatheTimer := after.breatheTimer) == after
  {
    if after.isRunning != before.isRunning then RunEffect(after, assetLoads) else after
  }

  /** Creating the screen: the initial state, then the first run of the effect. */
  function Mount(assetLoads: bool): (s: Session)
    ensures Valid(s) && AtDefaults(s) && !s.isMuted && MuteMirrored(s)
    ensures s.sound.Loaded? <==> assetLoads
  {
    RunEffect(Initial, assetLoads)
  }

  // ---------------------------------------------------------------------------
  // The steps

  /** The 1-second interval fires: the countdown updater runs, ending the session when it reaches zero. */
  function SecondElapsed(s: Session, assetLoads: bool): (r: Session)
    ensures !s.countdownTimer ==> r == s
    ensures s.countdownTimer ==> r.timeLeft == Countdown(s.timeLeft)
    ensures r.phase == s.phase && r.scaleTarget == s.scaleTarget && r.isMuted == s.isMuted
    ensures s.sound.Loaded? ==> r.sound.Loaded? && r.sound.muted == s.sound.muted
    ensures Valid(s) ==> Valid(r)
    ensures Valid(s) && s.countdownTimer ==> (r.isRunning <==> !EndsSession(s.timeLeft))
  {
    if !s.countdownTimer then s
    else if EndsSession(s.timeLeft) then
      Commit(s, s.(timeLeft := Countdown(s.timeLeft), isRunning := false, sound := StopSound(s.sound)), assetLoads)
    else
      s.(timeLeft := Countdown(s.timeLeft))
  }

  /** The 4-second interval fires: the phase flips and the animation heads for the new phase's scale. */
  function BreathElapsed(s: Session): (r: Session)
    ensures !s.breatheTimer ==> r == s
    ensures s.breatheTimer ==> r.phase == NextPhase(s.phase) && r.scaleTarget == TargetFor(r.phase)
    ensures r.(phase := s.phase, scaleTarget := s.scaleTarget) == s
    ensures Valid(s) ==> Valid(r)
  {
    if !s.breatheTimer then s
    else
      var next := NextPhase(s.phase);
      s.(phase := next, scaleTarget := TargetFor(next))
  }

  /** toggleTimer: flip `isRunning` and nothing else; the effect then starts or stops sound and intervals. */
  function ToggleTimer(s: Session, assetLoads: bool): (r: Session)
    ensures r.isRunning == !s.isRunning
    ensures r.timeLeft == s.timeLeft && r.phase == s.phase && r.scaleTarget == s.scaleTarget
    ensures r.isMuted == s.isMuted
    ensures s.sound.Loaded? ==> r.sound.Loaded? && r.sound.muted == s.sound.muted
    ensures Valid(s) ==> Valid(r)
  {
    Commit(s, s.(isRunning := !s.isRunning), assetLoads)
  }

  /** resetTimer: stop, restore the countdown, the phase and the scale, and stop the sound. */
  function ResetTimer(s: Session, assetLoads: bool): (r: Session)
    ensures AtDefaults(r)
    ensures r.sound.Loaded? ==> !r.sound.playing
    ensures r.isMuted == s.isMuted
    ensures s.sound.Loaded? ==> r.sound == s.sound.(playing := false)
    ensures Valid(s) ==> Valid(r) && !r.countdownTimer && !r.breatheTimer
  {
    var after := s.(isRunning := false, timeLeft := SessionLength, phase := Inhale,
                    scaleTarget := RestScale, sound := StopSound(s.sound));
    Commit(s, after, assetLoads)
  }

  /** toggleMute: flip `isMuted` and push the new value to a loaded sound; run state is untouched. */
  function ToggleMute(s: Session): (r: Session)
    ensures r.isMuted == !s.isMuted
    ensures MuteMirrored(r)
    ensures r.sound.Loaded? == s.sound.Loaded?
    ensures r.sound.Loaded? ==> r.sound.playing == s.sound.playing
    ensures r.(isMuted := s.isMuted, sound := s.sound) == s
    ensures Valid(s) ==> Valid(r)
  {
    var muted := !s.isMuted;
    s.(isMuted := muted, sound := ApplyMute(s.sound, muted))
  }

  // ---------------------------------------------------------------------------
  // Runs of several steps

  /** `n` firings of the 1-second interval. */
  function Seconds(s: Session, n: nat, assetLoads: bool): Session
    decreases n
  {
    if n == 0 then s else Seconds(SecondElapsed(s, assetLoads), n - 1, assetLoads)
  }

  /** `n` firings of the 4-second interval. */
  function Breaths(s: Session, n: nat): Session
    decreases n
  {
    if n == 0 then s else Breaths(BreathElapsed(s), n - 1)
  }

  /** While idle no interval is registered, so time passing changes nothing. */
  lemma {:induction false} IdleIgnoresTime(s: Session, n: nat, m: nat, assetLoads: bool)
    requires Valid(s) && !s.isRunning
    ensures Seconds(s, n, assetLoads) == s
    ensures Breaths(s, m) == s
    decreases n + m
  {
    if n > 0 {
      IdleIgnoresTime(s, n - 1, 0, assetLoads);
    }
    if m > 0 {
      IdleIgnoresTime(s, 0, m - 1, assetLoads);
    }
  }

  /** While fewer seconds pass than remain, each one takes one off the countdown and nothing else changes. */
  lemma {:induction false} CountdownRuns(s: Session, n: nat, assetLoads: bool)
    requires Valid(s) && s.isRunning && n < s.timeLeft
    ensures Seconds(s, n, assetLoads) == s.(timeLeft := s.timeLeft - n)
    decreases n
  {
    if n > 0 {
      CountdownRuns(SecondElapsed(s, assetLoads), n - 1, assetLoads);
    }
  }

  /**
   Once as many seconds have passed as remained (at least one), the countdown is
   at zero and the session has stopped with both intervals cleared and the sound
   stopped; the phase, the mute flag and a loaded sound's mute flag are as before.
   Any number of further seconds leaves that state as it is.
   */
  lemma CountdownEnds(s: Session, n: nat, assetLoads: bool)
    requires Valid(s) && s.isRunning && n >= s.timeLeft && n >= 1
    ensures var r := Seconds(s, n, assetLoads);
      && Valid(r) && r.timeLeft == 0 && !r.isRunning
      && !r.countdownTimer && !r.breatheTimer
      && (r.sound.Loaded? ==> !r.sound.playing)
      && r.phase == s.phase && r.isMuted == s.isMuted
      && (s.sound.Loaded? ==> r.sound.Loaded? && r.sound.muted == s.sound.muted)
    ensures forall m: nat :: m >= n ==> Seconds(s, m, assetLoads) == Seconds(s, n, assetLoads)
  {
    var k := if s.timeLeft >= 1 then s.timeLeft - 1 else 0;
    if k > 0 {
      CountdownRuns(s, k, assetLoads);
    }
    var before := Seconds(s, k, assetLoads);
    var ended := SecondElapsed(before, assetLoads);
    SecondsSplit(s, k, n - k, assetLoads);
    IdleIgnoresTime(ended, n - k - 1, 0, assetLoads);
    forall m: nat | m >= n
      ensures Seconds(s, m, assetLoads) == Seconds(s, n, assetLoads)
    {
      SecondsSplit(s, k, m - k, assetLoads);
      IdleIgnoresTime(ended, m - k - 1, 0, assetLoads);
    }
  }

  lemma {:induction false} SecondsSplit(s: Session, k: nat, j: nat, assetLoads: bool)
    requires j >= 1
    ensures Seconds(s, k + j, assetLoads)
         == Seconds(SecondElapsed(Seconds(s, k, assetLoads), assetLoads), j - 1, assetLoads)
    decreases k
  {
    if k > 0 {
      SecondsSplit(SecondElapsed(s, assetLoads), k - 1, j, assetLoads);
    }
  }

  /** The session started from a fresh screen: after `n` seconds the countdown reads 60 - n and runs until the 60th. */
  lemma StartedSession(n: nat, assetLoads: bool)
    requires n <= 60
    ensures var r := Seconds(ToggleTimer(Mount(assetLoads), assetLoads), n, assetLoads);
      r.timeLeft == 60 - n && (r.isRunning <==> n < 60)
  {
    var s := ToggleTimer(Mount(assetLoads), assetLoads);
    if n < 60 {
      CountdownRuns(s, n, assetLoads);
    } else {
      CountdownEnds(s, n, assetLoads);
    }
  }

  /** Two phase flips restore both the phase and the animation target. */
  lemma BreathTwice(s: Session)
    requires Valid(s)
    ensures BreathElapsed(BreathElapsed(s)) == s
  {
  }

  /** While running the phase alternates: an even number of flips restores the state, an odd one equals one flip. */
  lemma {:induction false} BreathsAlternate(s: Session, n: nat)
    requires Valid(s) && s.isRunning
    ensures Breaths(s, n) == if n % 2 == 0 then s else BreathElapsed(s)
    decreases n
  {
    if n > 0 {
      BreathsAlternate(BreathElapsed(s), n - 1);
      BreathTwice(s);
    }
  }

  /** Pausing and resuming continues from the paused countdown and phase; with the sound loaded the state is as before. */
  lemma ToggleTwice(s: Session, a: bool, b: bool)
    requires Valid(s)
    ensures var r := ToggleTimer(ToggleTimer(s, a), b);
      r.timeLeft == s.timeLeft && r.phase == s.phase && r.isRunning == s.isRunning
    ensures s.sound.Loaded? ==> ToggleTimer(ToggleTimer(s, a), b) == s
  {
  }

  /** Resetting twice is resetting once. */
  lemma ResetIdempotent(s: Session, a: bool, b: bool)
    requires Valid(s)
    ensures ResetTimer(ResetTimer(s, a), b) == ResetTimer(s, a)
  {
  }

  /** Muting twice restores the mute flag, and the whole state when the sound's flag already agreed. */
  lemma ToggleMuteTwice(s: Session)
    ensures ToggleMute(ToggleMute(s)).isMuted == s.isMuted
    ensures MuteMirrored(s) ==> ToggleMute(ToggleMute(s)) == s
  {
  }

  /** Loading again once a sound exists changes nothing; after a failed load a later one may still succeed. */
  lemma LoadSoundIdempotent(snd: Sound, a: bool, b: bool)
    ensures LoadSound(snd, a).Loaded? ==> LoadSound(LoadSound(snd, a), b) == LoadSound(snd, a)
    ensures LoadSound(snd, a).NoSound? ==> LoadSound(LoadSound(snd, a), b) == LoadSound(snd, b)
  {
  }

  /** Muting is independent of the breathing phase. */
  lemma MuteCommutesWithBreath(s: Session)
    ensures ToggleMute(BreathElapsed(s)) == BreathElapsed(ToggleMute(s))
  {
  }

  /** Once the sound is loaded, muting is independent of the countdown, including the second that ends it. */
  lemma MuteCommutesWithSecond(s: Session, a: bool)
    requires s.sound.Loaded?
    ensures ToggleMute(SecondElapsed(s, a)) == SecondElapsed(ToggleMute(s), a)
  {
  }

  /** Once the sound is loaded, muting is independent of starting and pausing. */
  lemma MuteCommutesWithToggle(s: Session, a: bool)
    requires s.sound.Loaded?
    ensures ToggleMute(ToggleTimer(s, a)) == ToggleTimer(ToggleMute(s), a)
  {
  }

  /** Four seconds into a fresh session the countdown reads 56, and the first phase flip is to exhale at scale 1.2. */
  lemma FirstBreath(a: bool)
    ensures var r := BreathElapsed(Seconds(ToggleTimer(Mount(a), a), 4, a));
      r.timeLeft == 56 && r.isRunning && r.phase == Exhale && r.scaleTarget == ExpandedScale
  {
    CountdownRuns(ToggleTimer(Mount(a), a), 4, a);
  }

  /** Every step keeps a loaded sound's mute flag in agreement with the screen's, except a first load while muted. */
  lemma MuteMirrorKept(s: Session, a: bool)
    requires MuteMirrored(s) && (s.sound.Loaded? || !s.isMuted || !a)
    ensures MuteMirrored(SecondElapsed(s, a))
    ensures MuteMirrored(BreathElapsed(s))
    ensures MuteMirrored(ToggleTimer(s, a))
    ensures MuteMirrored(ResetTimer(s, a))
  {
  }

  /**
   The exception: when the first load failed and the user muted, the start that
   loads the sound creates it unmuted while the screen shows muted. After a pause
   and a resume it plays unmuted.
   */
  lemma LateLoadIgnoresMute(a: bool, b: bool)
    ensures var s := ToggleTimer(ToggleMute(Mount(false)), true);
      s.isMuted && s.isRunning && s.sound.Loaded? && !s.sound.muted
    ensures var s := ToggleTimer(ToggleTimer(ToggleTimer(ToggleMute(Mount(false)), true), a), b);
      s.isMuted && s.isRunning && s.sound == Loaded(playing := true, muted := false)
  {
  }

  /** Starting at 0:00 is allowed: the session runs for one second and stops again. */
  lemma StartAtZero(s: Session, a: bool)
    requires Valid(s) && !s.isRunning && s.timeLeft == 0
    ensures ToggleTimer(s, a).isRunning
    ensures var r := SecondElapsed(ToggleTimer(s, a), a); r.timeLeft == 0 && !r.isRunning
  {
  }
}
