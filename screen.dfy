/**
 The screen component as an object whose fields its handlers update in place.
 Each field stands for one piece of React state or one ref: the countdown, the
 run and mute flags, the phase, the animation's scale target, the sound ref and
 the two interval refs. Every method is specified by the `Breathing` function
 for the same step, applied to the state before the call.
 */
module BreathScreen {
  import Breathing

  class Screen {
    var timeLeft: int
    var isRunning: bool
    var isMuted: bool
    var phase: Breathing.Phase
    var scaleTarget: nat
    var sound: Breathing.Sound
    var countdownTimer: bool
    var breatheTimer: bool

    /** The fields as one session value. */
    function Model(): Breathing.Session
      reads this
    {
      Breathing.Session(timeLeft, isRunning, isMuted, phase, scaleTarget, sound, countdownTimer, breatheTimer)
    }

    predicate Valid()
      reads this
    {
      Breathing.Valid(Model())
    }

    /** Mounting: the initial state, then the first run of the effect. */
    constructor (assetLoads: bool)
      ensures Model() == Breathing.Mount(assetLoads)
      ensures Valid()
    {
      timeLeft := Breathing.SessionLength;
      isRunning := false;
      isMuted := false;
      phase := Breathing.Inhale;
      scaleTarget := Breathing.RestScale;
      sound := Breathing.NoSound;
      countdownTimer := false;
      breatheTimer := false;
      new;
      RunEffect(assetLoads);
    }

    // LoadSound, PlaySound, StopSound and RunEffect are the closures the component
    // keeps to itself: they are steps inside the five handler methods below and
    // neither need nor keep `Valid()` on their own (PlaySound while idle breaks it).

    method LoadSound(assetLoads: bool)
      modifies this
      ensures Model() == old(Model()).(sound := Breathing.LoadSound(old(sound), assetLoads))
    {
      if sound.Loaded? {
        return;
      }
      if assetLoads {
        sound := Breathing.Loaded(playing := false, muted := false);
      }
    }

    method PlaySound()
      modifies this
      ensures Model() == old(Model()).(sound := Breathing.PlaySound(old(sound)))
    {
      if sound.Loaded? {
        sound := sound.(playing := true);
      }
    }

    method StopSound()
      modifies this
      ensures Model() == old(Model()).(sound := Breathing.StopSound(old(sound)))
    {
      if sound.Loaded? {
        sound := sound.(playing := false);
      }
    }

    /** The effect keyed on `isRunning`, preceded by the cleanup of its previous run. */
    method RunEffect(assetLoads: bool)
      modifies this
      ensures Model() == Breathing.RunEffect(old(Model()), assetLoads)
    {
      countdownTimer := false;
      breatheTimer := false;
      LoadSound(assetLoads);
      if isRunning {
        PlaySound();
        countdownTimer := true;
        breatheTimer := true;
      } else {
        StopSound();
      }
    }

    /** The 1-second interval callback. */
    method SecondElapsed(assetLoads: bool)
      requires Valid()
      modifies this
      ensures Valid()
      ensures Model() == Breathing.SecondElapsed(old(Model()), assetLoads)
    {
      if !countdownTimer {
        return;
      }
      var prev := timeLeft;
      if Breathing.EndsSession(prev) {
        isRunning := false;
        StopSound();
      }
      timeLeft := Breathing.Countdown(prev);
      // The effect re-runs when `isRunning` changed (`Breathing.Commit`). The interval
      // fires only while running, since `Valid()` ties `countdownTimer` to `isRunning`,
      // so a false `isRunning` here means the updater has just stopped the session.
      if !isRunning {
        RunEffect(assetLoads);
      }
    }

    /** The 4-second interval callback. */
    method BreathElapsed()
      requires Valid()
      modifies this
      ensures Valid()
      ensures Model() == Breathing.BreathElapsed(old(Model()))
    {
      if !breatheTimer {
        return;
      }
      if phase == Breathing.Inhale {
        scaleTarget := Breathing.ExpandedScale;
        phase := Breathing.Exhale;
      } else {
        scaleTarget := Breathing.RestScale;
        phase := Breathing.Inhale;
      }
    }

    /** The start / pause button. */
    method ToggleTimer(assetLoads: bool)
      requires Valid()
      modifies this
      ensures Valid()
      ensures Model() == Breathing.ToggleTimer(old(Model()), assetLoads)
    {
      isRunning := !isRunning;
      RunEffect(assetLoads);
    }

    /** The reset button. */
    method ResetTimer(assetLoads: bool)
      requires Valid()
      modifies this
      ensures Valid()
      ensures Model() == Breathing.ResetTimer(old(Model()), assetLoads)
    {
      var wasRunning := isRunning;
      isRunning := false;
      timeLeft := Breathing.SessionLength;
      phase := Breathing.Inhale;
      scaleTarget := Breathing.RestScale;
      StopSound();
      if wasRunning {
        RunEffect(assetLoads);
      }
    }

    /** The mute button. */
    method ToggleMute()
      requires Valid()
      modifies this
      ensures Valid()
      ensures Model() == Breathing.ToggleMute(old(Model()))
    {
      var muted := !isMuted;
      isMuted := muted;
      if sound.Loaded? {
        sound := sound.(muted := muted);
      }
    }
  }

  /** A session played through on one screen: start, one second, pause, time passing while paused, resume. */
  method PauseKeepsCountdown(assetLoads: bool) returns (screen: Screen)
    ensures screen.Valid() && screen.isRunning && screen.timeLeft == 59 && screen.phase == Breathing.Inhale
  {
    screen := new Screen(assetLoads);
    screen.ToggleTimer(assetLoads);
    screen.SecondElapsed(assetLoads);
    screen.ToggleTimer(assetLoads);
    screen.SecondElapsed(assetLoads);
    screen.BreathElapsed();
    screen.ToggleTimer(assetLoads);
  }
}
