# breathFlow: the breathing-session timer, modelled in Dafny

breathFlow is a one-screen breathing exercise. A 60-second countdown runs beside a
breathing phase. The phase flips between inhale and exhale every 4 seconds and
sends a circle's scale towards 1.2 (exhale) or 1 (inhale). A looping ambient track
plays while the session runs. Three buttons drive it: start/pause, reset and mute.
The label above the circle shows the remaining time as `M:SS`.

The model has three modules:

- `TimeFormat` (`time_format.dfy`) models `formatTime` as a function. Its inverse,
  `ParseTime`, reads a label `M:SS` back. The lemmas prove that the two functions
  are inverse to each other.
- `Breathing` (`breathing.dfy`) models the session as a value `Session`: the
  countdown, the run and mute flags, the phase, the scale target (in hundredths:
  100 and 120), the sound status, and the two registered intervals. Each button
  handler or interval callback is one atomic function. After any step that
  changes `isRunning`, the effect keyed on `isRunning` runs again (`Commit`). The
  updaters passed to `setTimeLeft` and `setBreathePhase` are the functions
  `Countdown` and `NextPhase`. The presence-guarded audio helpers act on a
  `Sound` that is either absent or loaded with a playing flag and a muted flag.
  The `Valid` predicate is the invariant every step keeps:
  - the countdown stays in 0..60;
  - the scale target belongs to the phase;
  - both intervals are registered exactly while running;
  - a loaded sound plays exactly while running.
- `BreathScreen` (`screen.dfy`) is the component as a
  class. Its fields stand for the React state and refs, and its methods assign
  them step by step as the handlers do. Each method's postcondition equates the
  new state with the `Breathing` function applied to the old state.

The audio library's load result is an input, `assetLoads`. It says whether
`Audio.Sound.createAsync` succeeds. Timer firings are explicit calls
(`SecondElapsed`, `BreathElapsed`), not wall-clock time.

## Model

| member | source | states |
|---|---|---|
| `Breathing.Countdown` | app/index.tsx:65-72 | the countdown updater never returns a negative value; for a positive value it returns one less; it returns 0 exactly when it ends the session (previous value at most 1) |
| `Breathing.NextPhase` | app/index.tsx:76-90 | the phase updater always changes the phase (inhale and exhale alternate) |
| `Breathing.LoadSound` | app/index.tsx:30-37 | an existing sound is left untouched; otherwise a sound exists afterwards exactly when the asset loads, and a newly created sound is stopped and unmuted |
| `Breathing.PlaySound` | app/index.tsx:39-43 | never creates a sound; a loaded sound is playing afterwards with its mute flag unchanged |
| `Breathing.StopSound` | app/index.tsx:45-49 | never creates a sound; a loaded sound is stopped afterwards with its mute flag unchanged |
| `Breathing.ApplyMute` | app/index.tsx:53-55 | never creates a sound; a loaded sound takes the given mute flag and keeps playing or stopped |
| `Breathing.Commit` | app/index.tsx:58-100 | React re-runs the effect keyed on `[isRunning]` exactly when a step changed `isRunning`: otherwise the state is the one the step left; after a change both intervals follow the new run flag, a loaded sound plays exactly when the new flag is set, a sound exists if one did or the load succeeds, and an existing sound keeps its mute flag; only the sound and the intervals ever differ from what the step left |
| `Breathing.RunEffect` | app/index.tsx:58-100 | after the effect, a loaded sound plays exactly when `isRunning`; both intervals are registered exactly when `isRunning`; a sound exists if one did or the load succeeds; an existing sound keeps its mute flag and a newly loaded one is unmuted; nothing else changes |
| `Breathing.Mount` | app/index.tsx:19-28 | the freshly mounted screen is valid, idle, at 60 seconds, inhaling at scale 1 and unmuted, and has a sound exactly when the asset loads |
| `Breathing.SecondElapsed` | app/index.tsx:64-73 | with no interval registered nothing changes; otherwise the countdown takes the updater's value, and the session keeps running exactly when the previous value was above 1; phase, scale and mute never change, nor does a loaded sound's mute flag; validity is kept |
| `Breathing.BreathElapsed` | app/index.tsx:75-91 | with no interval registered nothing changes; otherwise the phase flips and the scale target becomes the new phase's (120 for exhale, 100 for inhale); nothing else changes; validity is kept |
| `Breathing.ToggleTimer` | app/index.tsx:108-110 | flips `isRunning`; countdown, phase, scale and mute are unchanged, so resuming continues from the paused value; a loaded sound keeps its mute flag; validity is kept |
| `Breathing.ResetTimer` | app/index.tsx:112-118 | from any state: 60 seconds, not running, inhale, scale 1, the sound stopped, the mute flag kept; from a valid state also both intervals cleared |
| `Breathing.ToggleMute` | app/index.tsx:51-56 | flips `isMuted`, and a loaded sound's mute flag equals the new value; whether a sound exists or plays, and everything else, is unchanged |
| `Breathing.IdleIgnoresTime` | app/index.tsx:96-99 | while idle no interval is registered, so any number of seconds or phase ticks changes nothing |
| `Breathing.CountdownRuns` | app/index.tsx:65-71 | while fewer seconds pass than remain, the countdown drops by exactly that number and nothing else changes |
| `Breathing.CountdownEnds` | app/index.tsx:66-70 | once at least as many seconds pass as remained (at least one), the countdown is 0, the session has stopped with both intervals cleared and the sound stopped, and phase, mute and a loaded sound's mute flag are as before; any further seconds leave that state unchanged |
| `Breathing.SecondsSplit` | app/index.tsx:64-73 | a run of seconds splits at any point into the seconds before and the seconds after |
| `Breathing.StartedSession` | app/index.tsx:19-73 | starting a fresh screen, after n ≤ 60 seconds the countdown reads 60 − n, and the session runs exactly while n < 60 |
| `Breathing.FirstBreath` | app/index.tsx:75-91 | four seconds into a fresh session the countdown reads 56 and the first phase tick gives exhale with target 1.2 |
| `Breathing.BreathTwice` | app/index.tsx:76-89 | two phase ticks restore both the phase and the scale target |
| `Breathing.BreathsAlternate` | app/index.tsx:75-91 | while running, an even number of phase ticks restores the state and an odd number equals one tick |
| `Breathing.ToggleTwice` | app/index.tsx:108-110 | pausing and resuming keeps the countdown and the phase; with a loaded sound the whole state is restored |
| `Breathing.ResetIdempotent` | app/index.tsx:112-118 | resetting twice is the same as resetting once |
| `Breathing.ToggleMuteTwice` | app/index.tsx:51-56 | muting twice restores `isMuted`, and restores the whole state when the sound's flag already agreed with it |
| `Breathing.LoadSoundIdempotent` | app/index.tsx:30-37 | loading again once a sound exists changes nothing; after a failed load, a later load behaves like a first one |
| `Breathing.MuteCommutesWithBreath` | app/index.tsx:51-56 | muting and a phase tick commute |
| `Breathing.MuteCommutesWithSecond` | app/index.tsx:51-56 | with a loaded sound, muting and a countdown tick commute, including the tick that ends the session |
| `Breathing.MuteCommutesWithToggle` | app/index.tsx:51-56 | with a loaded sound, muting and start/pause commute |
| `Breathing.MuteMirrorKept` | app/index.tsx:30-56 | countdown ticks, phase ticks, start/pause and reset keep a loaded sound's mute flag equal to `isMuted`, except when a first load happens while muted |
| `Breathing.LateLoadIgnoresMute` | app/index.tsx:32-35 | after a failed first load and a mute, the start that loads the sound creates it unmuted while `isMuted` is true; after a pause and a resume it plays unmuted |
| `Breathing.StartAtZero` | app/index.tsx:66-70 | starting at 0:00 is possible; the next second keeps 0 and stops the session again |
| `BreathScreen.Screen.constructor` | app/index.tsx:19-28 | the mounted screen's fields are `Breathing.Mount` and valid |
| `BreathScreen.Screen.LoadSound` | app/index.tsx:30-37 | only the sound field changes, as `Breathing.LoadSound` says |
| `BreathScreen.Screen.PlaySound` | app/index.tsx:39-43 | only the sound field changes, as `Breathing.PlaySound` says |
| `BreathScreen.Screen.StopSound` | app/index.tsx:45-49 | only the sound field changes, as `Breathing.StopSound` says |
| `BreathScreen.Screen.RunEffect` | app/index.tsx:58-100 | the fields afterwards are `Breathing.RunEffect` of the fields before |
| `BreathScreen.Screen.SecondElapsed` | app/index.tsx:64-73 | the fields afterwards are `Breathing.SecondElapsed` of the fields before; validity is kept |
| `BreathScreen.Screen.BreathElapsed` | app/index.tsx:75-91 | the fields afterwards are `Breathing.BreathElapsed` of the fields before; validity is kept |
| `BreathScreen.Screen.ToggleTimer` | app/index.tsx:108-110 | the fields afterwards are `Breathing.ToggleTimer` of the fields before; validity is kept |
| `BreathScreen.Screen.ResetTimer` | app/index.tsx:112-118 | the fields afterwards are `Breathing.ResetTimer` of the fields before; validity is kept |
| `BreathScreen.Screen.ToggleMute` | app/index.tsx:51-56 | the fields afterwards are `Breathing.ToggleMute` of the fields before; validity is kept |
| `BreathScreen.PauseKeepsCountdown` | app/index.tsx:108-110 | start, one second, pause, time passing while paused, then resume: the screen runs again at 59 seconds, still inhaling |
| `TimeFormat.NatToString` | app/index.tsx:105 | `toString` of a non-negative integer: at least one character, the last one the units digit |
| `TimeFormat.PadStart2` | app/index.tsx:105 | `padStart(2, "0")`: the result is two characters long, or the input when that is longer; the input is its suffix and every added character is '0' |
| `TimeFormat.FormatTime` | app/index.tsx:102-106 | `formatTime`: the label has at least four characters; its fields are stated in `FormatTimeFields` |
| `TimeFormat.NatToStringCanonical` | app/index.tsx:105 | the minutes and seconds numerals have at least one digit and no leading zero; only 0 prints as "0"; one digit exactly below 10 |
| `TimeFormat.ParseNatOfNatToString` | app/index.tsx:105 | reading a printed numeral back gives the number |
| `TimeFormat.NatToStringOfParseNat` | app/index.tsx:105 | printing the value of a numeral without leading zeros gives the numeral back |
| `TimeFormat.PaddedSecondsValue` | app/index.tsx:105 | the seconds field, padded with `padStart(2, "0")`, has exactly two digits and reads back as the seconds |
| `TimeFormat.SecondsFieldCanonical` | app/index.tsx:105 | every two-digit field below 60 is the padded form of its value |
| `TimeFormat.FormatTimeFields` | app/index.tsx:102-106 | the label is `M:SS`: M has no leading zero, SS has exactly two digits and is below 60, and 60·M + SS equals the seconds |
| `TimeFormat.FormatTimeRoundTrip` | app/index.tsx:102-106 | parsing the label gives back the seconds, and the label is well formed |
| `TimeFormat.FormatTimeOfParseTime` | app/index.tsx:102-106 | every well-formed label is the label of the value it parses to |
| `TimeFormat.FormatTimeExactly` | app/index.tsx:102-106 | `formatTime(s) == t` exactly when t is well formed and parses to s |
| `TimeFormat.FormatTimeAtStart` | app/index.tsx:102-106 | 60 seconds show as "1:00" |
| `TimeFormat.FormatTimeAfterOneSecond` | app/index.tsx:102-106 | 59 seconds show as "0:59" |
| `TimeFormat.FormatTimeAtEnd` | app/index.tsx:102-106 | 0 seconds show as "0:00" |

## Left out

- JSX layout, styling, icons and the button wiring (app/index.tsx:120-169) are left out. They are presentation only; the label text is covered by `TimeFormat.FormatTime`.
- The Reanimated animation is left out: interpolation, easing, the 4000 ms duration and the live `scale` value (app/index.tsx:78-87, app/index.tsx:132). The model keeps only the target each step requests, as 100 or 120 hundredths.
- expo-av I/O is not modelled (`createAsync`, `playAsync`, `stopAsync`, `setIsMutedAsync`). The sound is an abstract status: absent, or loaded with a playing flag and a muted flag. Whether a load succeeds is the input `assetLoads`. Rewinding to the start on stop and load errors other than "no sound" are not represented.
- How many calls reach the audio library is not recorded, for example the two mute applies of two `toggleMute` presses. Only the resulting sound status is modelled.
- Real time is not modelled (`setInterval` and `clearInterval`). Registered intervals are two flags, and firings are explicit calls.
- Unmounting is left out. The effect's final cleanup clears only the two intervals (app/index.tsx:96-99). The sound created at app/index.tsx:32-36 is never stopped or unloaded, so the audio handle outlives the component: unmounting during a session leaves the looping track playing.
- All steps are sequential and atomic. Audio calls are not awaited in the source, so their completions could interleave with later steps; that reordering is not modelled. In particular, `loadSound()` is not awaited before `playSound()` (app/index.tsx:59-62). A sound that finishes loading during a run of the effect would therefore not start playing until the next run. The model lets the load complete first. Likewise, a mute tapped while the mount-time `createAsync` is still pending finds no sound (app/index.tsx:53), so the sound then loads unmuted; that ordering is not modelled either.
- The handlers read `isMuted` (app/index.tsx:54) and `isRunning` (app/index.tsx:109) from the closure of the last render. Because steps are sequential in the model, these reads always see the current value.
- `TimeFormat.FormatTime` takes a natural number. The countdown never goes negative, so negative and fractional seconds, which JavaScript would format differently, are out of scope.
- `TimeFormat.NatToString` models `toString` on unbounded integers. JavaScript numbers are doubles: above 2^53 they lose precision, and from 1e21 on `toString` prints exponent notation. The results about `FormatTime` hold for JavaScript only below those bounds; the countdown stays within 0..60.

## Behaviour of the code worth noting

- `loadSound` calls `createAsync` with `shouldPlay` and `isLooping` only, without the mute flag (app/index.tsx:32-35). A sound created after the user muted therefore starts unmuted while the screen shows muted. The model captures this on the failed-first-load path: `Breathing.LateLoadIgnoresMute`, and the precondition of `Breathing.MuteMirrorKept`. The same happens when a mute is tapped while the mount-time load is still pending; that path needs the async ordering left out above.
- Every run of the effect calls `loadSound`, which creates a sound whenever none exists (app/index.tsx:31, app/index.tsx:59). A failed load is therefore retried on the next start or pause (`Breathing.LoadSoundIdempotent`).
- `toggleTimer` does not look at the countdown (app/index.tsx:108-110), so a session can be started at 0:00. It runs for one second, and the updater's `prev <= 1` branch (app/index.tsx:66-70) stops it again (`Breathing.StartAtZero`).
