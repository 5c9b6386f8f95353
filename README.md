# Background-music session controller, modelled in Dafny

The site's `js/music.js` runs once per page load. It asks a first-time visitor
on the home page whether to play a looping background track. It keeps the
answer, the volume, whether the track was playing and its position in the
session's key/value store, and resumes playback on later pages of the same
session. This project models the state machine under the DOM and audio
plumbing and proves what it promises.

- `wrappers.dfy` (`Wrappers`): `Option` as JavaScript's `null`, and `Get`, a lookup that
  returns `None` for a missing key, as `sessionStorage.getItem` does.
- `js_values.dfy` (`JsValues`): `Number(...)` on stored strings (`ToNumber`) and
  `String(...)` on integers (`IntegerToString`). Writing a number and reading it back
  gives the same number.
- `music_state.dfy` (`MusicState`): the page state (`Page`: store, audio handle, slider,
  toggle label, modal, outstanding play attempts). It has one pure function per handler,
  the events (`Event`), one step (`Step`), a run of steps (`Run`), and the session
  invariant `Inv`.
- `music_properties.dfy` (`MusicProperties`): lemmas for the promises. They cover
  volume clamping, the zero-volume guard, when the modal shows, consent written
  once, the persistence snapshot, autoresume and the toggle.
- `music_controller.dfy` (`MusicController`): the class `Controller`. It has the
  handle's and the controls' fields and one method per handler. Each method writes
  in the source's order and ensures that the new `State()` is the matching
  `MusicState` function of the old one. Each handler method (not the four helpers
  `EnsureMinimumVolumeBeforePlay`, `UpdateVolumeFromSlider`, `UpdateToggleLabel` and `Play`)
  also keeps `Valid()`.

Play is fire-and-forget in the source. A play call appends its origin (modal,
toggle or autoresume) to `pending`. The separate event `PlaySettled(k, ok)`
delivers the outcome. On success the handle plays, and its `play` listener
relabels the toggle. On rejection, only the modal's `catch` changes anything: it
puts the play label back.

Where the code and its comments disagree, the model follows the code:
- The comment at js/music.js:27 says that the volume defaults to 50%.
  But with no stored volume, `Number(null)` is 0, so a page starts at volume 0
  with the slider at 0. The guard raises both to 50 before the first play
  (`AbsentVolumeStartsSilent`).
- The home test accepts every path that ends in `/`, not only the site root
  (`IsHomeMatchesPattern`).

## Model

| member | source | states |
|---|---|---|
| `JsValues.IntegerToString` | js/music.js:112-115 | the written string is non-empty and reading it back with `Number` gives that integer; non-negative integers are written as plain digits without leading zeros, negative ones as `-` and such digits, as `String(n)` writes them |
| `JsValues.NaturalToString` | js/music.js:150 | the numeral of a natural number is a non-empty digit string, with no leading zero, whose decimal value is that number |
| `JsValues.ToNumber` | js/music.js:28 | definition of `Number(...)` on a stored value (absent and empty read as 0); its behaviour is stated by `JsValues.IntegerToString`, `MusicProperties.ResumeGate` and `MusicProperties.AbsentVolumeStartsSilent` |
| `MusicState.Clamp` | js/music.js:113 | the result is the percent nearest to the input: the input itself within 0..100, 0 below, 100 above |
| `MusicState.EnsureMinimumVolume` | js/music.js:32-43 | after the guard the stored volume reads as a positive finite number; when it already did, nothing changes |
| `MusicState.IsHome` | js/music.js:19-20 | definition of the home test; its behaviour is stated by `MusicProperties.IsHomeMatchesPattern` |
| `MusicState.ShouldShowModal` | js/music.js:21-22 | definition of the modal condition; its behaviour is stated by `MusicProperties.ModalShownIff` |
| `MusicState.InitialVolume` | js/music.js:28-29 | definition of the start volume; its behaviour is stated by `MusicProperties.AbsentVolumeStartsSilent` and `MusicProperties.ReloadRestoresVolume` |
| `MusicState.Initialize` | js/music.js:19-29 | definition of the page before autoresume (lines 19-29, 103-108, 163-166); its behaviour is stated by `MusicProperties.ModalShownIff` and `MusicProperties.NoResumeWithoutGrant` |
| `MusicState.AutoResume` | js/music.js:169-182 | definition of the autoresume block; its behaviour is stated by `MusicProperties.ResumeGate`, `MusicProperties.BlockedResume` and `MusicProperties.ResumeAfterReload` |
| `MusicState.Load` | js/music.js:160-182 | definition of a page load; its behaviour is stated by `MusicProperties.ModalShownIff`, `MusicProperties.NoResumeWithoutGrant`, `MusicProperties.ResumeGate` and `MusicProperties.LoadEstablishesInv` |
| `MusicState.ApplySlider` | js/music.js:110-116 | definition of `updateVolumeFromSlider`; its behaviour is stated by `MusicProperties.SliderInputClamps` |
| `MusicState.ChoosePlay` | js/music.js:72-83 | definition of the modal's "play" choice; its behaviour is stated by `MusicProperties.ChoosePlayEffects` and `MusicProperties.ChoosePlayOutcome` |
| `MusicState.ChooseDeny` | js/music.js:85-90 | definition of the modal's "deny" choice; its behaviour is stated by `MusicProperties.ChooseDenyEffects` |
| `MusicState.SliderInput` | js/music.js:118-120 | definition of the slider's `input` listener; its behaviour is stated by `MusicProperties.SliderInputClamps` |
| `MusicState.LabelFor` | js/music.js:122-125 | definition of the label `updateToggleLabel` shows; its behaviour is stated by `MusicProperties.ToggleWhilePlaying` and `MusicProperties.ToggleWhilePaused` |
| `MusicState.RefreshLabel` | js/music.js:122-125 | definition of `updateToggleLabel`; its behaviour is stated by `MusicProperties.ToggleWhilePlaying` and `MusicProperties.ToggleWhilePaused` |
| `MusicState.IssuePlay` | js/music.js:76 | definition of a fire-and-forget `audio.play()` (also at lines 134 and 178); its behaviour is stated by `MusicProperties.PlayNeverSilent` and `MusicProperties.ChoosePlayEffects` |
| `MusicState.ToggleClick` | js/music.js:127-141 | definition of the toggle handler; its behaviour is stated by `MusicProperties.ToggleWhilePaused` and `MusicProperties.ToggleWhilePlaying` |
| `MusicState.Persist` | js/music.js:147-152 | definition of `persistPlaybackState`; its behaviour is stated by `MusicProperties.PersistSnapshot` and `MusicProperties.ResumeAfterReload` |
| `MusicState.VisibilityChange` | js/music.js:154-156 | definition of the `visibilitychange` listener; its behaviour is stated by `MusicProperties.PersistSnapshot` |
| `MusicState.SettlePlay` | js/music.js:143-144 | definition of a play attempt's outcome (with the catches at lines 76-79, 134-136, 178-180); its behaviour is stated by `MusicProperties.ChoosePlayOutcome`, `MusicProperties.ToggleWhilePaused` and `MusicProperties.BlockedResume` |
| `MusicState.Step` | js/music.js:118-156 | definition of one event; its behaviour is stated by `MusicProperties.StepPreservesInv`, `MusicProperties.PlayNeverSilent` and `MusicProperties.ConsentWrittenOnlyByModal` |
| `MusicState.Run` | js/music.js:118-156 | definition of a sequence of events; its behaviour is stated by `MusicProperties.RunPreservesInv` and `MusicProperties.ConsentNeverOverwritten` |
| `MusicState.Inv` | js/music.js:20-29 | definition of the session invariant (modal only without consent, lines 20-22; volume as loaded, 28-29; slider shows it, 105-108); established by `MusicProperties.LoadEstablishesInv` and kept by `MusicProperties.StepPreservesInv` |
| `MusicProperties.IsHomeMatchesPattern` | js/music.js:19-20 | the suffix test equals the pattern `\/(index\.html)?$`: some suffix of the path is `/` or `/index.html` |
| `MusicProperties.ModalShownIff` | js/music.js:20-22 | the modal is mounted iff the path is home and no consent is stored; a page with the modal issues no play |
| `MusicProperties.AbsentVolumeStartsSilent` | js/music.js:27-29 | with no stored volume the page starts at volume 0 with the slider at 0, and the guard raises both to 50 |
| `MusicProperties.LoadEstablishesInv` | js/music.js:103-108 | every loaded page keeps the invariant: modal only without consent; volume = what the store gives; slider shows the volume |
| `MusicProperties.ResumeIsAudible` | js/music.js:175-181 | a play attempt issued by autoresume has a positive volume |
| `MusicProperties.NoResumeWithoutGrant` | js/music.js:169 | a load whose stored consent is not exactly "granted" (denied, absent or other) neither seeks nor issues play: it is the initialized page |
| `MusicProperties.ResumeGate` | js/music.js:170-181 | with consent "granted", a load seeks iff the stored time reads as finite and above 0, and issues exactly one play iff was-playing is "1" |
| `MusicProperties.BlockedResume` | js/music.js:175-181 | with consent "granted" and was-playing "1", a blocked resume leaves the page paused under the play label with nothing outstanding, at the sought position; the guard sets the volume to 50 when the stored one is unusable and keeps it otherwise, writing only `musicVolume` and only when it raises |
| `MusicProperties.ResumeExample` | js/music.js:169-182 | with consent "granted", was-playing "1" and time "42", a load seeks to 42 s and issues exactly one play |
| `MusicProperties.GuardRaises` | js/music.js:35-42 | an absent, non-numeric or non-positive stored volume becomes 50 in the handle, as "50" in the store and 50 on the slider; nothing else changes |
| `MusicProperties.GuardPreservesInv` | js/music.js:32-43 | the guard keeps the invariant |
| `MusicProperties.GuardMakesAudible` | js/music.js:31-43 | after the guard, under the invariant, both the volume and the clamped slider value are positive |
| `MusicProperties.SliderInputClamps` | js/music.js:110-120 | slider value v gives volume min(max(v,0),100) in the handle and in the store; an empty value gives 0; nothing else changes |
| `MusicProperties.ReloadRestoresVolume` | js/music.js:27-29 | a page loaded from the session's store, before or after the snapshot, starts at the current volume |
| `MusicProperties.ChoosePlayEffects` | js/music.js:72-83 | "play" stores consent "granted", closes the modal, shows pause, appends one modal play at a positive volume equal to the clamped slider (the slider at 50 when the guard raises); only the volume and consent keys change |
| `MusicProperties.ChoosePlayOutcome` | js/music.js:76-79 | a rejected modal play shows the play label and leaves the handle as it was (paused, or playing after an earlier toggle); a fulfilled one leaves it playing under pause |
| `MusicProperties.ChooseDenyEffects` | js/music.js:85-90 | "deny" stores "denied", closes the modal and shows play; no play attempt; volume, slider, handle and other keys unchanged |
| `MusicProperties.ToggleWhilePaused` | js/music.js:131-136 | a paused toggle runs the guard (slider at 50 when it raises), issues one play at a positive volume equal to the clamped slider, stores that volume and still shows play; only the volume key changes, position and modal are untouched; success then shows pause, rejection keeps play |
| `MusicProperties.ToggleWhilePlaying` | js/music.js:137-140 | a playing toggle pauses and shows play, and nothing else changes |
| `MusicProperties.PersistSnapshot` | js/music.js:147-156 | was-playing becomes "0" iff paused ("1" otherwise); the stored time reads back as the floor of the position; other keys unchanged; only a change to hidden persists |
| `MusicProperties.ResumeAfterReload` | js/music.js:169-182 | a reload after a snapshot with consent granted seeks to the whole seconds when positive, resumes iff the handle was playing, at the same volume (0 raised to 50) |
| `MusicProperties.StepPreservesInv` | js/music.js:118-156 | every event keeps the session invariant |
| `MusicProperties.RunPreservesInv` | js/music.js:118-156 | every sequence of events keeps the session invariant |
| `MusicProperties.PlayNeverSilent` | js/music.js:131-134 | every play attempt an event issues is issued at a positive volume |
| `MusicProperties.ConsentWrittenOnlyByModal` | js/music.js:81-88 | consent changes only while absent: "play" writes "granted" and "deny" writes "denied" |
| `MusicProperties.ConsentNeverOverwritten` | js/music.js:164-166 | once recorded, consent keeps its value and the modal stays closed whatever events follow |
| `MusicController.Controller.constructor` | js/music.js:19-182 | the loaded object's state is `Load(path, session)` and satisfies the invariant |
| `MusicController.Controller.EnsureMinimumVolumeBeforePlay` | js/music.js:32-43 | the new state is the guard applied to the old one |
| `MusicController.Controller.UpdateVolumeFromSlider` | js/music.js:110-116 | the new state has the clamped slider value as volume, in the handle and in the store |
| `MusicController.Controller.UpdateToggleLabel` | js/music.js:122-125 | the label becomes play when paused and pause otherwise |
| `MusicController.Controller.Play` | js/music.js:76 | one play attempt of the given origin is appended; nothing else changes |
| `MusicController.Controller.OnModalPlay` | js/music.js:72-83 | the new state is `ChoosePlay` of the old one: consent "granted", modal closed, positive volume; the invariant is kept |
| `MusicController.Controller.OnModalDeny` | js/music.js:85-90 | the new state is `ChooseDeny` of the old one: consent "denied", modal closed, no play attempt |
| `MusicController.Controller.OnToggleClick` | js/music.js:127-141 | the new state is `ToggleClick` of the old one; the label matches `paused` |
| `MusicController.Controller.OnSliderInput` | js/music.js:118-120 | the new state is `SliderInput` of the old one; the volume is the clamped value |
| `MusicController.Controller.PersistPlaybackState` | js/music.js:147-153 | the new state is the snapshot of the old one |
| `MusicController.Controller.OnVisibilityChange` | js/music.js:154-156 | the snapshot is taken only on a change to hidden |
| `MusicController.Controller.OnPlaySettled` | js/music.js:143-144 | the settled attempt is removed; success plays and relabels; rejection of a modal attempt shows play |
| `MusicController.Controller.OnMediaProgress` | js/music.js:24-26 | the looping handle's position moves while it plays; nothing else changes |
| `MusicController.Controller.Dispatch` | js/music.js:118-156 | each event runs its handler, so the new state is `Step` of the old one, and the invariant is kept |

## Left out

- Building the modal and the control bar, the localized texts and the CSS class names
  (js/music.js:47-64, 93-101, 158). The toggle's text is one of two values: `PlayLabel` and `PauseLabel`.
- Resolving the audio file's URL from the script's `src` (js/music.js:2-8). It only locates an asset.
- The audio element's decoding and the browser's autoplay policy. A play attempt is an
  entry in `pending`, and its outcome is a separate event. The browser sets `paused` to
  false when it allows `play()`, and `pause()` rejects attempts that are still
  outstanding. The model changes `paused` only when the outcome arrives, and leaves
  outstanding attempts alone on `pause()`.
- MusicState.ToggleClick: when the browser allows
  `play()`, it clears `paused` before `updateToggleLabel` runs at js/music.js:140, so the
  page shows the pause label at once. The model keeps `paused` until the outcome event,
  so it shows the play label until `PlaySettled` arrives. The label the user sees right
  after the click therefore differs.
- MusicProperties.ToggleWhilePaused: states the play label right after the click, for the
  reason given under `MusicState.ToggleClick`; the pause label follows only on success.
- Floating point. Volume is an integer percent, not `audio.volume` in 0..1, so
  `clamped / 100` and `Math.round(audio.volume * 100)` are identities here. The position
  is a non-negative real. NaN in `audio.currentTime || 0` is not modelled. Neither is
  the browser clamping a seek to the track's duration.
- JsValues.ToNumber: only the empty string and decimal integers, with an optional leading
  minus, are parsed. Every other string reads as not finite. JavaScript's `Number`
  also accepts whitespace, `+`, fractions, exponents, hex and `Infinity`. Such strings can
  reach the store only from outside the controller, which writes only integers.
- JsValues.IntegerToString: JavaScript switches to exponent notation from 1e21 on. The
  controller writes percents and whole seconds, so this is not modelled.
- The slider's value is an integer or empty. A range input never holds other text. If
  it did, `audio.volume = NaN` would throw.
- Storage writes always succeed. The swallowed exceptions of js/music.js:38, 115, 148-151
  are not modelled. The consent writes at lines 81 and 88 are not inside `try`, so a
  failing write there would throw and skip `closeModal`. That is not modelled either.
- `userInteracted` (js/music.js:45, 73, 86, 128-130) is written but never read, so it is
  not part of the state.
- The null checks on the toggle, the slider and the modal's buttons. The controller builds
  these elements itself, so they always exist.
- The `pause` listener (js/music.js:143) runs again after the toggle's own
  `updateToggleLabel` and sets the same label. It is folded into `OnToggleClick`.
- Listener registration and the event loop. `Dispatch` and `Step` take their place.
  Several tabs and the end of the browsing session are not modelled.
