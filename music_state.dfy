/** The background-music session controller as a pure state machine: the page's
    state is a `Page` value, and each event handler of the controller is a
    function from the state before the event to the state after it. */
module MusicState {
  import opened Wrappers
  import opened JsValues

  // Session storage keys and the values the controller writes under them.
  const ConsentKey := "musicConsent"
  const VolumeKey := "musicVolume"
  const WasPlayingKey := "musicWasPlaying"
  const CurrentTimeKey := "musicCurrentTime"
  const Granted := "granted"
  const Denied := "denied"
  const PlayingFlag := "1"
  const PausedFlag := "0"

  /** Volume as an integer percent. */
  type Percent = v: int | 0 <= v <= 100

  /** A playback position in seconds. */
  type Seconds = t: real | 0.0 <= t

  /** The volume used when nothing usable is stored, and the volume the guard
      raises a silent setting to before playback. */
  const DefaultVolume: Percent := 50
  const MinimumPlayVolume: Percent := 50

  /** The session-scoped key/value store. */
  type Store = map<string, string>

  /** The text of the play/pause toggle: the play affordance or the pause one. */
  datatype Label = PlayLabel | PauseLabel

  /** Which code issued a play attempt; only the modal's attempt has a rejection
      handler that does something. */
  datatype Origin = ModalPlay | TogglePlay | ResumePlay

  /** Everything the controller reads or writes on one page:
      the session store; the audio handle (`paused`, `currentTime`, `volume`);
      the slider's value (`None` when its text is empty); the toggle's label;
      whether the consent modal is in the document; and the play attempts whose
      outcome is still outstanding, oldest first. */
  datatype Page = Page(
    store: Store,
    paused: bool,
    currentTime: Seconds,
    volume: Percent,
    slider: Option<int>,
    toggleLabel: Label,
    modalMounted: bool,
    pending: seq<Origin>)

  predicate EndsWith(s: string, suffix: string)
  {
    |suffix| <= |s| && s[|s| - |suffix|..] == suffix
  }

  /** The home-page test: the path ends in `/` or in `/index.html`. */
  predicate IsHome(path: string)
  {
    EndsWith(path, "/") || EndsWith(path, "/index.html")
  }

  predicate ShouldShowModal(path: string, storedConsent: Option<string>)
  {
    IsHome(path) && storedConsent == None
  }

  function Min(a: int, b: int): int
  {
    if a <= b then a else b
  }

  function Max(a: int, b: int): int
  {
    if a <= b then b else a
  }

  /** `Math.min(Math.max(v, 0), 100)`: the percent nearest to `v`. */
  function Clamp(v: int): (r: Percent)
    ensures 0 <= v <= 100 ==> r == v
    ensures v < 0 ==> r == 0
    ensures v > 100 ==> r == 100
  {
    Min(Max(v, 0), 100)
  }

  /** `Number(sessionStorage.getItem("musicVolume"))`. */
  function StoredVolume(store: Store): NumberValue
  {
    ToNumber(Get(store, VolumeKey))
  }

  /** The volume a page starts with: the stored number when it is a percent,
      the default otherwise. */
  function InitialVolume(saved: NumberValue): Percent
  {
    if saved.Finite? && 0 <= saved.n <= 100 then Clamp(saved.n) else DefaultVolume
  }

  /** The guard's test: the stored volume is not a finite number, or is not positive. */
  predicate NeedsRaise(saved: NumberValue)
  {
    !saved.Finite? || saved.n <= 0
  }

  /** `ensureMinimumVolumeBeforePlay`: a silent or unusable stored volume is raised
      to 50 in the audio handle, in the store and on the slider. */
  function EnsureMinimumVolume(p: Page): (r: Page)
    ensures !NeedsRaise(StoredVolume(r.store))
    ensures !NeedsRaise(StoredVolume(p.store)) ==> r == p
  {
    if NeedsRaise(StoredVolume(p.store)) then
      p.(volume := MinimumPlayVolume,
         store := p.store[VolumeKey := IntegerToString(MinimumPlayVolume)],
         slider := Some(MinimumPlayVolume))
    else p
  }

  /** `Number(volumeSlider.value || 0)`: an empty slider text counts as 0. */
  function SliderNumber(slider: Option<int>): int
  {
    match slider
    case None => 0
    case Some(v) => v
  }

  /** `updateVolumeFromSlider`: the clamped slider value goes to the audio
      handle and to the store. */
  function ApplySlider(p: Page): Page
  {
    var clamped := Clamp(SliderNumber(p.slider));
    p.(volume := clamped, store := p.store[VolumeKey := IntegerToString(clamped)])
  }

  /** The label `updateToggleLabel` shows for a paused or a playing handle. */
  function LabelFor(paused: bool): Label
  {
    if paused then PlayLabel else PauseLabel
  }

  function RefreshLabel(p: Page): Page
  {
    p.(toggleLabel := LabelFor(p.paused))
  }

  /** `audio.play()`: the attempt is issued and its outcome arrives later. */
  function IssuePlay(p: Page, origin: Origin): Page
  {
    p.(pending := p.pending + [origin])
  }

  /** The page right after the controls are built and the modal is mounted or
      not: a fresh, paused handle at position 0 whose volume comes from the store,
      the slider showing that volume and the label showing the play affordance. */
  function Initialize(path: string, session: Store): Page
  {
    var volume := InitialVolume(StoredVolume(session));
    Page(session, true, 0.0, volume, Some(volume), LabelFor(true),
         ShouldShowModal(path, Get(session, ConsentKey)), [])
  }

  /** The autoresume block: seek to a positive stored position, and resume
      playback (after the guard) when it was playing at the last snapshot. */
  function AutoResume(p: Page): Page
  {
    var resumeAt := ToNumber(Get(p.store, CurrentTimeKey));
    var sought := if resumeAt.Finite? && resumeAt.n > 0 then p.(currentTime := resumeAt.n as real) else p;
    if Get(p.store, WasPlayingKey) == Some(PlayingFlag) then
      IssuePlay(EnsureMinimumVolume(sought), ResumePlay)
    else sought
  }

  /** A page load at `path` with the session store `session`; autoresume runs
      only when the consent read at load is "granted". */
  function Load(path: string, session: Store): Page
  {
    var p := Initialize(path, session);
    if Get(session, ConsentKey) == Some(Granted) then AutoResume(p) else p
  }

  /** The modal's "play" choice: guard, apply the slider, issue play, show the
      pause affordance, record consent, close the modal. */
  function ChoosePlay(p: Page): Page
  {
    var q := IssuePlay(ApplySlider(EnsureMinimumVolume(p)), ModalPlay);
    q.(toggleLabel := PauseLabel, store := q.store[ConsentKey := Granted], modalMounted := false)
  }

  /** The modal's "deny" choice: show the play affordance, record the refusal,
      close the modal. */
  function ChooseDeny(p: Page): Page
  {
    p.(toggleLabel := PlayLabel, store := p.store[ConsentKey := Denied], modalMounted := false)
  }

  /** The toggle button: a paused handle gets the guard, the slider volume and a
      play attempt; a playing one is paused; the label is recomputed either way. */
  function ToggleClick(p: Page): Page
  {
    var q := if p.paused then IssuePlay(ApplySlider(EnsureMinimumVolume(p)), TogglePlay)
             else p.(paused := true);
    RefreshLabel(q)
  }

  /** An `input` event on the slider, which now holds `value`. */
  function SliderInput(p: Page, value: Option<int>): Page
  {
    ApplySlider(p.(slider := value))
  }

  /** `persistPlaybackState`: snapshot whether the handle plays, and the whole
      seconds of its position. */
  function Persist(p: Page): Page
  {
    p.(store := p.store[WasPlayingKey := if p.paused then PausedFlag else PlayingFlag]
                       [CurrentTimeKey := IntegerToString(p.currentTime.Floor)])
  }

  /** A `visibilitychange` event; only a change to hidden persists. */
  function VisibilityChange(p: Page, hidden: bool): Page
  {
    if hidden then Persist(p) else p
  }

  /** The outcome of the outstanding play attempt at index `k`. On success the
      handle plays and, if it was paused, its `play` event relabels the toggle.
      On rejection nothing changes except that the modal's attempt puts the play
      affordance back. */
  function SettlePlay(p: Page, k: nat, fulfilled: bool): Page
    requires k < |p.pending|
  {
    var rest := p.pending[..k] + p.pending[k + 1..];
    if fulfilled then
      if p.paused then RefreshLabel(p.(paused := false, pending := rest)) else p.(pending := rest)
    else if p.pending[k] == ModalPlay then p.(toggleLabel := PlayLabel, pending := rest)
    else p.(pending := rest)
  }

  /** The looping audio clock moving a playing handle to `position`. */
  function Progress(p: Page, position: Seconds): Page
  {
    p.(currentTime := position)
  }

  /** Everything that can happen on a page after it has loaded. */
  datatype Event =
    | ModalPlayClick
    | ModalDenyClick
    | ToggleButtonClick
    | SliderChange(value: Option<int>)
    | BeforeUnload
    | VisibilityChangeTo(hidden: bool)
    | PlaySettled(index: nat, fulfilled: bool)
    | MediaProgress(position: Seconds)

  /** Whether `e` can happen in `p`: the modal's buttons exist only while it is
      mounted, an outcome needs an outstanding attempt, and the clock moves only
      while playing. */
  predicate Enabled(p: Page, e: Event)
  {
    match e
    case ModalPlayClick => p.modalMounted
    case ModalDenyClick => p.modalMounted
    case PlaySettled(k, _) => k < |p.pending|
    case MediaProgress(_) => !p.paused
    case _ => true
  }

  /** The effect of one event; an event that cannot happen changes nothing. */
  function Step(p: Page, e: Event): Page
  {
    if !Enabled(p, e) then p
    else
      match e
      case ModalPlayClick => ChoosePlay(p)
      case ModalDenyClick => ChooseDeny(p)
      case ToggleButtonClick => ToggleClick(p)
      case SliderChange(v) => SliderInput(p, v)
      case BeforeUnload => Persist(p)
      case VisibilityChangeTo(hidden) => VisibilityChange(p, hidden)
      case PlaySettled(k, ok) => SettlePlay(p, k, ok)
      case MediaProgress(t) => Progress(p, t)
  }

  /** The effect of a sequence of events, in order. */
  function Run(p: Page, events: seq<Event>): Page
    decreases |events|
  {
    if events == [] then p else Run(Step(p, events[0]), events[1..])
  }

  /** What holds on every page of the session: the modal is only ever shown
      while no consent is recorded; the audio volume is the one a fresh load
      would compute from the store; and the slider shows that volume. */
  predicate Inv(p: Page)
  {
    (p.modalMounted ==> ConsentKey !in p.store)
    && p.volume == InitialVolume(StoredVolume(p.store))
    && Clamp(SliderNumber(p.slider)) == p.volume
  }
}
