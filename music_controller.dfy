/** The controller as the page runs it: one object that owns the audio handle,
    the controls and the session store, with one method per event handler. Each
    method writes the fields in the order the handler does, and its postcondition
    ties the new state to the matching function of `MusicState`. */
module MusicController {
  import opened Wrappers
  import opened JsValues
  import opened MusicState

  class Controller {
    var store: Store
    var paused: bool
    var currentTime: Seconds
    var volume: Percent
    var slider: Option<int>
    var toggleLabel: Label
    var modalMounted: bool
    var pending: seq<Origin>

    /** The page state the object stands for. */
    function State(): Page
      reads this
    {
      Page(store, paused, currentTime, volume, slider, toggleLabel, modalMounted, pending)
    }

    ghost predicate Valid()
      reads this
    {
      Inv(State())
    }

    /** The `DOMContentLoaded` handler: read the consent, build a paused handle
        with the stored volume, build the controls, show the modal when due, and
        autoresume when consent was granted. */
    constructor (path: string, session: Store)
      ensures State() == Load(path, session)
      ensures Valid()
    {
      var storedConsent := Get(session, ConsentKey);
      var showModal := IsHome(path) && storedConsent == None;
      store := session;
      paused := true;
      currentTime := 0.0;
      volume := InitialVolume(ToNumber(Get(session, VolumeKey)));
      slider := Some(50);
      toggleLabel := PauseLabel;
      modalMounted := false;
      pending := [];
      new;
      slider := Some(volume);
      UpdateToggleLabel();
      if showModal {
        modalMounted := true;
      }
      if storedConsent == Some(Granted) {
        var wasPlaying := Get(store, WasPlayingKey) == Some(PlayingFlag);
        var resumeAt := ToNumber(Get(store, CurrentTimeKey));
        if resumeAt.Finite? && resumeAt.n > 0 {
          currentTime := resumeAt.n as real;
        }
        if wasPlaying {
          EnsureMinimumVolumeBeforePlay();
          Play(ResumePlay);
        }
      }
    }

    /** `ensureMinimumVolumeBeforePlay`. */
    method EnsureMinimumVolumeBeforePlay()
      modifies this
      ensures State() == EnsureMinimumVolume(old(State()))
    {
      var volNum := ToNumber(Get(store, VolumeKey));
      if !volNum.Finite? || volNum.n <= 0 {
        var newVol := MinimumPlayVolume;
        volume := newVol;
        store := store[VolumeKey := IntegerToString(newVol)];
        slider := Some(newVol);
      }
    }

    /** `updateVolumeFromSlider`. */
    method UpdateVolumeFromSlider()
      modifies this
      ensures State() == ApplySlider(old(State()))
    {
      var value := SliderNumber(slider);
      var clamped := Min(Max(value, 0), 100);
      volume := clamped;
      store := store[VolumeKey := IntegerToString(clamped)];
    }

    /** `updateToggleLabel`, which the handle's `play` and `pause` events also run. */
    method UpdateToggleLabel()
      modifies this
      ensures State() == RefreshLabel(old(State()))
    {
      toggleLabel := if paused then PlayLabel else PauseLabel;
    }

    /** `audio.play()`, fire-and-forget. */
    method Play(origin: Origin)
      modifies this
      ensures State() == IssuePlay(old(State()), origin)
    {
      pending := pending + [origin];
    }

    /** The modal's "play" button. */
    method OnModalPlay()
      requires Valid() && modalMounted
      modifies this
      ensures State() == ChoosePlay(old(State()))
      ensures Valid()
      ensures Get(store, ConsentKey) == Some(Granted) && !modalMounted && volume > 0
    {
      EnsureMinimumVolumeBeforePlay();
      UpdateVolumeFromSlider();
      Play(ModalPlay);
      toggleLabel := PauseLabel;
      store := store[ConsentKey := Granted];
      modalMounted := false;
    }

    /** The modal's "deny" button. */
    method OnModalDeny()
      requires Valid() && modalMounted
      modifies this
      ensures State() == ChooseDeny(old(State()))
      ensures Valid()
      ensures Get(store, ConsentKey) == Some(Denied) && !modalMounted && pending == old(pending)
    {
      toggleLabel := PlayLabel;
      store := store[ConsentKey := Denied];
      modalMounted := false;
    }

    /** The toggle button. */
    method OnToggleClick()
      requires Valid()
      modifies this
      ensures State() == ToggleClick(old(State()))
      ensures Valid()
      ensures toggleLabel == LabelFor(paused)
    {
      if paused {
        EnsureMinimumVolumeBeforePlay();
        UpdateVolumeFromSlider();
        Play(TogglePlay);
      } else {
        paused := true;
      }
      UpdateToggleLabel();
    }

    /** The slider's `input` event, the slider now holding `value`. */
    method OnSliderInput(value: Option<int>)
      requires Valid()
      modifies this
      ensures State() == SliderInput(old(State()), value)
      ensures Valid()
      ensures volume == Clamp(SliderNumber(value))
    {
      slider := value;
      UpdateVolumeFromSlider();
    }

    /** `persistPlaybackState`, run on `beforeunload`. */
    method PersistPlaybackState()
      requires Valid()
      modifies this
      ensures State() == Persist(old(State()))
      ensures Valid()
    {
      store := store[WasPlayingKey := if paused then PausedFlag else PlayingFlag];
      store := store[CurrentTimeKey := IntegerToString(currentTime.Floor)];
    }

    /** The `visibilitychange` listener. */
    method OnVisibilityChange(hidden: bool)
      requires Valid()
      modifies this
      ensures State() == VisibilityChange(old(State()), hidden)
      ensures Valid()
    {
      if hidden {
        PersistPlaybackState();
      }
    }

    /** The outcome of the outstanding play attempt at index `k`: the handle's
        `play` listener on success, the issuing code's `catch` on rejection. */
    method OnPlaySettled(k: nat, fulfilled: bool)
      requires Valid() && k < |pending|
      modifies this
      ensures State() == SettlePlay(old(State()), k, fulfilled)
      ensures Valid()
    {
      var origin := pending[k];
      pending := pending[..k] + pending[k + 1..];
      if fulfilled {
        if paused {
          paused := false;
          UpdateToggleLabel();
        }
      } else if origin == ModalPlay {
        toggleLabel := PlayLabel;
      }
    }

    /** The looping handle's clock reaching `position` while it plays. */
    method OnMediaProgress(position: Seconds)
      requires Valid() && !paused
      modifies this
      ensures State() == Progress(old(State()), position)
      ensures Valid()
    {
      currentTime := position;
    }

    /** The listener table: route one event to its handler; an event that cannot
        happen in the current state changes nothing. */
    method Dispatch(e: Event)
      requires Valid()
      modifies this
      ensures State() == Step(old(State()), e)
      ensures Valid()
    {
      if !Enabled(State(), e) {
        return;
      }
      match e
      case ModalPlayClick => OnModalPlay();
      case ModalDenyClick => OnModalDeny();
      case ToggleButtonClick => OnToggleClick();
      case SliderChange(v) => OnSliderInput(v);
      case BeforeUnload => PersistPlaybackState();
      case VisibilityChangeTo(hidden) => OnVisibilityChange(hidden);
      case PlaySettled(k, ok) => OnPlaySettled(k, ok);
      case MediaProgress(t) => OnMediaProgress(t);
    }
  }
}
