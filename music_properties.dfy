/** What the controller promises, stated over the state machine of `MusicState`. */
module MusicProperties {
  import opened Wrappers
  import opened JsValues
  import opened MusicState

  /** The stores agree on every key outside `keys`. */
  ghost predicate AgreeExcept(a: Store, b: Store, keys: set<string>)
  {
    forall k :: k !in keys ==> Get(a, k) == Get(b, k)
  }

  /** The home test as the pattern `\/(index\.html)?$` reads: from some position
      on, the rest of the path is `/` or `/index.html`. */
  predicate MatchesHomePattern(path: string)
  {
    exists i :: 0 <= i <= |path| && (path[i..] == "/" || path[i..] == "/index.html")
  }

  // ---------------------------------------------------------------------------
  // Page load

  /** The suffix test is the pattern: any path ending in `/`, a directory as
      well as the site root, counts as home. */
  lemma IsHomeMatchesPattern(path: string)
    ensures IsHome(path) <==> MatchesHomePattern(path)
  {
  }

  /** The modal is mounted exactly when the path is home and the session holds
      no consent; so once either answer is recorded, no later page load of the
      session shows it. */
  lemma ModalShownIff(path: string, session: Store)
    ensures Load(path, session).modalMounted <==> IsHome(path) && ConsentKey !in session
    ensures Load(path, session).modalMounted ==> Load(path, session).pending == []
  {
  }

  /** With no stored volume the page starts silent (`Number(null)` is 0), with
      the slider at 0; the guard raises both to 50 before the first play. */
  lemma AbsentVolumeStartsSilent(path: string, session: Store)
    requires VolumeKey !in session
    ensures Initialize(path, session).volume == 0
    ensures Initialize(path, session).slider == Some(0)
    ensures EnsureMinimumVolume(Initialize(path, session)).volume == 50
    ensures EnsureMinimumVolume(Initialize(path, session)).slider == Some(50)
  {
  }

  /** Every loaded page satisfies the session invariant. */
  lemma LoadEstablishesInv(path: string, session: Store)
    ensures Inv(Load(path, session))
  {
  }

  /** A play attempt issued by a page load is issued at an audible volume. */
  lemma ResumeIsAudible(path: string, session: Store)
    ensures Load(path, session).pending != [] ==> Load(path, session).volume > 0
  {
  }

  /** Without a stored consent of exactly "granted" (denied, absent, or any
      other string), a load neither seeks nor issues play: the page is the
      freshly initialized one. */
  lemma NoResumeWithoutGrant(path: string, session: Store)
    requires Get(session, ConsentKey) != Some(Granted)
    ensures Load(path, session) == Initialize(path, session)
    ensures Load(path, session).pending == [] && Load(path, session).currentTime == 0.0
    ensures Load(path, session).paused
  {
  }

  /** With consent "granted", a load seeks exactly when the stored time reads as
      a finite number above 0 (so "abc", "-3", "0" or an absent key give no seek),
      and issues one play exactly when was-playing is the string "1". */
  lemma ResumeGate(path: string, session: Store)
    requires Get(session, ConsentKey) == Some(Granted)
    ensures var t := ToNumber(Get(session, CurrentTimeKey));
            var q := Load(path, session);
            q.currentTime == (if t.Finite? && t.n > 0 then t.n as real else 0.0)
            && q.pending == (if Get(session, WasPlayingKey) == Some(PlayingFlag) then [ResumePlay] else [])
            && q.paused && !q.modalMounted
  {
  }

  /** A resume the browser blocks: the page stays paused under the play label
      with nothing outstanding, at the position it sought, so the toggle can
      start playback by hand. The guard before the attempt sets the volume to 50
      when the stored one is unusable, and otherwise keeps the stored volume;
      it writes only `musicVolume`, and only when it raises it. */
  lemma BlockedResume(path: string, session: Store)
    requires Get(session, ConsentKey) == Some(Granted)
    requires Get(session, WasPlayingKey) == Some(PlayingFlag)
    ensures var q := Load(path, session);
            var s := SettlePlay(q, 0, false);
            q.toggleLabel == PlayLabel
            && s.paused && s.toggleLabel == PlayLabel && s.pending == []
            && s.currentTime == q.currentTime
            && q.volume == (if NeedsRaise(StoredVolume(session)) then MinimumPlayVolume
                            else InitialVolume(StoredVolume(session)))
            && AgreeExcept(session, q.store, {VolumeKey})
            && (!NeedsRaise(StoredVolume(session)) ==> q.store == session)
  {
    var p := Initialize(path, session);
    var resumeAt := ToNumber(Get(p.store, CurrentTimeKey));
    var sought := if resumeAt.Finite? && resumeAt.n > 0 then p.(currentTime := resumeAt.n as real) else p;
    if NeedsRaise(StoredVolume(session)) {
      GuardRaises(sought);
    }
  }

  /** Resuming after `musicConsent=granted`, `musicWasPlaying=1` and
      `musicCurrentTime=42`: the handle seeks to 42 seconds and play is issued. */
  lemma ResumeExample(path: string)
    ensures var session := map[ConsentKey := Granted, WasPlayingKey := PlayingFlag, CurrentTimeKey := "42"];
            Load(path, session).currentTime == 42.0 && Load(path, session).pending == [ResumePlay]
  {
  }

  // ---------------------------------------------------------------------------
  // The volume guard and the slider

  /** The guard raises a stored volume that is absent, not a number or not
      positive to 50, in the audio handle, in the store and on the slider, and
      touches nothing else. */
  lemma GuardRaises(p: Page)
    requires NeedsRaise(StoredVolume(p.store))
    ensures var r := EnsureMinimumVolume(p);
            r.volume == MinimumPlayVolume && r.slider == Some(MinimumPlayVolume)
            && StoredVolume(r.store) == Finite(MinimumPlayVolume)
            && Get(r.store, VolumeKey) == Some("50")
            && AgreeExcept(p.store, r.store, {VolumeKey})
            && r.(volume := p.volume, slider := p.slider, store := p.store) == p
  {
    assert NaturalToString(5) == [DigitChar(5)] == "5";
    assert IntegerToString(50) == NaturalToString(5) + [DigitChar(0)] == "50";
  }

  lemma GuardPreservesInv(p: Page)
    requires Inv(p)
    ensures Inv(EnsureMinimumVolume(p))
  {
  }

  /** After the guard, on a page that keeps the invariant, the audio volume and
      the clamped slider value are both positive. */
  lemma GuardMakesAudible(p: Page)
    requires Inv(p)
    ensures EnsureMinimumVolume(p).volume > 0
    ensures Clamp(SliderNumber(EnsureMinimumVolume(p).slider)) > 0
  {
  }

  /** The slider handler applies and stores `min(max(v, 0), 100)` of the slider
      value, an empty value counting as 0, and touches nothing else. */
  lemma SliderInputClamps(p: Page, value: Option<int>)
    ensures var r := SliderInput(p, value);
            r.volume == Clamp(SliderNumber(value))
            && StoredVolume(r.store) == Finite(r.volume)
            && r.slider == value
            && AgreeExcept(p.store, r.store, {VolumeKey})
            && r.(volume := p.volume, slider := p.slider, store := p.store) == p
    ensures value == None ==> SliderInput(p, value).volume == 0
  {
  }

  /** The volume survives a page load: a page loaded from this session's store
      starts with the current volume, and its slider shows it. */
  lemma ReloadRestoresVolume(p: Page, path: string)
    requires Inv(p)
    ensures Initialize(path, p.store).volume == p.volume
    ensures Initialize(path, Persist(p).store).volume == p.volume
  {
  }

  // ---------------------------------------------------------------------------
  // The modal's choices

  /** "Play": guard, slider volume, play attempt at an audible volume, pause
      affordance, consent "granted", modal closed; only the volume and consent
      keys of the store change and the handle's play state is left to the
      attempt's outcome. */
  lemma ChoosePlayEffects(p: Page)
    requires Inv(p)
    ensures var r := ChoosePlay(p);
            Get(r.store, ConsentKey) == Some(Granted)
            && !r.modalMounted
            && r.toggleLabel == PauseLabel
            && r.pending == p.pending + [ModalPlay]
            && r.volume > 0
            && r.volume == Clamp(SliderNumber(r.slider))
            && StoredVolume(r.store) == Finite(r.volume)
            && r.slider == (if NeedsRaise(StoredVolume(p.store)) then Some(50) else p.slider)
            && r.paused == p.paused && r.currentTime == p.currentTime
            && AgreeExcept(p.store, r.store, {VolumeKey, ConsentKey})
  {
    GuardMakesAudible(p);
    var g := EnsureMinimumVolume(p);
    assert ApplySlider(g).slider == g.slider;
    assert StoredVolume(ApplySlider(g).store) == Finite(ApplySlider(g).volume);
  }

  /** A rejected "play" attempt puts the play affordance back and leaves the
      handle as it was (paused, or still playing after an earlier toggle); a
      fulfilled one leaves it playing under the pause affordance. */
  lemma ChoosePlayOutcome(p: Page)
    ensures var r := ChoosePlay(p);
            var k := |r.pending| - 1;
            SettlePlay(r, k, false).toggleLabel == PlayLabel
            && SettlePlay(r, k, false).paused == p.paused
            && SettlePlay(r, k, true).toggleLabel == PauseLabel && !SettlePlay(r, k, true).paused
            && SettlePlay(r, k, false).pending == p.pending
            && SettlePlay(r, k, true).pending == p.pending
  {
  }

  /** "Deny": play affordance, consent "denied", modal closed; no play attempt,
      and volume, slider, play state and the rest of the store unchanged. */
  lemma ChooseDenyEffects(p: Page)
    ensures var r := ChooseDeny(p);
            Get(r.store, ConsentKey) == Some(Denied)
            && !r.modalMounted
            && r.toggleLabel == PlayLabel
            && AgreeExcept(p.store, r.store, {ConsentKey})
            && r.(toggleLabel := p.toggleLabel, store := p.store, modalMounted := p.modalMounted) == p
  {
  }

  // ---------------------------------------------------------------------------
  // The toggle

  /** Clicking while paused runs the guard, applies the slider, issues a play
      attempt at an audible volume and, `paused` being still true, shows the play
      affordance until the attempt's success shows the pause one. Only the volume
      key of the store changes; position and modal are untouched. */
  lemma ToggleWhilePaused(p: Page)
    requires Inv(p) && p.paused
    ensures var r := ToggleClick(p);
            var k := |r.pending| - 1;
            r.paused && r.toggleLabel == PlayLabel
            && r.pending == p.pending + [TogglePlay]
            && r.volume > 0 && r.volume == Clamp(SliderNumber(r.slider))
            && r.slider == (if NeedsRaise(StoredVolume(p.store)) then Some(50) else p.slider)
            && StoredVolume(r.store) == Finite(r.volume)
            && AgreeExcept(p.store, r.store, {VolumeKey})
            && r.currentTime == p.currentTime && r.modalMounted == p.modalMounted
            && !SettlePlay(r, k, true).paused && SettlePlay(r, k, true).toggleLabel == PauseLabel
            && SettlePlay(r, k, false).paused && SettlePlay(r, k, false).toggleLabel == PlayLabel
  {
  }

  /** Clicking while playing pauses and shows the play affordance, nothing else. */
  lemma ToggleWhilePlaying(p: Page)
    requires !p.paused
    ensures ToggleClick(p) == p.(paused := true, toggleLabel := PlayLabel)
  {
  }

  // ---------------------------------------------------------------------------
  // The persistence snapshot and autoresume

  /** The snapshot writes `musicWasPlaying` = "0" exactly when the handle is
      paused (and "1" otherwise) and `musicCurrentTime` = the whole seconds of
      the position, and changes nothing else. */
  lemma PersistSnapshot(p: Page)
    ensures var r := Persist(p);
            (Get(r.store, WasPlayingKey) == Some(PausedFlag) <==> p.paused)
            && (Get(r.store, WasPlayingKey) == Some(PlayingFlag) <==> !p.paused)
            && ToNumber(Get(r.store, CurrentTimeKey)) == Finite(p.currentTime.Floor)
            && p.currentTime.Floor >= 0
            && AgreeExcept(p.store, r.store, {WasPlayingKey, CurrentTimeKey})
            && r.(store := p.store) == p
    ensures VisibilityChange(p, true) == Persist(p) && VisibilityChange(p, false) == p
  {
  }

  /** A reload after the snapshot, with consent granted, seeks to the persisted
      whole seconds when they are positive, resumes exactly when the handle was
      playing, and does so at the volume the handle had (raised to 50 if that
      was 0). */
  lemma ResumeAfterReload(p: Page, path: string)
    requires Inv(p) && Get(p.store, ConsentKey) == Some(Granted)
    ensures var q := Load(path, Persist(p).store);
            var whole := p.currentTime.Floor;
            q.currentTime == (if whole > 0 then whole as real else 0.0)
            && q.pending == (if p.paused then [] else [ResumePlay])
            && !q.modalMounted
            && q.volume == (if !p.paused && p.volume == 0 then 50 else p.volume)
  {
  }

  // ---------------------------------------------------------------------------
  // The whole session

  /** Every event keeps the invariant. */
  lemma StepPreservesInv(p: Page, e: Event)
    requires Inv(p)
    ensures Inv(Step(p, e))
  {
    if Enabled(p, e) {
      match e
      case ModalPlayClick => GuardPreservesInv(p);
      case ToggleButtonClick => GuardPreservesInv(p);
      case BeforeUnload => PersistSnapshot(p);
      case VisibilityChangeTo(hidden) => PersistSnapshot(p);
      case SliderChange(v) => SliderInputClamps(p, v);
      case _ =>
    }
  }

  lemma {:induction false} RunPreservesInv(p: Page, events: seq<Event>)
    requires Inv(p)
    ensures Inv(Run(p, events))
    decreases |events|
  {
    if events != [] {
      StepPreservesInv(p, events[0]);
      RunPreservesInv(Step(p, events[0]), events[1..]);
    }
  }

  /** Every play attempt any event issues is issued at an audible volume. */
  lemma PlayNeverSilent(p: Page, e: Event)
    requires Inv(p)
    ensures |Step(p, e).pending| > |p.pending| ==> Step(p, e).volume > 0
  {
  }

  /** Consent is written only by the modal's two choices, only while none is
      recorded: "granted" by "play", "denied" by "deny". */
  lemma ConsentWrittenOnlyByModal(p: Page, e: Event)
    requires Inv(p)
    ensures var r := Step(p, e);
            Get(r.store, ConsentKey) != Get(p.store, ConsentKey) ==>
              ConsentKey !in p.store
              && ((e == ModalPlayClick && Get(r.store, ConsentKey) == Some(Granted))
                  || (e == ModalDenyClick && Get(r.store, ConsentKey) == Some(Denied)))
  {
  }

  /** A recorded consent is never overwritten during the session, and the modal
      never shows again, whatever events follow. */
  lemma {:induction false} ConsentNeverOverwritten(p: Page, events: seq<Event>)
    requires Inv(p) && ConsentKey in p.store
    ensures ConsentKey in Run(p, events).store
    ensures Run(p, events).store[ConsentKey] == p.store[ConsentKey]
    ensures !Run(p, events).modalMounted
    decreases |events|
  {
    if events != [] {
      var q := Step(p, events[0]);
      ConsentWrittenOnlyByModal(p, events[0]);
      StepPreservesInv(p, events[0]);
      assert Get(q.store, ConsentKey) == Get(p.store, ConsentKey);
      ConsentNeverOverwritten(q, events[1..]);
    }
  }
}
