/** The interaction controller of the newer player (`useUIState`): the
    overlay's visibility and its hide timer, the pointer gestures, the
    double-click window, the transient visual effects, captions, on-demand
    segment skip, fullscreen and the settings popup. The browser's
    fullscreen API is a log of requests, the captions state and the key
    bindings are reduced to the fields they touch, and timers are flags or
    queues with explicit "fires" events. */
module Interaction {
  import opened Wrappers
  import opened SegmentSkip
  import Playback

  /** `UI_TIMEOUT`: the overlay hides this long after the last `showUI`. */
  const UiTimeoutMs: int := 3000
  /** The double-click window of `onPointerUp`. */
  const DoubleClickMs: int := 300
  /** The duration every visual effect is declared with. */
  const EffectDurationMs: int := 500

  /** `PointerEvent.pointerType` */
  datatype PointerType = Mouse | Touch | Pen

  /** The keys of `visualEffects`. */
  datatype Effect = SkipForward | SkipBackward | VolumeUp | VolumeDown | ToggleCaptions

  /** The declaration order of `visualEffects`, which `Object.keys` follows. */
  const AllEffects: seq<Effect> := [SkipForward, SkipBackward, VolumeUp, VolumeDown, ToggleCaptions]

  /** An effect's place in the declaration order. */
  function Rank(e: Effect): (n: nat)
    ensures n < |AllEffects| && AllEffects[n] == e
  {
    match e
    case SkipForward => 0
    case SkipBackward => 1
    case VolumeUp => 2
    case VolumeDown => 3
    case ToggleCaptions => 4
  }

  /** The declared `position` of each effect. */
  function EffectPosition(e: Effect): string {
    match e
    case SkipForward => "right"
    case SkipBackward => "left"
    case _ => "center"
  }

  /** One entry of `visibleEffects`. */
  datatype VisibleEffect = VisibleEffect(name: Effect, duration: int, position: string)

  /** The entry for an effect, as declared. */
  function EntryFor(e: Effect): VisibleEffect {
    VisibleEffect(e, EffectDurationMs, EffectPosition(e))
  }

  /** The visible effects among `order`, in that order. */
  function ListVisible(order: seq<Effect>, visible: set<Effect>): (r: seq<VisibleEffect>)
    ensures |r| <= |order|
    ensures forall i :: 0 <= i < |r| ==> r[i] == EntryFor(r[i].name) && r[i].name in visible && r[i].name in order
  {
    if |order| == 0 then []
    else
      ListVisible(order[..|order| - 1], visible) +
      (if order[|order| - 1] in visible then [EntryFor(order[|order| - 1])] else [])
  }

  /** Every visible effect of `order` is listed. */
  lemma {:induction false} ListVisibleComplete(order: seq<Effect>, visible: set<Effect>, e: Effect)
    requires e in order && e in visible
    ensures exists i :: 0 <= i < |ListVisible(order, visible)| && ListVisible(order, visible)[i].name == e
    decreases |order|
  {
    var r := ListVisible(order, visible);
    var init := order[..|order| - 1];
    if order[|order| - 1] == e {
      assert r[|r| - 1].name == e;
    } else {
      assert e in init;
      ListVisibleComplete(init, visible, e);
      var i :| 0 <= i < |ListVisible(init, visible)| && ListVisible(init, visible)[i].name == e;
      assert r[i] == ListVisible(init, visible)[i];
    }
  }

  /** When `order` is in declaration order, so is the list. */
  lemma {:induction false} ListVisibleOrdered(order: seq<Effect>, visible: set<Effect>)
    requires forall i, j :: 0 <= i < j < |order| ==> Rank(order[i]) < Rank(order[j])
    ensures forall i, j :: 0 <= i < j < |ListVisible(order, visible)| ==>
              Rank(ListVisible(order, visible)[i].name) < Rank(ListVisible(order, visible)[j].name)
    decreases |order|
  {
    if |order| > 0 {
      var init := order[..|order| - 1];
      var last := order[|order| - 1];
      assert forall k :: 0 <= k < |init| ==> init[k] == order[k];
      ListVisibleOrdered(init, visible);
      var r0 := ListVisible(init, visible);
      forall i | 0 <= i < |r0| ensures Rank(r0[i].name) < Rank(last) {
        var k :| 0 <= k < |init| && init[k] == r0[i].name;
        assert init[k] == order[k];
      }
      var r := ListVisible(order, visible);
      assert r == r0 + (if last in visible then [EntryFor(last)] else []);
      forall i, j | 0 <= i < j < |r| ensures Rank(r[i].name) < Rank(r[j].name) {
        if j < |r0| {
          assert r[i] == r0[i] && r[j] == r0[j];
        } else {
          assert r[i] == r0[i] && r[j].name == last;
        }
      }
    }
  }

  /** `visibleEffects`: exactly the visible effects, each once, in
      declaration order, with its declared duration and position. */
  function VisibleEffects(visible: set<Effect>): (r: seq<VisibleEffect>)
    ensures forall i :: 0 <= i < |r| ==> r[i] == EntryFor(r[i].name) && r[i].name in visible
    ensures forall e :: e in visible ==> exists i :: 0 <= i < |r| && r[i].name == e
    ensures forall i, j :: 0 <= i < j < |r| ==> Rank(r[i].name) < Rank(r[j].name)
  {
    var r := ListVisible(AllEffects, visible);
    forall e | e in visible ensures exists i :: 0 <= i < |r| && r[i].name == e {
      assert AllEffects[Rank(e)] == e;
      ListVisibleComplete(AllEffects, visible, e);
    }
    assert forall k :: 0 <= k < |AllEffects| ==> Rank(AllEffects[k]) == k;
    ListVisibleOrdered(AllEffects, visible);
    r
  }

  /** `visible`: shown while seeking or not playing, otherwise `_visible`. */
  function UiVisible(seeking: bool, playing: bool, shown: bool): (v: bool)
    ensures seeking || !playing ==> v
    ensures !seeking && playing ==> v == shown
  {
    seeking || !playing || shown
  }

  /** `cursor`: "none" exactly when the overlay is hidden. */
  function CursorFor(visible: bool): (c: string)
    ensures c == "none" <==> !visible
    ensures visible ==> c == "default"
  {
    if visible then "default" else "none"
  }

  /** What the fullscreen API was asked to do. */
  datatype FullscreenRequest = RequestFullscreen | ExitFullscreen

  class UiController {
    const vs: Playback.VideoState
    var shown: bool
    var seeking: bool
    var hideTimerPending: bool
    var touchEvent: bool
    /** The debounced move's pending timer and the pointer type it captured. */
    var pointerMoveTimer: Option<PointerType>
    var doubleClickArmed: bool
    var effectsVisible: set<Effect>
    /** Pending effect clears in firing order; all have the same duration. */
    var effectTimers: seq<Effect>
    var fullscreen: bool
    var fullscreenRequests: seq<FullscreenRequest>
    var settingsOpen: bool
    var popupOpen: bool
    var escapeListener: bool
    var posterVisible: bool
    /** The captions state: the tracks' language codes (absent before they
        load) and the selected track code. */
    var captionTracks: Option<seq<string>>
    var currentTrackCode: Option<string>
    /** The player UI root exists (`flipPlayerUIRef.value`). */
    const uiMounted: bool
    const sponsorblockEnabled: bool
    const policies: map<string, Policy>
    const segments: seq<Segment>

    ghost predicate Valid()
      reads this, vs
    {
      vs.Valid() && forall e :: e in effectsVisible ==> e in effectTimers
    }

    /** The initial state: overlay shown, nothing pending, poster visible. */
    constructor (vs: Playback.VideoState, uiMounted: bool, sponsorblockEnabled: bool,
                 policies: map<string, Policy>, segments: seq<Segment>,
                 captionTracks: Option<seq<string>>, currentTrackCode: Option<string>)
      requires vs.Valid()
      ensures Valid()
      ensures this.vs == vs && shown && !seeking && !hideTimerPending && !touchEvent
      ensures pointerMoveTimer.None? && !doubleClickArmed && effectsVisible == {} && effectTimers == []
      ensures !fullscreen && fullscreenRequests == [] && !settingsOpen && !popupOpen && !escapeListener
      ensures posterVisible
      ensures this.uiMounted == uiMounted && this.sponsorblockEnabled == sponsorblockEnabled
      ensures this.policies == policies && this.segments == segments
      ensures this.captionTracks == captionTracks && this.currentTrackCode == currentTrackCode
    {
      this.vs := vs;
      shown, seeking, hideTimerPending, touchEvent := true, false, false, false;
      pointerMoveTimer, doubleClickArmed := None, false;
      effectsVisible, effectTimers := {}, [];
      fullscreen, fullscreenRequests := false, [];
      settingsOpen, popupOpen, escapeListener := false, false, false;
      posterVisible := true;
      this.captionTracks := captionTracks;
      this.currentTrackCode := currentTrackCode;
      this.uiMounted := uiMounted;
      this.sponsorblockEnabled := sponsorblockEnabled;
      this.policies := policies;
      this.segments := segments;
    }

    function Visible(): bool
      reads this, vs
    {
      UiVisible(seeking, vs.playing, shown)
    }

    function Cursor(): string
      reads this, vs
    {
      CursorFor(Visible())
    }

    /** `showUI`: show, and replace any hide timer by exactly one new one. */
    method ShowUI()
      modifies this`shown, this`hideTimerPending
      ensures shown && hideTimerPending
    {
      shown := true;
      hideTimerPending := true;
    }

    /** `hideUI`: hide and cancel the hide timer. */
    method HideUI()
      modifies this`shown, this`hideTimerPending
      ensures !shown && !hideTimerPending
    {
      shown := false;
      hideTimerPending := false;
    }

    /** The hide timer fires `UiTimeoutMs` after the last `showUI`. */
    method HideTimerFires()
      requires hideTimerPending
      modifies this`shown, this`hideTimerPending
      ensures !shown && !hideTimerPending
    {
      shown := false;
      hideTimerPending := false;
    }

    /** `setSeeking`: ending a seek re-shows the overlay; starting one does
        not touch `_visible`. */
    method SetSeeking(s: bool)
      modifies this`seeking, this`shown, this`hideTimerPending
      ensures seeking == s
      ensures s ==> shown == old(shown) && hideTimerPending == old(hideTimerPending)
      ensures !s ==> shown && hideTimerPending
      ensures s ==> Visible()
    {
      seeking := s;
      if !s {
        ShowUI();
      }
    }

    /** `onPointerDown`: a touch is recorded; on the video element it
        toggles the overlay. */
    method OnPointerDown(pointerType: PointerType, onVideo: bool)
      modifies this`touchEvent, this`shown, this`hideTimerPending
      ensures touchEvent == (old(touchEvent) || pointerType == Touch)
      ensures pointerType == Touch && onVideo ==>
                if old(Visible()) then !shown && !hideTimerPending else shown && hideTimerPending
      ensures !(pointerType == Touch && onVideo) ==>
                shown == old(shown) && hideTimerPending == old(hideTimerPending)
    {
      if pointerType == Touch {
        touchEvent := true;
        if onVideo {
          if !Visible() {
            ShowUI();
          } else {
            HideUI();
          }
        }
      }
    }

    /** `onPointerMove`: restart the 1 ms debounce timer. */
    method OnPointerMove(pointerType: PointerType)
      modifies this`pointerMoveTimer
      ensures pointerMoveTimer == Some(pointerType)
    {
      pointerMoveTimer := Some(pointerType);
    }

    /** The debounced move fires: a mouse move re-shows the overlay unless
        a touch was recorded. */
    method PointerMoveTimerFires()
      requires pointerMoveTimer.Some?
      modifies this`pointerMoveTimer, this`shown, this`hideTimerPending
      ensures pointerMoveTimer.None?
      ensures old(pointerMoveTimer).value == Mouse && !touchEvent ==> shown && hideTimerPending
      ensures !(old(pointerMoveTimer).value == Mouse && !touchEvent) ==>
                shown == old(shown) && hideTimerPending == old(hideTimerPending)
    {
      var pointerType := pointerMoveTimer.value;
      pointerMoveTimer := None;
      if pointerType == Mouse && !touchEvent {
        ShowUI();
      }
    }

    /** `onPointerLeave`: cancel the debounce; a mouse leave hides the
        overlay unless a touch was recorded, then forgets the touch. */
    method OnPointerLeave(pointerType: PointerType)
      modifies this`pointerMoveTimer, this`touchEvent, this`shown, this`hideTimerPending
      ensures pointerMoveTimer.None?
      ensures pointerType == Mouse && !old(touchEvent) ==> !shown && !hideTimerPending
      ensures !(pointerType == Mouse && !old(touchEvent)) ==>
                shown == old(shown) && hideTimerPending == old(hideTimerPending)
      ensures touchEvent == (old(touchEvent) && pointerType != Mouse)
    {
      pointerMoveTimer := None;
      if pointerType == Mouse && !touchEvent {
        HideUI();
      }
      if pointerType == Mouse {
        touchEvent := false;
      }
    }

    /** `toggleFullscreen`: ask the browser to leave or enter fullscreen;
        the flag itself waits for the change notification. */
    method ToggleFullscreen()
      modifies this`fullscreenRequests
      ensures fullscreenRequests == old(fullscreenRequests) +
                (if fullscreen then [ExitFullscreen] else if uiMounted then [RequestFullscreen] else [])
    {
      if fullscreen {
        fullscreenRequests := fullscreenRequests + [ExitFullscreen];
      } else if uiMounted {
        fullscreenRequests := fullscreenRequests + [RequestFullscreen];
      }
    }

    /** `updateFullscreen`, on `fullscreenchange`. */
    method UpdateFullscreen(fullscreenElementPresent: bool)
      modifies this`fullscreen
      ensures fullscreen == fullscreenElementPresent
    {
      fullscreen := fullscreenElementPresent;
    }

    /** `onPointerUp`: a mouse release on the video arms the double-click
        window, or, while it is armed, disarms it and toggles fullscreen;
        the left button also toggles playback. */
    method OnPointerUp(pointerType: PointerType, onVideo: bool, button: int)
      requires Valid()
      modifies this`doubleClickArmed, this`fullscreenRequests, vs`calls, vs`posts
      ensures Valid()
      ensures !(pointerType == Mouse && onVideo) ==>
                doubleClickArmed == old(doubleClickArmed) && fullscreenRequests == old(fullscreenRequests) &&
                vs.calls == old(vs.calls) && vs.posts == old(vs.posts)
      ensures pointerType == Mouse && onVideo ==>
                doubleClickArmed == !old(doubleClickArmed) &&
                fullscreenRequests == old(fullscreenRequests) +
                  (if !old(doubleClickArmed) then []
                   else if fullscreen then [ExitFullscreen] else if uiMounted then [RequestFullscreen] else [])
      ensures pointerType == Mouse && onVideo && button == 0 ==>
                vs.calls == old(vs.calls) +
                  (if vs.adapter.Some?
                   then [Playback.AdapterCall(vs.adapter.value.generation,
                                              if vs.playing then Playback.AdapterOp.Pause else Playback.AdapterOp.Play)]
                   else []) &&
                vs.posts == old(vs.posts) +
                  (if vs.playing && Playback.SavesPosition(vs.saveVideoHistory, vs.embed, vs.loggedIn, vs.live)
                   then [Playback.HistoryPost(vs.currentTime, vs.duration)] else [])
      ensures pointerType == Mouse && onVideo && button != 0 ==>
                vs.calls == old(vs.calls) && vs.posts == old(vs.posts)
    {
      if pointerType == Mouse && onVideo {
        if !doubleClickArmed {
          doubleClickArmed := true;
        } else {
          doubleClickArmed := false;
          ToggleFullscreen();
        }
        if button == 0 {
          if vs.playing {
            vs.Pause();
          } else {
            vs.Play();
          }
        }
      }
    }

    /** The double-click window closes. */
    method DoubleClickTimerFires()
      requires doubleClickArmed
      modifies this`doubleClickArmed
      ensures !doubleClickArmed
    {
      doubleClickArmed := false;
    }

    /** `triggerEffect`: show the effect and queue its own clear; earlier
        clears of the same effect stay queued. */
    method TriggerEffect(e: Effect)
      requires Valid()
      modifies this`effectsVisible, this`effectTimers
      ensures Valid()
      ensures effectsVisible == old(effectsVisible) + {e}
      ensures effectTimers == old(effectTimers) + [e]
      ensures exists i :: 0 <= i < |VisibleEffects(effectsVisible)| && VisibleEffects(effectsVisible)[i] == EntryFor(e)
    {
      effectsVisible := effectsVisible + {e};
      effectTimers := effectTimers + [e];
      ghost var i :| 0 <= i < |VisibleEffects(effectsVisible)| && VisibleEffects(effectsVisible)[i].name == e;
    }

    /** The oldest pending clear fires and hides its effect, whatever was
        triggered since. */
    method EffectTimerFires()
      requires Valid() && |effectTimers| > 0
      modifies this`effectsVisible, this`effectTimers
      ensures Valid()
      ensures effectsVisible == old(effectsVisible) - {old(effectTimers)[0]}
      ensures effectTimers == old(effectTimers)[1..]
    {
      effectsVisible := effectsVisible - {effectTimers[0]};
      effectTimers := effectTimers[1..];
    }

    /** `toggleCaptions`: with tracks available, clear a selected track or
        select the first one, and show the captions effect either way. */
    method ToggleCaptions()
      requires Valid()
      modifies this`currentTrackCode, this`effectsVisible, this`effectTimers
      ensures Valid()
      ensures !(captionTracks.Some? && |captionTracks.value| > 0) ==>
                currentTrackCode == old(currentTrackCode) &&
                effectsVisible == old(effectsVisible) && effectTimers == old(effectTimers)
      ensures captionTracks.Some? && |captionTracks.value| > 0 ==>
                currentTrackCode ==
                  (if old(currentTrackCode).Some? && old(currentTrackCode).value != ""
                   then None else Some(captionTracks.value[0])) &&
                effectsVisible == old(effectsVisible) + {Effect.ToggleCaptions} &&
                effectTimers == old(effectTimers) + [Effect.ToggleCaptions]
    {
      if captionTracks.Some? && |captionTracks.value| > 0 {
        if currentTrackCode.Some? && currentTrackCode.value != "" {
          currentTrackCode := None;
          TriggerEffect(Effect.ToggleCaptions);
        } else {
          currentTrackCode := Some(captionTracks.value[0]);
          TriggerEffect(Effect.ToggleCaptions);
        }
      }
    }

    /** `skipCurrentSponsorBlockSegment`: seek to the end of the segment
        playing now unless skipping is off, nothing plays, or its policy is
        `none`. */
    method SkipCurrentSponsorBlockSegment()
      requires Valid()
      modifies vs`calls, vs`posts
      ensures Valid()
      ensures !SkipsOnDemand(sponsorblockEnabled, segments, policies, vs.currentTime) ==>
                vs.calls == old(vs.calls) && vs.posts == old(vs.posts)
      ensures SkipsOnDemand(sponsorblockEnabled, segments, policies, vs.currentTime) ==>
                vs.calls == old(vs.calls) +
                  (if vs.adapter.Some?
                   then [Playback.AdapterCall(vs.adapter.value.generation,
                           Playback.AdapterOp.SetTime(CurrentSegment(segments, vs.currentTime).value.endTime))]
                   else []) &&
                vs.posts == old(vs.posts) +
                  (if Playback.SavesPosition(vs.saveVideoHistory, vs.embed, vs.loggedIn, vs.live)
                   then [Playback.HistoryPost(vs.currentTime, vs.duration)] else [])
    {
      if !sponsorblockEnabled {
        return;
      }
      var current := CurrentSegment(segments, vs.currentTime);
      if current.None? {
        return;
      }
      if PolicyFor(policies, current.value.category) == Ignore {
        return;
      }
      vs.SetTime(current.value.endTime);
    }

    /** `openSettings`: open the popup and listen for Escape. */
    method OpenSettings()
      modifies this`settingsOpen, this`popupOpen, this`escapeListener
      ensures settingsOpen && popupOpen && escapeListener
    {
      settingsOpen := true;
      escapeListener := true;
      popupOpen := true;
    }

    /** A key press reaching the settings listener: Escape removes it and
        closes the settings; nothing happens while it is not registered. */
    method OnCloseSettings(key: string)
      modifies this`settingsOpen, this`popupOpen, this`escapeListener
      ensures !(old(escapeListener) && key == "Escape") ==>
                settingsOpen == old(settingsOpen) && popupOpen == old(popupOpen) &&
                escapeListener == old(escapeListener)
      ensures old(escapeListener) && key == "Escape" ==> !escapeListener && !settingsOpen && !popupOpen
    {
      if escapeListener && key == "Escape" {
        escapeListener := false;
        CloseSettings();
      }
    }

    /** `closeSettings`: clears both flags; the Escape listener stays. */
    method CloseSettings()
      modifies this`settingsOpen, this`popupOpen
      ensures !settingsOpen && !popupOpen
    {
      settingsOpen := false;
      popupOpen := false;
    }

    /** `hidePoster` */
    method HidePoster()
      modifies this`posterVisible
      ensures !posterVisible
    {
      posterVisible := false;
    }
  }

  /** The on-demand skip happens exactly when skipping is on, a segment
      plays and its policy is not `none`. */
  predicate SkipsOnDemand(enabled: bool, segments: seq<Segment>, policies: map<string, Policy>, time: real): (skips: bool)
    ensures skips <==>
              enabled && exists k: nat :: FirstCovering(segments, time, k) && PolicyFor(policies, segments[k].category) != Ignore
  {
    enabled &&
    CurrentSegment(segments, time).Some? &&
    PolicyFor(policies, CurrentSegment(segments, time).value.category) != Ignore
  }

  /** Both `skip` and `ask` seek on demand: only `none` does not, and an
      unset policy counts as `none`. */
  lemma AskAlsoSkipsOnDemand(segments: seq<Segment>, policies: map<string, Policy>, time: real)
    requires CurrentSegment(segments, time).Some?
    requires CurrentSegment(segments, time).value.category in policies
    requires policies[CurrentSegment(segments, time).value.category] == Ask
    ensures SkipsOnDemand(true, segments, policies, time)
  {
  }

  /** Three rapid left clicks on the video: the second toggles fullscreen,
      the third re-arms the window, so fullscreen is requested once. */
  method ThreeRapidClicks(ui: UiController)
    requires ui.Valid() && !ui.doubleClickArmed && !ui.fullscreen && ui.uiMounted
    modifies ui`doubleClickArmed, ui`fullscreenRequests, ui.vs`calls, ui.vs`posts
    ensures ui.Valid()
    ensures ui.fullscreenRequests == old(ui.fullscreenRequests) + [RequestFullscreen]
    ensures ui.doubleClickArmed
  {
    ui.OnPointerUp(Mouse, true, 0);
    ui.OnPointerUp(Mouse, true, 0);
    ui.OnPointerUp(Mouse, true, 0);
  }

  /** Re-triggering an effect does not extend it: the first clear hides it
      although the second one is still pending. */
  method RetriggerIsClearedEarly(ui: UiController, e: Effect)
    requires ui.Valid() && ui.effectTimers == []
    modifies ui`effectsVisible, ui`effectTimers
    ensures e !in ui.effectsVisible && ui.effectTimers == [e]
  {
    ui.TriggerEffect(e);
    ui.TriggerEffect(e);
    ui.EffectTimerFires();
  }
}
