/** The playback-state orchestrator (`useVideoState`): it owns the playback
    record, creates the delivery adapter that matches the source type,
    forwards every control to it, and saves the watch position under the
    history policy, throttled on time updates. The adapters themselves are
    not part of this model: an adapter is its identity, and what is sent to
    it is the log `calls`. */
module Playback {
  import opened Wrappers

  // ---------------------------------------------------------------------
  // The save throttle (`useThrottleFn(saveVideoPosition, 5000)` with the
  // library's defaults: leading, no trailing run), with the clock
  // `Date.now()` given as `now`.

  const SaveThrottleMs: int := 5000

  /** `lastExec`: when the wrapped function last ran (never, at start; the
      library's 0 is always more than 5 s before the clock). A call inside
      the window is dropped: nothing is scheduled for later. */
  datatype Throttle = Throttle(lastExec: Option<int>)

  /** The throttle after a call, and whether the wrapped function ran. */
  datatype ThrottleStep = ThrottleStep(next: Throttle, invoked: bool)

  /** A call: run now when none ran yet or more than one window has passed
      since the last run; otherwise the call is dropped. */
  function ThrottleCall(th: Throttle, now: int): (r: ThrottleStep)
    ensures r.invoked <==> th.lastExec.None? || now - th.lastExec.value > SaveThrottleMs
    ensures r.invoked ==> r.next == Throttle(Some(now))
    ensures !r.invoked ==> r.next == th
  {
    if th.lastExec.None? || now - th.lastExec.value > SaveThrottleMs then
      ThrottleStep(Throttle(Some(now)), true)
    else
      ThrottleStep(th, false)
  }

  /** The times at which the wrapped function ran during `calls`. */
  function Runs(th: Throttle, calls: seq<int>): seq<int>
    decreases |calls|
  {
    if |calls| == 0 then []
    else
      var st := ThrottleCall(th, calls[0]);
      (if st.invoked then [calls[0]] else []) + Runs(st.next, calls[1..])
  }

  /** At most one save per 5000 ms: consecutive runs are more than a window
      apart, and the first is more than a window after the previous one. A
      clock that goes back only drops calls. */
  lemma {:induction false} RunsAreSpaced(th: Throttle, calls: seq<int>)
    ensures var rs := Runs(th, calls);
            (forall i :: 0 < i < |rs| ==> rs[i] - rs[i - 1] > SaveThrottleMs) &&
            (th.lastExec.Some? && |rs| > 0 ==> rs[0] - th.lastExec.value > SaveThrottleMs)
    decreases |calls|
  {
    if |calls| > 0 {
      RunsAreSpaced(ThrottleCall(th, calls[0]).next, calls[1..]);
    }
  }

  /** Every run is one of the calls: nothing runs at a time nobody called. */
  lemma {:induction false} RunsAreCalls(th: Throttle, calls: seq<int>)
    ensures |Runs(th, calls)| <= |calls|
    ensures forall t :: t in Runs(th, calls) ==> t in calls
    decreases |calls|
  {
    if |calls| > 0 {
      RunsAreCalls(ThrottleCall(th, calls[0]).next, calls[1..]);
    }
  }

  /** A time update inside the window after a save is dropped for good: at
      10000 ms and 12000 ms the throttle saves once. */
  lemma DroppedCallIsNotReplayed()
    ensures Runs(Throttle(None), [10000, 12000]) == [10000]
    ensures Runs(Throttle(None), [10000, 12000, 15001]) == [10000, 15001]
  {
  }

  // ---------------------------------------------------------------------
  // Adapters

  /** `VideoSourceType`: DASH, HLS, or any other kind of source. */
  datatype SourceType = Dash | Hls | OtherSource

  datatype AdapterKind = RxPlayer | HlsPlayer

  /** An adapter instance: its kind, its identity, and the loop setting the
      rxPlayer adapter is created with (`None` for the hls adapter). */
  datatype Adapter = Adapter(kind: AdapterKind, generation: nat, loop: Option<bool>)

  /** The operations of the adapter's control surface. */
  datatype AdapterOp =
    | Destroy | Play | Pause
    | SetVolume(volume: real) | SetPlaybackRate(rate: real) | SetTime(time: real)
    | SetLanguage(language: string)
    | SetVideoRepresentation(videoTrackId: string, videoRepresentationId: string)
    | SetAudioRepresentation(audioTrackId: string, audioRepresentationId: string)
    | SetAutoVideoQuality | SetAutoAudioQuality

  /** One operation sent to the adapter with identity `generation`. */
  datatype AdapterCall = AdapterCall(generation: nat, op: AdapterOp)

  /** A history post body `{progressSeconds, lengthSeconds}` (not floored here). */
  datatype HistoryPost = HistoryPost(progressSeconds: real, lengthSeconds: real)

  /** Which adapter `instantiateAdapter` creates for a source type. */
  function AdapterFor(sourceType: SourceType, generation: nat, alwaysLoop: bool): (a: Option<Adapter>)
    ensures a.Some? <==> sourceType != OtherSource
    ensures a.Some? ==> a.value.generation == generation
    ensures sourceType == Dash ==> a.value.kind == RxPlayer && a.value.loop == Some(alwaysLoop)
    ensures sourceType == Hls ==> a.value.kind == HlsPlayer && a.value.loop.None?
  {
    match sourceType
    case Dash => Some(Adapter(RxPlayer, generation, Some(alwaysLoop)))
    case Hls => Some(Adapter(HlsPlayer, generation, None))
    case OtherSource => None
  }

  /** The save gates: history on, not embedded, logged in, not live. */
  predicate SavesPosition(saveVideoHistory: bool, embed: bool, loggedIn: bool, live: bool) {
    saveVideoHistory && !embed && loggedIn && !live
  }

  /** A route query value made of decimal digits only. */
  predicate AllDigits(s: string) {
    forall i :: 0 <= i < |s| ==> '0' <= s[i] <= '9'
  }

  /** `Number(t)` on a string of decimal digits. */
  function DigitsValue(s: string): (n: nat)
    requires AllDigits(s)
    ensures |s| == 1 ==> n == (s[0] - '0') as nat
    ensures |s| > 0 ==> n == 10 * DigitsValue(s[..|s| - 1]) + (s[|s| - 1] - '0') as nat
  {
    if |s| == 0 then 0
    else 10 * DigitsValue(s[..|s| - 1]) + (s[|s| - 1] - '0') as nat
  }

  /** Only leading zeros change nothing in the value of a digit string. */
  lemma {:induction false} DigitsValueLeadingZero(s: string)
    requires AllDigits(s)
    ensures AllDigits("0" + s) && DigitsValue("0" + s) == DigitsValue(s)
    decreases |s|
  {
    assert AllDigits("0" + s);
    if |s| > 0 {
      assert ("0" + s)[..|"0" + s| - 1] == "0" + s[..|s| - 1];
      DigitsValueLeadingZero(s[..|s| - 1]);
    }
  }

  /** The orchestrator's state: the adapter ref, the playback record
      `videoState`, the element's `loop` and `muted` attributes, the volume
      storage, the player store's mirrors, the save throttle and the
      history posts sent. Settings and session are read-only inputs. */
  class VideoState {
    var sourceType: SourceType
    var adapter: Option<Adapter>
    var nextGeneration: nat
    var calls: seq<AdapterCall>
    var volumeStorage: real
    // the media element's attributes written directly
    var elementLoop: bool
    var elementMuted: bool
    // the player store
    var storeLoop: bool
    var storeCurrentTime: real
    var storeVideoLength: real
    // videoState
    var playing: bool
    var currentTime: real
    var duration: real
    var loop: bool
    // position saving
    var throttle: Throttle
    var posts: seq<HistoryPost>
    // settings and session
    const saveVideoHistory: bool
    const embed: bool
    const loggedIn: bool
    const live: bool
    const alwaysLoopVideo: bool
    const defaultVideoSpeed: real

    ghost predicate Valid()
      reads this
    {
      (adapter.Some? ==> adapter.value.generation < nextGeneration) &&
      (forall c :: c in calls ==> c.generation < nextGeneration)
    }

    /** `useVideoState`: the initial `videoState` record, the stored volume,
        no adapter yet. */
    constructor (sourceType: SourceType, storedVolume: real,
                 saveVideoHistory: bool, embed: bool, loggedIn: bool, live: bool,
                 alwaysLoopVideo: bool, defaultVideoSpeed: real)
      ensures Valid()
      ensures this.sourceType == sourceType && adapter.None? && calls == [] && posts == []
      ensures volumeStorage == storedVolume && !playing && currentTime == 0.0 && duration == 0.0
      ensures this.saveVideoHistory == saveVideoHistory && this.embed == embed
      ensures this.loggedIn == loggedIn && this.live == live
      ensures this.alwaysLoopVideo == alwaysLoopVideo && this.defaultVideoSpeed == defaultVideoSpeed
      ensures throttle == Throttle(None)
    {
      this.sourceType := sourceType;
      adapter, nextGeneration, calls := None, 0, [];
      volumeStorage := storedVolume;
      elementLoop, elementMuted := false, false;
      storeLoop, storeCurrentTime, storeVideoLength := false, 0.0, 0.0;
      playing, currentTime, duration, loop := false, 0.0, 0.0, false;
      throttle, posts := Throttle(None), [];
      this.saveVideoHistory := saveVideoHistory;
      this.embed := embed;
      this.loggedIn := loggedIn;
      this.live := live;
      this.alwaysLoopVideo := alwaysLoopVideo;
      this.defaultVideoSpeed := defaultVideoSpeed;
    }

    /** `instantiateAdapter`: destroy and drop the current adapter, then
        create the one the source type selects (none for other types). */
    method InstantiateAdapter()
      requires Valid()
      modifies this`adapter, this`calls, this`nextGeneration
      ensures Valid()
      ensures calls == old(calls) +
                (if old(adapter).Some? then [AdapterCall(old(adapter).value.generation, AdapterOp.Destroy)] else [])
      ensures adapter == AdapterFor(sourceType, old(nextGeneration), alwaysLoopVideo)
      ensures adapter.Some? ==> old(adapter).None? || adapter.value != old(adapter).value
    {
      if adapter.Some? {
        calls := calls + [AdapterCall(adapter.value.generation, AdapterOp.Destroy)];
        adapter := None;
      }
      adapter := AdapterFor(sourceType, nextGeneration, alwaysLoopVideo);
      nextGeneration := nextGeneration + 1;
    }

    /** `adapterInstance.value?.op(...)`: sent to the current adapter, and a
        no-op without one. */
    method Forward(op: AdapterOp)
      requires Valid()
      modifies this`calls
      ensures Valid()
      ensures calls == old(calls) + (if adapter.Some? then [AdapterCall(adapter.value.generation, op)] else [])
    {
      if adapter.Some? {
        calls := calls + [AdapterCall(adapter.value.generation, op)];
      }
    }

    /** `saveVideoPosition`: post the current time and duration when every
        gate holds; a failed post is swallowed. */
    method SaveVideoPosition()
      modifies this`posts
      ensures posts == old(posts) +
                (if SavesPosition(saveVideoHistory, embed, loggedIn, live)
                 then [HistoryPost(currentTime, duration)] else [])
    {
      if saveVideoHistory && !embed {
        if loggedIn && !live {
          posts := posts + [HistoryPost(currentTime, duration)];
        }
      }
    }

    method Play()
      requires Valid()
      modifies this`calls
      ensures Valid()
      ensures calls == old(calls) + (if adapter.Some? then [AdapterCall(adapter.value.generation, AdapterOp.Play)] else [])
    {
      Forward(AdapterOp.Play);
    }

    /** `pause`: forward, then save the position. */
    method Pause()
      requires Valid()
      modifies this`calls, this`posts
      ensures Valid()
      ensures calls == old(calls) + (if adapter.Some? then [AdapterCall(adapter.value.generation, AdapterOp.Pause)] else [])
      ensures posts == old(posts) +
                (if SavesPosition(saveVideoHistory, embed, loggedIn, live)
                 then [HistoryPost(currentTime, duration)] else [])
    {
      Forward(AdapterOp.Pause);
      SaveVideoPosition();
    }

    /** `setVolume`: the volume storage is written even without an adapter. */
    method SetVolume(volume: real)
      requires Valid()
      modifies this`volumeStorage, this`calls
      ensures Valid()
      ensures volumeStorage == volume
      ensures calls == old(calls) +
                (if adapter.Some? then [AdapterCall(adapter.value.generation, AdapterOp.SetVolume(volume))] else [])
    {
      volumeStorage := volume;
      Forward(AdapterOp.SetVolume(volume));
    }

    /** `setMuted`: written straight to the element. */
    method SetMuted(muted: bool)
      modifies this`elementMuted
      ensures elementMuted == muted
    {
      elementMuted := muted;
    }

    method SetPlaybackRate(rate: real)
      requires Valid()
      modifies this`calls
      ensures Valid()
      ensures calls == old(calls) +
                (if adapter.Some? then [AdapterCall(adapter.value.generation, AdapterOp.SetPlaybackRate(rate))] else [])
    {
      Forward(AdapterOp.SetPlaybackRate(rate));
    }

    /** `setTime`: forward, wait a tick, then save the position. What the
        adapter does to `currentTime` within that tick is not modelled. */
    method SetTime(time: real)
      requires Valid()
      modifies this`calls, this`posts
      ensures Valid()
      ensures calls == old(calls) +
                (if adapter.Some? then [AdapterCall(adapter.value.generation, AdapterOp.SetTime(time))] else [])
      ensures posts == old(posts) +
                (if SavesPosition(saveVideoHistory, embed, loggedIn, live)
                 then [HistoryPost(currentTime, duration)] else [])
    {
      Forward(AdapterOp.SetTime(time));
      SaveVideoPosition();
    }

    /** `setLoop`: the element attribute and the player store. */
    method SetLoop(loopOn: bool)
      modifies this`elementLoop, this`storeLoop
      ensures elementLoop == loopOn && storeLoop == loopOn
    {
      elementLoop := loopOn;
      storeLoop := loopOn;
    }

    method SetLanguage(language: string)
      requires Valid()
      modifies this`calls
      ensures Valid()
      ensures calls == old(calls) +
                (if adapter.Some? then [AdapterCall(adapter.value.generation, AdapterOp.SetLanguage(language))] else [])
    {
      Forward(AdapterOp.SetLanguage(language));
    }

    method SetVideoRepresentation(trackId: string, representationId: string)
      requires Valid()
      modifies this`calls
      ensures Valid()
      ensures calls == old(calls) +
                (if adapter.Some?
                 then [AdapterCall(adapter.value.generation, AdapterOp.SetVideoRepresentation(trackId, representationId))]
                 else [])
    {
      Forward(AdapterOp.SetVideoRepresentation(trackId, representationId));
    }

    method SetAudioRepresentation(trackId: string, representationId: string)
      requires Valid()
      modifies this`calls
      ensures Valid()
      ensures calls == old(calls) +
                (if adapter.Some?
                 then [AdapterCall(adapter.value.generation, AdapterOp.SetAudioRepresentation(trackId, representationId))]
                 else [])
    {
      Forward(AdapterOp.SetAudioRepresentation(trackId, representationId));
    }

    method SetAutoVideoQuality()
      requires Valid()
      modifies this`calls
      ensures Valid()
      ensures calls == old(calls) +
                (if adapter.Some? then [AdapterCall(adapter.value.generation, AdapterOp.SetAutoVideoQuality)] else [])
    {
      Forward(AdapterOp.SetAutoVideoQuality);
    }

    method SetAutoAudioQuality()
      requires Valid()
      modifies this`calls
      ensures Valid()
      ensures calls == old(calls) +
                (if adapter.Some? then [AdapterCall(adapter.value.generation, AdapterOp.SetAutoAudioQuality)] else [])
    {
      Forward(AdapterOp.SetAutoAudioQuality);
    }

    /** `onMounted`: create the adapter, then apply the loop and speed
        settings. */
    method Mount()
      requires Valid()
      modifies this`adapter, this`calls, this`nextGeneration, this`elementLoop, this`storeLoop
      ensures Valid()
      ensures adapter == AdapterFor(sourceType, old(nextGeneration), alwaysLoopVideo)
      ensures elementLoop == alwaysLoopVideo && storeLoop == alwaysLoopVideo
      ensures calls == old(calls) +
                (if old(adapter).Some? then [AdapterCall(old(adapter).value.generation, AdapterOp.Destroy)] else []) +
                (if adapter.Some? then [AdapterCall(adapter.value.generation, AdapterOp.SetPlaybackRate(defaultVideoSpeed))]
                 else [])
    {
      InstantiateAdapter();
      SetLoop(alwaysLoopVideo);
      SetPlaybackRate(defaultVideoSpeed);
    }

    /** The attribute observer: the element's `loop` was changed from outside. */
    method OnLoopAttributeChanged(newLoop: bool)
      modifies this`elementLoop, this`loop, this`storeLoop
      ensures elementLoop == newLoop && loop == newLoop && storeLoop == newLoop
    {
      elementLoop := newLoop;
      loop := elementLoop;
      storeLoop := elementLoop;
    }

    /** The adapter reports playing / paused. */
    method OnPlayingChanged(isPlaying: bool)
      modifies this`playing
      ensures playing == isPlaying
    {
      playing := isPlaying;
    }

    /** The adapter reports a duration. */
    method OnDurationChanged(d: real)
      modifies this`duration
      ensures duration == d
    {
      duration := d;
    }

    /** The adapter writes `videoState.currentTime`; on a change the watcher
        calls the throttled save and mirrors time and duration to the store. */
    method OnCurrentTimeChanged(time: real, now: int)
      requires Valid()
      modifies this`currentTime, this`throttle, this`posts, this`storeCurrentTime, this`storeVideoLength
      ensures Valid()
      ensures currentTime == time
      ensures time == old(currentTime) ==>
                throttle == old(throttle) && posts == old(posts) &&
                storeCurrentTime == old(storeCurrentTime) && storeVideoLength == old(storeVideoLength)
      ensures time != old(currentTime) ==>
                throttle == ThrottleCall(old(throttle), now).next &&
                storeCurrentTime == time && storeVideoLength == duration &&
                posts == old(posts) +
                  (if ThrottleCall(old(throttle), now).invoked &&
                      SavesPosition(saveVideoHistory, embed, loggedIn, live)
                   then [HistoryPost(time, duration)] else [])
    {
      if time != currentTime {
        currentTime := time;
        var step := ThrottleCall(throttle, now);
        throttle := step.next;
        if step.invoked {
          SaveVideoPosition();
        }
        storeCurrentTime := currentTime;
        storeVideoLength := duration;
      }
    }

    /** The route watcher: a non-empty `t` seeks to `Number(t)`. */
    method OnRouteQuery(t: string)
      requires Valid() && AllDigits(t)
      modifies this`calls, this`posts
      ensures Valid()
      ensures t == "" ==> calls == old(calls) && posts == old(posts)
      ensures t != "" ==>
                calls == old(calls) +
                  (if adapter.Some? then [AdapterCall(adapter.value.generation, AdapterOp.SetTime(DigitsValue(t) as real))]
                   else []) &&
                posts == old(posts) +
                  (if SavesPosition(saveVideoHistory, embed, loggedIn, live)
                   then [HistoryPost(currentTime, duration)] else [])
    {
      if t != "" {
        SetTime(DigitsValue(t) as real);
      }
    }

    /** `onBeforeUnmount`: destroy the adapter; the ref is not cleared and
        the position is not saved. */
    method Unmount()
      requires Valid()
      modifies this`calls
      ensures Valid()
      ensures calls == old(calls) + (if adapter.Some? then [AdapterCall(adapter.value.generation, AdapterOp.Destroy)] else [])
    {
      if adapter.Some? {
        calls := calls + [AdapterCall(adapter.value.generation, AdapterOp.Destroy)];
      }
    }
  }

  /** A re-instantiation destroys the old adapter before anything reaches
      the new one: the destroy call is the last one the old adapter gets. */
  method Reinstantiate(vs: VideoState)
    requires vs.Valid() && vs.adapter.Some? && vs.sourceType != OtherSource
    modifies vs
    ensures vs.Valid() && vs.adapter.Some?
    ensures vs.calls == old(vs.calls) + [AdapterCall(old(vs.adapter).value.generation, AdapterOp.Destroy),
                                          AdapterCall(vs.adapter.value.generation, AdapterOp.Play)]
    ensures vs.adapter.value.generation != old(vs.adapter).value.generation
  {
    vs.InstantiateAdapter();
    vs.Play();
  }
}
