/** The legacy video player setup (`videoPlayerSetup`): its pure helpers
    (initial stream choice, chapter lookup, hover-label offsets) and the
    reactive records its event handlers mutate, as the class `Player`. */
module LegacyPlayer {
  import opened Wrappers
  import opened Seqs
  import opened SegmentSkip
  import Playback

  // ---------------------------------------------------------------------
  // Initial stream selection

  /** A progressive format stream; the empty string stands for a missing
      (falsy) `qualityLabel` or `url`. */
  datatype FormatStream = FormatStream(qualityLabel: string, url: string)

  /** The labels the initial pick stops at. */
  predicate Preferred(f: FormatStream) {
    f.qualityLabel == "1080p" || f.qualityLabel == "720p"
  }

  /** Index of the first stream labelled '1080p' or '720p'. */
  function FirstPreferred(fs: seq<FormatStream>): (r: Option<nat>)
    ensures r.Some? ==> r.value < |fs| && Preferred(fs[r.value])
    ensures r.Some? ==> forall j :: 0 <= j < r.value ==> !Preferred(fs[j])
    ensures r.None? ==> forall j :: 0 <= j < |fs| ==> !Preferred(fs[j])
  {
    FindIndex(fs, Preferred)
  }

  /** The index of the last labelled stream among the first `n`, 0 when none
      is labelled: the value the `find` callback leaves in `qualityIndex`. */
  function LastLabelled(fs: seq<FormatStream>, n: nat): (r: nat)
    requires n <= |fs|
    ensures (exists j :: 0 <= j < n && fs[j].qualityLabel != "") ==>
              r < n && fs[r].qualityLabel != "" &&
              forall j :: r < j < n ==> fs[j].qualityLabel == ""
    ensures (forall j :: 0 <= j < n ==> fs[j].qualityLabel == "") ==> r == 0
  {
    if n == 0 then 0
    else if fs[n - 1].qualityLabel != "" then n - 1
    else LastLabelled(fs, n - 1)
  }

  /** The initial source (`highestVideoQuality`) and `selectedQuality`:
      '#' and 1 without a stream list; otherwise the url of the first stream
      labelled 1080p or 720p when it has one, else the first stream's url,
      else '#'; the quality index is where the `find` callback stopped. */
  predicate InitialQuality(streams: Option<seq<FormatStream>>, source: string, selected: nat) {
    (streams.None? ==> source == "#" && selected == 1) &&
    (streams.Some? && FirstPreferred(streams.value).Some? &&
     streams.value[FirstPreferred(streams.value).value].url != "" ==>
       source == streams.value[FirstPreferred(streams.value).value].url) &&
    (streams.Some? && |streams.value| > 0 &&
     !(FirstPreferred(streams.value).Some? &&
       streams.value[FirstPreferred(streams.value).value].url != "") ==>
       source == streams.value[0].url) &&
    (streams.Some? && |streams.value| == 0 ==> source == "#" && selected == 0) &&
    (streams.Some? ==>
       selected == LastLabelled(streams.value,
                     match FirstPreferred(streams.value)
                     case Some(k) => k + 1
                     case None => |streams.value|))
  }

  /** The setup code computing the initial source and quality index. */
  method PickInitialQuality(streams: Option<seq<FormatStream>>) returns (source: string, selected: nat)
    ensures InitialQuality(streams, source, selected)
  {
    source, selected := "#", 1;
    if streams.Some? {
      var fs := streams.value;
      var qualityIndex: nat := 0;
      var found: Option<nat> := None;
      var i := 0;
      while i < |fs| && found.None?
        invariant 0 <= i <= |fs|
        invariant found.None? ==> forall j :: 0 <= j < i ==> !Preferred(fs[j])
        invariant found.Some? ==> found == FirstPreferred(fs) && i == found.value + 1
        invariant qualityIndex == LastLabelled(fs, i)
      {
        if fs[i].qualityLabel != "" {
          qualityIndex := i;
          if Preferred(fs[i]) {
            found := Some(i);
          }
        }
        i := i + 1;
      }
      if found.Some? && fs[found.value].url != "" {
        source := fs[found.value].url;
      } else if |fs| > 0 {
        source := fs[0].url;
      }
      selected := qualityIndex;
    }
  }

  // ---------------------------------------------------------------------
  // Chapter lookup

  /** A chapter of the description, with its range as timeline percentages. */
  datatype Chapter = Chapter(title: string, startPercentage: real, endPercentage: real)

  /** Strictly inside the chapter, at both ends. */
  predicate Inside(c: Chapter, percentage: real) {
    c.startPercentage < percentage < c.endPercentage
  }

  /** `getChapterForPercentage`: the first chapter strictly containing the
      percentage; `None` without parsed chapters or without a match. */
  function ChapterForPercentage(chapters: Option<seq<Chapter>>, percentage: real): (r: Option<Chapter>)
    ensures chapters.None? ==> r.None?
    ensures r.Some? ==> chapters.Some? && r.value in chapters.value && Inside(r.value, percentage)
    ensures chapters.Some? && r.None? ==> forall c :: c in chapters.value ==> !Inside(c, percentage)
    ensures chapters.Some? && r.Some? ==>
              exists k :: 0 <= k < |chapters.value| && chapters.value[k] == r.value &&
                forall j :: 0 <= j < k ==> !Inside(chapters.value[j], percentage)
  {
    match chapters
    case None => None
    case Some(cs) =>
      var k := FindIndex(cs, c => Inside(c, percentage));
      if k.Some? then Some(cs[k.value]) else None
  }

  // ---------------------------------------------------------------------
  // Hover-label offsets

  /** A hovered element or component: `offsetWidth` (0 for missing / falsy)
      and, for a component, the width of its root element `$el`. */
  datatype HoverElement = HoverElement(offsetWidth: real, componentRootWidth: Option<real>)

  /** `element.offsetWidth || element.$el.offsetWidth`, else 0. */
  function ElementWidth(e: HoverElement): real {
    if e.offsetWidth != 0.0 then e.offsetWidth
    else match e.componentRootWidth
      case Some(w) => w
      case None => 0.0
  }

  /** The shared clamp: first raise to 10, then cap at `maxLeft`. Because the
      cap comes last it wins when `maxLeft < 10`. */
  function ClampOffset(raw: real, maxLeft: real): (leftPx: real)
    ensures leftPx <= maxLeft
    ensures maxLeft >= 10.0 ==> leftPx >= 10.0
    ensures 10.0 <= raw <= maxLeft ==> leftPx == raw
    ensures maxLeft < 10.0 ==> leftPx == maxLeft
    ensures raw < 10.0 <= maxLeft ==> leftPx == 10.0
    ensures raw > maxLeft ==> leftPx == maxLeft
  {
    var raised := if raw < 10.0 then 10.0 else raw;
    if raised > maxLeft then maxLeft else raised
  }

  /** `hoverAdjustedCenter`: the preview centred on the hover point, kept at
      least 10px from the left and `elWidth + 17`px from the right edge. */
  function HoverAdjustedCenter(element: Option<HoverElement>, percentage: real, pageWidth: real): (leftPx: real)
    ensures element.None? ==> leftPx == 0.0
    ensures element.Some? ==>
              var raw := ((pageWidth - 27.5) / 100.0) * percentage - (ElementWidth(element.value) / 2.0 - 12.0);
              var limit := pageWidth - ElementWidth(element.value) - 17.0;
              leftPx <= limit && (limit >= 10.0 ==> leftPx >= 10.0) &&
              (10.0 <= raw <= limit ==> leftPx == raw) &&
              (raw < 10.0 <= limit ==> leftPx == 10.0) &&
              (raw > limit || limit < 10.0 ==> leftPx == limit)
  {
    match element
    case None => 0.0
    case Some(e) =>
      var elWidth := ElementWidth(e);
      ClampOffset(((pageWidth - 27.5) / 100.0) * percentage - (elWidth / 2.0 - 12.0),
                  pageWidth - elWidth - 17.0)
  }

  /** `hoverAdjustedLeft`: the same clamp for a left-aligned label, with a
      right margin of 10px. */
  function HoverAdjustedLeft(element: Option<HoverElement>, percentage: real, pageWidth: real): (leftPx: real)
    ensures element.None? ==> leftPx == 0.0
    ensures element.Some? ==>
              var raw := ((pageWidth - 20.0) / 100.0) * percentage;
              var limit := pageWidth - ElementWidth(element.value) - 10.0;
              leftPx <= limit && (limit >= 10.0 ==> leftPx >= 10.0) &&
              (10.0 <= raw <= limit ==> leftPx == raw) &&
              (raw < 10.0 <= limit ==> leftPx == 10.0) &&
              (raw > limit || limit < 10.0 ==> leftPx == limit)
  {
    match element
    case None => 0.0
    case Some(e) =>
      ClampOffset(((pageWidth - 20.0) / 100.0) * percentage, pageWidth - ElementWidth(e) - 10.0)
  }

  // ---------------------------------------------------------------------
  // Gates

  /** `Math.abs(playbackTimeBeforeUpdate - currentTime) > 1 || force`, and
      not seeking. Never while seeking, always when forced; an unforced
      update is due only once the time has left the recorded whole second. */
  predicate ProgressUpdateDue(seeking: bool, lastFloored: int, time: real, force: bool): (due: bool)
    ensures seeking ==> !due
    ensures !seeking && force ==> due
    ensures due && !force ==> time.Floor != lastFloored
  {
    !seeking && (force || lastFloored as real - time > 1.0 || time - lastFloored as real > 1.0)
  }

  /** The legacy position-save gate: history enabled, logged in, not live.
      It is the newer player's gate for a player that is never embedded. */
  predicate SavesPosition(saveVideoHistory: bool, loggedIn: bool, liveNow: bool): (saves: bool)
    ensures saves == Playback.SavesPosition(saveVideoHistory, false, loggedIn, liveNow)
  {
    saveVideoHistory && loggedIn && !liveNow
  }

  /** Playing forward from a recorded time, no unforced update is due until
      playback passes the next whole second after it. */
  lemma {:induction false} NoUpdateBeforeNextSecond(recorded: real, time: real)
    requires recorded <= time <= (recorded.Floor + 1) as real
    ensures !ProgressUpdateDue(false, recorded.Floor, time, false)
  {
    assert recorded.Floor as real <= recorded;
  }

  /** The volume `onVolumeChange` derives from the element. */
  function VolumeFromElement(muted: bool, playerVolume: real, elementVolume: real): (v: real)
    ensures muted ==> v == 0.0
    ensures !muted && playerVolume == 0.0 && elementVolume == 0.0 ==> v == 0.5
    ensures !muted && !(playerVolume == 0.0 && elementVolume == 0.0) ==> v == elementVolume
  {
    if muted then 0.0
    else if playerVolume == 0.0 && elementVolume == 0.0 then 0.5
    else elementVolume
  }

  /** What a progress update does about segments: seek past one (`skip`),
      offer the skip button (`ask`), hide the button (no segment), or
      nothing (setting off, or any other policy). */
  datatype SegmentDecision = SeekTo(target: real) | OfferSkip(category: string, target: real) | HideButton | Leave

  /** The element time and skip-button state after a decision is applied,
      from the state before: a seek clamps its target into `[0, duration]`
      (a negative target leaves the time alone), an offer shows the button
      for the segment, a hide hides it, and `Leave` changes nothing. */
  predicate DecisionApplied(d: SegmentDecision, duration: real,
                            time0: real, visible0: bool, category0: string, target0: Option<real>,
                            time: real, visible: bool, category: string, target: Option<real>) {
    match d
    case SeekTo(x) =>
      visible == visible0 && target == target0 && category == category0 &&
      time == (if x < 0.0 then time0 else if x <= duration then x else duration)
    case OfferSkip(c, x) =>
      time == time0 && visible && target == Some(x) && category == c
    case HideButton =>
      time == time0 && !visible && target == target0 && category == category0
    case Leave =>
      time == time0 && visible == visible0 && target == target0 && category == category0
  }

  /** The segment branch of `updatePlaybackProgress`: the decision follows
      the enabled flag, the segment under the time and its category's
      policy; a seek or an offer targets that segment's end. */
  function Decide(enabled: bool, segments: seq<Segment>, policies: map<string, Policy>, time: real): (d: SegmentDecision)
    ensures !enabled ==> d == Leave
    ensures enabled && CurrentSegment(segments, time).None? ==> d == HideButton
    ensures d.SeekTo? || d.OfferSkip? ==> exists s :: s in segments && Covers(s, time) && d.target == s.endTime
    ensures d.SeekTo? ==> PolicyFor(policies, CurrentSegment(segments, time).value.category) == Skip
    ensures d.OfferSkip? ==> PolicyFor(policies, CurrentSegment(segments, time).value.category) == Ask
    ensures (enabled && CurrentSegment(segments, time).Some? &&
             PolicyFor(policies, CurrentSegment(segments, time).value.category) == Ignore) ==> d == Leave
    ensures (enabled && CurrentSegment(segments, time).Some? &&
             PolicyFor(policies, CurrentSegment(segments, time).value.category) == Skip) ==>
              d == SeekTo(CurrentSegment(segments, time).value.endTime)
    ensures (enabled && CurrentSegment(segments, time).Some? &&
             PolicyFor(policies, CurrentSegment(segments, time).value.category) == Ask) ==>
              d == OfferSkip(CurrentSegment(segments, time).value.category, CurrentSegment(segments, time).value.endTime)
  {
    if !enabled then Leave
    else match CurrentSegment(segments, time)
      case None => HideButton
      case Some(s) =>
        match PolicyFor(policies, s.category)
        case Skip => SeekTo(s.endTime)
        case Ask => OfferSkip(s.category, s.endTime)
        case Ignore => Leave
  }

  /** With an `ads` segment at 10-20 s and a `sponsor` segment at 50-70 s,
      an update at 55 s seeks to 70 under the `skip` policy; under `ask` it
      offers the button for the same seek instead. */
  lemma {:induction false} SponsorExample(settings: map<string, Policy>)
    ensures var segs := [Segment("ads", 10.0, 20.0), Segment("sponsor", 50.0, 70.0)];
            Decide(true, segs, settings["sponsor" := Skip], 55.0) == SeekTo(70.0) &&
            Decide(true, segs, settings["sponsor" := Ask], 55.0) == OfferSkip("sponsor", 70.0)
  {
    var segs := [Segment("ads", 10.0, 20.0), Segment("sponsor", 50.0, 70.0)];
    assert !Covers(segs[0], 55.0) && Covers(segs[1], 55.0);
    assert CurrentSegment(segs, 55.0) == Some(segs[1]);
  }

  // ---------------------------------------------------------------------
  // The reactive records and their handlers

  /** The animated feedback icons. */
  datatype Animation = SkipForward | SkipBackward | VolumeUp | VolumeDown

  /** A history post body `{progressSeconds, lengthSeconds}`. */
  datatype HistoryPost = HistoryPost(progressSeconds: int, lengthSeconds: int)

  /** The seconds seeked by the arrow keys and by a double tap. */
  const SeekStep: real := 5.0
  /** The volume change of the up / down arrow keys. */
  const VolumeStep: real := 0.1

  /** The played share of the video in percent, 0 while its length is unknown. */
  function PlayedPercent(time: real, duration: real): real {
    if duration > 0.0 then time / duration * 100.0 else 0.0
  }

  /** The state of one legacy player: the media element (`videoRef`), the
      records `videoElement`, `seekbar`, `skipButton`, `playerOverlay` and
      `animations`, and the timer handles. A pending timer is a flag (or a
      queue of pending callbacks when the code never cancels them); each one
      fires through its own `...Fires` method. */
  class Player {
    // the media element
    var currentTime: real
    var duration: real
    var volume: real
    var muted: bool
    var paused: bool
    // videoElement
    var playing: bool
    var buffering: bool
    var firstTimeBuffering: bool
    var progress: real
    var progressDuration: real
    var progressPercentage: real
    var playerVolume: real
    var positionSaveInterval: bool
    // the persisted volume (accessor.playerVolume)
    var storedVolume: real
    // seekbar
    var seeking: bool
    var seekPercentage: real
    var committedSeeks: seq<real>
    // skipButton; `skipTarget` is the seek its `clickFn` performs
    var skipVisible: bool
    var skipCategory: string
    var skipTarget: Option<real>
    // playerOverlay
    var overlayVisible: bool
    var overlayTimer: bool
    var thumbnailVisible: bool
    // animations and their pending 300 ms reset callbacks, oldest first
    var animations: set<Animation>
    var animationTimers: seq<Animation>
    // touch handling
    var touchAction: bool
    var touchActionTimers: nat
    var doubleTouchTimer: bool
    var playbackTimeBeforeUpdate: int
    // initial stream choice
    var source: string
    var selectedQuality: nat
    // segments, once fetched
    var segments: seq<Segment>
    // settings and session
    const sponsorblockEnabled: bool
    const policies: map<string, Policy>
    const liveNow: bool
    const saveVideoHistory: bool
    const loggedIn: bool
    // history posts sent, in order
    var historyPosts: seq<HistoryPost>

    ghost predicate Valid()
      reads this
    {
      0.0 <= duration && 0.0 <= currentTime <= duration &&
      0.0 <= volume <= 1.0 && 0.0 <= playerVolume <= 1.0 && 0.0 <= storedVolume <= 1.0 &&
      (touchActionTimers > 0 || !touchAction) &&
      (forall a :: a in animations ==> a in animationTimers)
    }

    /** The setup: initial records, and the stream choice of `PickInitialQuality`. */
    constructor (streams: Option<seq<FormatStream>>, storedVolume: real,
                 sponsorblockEnabled: bool, policies: map<string, Policy>,
                 liveNow: bool, saveVideoHistory: bool, loggedIn: bool)
      requires 0.0 <= storedVolume <= 1.0
      ensures Valid()
      ensures InitialQuality(streams, source, selectedQuality)
      ensures currentTime == 0.0 && duration == 0.0 && volume == 1.0 && !muted && paused
      ensures !playing && buffering && firstTimeBuffering && playerVolume == 1.0
      ensures !seeking && !skipVisible && skipTarget.None? && !overlayVisible && thumbnailVisible
      ensures animations == {} && animationTimers == [] && !doubleTouchTimer && !overlayTimer
      ensures historyPosts == [] && segments == [] && committedSeeks == []
      ensures this.storedVolume == storedVolume && this.policies == policies
      ensures this.sponsorblockEnabled == sponsorblockEnabled && this.liveNow == liveNow
      ensures this.saveVideoHistory == saveVideoHistory && this.loggedIn == loggedIn
    {
      currentTime, duration, volume, muted, paused := 0.0, 0.0, 1.0, false, true;
      playing, buffering, firstTimeBuffering := false, true, true;
      progress, progressDuration, progressPercentage := 0.0, 0.0, 0.0;
      playerVolume, positionSaveInterval := 1.0, false;
      this.storedVolume := storedVolume;
      seeking, seekPercentage, committedSeeks := false, 0.0, [];
      skipVisible, skipCategory, skipTarget := false, "", None;
      overlayVisible, overlayTimer, thumbnailVisible := false, false, true;
      animations, animationTimers := {}, [];
      touchAction, touchActionTimers, doubleTouchTimer := false, 0, false;
      playbackTimeBeforeUpdate := 0;
      segments := [];
      this.sponsorblockEnabled := sponsorblockEnabled;
      this.policies := policies;
      this.liveNow := liveNow;
      this.saveVideoHistory := saveVideoHistory;
      this.loggedIn := loggedIn;
      historyPosts := [];
      new;
      source, selectedQuality := PickInitialQuality(streams);
    }

    /** `playerOverlayVisible`: the overlay is forced while not playing. */
    function OverlayShown(): (shown: bool)
      reads this
      ensures !playing ==> shown
      ensures playing ==> (shown <==> overlayVisible)
    {
      overlayVisible || !playing
    }

    /** The segment-fetch callback stores the segments. */
    method OnSegmentsLoaded(fetched: seq<Segment>)
      modifies this`segments
      ensures segments == fetched
    {
      segments := fetched;
    }

    /** `playAnimation`: show now, schedule the reset in 300 ms; an earlier
        pending reset of the same animation is not cancelled. */
    method PlayAnimation(a: Animation)
      requires Valid()
      modifies this`animations, this`animationTimers
      ensures Valid()
      ensures animations == old(animations) + {a}
      ensures animationTimers == old(animationTimers) + [a]
    {
      animations := animations + {a};
      animationTimers := animationTimers + [a];
    }

    /** The oldest pending animation reset fires. */
    method AnimationTimerFires()
      requires Valid() && |animationTimers| > 0
      modifies this`animations, this`animationTimers
      ensures Valid()
      ensures animations == old(animations) - {old(animationTimers)[0]}
      ensures animationTimers == old(animationTimers)[1..]
    {
      var a := animationTimers[0];
      animations := animations - {a};
      animationTimers := animationTimers[1..];
    }

    /** `setVideoTime`: negative targets are ignored, targets past the end
        land on the end. */
    method SetVideoTime(seconds: real)
      requires Valid()
      modifies this`currentTime
      ensures Valid()
      ensures seconds < 0.0 ==> currentTime == old(currentTime)
      ensures 0.0 <= seconds <= duration ==> currentTime == seconds
      ensures seconds > duration ==> currentTime == duration
    {
      if seconds >= 0.0 {
        if seconds <= duration {
          currentTime := seconds;
        } else {
          currentTime := duration;
        }
      }
    }

    /** `seekForward`: never past the end. */
    method SeekForward(time: real)
      requires Valid() && time >= 0.0
      modifies this`currentTime, this`animations, this`animationTimers
      ensures Valid()
      ensures currentTime <= duration
      ensures currentTime == if old(currentTime) + time <= duration then old(currentTime) + time else duration
      ensures animations == old(animations) + {SkipForward}
      ensures animationTimers == old(animationTimers) + [SkipForward]
    {
      currentTime := if currentTime + time <= duration then currentTime + time else duration;
      PlayAnimation(SkipForward);
    }

    /** `seekBackward`: never before 0. */
    method SeekBackward(time: real)
      requires Valid() && time >= 0.0
      modifies this`currentTime, this`animations, this`animationTimers
      ensures Valid()
      ensures currentTime >= 0.0
      ensures currentTime == if old(currentTime) - time >= 0.0 then old(currentTime) - time else 0.0
      ensures animations == old(animations) + {SkipBackward}
      ensures animationTimers == old(animationTimers) + [SkipBackward]
    {
      currentTime := if currentTime - time >= 0.0 then currentTime - time else 0.0;
      PlayAnimation(SkipBackward);
    }

    /** `increaseVolume`: capped at 1. */
    method IncreaseVolume(delta: real)
      requires Valid() && delta >= 0.0
      modifies this`volume, this`animations, this`animationTimers
      ensures Valid()
      ensures 0.0 <= volume <= 1.0
      ensures volume == if old(volume) + delta <= 1.0 then old(volume) + delta else 1.0
      ensures animations == old(animations) + {VolumeUp}
      ensures animationTimers == old(animationTimers) + [VolumeUp]
    {
      volume := if volume + delta <= 1.0 then volume + delta else 1.0;
      PlayAnimation(VolumeUp);
    }

    /** `decreaseVolume`: floored at 0. */
    method DecreaseVolume(delta: real)
      requires Valid() && delta >= 0.0
      modifies this`volume, this`animations, this`animationTimers
      ensures Valid()
      ensures 0.0 <= volume <= 1.0
      ensures volume == if old(volume) - delta >= 0.0 then old(volume) - delta else 0.0
      ensures animations == old(animations) + {VolumeDown}
      ensures animationTimers == old(animationTimers) + [VolumeDown]
    {
      volume := if volume - delta >= 0.0 then volume - delta else 0.0;
      PlayAnimation(VolumeDown);
    }

    /** `toggleVideoPlayback`: ignored while seeking; otherwise hides the
        thumbnail and asks the element to pause if playing, else to play. */
    method ToggleVideoPlayback()
      modifies this`thumbnailVisible, this`paused
      ensures old(seeking) ==> thumbnailVisible == old(thumbnailVisible) && paused == old(paused)
      ensures !old(seeking) ==> !thumbnailVisible && paused == old(playing)
    {
      if !seeking {
        thumbnailVisible := false;
        paused := playing;
      }
    }

    /** `onWindowKeyDown`: space toggles playback, the arrows seek by 5 s or
        step the volume by 0.1; returns whether the default is prevented. */
    method OnWindowKeyDown(key: string) returns (preventDefault: bool)
      requires Valid()
      modifies this`thumbnailVisible, this`paused, this`currentTime, this`volume,
               this`animations, this`animationTimers
      ensures Valid()
      ensures preventDefault <==> key in {" ", "ArrowUp", "ArrowDown"}
      ensures key == "ArrowRight" ==>
                currentTime == if old(currentTime) + SeekStep <= duration then old(currentTime) + SeekStep else duration
      ensures key == "ArrowLeft" ==>
                currentTime == if old(currentTime) - SeekStep >= 0.0 then old(currentTime) - SeekStep else 0.0
      ensures key == "ArrowUp" ==>
                volume == if old(volume) + VolumeStep <= 1.0 then old(volume) + VolumeStep else 1.0
      ensures key == "ArrowDown" ==>
                volume == if old(volume) - VolumeStep >= 0.0 then old(volume) - VolumeStep else 0.0
      ensures key == " " && !old(seeking) ==> paused == old(playing) && !thumbnailVisible
      ensures key == " " && old(seeking) ==> paused == old(paused) && thumbnailVisible == old(thumbnailVisible)
      ensures key == " " ==>
                currentTime == old(currentTime) && volume == old(volume) &&
                animations == old(animations) && animationTimers == old(animationTimers)
      ensures key in {"ArrowRight", "ArrowLeft"} ==>
                volume == old(volume) && paused == old(paused) && thumbnailVisible == old(thumbnailVisible)
      ensures key in {"ArrowUp", "ArrowDown"} ==>
                currentTime == old(currentTime) && paused == old(paused) && thumbnailVisible == old(thumbnailVisible)
      ensures key == "ArrowRight" ==>
                animations == old(animations) + {SkipForward} && animationTimers == old(animationTimers) + [SkipForward]
      ensures key == "ArrowLeft" ==>
                animations == old(animations) + {SkipBackward} && animationTimers == old(animationTimers) + [SkipBackward]
      ensures key == "ArrowUp" ==>
                animations == old(animations) + {VolumeUp} && animationTimers == old(animationTimers) + [VolumeUp]
      ensures key == "ArrowDown" ==>
                animations == old(animations) + {VolumeDown} && animationTimers == old(animationTimers) + [VolumeDown]
      ensures key !in {" ", "ArrowRight", "ArrowLeft", "ArrowUp", "ArrowDown"} ==>
                currentTime == old(currentTime) && volume == old(volume) && paused == old(paused) &&
                thumbnailVisible == old(thumbnailVisible) &&
                animations == old(animations) && animationTimers == old(animationTimers)
    {
      preventDefault := false;
      if key == " " {
        ToggleVideoPlayback();
        preventDefault := true;
      } else if key == "ArrowRight" {
        SeekForward(SeekStep);
      } else if key == "ArrowLeft" {
        SeekBackward(SeekStep);
      } else if key == "ArrowUp" {
        IncreaseVolume(VolumeStep);
        preventDefault := true;
      } else if key == "ArrowDown" {
        DecreaseVolume(VolumeStep);
        preventDefault := true;
      }
    }

    /** An assignment to `videoElement.playerVolume`, followed by its
        watcher: on a change, mute exactly at 0, persist the volume and
        write it to the element. */
    method SetPlayerVolume(v: real)
      requires Valid() && 0.0 <= v <= 1.0
      modifies this`playerVolume, this`muted, this`storedVolume, this`volume
      ensures Valid()
      ensures playerVolume == v
      ensures v != old(playerVolume) ==> muted == (v == 0.0) && storedVolume == v && volume == v
      ensures v == old(playerVolume) ==>
                muted == old(muted) && storedVolume == old(storedVolume) && volume == old(volume)
    {
      var previous := playerVolume;
      playerVolume := v;
      if v != previous && 0.0 <= v <= 1.0 {
        if v > 0.0 {
          muted := false;
        } else if v == 0.0 {
          muted := true;
        }
        storedVolume := v;
        volume := v;
      }
    }

    /** `onVolumeChange`: read the element back into `playerVolume`. */
    method OnVolumeChange()
      requires Valid()
      modifies this`playerVolume, this`muted, this`storedVolume, this`volume
      ensures Valid()
      ensures playerVolume == VolumeFromElement(old(muted), old(playerVolume), old(volume))
      ensures old(muted) ==> playerVolume == 0.0
      ensures !old(muted) && old(playerVolume) == 0.0 && old(volume) == 0.0 ==>
                playerVolume == 0.5 && volume == 0.5 && !muted
      ensures playerVolume != old(playerVolume) ==>
                volume == playerVolume && storedVolume == playerVolume && muted == (playerVolume == 0.0)
      ensures playerVolume == old(playerVolume) ==>
                volume == old(volume) && storedVolume == old(storedVolume) && muted == old(muted)
    {
      SetPlayerVolume(VolumeFromElement(muted, playerVolume, volume));
    }

    /** Carry out a segment decision on the element and the skip button. */
    method ApplySegmentDecision(d: SegmentDecision)
      requires Valid()
      modifies this`currentTime, this`skipVisible, this`skipCategory, this`skipTarget
      ensures Valid()
      ensures DecisionApplied(d, duration, old(currentTime), old(skipVisible), old(skipCategory), old(skipTarget),
                              currentTime, skipVisible, skipCategory, skipTarget)
    {
      match d
      case SeekTo(t) => SetVideoTime(t);
      case OfferSkip(c, t) =>
        skipVisible := true;
        skipCategory := c;
        skipTarget := Some(t);
      case HideButton => skipVisible := false;
      case Leave =>
    }

    /** The element's time and duration copied into the progress records. */
    method CopyProgress()
      modifies this`progressPercentage, this`progress, this`progressDuration
      ensures progress == currentTime && progressDuration == duration &&
              progressPercentage == PlayedPercent(currentTime, duration)
    {
      progressPercentage, progress, progressDuration := PlayedPercent(currentTime, duration), currentTime, duration;
    }

    /** The body of `updatePlaybackProgress` once an update is due: copy the
        element time into the records, apply the segment decision for that
        time and record the (possibly new) whole second. */
    method RecordProgress()
      requires Valid()
      modifies this`progressPercentage, this`progress, this`progressDuration, this`currentTime,
               this`skipVisible, this`skipCategory, this`skipTarget, this`playbackTimeBeforeUpdate
      ensures Valid()
      ensures progress == old(currentTime) && progressDuration == duration &&
              progressPercentage == PlayedPercent(old(currentTime), duration) &&
              playbackTimeBeforeUpdate == currentTime.Floor
      ensures DecisionApplied(Decide(sponsorblockEnabled, segments, policies, old(currentTime)), duration,
                              old(currentTime), old(skipVisible), old(skipCategory), old(skipTarget),
                              currentTime, skipVisible, skipCategory, skipTarget)
    {
      var decision := Decide(sponsorblockEnabled, segments, policies, currentTime);
      CopyProgress();
      ApplySegmentDecision(decision);
      playbackTimeBeforeUpdate := currentTime.Floor;
    }

    /** `updatePlaybackProgress(force)`: unless seeking, and only when forced
        or more than a second away from the last recorded whole second, run
        `RecordProgress`; otherwise change nothing. */
    method UpdatePlaybackProgress(force: bool)
      requires Valid()
      modifies this`progressPercentage, this`progress, this`progressDuration, this`currentTime,
               this`skipVisible, this`skipCategory, this`skipTarget, this`playbackTimeBeforeUpdate
      ensures Valid()
      ensures !ProgressUpdateDue(old(seeking), old(playbackTimeBeforeUpdate), old(currentTime), force) ==>
                progress == old(progress) && progressDuration == old(progressDuration) &&
                progressPercentage == old(progressPercentage) && currentTime == old(currentTime) &&
                skipVisible == old(skipVisible) && skipTarget == old(skipTarget) &&
                skipCategory == old(skipCategory) &&
                playbackTimeBeforeUpdate == old(playbackTimeBeforeUpdate)
      ensures ProgressUpdateDue(old(seeking), old(playbackTimeBeforeUpdate), old(currentTime), force) ==>
                progress == old(currentTime) && progressDuration == duration &&
                progressPercentage == PlayedPercent(old(currentTime), duration) &&
                playbackTimeBeforeUpdate == currentTime.Floor
      ensures ProgressUpdateDue(old(seeking), old(playbackTimeBeforeUpdate), old(currentTime), force) ==>
                DecisionApplied(Decide(sponsorblockEnabled, segments, policies, old(currentTime)), duration,
                                old(currentTime), old(skipVisible), old(skipCategory), old(skipTarget),
                                currentTime, skipVisible, skipCategory, skipTarget)
    {
      if ProgressUpdateDue(seeking, playbackTimeBeforeUpdate, currentTime, force) {
        RecordProgress();
      }
    }

    /** `onPlaybackProgress`, the element's `timeupdate` handler, after the
        element has played on to `time`. */
    method OnTimeUpdate(time: real)
      requires Valid() && 0.0 <= time <= duration
      modifies this`progressPercentage, this`progress, this`progressDuration, this`currentTime,
               this`skipVisible, this`skipCategory, this`skipTarget, this`playbackTimeBeforeUpdate
      ensures Valid()
      ensures !ProgressUpdateDue(seeking, old(playbackTimeBeforeUpdate), time, false) ==>
                currentTime == time && progress == old(progress) && progressDuration == old(progressDuration) &&
                progressPercentage == old(progressPercentage) &&
                skipVisible == old(skipVisible) && skipCategory == old(skipCategory) && skipTarget == old(skipTarget) &&
                playbackTimeBeforeUpdate == old(playbackTimeBeforeUpdate)
      ensures ProgressUpdateDue(seeking, old(playbackTimeBeforeUpdate), time, false) ==>
                progress == time && progressDuration == duration &&
                progressPercentage == PlayedPercent(time, duration) &&
                playbackTimeBeforeUpdate == currentTime.Floor
      ensures ProgressUpdateDue(seeking, old(playbackTimeBeforeUpdate), time, false) ==>
                DecisionApplied(Decide(sponsorblockEnabled, segments, policies, time), duration,
                                time, old(skipVisible), old(skipCategory), old(skipTarget),
                                currentTime, skipVisible, skipCategory, skipTarget)
    {
      currentTime := time;
      UpdatePlaybackProgress(false);
    }

    /** The skip button's `clickFn`: seek to the segment end, hide the button. */
    method ClickSkipButton()
      requires Valid() && skipTarget.Some?
      modifies this`currentTime, this`skipVisible
      ensures Valid()
      ensures !skipVisible
      ensures 0.0 <= skipTarget.value <= duration ==> currentTime == skipTarget.value
      ensures skipTarget.value > duration ==> currentTime == duration
      ensures skipTarget.value < 0.0 ==> currentTime == old(currentTime)
    {
      SetVideoTime(skipTarget.value);
      skipVisible := false;
    }

    /** `doTouchAction`: flag a touch and schedule its reset in 100 ms;
        earlier resets stay pending. */
    method DoTouchAction()
      requires Valid()
      modifies this`touchAction, this`touchActionTimers
      ensures Valid()
      ensures touchAction && touchActionTimers == old(touchActionTimers) + 1
    {
      touchAction := true;
      touchActionTimers := touchActionTimers + 1;
    }

    /** One pending touch-flag reset fires. */
    method TouchActionTimerFires()
      requires Valid() && touchActionTimers > 0
      modifies this`touchAction, this`touchActionTimers
      ensures Valid()
      ensures !touchAction && touchActionTimers == old(touchActionTimers) - 1
    {
      touchAction := false;
      touchActionTimers := touchActionTimers - 1;
    }

    /** `showPlayerOverlay(noTimeout)`: show; replace the pending hide with a
        3 s one unless `noTimeout`. */
    method ShowPlayerOverlay(noTimeout: bool)
      modifies this`overlayVisible, this`overlayTimer
      ensures overlayVisible && overlayTimer == !noTimeout
    {
      overlayVisible := true;
      overlayTimer := false;
      if !noTimeout {
        overlayTimer := true;
      }
    }

    /** `hidePlayerOverlay`: cancel the pending hide and hide now. */
    method HidePlayerOverlay()
      modifies this`overlayVisible, this`overlayTimer
      ensures !overlayVisible && !overlayTimer
    {
      overlayTimer := false;
      overlayVisible := false;
    }

    /** The overlay's 3 s hide fires. */
    method OverlayTimerFires()
      requires overlayTimer
      modifies this`overlayVisible, this`overlayTimer
      ensures !overlayVisible && !overlayTimer
    {
      overlayVisible := false;
      overlayTimer := false;
    }

    /** `onPlayerMouseMove` outside a touch: re-show the overlay for 3 s. */
    method OnPlayerMouseMove()
      modifies this`overlayVisible, this`overlayTimer
      ensures old(touchAction) ==> overlayVisible == old(overlayVisible) && overlayTimer == old(overlayTimer)
      ensures !old(touchAction) ==> overlayVisible && overlayTimer
    {
      if !touchAction {
        ShowPlayerOverlay(false);
      }
    }

    /** `onPlayerTouchStart`: flag the touch and toggle the overlay, showing it
        without a hide timer. */
    method OnPlayerTouchStart()
      requires Valid()
      modifies this`touchAction, this`touchActionTimers, this`overlayVisible, this`overlayTimer
      ensures Valid()
      ensures touchAction && touchActionTimers == old(touchActionTimers) + 1
      ensures overlayVisible == !old(overlayVisible) && !overlayTimer
    {
      DoTouchAction();
      if overlayVisible {
        HidePlayerOverlay();
      } else {
        ShowPlayerOverlay(true);
      }
    }

    /** `onPlayerTouchEnd`: a first touch arms the 500 ms double-tap window;
        a second one inside it disarms it and seeks 5 s back when left of
        the container's centre, 5 s forward when right of it, and nothing
        exactly at the centre. `touchX` is `None` without a container or
        changed touches. */
    method OnPlayerTouchEnd(touchX: Option<real>, containerWidth: real)
      requires Valid()
      modifies this`touchAction, this`touchActionTimers, this`doubleTouchTimer,
               this`currentTime, this`animations, this`animationTimers
      ensures Valid()
      ensures touchAction && touchActionTimers == old(touchActionTimers) + 1
      ensures doubleTouchTimer == !old(doubleTouchTimer)
      ensures !old(doubleTouchTimer) || touchX.None? || touchX.value == containerWidth / 2.0 ==>
                currentTime == old(currentTime) && animations == old(animations) &&
                animationTimers == old(animationTimers)
      ensures old(doubleTouchTimer) && touchX.Some? && touchX.value < containerWidth / 2.0 ==>
                currentTime == (if old(currentTime) - SeekStep >= 0.0 then old(currentTime) - SeekStep else 0.0) &&
                animations == old(animations) + {SkipBackward} &&
                animationTimers == old(animationTimers) + [SkipBackward]
      ensures old(doubleTouchTimer) && touchX.Some? && touchX.value > containerWidth / 2.0 ==>
                currentTime == (if old(currentTime) + SeekStep <= duration then old(currentTime) + SeekStep else duration) &&
                animations == old(animations) + {SkipForward} &&
                animationTimers == old(animationTimers) + [SkipForward]
    {
      DoTouchAction();
      if !doubleTouchTimer {
        doubleTouchTimer := true;
      } else {
        doubleTouchTimer := false;
        if touchX.Some? {
          var leftHalf := touchX.value < containerWidth / 2.0;
          var rightHalf := touchX.value > containerWidth / 2.0;
          if leftHalf {
            SeekBackward(SeekStep);
          } else if rightHalf {
            SeekForward(SeekStep);
          }
        }
      }
    }

    /** The double-tap window closes without a second tap: an active seek
        drag ends and is committed at its percentage. */
    method DoubleTouchTimerFires()
      requires doubleTouchTimer
      modifies this`doubleTouchTimer, this`seeking, this`committedSeeks
      ensures !doubleTouchTimer && !seeking
      ensures committedSeeks == old(committedSeeks) + (if old(seeking) then [seekPercentage] else [])
    {
      doubleTouchTimer := false;
      if seeking {
        seeking := false;
        committedSeeks := committedSeeks + [seekPercentage];
      }
    }

    /** `saveVideoPosition(time)`: post floored progress and length when
        history is on, the viewer is logged in and the video is not live;
        failures are ignored. */
    method SaveVideoPosition(time: real)
      modifies this`historyPosts
      ensures historyPosts == old(historyPosts) +
                (if SavesPosition(saveVideoHistory, loggedIn, liveNow)
                 then [HistoryPost(time.Floor, duration.Floor)] else [])
    {
      if saveVideoHistory {
        if loggedIn && !liveNow {
          historyPosts := historyPosts + [HistoryPost(time.Floor, duration.Floor)];
        }
      }
    }

    /** `onVideoPlaying`: playing, thumbnail hidden, the 5 s save interval
        (re)started. */
    method OnVideoPlaying()
      modifies this`positionSaveInterval, this`thumbnailVisible, this`playing
      ensures playing && !thumbnailVisible && positionSaveInterval
    {
      positionSaveInterval := false;
      thumbnailVisible := false;
      playing := true;
      positionSaveInterval := true;
    }

    /** The 5 s save interval ticks. */
    method PositionSaveIntervalFires()
      requires positionSaveInterval
      modifies this`historyPosts
      ensures historyPosts == old(historyPosts) +
                (if SavesPosition(saveVideoHistory, loggedIn, liveNow)
                 then [HistoryPost(currentTime.Floor, duration.Floor)] else [])
    {
      SaveVideoPosition(currentTime);
    }

    /** `onVideoPaused`: not playing, position saved, interval stopped. */
    method OnVideoPaused()
      modifies this`playing, this`historyPosts, this`positionSaveInterval
      ensures !playing && !positionSaveInterval
      ensures historyPosts == old(historyPosts) +
                (if SavesPosition(saveVideoHistory, loggedIn, liveNow)
                 then [HistoryPost(currentTime.Floor, duration.Floor)] else [])
    {
      playing := false;
      SaveVideoPosition(currentTime);
      positionSaveInterval := false;
    }

    /** `onVideoCanplay` / `onVideoBuffering`. */
    method OnBufferingChange(waiting: bool)
      modifies this`buffering
      ensures buffering == waiting
    {
      buffering := waiting;
    }

    /** `onLoadedMetadata` once the element knows its `duration`: restore the
        persisted volume; the first time, seek to the initial time unless
        live and start playing when autoplay is on; buffering ends. */
    method OnLoadedMetadata(knownDuration: real, initialVideoTime: real, autoplay: bool)
      requires Valid() && knownDuration >= currentTime
      modifies this`duration, this`playerVolume, this`muted, this`storedVolume, this`volume,
               this`firstTimeBuffering, this`currentTime, this`paused, this`buffering
      ensures Valid()
      ensures duration == knownDuration && !firstTimeBuffering && !buffering
      ensures playerVolume == old(storedVolume) && storedVolume == old(storedVolume)
      ensures old(storedVolume) != old(playerVolume) ==> volume == old(storedVolume) && muted == (old(storedVolume) == 0.0)
      ensures old(storedVolume) == old(playerVolume) ==> volume == old(volume) && muted == old(muted)
      ensures old(firstTimeBuffering) && !liveNow && 0.0 <= initialVideoTime <= knownDuration ==>
                currentTime == initialVideoTime
      ensures old(firstTimeBuffering) && !liveNow && initialVideoTime > knownDuration ==>
                currentTime == knownDuration
      ensures old(firstTimeBuffering) && !liveNow && initialVideoTime < 0.0 ==>
                currentTime == old(currentTime)
      ensures !old(firstTimeBuffering) || liveNow ==> currentTime == old(currentTime)
      ensures old(firstTimeBuffering) && autoplay ==> !paused
      ensures !(old(firstTimeBuffering) && autoplay) ==> paused == old(paused)
    {
      duration := knownDuration;
      SetPlayerVolume(storedVolume);
      if firstTimeBuffering {
        firstTimeBuffering := false;
        if !liveNow {
          SetVideoTime(initialVideoTime);
        }
        if autoplay {
          paused := false;
        }
      }
      buffering := false;
    }

    /** `onBeforeUnmount`: a last position save. */
    method Unmount()
      modifies this`historyPosts
      ensures historyPosts == old(historyPosts) +
                (if SavesPosition(saveVideoHistory, loggedIn, liveNow)
                 then [HistoryPost(currentTime.Floor, duration.Floor)] else [])
    {
      SaveVideoPosition(currentTime);
    }
  }

  /** The ask policy end to end: a due update inside an `ask` segment arms
      the button without seeking, and its click lands on the segment end and
      hides the button. */
  method AskThenClick(p: Player, s: Segment)
    requires p.Valid() && p.sponsorblockEnabled && !p.seeking
    requires p.segments == [s] && Covers(s, p.currentTime) && 0.0 <= s.endTime <= p.duration
    requires PolicyFor(p.policies, s.category) == Ask
    modifies p
    ensures p.currentTime == s.endTime && !p.skipVisible
  {
    ghost var before := p.currentTime;
    p.UpdatePlaybackProgress(true);
    assert p.currentTime == before && p.skipVisible && p.skipTarget == Some(s.endTime);
    p.ClickSkipButton();
  }
}
