# ViewTube core, modelled in Dafny

This project models the core of ViewTube, a self-hosted front end and API for
browsing YouTube. It covers two parts.

The client side has two player generations:

- **The legacy player** (`videoPlayerSetup`, module `LegacyPlayer`, class `Player`) has:
  - the initial stream choice;
  - keyboard seeking and volume;
  - the overlay and double-tap gestures;
  - the progress update with its segment skip/ask decision;
  - position saving;
  - the hover-preview clamps and the chapter lookup.
- **The newer player** is split in two:
  - the playback-state orchestrator (`useVideoState`, module `Playback`, class `VideoState`). It covers adapter selection and re-instantiation, the control surface forwarded to the adapter, throttled position saving (a save runs only when more than 5000 ms have passed since the last one; calls in between are dropped) and the `t` deep link.
  - the interaction controller (`useUIState`, module `Interaction`, class `UiController`). It covers overlay visibility and its 3000 ms hide timer, pointer gestures, the double-click window, fullscreen, the visual-effect queue, captions, on-demand segment skip and the settings popup.
- **Shared by both players**, module `SegmentSkip`: the segment lookup and the per-category skip policy.

The server side and the store:

- **The subscriptions refresh job** (module `SubscriptionsJob`):
  - batches of 100 channel ids;
  - progress reporting;
  - feed collection and flattening.
- **The subscription service** (module `Subscriptions`):
  - the unique channel ids for the job;
  - the grouping of new videos into per-user notifications;
  - subscription status;
  - subscribing to one or many channels, and unsubscribing;
  - author enrichment of the feed.
- **The authentication service** (module `Auth`):
  - credential validation;
  - the login payload;
  - the two cookie strings, proved to read back attribute by attribute.
- **The instances store** (module `Instances`, class `InstancesStore`): the mutations, and `fetchInstances`. It parses the public instance list with the link pattern `\[(?<host>[^ \]]+)\]\((?<uri>[^)]+)\)(?! - offline)`. The pattern is modelled as a deterministic scanner. The model proves that the scanner finds exactly the non-overlapping, leftmost matches that `matchAll` returns.

How the model is built:

- Components that change state step by step are classes. Their fields are the component's refs and records. Each handler is a method with a field-level `modifies` frame and an `ensures` that gives the whole new state.
- Timers are pending flags or queues. Each has an explicit "...Fires" method for the moment the timer runs.
- Calls into code outside the core are parameters or logs. These are the media adapters, the network, the database, the clock and bcrypt:
  - `VideoState.calls` logs adapter operations;
  - `posts` logs history posts;
  - `fullscreenRequests` logs fullscreen requests;
  - the feed fetch and the password compare are function-typed oracles.
- Numbers that are JavaScript floating point in the source are `real` here.

Behaviours of the code that the model keeps as written:

- `triggerEffect` does not restart the clear timer of an already-visible effect. Each trigger queues its own clear, so the first one hides the effect early (`Interaction.RetriggerIsClearedEarly`).
- The new player instantiates its adapter only on mount. The code has no watcher on a change of source type.
- `runSubscriptionsJob` reports job progress unconditionally (see Findings).

## Model

| member | source | states |
|---|---|---|
| SegmentSkip.CurrentSegment | client/composables/videoplayer/uiState.ts:44-45 | the segment found covers the time, start inclusive and end exclusive; none is found exactly when no segment covers it; the result is the first covering segment in fetch order |
| SegmentSkip.CurrentSegmentIsFirst | client/components/videoplayer/helpers/index.ts:252-253 | any covering segment guarantees a result, and the result sits at or before it in fetch order |
| SegmentSkip.PolicyFor | client/components/videoplayer/helpers/index.ts:254-257 | the configured policy of the category, and `Ignore` when the category has no setting |
| SegmentSkip.ExampleLookups | client/composables/videoplayer/uiState.ts:44-51 | with ads 10-20 and sponsor 50-70: 15 s finds ads; 25 s and 70 s find nothing; 55 s finds sponsor |
| LegacyPlayer.FirstPreferred | client/components/videoplayer/helpers/index.ts:101-111 | the first '1080p' or '720p' stream; no earlier stream has either label; none exactly when no stream has one |
| LegacyPlayer.LastLabelled | client/components/videoplayer/helpers/index.ts:100-103 | the index of the last labelled stream among those examined, and 0 when none of them is labelled |
| LegacyPlayer.PickInitialQuality | client/components/videoplayer/helpers/index.ts:98-118 | the source is '#' without streams; else the preferred stream's url, else the first stream's url; the selected index is the last labelled stream the search examined, 0 when none, and 1 without streams |
| LegacyPlayer.ChapterForPercentage | client/components/videoplayer/helpers/index.ts:178-188 | the first chapter that strictly contains the percentage at both ends, or none exactly when no chapter does |
| LegacyPlayer.ClampOffset | client/components/videoplayer/helpers/index.ts:520-525 | raised to 10, then capped at the limit: never past the limit; the raw offset inside [10, limit]; 10 when the raw offset is below 10 and the limit allows it; exactly the limit when the raw offset exceeds it or the limit is below 10 |
| LegacyPlayer.HoverAdjustedCenter | client/components/videoplayer/helpers/index.ts:512-529 | 0 without an element; otherwise the centred raw offset clamped to [10, page width − element width − 17]: the raw offset inside the range, 10 below it, the right limit above it or when the limit is below 10 |
| LegacyPlayer.HoverAdjustedLeft | client/components/videoplayer/helpers/index.ts:531-548 | 0 without an element; otherwise the raw offset clamped to [10, page width − element width − 10]: the raw offset inside the range, 10 below it, the right limit above it or when the limit is below 10 |
| LegacyPlayer.ProgressUpdateDue | client/components/videoplayer/helpers/index.ts:243-244 | never due while seeking and always when forced; an unforced update is due only once the time has left the whole second recorded last |
| LegacyPlayer.SavesPosition | client/components/videoplayer/helpers/index.ts:633-634 | the legacy save gate (history on, logged in, not live) is the newer player's gate for a player that is never embedded |
| LegacyPlayer.NoUpdateBeforeNextSecond | client/components/videoplayer/helpers/index.ts:244-245 | after an update recorded the floored time, playing up to the next whole second makes no unforced update due |
| LegacyPlayer.VolumeFromElement | client/components/videoplayer/helpers/index.ts:307-317 | 0 when muted; 0.5 when both volumes are 0; the element volume otherwise |
| LegacyPlayer.Decide | client/components/videoplayer/helpers/index.ts:251-270 | disabled leaves everything; no covering segment hides the button; with a covering segment, skip seeks to its end, ask offers a skip to its end in its category, and an unset or other policy leaves; conversely a seek comes only from skip and an offer only from ask |
| LegacyPlayer.SponsorExample | client/components/videoplayer/helpers/index.ts:251-266 | at 55 s inside a `sponsor` segment 50-70, skip seeks to 70 and ask offers a skip to 70 |
| LegacyPlayer.Player.constructor | client/components/videoplayer/helpers/index.ts:98-118 | the initial source and quality index as PickInitialQuality chooses them; element time and duration 0, volume 1, not muted, paused; not playing, buffering before the first load, player volume 1, overlay and skip button hidden, thumbnail shown, nothing pending, no posts and no segments, and the settings it is given |
| LegacyPlayer.Player.OverlayShown | client/components/videoplayer/helpers/index.ts:157-159 | the overlay is shown whenever the video is not playing; while playing it follows the overlay record |
| LegacyPlayer.Player.OnSegmentsLoaded | client/components/videoplayer/helpers/index.ts:129-149 | the fetched segments are stored |
| LegacyPlayer.Player.PlayAnimation | client/components/videoplayer/helpers/index.ts:702-707 | the animation shows now and its 300 ms reset is queued behind the pending ones |
| LegacyPlayer.Player.AnimationTimerFires | client/components/videoplayer/helpers/index.ts:704-706 | the oldest pending reset hides its animation and leaves the queue |
| LegacyPlayer.Player.SetVideoTime | client/components/videoplayer/helpers/index.ts:709-717 | a negative target is ignored, a target up to the duration is taken, a later one becomes the duration |
| LegacyPlayer.Player.SeekForward | client/components/videoplayer/helpers/index.ts:679-685 | the time moves forward by the step but never past the duration, and the skip-forward animation plays |
| LegacyPlayer.Player.SeekBackward | client/components/videoplayer/helpers/index.ts:687-690 | the time moves back by the step but never below 0, and the skip-backward animation plays |
| LegacyPlayer.Player.IncreaseVolume | client/components/videoplayer/helpers/index.ts:692-695 | the volume rises by the step, capped at 1, and stays in 0..1; the volume-up animation plays |
| LegacyPlayer.Player.DecreaseVolume | client/components/videoplayer/helpers/index.ts:697-700 | the volume falls by the step, floored at 0, and stays in 0..1; the volume-down animation plays |
| LegacyPlayer.Player.ToggleVideoPlayback | client/components/videoplayer/helpers/index.ts:190-199 | ignored while seeking; otherwise hides the thumbnail and pauses exactly when playing |
| LegacyPlayer.Player.OnWindowKeyDown | client/components/videoplayer/helpers/index.ts:201-218 | space toggles playback unless seeking and touches nothing else; the right and left arrows seek by 5 s with their animation and keep volume and playback; the up and down arrows change the volume by 0.1 with their animation and keep time and playback; other keys change nothing; the default is prevented exactly for space and the up and down arrows |
| LegacyPlayer.Player.SetPlayerVolume | client/components/videoplayer/helpers/index.ts:161-176 | a changed volume unmutes, or mutes at 0, and is stored and applied to the element; an unchanged one touches nothing |
| LegacyPlayer.Player.OnVolumeChange | client/components/videoplayer/helpers/index.ts:307-317 | the element is read back into the player volume; a change runs the volume watcher onto the element, muted and the stored volume; an unchanged value leaves all three as they were |
| LegacyPlayer.Player.ApplySegmentDecision | client/components/videoplayer/helpers/index.ts:251-269 | seek: the time goes to the target; offer: the button shows with category and target; hide: the button hides; leave: nothing changes |
| LegacyPlayer.Player.CopyProgress | client/components/videoplayer/helpers/index.ts:246-249 | the progress records hold the element's time and duration, and the played percentage |
| LegacyPlayer.Player.RecordProgress | client/components/videoplayer/helpers/index.ts:245-286 | the progress records hold the time before the update; the segment decision for that time is carried out; the floored time is remembered |
| LegacyPlayer.Player.UpdatePlaybackProgress | client/components/videoplayer/helpers/index.ts:243-288 | nothing changes unless not seeking and either forced or more than 1 s from the last floored time; otherwise the progress is recorded and the segment decision applied |
| LegacyPlayer.Player.OnTimeUpdate | client/components/videoplayer/helpers/index.ts:290-292 | the element's new time runs an unforced progress update: when due, the progress records take the new time and duration, the whole second is recorded and the segment decision for that time is applied to the element time and the skip button; otherwise only the time changes |
| LegacyPlayer.Player.ClickSkipButton | client/components/videoplayer/helpers/index.ts:261-265 | the button hides and the time moves to the segment end, clamped as SetVideoTime clamps it |
| LegacyPlayer.Player.DoTouchAction | client/components/videoplayer/helpers/index.ts:91-96 | the touch flag is set and one more 100 ms reset is pending |
| LegacyPlayer.Player.TouchActionTimerFires | client/components/videoplayer/helpers/index.ts:93-95 | one reset runs: the flag clears and one fewer is pending |
| LegacyPlayer.Player.ShowPlayerOverlay | client/components/videoplayer/helpers/index.ts:490-500 | the overlay shows; a 3 s hide is pending exactly when a timeout was asked for |
| LegacyPlayer.Player.HidePlayerOverlay | client/components/videoplayer/helpers/index.ts:501-506 | the overlay hides and no hide is pending |
| LegacyPlayer.Player.OverlayTimerFires | client/components/videoplayer/helpers/index.ts:496-498 | the pending hide runs and the overlay hides |
| LegacyPlayer.Player.OnPlayerMouseMove | client/components/videoplayer/helpers/index.ts:470-472 | during a touch nothing changes; otherwise the overlay shows with a 3 s hide pending |
| LegacyPlayer.Player.OnPlayerTouchStart | client/components/videoplayer/helpers/index.ts:429-436 | the touch is flagged and the overlay toggles, with no hide pending |
| LegacyPlayer.Player.OnPlayerTouchEnd | client/components/videoplayer/helpers/index.ts:440-469 | a first tap arms the 500 ms window; a second tap disarms it and seeks 5 s back on the left half or 5 s forward on the right half, each with its skip animation shown and its reset queued; without a seek (first tap, no touch or the exact centre) the time and animations are unchanged |
| LegacyPlayer.Player.DoubleTouchTimerFires | client/components/videoplayer/helpers/index.ts:443-450 | the window closes; an active seek ends and its percentage is committed |
| LegacyPlayer.Player.SaveVideoPosition | client/components/videoplayer/helpers/index.ts:632-644 | one floored progress-and-length post exactly when history is on, the user is logged in and the video is not live |
| LegacyPlayer.Player.OnVideoPlaying | client/components/videoplayer/helpers/index.ts:319-329 | playing, thumbnail hidden, the 5 s save interval running |
| LegacyPlayer.Player.PositionSaveIntervalFires | client/components/videoplayer/helpers/index.ts:323-325 | a tick saves the current position |
| LegacyPlayer.Player.OnVideoPaused | client/components/videoplayer/helpers/index.ts:331-338 | not playing, the position saved once, the interval stopped |
| LegacyPlayer.Player.OnBufferingChange | client/components/videoplayer/helpers/index.ts:340-346 | the buffering flag follows the element |
| LegacyPlayer.Player.OnLoadedMetadata | client/components/videoplayer/helpers/index.ts:220-239 | the stored volume is applied and its watcher writes it to the element and sets muted exactly at 0 when it differs from the player volume; on the first load, unless live, it seeks to the initial time clamped to the duration (a negative time leaves the position unchanged) and plays when autoplay is set; later loads keep the position; buffering ends |
| LegacyPlayer.Player.Unmount | client/components/videoplayer/helpers/index.ts:741-744 | a last position save |
| LegacyPlayer.AskThenClick | client/components/videoplayer/helpers/index.ts:255-265 | a forced update inside an `ask` segment shows the button, and clicking it lands on the segment end with the button hidden |
| Playback.ThrottleCall | client/composables/videoplayer/videoState.ts:165 | a call runs the save exactly when none ran before or more than 5000 ms have passed since the last run, and then records the call time; otherwise the call is dropped and the throttle is unchanged (no trailing run) |
| Playback.RunsAreSpaced | client/composables/videoplayer/videoState.ts:165-174 | over any sequence of calls, consecutive saves are more than 5000 ms apart, and the first is more than 5000 ms after the previous save |
| Playback.RunsAreCalls | client/composables/videoplayer/videoState.ts:165-174 | every save happens at the time of some call, and there are no more saves than calls |
| Playback.DroppedCallIsNotReplayed | client/composables/videoplayer/videoState.ts:165-174 | updates at 10000 ms and 12000 ms save once, at 10000 ms; a third at 15001 ms saves again |
| Playback.AdapterFor | client/composables/videoplayer/videoState.ts:73-98 | DASH selects the RxPlayer adapter with the always-loop setting; HLS selects the HLS adapter; any other source selects none |
| Playback.DigitsValue | client/composables/videoplayer/videoState.ts:178-181 | the decimal value of a digit string, the last digit counted in units |
| Playback.DigitsValueLeadingZero | client/composables/videoplayer/videoState.ts:178-181 | a leading zero does not change the value |
| Playback.VideoState.constructor | client/composables/videoplayer/videoState.ts:41-65 | the initial playback record: not playing, time 0, no adapter, no calls or posts, the stored volume, an idle throttle |
| Playback.VideoState.InstantiateAdapter | client/composables/videoplayer/videoState.ts:67-99 | the old adapter is destroyed first, then the adapter of the source type is created with a new identity |
| Playback.VideoState.Forward | client/composables/videoplayer/videoState.ts:121 | an operation reaches the current adapter, and nothing happens without one |
| Playback.VideoState.SaveVideoPosition | client/composables/videoplayer/videoState.ts:150-163 | one post of time and duration exactly when history is on, not embedded, logged in and not live |
| Playback.VideoState.Play | client/composables/videoplayer/videoState.ts:121 | play is forwarded to the adapter |
| Playback.VideoState.Pause | client/composables/videoplayer/videoState.ts:122-125 | pause is forwarded, then the position is saved |
| Playback.VideoState.SetVolume | client/composables/videoplayer/videoState.ts:126-129 | the volume storage is written even without an adapter; the volume is forwarded |
| Playback.VideoState.SetMuted | client/composables/videoplayer/videoState.ts:130 | the element's muted flag is set |
| Playback.VideoState.SetPlaybackRate | client/composables/videoplayer/videoState.ts:131-132 | the rate is forwarded |
| Playback.VideoState.SetTime | client/composables/videoplayer/videoState.ts:133-137 | the seek is forwarded, then the position is saved |
| Playback.VideoState.SetLoop | client/composables/videoplayer/videoState.ts:138-141 | the element attribute and the player store both take the loop setting |
| Playback.VideoState.SetLanguage | client/composables/videoplayer/videoState.ts:142 | the language is forwarded |
| Playback.VideoState.SetVideoRepresentation | client/composables/videoplayer/videoState.ts:143-144 | the track and representation are forwarded |
| Playback.VideoState.SetAudioRepresentation | client/composables/videoplayer/videoState.ts:145-146 | the track and representation are forwarded |
| Playback.VideoState.SetAutoVideoQuality | client/composables/videoplayer/videoState.ts:147 | the request is forwarded |
| Playback.VideoState.SetAutoAudioQuality | client/composables/videoplayer/videoState.ts:148 | the request is forwarded |
| Playback.VideoState.Mount | client/composables/videoplayer/videoState.ts:101-119 | the adapter of the source type exists; the loop default is applied to the element and the store; the speed default is forwarded |
| Playback.VideoState.OnLoopAttributeChanged | client/composables/videoplayer/videoState.ts:107-116 | the element's external loop change is copied into the state and the store |
| Playback.VideoState.OnPlayingChanged | client/composables/videoplayer/videoState.ts:46-63 | the playing flag follows the adapter |
| Playback.VideoState.OnDurationChanged | client/composables/videoplayer/videoState.ts:46-63 | the duration follows the adapter |
| Playback.VideoState.OnCurrentTimeChanged | client/composables/videoplayer/videoState.ts:167-174 | an unchanged time does nothing; a changed one goes through the throttle, which saves only when it runs, and the store takes time and length |
| Playback.VideoState.OnRouteQuery | client/composables/videoplayer/videoState.ts:176-183 | an empty `t` does nothing; otherwise the player seeks to its numeric value and saves the position |
| Playback.VideoState.Unmount | client/composables/videoplayer/videoState.ts:185-187 | the adapter is destroyed and the ref is kept |
| Playback.Reinstantiate | client/composables/videoplayer/videoState.ts:67-99 | re-instantiation sends destroy to the old adapter and nothing else before the new one, whose identity differs |
| Interaction.Rank | client/composables/videoplayer/uiState.ts:66-92 | an effect's index in the declaration order |
| Interaction.ListVisible | client/composables/videoplayer/uiState.ts:107-122 | each listed entry is a visible effect of the order with its declared entry |
| Interaction.ListVisibleComplete | client/composables/videoplayer/uiState.ts:107-122 | every visible effect of the order is listed |
| Interaction.ListVisibleOrdered | client/composables/videoplayer/uiState.ts:107-122 | an order in declaration order gives a list in declaration order |
| Interaction.VisibleEffects | client/composables/videoplayer/uiState.ts:107-122 | exactly the visible effects, each with its declared position and once, in declaration order |
| Interaction.UiVisible | client/composables/videoplayer/uiState.ts:17-22 | shown while seeking or not playing; otherwise the shown flag |
| Interaction.CursorFor | client/composables/videoplayer/uiState.ts:177-179 | "none" exactly when the overlay is hidden, "default" otherwise |
| Interaction.UiController.constructor | client/composables/videoplayer/uiState.ts:148-195 | overlay shown, nothing pending, the poster visible, settings closed |
| Interaction.UiController.ShowUI | client/composables/videoplayer/uiState.ts:181-188 | shown, with exactly one hide timer pending |
| Interaction.UiController.HideUI | client/composables/videoplayer/uiState.ts:190-193 | hidden, with no hide timer |
| Interaction.UiController.HideTimerFires | client/composables/videoplayer/uiState.ts:184-186 | the hide runs 3000 ms after the last show |
| Interaction.UiController.SetSeeking | client/composables/videoplayer/uiState.ts:168-175 | ending a seek shows the UI again; starting one leaves that alone and keeps the UI visible |
| Interaction.UiController.OnPointerDown | client/composables/videoplayer/uiState.ts:195-207 | a touch is recorded; a touch on the video toggles the UI |
| Interaction.UiController.OnPointerMove | client/composables/videoplayer/uiState.ts:209-217 | the debounce restarts with this pointer type |
| Interaction.UiController.PointerMoveTimerFires | client/composables/videoplayer/uiState.ts:210-216 | a mouse move outside a touch shows the UI; any other move changes nothing |
| Interaction.UiController.OnPointerLeave | client/composables/videoplayer/uiState.ts:219-228 | the debounce is cancelled; a mouse leave outside a touch hides the UI; a mouse event clears the touch flag |
| Interaction.UiController.ToggleFullscreen | client/composables/videoplayer/uiState.ts:54-61 | exit is requested in fullscreen, entry otherwise, and entry only while the player UI exists |
| Interaction.UiController.UpdateFullscreen | client/composables/videoplayer/uiState.ts:62-64 | the fullscreen flag follows the document |
| Interaction.UiController.OnPointerUp | client/composables/videoplayer/uiState.ts:230-253 | only a mouse release on the video counts: outside the double-click window it arms the window, inside it disarms the window and toggles fullscreen; a left-button release also pauses when playing and plays otherwise |
| Interaction.UiController.DoubleClickTimerFires | client/composables/videoplayer/uiState.ts:235-238 | the window closes |
| Interaction.UiController.TriggerEffect | client/composables/videoplayer/uiState.ts:93-99 | the effect becomes visible and listed, and its own clear is queued |
| Interaction.UiController.EffectTimerFires | client/composables/videoplayer/uiState.ts:96-98 | the oldest clear hides its effect even if the effect was triggered again, and every effect still shown keeps a pending clear |
| Interaction.UiController.ToggleCaptions | client/composables/videoplayer/uiState.ts:24-36 | with tracks available, a selected track is cleared or else the first track is selected, and the captions effect is triggered either way; without tracks nothing changes |
| Interaction.UiController.SkipCurrentSponsorBlockSegment | client/composables/videoplayer/uiState.ts:41-52 | seeks to the segment end and saves exactly when skipping is on, a segment plays and its policy is not none |
| Interaction.UiController.OpenSettings | client/composables/videoplayer/uiState.ts:150-155 | popup open and the Escape listener installed |
| Interaction.UiController.OnCloseSettings | client/composables/videoplayer/uiState.ts:156-162 | Escape with the listener closes both and removes it; anything else changes nothing |
| Interaction.UiController.CloseSettings | client/composables/videoplayer/uiState.ts:163-166 | both flags cleared; the listener stays |
| Interaction.UiController.HidePoster | client/composables/videoplayer/uiState.ts:124-128 | the poster hides |
| Interaction.SkipsOnDemand | client/composables/videoplayer/uiState.ts:41-51 | the on-demand skip happens exactly when skipping is on and the first segment covering the time has a policy other than none |
| Interaction.AskAlsoSkipsOnDemand | client/composables/videoplayer/uiState.ts:47-51 | an `ask` segment is skipped on demand too |
| Interaction.ThreeRapidClicks | client/composables/videoplayer/uiState.ts:232-253 | three quick left clicks request fullscreen once and leave the window armed |
| Interaction.RetriggerIsClearedEarly | client/composables/videoplayer/uiState.ts:93-99 | after two triggers the first clear hides the effect while the second is still pending |
| SubscriptionsJob.FeedsOf | server/user/subscriptions/subscriptions-job.helper.ts:25-34 | at most one feed per id |
| SubscriptionsJob.FeedsOfExactly | server/user/subscriptions/subscriptions-job.helper.ts:26-31 | a feed is collected exactly when the fetch of some id returned it |
| SubscriptionsJob.Channels | server/user/subscriptions/subscriptions-job.helper.ts:29 | one channel per collected feed |
| SubscriptionsJob.VideoLists | server/user/subscriptions/subscriptions-job.helper.ts:30 | one video list per collected feed |
| SubscriptionsJob.CollectedAt | server/user/subscriptions/subscriptions-job.helper.ts:28-30 | entry i of both arrays comes from feed i, so channel and videos stay paired |
| SubscriptionsJob.SplitIntoBatches | server/user/subscriptions/subscriptions-job.helper.ts:36-41 | the batches concatenate back to the ids; each holds 1 to 100; all but the last hold 100; there are ceil(n/100) of them |
| SubscriptionsJob.BatchCount | server/user/subscriptions/subscriptions-job.helper.ts:39-41 | full batches and a last partial one number ceil(n/100) |
| SubscriptionsJob.JobProgress | server/user/subscriptions/subscriptions-job.helper.ts:50 | the progress before a batch is in 0..99 |
| SubscriptionsJob.ProgressMonotone | server/user/subscriptions/subscriptions-job.helper.ts:50-52 | reported progress never decreases |
| SubscriptionsJob.FetchStep | server/user/subscriptions/subscriptions-job.helper.ts:26-31 | one more id adds its channel and videos exactly when its feed exists |
| SubscriptionsJob.FetchBatch | server/user/subscriptions/subscriptions-job.helper.ts:53-57 | after a batch, the arrays are those of all ids fetched so far |
| SubscriptionsJob.FlattenVideos | server/user/subscriptions/subscriptions-job.helper.ts:63-68 | the concatenation of the lists, empty when there are none |
| SubscriptionsJob.ReportNext | server/user/subscriptions/subscriptions-job.helper.ts:50-52 | the next report keeps the reports in step with the batches |
| SubscriptionsJob.RunSubscriptionsJob | server/user/subscriptions/subscriptions-job.helper.ts:13-69 | with a job: every existing feed's channel and videos in id order, and one progress report per batch; without one: empty results and no reports |
| SubscriptionsJob.RunSubscriptionsJobCorrected | server/user/subscriptions/subscriptions-job.helper.ts:13-69 | every existing feed's channel and videos in id order; progress reported per batch only when a job is given |
| SubscriptionsJob.DefaultJobDropsFeeds | server/user/subscriptions/subscriptions.service.ts:43 | a one-id call without a job returns no channel, while the corrected job returns that feed's channel |
| Subscriptions.FindSubscription | server/user/subscriptions/subscriptions.service.ts:230 | the subscription found has the id; none exactly when no subscription has it; the one found is the first with that id |
| Subscriptions.ChannelIdsOf | server/user/subscriptions/subscriptions.service.ts:38-41 | the channel id of each subscription, in order |
| Subscriptions.CollectChannelIds | server/user/subscriptions/subscriptions.service.ts:38-41 | the reduce with spread is the concatenation, user by user, of each user's channel ids in order |
| Subscriptions.CollectChannelIdsMembers | server/user/subscriptions/subscriptions.service.ts:38-41 | an id is collected exactly when some user subscribes to it |
| Subscriptions.Dedup | server/user/subscriptions/subscriptions.service.ts:42 | distinct values, the same members, no longer than the input |
| Subscriptions.DedupKeepsFirstOccurrenceOrder | server/user/subscriptions/subscriptions.service.ts:42 | the deduplicated ids appear in the order of their first occurrence in the input, the insertion order of the `Set` |
| Subscriptions.UniqueChannelIds | server/user/subscriptions/subscriptions.service.ts:38-43 | every subscribed channel exactly once |
| Subscriptions.EntryIndex | server/user/subscriptions/subscriptions.service.ts:108-110 | the first entry with the username, or none exactly when no entry has it |
| Subscriptions.Enqueue | server/user/subscriptions/subscriptions.service.ts:108-115 | at most one entry per username is kept |
| Subscriptions.ForVideo | server/user/subscriptions/subscriptions.service.ts:98-117 | at most one entry per username is kept |
| Subscriptions.Queued | server/user/subscriptions/subscriptions.service.ts:99-108 | a user is notified of a video exactly when their first subscription to its channel has a `createdAt` earlier than its publication |
| Subscriptions.Grouped | server/user/subscriptions/subscriptions.service.ts:97-119 | at most one entry per username |
| Subscriptions.SendUserNotifications | server/user/subscriptions/subscriptions.service.ts:94-121 | the queue built is the grouping, one entry per username |
| Subscriptions.EnqueueVideosFor | server/user/subscriptions/subscriptions.service.ts:108-115 | queuing adds the video to that user's list only |
| Subscriptions.ForVideoVideosFor | server/user/subscriptions/subscriptions.service.ts:98-117 | a video is added for a username exactly when that user is queued for it |
| Subscriptions.GroupedVideosFor | server/user/subscriptions/subscriptions.service.ts:97-119 | a username's notification lists exactly the videos published after that user subscribed, in video order |
| Subscriptions.GetSubscription | server/user/subscriptions/subscriptions.service.ts:227-242 | subscribed exactly when the user exists and the list holds the id |
| Subscriptions.SubscribeToChannel | server/user/subscriptions/subscriptions.service.ts:338-377 | no feed fails; a missing saved channel fails; otherwise the saved channel's id is subscribed, appended with the time only when absent, a duplicate-free list stays duplicate-free, and the status reports the requested id |
| Subscriptions.SubscribeIdempotent | server/user/subscriptions/subscriptions.service.ts:353-362 | subscribing again leaves the list as it was |
| Subscriptions.UnsubscribeFromChannel | server/user/subscriptions/subscriptions.service.ts:379-402 | not found exactly when the user or the subscription is missing; otherwise exactly that channel goes and the rest stay in order |
| Subscriptions.SubscribeThenUnsubscribe | server/user/subscriptions/subscriptions.service.ts:338-402 | unsubscribing the id just subscribed removes it |
| Subscriptions.PartitionExisting | server/user/subscriptions/subscriptions.service.ts:258-266 | the loop computes `Partition`; the ids to fetch are exactly the ids not yet subscribed, in order; every subscribed id is reported existing, and only subscribed ids are |
| Subscriptions.PartitionFetches | server/user/subscriptions/subscriptions.service.ts:260-266 | the `filter` keeps exactly the ids with no subscription, in their order |
| Subscriptions.PartitionReportsExisting | server/user/subscriptions/subscriptions.service.ts:261-263 | every id that already has a subscription is pushed to `existing` with `isSubscribed` true, and every `existing` entry names a subscribed channel |
| Subscriptions.FetchAndSubscribe | server/user/subscriptions/subscriptions.service.ts:267-307 | the loop computes `FetchAll`, the fan-out id by id; the list keeps its prefix and a duplicate-free list stays so; a missing feed or a failed video save is reported failed, and every failure had one of the two; every channel saved from a fetched feed ends up subscribed and reported successful or existing, even when its video save failed; the appended entries are exactly the successful channels, in order, each created `now` and each saved from a fetched feed |
| Subscriptions.FetchOne | server/user/subscriptions/subscriptions.service.ts:267-308 | the callback for one id is one step of `FetchAll`: no feed gives a failure; a failed video save gives a failure; a saved channel is then appended as successful when not yet subscribed and reported existing otherwise |
| Subscriptions.FetchAllKeepsInitial | server/user/subscriptions/subscriptions.service.ts:285-289 | the fan-out only appends: the initial subscriptions stay a prefix, and a duplicate-free list stays duplicate-free |
| Subscriptions.FetchAllAppends | server/user/subscriptions/subscriptions.service.ts:285-294 | the subscriptions appended are exactly the successful statuses, in the same order, each with `createdAt` now and each for a channel saved from the feed of a fetched id |
| Subscriptions.FetchAllFailed | server/user/subscriptions/subscriptions.service.ts:268-307 | every failed status is unsubscribed and names a fetched id whose feed was missing or whose video save failed; every fetched id with one of the two is reported failed |
| Subscriptions.FetchAllSubscribed | server/user/subscriptions/subscriptions.service.ts:284-300 | every successful or existing status names a subscribed channel, and every channel saved from a fetched feed is reported successful or existing |
| Subscriptions.JoinExisting | server/user/subscriptions/subscriptions.service.ts:260-300 | the `existing` array that both the `filter` and the callbacks push to holds only subscribed channels, and keeps every status the callbacks reported |
| Subscriptions.AppendSubscription | server/user/subscriptions/subscriptions.service.ts:285-294 | for a channel not yet subscribed, the subscription with `createdAt` now and its successful status are appended; a duplicate-free list stays so; the channel is subscribed afterwards and every earlier subscription is kept |
| Subscriptions.SubscribeToMultipleChannels | server/user/subscriptions/subscriptions.service.ts:244-318 | ids already subscribed are reported existing and not fetched; for the fetched ids, failed, successful and existing are as for the per-id fetch; the user's list keeps its prefix, gains exactly the successful channels in order with `createdAt` now, and is subscribed to every success and existing id; all four reports and the new list are exactly the filter's existing statuses followed by those of the per-id fetch over the fetched ids |
| Subscriptions.EnrichVideo | server/user/subscriptions/subscriptions.service.ts:205-220 | the first channel with the author id supplies the thumbnail url, else the thumbnails, and the verified flag; without one the video is unchanged |
| Subscriptions.EnrichFeed | server/user/subscriptions/subscriptions.service.ts:205-220 | every video of the array is enriched in place |
| Subscriptions.EnrichIdempotent | server/user/subscriptions/subscriptions.service.ts:205-220 | enriching twice is enriching once |
| Auth.Login | server/auth/auth.service.ts:53-57 | the point of the contract is the payload's shape: the token is `sign` applied to a payload holding only the username |
| Auth.SplitJoin | server/auth/auth.service.ts:32-51 | splitting a `"; "`-joined list yields the first attribute, then each other attribute behind one space |
| Auth.ParseJoin | server/auth/auth.service.ts:32-51 | reading back a joined list gives the list |
| Auth.DeletionCookie | server/auth/auth.service.ts:32-39 | `getDeletionCookie`: the cookie is its attribute list (empty token, `HttpOnly`, `Secure`, `Path=/`, the domain in production, `Max-Age=0`) joined with `"; "` |
| Auth.JwtCookie | server/auth/auth.service.ts:41-51 | `getJwtCookie`: the cookie is its attribute list (the token signed for the username, `HttpOnly`, `Path=/`, `Secure` and the domain in production, the configured `Max-Age`) joined with `"; "` |
| Auth.DeletionCookieAttributes | server/auth/auth.service.ts:32-39 | the deletion cookie reads back as `Authentication=`, `HttpOnly=true`, `Secure=true`, `Path=/`, the domain in production only, then `Max-Age=0` |
| Auth.JwtCookieAttributes | server/auth/auth.service.ts:41-51 | the JWT cookie reads back as `Authentication=` with the login token, `HttpOnly=true`, `Path=/`, `Secure=true` and the domain in production only, then `Max-Age=` with the configured expiration |
| Auth.ProductionOnlyAttributes | server/auth/auth.service.ts:32-51 | a Domain attribute appears exactly in production; the JWT cookie is Secure exactly in production; the deletion cookie is always Secure |
| Auth.ValidateUser | server/auth/auth.service.ts:15-30 | a result exactly when the user exists and the compare resolves true; the result is the user without the password field and otherwise unchanged |
| Instances.BeforeBlocked | store/instances.js:30 | a prefix of the text that ends at the first `### Blocked:`, or the whole text when there is none |
| Instances.HostRunMaximal | store/instances.js:31 | the host run takes every host character and stops at the first non-host character |
| Instances.UriRunMaximal | store/instances.js:31 | the uri run takes every character up to the first `)` |
| Instances.MatchAt | store/instances.js:31 | a match at `i` spans the brackets, the host, the uri and the parentheses |
| Instances.MatchAtSound | store/instances.js:31 | what is matched at `i` is a link written there with qualifying groups and no ` - offline` after it |
| Instances.MatchAtComplete | store/instances.js:31 | a link written at `i` is exactly what is matched there |
| Instances.MatchAll | store/instances.js:32 | the matches lie in the text, in order, without overlapping |
| Instances.MatchAllFound | store/instances.js:32 | each match found is the match at its start |
| Instances.GapBefore | store/instances.js:32 | no match starts before the first one found |
| Instances.GapBetween | store/instances.js:32 | no match starts between two consecutive ones found |
| Instances.GapAfter | store/instances.js:32 | no match starts after the last one found |
| Instances.MatchAllSound | store/instances.js:31-32 | every match is a link in the text, and every link in the text is a match or lies inside one |
| Instances.Covered | store/instances.js:32 | a position where a match is possible is a match start or inside a match |
| Instances.StripSlash | store/instances.js:35-39 | one trailing slash removed when present, the uri otherwise |
| Instances.Uris | store/instances.js:33-34 | the uri group of each match |
| Instances.KeptInstances | store/instances.js:33-41 | no more instances than uris |
| Instances.KeptInstancesFilter | store/instances.js:33-41 | the uris without `.onion` or `.i2p`, in order, each with a trailing slash removed |
| Instances.Kept | store/instances.js:34 | a uri is kept exactly when `.onion` and `.i2p` occur at no position of it |
| Instances.PageUris | store/instances.js:30-32 | every uri taken from the page is the uri of a link written in the text before `### Blocked:` |
| Instances.InstanceList | store/instances.js:30-41 | the list built from a page is its uris without `.onion` or `.i2p`, in order, each with one trailing slash removed, and no entry is a hidden service |
| Instances.StripSlashKept | store/instances.js:34-39 | removing the slash keeps a uri clear of `.onion` and `.i2p` |
| Instances.NoHiddenServices | store/instances.js:34 | no added instance holds `.onion` or `.i2p` |
| Instances.OneSlashOnly | store/instances.js:35-36 | only one trailing slash is removed |
| Instances.InstancesStore.constructor | store/instances.js:1-4 | no current instance and no instances |
| Instances.InstancesStore.ChangeInstance | store/instances.js:14-16 | the current instance is set |
| Instances.InstancesStore.AddInstance | store/instances.js:17-19 | the instance is appended |
| Instances.InstancesStore.ClearInstances | store/instances.js:20-22 | the list is emptied |
| Instances.InstancesStore.FetchInstances | store/instances.js:25-46 | the list is cleared and becomes the kept instances of the page; an unset current instance takes the first match's uri, and fails when there is no match; a set one is kept |

## Left out

- The network, the database, the media adapters, bcrypt and the clock are not modelled. They are parameters, oracles or logs, as described above.
- Promises and concurrency are not modelled. `Promise.allSettled` over a batch and the parallel fetches of `subscribeToMultipleChannels` run in id order here. The order of entries within a batch, or of parallel results, may differ in the source.
- Floating point is not modelled: numbers are `real`. Rounding in `Math.floor((i / n) * 100)` and in percentages is exact here.
- LegacyPlayer.Player.CopyProgress: the played percentage is 0 while the duration is 0, where the source computes NaN or Infinity.
- Playback.VideoState.OnRouteQuery: `Number(t)` is modelled only for strings of decimal digits. Other strings (signs, decimals, `NaN`) are outside the model.
- Playback.ThrottleCall: VueUse's `useThrottleFn` is not part of this model. It is modelled with its default options as called at videoState.ts:165 (leading run, no trailing run); its returned promise and `rejectOnCancel` are left out.
- Playback.VideoState.SetTime: the adapter's own effect on `currentTime` after a seek is not modelled. That change arrives later through OnCurrentTimeChanged.
- Media-session metadata and position state are left out, as are `onLoadingProgress` and the aspect ratio, because they only feed the browser's display.
- Document listeners are left out of the mounts and unmounts.
- The key bindings of the newer player (`useKeydownActions`) are not part of this model.
- Chapter parsing from the description is not part of this model, nor is the SponsorBlock segment service (fetch, cache). `getCurrentSegment` (of the SponsorBlock state composable) is outside this model, so the model assumes it returns the first segment, in fetch order, whose start is at or before the time and whose end is after it (start ≤ t < end), and none when no segment covers the time (SegmentSkip.CurrentSegment).
- SegmentSkip.PolicyFor: `getSegmentState` of the newer player is not part of this model. The model assumes that an unset category reads as `none`, so Interaction.SkipsOnDemand and Interaction.UiController.SkipCurrentSponsorBlockSegment do not skip it. If `getSegmentState` returns another value for an unset category, the source skips where the model does not.
- Vue watchers run after the next tick in the source. The model runs each watcher inside the handler that changed its source (for example the `playerVolume` watcher in LegacyPlayer.Player.SetPlayerVolume, OnVolumeChange and OnLoadedMetadata), so no other handler can run in between.
- LegacyPlayer.Player.OnPlayerMouseMove: the seek-drag branch (`calculateSeekPercentage`, `matchSeekProgressPercentage`) is reduced to the committed seek percentages of DoubleTouchTimerFires. It depends on page geometry outside the core.
- Interaction.UiController.ToggleCaptions: the caption tracks are reduced to their language codes and the selected code.
- Subscriptions.SendUserNotifications: the send itself (`sendMultipleNotifications`) is left out. The job's database writes (`bulkWrite` and `findOneAndUpdate`) are left out too.
- Subscriptions.SubscribeToMultipleChannels: the `try/catch` around each channel is modelled only through the video-save oracle. A throwing feed parse is treated as a missing feed.
- Auth.DeletionCookieAttributes, Auth.JwtCookieAttributes: the read-back holds when no interpolated value contains `;`. A value that does breaks the attribute boundaries in the source too.
- Instances.InstancesStore.FetchInstances: the HTTP request is a parameter, so the gap between the clear and the response callback is not modelled. A rejected request is `None` and leaves the list cleared. The `TypeError` of `matches[0][2]` on a page without links is the `failed` result. The regular expression is modelled as a deterministic scanner, which is faithful because `[^)]+` cannot give back characters to satisfy the lookahead.
- Playback.VideoState.SaveVideoPosition: the posted values are not floored in the newer player, as in its source.

## Findings

| source | as written | input that shows it | evidently intended | confidence | as-written member | corrected member |
|---|---|---|---|---|---|---|
| server/user/subscriptions/subscriptions-job.helper.ts:15 | the parameter `job` defaults to `null`, and `job.progress(...)` at line 51 throws before the first batch is fetched; the `.catch` at line 59 swallows the error, so the job returns empty arrays | `runSubscriptionsJob(['UC1'])` as called at subscriptions.service.ts:43, without a job, when the feed of `UC1` exists | the feeds are fetched and progress reporting is skipped without a job | not executed | SubscriptionsJob.RunSubscriptionsJob | SubscriptionsJob.RunSubscriptionsJobCorrected |
