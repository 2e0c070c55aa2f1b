/** The subscriptions refresh job (`runSubscriptionsJob`): the channel ids
    are split into batches of 100, each batch's feeds are fetched after the
    job's progress is reported, and the channel and video results are
    collected and flattened. The feed fetch (`getChannelFeed`, network and
    XML) is the oracle `feedOf`; the batch's fan-out runs in id order. */
module SubscriptionsJob {
  import opened Wrappers
  import opened Seqs

  /** The batch size of `uniqueChannelIds.splice(0, 100)`. */
  const BatchSize: nat := 100

  /** `ChannelBasicInfoDto`: the fields the feed parser sets. */
  datatype Channel = Channel(authorId: string, author: string, authorUrl: string,
                             authorThumbnailUrl: Option<string>)
  /** A feed video, with the fields the subscription logic reads. */
  datatype FeedVideo = FeedVideo(videoId: string, title: string, authorId: string, published: int)
  /** A parsed channel feed. */
  datatype ChannelFeed = ChannelFeed(channel: Channel, videos: seq<FeedVideo>)
  /** `{channelResultArray, videoResultArray}` */
  datatype JobResult = JobResult(channels: seq<Channel>, videos: seq<FeedVideo>)

  /** The feeds that exist, in id order. */
  function FeedsOf(ids: seq<string>, feedOf: string -> Option<ChannelFeed>): (r: seq<ChannelFeed>)
    ensures |r| <= |ids|
  {
    if |ids| == 0 then []
    else FeedsOf(ids[..|ids| - 1], feedOf) +
         (if feedOf(ids[|ids| - 1]).Some? then [feedOf(ids[|ids| - 1]).value] else [])
  }

  lemma FeedsOfAppend(ids: seq<string>, id: string, feedOf: string -> Option<ChannelFeed>)
    ensures FeedsOf(ids + [id], feedOf) ==
              FeedsOf(ids, feedOf) + (if feedOf(id).Some? then [feedOf(id).value] else [])
  {
    assert (ids + [id])[..|ids|] == ids;
  }

  /** A feed is collected for every id whose fetch returned one, and only those. */
  lemma {:induction false} FeedsOfExactly(ids: seq<string>, feedOf: string -> Option<ChannelFeed>, f: ChannelFeed)
    ensures f in FeedsOf(ids, feedOf) <==> exists id :: id in ids && feedOf(id) == Some(f)
    decreases |ids|
  {
    if |ids| > 0 {
      var init := ids[..|ids| - 1];
      FeedsOfExactly(init, feedOf, f);
      assert ids == init + [ids[|ids| - 1]];
      if exists id :: id in ids && feedOf(id) == Some(f) {
        var id :| id in ids && feedOf(id) == Some(f);
        if id != ids[|ids| - 1] {
          assert id in init;
        }
      }
    }
  }

  /** `channelResultArray`: the channel of each feed. */
  function Channels(feeds: seq<ChannelFeed>): (r: seq<Channel>)
    ensures |r| == |feeds|
  {
    if |feeds| == 0 then [] else Channels(feeds[..|feeds| - 1]) + [feeds[|feeds| - 1].channel]
  }

  /** `videoRawResultArray`: the video list of each feed. */
  function VideoLists(feeds: seq<ChannelFeed>): (r: seq<seq<FeedVideo>>)
    ensures |r| == |feeds|
  {
    if |feeds| == 0 then [] else VideoLists(feeds[..|feeds| - 1]) + [feeds[|feeds| - 1].videos]
  }

  /** Entry `i` of each list comes from feed `i`. */
  lemma {:induction false} CollectedAt(feeds: seq<ChannelFeed>, i: nat)
    requires i < |feeds|
    ensures Channels(feeds)[i] == feeds[i].channel && VideoLists(feeds)[i] == feeds[i].videos
    decreases |feeds|
  {
    if i < |feeds| - 1 {
      CollectedAt(feeds[..|feeds| - 1], i);
    }
  }

  lemma ChannelsAppend(feeds: seq<ChannelFeed>, f: ChannelFeed)
    ensures Channels(feeds + [f]) == Channels(feeds) + [f.channel]
    ensures VideoLists(feeds + [f]) == VideoLists(feeds) + [f.videos]
  {
    assert (feeds + [f])[..|feeds|] == feeds;
  }

  /** Every batch holds 1 to 100 ids. */
  predicate Sized(batches: seq<seq<string>>) {
    forall i :: 0 <= i < |batches| ==> 0 < |batches[i]| <= BatchSize
  }

  /** The first `m` batches hold exactly 100 ids. */
  predicate FullBefore(batches: seq<seq<string>>, m: int) {
    forall i :: 0 <= i < m && i < |batches| ==> |batches[i]| == BatchSize
  }

  lemma SizedAppend(batches: seq<seq<string>>, b: seq<string>)
    requires Sized(batches) && 0 < |b| <= BatchSize
    ensures Sized(batches + [b])
  {
  }

  lemma FullAppend(batches: seq<seq<string>>, b: seq<string>)
    requires FullBefore(batches, |batches|)
    ensures FullBefore(batches + [b], |batches|)
    ensures |b| == BatchSize ==> FullBefore(batches + [b], |batches| + 1)
  {
  }

  /** The batching loop: take the first 100 ids of a fresh copy until none
      are left. The batches concatenate back to the ids; each holds 1 to
      100 ids, all but the last exactly 100, and there are ceil(n/100). */
  method SplitIntoBatches(ids: seq<string>) returns (batches: seq<seq<string>>)
    ensures Flatten(batches) == ids
    ensures Sized(batches)
    ensures FullBefore(batches, |batches| - 1)
    ensures |batches| == (|ids| + BatchSize - 1) / BatchSize
  {
    var rest := ids;
    batches := [];
    while |rest| > 0
      invariant Flatten(batches) + rest == ids
      invariant Sized(batches)
      invariant FullBefore(batches, if |rest| > 0 then |batches| else |batches| - 1)
      invariant |rest| > 0 ==> |ids| - |rest| == BatchSize * |batches|
      invariant |rest| == 0 && |batches| > 0 ==> |ids| == BatchSize * (|batches| - 1) + |batches[|batches| - 1]|
      invariant |ids| == 0 ==> batches == []
      decreases |rest|
    {
      var take := if |rest| < BatchSize then |rest| else BatchSize;
      FlattenAppend(batches, rest[..take]);
      SizedAppend(batches, rest[..take]);
      FullAppend(batches, rest[..take]);
      assert rest[..take] + rest[take..] == rest;
      batches := batches + [rest[..take]];
      rest := rest[take..];
    }
    if |batches| > 0 {
      BatchCount(|ids|, |batches|, |batches[|batches| - 1]|);
    }
  }

  /** `k` batches of 100 but the last, which holds 1 to 100, are ceil(n/100). */
  lemma BatchCount(n: nat, k: nat, last: nat)
    requires k > 0 && 0 < last <= BatchSize && n == BatchSize * (k - 1) + last
    ensures (n + BatchSize - 1) / BatchSize == k
  {
    assert n + BatchSize - 1 == BatchSize * k + (last - 1);
  }

  /** `Math.floor((i / batches) * 100)`, the progress before batch `i`. */
  function JobProgress(i: nat, batches: nat): (p: int)
    requires i < batches
    ensures 0 <= p < 100
  {
    assert i * 100 < batches * 100;
    (i * 100) / batches
  }

  lemma {:induction false} MulAtLeast(n: nat, k: nat)
    requires k >= 1
    ensures n * k >= n
    decreases k
  {
    if k > 1 {
      MulAtLeast(n, k - 1);
      assert n * k == n * (k - 1) + n;
    }
  }

  lemma DivMonotone(a: nat, b: nat, n: nat)
    requires a <= b && n > 0
    ensures a / n <= b / n
  {
    var q1, q2 := a / n, b / n;
    if q1 > q2 {
      MulAtLeast(n, q1 - q2);
    }
  }

  /** The reported progress never decreases. */
  lemma ProgressMonotone(i: nat, j: nat, batches: nat)
    requires i <= j < batches
    ensures JobProgress(i, batches) <= JobProgress(j, batches)
  {
    DivMonotone(i * 100, j * 100, batches);
  }

  /** Fetching one more id adds its channel and videos exactly when its feed exists. */
  lemma FetchStep(ids: seq<string>, id: string, feedOf: string -> Option<ChannelFeed>)
    ensures feedOf(id).None? ==> Channels(FeedsOf(ids + [id], feedOf)) == Channels(FeedsOf(ids, feedOf)) &&
                                 VideoLists(FeedsOf(ids + [id], feedOf)) == VideoLists(FeedsOf(ids, feedOf))
    ensures feedOf(id).Some? ==>
              Channels(FeedsOf(ids + [id], feedOf)) == Channels(FeedsOf(ids, feedOf)) + [feedOf(id).value.channel] &&
              VideoLists(FeedsOf(ids + [id], feedOf)) == VideoLists(FeedsOf(ids, feedOf)) + [feedOf(id).value.videos]
  {
    FeedsOfAppend(ids, id, feedOf);
    if feedOf(id).Some? {
      ChannelsAppend(FeedsOf(ids, feedOf), feedOf(id).value);
    } else {
      assert FeedsOf(ids, feedOf) + [] == FeedsOf(ids, feedOf);
    }
  }

  /** `getFeedPromise` over one batch: push channel and videos together for
      every id whose feed exists. */
  method FetchBatch(batch: seq<string>, feedOf: string -> Option<ChannelFeed>,
                    ghost done: seq<string>, channels: seq<Channel>, rawVideos: seq<seq<FeedVideo>>)
    returns (channels': seq<Channel>, rawVideos': seq<seq<FeedVideo>>)
    requires channels == Channels(FeedsOf(done, feedOf)) && rawVideos == VideoLists(FeedsOf(done, feedOf))
    ensures channels' == Channels(FeedsOf(done + batch, feedOf))
    ensures rawVideos' == VideoLists(FeedsOf(done + batch, feedOf))
  {
    channels', rawVideos' := channels, rawVideos;
    var j := 0;
    assert done + batch[..0] == done;
    while j < |batch|
      invariant j <= |batch|
      invariant channels' == Channels(FeedsOf(done + batch[..j], feedOf))
      invariant rawVideos' == VideoLists(FeedsOf(done + batch[..j], feedOf))
    {
      FetchStep(done + batch[..j], batch[j], feedOf);
      assert done + batch[..j + 1] == done + batch[..j] + [batch[j]];
      var feed := feedOf(batch[j]);
      if feed.Some? {
        channels' := channels' + [feed.value.channel];
        rawVideos' := rawVideos' + [feed.value.videos];
      }
      j := j + 1;
    }
    assert batch[..|batch|] == batch;
  }

  /** The final flattening: only run when something was collected. */
  function FlattenVideos(rawVideos: seq<seq<FeedVideo>>): (r: seq<FeedVideo>)
    ensures |rawVideos| == 0 ==> r == []
    ensures r == Flatten(rawVideos)
  {
    if |rawVideos| > 0 then Flatten(rawVideos) else []
  }

  /** The progress values reported for the first `|progress|` of `n` batches. */
  predicate ReportedFor(progress: seq<int>, n: nat) {
    |progress| <= n && forall k :: 0 <= k < |progress| ==> progress[k] == JobProgress(k, n)
  }

  /** Reporting the next batch keeps the reports in step. */
  lemma ReportNext(progress: seq<int>, n: nat)
    requires ReportedFor(progress, n) && |progress| < n
    ensures ReportedFor(progress + [JobProgress(|progress|, n)], n)
  {
  }

  /** `runSubscriptionsJob` as written: the progress call on a missing job
      (`job = null`) throws before the first batch is fetched, the chain's
      catch swallows it, and the result is empty. With a job, every id's
      feed is collected in order. */
  method RunSubscriptionsJob(ids: seq<string>, feedOf: string -> Option<ChannelFeed>, hasJob: bool)
    returns (result: JobResult, progress: seq<int>)
    ensures hasJob ==> result == JobResult(Channels(FeedsOf(ids, feedOf)), Flatten(VideoLists(FeedsOf(ids, feedOf))))
    ensures hasJob ==> |progress| == (|ids| + BatchSize - 1) / BatchSize &&
                       forall i :: 0 <= i < |progress| ==> progress[i] == JobProgress(i, |progress|)
    ensures !hasJob ==> result == JobResult([], []) && progress == []
  {
    var batches := SplitIntoBatches(ids);
    var channels: seq<Channel> := [];
    var rawVideos: seq<seq<FeedVideo>> := [];
    progress := [];
    var i := 0;
    ghost var done: seq<string> := [];
    while i < |batches|
      invariant i <= |batches| && |progress| == i
      invariant ReportedFor(progress, |batches|)
      invariant done == Flatten(batches[..i])
      invariant channels == Channels(FeedsOf(done, feedOf))
      invariant rawVideos == VideoLists(FeedsOf(done, feedOf))
      invariant !hasJob ==> i == 0
    {
      if !hasJob {
        break;
      }
      ReportNext(progress, |batches|);
      progress := progress + [JobProgress(i, |batches|)];
      channels, rawVideos := FetchBatch(batches[i], feedOf, done, channels, rawVideos);
      assert batches[..i + 1] == batches[..i] + [batches[i]];
      FlattenAppend(batches[..i], batches[i]);
      done := done + batches[i];
      i := i + 1;
    }
    if hasJob {
      assert batches[..i] == batches;
      assert |progress| == |batches|;
    }
    result := JobResult(channels, FlattenVideos(rawVideos));
  }

  /** The job as evidently intended: progress is reported only when there
      is a job, and the feeds are fetched either way. */
  method RunSubscriptionsJobCorrected(ids: seq<string>, feedOf: string -> Option<ChannelFeed>, hasJob: bool)
    returns (result: JobResult, progress: seq<int>)
    ensures result == JobResult(Channels(FeedsOf(ids, feedOf)), Flatten(VideoLists(FeedsOf(ids, feedOf))))
    ensures hasJob ==> |progress| == (|ids| + BatchSize - 1) / BatchSize &&
                       forall i :: 0 <= i < |progress| ==> progress[i] == JobProgress(i, |progress|)
    ensures !hasJob ==> progress == []
  {
    var batches := SplitIntoBatches(ids);
    var channels: seq<Channel> := [];
    var rawVideos: seq<seq<FeedVideo>> := [];
    progress := [];
    var i := 0;
    ghost var done: seq<string> := [];
    while i < |batches|
      invariant i <= |batches|
      invariant |progress| == (if hasJob then i else 0)
      invariant ReportedFor(progress, |batches|)
      invariant done == Flatten(batches[..i])
      invariant channels == Channels(FeedsOf(done, feedOf))
      invariant rawVideos == VideoLists(FeedsOf(done, feedOf))
    {
      if hasJob {
        ReportNext(progress, |batches|);
        progress := progress + [JobProgress(i, |batches|)];
      }
      channels, rawVideos := FetchBatch(batches[i], feedOf, done, channels, rawVideos);
      assert batches[..i + 1] == batches[..i] + [batches[i]];
      FlattenAppend(batches[..i], batches[i]);
      done := done + batches[i];
      i := i + 1;
    }
    assert batches[..i] == batches;
    assert hasJob ==> |progress| == |batches|;
    result := JobResult(channels, FlattenVideos(rawVideos));
  }

  /** The call without a job, as the subscriptions service makes it, drops
      a feed that exists. */
  method DefaultJobDropsFeeds(feedOf: string -> Option<ChannelFeed>)
    returns (asWritten: JobResult, intended: JobResult)
    requires feedOf("UC1").Some?
    ensures asWritten.channels == [] && intended.channels == [feedOf("UC1").value.channel]
  {
    FeedsOfAppend([], "UC1", feedOf);
    assert [] + ["UC1"] == ["UC1"];
    ChannelsAppend([], feedOf("UC1").value);
    var p;
    asWritten, p := RunSubscriptionsJob(["UC1"], feedOf, false);
    intended, p := RunSubscriptionsJobCorrected(["UC1"], feedOf, false);
  }
}
