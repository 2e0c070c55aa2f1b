/** The subscription service's list logic, with the subscription
    collection as in-memory records and the feed fetch and the database
    saves as oracles: the channel-id collection for the refresh job, the
    grouping of new videos into per-user notifications, the subscription
    status, subscribing (one channel and many), unsubscribing, and the
    author enrichment of the subscription feed. */
module Subscriptions {
  import opened Wrappers
  import opened Seqs
  import opened SubscriptionsJob

  /** One subscription: the channel and when it was made (ms since the epoch;
      `None` for a record without `createdAt`). */
  datatype Subscription = Subscription(channelId: string, createdAt: Option<int>)

  /** A user's document in the subscription collection. */
  datatype UserSubscriptions = UserSubscriptions(username: string, subscriptions: seq<Subscription>)

  /** `SubscriptionStatusDto` */
  datatype SubscriptionStatus = SubscriptionStatus(channelId: string, isSubscribed: bool)

  /** `i` is the position of the first subscription to `channelId`. */
  predicate FirstFor(subs: seq<Subscription>, channelId: string, i: nat) {
    i < |subs| && subs[i].channelId == channelId && forall j :: 0 <= j < i ==> subs[j].channelId != channelId
  }

  /** There is only one first subscription to a channel. */
  lemma FirstForUnique(subs: seq<Subscription>, channelId: string, i: nat)
    requires FirstFor(subs, channelId, i)
    ensures forall k :: FirstFor(subs, channelId, k) ==> k == i
  {
  }

  /** `subscriptions.find(e => e.channelId === channelId)` */
  function FindSubscription(subs: seq<Subscription>, channelId: string): (r: Option<Subscription>)
    ensures r.Some? ==> r.value in subs && r.value.channelId == channelId
    ensures r.None? <==> forall s :: s in subs ==> s.channelId != channelId
    ensures r.Some? ==> exists i: nat :: FirstFor(subs, channelId, i) && r.value == subs[i]
  {
    var p := (s: Subscription) => s.channelId == channelId;
    var r := Find(subs, p);
    if r.Some? then
      assert FirstFor(subs, channelId, FindIndex(subs, p).value);
      r
    else r
  }

  /** The user subscribes to the channel. */
  predicate SubscribedTo(subs: seq<Subscription>, channelId: string) {
    exists s :: s in subs && s.channelId == channelId
  }

  /** No channel is subscribed twice. */
  predicate NoDuplicateChannels(subs: seq<Subscription>) {
    forall i, j :: 0 <= i < j < |subs| ==> subs[i].channelId != subs[j].channelId
  }

  // ---------------------------------------------------------------------
  // Channel ids for the refresh job

  /** The channel ids of a subscription list, in order. */
  function ChannelIdsOf(subs: seq<Subscription>): (r: seq<string>)
    ensures |r| == |subs|
    ensures forall i :: 0 <= i < |r| ==> r[i] == subs[i].channelId
  {
    if |subs| == 0 then [] else ChannelIdsOf(subs[..|subs| - 1]) + [subs[|subs| - 1].channelId]
  }

  /** The reduce with spread: every user's channel ids, user by user, which
      is the concatenation of the users' id lists. */
  function CollectChannelIds(users: seq<UserSubscriptions>): (r: seq<string>)
    ensures r == Flatten(seq(|users|, i requires 0 <= i < |users| => ChannelIdsOf(users[i].subscriptions)))
  {
    if |users| == 0 then []
    else
      var init := users[..|users| - 1];
      var lists := seq(|users|, i requires 0 <= i < |users| => ChannelIdsOf(users[i].subscriptions));
      var ids := ChannelIdsOf(users[|users| - 1].subscriptions);
      assert lists == seq(|init|, i requires 0 <= i < |init| => ChannelIdsOf(init[i].subscriptions)) + [ids];
      FlattenAppend(seq(|init|, i requires 0 <= i < |init| => ChannelIdsOf(init[i].subscriptions)), ids);
      CollectChannelIds(init) + ids
  }

  /** A channel id is collected exactly when some user subscribes to it. */
  lemma {:induction false} CollectChannelIdsMembers(users: seq<UserSubscriptions>, id: string)
    ensures id in CollectChannelIds(users) <==> exists u :: u in users && SubscribedTo(u.subscriptions, id)
    decreases |users|
  {
    if |users| > 0 {
      var init, last := users[..|users| - 1], users[|users| - 1];
      CollectChannelIdsMembers(init, id);
      assert users == init + [last];
      if id in ChannelIdsOf(last.subscriptions) {
        var i :| 0 <= i < |last.subscriptions| && ChannelIdsOf(last.subscriptions)[i] == id;
        assert last.subscriptions[i] in last.subscriptions;
      }
      if SubscribedTo(last.subscriptions, id) {
        var s :| s in last.subscriptions && s.channelId == id;
        var i :| 0 <= i < |last.subscriptions| && last.subscriptions[i] == s;
        assert ChannelIdsOf(last.subscriptions)[i] == id;
      }
      if exists u :: u in users && SubscribedTo(u.subscriptions, id) {
        var u :| u in users && SubscribedTo(u.subscriptions, id);
        if u != last {
          assert u in init;
        }
      }
    }
  }

  /** The position of the first occurrence of `x` in `ids`. */
  function FirstOccurrence(ids: seq<string>, x: string): (p: nat)
    requires x in ids
    ensures p < |ids| && ids[p] == x && x !in ids[..p]
  {
    if ids[0] == x then 0
    else
      var q := FirstOccurrence(ids[1..], x);
      assert ids[..q + 1] == [ids[0]] + ids[1..][..q];
      q + 1
  }

  /** Dropping the last value moves no other first occurrence; a last value
      that occurs nowhere before first occurs at the end. */
  lemma {:induction false} FirstOccurrenceInit(ids: seq<string>)
    requires |ids| > 0
    ensures forall y :: y in ids[..|ids| - 1] ==> FirstOccurrence(ids, y) == FirstOccurrence(ids[..|ids| - 1], y)
    ensures ids[|ids| - 1] !in ids[..|ids| - 1] ==> FirstOccurrence(ids, ids[|ids| - 1]) == |ids| - 1
  {
    var init := ids[..|ids| - 1];
    forall y | y in init ensures FirstOccurrence(ids, y) == FirstOccurrence(init, y) {
      var p := FirstOccurrence(init, y);
      assert ids[..p] == init[..p];
    }
  }

  /** `[...new Set(ids)]`: each value once, at its first occurrence. */
  function Dedup(ids: seq<string>): (r: seq<string>)
    ensures Distinct(r)
    ensures forall x :: x in r <==> x in ids
    ensures |r| <= |ids|
  {
    if |ids| == 0 then []
    else if ids[|ids| - 1] in ids[..|ids| - 1] then Dedup(ids[..|ids| - 1])
    else
      assert forall x :: x in ids <==> x in ids[..|ids| - 1] || x == ids[|ids| - 1] by {
        assert ids == ids[..|ids| - 1] + [ids[|ids| - 1]];
      }
      Dedup(ids[..|ids| - 1]) + [ids[|ids| - 1]]
  }

  /** The values `Dedup` keeps appear in the order of their first
      occurrence in the input, which is the insertion order of a `Set`. */
  lemma {:induction false} DedupKeepsFirstOccurrenceOrder(ids: seq<string>)
    ensures forall i, j :: 0 <= i < j < |Dedup(ids)| ==>
              FirstOccurrence(ids, Dedup(ids)[i]) < FirstOccurrence(ids, Dedup(ids)[j])
  {
    if |ids| > 0 {
      var init, last := ids[..|ids| - 1], ids[|ids| - 1];
      DedupKeepsFirstOccurrenceOrder(init);
      FirstOccurrenceInit(ids);
      var d, r := Dedup(init), Dedup(ids);
      assert r == if last in init then d else d + [last];
      forall i, j | 0 <= i < j < |r| ensures FirstOccurrence(ids, r[i]) < FirstOccurrence(ids, r[j]) {
        assert r[i] == d[i] && d[i] in init;
        var p := FirstOccurrence(init, d[i]);
        assert FirstOccurrence(ids, r[i]) == p < |init|;
        if j < |d| {
          assert r[j] == d[j] && d[j] in init;
          assert p < FirstOccurrence(init, d[j]);
          assert FirstOccurrence(init, d[j]) == FirstOccurrence(ids, r[j]);
        } else {
          assert r[j] == last && last !in init;
          assert FirstOccurrence(ids, r[j]) == |init|;
        }
      }
    }
  }

  /** The refresh job's input: every subscribed channel exactly once. */
  function UniqueChannelIds(users: seq<UserSubscriptions>): (r: seq<string>)
    ensures Distinct(r)
    ensures forall id :: id in r <==> exists u :: u in users && SubscribedTo(u.subscriptions, id)
  {
    var r := Dedup(CollectChannelIds(users));
    forall id ensures id in r <==> exists u :: u in users && SubscribedTo(u.subscriptions, id) {
      CollectChannelIdsMembers(users, id);
    }
    r
  }

  // ---------------------------------------------------------------------
  // Notification grouping

  /** One entry of `notificationsToSend`. */
  datatype Notification = Notification(username: string, videos: seq<FeedVideo>)

  /** A user is notified of a video when their first subscription to its
      channel has a `createdAt` earlier than the video's publication. */
  predicate Queued(user: UserSubscriptions, video: FeedVideo): (queued: bool)
    ensures queued <==>
              exists i :: 0 <= i < |user.subscriptions| && FirstFor(user.subscriptions, video.authorId, i) &&
                          user.subscriptions[i].createdAt.Some? &&
                          user.subscriptions[i].createdAt.value < video.published
  {
    match FindSubscription(user.subscriptions, video.authorId)
    case None => false
    case Some(s) =>
      var i: nat :| FirstFor(user.subscriptions, video.authorId, i) && s == user.subscriptions[i];
      FirstForUnique(user.subscriptions, video.authorId, i);
      s.createdAt.Some? && s.createdAt.value < video.published
  }

  /** At most one entry per username. */
  predicate DistinctNames(entries: seq<Notification>) {
    forall i, j :: 0 <= i < j < |entries| ==> entries[i].username != entries[j].username
  }

  /** The position of a username's entry. */
  function EntryIndex(entries: seq<Notification>, username: string): (r: Option<nat>)
    ensures r.Some? ==> r.value < |entries| && entries[r.value].username == username
    ensures r.Some? ==> forall j :: 0 <= j < r.value ==> entries[j].username != username
    ensures r.None? ==> forall j :: 0 <= j < |entries| ==> entries[j].username != username
  {
    FindIndex(entries, (e: Notification) => e.username == username)
  }

  /** Queue one video for one user: append to their entry, or start one. */
  function Enqueue(entries: seq<Notification>, username: string, video: FeedVideo): (r: seq<Notification>)
    ensures DistinctNames(entries) ==> DistinctNames(r)
  {
    match EntryIndex(entries, username)
    case None => entries + [Notification(username, [video])]
    case Some(k) => entries[k := Notification(username, entries[k].videos + [video])]
  }

  /** One video against every user, in user order. */
  function ForVideo(entries: seq<Notification>, users: seq<UserSubscriptions>, video: FeedVideo): (r: seq<Notification>)
    ensures DistinctNames(entries) ==> DistinctNames(r)
  {
    if |users| == 0 then entries
    else
      var before := ForVideo(entries, users[..|users| - 1], video);
      if Queued(users[|users| - 1], video) then Enqueue(before, users[|users| - 1].username, video) else before
  }

  /** The grouping of `sendUserNotifications`: every video in order. */
  function Grouped(users: seq<UserSubscriptions>, videos: seq<FeedVideo>): (r: seq<Notification>)
    ensures DistinctNames(r)
  {
    if |videos| == 0 then [] else ForVideo(Grouped(users, videos[..|videos| - 1]), users, videos[|videos| - 1])
  }

  /** `sendUserNotifications`: build `notificationsToSend` (sending it is
      not modelled). At most one entry per username. */
  method SendUserNotifications(users: seq<UserSubscriptions>, videos: seq<FeedVideo>)
    returns (notificationsToSend: seq<Notification>)
    ensures notificationsToSend == Grouped(users, videos)
    ensures DistinctNames(notificationsToSend)
  {
    notificationsToSend := [];
    var i := 0;
    while i < |videos|
      invariant i <= |videos|
      invariant notificationsToSend == Grouped(users, videos[..i])
    {
      var video := videos[i];
      assert videos[..i + 1][..i] == videos[..i];
      var j := 0;
      while j < |users|
        invariant j <= |users|
        invariant notificationsToSend == ForVideo(Grouped(users, videos[..i]), users[..j], video)
      {
        assert users[..j + 1][..j] == users[..j];
        var user := users[j];
        ghost var before := notificationsToSend;
        if Queued(user, video) {
          match EntryIndex(notificationsToSend, user.username)
          case None =>
            notificationsToSend := notificationsToSend + [Notification(user.username, [video])];
          case Some(k) =>
            notificationsToSend := notificationsToSend[k := Notification(user.username, notificationsToSend[k].videos + [video])];
          assert notificationsToSend == Enqueue(before, user.username, video);
        }
        assert notificationsToSend == ForVideo(Grouped(users, videos[..i]), users[..j + 1], video);
        j := j + 1;
      }
      assert users[..|users|] == users;
      i := i + 1;
    }
    assert videos[..|videos|] == videos;
  }

  /** The videos queued so far for a username. */
  function VideosFor(entries: seq<Notification>, username: string): seq<FeedVideo> {
    match EntryIndex(entries, username)
    case None => []
    case Some(k) => entries[k].videos
  }

  /** Entries with the same usernames, position by position, find a name at
      the same position. */
  lemma EntryIndexSameNames(a: seq<Notification>, b: seq<Notification>, username: string)
    requires |a| == |b| && forall i :: 0 <= i < |a| ==> a[i].username == b[i].username
    ensures EntryIndex(a, username) == EntryIndex(b, username)
  {
  }

  /** Queuing for one user adds the video to that user's list only. */
  lemma EnqueueVideosFor(entries: seq<Notification>, username: string, video: FeedVideo, other: string)
    ensures VideosFor(Enqueue(entries, username, video), other) ==
              VideosFor(entries, other) + (if other == username then [video] else [])
  {
    var r := Enqueue(entries, username, video);
    match EntryIndex(entries, username)
    case None =>
      if other == username {
        assert r[|entries|].username == other;
        assert EntryIndex(r, other) == Some(|entries|);
      } else {
        var io := EntryIndex(entries, other);
        if io.Some? {
          assert r[io.value].username == other;
        }
        assert EntryIndex(r, other) == io;
      }
    case Some(k) =>
      EntryIndexSameNames(entries, r, other);
  }

  /** Usernames identify user documents. */
  predicate UniqueUsernames(users: seq<UserSubscriptions>) {
    forall i, j :: 0 <= i < j < |users| ==> users[i].username != users[j].username
  }

  /** Some user of that name is queued for the video. */
  predicate QueuedNamed(users: seq<UserSubscriptions>, username: string, video: FeedVideo) {
    exists i :: 0 <= i < |users| && users[i].username == username && Queued(users[i], video)
  }

  /** Splitting off the last user: with unique usernames, the name is
      queued either among the others or by the last user, never both. */
  lemma QueuedNamedSplit(users: seq<UserSubscriptions>, username: string, video: FeedVideo)
    requires |users| > 0 && UniqueUsernames(users)
    ensures var init, last := users[..|users| - 1], users[|users| - 1];
            (QueuedNamed(users, username, video) <==>
               QueuedNamed(init, username, video) || (last.username == username && Queued(last, video))) &&
            !(QueuedNamed(init, username, video) && last.username == username)
  {
    var init, last := users[..|users| - 1], users[|users| - 1];
    if QueuedNamed(users, username, video) {
      var i :| 0 <= i < |users| && users[i].username == username && Queued(users[i], video);
      if i < |users| - 1 {
        assert init[i] == users[i];
      }
    }
    if QueuedNamed(init, username, video) {
      var i :| 0 <= i < |init| && init[i].username == username && Queued(init[i], video);
      assert users[i] == init[i];
    }
  }

  lemma {:induction false} ForVideoVideosFor(entries: seq<Notification>, users: seq<UserSubscriptions>,
                                             video: FeedVideo, username: string)
    requires UniqueUsernames(users)
    ensures VideosFor(ForVideo(entries, users, video), username) ==
              VideosFor(entries, username) + (if QueuedNamed(users, username, video) then [video] else [])
    decreases |users|
  {
    if |users| > 0 {
      var init, last := users[..|users| - 1], users[|users| - 1];
      assert UniqueUsernames(init);
      ForVideoVideosFor(entries, init, video, username);
      QueuedNamedSplit(users, username, video);
      var before := ForVideo(entries, init, video);
      if Queued(last, video) {
        EnqueueVideosFor(before, last.username, video, username);
      }
    }
  }

  /** A username's notification lists exactly the processed videos that
      user is queued for, in processing order. */
  lemma {:induction false} GroupedVideosFor(users: seq<UserSubscriptions>, videos: seq<FeedVideo>, username: string)
    requires UniqueUsernames(users)
    ensures VideosFor(Grouped(users, videos), username) == Filter(videos, v => QueuedNamed(users, username, v))
    decreases |videos|
  {
    if |videos| > 0 {
      var init := videos[..|videos| - 1];
      GroupedVideosFor(users, init, username);
      ForVideoVideosFor(Grouped(users, init), users, videos[|videos| - 1], username);
    }
  }

  // ---------------------------------------------------------------------
  // Subscription status and single-channel operations

  /** `getSubscription`: subscribed exactly when the user's list holds the id. */
  function GetSubscription(user: Option<UserSubscriptions>, channelId: string): (r: SubscriptionStatus)
    ensures r.channelId == channelId
    ensures r.isSubscribed <==> user.Some? && SubscribedTo(user.value.subscriptions, channelId)
  {
    if user.Some? && |user.value.subscriptions| > 0 && FindSubscription(user.value.subscriptions, channelId).Some? then
      SubscriptionStatus(channelId, true)
    else
      SubscriptionStatus(channelId, false)
  }

  /** What `subscribeToChannel` ends with: nothing for a missing feed, the
      `TypeError` of `channel.authorId` when saving the channel returned
      nothing, or the document written and the status returned. */
  datatype SubscribeOutcome =
    | NoFeed
    | ChannelUnavailable
    | Subscribed(record: UserSubscriptions, status: SubscriptionStatus)

  /** `subscribeToChannel`: append `{channelId, createdAt}` for the saved
      channel's id only when it is absent; the status reports the requested id. */
  function SubscribeToChannel(user: Option<UserSubscriptions>, username: string, channelId: string,
                              feed: Option<ChannelFeed>, savedChannel: Option<Channel>, now: int)
    : (r: SubscribeOutcome)
    ensures feed.None? <==> r.NoFeed?
    ensures r.ChannelUnavailable? <==> feed.Some? && savedChannel.None?
    ensures r.Subscribed? ==>
              var old_ := if user.Some? then user.value.subscriptions else [];
              var subs := r.record.subscriptions;
              r.record.username == username &&
              r.status == SubscriptionStatus(channelId, true) &&
              SubscribedTo(subs, savedChannel.value.authorId) &&
              (SubscribedTo(old_, savedChannel.value.authorId) ==> subs == old_) &&
              (!SubscribedTo(old_, savedChannel.value.authorId) ==>
                 subs == old_ + [Subscription(savedChannel.value.authorId, Some(now))]) &&
              (NoDuplicateChannels(old_) ==> NoDuplicateChannels(subs))
  {
    if feed.None? then NoFeed
    else if savedChannel.None? then ChannelUnavailable
    else
      var subs := if user.Some? then user.value.subscriptions else [];
      var id := savedChannel.value.authorId;
      var subs' := if FindSubscription(subs, id).None? then subs + [Subscription(id, Some(now))] else subs;
      assert Subscription(id, Some(now)) in subs + [Subscription(id, Some(now))];
      Subscribed(UserSubscriptions(username, subs'), SubscriptionStatus(channelId, true))
  }

  /** Subscribing twice in a row leaves the list as after the first time. */
  lemma SubscribeIdempotent(user: Option<UserSubscriptions>, username: string, channelId: string,
                            feed: Option<ChannelFeed>, saved: Option<Channel>, now: int, later: int)
    requires SubscribeToChannel(user, username, channelId, feed, saved, now).Subscribed?
    ensures var first := SubscribeToChannel(user, username, channelId, feed, saved, now).record;
            SubscribeToChannel(Some(first), username, channelId, feed, saved, later).Subscribed? &&
            SubscribeToChannel(Some(first), username, channelId, feed, saved, later).record == first
  {
  }

  /** `unsubscribeFromChannel`'s result: `NotFoundException`, or the saved document. */
  datatype UnsubscribeOutcome =
    | NotFound
    | Unsubscribed(record: UserSubscriptions, status: SubscriptionStatus)

  /** `unsubscribeFromChannel`: fails when the user or the subscription is
      missing; otherwise removes that channel and keeps the rest in order. */
  function UnsubscribeFromChannel(user: Option<UserSubscriptions>, channelId: string): (r: UnsubscribeOutcome)
    ensures r.NotFound? <==> user.None? || !SubscribedTo(user.value.subscriptions, channelId)
    ensures r.Unsubscribed? ==>
              r.record.username == user.value.username &&
              r.status == SubscriptionStatus(channelId, false) &&
              !SubscribedTo(r.record.subscriptions, channelId) &&
              (forall s :: s in r.record.subscriptions <==> s in user.value.subscriptions && s.channelId != channelId) &&
              r.record.subscriptions == Filter(user.value.subscriptions, (s: Subscription) => s.channelId != channelId)
  {
    if user.Some? && |user.value.subscriptions| > 0 && FindSubscription(user.value.subscriptions, channelId).Some? then
      var kept := Filter(user.value.subscriptions, (s: Subscription) => s.channelId != channelId);
      Unsubscribed(UserSubscriptions(user.value.username, kept), SubscriptionStatus(channelId, false))
    else
      NotFound
  }

  /** Unsubscribing after subscribing the same id removes it again. */
  lemma SubscribeThenUnsubscribe(user: Option<UserSubscriptions>, username: string, channelId: string,
                                 feed: Option<ChannelFeed>, saved: Option<Channel>, now: int)
    requires SubscribeToChannel(user, username, channelId, feed, saved, now).Subscribed?
    ensures var rec := SubscribeToChannel(user, username, channelId, feed, saved, now).record;
            var r := UnsubscribeFromChannel(Some(rec), saved.value.authorId);
            r.Unsubscribed? && !SubscribedTo(r.record.subscriptions, saved.value.authorId)
  {
  }

  // ---------------------------------------------------------------------
  // Subscribing to many channels

  /** The synchronous `filter` of `subscribeToMultipleChannels`: ids
      already subscribed are reported `existing`, the rest are kept for
      fetching, in order. */
  method PartitionExisting(subscriptions: seq<Subscription>, channelIds: seq<string>)
    returns (existing: seq<SubscriptionStatus>, toFetch: seq<string>)
    ensures Split(existing, toFetch) == Partition(subscriptions, channelIds)
    ensures toFetch == Filter(channelIds, id => !SubscribedTo(subscriptions, id))
    ensures forall id :: id in channelIds && SubscribedTo(subscriptions, id) ==> SubscriptionStatus(id, true) in existing
    ensures forall st :: st in existing ==> st.isSubscribed && SubscribedTo(subscriptions, st.channelId)
  {
    existing, toFetch := [], [];
    var i := 0;
    while i < |channelIds|
      invariant i <= |channelIds|
      invariant Split(existing, toFetch) == Partition(subscriptions, channelIds[..i])
    {
      var id := channelIds[i];
      assert channelIds[..i + 1][..i] == channelIds[..i];
      var found := FindSubscription(subscriptions, id);
      if found.Some? {
        existing := existing + [SubscriptionStatus(id, true)];
      } else {
        toFetch := toFetch + [id];
      }
      i := i + 1;
    }
    assert channelIds[..i] == channelIds;
    PartitionFetches(subscriptions, channelIds);
    PartitionReportsExisting(subscriptions, channelIds);
  }

  /** The two lists of the filter: statuses of the ids already subscribed
      and the ids still to fetch. */
  datatype Split = Split(existing: seq<SubscriptionStatus>, toFetch: seq<string>)

  /** The filter over `channelIds`, id by id in order. */
  function Partition(subs: seq<Subscription>, ids: seq<string>): Split
  {
    if |ids| == 0 then Split([], [])
    else
      var before := Partition(subs, ids[..|ids| - 1]);
      var id := ids[|ids| - 1];
      if FindSubscription(subs, id).Some? then before.(existing := before.existing + [SubscriptionStatus(id, true)])
      else before.(toFetch := before.toFetch + [id])
  }

  /** The filter fetches exactly the ids not yet subscribed, in order. */
  lemma {:induction false} PartitionFetches(subs: seq<Subscription>, ids: seq<string>)
    ensures Partition(subs, ids).toFetch == Filter(ids, id => !SubscribedTo(subs, id))
  {
    if |ids| > 0 {
      var init, id := ids[..|ids| - 1], ids[|ids| - 1];
      PartitionFetches(subs, init);
      assert ids == init + [id];
      FilterAppend(init, id, id => !SubscribedTo(subs, id));
      var found := FindSubscription(subs, id);
      assert found.Some? <==> SubscribedTo(subs, id);
    }
  }

  /** The filter reports every subscribed id, and only those, as existing. */
  lemma {:induction false} PartitionReportsExisting(subs: seq<Subscription>, ids: seq<string>)
    ensures forall id :: id in ids && SubscribedTo(subs, id) ==> SubscriptionStatus(id, true) in Partition(subs, ids).existing
    ensures forall st :: st in Partition(subs, ids).existing ==> st.isSubscribed && SubscribedTo(subs, st.channelId)
  {
    if |ids| > 0 {
      var init, id := ids[..|ids| - 1], ids[|ids| - 1];
      PartitionReportsExisting(subs, init);
      assert forall x :: x in ids ==> x in init || x == id;
      var found := FindSubscription(subs, id);
      assert found.Some? <==> SubscribedTo(subs, id);
    }
  }

  /** The four lists of the fan-out: the user's subscriptions and the
      `successful`, `failed` and `existing` statuses. */
  datatype Fanout = Fanout(subscriptions: seq<Subscription>, successful: seq<SubscriptionStatus>,
                           failed: seq<SubscriptionStatus>, existing: seq<SubscriptionStatus>)

  /** One id of the fan-out: a missing feed or a failed video save is
      `failed`; a saved channel is appended when absent (`successful`) and
      otherwise `existing`; a channel the save returned nothing for is
      dropped. */
  function FetchStep(f: Fanout, id: string, feedOf: string -> Option<ChannelFeed>,
                     savedChannel: string -> Option<Channel>, videoSaveFails: string -> bool, now: int): Fanout
  {
    if feedOf(id).None? then f.(failed := f.failed + [SubscriptionStatus(id, false)])
    else
      var f1 := if videoSaveFails(id) then f.(failed := f.failed + [SubscriptionStatus(id, false)]) else f;
      if savedChannel(id).None? then f1
      else
        var cid := savedChannel(id).value.authorId;
        if FindSubscription(f1.subscriptions, cid).None? then
          f1.(subscriptions := f1.subscriptions + [Subscription(cid, Some(now))],
              successful := f1.successful + [SubscriptionStatus(cid, true)])
        else f1.(existing := f1.existing + [SubscriptionStatus(cid, true)])
  }

  /** The fan-out over `ids`, one id after the other, from `initial`. */
  function FetchAll(ids: seq<string>, initial: seq<Subscription>, feedOf: string -> Option<ChannelFeed>,
                    savedChannel: string -> Option<Channel>, videoSaveFails: string -> bool, now: int): Fanout
    decreases |ids|
  {
    if |ids| == 0 then Fanout(initial, [], [], [])
    else FetchStep(FetchAll(ids[..|ids| - 1], initial, feedOf, savedChannel, videoSaveFails, now),
                   ids[|ids| - 1], feedOf, savedChannel, videoSaveFails, now)
  }

  /** `cid` is the author id of a channel saved from the feed of one of `ids`. */
  predicate SavedFromFeed(ids: seq<string>, feedOf: string -> Option<ChannelFeed>,
                          savedChannel: string -> Option<Channel>, cid: string) {
    exists id :: id in ids && feedOf(id).Some? && savedChannel(id).Some? && savedChannel(id).value.authorId == cid
  }

  /** The entries past `initial` are the successful channels, in order,
      each created `now` and saved from the feed of one of `ids`. */
  predicate AppendedAsSuccessful(subscriptions: seq<Subscription>, initial: seq<Subscription>,
                                 successful: seq<SubscriptionStatus>, ids: seq<string>,
                                 feedOf: string -> Option<ChannelFeed>, savedChannel: string -> Option<Channel>,
                                 now: int) {
    |subscriptions| == |initial| + |successful| &&
    forall k :: 0 <= k < |successful| ==>
      successful[k] == SubscriptionStatus(subscriptions[|initial| + k].channelId, true) &&
      subscriptions[|initial| + k].createdAt == Some(now) &&
      SavedFromFeed(ids, feedOf, savedChannel, successful[k].channelId)
  }

  /** The subscription list keeps its prefix, and a duplicate-free list
      stays so. */
  lemma {:induction false} FetchAllKeepsInitial(ids: seq<string>, initial: seq<Subscription>,
                                                feedOf: string -> Option<ChannelFeed>, savedChannel: string -> Option<Channel>,
                                                videoSaveFails: string -> bool, now: int)
    ensures var r := FetchAll(ids, initial, feedOf, savedChannel, videoSaveFails, now);
            |initial| <= |r.subscriptions| && r.subscriptions[..|initial|] == initial &&
            (NoDuplicateChannels(initial) ==> NoDuplicateChannels(r.subscriptions))
    decreases |ids|
  {
    if |ids| > 0 {
      var init, id := ids[..|ids| - 1], ids[|ids| - 1];
      FetchAllKeepsInitial(init, initial, feedOf, savedChannel, videoSaveFails, now);
      var f := FetchAll(init, initial, feedOf, savedChannel, videoSaveFails, now);
      var r := FetchAll(ids, initial, feedOf, savedChannel, videoSaveFails, now);
      if r.subscriptions != f.subscriptions {
        var cid := savedChannel(id).value.authorId;
        assert r.subscriptions == f.subscriptions + [Subscription(cid, Some(now))];
        assert r.subscriptions[..|f.subscriptions|] == f.subscriptions;
        if NoDuplicateChannels(initial) {
          assert forall s :: s in f.subscriptions ==> s.channelId != cid;
        }
      }
    }
  }

  /** The entries appended to the subscription list are the successful
      channels, in order, each created `now` and saved from a fetched
      feed. */
  lemma {:induction false} FetchAllAppends(ids: seq<string>, initial: seq<Subscription>,
                                           feedOf: string -> Option<ChannelFeed>, savedChannel: string -> Option<Channel>,
                                           videoSaveFails: string -> bool, now: int)
    ensures var r := FetchAll(ids, initial, feedOf, savedChannel, videoSaveFails, now);
            AppendedAsSuccessful(r.subscriptions, initial, r.successful, ids, feedOf, savedChannel, now)
    decreases |ids|
  {
    if |ids| > 0 {
      var init, id := ids[..|ids| - 1], ids[|ids| - 1];
      FetchAllAppends(init, initial, feedOf, savedChannel, videoSaveFails, now);
      var f := FetchAll(init, initial, feedOf, savedChannel, videoSaveFails, now);
      var r := FetchAll(ids, initial, feedOf, savedChannel, videoSaveFails, now);
      assert id in ids;
      var appends := feedOf(id).Some? && savedChannel(id).Some? &&
                     FindSubscription(f.subscriptions, savedChannel(id).value.authorId).None?;
      if appends {
        var cid := savedChannel(id).value.authorId;
        assert r.subscriptions == f.subscriptions + [Subscription(cid, Some(now))];
        assert r.successful == f.successful + [SubscriptionStatus(cid, true)];
      } else {
        assert r.subscriptions == f.subscriptions && r.successful == f.successful;
      }
      forall k | 0 <= k < |r.successful|
        ensures r.successful[k] == SubscriptionStatus(r.subscriptions[|initial| + k].channelId, true) &&
                r.subscriptions[|initial| + k].createdAt == Some(now) &&
                SavedFromFeed(ids, feedOf, savedChannel, r.successful[k].channelId)
      {
        if k < |f.successful| {
          assert r.successful[k] == f.successful[k];
          assert r.subscriptions[|initial| + k] == f.subscriptions[|initial| + k];
          assert SavedFromFeed(init, feedOf, savedChannel, f.successful[k].channelId);
          var w :| w in init && feedOf(w).Some? && savedChannel(w).Some? &&
                   savedChannel(w).value.authorId == f.successful[k].channelId;
          assert w in ids;
        } else {
          assert r.successful[k].channelId == savedChannel(id).value.authorId;
        }
      }
    }
  }


  /** Every failure had a missing feed or a failed video save, and every
      id with one of the two is reported failed. */
  lemma {:induction false} FetchAllFailed(ids: seq<string>, initial: seq<Subscription>,
                                          feedOf: string -> Option<ChannelFeed>, savedChannel: string -> Option<Channel>,
                                          videoSaveFails: string -> bool, now: int)
    ensures var r := FetchAll(ids, initial, feedOf, savedChannel, videoSaveFails, now);
            (forall st :: st in r.failed ==>
              !st.isSubscribed && st.channelId in ids &&
              (feedOf(st.channelId).None? || videoSaveFails(st.channelId))) &&
            (forall id :: id in ids && (feedOf(id).None? || videoSaveFails(id)) ==>
              SubscriptionStatus(id, false) in r.failed)
    decreases |ids|
  {
    if |ids| > 0 {
      var init := ids[..|ids| - 1];
      FetchAllFailed(init, initial, feedOf, savedChannel, videoSaveFails, now);
      assert ids == init + [ids[|ids| - 1]];
    }
  }

  /** Every success and every `existing` status names a subscribed channel,
      and every channel saved from a fetched feed is subscribed and reported
      successful or existing. */
  lemma {:induction false} FetchAllSubscribed(ids: seq<string>, initial: seq<Subscription>,
                                              feedOf: string -> Option<ChannelFeed>, savedChannel: string -> Option<Channel>,
                                              videoSaveFails: string -> bool, now: int)
    ensures var r := FetchAll(ids, initial, feedOf, savedChannel, videoSaveFails, now);
            (forall st :: st in r.successful ==> st.isSubscribed && SubscribedTo(r.subscriptions, st.channelId)) &&
            (forall st :: st in r.existing ==> st.isSubscribed && SubscribedTo(r.subscriptions, st.channelId)) &&
            (forall id :: id in ids && feedOf(id).Some? && savedChannel(id).Some? ==>
              SubscriptionStatus(savedChannel(id).value.authorId, true) in r.successful + r.existing)
    decreases |ids|
  {
    if |ids| > 0 {
      var init, id := ids[..|ids| - 1], ids[|ids| - 1];
      FetchAllSubscribed(init, initial, feedOf, savedChannel, videoSaveFails, now);
      var f := FetchAll(init, initial, feedOf, savedChannel, videoSaveFails, now);
      var r := FetchAll(ids, initial, feedOf, savedChannel, videoSaveFails, now);
      assert ids == init + [id];
      assert forall c :: SubscribedTo(f.subscriptions, c) ==> SubscribedTo(r.subscriptions, c) by {
        forall c | SubscribedTo(f.subscriptions, c) ensures SubscribedTo(r.subscriptions, c) {
          var s :| s in f.subscriptions && s.channelId == c;
          assert r.subscriptions == f.subscriptions || r.subscriptions == f.subscriptions + [r.subscriptions[|r.subscriptions| - 1]];
          assert s in r.subscriptions;
        }
      }
      if feedOf(id).Some? && savedChannel(id).Some? {
        var cid := savedChannel(id).value.authorId;
        if FindSubscription(f.subscriptions, cid).None? {
          assert Subscription(cid, Some(now)) in r.subscriptions;
        } else {
          var s :| s in f.subscriptions && s.channelId == cid;
        }
      }
    }
  }

  /** The per-id fetch of `subscribeToMultipleChannels`, run in id order. */
  method FetchAndSubscribe(toFetch: seq<string>, initial: seq<Subscription>,
                           feedOf: string -> Option<ChannelFeed>,
                           savedChannel: string -> Option<Channel>,
                           videoSaveFails: string -> bool, now: int)
    returns (subscriptions: seq<Subscription>, successful: seq<SubscriptionStatus>,
             failed: seq<SubscriptionStatus>, existing: seq<SubscriptionStatus>)
    ensures Fanout(subscriptions, successful, failed, existing) ==
            FetchAll(toFetch, initial, feedOf, savedChannel, videoSaveFails, now)
    ensures |initial| <= |subscriptions| && subscriptions[..|initial|] == initial
    ensures NoDuplicateChannels(initial) ==> NoDuplicateChannels(subscriptions)
    ensures forall id :: id in toFetch && feedOf(id).None? ==> SubscriptionStatus(id, false) in failed
    ensures forall st :: st in failed ==>
              !st.isSubscribed && st.channelId in toFetch &&
              (feedOf(st.channelId).None? || videoSaveFails(st.channelId))
    ensures forall st :: st in successful ==> st.isSubscribed && SubscribedTo(subscriptions, st.channelId)
    ensures forall st :: st in existing ==> st.isSubscribed && SubscribedTo(subscriptions, st.channelId)
    ensures forall id :: id in toFetch && feedOf(id).Some? && videoSaveFails(id) ==>
              SubscriptionStatus(id, false) in failed
    ensures forall id :: id in toFetch && feedOf(id).Some? && savedChannel(id).Some? ==>
              SubscribedTo(subscriptions, savedChannel(id).value.authorId) &&
              SubscriptionStatus(savedChannel(id).value.authorId, true) in successful + existing
    ensures AppendedAsSuccessful(subscriptions, initial, successful, toFetch, feedOf, savedChannel, now)
  {
    subscriptions := initial;
    successful, failed, existing := [], [], [];
    var j := 0;
    while j < |toFetch|
      invariant j <= |toFetch|
      invariant Fanout(subscriptions, successful, failed, existing) ==
                FetchAll(toFetch[..j], initial, feedOf, savedChannel, videoSaveFails, now)
    {
      assert toFetch[..j + 1][..j] == toFetch[..j];
      subscriptions, successful, failed, existing :=
        FetchOne(toFetch[j], subscriptions, successful, failed, existing, feedOf, savedChannel, videoSaveFails, now);
      j := j + 1;
    }
    assert toFetch[..j] == toFetch;
    FetchAllKeepsInitial(toFetch, initial, feedOf, savedChannel, videoSaveFails, now);
    FetchAllAppends(toFetch, initial, feedOf, savedChannel, videoSaveFails, now);
    FetchAllFailed(toFetch, initial, feedOf, savedChannel, videoSaveFails, now);
    FetchAllSubscribed(toFetch, initial, feedOf, savedChannel, videoSaveFails, now);
    forall id | id in toFetch && feedOf(id).Some? && savedChannel(id).Some?
      ensures SubscribedTo(subscriptions, savedChannel(id).value.authorId)
    {
      var st := SubscriptionStatus(savedChannel(id).value.authorId, true);
      assert st in successful || st in existing;
    }
  }

  /** The `map` callback for one id, on the shared lists. */
  method FetchOne(id: string, subscriptions: seq<Subscription>, successful: seq<SubscriptionStatus>,
                  failed: seq<SubscriptionStatus>, existing: seq<SubscriptionStatus>,
                  feedOf: string -> Option<ChannelFeed>, savedChannel: string -> Option<Channel>,
                  videoSaveFails: string -> bool, now: int)
    returns (subscriptions': seq<Subscription>, successful': seq<SubscriptionStatus>,
             failed': seq<SubscriptionStatus>, existing': seq<SubscriptionStatus>)
    ensures Fanout(subscriptions', successful', failed', existing') ==
            FetchStep(Fanout(subscriptions, successful, failed, existing), id, feedOf, savedChannel, videoSaveFails, now)
  {
    subscriptions', successful', failed', existing' := subscriptions, successful, failed, existing;
    var feed := feedOf(id);
    if feed.Some? {
      var channel := savedChannel(id);
      if videoSaveFails(id) {
        failed' := failed' + [SubscriptionStatus(id, false)];
      }
      if channel.Some? {
        var cid := channel.value.authorId;
        if FindSubscription(subscriptions', cid).None? {
          subscriptions', successful' := AppendSubscription(subscriptions', cid, now, successful');
        } else {
          existing' := existing' + [SubscriptionStatus(cid, true)];
        }
      }
    } else {
      failed' := failed' + [SubscriptionStatus(id, false)];
    }
  }

  /** `subscriptions.push({channelId, createdAt})` with its `successful` entry. */
  method AppendSubscription(subscriptions: seq<Subscription>, cid: string, now: int,
                            successful: seq<SubscriptionStatus>)
    returns (subscriptions': seq<Subscription>, successful': seq<SubscriptionStatus>)
    requires !SubscribedTo(subscriptions, cid)
    ensures subscriptions' == subscriptions + [Subscription(cid, Some(now))]
    ensures successful' == successful + [SubscriptionStatus(cid, true)]
    ensures NoDuplicateChannels(subscriptions) ==> NoDuplicateChannels(subscriptions')
    ensures SubscribedTo(subscriptions', cid)
    ensures forall c :: SubscribedTo(subscriptions, c) ==> SubscribedTo(subscriptions', c)
  {
    var s := Subscription(cid, Some(now));
    subscriptions' := subscriptions + [s];
    assert s in subscriptions';
    successful' := successful + [SubscriptionStatus(cid, true)];
  }

  /** `subscribeToMultipleChannels`, with the fan-out run in id order.
      `feedOf` is the feed fetch, `savedChannel` what saving a channel
      returns, `videoSaveFails` whether saving its videos throws. Ids already
      subscribed are reported `existing` and not fetched; a missing feed or
      a failed video save is reported `failed`; the list only grows. */
  method SubscribeToMultipleChannels(user: Option<UserSubscriptions>, username: string, channelIds: seq<string>,
                                     feedOf: string -> Option<ChannelFeed>,
                                     savedChannel: string -> Option<Channel>,
                                     videoSaveFails: string -> bool, now: int)
    returns (successful: seq<SubscriptionStatus>, failed: seq<SubscriptionStatus>,
             existing: seq<SubscriptionStatus>, fetched: seq<string>, record: UserSubscriptions)
    ensures var initial := if user.Some? then user.value.subscriptions else [];
            fetched == Filter(channelIds, id => !SubscribedTo(initial, id)) &&
            record.username == username &&
            |initial| <= |record.subscriptions| && record.subscriptions[..|initial|] == initial &&
            (NoDuplicateChannels(initial) ==> NoDuplicateChannels(record.subscriptions))
    ensures var initial := if user.Some? then user.value.subscriptions else [];
            forall id :: id in channelIds && SubscribedTo(initial, id) ==> SubscriptionStatus(id, true) in existing
    ensures forall id :: id in fetched && feedOf(id).None? ==> SubscriptionStatus(id, false) in failed
    ensures forall st :: st in failed ==>
              !st.isSubscribed && st.channelId in fetched &&
              (feedOf(st.channelId).None? || videoSaveFails(st.channelId))
    ensures forall st :: st in successful ==> st.isSubscribed && SubscribedTo(record.subscriptions, st.channelId)
    ensures forall st :: st in existing ==> st.isSubscribed && SubscribedTo(record.subscriptions, st.channelId)
    ensures forall id :: id in fetched && feedOf(id).Some? && videoSaveFails(id) ==>
              SubscriptionStatus(id, false) in failed
    ensures forall id :: id in fetched && feedOf(id).Some? && savedChannel(id).Some? ==>
              SubscribedTo(record.subscriptions, savedChannel(id).value.authorId) &&
              SubscriptionStatus(savedChannel(id).value.authorId, true) in successful + existing
    ensures var initial := if user.Some? then user.value.subscriptions else [];
            AppendedAsSuccessful(record.subscriptions, initial, successful, fetched, feedOf, savedChannel, now)
    ensures var initial := if user.Some? then user.value.subscriptions else [];
            var fanout := FetchAll(fetched, initial, feedOf, savedChannel, videoSaveFails, now);
            existing == Partition(initial, channelIds).existing + fanout.existing &&
            successful == fanout.successful && failed == fanout.failed &&
            record.subscriptions == fanout.subscriptions
  {
    var initial := if user.Some? then user.value.subscriptions else [];
    var existingBefore, existingAfter;
    existingBefore, fetched := PartitionExisting(initial, channelIds);
    var subscriptions;
    subscriptions, successful, failed, existingAfter :=
      FetchAndSubscribe(fetched, initial, feedOf, savedChannel, videoSaveFails, now);
    existing := existingBefore + existingAfter;
    JoinExisting(initial, subscriptions, existingBefore, existingAfter, successful);
    record := UserSubscriptions(username, subscriptions);
  }

  /** The `existing` statuses of the filter and of the fan-out, joined,
      still name subscribed channels; the fan-out's statuses stay in the
      joined report. */
  lemma JoinExisting(initial: seq<Subscription>, subscriptions: seq<Subscription>,
                     before: seq<SubscriptionStatus>, after: seq<SubscriptionStatus>,
                     successful: seq<SubscriptionStatus>)
    requires |initial| <= |subscriptions| && subscriptions[..|initial|] == initial
    requires forall st :: st in before ==> st.isSubscribed && SubscribedTo(initial, st.channelId)
    requires forall st :: st in after ==> st.isSubscribed && SubscribedTo(subscriptions, st.channelId)
    ensures forall st :: st in before + after ==> st.isSubscribed && SubscribedTo(subscriptions, st.channelId)
    ensures forall st :: st in successful + after ==> st in successful + (before + after)
  {
    forall st | st in before ensures SubscribedTo(subscriptions, st.channelId) {
      var s :| s in initial && s.channelId == st.channelId;
      var k :| 0 <= k < |initial| && initial[k] == s;
      assert subscriptions[k] == s;
    }
  }

  // ---------------------------------------------------------------------
  // Feed enrichment

  /** A thumbnail of the channel's avatar. */
  datatype Thumbnail = Thumbnail(url: string, width: int, height: int)

  /** The stored channel info the feed is enriched from. */
  datatype ChannelInfo = ChannelInfo(authorId: string, authorThumbnailUrl: Option<string>,
                                     authorThumbnails: Option<seq<Thumbnail>>, authorVerified: Option<bool>)

  /** A subscription-feed video with its author fields. */
  datatype FeedEntry = FeedEntry(videoId: string, authorId: string, published: int,
                                 authorThumbnailUrl: Option<string>,
                                 authorThumbnails: Option<seq<Thumbnail>>, authorVerified: Option<bool>)

  /** The `forEach` body: the first channel with the video's author id
      lends its thumbnail URL, else its thumbnail list (an empty list is
      still truthy), and its verified flag only when true. */
  function EnrichVideo(video: FeedEntry, channels: seq<ChannelInfo>): (r: FeedEntry)
    ensures r.videoId == video.videoId && r.authorId == video.authorId && r.published == video.published
    ensures Find(channels, (c: ChannelInfo) => c.authorId == video.authorId).None? ==> r == video
    ensures Find(channels, (c: ChannelInfo) => c.authorId == video.authorId).Some? ==>
              var c := Find(channels, (c: ChannelInfo) => c.authorId == video.authorId).value;
              (c.authorThumbnailUrl.Some? && c.authorThumbnailUrl.value != "" ==>
                 r.authorThumbnailUrl == c.authorThumbnailUrl && r.authorThumbnails == video.authorThumbnails) &&
              (!(c.authorThumbnailUrl.Some? && c.authorThumbnailUrl.value != "") ==>
                 r.authorThumbnailUrl == video.authorThumbnailUrl &&
                 r.authorThumbnails == (if c.authorThumbnails.Some? then c.authorThumbnails else video.authorThumbnails)) &&
              r.authorVerified == (if c.authorVerified == Some(true) then Some(true) else video.authorVerified)
  {
    match Find(channels, (c: ChannelInfo) => c.authorId == video.authorId)
    case None => video
    case Some(c) =>
      var v1 :=
        if c.authorThumbnailUrl.Some? && c.authorThumbnailUrl.value != "" then
          video.(authorThumbnailUrl := c.authorThumbnailUrl)
        else if c.authorThumbnails.Some? then
          video.(authorThumbnails := c.authorThumbnails)
        else video;
      if c.authorVerified == Some(true) then v1.(authorVerified := Some(true)) else v1
  }

  /** The feed's `forEach`, which mutates each video in place. */
  method EnrichFeed(videos: array<FeedEntry>, channels: seq<ChannelInfo>)
    modifies videos
    ensures forall i :: 0 <= i < videos.Length ==> videos[i] == EnrichVideo(old(videos[i]), channels)
  {
    var i := 0;
    while i < videos.Length
      invariant i <= videos.Length
      invariant forall k :: 0 <= k < i ==> videos[k] == EnrichVideo(old(videos[k]), channels)
      invariant forall k :: i <= k < videos.Length ==> videos[k] == old(videos[k])
    {
      videos[i] := EnrichVideo(videos[i], channels);
      i := i + 1;
    }
  }

  /** Enriching twice from the same channels changes nothing more. */
  lemma EnrichIdempotent(video: FeedEntry, channels: seq<ChannelInfo>)
    ensures EnrichVideo(EnrichVideo(video, channels), channels) == EnrichVideo(video, channels)
  {
  }
}
