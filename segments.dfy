/** The segment-skip decision data shared by both player generations:
    segments with a category and a `[start, end]` pair, the viewer's
    per-category policy, and the lookup of the segment playing at a time.
    The segment source itself (fetching, caching) is not part of this model. */
module SegmentSkip {
  import opened Wrappers
  import opened Seqs

  /** One skippable range: `{category, segment: [startTime, endTime]}`. */
  datatype Segment = Segment(category: string, startTime: real, endTime: real)

  /** The per-category setting `sponsorblock_<category>`: `skip`, `ask`, or
      anything else (`none`, unset), which triggers nothing. */
  datatype Policy = Skip | Ask | Ignore

  /** True when `time` falls in the segment, start inclusive, end exclusive. */
  predicate Covers(s: Segment, time: real) {
    s.startTime <= time < s.endTime
  }

  /** Segment `k` covers `time` and no earlier one does. */
  predicate FirstCovering(segments: seq<Segment>, time: real, k: nat) {
    k < |segments| && Covers(segments[k], time) && forall j :: 0 <= j < k ==> !Covers(segments[j], time)
  }

  /** `getCurrentSegment(time)`: the first segment, in fetch order, that covers `time`. */
  function CurrentSegment(segments: seq<Segment>, time: real): (r: Option<Segment>)
    ensures r.Some? ==> r.value in segments && Covers(r.value, time)
    ensures r.None? <==> forall s :: s in segments ==> !Covers(s, time)
    ensures r.Some? ==> exists k: nat :: FirstCovering(segments, time, k) && r.value == segments[k]
    ensures forall k: nat :: FirstCovering(segments, time, k) ==> r == Some(segments[k])
  {
    var p := s => Covers(s, time);
    var r := Find(segments, p);
    if r.Some? then
      assert FirstCovering(segments, time, FindIndex(segments, p).value);
      r
    else r
  }

  /** The segment found is the first covering one: no earlier segment covers `time`. */
  lemma CurrentSegmentIsFirst(segments: seq<Segment>, time: real, k: nat)
    requires k < |segments| && Covers(segments[k], time)
    ensures CurrentSegment(segments, time).Some?
    ensures exists j :: 0 <= j <= k && segments[j] == CurrentSegment(segments, time).value
  {
    var i := FindIndex(segments, s => Covers(s, time));
    assert (s => Covers(s, time))(segments[k]);
    assert i.Some? && i.value <= k;
  }

  /** `getSegmentState(category)`: the configured policy, `Ignore` when unset. */
  function PolicyFor(settings: map<string, Policy>, category: string): (p: Policy)
    ensures category !in settings ==> p == Ignore
    ensures category in settings ==> p == settings[category]
  {
    if category in settings then settings[category] else Ignore
  }

  /** With an `ads` segment at 10-20 s and a `sponsor` segment at 50-70 s,
      time 15 is in `ads`, 55 in `sponsor`, 25 in nothing, and 70 in nothing
      because ends are exclusive. */
  lemma ExampleLookups()
    ensures CurrentSegment([Segment("ads", 10.0, 20.0), Segment("sponsor", 50.0, 70.0)], 15.0)
              == Some(Segment("ads", 10.0, 20.0))
    ensures CurrentSegment([Segment("ads", 10.0, 20.0), Segment("sponsor", 50.0, 70.0)], 25.0) == None
    ensures CurrentSegment([Segment("ads", 10.0, 20.0), Segment("sponsor", 50.0, 70.0)], 70.0) == None
    ensures CurrentSegment([Segment("ads", 10.0, 20.0), Segment("sponsor", 50.0, 70.0)], 55.0)
              == Some(Segment("sponsor", 50.0, 70.0))
  {
  }
}
