/** The instances store: the current instance, the list of known instances,
    their three mutations, and the post-processing `fetchInstances` applies
    to the published instance list. The HTTP request is a parameter: the
    response body, or nothing when the request fails. */
module Instances {
  import opened Wrappers
  import opened Text
  import opened Seqs

  /** Everything after this heading on the instance page is ignored. */
  const BlockedMarker: string := "### Blocked:"

  /** A link followed by this text is not taken. */
  const Offline: string := " - offline"

  /** Cutting a text where a pattern first occurs leaves no occurrence. */
  lemma CutBeforeFirst(s: string, k: nat, p: string)
    requires k <= |s| && |p| > 0
    requires forall j :: 0 <= j < k ==> !StartsWith(s[j..], p)
    ensures forall j :: 0 <= j <= k ==> !StartsWith(s[..k][j..], p)
  {
    forall j | 0 <= j <= k
      ensures !StartsWith(s[..k][j..], p)
    {
      if j + |p| <= k {
        assert s[..k][j..][..|p|] == s[j..][..|p|];
      }
    }
  }

  /** `data.split('### Blocked:')[0]`: the text before the first marker, or
      all of it when there is none. */
  function BeforeBlocked(s: string): (r: string)
    ensures |r| <= |s| && s[..|r|] == r
    ensures r == s || StartsWith(s[|r|..], BlockedMarker)
    ensures forall j :: 0 <= j <= |r| ==> !StartsWith(r[j..], BlockedMarker)
  {
    match IndexOf(s, BlockedMarker)
    case None =>
      s
    case Some(k) =>
      CutBeforeFirst(s, k, BlockedMarker);
      assert s[k..][..|BlockedMarker|] == s[k..k + |BlockedMarker|];
      s[..k]
  }

  // ---------------------------------------------------------------------
  // The link pattern `[host](uri)` not followed by ` - offline`

  /** `[^ \]]`: a host character. */
  predicate HostChar(c: char) {
    c != ' ' && c != ']'
  }

  /** `[^)]`: a uri character. */
  predicate UriChar(c: char) {
    c != ')'
  }

  /** The length of the longest run of host characters from `from`. */
  function HostRun(s: string, from: nat): (n: nat)
    requires from <= |s|
    ensures from + n <= |s|
    decreases |s| - from
  {
    if from < |s| && HostChar(s[from]) then 1 + HostRun(s, from + 1) else 0
  }

  /** Every character of the run qualifies, and the one after it does not. */
  lemma {:induction false} HostRunMaximal(s: string, from: nat)
    requires from <= |s|
    ensures forall k :: from <= k < from + HostRun(s, from) ==> HostChar(s[k])
    ensures from + HostRun(s, from) < |s| ==> !HostChar(s[from + HostRun(s, from)])
    decreases |s| - from
  {
    if from < |s| && HostChar(s[from]) {
      HostRunMaximal(s, from + 1);
    }
  }

  /** The length of the longest run of uri characters from `from`. */
  function UriRun(s: string, from: nat): (n: nat)
    requires from <= |s|
    ensures from + n <= |s|
    decreases |s| - from
  {
    if from < |s| && UriChar(s[from]) then 1 + UriRun(s, from + 1) else 0
  }

  /** Every character of the run qualifies, and the one after it does not. */
  lemma {:induction false} UriRunMaximal(s: string, from: nat)
    requires from <= |s|
    ensures forall k :: from <= k < from + UriRun(s, from) ==> UriChar(s[k])
    ensures from + UriRun(s, from) < |s| ==> !UriChar(s[from + UriRun(s, from)])
    decreases |s| - from
  {
    if from < |s| && UriChar(s[from]) {
      UriRunMaximal(s, from + 1);
    }
  }

  /** A run of host characters that ends at another character is the longest. */
  lemma {:induction false} HostRunExact(s: string, from: nat, n: nat)
    requires from + n < |s|
    requires forall k :: from <= k < from + n ==> HostChar(s[k])
    requires !HostChar(s[from + n])
    ensures HostRun(s, from) == n
    decreases n
  {
    if n > 0 {
      HostRunExact(s, from + 1, n - 1);
    }
  }

  /** A run of uri characters that ends at another character is the longest. */
  lemma {:induction false} UriRunExact(s: string, from: nat, n: nat)
    requires from + n < |s|
    requires forall k :: from <= k < from + n ==> UriChar(s[k])
    requires !UriChar(s[from + n])
    ensures UriRun(s, from) == n
    decreases n
  {
    if n > 0 {
      UriRunExact(s, from + 1, n - 1);
    }
  }

  /** `p[j..]` is written in `s` from position `e + j`. */
  predicate OccursAt(s: string, e: nat, p: string, j: nat)
    requires j <= |p|
    decreases |p| - j
  {
    if j == |p| then e + j <= |s| else e + j < |s| && s[e + j] == p[j] && OccursAt(s, e, p, j + 1)
  }

  /** Character by character, the same as `s[e..]` starting with `p`. */
  lemma {:induction false} OccursAtFrom(s: string, e: nat, p: string, j: nat)
    requires j <= |p|
    ensures OccursAt(s, e, p, j) <==> e + |p| <= |s| && forall m :: j <= m < |p| ==> s[e + m] == p[m]
    decreases |p| - j
  {
    if j < |p| {
      OccursAtFrom(s, e, p, j + 1);
      if e + |p| <= |s| {
        assert (forall m :: j <= m < |p| ==> s[e + m] == p[m]) <==>
               s[e + j] == p[j] && forall m :: j + 1 <= m < |p| ==> s[e + m] == p[m];
      }
    }
  }

  lemma OccursAtStartsWith(s: string, e: nat, p: string)
    requires e <= |s|
    ensures OccursAt(s, e, p, 0) <==> StartsWith(s[e..], p)
  {
    OccursAtFrom(s, e, p, 0);
    if e + |p| <= |s| {
      assert forall m :: 0 <= m < |p| ==> s[e..][..|p|][m] == s[e + m];
    }
  }

  /** A match of the pattern at position `i`, with its two groups and the
      position one past the closing parenthesis. */
  datatype Link = Link(start: nat, host: string, uri: string, end: nat)

  /** The pattern matches at `i` with these groups: a non-empty host of host
      characters in brackets, a non-empty uri of uri characters in
      parentheses, and no ` - offline` right after. */
  predicate LinkAt(s: string, i: nat, host: string, uri: string) {
    var e := i + |host| + |uri| + 4;
    |host| > 0 && |uri| > 0 &&
    (forall k :: 0 <= k < |host| ==> HostChar(host[k])) &&
    (forall k :: 0 <= k < |uri| ==> UriChar(uri[k])) &&
    e <= |s| && s[i..e] == "[" + host + "](" + uri + ")" &&
    !StartsWith(s[e..], Offline)
  }

  /** Matching the pattern at exactly position `i`. */
  function MatchAt(s: string, i: nat): (r: Option<Link>)
    requires i <= |s|
    ensures r.Some? ==> r.value.start == i && r.value.end == i + |r.value.host| + |r.value.uri| + 4
  {
    if i < |s| && s[i] == '[' then
      var hn := HostRun(s, i + 1);
      var j := i + 1 + hn;
      if hn > 0 && j + 1 < |s| && s[j] == ']' && s[j + 1] == '(' then
        var un := UriRun(s, j + 2);
        var k := j + 2 + un;
        if un > 0 && k < |s| && s[k] == ')' && !OccursAt(s, k + 1, Offline, 0) then
          Some(Link(i, s[i + 1..j], s[j + 2..k], k + 1))
        else
          None
      else
        None
    else
      None
  }

  /** The link `[host](uri)` laid out character by character from `i`. */
  predicate Written(s: string, i: nat, host: string, uri: string) {
    var j := i + 1 + |host|;
    var e := j + 3 + |uri|;
    e <= |s| && s[i] == '[' && s[i + 1..j] == host && s[j] == ']' && s[j + 1] == '(' &&
    s[j + 2..e - 1] == uri && s[e - 1] == ')'
  }

  /** The link text at `i` gives its character layout. */
  lemma TextWritten(s: string, i: nat, host: string, uri: string)
    requires i + |host| + |uri| + 4 <= |s|
    requires s[i..i + |host| + |uri| + 4] == "[" + host + "](" + uri + ")"
    ensures Written(s, i, host, uri)
  {
    var j := i + 1 + |host|;
    var e := i + |host| + |uri| + 4;
    var w := "[" + host + "](" + uri + ")";
    assert forall k :: 0 <= k < |w| ==> s[i + k] == w[k];
    assert s[i + 1..j] == w[1..1 + |host|] == host;
    assert s[j + 2..e - 1] == w[|host| + 3..|w| - 1] == uri;
  }

  /** The character layout at `i` is the link text. */
  lemma WrittenTextBack(s: string, i: nat, host: string, uri: string)
    requires Written(s, i, host, uri)
    ensures s[i..i + |host| + |uri| + 4] == "[" + host + "](" + uri + ")"
  {
    var j := i + 1 + |host|;
    var e := i + |host| + |uri| + 4;
    assert s[i..e] == [s[i]] + s[i + 1..j] + [s[j], s[j + 1]] + s[j + 2..e - 1] + [s[e - 1]];
  }

  /** A link laid out at `i`, with qualifying groups and no ` - offline`
      after it, is a link written there. */
  lemma WrittenLinkAt(s: string, i: nat, host: string, uri: string)
    requires Written(s, i, host, uri) && |host| > 0 && |uri| > 0
    requires forall k :: 0 <= k < |host| ==> HostChar(host[k])
    requires forall k :: 0 <= k < |uri| ==> UriChar(uri[k])
    requires !OccursAt(s, i + |host| + |uri| + 4, Offline, 0)
    ensures LinkAt(s, i, host, uri)
  {
    WrittenTextBack(s, i, host, uri);
    OccursAtStartsWith(s, i + |host| + |uri| + 4, Offline);
  }

  /** What `MatchAt` finds is laid out at `i` with qualifying groups. */
  lemma MatchAtFacts(s: string, i: nat)
    requires i <= |s| && MatchAt(s, i).Some?
    ensures var m := MatchAt(s, i).value;
            Written(s, i, m.host, m.uri) && |m.host| > 0 && |m.uri| > 0 &&
            (forall k :: 0 <= k < |m.host| ==> HostChar(m.host[k])) &&
            (forall k :: 0 <= k < |m.uri| ==> UriChar(m.uri[k])) &&
            !OccursAt(s, m.end, Offline, 0)
  {
    var m := MatchAt(s, i).value;
    var j := i + 1 + |m.host|;
    HostRunMaximal(s, i + 1);
    UriRunMaximal(s, j + 2);
    assert forall k :: 0 <= k < |m.host| ==> m.host[k] == s[i + 1 + k];
    assert forall k :: 0 <= k < |m.uri| ==> m.uri[k] == s[j + 2 + k];
  }

  /** What `MatchAt` finds is a link written at `i`. */
  lemma MatchAtSound(s: string, i: nat)
    requires i <= |s| && MatchAt(s, i).Some?
    ensures LinkAt(s, i, MatchAt(s, i).value.host, MatchAt(s, i).value.uri)
  {
    MatchAtFacts(s, i);
    WrittenLinkAt(s, i, MatchAt(s, i).value.host, MatchAt(s, i).value.uri);
  }

  /** `MatchAt` in terms of the two run lengths and the delimiters. */
  lemma MatchAtShape(s: string, i: nat, h: nat, u: nat)
    requires h > 0 && u > 0 && i + h + u + 4 <= |s|
    requires s[i] == '[' && HostRun(s, i + 1) == h && s[i + 1 + h] == ']' && s[i + 2 + h] == '('
    requires UriRun(s, i + 3 + h) == u && s[i + 3 + h + u] == ')' && !OccursAt(s, i + 4 + h + u, Offline, 0)
    ensures MatchAt(s, i) == Some(Link(i, s[i + 1..i + 1 + h], s[i + 3 + h..i + 3 + h + u], i + 4 + h + u))
  {
  }

  /** What a link written at `i` says about the runs and delimiters there. */
  lemma LinkAtFacts(s: string, i: nat, host: string, uri: string)
    requires i <= |s| && LinkAt(s, i, host, uri)
    ensures var h, u := |host|, |uri|;
            h > 0 && u > 0 && i + h + u + 4 <= |s| &&
            s[i] == '[' && HostRun(s, i + 1) == h && s[i + 1 + h] == ']' && s[i + 2 + h] == '(' &&
            UriRun(s, i + 3 + h) == u && s[i + 3 + h + u] == ')' && !OccursAt(s, i + 4 + h + u, Offline, 0) &&
            s[i + 1..i + 1 + h] == host && s[i + 3 + h..i + 3 + h + u] == uri
  {
    var j := i + 1 + |host|;
    var k := j + 2 + |uri|;
    TextWritten(s, i, host, uri);
    assert forall p :: i + 1 <= p < j ==> s[p] == host[p - i - 1];
    assert forall p :: j + 2 <= p < k ==> s[p] == uri[p - j - 2];
    HostRunExact(s, i + 1, |host|);
    UriRunExact(s, j + 2, |uri|);
    OccursAtStartsWith(s, k + 1, Offline);
  }

  /** A link written at `i` is what `MatchAt` finds there: the groups are
      the only ones the pattern could have. */
  lemma MatchAtComplete(s: string, i: nat, host: string, uri: string)
    requires i <= |s| && LinkAt(s, i, host, uri)
    ensures MatchAt(s, i) == Some(Link(i, host, uri, i + |host| + |uri| + 4))
  {
    LinkAtFacts(s, i, host, uri);
    MatchAtShape(s, i, |host|, |uri|);
  }

  /** `[...data.matchAll(regex)]`: the matches from position `i` on, each
      scan resuming at the end of the previous match. */
  function MatchAll(s: string, i: nat): (r: seq<Link>)
    requires i <= |s|
    ensures forall k :: 0 <= k < |r| ==> i <= r[k].start < r[k].end <= |s|
    ensures forall k :: 0 <= k < |r| - 1 ==> r[k].end <= r[k + 1].start
    decreases |s| - i
  {
    if i == |s| then
      []
    else
      match MatchAt(s, i)
      case Some(m) =>
        [m] + MatchAll(s, m.end)
      case None =>
        MatchAll(s, i + 1)
  }

  /** Each match found is what `MatchAt` finds at its start. */
  lemma {:induction false} MatchAllFound(s: string, i: nat)
    requires i <= |s|
    ensures forall k :: 0 <= k < |MatchAll(s, i)| ==> MatchAt(s, MatchAll(s, i)[k].start) == Some(MatchAll(s, i)[k])
    decreases |s| - i
  {
    if i < |s| {
      match MatchAt(s, i)
      case Some(m) =>
        MatchAllFound(s, m.end);
        var rest := MatchAll(s, m.end);
        assert MatchAll(s, i) == [m] + rest;
      case None =>
        MatchAllFound(s, i + 1);
    }
  }

  /** The pattern matches at no position from `lo` up to, not including, `hi`. */
  predicate NoMatchIn(s: string, lo: nat, hi: nat) {
    forall p :: lo <= p < hi && p <= |s| ==> MatchAt(s, p).None?
  }

  /** Where the first match found from `i` starts, or past the end. */
  function FirstStart(s: string, i: nat): nat
    requires i <= |s|
  {
    var r := MatchAll(s, i);
    if |r| == 0 then |s| + 1 else r[0].start
  }

  /** No match starts before the first one found. */
  lemma {:induction false} GapBefore(s: string, i: nat)
    requires i <= |s|
    ensures NoMatchIn(s, i, FirstStart(s, i))
    decreases |s| - i
  {
    if i < |s| {
      match MatchAt(s, i)
      case Some(m) =>
        assert MatchAll(s, i)[0] == m;
      case None =>
        GapBefore(s, i + 1);
        assert MatchAll(s, i) == MatchAll(s, i + 1);
        assert FirstStart(s, i) == FirstStart(s, i + 1);
    }
  }

  /** The pattern matches nowhere between consecutive links of `r`. */
  predicate GapsBetween(s: string, r: seq<Link>) {
    forall k :: 0 <= k < |r| - 1 ==> NoMatchIn(s, r[k].end, r[k + 1].start)
  }

  /** A link in front of a list keeps the gaps clear when the stretch up to
      the list's first link is clear. */
  lemma ConsGaps(s: string, m: Link, rest: seq<Link>)
    requires GapsBetween(s, rest)
    requires |rest| > 0 ==> NoMatchIn(s, m.end, rest[0].start)
    ensures GapsBetween(s, [m] + rest)
  {
    var r := [m] + rest;
    forall k | 0 <= k < |r| - 1
      ensures NoMatchIn(s, r[k].end, r[k + 1].start)
    {
      if k > 0 {
        assert r[k] == rest[k - 1] && r[k + 1] == rest[k];
      }
    }
  }

  /** The matches from `i` are the one at `i` followed by those after it. */
  lemma MatchAllCons(s: string, i: nat, m: Link)
    requires i <= |s| && MatchAt(s, i) == Some(m)
    ensures MatchAll(s, i) == [m] + MatchAll(s, m.end)
  {
  }

  /** No match starts between two consecutive ones found. */
  lemma {:induction false} GapBetween(s: string, i: nat)
    requires i <= |s|
    ensures GapsBetween(s, MatchAll(s, i))
    decreases |s| - i
  {
    if i < |s| {
      match MatchAt(s, i)
      case Some(m) =>
        GapBetween(s, m.end);
        GapBefore(s, m.end);
        MatchAllCons(s, i, m);
        ConsGaps(s, m, MatchAll(s, m.end));
      case None =>
        GapBetween(s, i + 1);
        assert MatchAll(s, i) == MatchAll(s, i + 1);
    }
  }

  /** No match starts after the last one found. */
  lemma {:induction false} GapAfter(s: string, i: nat)
    requires i <= |s| && |MatchAll(s, i)| > 0
    ensures NoMatchIn(s, MatchAll(s, i)[|MatchAll(s, i)| - 1].end, |s| + 1)
    decreases |s| - i
  {
    var r := MatchAll(s, i);
    match MatchAt(s, i)
    case Some(m) =>
      var rest := MatchAll(s, m.end);
      assert r == [m] + rest;
      if |rest| == 0 {
        GapBefore(s, m.end);
        assert r[|r| - 1] == m;
      } else {
        GapAfter(s, m.end);
        assert r[|r| - 1] == rest[|rest| - 1];
      }
    case None =>
      GapAfter(s, i + 1);
      assert r == MatchAll(s, i + 1);
  }

  /** Every match is a link written in the text, and every link written
      in the text is a match or starts strictly inside one. */
  lemma MatchAllSound(s: string)
    ensures forall k :: 0 <= k < |MatchAll(s, 0)| ==>
              LinkAt(s, MatchAll(s, 0)[k].start, MatchAll(s, 0)[k].host, MatchAll(s, 0)[k].uri)
    ensures forall p, host, uri :: 0 <= p <= |s| && LinkAt(s, p, host, uri) ==>
              Link(p, host, uri, p + |host| + |uri| + 4) in MatchAll(s, 0) ||
              exists k :: 0 <= k < |MatchAll(s, 0)| && MatchAll(s, 0)[k].start < p < MatchAll(s, 0)[k].end
  {
    var r := MatchAll(s, 0);
    MatchAllFound(s, 0);
    forall k | 0 <= k < |r|
      ensures LinkAt(s, r[k].start, r[k].host, r[k].uri)
    {
      MatchAtSound(s, r[k].start);
    }
    forall p, host, uri | 0 <= p <= |s| && LinkAt(s, p, host, uri)
      ensures Link(p, host, uri, p + |host| + |uri| + 4) in r ||
              exists k :: 0 <= k < |r| && r[k].start < p < r[k].end
    {
      MatchAtComplete(s, p, host, uri);
      Covered(s, r, p);
    }
  }

  /** A position where `MatchAt` succeeds is a match's start or lies
      strictly inside a match. */
  lemma Covered(s: string, r: seq<Link>, p: nat)
    requires p <= |s| && r == MatchAll(s, 0) && MatchAt(s, p).Some?
    ensures MatchAt(s, p).value in r || exists k :: 0 <= k < |r| && r[k].start < p < r[k].end
  {
    GapBefore(s, 0);
    assert |r| > 0 && r[0].start <= p;
    GapBetween(s, 0);
    GapAfter(s, 0);
    var k := LastStartingBefore(r, p);
    assert NoMatchIn(s, r[k].end, if k + 1 < |r| then r[k + 1].start else |s| + 1);
    if r[k].start == p {
      MatchAllFound(s, 0);
      assert r[k] == MatchAt(s, p).value;
    } else {
      assert r[k].start < p < r[k].end;
    }
  }

  /** The last link starting at or before `p`, for a position at or after
      the first start. */
  function LastStartingBefore(r: seq<Link>, p: nat): (k: nat)
    requires |r| > 0 && r[0].start <= p
    ensures k < |r| && r[k].start <= p
    ensures k + 1 < |r| ==> p < r[k + 1].start
    decreases |r|
  {
    if |r| == 1 || p < r[1].start then 0 else 1 + LastStartingBefore(r[1..], p)
  }

  // ---------------------------------------------------------------------
  // Post-processing the matched uris

  /** Neither a Tor nor an I2P address: `.onion` and `.i2p` occur at no
      position of the uri. */
  predicate Kept(uri: string): (kept: bool)
    ensures kept <==> forall i: nat :: i <= |uri| ==> !StartsWith(uri[i..], ".onion") && !StartsWith(uri[i..], ".i2p")
  {
    ContainsIff(uri, ".onion");
    ContainsIff(uri, ".i2p");
    !Contains(uri, ".onion") && !Contains(uri, ".i2p")
  }

  /** One trailing '/' removed, if present. */
  function StripSlash(uri: string): (r: string)
    ensures EndsWith(uri, "/") ==> r + "/" == uri
    ensures !EndsWith(uri, "/") ==> r == uri
  {
    if EndsWith(uri, "/") then uri[..|uri| - 1] else uri
  }

  /** The uri group of each match. */
  function Uris(links: seq<Link>): (r: seq<string>)
    ensures |r| == |links| && forall k :: 0 <= k < |r| ==> r[k] == links[k].uri
  {
    seq(|links|, k requires 0 <= k < |links| => links[k].uri)
  }

  /** The instances the loop adds for these uris, in order. */
  function KeptInstances(uris: seq<string>): (r: seq<string>)
    ensures |r| <= |uris|
    decreases |uris|
  {
    if |uris| == 0 then []
    else
      var last := uris[|uris| - 1];
      KeptInstances(uris[..|uris| - 1]) + (if Kept(last) then [StripSlash(last)] else [])
  }

  /** `uri` is the uri of some link written in `text`. */
  ghost predicate LinkUri(text: string, uri: string) {
    exists q: nat, host :: LinkAt(text, q, host, uri)
  }

  /** The uris of the matches in the page text before the blocked list:
      each is the uri of a link there. */
  function PageUris(data: string): (r: seq<string>)
    ensures forall k :: 0 <= k < |r| ==> LinkUri(BeforeBlocked(data), r[k])
  {
    var text := BeforeBlocked(data);
    var links := MatchAll(text, 0);
    MatchAllFound(text, 0);
    forall k | 0 <= k < |links|
      ensures LinkUri(text, links[k].uri)
    {
      MatchAtSound(text, links[k].start);
    }
    Uris(links)
  }

  /** The instance list `fetchInstances` builds from a response body: the
      page's uris without `.onion` or `.i2p`, in order, each with one
      trailing slash removed. */
  function InstanceList(data: string): (r: seq<string>)
    ensures |r| == |Filter(PageUris(data), Kept)|
    ensures forall k :: 0 <= k < |r| ==> r[k] == StripSlash(Filter(PageUris(data), Kept)[k])
    ensures forall x :: x in r ==> Kept(x)
  {
    KeptInstancesFilter(PageUris(data));
    NoHiddenServices(PageUris(data));
    KeptInstances(PageUris(data))
  }

  /** The kept instances are the kept uris, in their order, each with one
      trailing slash removed. */
  lemma {:induction false} KeptInstancesFilter(uris: seq<string>)
    ensures |KeptInstances(uris)| == |Filter(uris, Kept)|
    ensures forall k :: 0 <= k < |KeptInstances(uris)| ==> KeptInstances(uris)[k] == StripSlash(Filter(uris, Kept)[k])
    decreases |uris|
  {
    if |uris| > 0 {
      KeptInstancesFilter(uris[..|uris| - 1]);
    }
  }

  /** A uri without '.onion' or '.i2p' keeps that after its slash is removed. */
  lemma StripSlashKept(uri: string)
    requires Kept(uri)
    ensures Kept(StripSlash(uri))
  {
    if EndsWith(uri, "/") {
      var r := StripSlash(uri);
      assert uri[..|r|] == r;
      if Contains(r, ".onion") {
        ContainsOfPrefix(uri, |r|, ".onion");
      }
      if Contains(r, ".i2p") {
        ContainsOfPrefix(uri, |r|, ".i2p");
      }
    }
  }

  /** No instance added holds '.onion' or '.i2p'. */
  lemma {:induction false} NoHiddenServices(uris: seq<string>)
    ensures forall x :: x in KeptInstances(uris) ==> Kept(x)
    decreases |uris|
  {
    if |uris| > 0 {
      NoHiddenServices(uris[..|uris| - 1]);
      var last := uris[|uris| - 1];
      if Kept(last) {
        StripSlashKept(last);
      }
    }
  }

  /** Exactly one trailing slash goes: `https://a.example//` keeps one. */
  lemma OneSlashOnly()
    ensures StripSlash("a//") == "a/"
    ensures StripSlash("a") == "a"
  {
    assert EndsWith("a//", "/");
    assert !EndsWith("a", "/");
  }

  // ---------------------------------------------------------------------
  // The store

  class InstancesStore {
    var currentInstance: string
    var instances: seq<string>

    /** The initial state: no current instance and no instances. */
    constructor()
      ensures currentInstance == "" && instances == []
    {
      currentInstance := "";
      instances := [];
    }

    /** `changeInstance` */
    method ChangeInstance(instance: string)
      modifies this`currentInstance
      ensures currentInstance == instance
    {
      currentInstance := instance;
    }

    /** `addInstance`: append at the end. */
    method AddInstance(instance: string)
      modifies this`instances
      ensures instances == old(instances) + [instance]
    {
      instances := instances + [instance];
    }

    /** `clearInstances` */
    method ClearInstances()
      modifies this`instances
      ensures instances == []
    {
      instances := [];
    }

    /** `fetchInstances`, with the response body given (`None` when the
        request fails). The list is cleared first; then each matched uri
        that is not a hidden service is added, one trailing slash removed;
        an empty current instance becomes the first match's raw uri.
        `failed` is set when there is no match to take it from, where the
        source's callback throws on `matches[0]`. */
    method FetchInstances(response: Option<string>) returns (failed: bool)
      modifies this
      ensures response.None? ==> instances == [] && currentInstance == old(currentInstance) && !failed
      ensures response.Some? ==> instances == InstanceList(response.value)
      ensures response.Some? && old(currentInstance) != "" ==>
                currentInstance == old(currentInstance) && !failed
      ensures response.Some? && old(currentInstance) == "" ==>
                (failed <==> |PageUris(response.value)| == 0) &&
                (!failed ==> currentInstance == PageUris(response.value)[0]) &&
                (failed ==> currentInstance == "")
    {
      failed := false;
      ClearInstances();
      if response.None? {
        return;
      }
      var matches := MatchAll(BeforeBlocked(response.value), 0);
      ghost var uris := Uris(matches);
      for k := 0 to |matches|
        invariant instances == KeptInstances(uris[..k])
        invariant currentInstance == old(currentInstance)
      {
        assert uris[..k + 1][..k] == uris[..k];
        var uri := matches[k].uri;
        if !Contains(uri, ".onion") && !Contains(uri, ".i2p") {
          if EndsWith(uri, "/") {
            AddInstance(uri[..|uri| - 1]);
          } else {
            AddInstance(uri);
          }
        }
      }
      assert uris[..|matches|] == uris;
      if |currentInstance| == 0 {
        if |matches| == 0 {
          failed := true;
        } else {
          ChangeInstance(matches[0].uri);
        }
      }
    }
  }
}
