/**
 * The series screen's helpers: the status label, the YouTube id extractor,
 * the episode and trailer links, and the season selected after loading.
 */
module SeriesDetail {
  import opened Wrappers
  import opened Text
  import Links
  import VideoEmbed

  // ---------------------------------------------------------------- status

  /** `statusMap[status] || status`. */
  function StatusLabel(status: string): (r: string)
    ensures status == "ongoing" ==> r == "Em andamento"
    ensures status == "completed" ==> r == "Concluída"
    ensures status == "cancelled" ==> r == "Cancelada"
    ensures status == "upcoming" ==> r == "Em breve"
    ensures status !in {"ongoing", "completed", "cancelled", "upcoming"} ==> r == status
  {
    match status
    case "ongoing" => "Em andamento"
    case "completed" => "Concluída"
    case "cancelled" => "Cancelada"
    case "upcoming" => "Em breve"
    case _ => status
  }

  /** A label is never a status key, so labelling a label changes nothing. */
  lemma StatusLabelIdempotent(status: string)
    ensures StatusLabel(StatusLabel(status)) == StatusLabel(status)
  {
  }

  // ---------------------------------------------------------------- YouTube id

  /** `\w`. */
  predicate IsWordChar(c: char) {
    ('a' <= c <= 'z') || ('A' <= c <= 'Z') || IsDigit(c) || c == '_'
  }

  /** `[^#&?]` fails on these. */
  predicate IsIdStop(c: char) {
    c == '#' || c == '&' || c == '?'
  }

  /**
   * The length of the first alternative of
   * `(youtu.be\/|v\/|u\/\w\/|embed\/|watch\?v=|&v=)` that matches at `p`;
   * the `.` of `youtu.be` is any character but a line terminator.
   */
  function MarkerLen(s: string, p: nat): (r: Option<nat>)
    ensures r.Some? ==> 0 < r.value && p + r.value <= |s|
    ensures r.Some? ==> p < |s| && !VideoEmbed.IsLineTerminator(s[p])
  {
    if p + 9 <= |s| && s[p..p + 5] == "youtu" && !VideoEmbed.IsLineTerminator(s[p + 5])
       && s[p + 6..p + 9] == "be/" then Some(9)
    else if OccursAt(s, "v/", p) then Some(2)
    else if p + 4 <= |s| && s[p] == 'u' && s[p + 1] == '/' && IsWordChar(s[p + 2]) && s[p + 3] == '/' then Some(4)
    else if OccursAt(s, "embed/", p) then Some(6)
    else if OccursAt(s, "watch?v=", p) then Some(8)
    else if OccursAt(s, "&v=", p) then Some(3)
    else None
  }

  /** The rightmost position in `[0, p]` that passes `found`. */
  function Rightmost(found: nat -> bool, p: nat): (r: Option<nat>)
    ensures r.Some? ==> r.value <= p && found(r.value)
    decreases p
  {
    if found(p) then Some(p) else if p == 0 then None else Rightmost(found, p - 1)
  }

  /** No later position passes, and none at all when the search fails. */
  lemma {:induction false} RightmostIsRightmost(found: nat -> bool, p: nat)
    ensures match Rightmost(found, p)
      case Some(m) => forall q :: m < q <= p ==> !found(q)
      case None => forall q :: 0 <= q <= p ==> !found(q)
    decreases p
  {
    if !found(p) && p > 0 {
      RightmostIsRightmost(found, p - 1);
    }
  }

  /**
   * The rightmost position in `[0, p]` where a marker matches: the greedy
   * `^.*` before the group gives back as little as it can.
   */
  function MarkerFound(s: string): (found: nat -> bool)
    ensures forall q: nat :: found(q) == MarkerLen(s, q).Some?
  {
    (q: nat) => MarkerLen(s, q).Some?
  }

  function LastMarker(s: string, p: nat): (r: Option<nat>)
    ensures r.Some? ==> r.value <= p && MarkerLen(s, r.value).Some?
  {
    Rightmost(MarkerFound(s), p)
  }

  /** No marker at a later position, and none at all when the search fails. */
  lemma LastMarkerIsRightmost(s: string, p: nat)
    ensures match LastMarker(s, p)
      case Some(m) => forall q :: m < q <= p ==> MarkerLen(s, q).None?
      case None => forall q :: 0 <= q <= p ==> MarkerLen(s, q).None?
  {
    RightmostIsRightmost(MarkerFound(s), p);
  }

  /** The end of the longest run of `[^#&?]` starting at `i`. */
  function IdRunEnd(s: string, i: nat): (j: nat)
    requires i <= |s|
    ensures i <= j <= |s|
    ensures forall k :: i <= k < j ==> !IsIdStop(s[k])
    ensures j == |s| || IsIdStop(s[j])
    decreases |s| - i
  {
    if i == |s| || IsIdStop(s[i]) then i else IdRunEnd(s, i + 1)
  }

  /**
   * Group 2 of the match: the marker must start on the first line (`^.*`
   * does not cross a line terminator), and the id runs to the first '#',
   * '&' or '?'.
   */
  function Capture(url: string): (r: Option<string>)
    ensures r.Some? ==> forall k :: 0 <= k < |r.value| ==> !IsIdStop(r.value[k])
    ensures r.Some? ==> Contains(url, r.value)
  {
    match LastMarker(url, VideoEmbed.LineEnd(url, 0))
    case None => None
    case Some(p) =>
      var k := p + MarkerLen(url, p).value;
      var j := IdRunEnd(url, k);
      assert OccursAt(url, url[k..j], k);
      Some(url[k..j])
  }

  /** The regular expression matches exactly when some marker starts on the first line. */
  lemma CaptureIffMarker(url: string)
    ensures Capture(url).Some? <==>
      exists p :: 0 <= p <= VideoEmbed.LineEnd(url, 0) && MarkerLen(url, p).Some?
  {
    var e := VideoEmbed.LineEnd(url, 0);
    LastMarkerIsRightmost(url, e);
  }

  /** `extractYouTubeVideoId`: the captured id when it has exactly 11 characters. */
  function ExtractYouTubeVideoId(url: string): (r: Option<string>)
    ensures r.Some? <==> Capture(url).Some? && |Capture(url).value| == 11
    ensures r.Some? ==> r == Capture(url)
    ensures r.Some? ==> |r.value| == 11 && forall k :: 0 <= k < 11 ==> !IsIdStop(r.value[k])
  {
    var c := Capture(url);
    if c.Some? && |c.value| == 11 then c else None
  }

  /** No marker starts inside a run of word characters that reaches the end of `s`. */
  lemma NoMarkerInWordTail(s: string, from: nat, q: nat)
    requires from <= q <= |s|
    requires forall k :: from <= k < |s| ==> IsWordChar(s[k])
    ensures MarkerLen(s, q).None?
  {
    if q + 2 <= |s| {
      assert s[q + 1] != '/';
      assert s[q..q + 2][1] == s[q + 1];
    }
    if q + 3 <= |s| {
      assert s[q] != '&';
      assert s[q..q + 3][0] == s[q];
    }
    if q + 6 <= |s| {
      assert s[q..q + 6][5] == s[q + 5];
    }
    if q + 8 <= |s| {
      assert s[q..q + 8][5] == s[q + 5];
    }
    if q + 9 <= |s| {
      assert s[q + 6..q + 9][2] == s[q + 8];
    }
  }

  /** Every alternative starts with 'y', 'v/', 'u/', 'em', 'w' or '&'. */
  lemma NoMarkerAt(s: string, p: nat)
    requires p < |s| ==> s[p] != 'y' && s[p] != 'w' && s[p] != '&'
    requires p + 1 < |s| && (s[p] == 'v' || s[p] == 'u') ==> s[p + 1] != '/'
    requires p + 1 < |s| && s[p] == 'e' ==> s[p + 1] != 'm'
    ensures MarkerLen(s, p).None?
  {
    if p + 2 <= |s| {
      assert s[p..p + 2][0] == s[p] && s[p..p + 2][1] == s[p + 1];
    }
    if p + 3 <= |s| {
      assert s[p..p + 3][0] == s[p];
    }
    if p + 5 <= |s| {
      assert s[p..p + 5][0] == s[p];
    }
    if p + 6 <= |s| {
      assert s[p..p + 6][0] == s[p] && s[p..p + 6][1] == s[p + 1];
    }
    if p + 8 <= |s| {
      assert s[p..p + 8][0] == s[p];
    }
  }

  /** A short link to an 11-character id of word characters yields that id. */
  lemma ShortLinkYieldsId(id: string)
    requires |id| == 11 && forall k :: 0 <= k < 11 ==> IsWordChar(id[k])
    ensures ExtractYouTubeVideoId("youtu.be/" + id) == Some(id)
  {
    var s := "youtu.be/" + id;
    assert forall k :: 9 <= k < |s| ==> s[k] == id[k - 9];
    assert forall k :: 0 <= k < |s| ==> !VideoEmbed.IsLineTerminator(s[k]);
    assert VideoEmbed.LineEnd(s, 0) == |s|;
    forall q | 0 < q <= |s| ensures MarkerLen(s, q).None? {
      if q >= 9 {
        NoMarkerInWordTail(s, 9, q);
      } else {
        assert s[1] == 'o' && s[2] == 'u' && s[3] == 't' && s[4] == 'u';
        assert s[5] == '.' && s[6] == 'b' && s[7] == 'e' && s[8] == '/';
        NoMarkerAt(s, q);
      }
    }
    assert s[0..5] == "youtu" && s[6..9] == "be/";
    assert MarkerLen(s, 0) == Some(9);
    LastMarkerIsRightmost(s, |s|);
    assert LastMarker(s, |s|) == Some(0);
    assert IdRunEnd(s, 9) == |s|;
    assert s[9..|s|] == id;
  }

  // ---------------------------------------------------------------- links

  /**
   * `handlePlayEpisode`: nothing without a video URL; otherwise the trimmed
   * URL, with "https://" added unless it starts with "http://" or "https://".
   */
  function EpisodeUrl(videoUrl: Option<string>): (r: Option<string>)
    ensures r.Some? <==> Truthy(videoUrl)
    ensures r.Some? ==> StartsWith(r.value, "http://") || StartsWith(r.value, "https://")
    ensures r.Some? ==> var u := Trim(videoUrl.value);
      r.value == u || r.value == "https://" + u
  {
    if !Truthy(videoUrl) then None
    else
      var u := Trim(videoUrl.value);
      if StartsWith(u, "http://") || StartsWith(u, "https://") then Some(u)
      else Some("https://" + u)
  }

  /** A link made by the rule neither starts nor ends with white space. */
  lemma LinkEdges(u: string, r: string)
    requires u == [] || (!IsJsSpace(u[0]) && !IsJsSpace(u[|u| - 1]))
    requires r == u || r == "https://" + u
    requires StartsWith(r, "http://") || StartsWith(r, "https://")
    ensures r != [] && !IsJsSpace(r[0]) && !IsJsSpace(r[|r| - 1])
  {
    assert r[0] == 'h';
    if r != u && u != [] {
      assert r[|r| - 1] == u[|u| - 1];
    }
  }

  /** A trimmed link with a web scheme goes through the rule unchanged. */
  lemma EpisodeUrlOfLink(r: string)
    requires r != [] && Trim(r) == r
    requires StartsWith(r, "http://") || StartsWith(r, "https://")
    ensures EpisodeUrl(Some(r)) == Some(r)
  {
  }

  /** An episode link that went through the rule once goes through it again unchanged. */
  lemma EpisodeUrlStable(videoUrl: Option<string>)
    requires Truthy(videoUrl)
    ensures EpisodeUrl(EpisodeUrl(videoUrl)) == EpisodeUrl(videoUrl)
  {
    var r := EpisodeUrl(videoUrl).value;
    LinkEdges(Trim(videoUrl.value), r);
    TrimNoop(r);
    EpisodeUrlOfLink(r);
  }

  /** `handlePlayTrailer`'s link. */
  function TrailerUrl(trailer: Option<string>): (r: Option<string>)
    ensures r.Some? <==> Truthy(trailer)
    ensures r.Some? ==> StartsWith(r.value, "http")
  {
    Links.OpenTarget(trailer)
  }

  /**
   * The trailer rule leaves any link starting with "http" as it is, while the
   * episode rule prefixes it unless it starts with "http://" or "https://":
   * "httpx.example.com" is opened unprefixed as a trailer but prefixed as an
   * episode.
   */
  lemma TrailerAndEpisodeRulesDiffer(u: string)
    requires StartsWith(u, "http") && !IsJsSpace(u[|u| - 1])
    ensures TrailerUrl(Some(u)) == Some(u)
    ensures EpisodeUrl(Some(u)) == Some("https://" + u) <==>
      !StartsWith(u, "http://") && !StartsWith(u, "https://")
  {
    assert u[0] == u[..4][0] == 'h';
    TrimNoop(u);
  }

  // ---------------------------------------------------------------- seasons

  /** After seasons load, the first one is selected when there is one; otherwise the selection stays. */
  function SelectedAfterLoad<S>(seasons: seq<S>, selected: Option<S>): (r: Option<S>)
    ensures |seasons| > 0 ==> r == Some(seasons[0])
    ensures |seasons| == 0 ==> r == selected
  {
    if |seasons| > 0 then Some(seasons[0]) else selected
  }
}
