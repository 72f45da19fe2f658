/**
 * The video modal's source resolution: YouTube, then Vimeo, then Panda Videos,
 * first match wins; the modal's own YouTube id; and the WebView request filter.
 *
 * The regular expressions are modelled by the scans they perform. An unanchored
 * pattern matches at the leftmost position where it can; `[^&\n?#]+` and `\d+`
 * take the longest run; `.*` never crosses a line terminator and, being greedy,
 * makes `(?:.*\/)?` pick the last '/' on the line that is followed by a digit.
 */
module VideoEmbed {
  import opened Wrappers
  import opened Text

  // ---------------------------------------------------------------- YouTube

  /** The characters `[^&\n?#]` refuses. */
  predicate IsIdStop(c: char) {
    c == '&' || c == '\n' || c == '?' || c == '#'
  }

  predicate NoIdStop(s: string) {
    forall i :: 0 <= i < |s| ==> !IsIdStop(s[i])
  }

  /** The end of the longest run of id characters that starts at `i`. */
  function IdRunEnd(s: string, i: nat): (j: nat)
    requires i <= |s|
    ensures i <= j <= |s|
    ensures NoIdStop(s[i..j])
    ensures j == |s| || IsIdStop(s[j])
    decreases |s| - i
  {
    if i == |s| || IsIdStop(s[i]) then i else IdRunEnd(s, i + 1)
  }

  const YouTubeMarkers: seq<string> := ["youtube.com/watch?v=", "youtu.be/", "youtube.com/embed/"]

  /** Marker `m` occurs at `i` and is followed by at least one id character. */
  predicate CaptureStartsAt(s: string, m: string, i: nat) {
    OccursAt(s, m, i) && i + |m| < |s| && !IsIdStop(s[i + |m|])
  }

  /** The first alternative of `markers` that matches at `i`; the result is where its capture starts. */
  function MarkerAt(s: string, markers: seq<string>, i: nat): (r: Option<nat>)
    ensures r.None? <==> forall k :: 0 <= k < |markers| ==> !CaptureStartsAt(s, markers[k], i)
    ensures r.Some? ==> r.value < |s| && !IsIdStop(s[r.value])
    decreases |markers|
  {
    if markers == [] then None
    else if CaptureStartsAt(s, markers[0], i) then Some(i + |markers[0]|)
    else MarkerAt(s, markers[1..], i)
  }

  /**
   * `(?:m1|m2|...)([^&\n?#]+)` searched from position `i`: the capture at the
   * leftmost position where an alternative matches. It is never empty and holds
   * none of the stop characters, and there is none only when no position matches.
   */
  function CaptureFrom(s: string, markers: seq<string>, i: nat): (r: Option<string>)
    requires i <= |s|
    ensures r.Some? ==> r.value != [] && NoIdStop(r.value)
    decreases |s| - i
  {
    match MarkerAt(s, markers, i)
    case Some(k) =>
      var e := IdRunEnd(s, k);
      assert k < e;
      Some(s[k..e])
    case None => if i == |s| then None else CaptureFrom(s, markers, i + 1)
  }

  predicate NoMatchFrom(s: string, markers: seq<string>, i: nat) {
    forall j :: i <= j <= |s| ==> MarkerAt(s, markers, j).None?
  }

  /** There is no capture exactly when no position at or after `i` matches. */
  lemma {:induction false} NoCaptureMeansNoMatch(s: string, markers: seq<string>, i: nat)
    requires i <= |s|
    ensures CaptureFrom(s, markers, i).None? <==> NoMatchFrom(s, markers, i)
    decreases |s| - i
  {
    if MarkerAt(s, markers, i).None? && i < |s| {
      NoCaptureMeansNoMatch(s, markers, i + 1);
      assert CaptureFrom(s, markers, i) == CaptureFrom(s, markers, i + 1);
      if CaptureFrom(s, markers, i).None? {
        forall j | i <= j <= |s| ensures MarkerAt(s, markers, j).None? {
          if j > i { assert i + 1 <= j <= |s|; }
        }
      }
    } else if MarkerAt(s, markers, i).Some? {
      assert CaptureFrom(s, markers, i).Some?;
      assert !(forall j :: i <= j <= |s| ==> MarkerAt(s, markers, j).None?) by {
        assert i <= i <= |s| && !MarkerAt(s, markers, i).None?;
      }
    } else {
      assert i == |s|;
      assert CaptureFrom(s, markers, i).None?;
    }
  }

  /** The second pattern of `getYouTubeEmbedUrl`, `youtu\.be\/(...)`, never finds what the first missed. */
  lemma ShortLinkPatternRedundant(url: string)
    ensures CaptureFrom(url, YouTubeMarkers, 0).None? ==> CaptureFrom(url, ["youtu.be/"], 0).None?
  {
    NoCaptureMeansNoMatch(url, YouTubeMarkers, 0);
    NoCaptureMeansNoMatch(url, ["youtu.be/"], 0);
    forall j | 0 <= j <= |url| && CaptureFrom(url, YouTubeMarkers, 0).None?
      ensures MarkerAt(url, ["youtu.be/"], j).None?
    {
      assert MarkerAt(url, YouTubeMarkers, j).None?;
      assert !CaptureStartsAt(url, YouTubeMarkers[1], j);
    }
  }

  /** The id `getYouTubeEmbedUrl` accepts: the capture, only when it is exactly 11 characters long. */
  function YouTubeVideoId(url: string): (r: Option<string>)
    ensures r.Some? ==> |r.value| == 11 && NoIdStop(r.value)
    ensures r.Some? ==> CaptureFrom(url, YouTubeMarkers, 0) == r
    ensures r.None? ==> CaptureFrom(url, YouTubeMarkers, 0).None? || |CaptureFrom(url, YouTubeMarkers, 0).value| != 11
  {
    var first := CaptureFrom(url, YouTubeMarkers, 0);
    var id := if first.Some? then first else CaptureFrom(url, ["youtu.be/"], 0);
    ShortLinkPatternRedundant(url);
    if id.Some? && |id.value| == 11 then
      Some(BeforeChar(BeforeChar(id.value, '&'), '?'))
    else None
  }

  const YouTubeEmbedBase := "https://www.youtube.com/embed/"
  const YouTubeEmbedParams := "?autoplay=1&rel=0&modestbranding=1&playsinline=1&enablejsapi=1&controls=1&fs=1&iv_load_policy=3&cc_load_policy=0"

  /** The shape of every YouTube embed URL the resolver produces. */
  predicate IsYouTubeEmbed(u: string) {
    && |u| == |YouTubeEmbedBase| + 11 + |YouTubeEmbedParams|
    && u[..|YouTubeEmbedBase|] == YouTubeEmbedBase
    && u[|YouTubeEmbedBase| + 11..] == YouTubeEmbedParams
    && NoIdStop(u[|YouTubeEmbedBase|..|YouTubeEmbedBase| + 11])
  }

  /** The id inside an embed URL of that shape. */
  function EmbeddedYouTubeId(u: string): string
    requires IsYouTubeEmbed(u)
  {
    u[|YouTubeEmbedBase|..|YouTubeEmbedBase| + 11]
  }

  /** `getYouTubeEmbedUrl`: an embed URL whose id is the accepted 11-character id. */
  function YouTubeEmbedUrl(url: string): (r: Option<string>)
    ensures r.Some? <==> YouTubeVideoId(url).Some?
    ensures r.Some? ==> IsYouTubeEmbed(r.value) && EmbeddedYouTubeId(r.value) == YouTubeVideoId(url).value
  {
    match YouTubeVideoId(url)
    case Some(id) =>
      var u := YouTubeEmbedBase + id + YouTubeEmbedParams;
      assert u[|YouTubeEmbedBase|..|YouTubeEmbedBase| + 11] == id;
      Some(u)
    case None => None
  }

  // ---------------------------------------------------------------- Vimeo

  const VimeoMarker := "vimeo.com/"
  const VimeoPlayerBase := "https://player.vimeo.com/video/"
  const VimeoPlayerParams := "?autoplay=1"

  /** The characters `.` does not match. */
  predicate IsLineTerminator(c: char) {
    c == '\n' || c == '\r' || c == '\U{2028}' || c == '\U{2029}'
  }

  /** The first line terminator at or after `k`, or the end of `s`. */
  function LineEnd(s: string, k: nat): (e: nat)
    requires k <= |s|
    ensures k <= e <= |s|
    ensures forall i :: k <= i < e ==> !IsLineTerminator(s[i])
    ensures e == |s| || IsLineTerminator(s[e])
    decreases |s| - k
  {
    if k == |s| || IsLineTerminator(s[k]) then k else LineEnd(s, k + 1)
  }

  /** The end of the longest run of digits that starts at `i`. */
  function DigitRunEnd(s: string, i: nat): (j: nat)
    requires i <= |s|
    ensures i <= j <= |s|
    ensures AllDigits(s[i..j])
    ensures j == |s| || !IsDigit(s[j])
    decreases |s| - i
  {
    if i == |s| || !IsDigit(s[i]) then i else DigitRunEnd(s, i + 1)
  }

  predicate SlashBeforeDigit(s: string, p: nat) {
    p + 1 < |s| && s[p] == '/' && IsDigit(s[p + 1])
  }

  /** The last '/' in `[k, e)` that is followed by a digit. */
  function LastSlashBeforeDigit(s: string, k: nat, e: nat): (r: Option<nat>)
    requires k <= e <= |s|
    ensures r.Some? ==> k <= r.value < e && SlashBeforeDigit(s, r.value)
    ensures r.Some? ==> forall p :: r.value < p < e ==> !SlashBeforeDigit(s, p)
    ensures r.None? ==> forall p :: k <= p < e ==> !SlashBeforeDigit(s, p)
    decreases e - k
  {
    if e == k then None
    else if SlashBeforeDigit(s, e - 1) then Some(e - 1)
    else LastSlashBeforeDigit(s, k, e - 1)
  }

  /** `(?:.*\/)?(\d+)` matched at `k`, just after the Vimeo marker. */
  function VimeoDigitsAt(s: string, k: nat): (r: Option<string>)
    requires k <= |s|
    ensures r.Some? ==> r.value != [] && AllDigits(r.value) && Contains(s, r.value)
  {
    match LastSlashBeforeDigit(s, k, LineEnd(s, k))
    case Some(p) =>
      var d := s[p + 1..DigitRunEnd(s, p + 1)];
      assert OccursAt(s, d, p + 1);
      Some(d)
    case None =>
      if k < |s| && IsDigit(s[k]) then
        var d := s[k..DigitRunEnd(s, k)];
        assert OccursAt(s, d, k);
        Some(d)
      else None
  }

  /** The numeric id of the leftmost match of `(?:vimeo\.com\/)(?:.*\/)?(\d+)` from position `i`. */
  function VimeoIdFrom(s: string, i: nat): (r: Option<string>)
    requires i <= |s|
    ensures r.Some? ==> r.value != [] && AllDigits(r.value) && Contains(s, r.value)
    decreases |s| - i
  {
    if OccursAt(s, VimeoMarker, i) && VimeoDigitsAt(s, i + |VimeoMarker|).Some? then
      VimeoDigitsAt(s, i + |VimeoMarker|)
    else if i == |s| then None
    else VimeoIdFrom(s, i + 1)
  }

  /** The shape of every Vimeo player URL the resolver produces: a non-empty run of digits inside. */
  predicate IsVimeoPlayerUrl(u: string) {
    && |u| > |VimeoPlayerBase| + |VimeoPlayerParams|
    && u[..|VimeoPlayerBase|] == VimeoPlayerBase
    && u[|u| - |VimeoPlayerParams|..] == VimeoPlayerParams
    && AllDigits(u[|VimeoPlayerBase|..|u| - |VimeoPlayerParams|])
  }

  /** `getVimeoEmbedUrl`. */
  function VimeoEmbedUrl(url: string): (r: Option<string>)
    ensures r.Some? <==> VimeoIdFrom(url, 0).Some?
    ensures r.Some? ==> IsVimeoPlayerUrl(r.value)
    ensures r.Some? ==> Contains(url, r.value[|VimeoPlayerBase|..|r.value| - |VimeoPlayerParams|])
  {
    match VimeoIdFrom(url, 0)
    case Some(id) =>
      var u := VimeoPlayerBase + id + VimeoPlayerParams;
      assert u[|VimeoPlayerBase|..|u| - |VimeoPlayerParams|] == id;
      Some(u)
    case None => None
  }

  // ---------------------------------------------------------------- Panda Videos

  predicate IsPandaUrl(url: string) {
    Contains(url, "pandavideo.com") || Contains(url, "panda.video")
  }

  /**
   * `getPandaVideosEmbedUrl`: the URL itself with `autoplay=1` added as a new
   * query (`?`) or as one more parameter (`&`). Its two branches (with and
   * without `/embed`) build the same string.
   */
  function PandaEmbedUrl(url: string): (r: Option<string>)
    ensures r.Some? <==> IsPandaUrl(url)
    ensures r.Some? ==> |r.value| == |url| + 11 && StartsWith(r.value, url) && r.value[|url| + 1..] == "autoplay=1"
    ensures r.Some? ==> (r.value[|url|] == '&' <==> Contains(url, "?"))
    ensures r.Some? ==> r.value[|url|] in {'&', '?'}
  {
    if IsPandaUrl(url) then
      if Contains(url, "/embed") then
        Some(if Contains(url, "?") then url + "&autoplay=1" else url + "?autoplay=1")
      else
        Some(if Contains(url, "?") then url + "&autoplay=1" else url + "?autoplay=1")
    else None
  }

  // ---------------------------------------------------------------- resolution

  /** `getEmbedUrl`: YouTube, else Vimeo, else Panda Videos, else nothing. */
  function EmbedUrl(url: string): (r: Option<string>)
    ensures r.None? <==> YouTubeEmbedUrl(url).None? && VimeoEmbedUrl(url).None? && PandaEmbedUrl(url).None?
    ensures YouTubeEmbedUrl(url).Some? ==> r == YouTubeEmbedUrl(url)
    ensures YouTubeEmbedUrl(url).None? && VimeoEmbedUrl(url).Some? ==> r == VimeoEmbedUrl(url)
    ensures YouTubeEmbedUrl(url).None? && VimeoEmbedUrl(url).None? ==> r == PandaEmbedUrl(url)
  {
    var youtube := YouTubeEmbedUrl(url);
    if youtube.Some? then youtube
    else
      var vimeo := VimeoEmbedUrl(url);
      if vimeo.Some? then vimeo
      else
        var panda := PandaEmbedUrl(url);
        if panda.Some? then panda else None
  }

  // ---------------------------------------------------------------- the modal

  /** `isYouTube`: a non-empty URL mentioning `youtube.com` or `youtu.be`. */
  predicate IsYouTubeSource(videoUrl: string) {
    videoUrl != "" && (Contains(videoUrl, "youtube.com") || Contains(videoUrl, "youtu.be"))
  }

  /** `youtubeVideoId`: the first capture, cut at '&' and '?', with no length check. */
  function ModalVideoId(videoUrl: string): (r: Option<string>)
    ensures r.Some? <==> IsYouTubeSource(videoUrl) && CaptureFrom(videoUrl, YouTubeMarkers, 0).Some?
    ensures r.Some? ==> r == CaptureFrom(videoUrl, YouTubeMarkers, 0) && r.value != [] && NoIdStop(r.value)
  {
    if !IsYouTubeSource(videoUrl) then None
    else
      match CaptureFrom(videoUrl, YouTubeMarkers, 0)
      case Some(c) =>
        Some(BeforeChar(BeforeChar(c, '&'), '?'))
      case None => None
  }

  /** `htmlContent` is produced: the YouTube page, or the generic page around `embedUrl`. */
  predicate HasHtmlContent(videoUrl: string) {
    (IsYouTubeSource(videoUrl) && ModalVideoId(videoUrl).Some?)
    || (videoUrl != "" && EmbedUrl(videoUrl).Some?)
  }

  /** `hasValidSource`, for a visible modal with a non-empty URL. */
  predicate HasValidSource(videoUrl: string)
    requires videoUrl != ""
    ensures HasValidSource(videoUrl) ==> HasHtmlContent(videoUrl)
    ensures IsYouTubeSource(videoUrl) ==> (HasValidSource(videoUrl) <==> ModalVideoId(videoUrl).Some?)
    ensures !IsYouTubeSource(videoUrl) ==> (HasValidSource(videoUrl) <==> EmbedUrl(videoUrl).Some?)
  {
    (IsYouTubeSource(videoUrl) && ModalVideoId(videoUrl).Some? && HasHtmlContent(videoUrl))
    || (!IsYouTubeSource(videoUrl) && EmbedUrl(videoUrl).Some? && HasHtmlContent(videoUrl))
  }

  /**
   * A YouTube source is playable exactly when an id was captured, whatever its
   * length; any other source exactly when `getEmbedUrl` resolves it.
   */
  lemma ValidSourceCases(videoUrl: string)
    requires videoUrl != ""
    ensures IsYouTubeSource(videoUrl) ==>
      (HasValidSource(videoUrl) <==> CaptureFrom(videoUrl, YouTubeMarkers, 0).Some?)
    ensures !IsYouTubeSource(videoUrl) ==>
      (HasValidSource(videoUrl) <==> EmbedUrl(videoUrl).Some?)
  {
  }

  // ---------------------------------------------------------------- request filter

  const YouTubeResources: seq<string> := [
    "youtube.com/embed/", "youtube.com/api/", "youtube.com/s/", "youtube.com/yts/",
    "google.com", "gstatic.com", "doubleclick.net", "googlevideo.com", "ytimg.com", "googleapis.com"
  ]

  const YouTubeBlockedPages: seq<string> := [
    "youtube.com/watch", "youtube.com/app", "youtube.com/redirect", "youtube.com/channel", "youtube.com/user"
  ]

  predicate ContainsAny(url: string, markers: seq<string>)
    decreases |markers|
  {
    markers != [] && (Contains(url, markers[0]) || ContainsAny(url, markers[1..]))
  }

  lemma {:induction false} ContainsAnyMeans(url: string, markers: seq<string>)
    ensures ContainsAny(url, markers) <==> exists k :: 0 <= k < |markers| && Contains(url, markers[k])
    decreases |markers|
  {
    if markers != [] {
      ContainsAnyMeans(url, markers[1..]);
      if Contains(url, markers[0]) {
        assert 0 < |markers| && Contains(url, markers[0]);
      }
      if exists k :: 0 <= k < |markers| && Contains(url, markers[k]) {
        var k :| 0 <= k < |markers| && Contains(url, markers[k]);
        if k > 0 {
          assert markers[1..][k - 1] == markers[k];
        }
      }
    }
  }

  predicate AlwaysAllowed(url: string) {
    url == "about:blank" || url == "" || StartsWith(url, "data:") || StartsWith(url, "blob:")
  }

  /** `onShouldStartLoadWithRequest`. */
  function ShouldStartLoad(isYouTube: bool, url: string): (allowed: bool)
    ensures AlwaysAllowed(url) || !isYouTube ==> allowed
    ensures isYouTube && !AlwaysAllowed(url) ==> (allowed <==> ContainsAny(url, YouTubeResources))
  {
    if AlwaysAllowed(url) then true
    else if isYouTube then
      if ContainsAny(url, YouTubeResources) then true
      else if ContainsAny(url, YouTubeBlockedPages) then false
      else false
    else true
  }

  /**
   * The filter lets through blank, data and blob requests and everything for a
   * non-YouTube source; for YouTube it lets a request through exactly when the
   * URL mentions one of the ten player resources, so watch, app, redirect,
   * channel and user pages without such a mention are refused.
   */
  lemma RequestFilterMeaning(isYouTube: bool, url: string)
    ensures AlwaysAllowed(url) || !isYouTube ==> ShouldStartLoad(isYouTube, url)
    ensures isYouTube && !AlwaysAllowed(url) ==>
      (ShouldStartLoad(isYouTube, url) <==> exists k :: 0 <= k < |YouTubeResources| && Contains(url, YouTubeResources[k]))
  {
    ContainsAnyMeans(url, YouTubeResources);
  }
}
