/**
 * The `AudioPlayer` component: what it shows for a hook state and which hook
 * event each control sends. Times are non-negative reals; the width of the
 * progress bar is a positive parameter (the screen width is not modelled).
 */
module AudioPlayerView {
  import opened Wrappers
  import opened Text
  import BaseUrl
  import Durations
  import opened AudioPlayerHook

  const NoTracksMessage := "Nenhuma faixa disponível"
  const UntitledLabel := "Sem título"
  const UnknownArtistLabel := "Artista desconhecido"

  // ---------------------------------------------------------------- time label

  /** `formatTime` for a non-negative time: whole minutes, then the whole seconds left, padded. */
  function FormatTime(seconds: real): (r: string)
    requires seconds >= 0.0
    ensures r == Durations.FormatClock(seconds.Floor)
  {
    FloorSplit(seconds);
    var mins := (seconds / 60.0).Floor;
    var secs := (seconds - 60.0 * mins as real).Floor;
    NatToString(mins) + ":" + PadStart2(NatToString(secs))
  }

  /** Flooring a time and splitting it into minutes and seconds commute. */
  lemma FloorSplit(seconds: real)
    requires seconds >= 0.0
    ensures (seconds / 60.0).Floor == seconds.Floor / 60
    ensures (seconds - 60.0 * (seconds / 60.0).Floor as real).Floor == seconds.Floor % 60
  {
    var n := seconds.Floor;
    var q := n / 60;
    var r := n % 60;
    assert n == q * 60 + r;
    assert n as real <= seconds < n as real + 1.0;
    assert (q * 60) as real <= seconds < (q * 60 + 60) as real;
    assert q as real <= seconds / 60.0 < (q + 1) as real;
    assert (seconds / 60.0).Floor == q;
    assert r as real <= seconds - 60.0 * q as real < (r + 1) as real;
  }

  /** The player's time label is the `m:ss` clock label of the whole seconds. */
  lemma {:induction false} FormatTimeIsClockOfWholeSeconds(seconds: real)
    requires seconds >= 0.0
    ensures FormatTime(seconds) == Durations.FormatClock(seconds.Floor)
    ensures Durations.ParseClock(FormatTime(seconds)) == Some(seconds.Floor)
  {
    FloorSplit(seconds);
    Durations.ClockRoundTrip(seconds.Floor);
  }

  // ---------------------------------------------------------------- controls

  predicate CanGoPrevious(s: PlayerState) {
    s.index > 0
  }

  predicate CanGoNext(s: PlayerState) {
    s.index < |s.tracks| - 1
  }

  /** The previous button (`disabled={!canGoPrevious || isLoading}`); when enabled, a press moves one track back and plays. */
  predicate PreviousEnabled(s: PlayerState)
    ensures PreviousEnabled(s) ==> Step(s, SkipToPrevious).index == s.index - 1 && Step(s, SkipToPrevious).playing
  {
    CanGoPrevious(s) && !s.loading
  }

  /** The next button (`disabled={!canGoNext || isLoading}`); when enabled, a press moves one track on and plays. */
  predicate NextEnabled(s: PlayerState)
    ensures NextEnabled(s) ==> Step(s, SkipToNext).index == s.index + 1 && Step(s, SkipToNext).playing
  {
    CanGoNext(s) && !s.loading
  }

  /** The play/pause button (`disabled={isLoading}`); when enabled, a press flips the flag and stays on the track. */
  predicate PlayPauseEnabled(s: PlayerState)
    ensures PreviousEnabled(s) || NextEnabled(s) ==> PlayPauseEnabled(s)
    ensures PlayPauseEnabled(s) ==>
      Step(s, PlayPauseAction(s)).playing == !s.playing && Step(s, PlayPauseAction(s)).index == s.index
  {
    !s.loading
  }

  /** The play/pause button sends `pause` while playing and `play` otherwise. */
  function PlayPauseAction(s: PlayerState): (e: Event)
    ensures Step(s, e).playing == !s.playing
  {
    if s.playing then Pause else Play
  }

  /**
   * On a list whose index is in range, the next button is offered exactly when
   * `skipToNext` moves, and the previous button exactly when `skipToPrevious`
   * moves; each moves one track. So the previous button never reaches the
   * seek-to-start branch.
   */
  lemma SkipButtonsMatchHook(s: PlayerState)
    requires IndexInRange(s)
    ensures CanGoNext(s) <==> Step(s, SkipToNext).index != s.index
    ensures CanGoNext(s) ==> Step(s, SkipToNext).index == s.index + 1
    ensures CanGoPrevious(s) <==> Step(s, SkipToPrevious).index != s.index
    ensures CanGoPrevious(s) ==> Step(s, SkipToPrevious).index == s.index - 1
  {
  }

  // ---------------------------------------------------------------- seek bar

  function Clamp01(f: real): (r: real)
    ensures 0.0 <= r <= 1.0
    ensures 0.0 <= f <= 1.0 ==> r == f
  {
    if f < 0.0 then 0.0 else if f > 1.0 then 1.0 else f
  }

  /**
   * A press on the progress bar at `x`: a seek to the pressed fraction of the
   * duration, only when not loading and the duration is known.
   */
  function SeekTarget(loading: bool, duration: real, x: real, width: real): (r: Option<real>)
    requires width > 0.0
    ensures r.Some? <==> !loading && duration > 0.0
  {
    if !loading && duration > 0.0 then Some(Clamp01(x / width) * duration) else None
  }

  lemma SeekTargetValue(duration: real, x: real, width: real)
    requires width > 0.0 && duration > 0.0
    ensures SeekTarget(false, duration, x, width) == Some(Clamp01(x / width) * duration)
  {
  }

  /**
   * A seek target lies between 0 and the duration; a press at or left of the
   * bar's start seeks to 0, one at or right of its end to the duration.
   */
  lemma SeekTargetRange(duration: real, x: real, width: real)
    requires width > 0.0 && duration > 0.0
    ensures var t := SeekTarget(false, duration, x, width).value;
      && 0.0 <= t <= duration
      && (x <= 0.0 ==> t == 0.0)
      && (x >= width ==> t == duration)
  {
    var c := Clamp01(x / width);
    assert SeekTarget(false, duration, x, width).value == c * duration;
    assert 0.0 <= c * duration <= 1.0 * duration;
    if x <= 0.0 {
      DivMonotone(x, 0.0, width);
      assert c == 0.0;
    }
    if x >= width {
      DivMonotone(width, x, width);
      assert width / width == 1.0;
      assert c == 1.0;
    }
  }

  lemma DivMonotone(x1: real, x2: real, width: real)
    requires width > 0.0 && x1 <= x2
    ensures x1 / width <= x2 / width
  {
    var a := x1 / width;
    var b := x2 / width;
    assert a * width == x1 && b * width == x2;
    assert (b - a) * width == x2 - x1;
  }

  /** Pressing further right never seeks to an earlier time. */
  lemma SeekTargetMonotone(duration: real, x1: real, x2: real, width: real)
    requires width > 0.0 && duration > 0.0 && x1 <= x2
    ensures SeekTarget(false, duration, x1, width).value <= SeekTarget(false, duration, x2, width).value
  {
    DivMonotone(x1, x2, width);
    var c1 := Clamp01(x1 / width);
    var c2 := Clamp01(x2 / width);
    assert c1 <= c2;
    assert c1 * duration <= c2 * duration;
  }

  /** The progress fill, in percent. */
  function ProgressPercent(position: real, duration: real): (r: real)
    ensures duration <= 0.0 ==> r == 0.0
    ensures 0.0 <= position <= duration ==> 0.0 <= r <= 100.0
  {
    if duration > 0.0 then position / duration * 100.0 else 0.0
  }

  lemma DivCancel(f: real, d: real)
    requires d > 0.0
    ensures (f * d) / d == f
  {
    var q := (f * d) / d;
    assert q * d == f * d;
    assert (q - f) * d == 0.0;
  }

  /** A position that is the fraction `f` of the duration fills `f` of the bar. */
  lemma PercentOfFraction(position: real, d: real, f: real)
    requires d > 0.0 && position == f * d
    ensures ProgressPercent(position, d) == f * 100.0
  {
    DivCancel(f, d);
  }

  /** After a press on the bar, the fill shows the pressed fraction. */
  lemma FillFollowsPress(s: PlayerState, x: real, width: real)
    requires width > 0.0 && MediaAttached(s) && !s.loading && s.duration > 0.0
    ensures var r := Step(s, SeekTo(SeekTarget(s.loading, s.duration, x, width).value));
      ProgressPercent(r.position, r.duration) == Clamp01(x / width) * 100.0
  {
    var f := Clamp01(x / width);
    var p := f * s.duration;
    var r := Step(s, SeekTo(SeekTarget(s.loading, s.duration, x, width).value));
    assert r.position == p && r.duration == s.duration by {
      SeekTargetValue(s.duration, x, width);
      StopAndSeekEffect(s, p);
    }
    PercentOfFraction(r.position, r.duration, f);
  }

  // ---------------------------------------------------------------- labels and media

  function TitleLabel(current: Option<Track>): (r: string)
    ensures r != ""
    ensures current.Some? && current.value.title != "" ==> r == current.value.title
    ensures current.None? || current.value.title == "" ==> r == UntitledLabel
  {
    if current.Some? && current.value.title != "" then current.value.title else UntitledLabel
  }

  function ArtistLabel(current: Option<Track>): (r: string)
    ensures r != ""
    ensures current.Some? && Truthy(current.value.artist) ==> r == current.value.artist.value
    ensures !(current.Some? && Truthy(current.value.artist)) ==> r == UnknownArtistLabel
  {
    if current.Some? && Truthy(current.value.artist) then current.value.artist.value else UnknownArtistLabel
  }

  /**
   * The artwork source: none (a placeholder) without artwork; the artwork as
   * it is when it starts with "http"; otherwise joined like `getFullUrl`.
   */
  function ArtworkUri(base: string, current: Option<Track>): (r: Option<string>)
    ensures r.Some? <==> current.Some? && Truthy(current.value.artwork)
    ensures r.Some? && StartsWith(current.value.artwork.value, "http") ==> r == current.value.artwork
    ensures r.Some? && !StartsWith(current.value.artwork.value, "http") ==>
      r == Some(BaseUrl.FullUrl(base, current.value.artwork.value))
  {
    if current.Some? && Truthy(current.value.artwork) then
      var a := current.value.artwork.value;
      Some(if StartsWith(a, "http") then a else BaseUrl.FullUrl(base, a))
    else None
  }

  /**
   * The artwork rule agrees with `getFullUrl` except on relative paths that
   * happen to start with "http" (such as "httpdocs/a.png"), which it leaves
   * unjoined.
   */
  lemma ArtworkAgreesWithFullUrl(base: string, a: string)
    requires a != ""
    ensures var t := Some(Track("", "", "", None, Some(a), None));
      (BaseUrl.IsAbsolute(a) || !StartsWith(a, "http")) <==> ArtworkUri(base, t) == Some(BaseUrl.FullUrl(base, a))
  {
    var t := Some(Track("", "", "", None, Some(a), None));
    if StartsWith(a, "http") && !BaseUrl.IsAbsolute(a) {
      assert !BaseUrl.IsAbsolute(a);
      assert a[0] == 'h';
      assert !StartsWith(a, "/");
      assert BaseUrl.CleanPath(a) == a;
      assert |BaseUrl.FullUrl(base, a)| > |a|;
    }
  }

  /**
   * The media element's source: present exactly when the list is non-empty
   * and a current track is set, which is when the hook's seek commands reach
   * the element.
   */
  function MediaSource(base: string, s: PlayerState): (r: Option<string>)
    ensures r.Some? <==> MediaAttached(s)
    ensures r.Some? ==> r.value == BaseUrl.FullUrl(base, s.currentTrack.value.url)
  {
    if |s.tracks| == 0 then None
    else if s.currentTrack.Some? then Some(BaseUrl.FullUrl(base, s.currentTrack.value.url))
    else None
  }

  /** The track list is shown only when asked for and there is more than one track. */
  predicate TrackListShown(showTrackList: bool, s: PlayerState) {
    showTrackList && |s.tracks| > 1
  }

  /** Pressing row `k` of the track list plays track `k`. */
  lemma TrackRowPlaysIt(s: PlayerState, k: nat)
    requires TrackInSync(s) && k < |s.tracks|
    ensures Step(s, SkipToIndex(k)).index == k
    ensures Step(s, SkipToIndex(k)).playing
    ensures Step(s, SkipToIndex(k)).currentTrack == Some(s.tracks[k])
  {
  }

  datatype View =
    | EmptyList(message: string)
    | PlayerView(title: string, artist: string, artwork: Option<string>, media: Option<string>,
                 elapsed: string, total: string, fill: real)

  /** The screen for a hook state: the empty-list message, or the player. */
  function Render(base: string, s: PlayerState): (v: View)
    requires s.position >= 0.0 && s.duration >= 0.0
    ensures v.EmptyList? <==> s.tracks == []
    ensures v.EmptyList? ==> v.message == NoTracksMessage
    ensures v.PlayerView? ==> (v.media.Some? <==> MediaAttached(s))
  {
    if s.tracks == [] then EmptyList(NoTracksMessage)
    else PlayerView(TitleLabel(s.currentTrack), ArtistLabel(s.currentTrack),
                    ArtworkUri(base, s.currentTrack), MediaSource(base, s),
                    FormatTime(s.position), FormatTime(s.duration),
                    ProgressPercent(s.position, s.duration))
  }
}
