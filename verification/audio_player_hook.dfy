/**
 * The `useAudioPlayer` hook: a playback sequencer over a list of tracks.
 *
 * `PlayerState` is the hook's state together with what it sends out (seek
 * commands to the media element, `onTrackEnd` and `onPlaybackStateChanged`
 * calls) and the 100 ms resume timers that `handleEnd` leaves running. Each
 * control and each media-element callback is an `Event`; `Step` applies the
 * handler and then the effects React runs after the render it causes. The
 * class `Player` holds the same state in fields and is proved to follow `Step`.
 *
 * The media element is attached (its ref is set) exactly when the player view
 * renders it: the list is non-empty and a current track is set.
 */
module AudioPlayerHook {
  import opened Wrappers

  datatype Track = Track(
    id: string,
    url: string,
    title: string,
    artist: Option<string>,
    artwork: Option<string>,
    duration: Option<int>)

  datatype PlayerState = PlayerState(
    tracks: seq<Track>,
    autoPlay: bool,
    index: nat,
    playing: bool,
    loading: bool,
    position: real,
    duration: real,
    currentTrack: Option<Track>,
    pendingResumes: nat,   // 100 ms timers started by handleEnd that have not fired yet
    seeks: seq<real>,      // seek commands sent to the media element, oldest first
    endNotices: nat,       // calls of onTrackEnd
    reports: seq<bool>)    // calls of onPlaybackStateChanged, oldest first

  datatype Event =
    | Play
    | Pause
    | Stop
    | SeekTo(target: real)
    | SkipToNext
    | SkipToPrevious
    | SkipToIndex(requested: int)
    | Loaded(reportedDuration: real)
    | Progress(currentTime: real, seekableDuration: real)
    | Ended
    | Failed
    | ResumeTimer
    | NewTracks(list: seq<Track>)

  predicate MediaAttached(s: PlayerState) {
    |s.tracks| > 0 && s.currentTrack.Some?
  }

  /** `playbackState`. */
  function PlaybackState(s: PlayerState): (r: string)
    ensures r == "playing" <==> s.playing
    ensures r == "paused" <==> !s.playing
  {
    if s.playing then "playing" else "paused"
  }

  // ---------------------------------------------------------------- invariants

  /** The current track is the one at the index whenever the index is in the list. */
  predicate TrackInSync(s: PlayerState) {
    s.index < |s.tracks| ==> s.currentTrack == Some(s.tracks[s.index])
  }

  /** The last playback-state report is the current playing flag. */
  predicate ReportsInSync(s: PlayerState) {
    |s.reports| > 0 && s.reports[|s.reports| - 1] == s.playing
  }

  /** The index is a position of the list, or 0 for an empty list. */
  predicate IndexInRange(s: PlayerState) {
    s.index < |s.tracks| || (s.index == 0 && s.tracks == [])
  }

  // ---------------------------------------------------------------- state and effects

  /** The `useState` initial values. */
  function Initial(tracks: seq<Track>, autoPlay: bool): PlayerState {
    PlayerState(tracks, autoPlay, 0, false, true, 0.0, 0.0, None, 0, [], 0, [])
  }

  /** The effects on `[tracks, currentTrackIndex]`: load the track at the index, autoplaying the first. */
  function LoadEffect(s: PlayerState): (r: PlayerState)
    ensures r.index == s.index && r.tracks == s.tracks && r.autoPlay == s.autoPlay && r.reports == s.reports
    ensures TrackInSync(r)
  {
    if s.index < |s.tracks| then
      s.(currentTrack := Some(s.tracks[s.index]), loading := true,
         playing := s.playing || (s.autoPlay && s.index == 0))
    else s
  }

  /** The effect on `[isPlaying]`: report the flag when it changed. */
  function Report(before: bool, s: PlayerState): (r: PlayerState)
    ensures r.index == s.index && r.tracks == s.tracks && r.currentTrack == s.currentTrack
    ensures r.playing == s.playing && r.autoPlay == s.autoPlay
    ensures |s.reports| > 0 && s.reports[|s.reports| - 1] == before ==> ReportsInSync(r)
  {
    if s.playing != before then s.(reports := s.reports + [s.playing]) else s
  }

  /**
   * The state after the first render's effects: index 0, paused unless
   * autoplaying a non-empty list, loading, no progress, one report per value
   * the flag took.
   */
  function Mounted(tracks: seq<Track>, autoPlay: bool): (r: PlayerState)
    ensures r.tracks == tracks && r.index == 0 && r.loading
    ensures r.position == 0.0 && r.duration == 0.0
    ensures r.playing <==> autoPlay && |tracks| > 0
    ensures r.currentTrack.Some? <==> |tracks| > 0
    ensures r.seeks == [] && r.endNotices == 0 && r.pendingResumes == 0
    ensures r.reports == if r.playing then [false, true] else [false]
    ensures TrackInSync(r) && ReportsInSync(r) && IndexInRange(r)
  {
    var m := LoadEffect(Initial(tracks, autoPlay));
    Report(false, m.(reports := [false]))
  }

  /** `seekTo(p)`: only with the media element attached. */
  function SeekCommand(s: PlayerState, p: real): PlayerState {
    if MediaAttached(s) then s.(seeks := s.seeks + [p], position := p) else s
  }

  /** What each handler sets, before React re-renders. */
  function Apply(s: PlayerState, e: Event): (r: PlayerState)
    ensures r.reports == s.reports && r.autoPlay == s.autoPlay
    ensures e.NewTracks? ==> r == s.(tracks := e.list)
    ensures !e.NewTracks? ==> r.tracks == s.tracks
    ensures r.index != s.index ==> r.index < |r.tracks| || r.index < s.index
    ensures r.index == s.index ==> r.currentTrack == s.currentTrack
  {
    match e
    case Play => s.(playing := true)
    case Pause => s.(playing := false)
    case Stop =>
      var t := s.(playing := false, position := 0.0, duration := 0.0);
      if MediaAttached(s) then t.(seeks := t.seeks + [0.0]) else t
    case SeekTo(p) => SeekCommand(s, p)
    case SkipToNext =>
      if s.index < |s.tracks| - 1 then s.(index := s.index + 1, playing := true) else s
    case SkipToPrevious =>
      if s.index > 0 then s.(index := s.index - 1, playing := true) else SeekCommand(s, 0.0)
    case SkipToIndex(i) =>
      if 0 <= i < |s.tracks| then s.(index := i, playing := true) else s
    case Loaded(d) =>
      s.(loading := false, duration := if d != 0.0 then d else s.duration,
         playing := s.playing || (s.autoPlay && s.index == 0))
    case Progress(t, sd) =>
      s.(position := t,
         duration := if s.duration != 0.0 then s.duration else if sd != 0.0 then sd else 0.0)
    case Ended =>
      if s.index < |s.tracks| - 1 then
        s.(playing := false, index := s.index + 1, pendingResumes := s.pendingResumes + 1)
      else
        s.(playing := false, endNotices := s.endNotices + 1)
    case Failed => s.(loading := false, playing := false)
    case ResumeTimer =>
      if s.pendingResumes > 0 then s.(playing := true, pendingResumes := s.pendingResumes - 1) else s
    case NewTracks(ts) => s.(tracks := ts)
  }

  /**
   * One event and the effects it triggers. The current track stays in step
   * with the index, the last report with the playing flag, and the index in
   * the list, except that a new list never resets the index.
   */
  function Step(s: PlayerState, e: Event): (r: PlayerState)
    ensures TrackInSync(s) ==> TrackInSync(r)
    ensures ReportsInSync(s) ==> ReportsInSync(r)
    ensures e.NewTracks? ==> r.index == s.index && r.tracks == e.list
    ensures !e.NewTracks? ==> r.tracks == s.tracks && r.autoPlay == s.autoPlay
    ensures IndexInRange(s) && (e.NewTracks? ==> IndexInRange(s.(tracks := e.list))) ==> IndexInRange(r)
  {
    var t := Apply(s, e);
    var u := if t.index != s.index || e.NewTracks? then LoadEffect(t) else t;
    Report(s.playing, u)
  }

  function Run(s: PlayerState, events: seq<Event>): PlayerState
    decreases |events|
  {
    if events == [] then s else Run(Step(s, events[0]), events[1..])
  }

  predicate NoNewTracks(events: seq<Event>) {
    forall k :: 0 <= k < |events| ==> !events[k].NewTracks?
  }

  /** Without a new list, any sequence of events keeps the three invariants and the list. */
  lemma {:induction false} RunKeepsInvariants(s: PlayerState, events: seq<Event>)
    requires TrackInSync(s) && ReportsInSync(s) && IndexInRange(s)
    requires NoNewTracks(events)
    ensures var r := Run(s, events); TrackInSync(r) && ReportsInSync(r) && IndexInRange(r)
    ensures Run(s, events).tracks == s.tracks
    decreases |events|
  {
    if events != [] {
      assert !events[0].NewTracks?;
      var t := Step(s, events[0]);
      assert NoNewTracks(events[1..]) by {
        forall k | 0 <= k < |events[1..]| ensures !events[1..][k].NewTracks? {
          assert events[1..][k] == events[k + 1];
        }
      }
      RunKeepsInvariants(t, events[1..]);
    }
  }

  // ---------------------------------------------------------------- controls

  /** `skipToNext`: one track forward and playing, or nothing at the last track. */
  lemma SkipToNextEffect(s: PlayerState)
    requires TrackInSync(s)
    ensures var r := Step(s, SkipToNext);
      if s.index < |s.tracks| - 1 then
        r.index == s.index + 1 && r.playing && r.loading && r.currentTrack == Some(s.tracks[s.index + 1])
      else r == s
  {
  }

  /**
   * `skipToPrevious`: one track back and playing; at the first track only the
   * position returns to 0 (a seek to 0), and only with the media attached.
   */
  lemma SkipToPreviousEffect(s: PlayerState)
    requires IndexInRange(s)
    ensures var r := Step(s, SkipToPrevious);
      if s.index > 0 then
        r.index == s.index - 1 && r.playing && r.loading
      else if MediaAttached(s) then
        r == s.(position := 0.0, seeks := s.seeks + [0.0])
      else r == s
  {
  }

  /** `skipToIndex(i)`: to track `i` and playing when `i` is a position of the list; otherwise nothing. */
  lemma SkipToIndexEffect(s: PlayerState, i: int)
    requires TrackInSync(s)
    ensures var r := Step(s, SkipToIndex(i));
      if 0 <= i < |s.tracks| then r.index == i && r.playing && r.currentTrack.Some?
      else r == s
  {
  }

  /** `stop` pauses and clears position and duration; `seekTo(p)` moves only the position. */
  lemma StopAndSeekEffect(s: PlayerState, p: real)
    ensures var r := Step(s, Stop);
      !r.playing && r.position == 0.0 && r.duration == 0.0 && r.index == s.index
      && r.seeks == (if MediaAttached(s) then s.seeks + [0.0] else s.seeks)
    ensures var r := Step(s, SeekTo(p));
      if MediaAttached(s) then r == s.(position := p, seeks := s.seeks + [p]) else r == s
  {
  }

  /**
   * The media callbacks: a load clears loading and keeps the old duration when
   * 0 is reported; progress keeps a known duration, else takes the seekable
   * one; an error clears loading and playing.
   */
  lemma MediaCallbackEffects(s: PlayerState, d: real, t: real, sd: real)
    ensures var r := Step(s, Loaded(d));
      !r.loading && r.duration == (if d != 0.0 then d else s.duration) && r.index == s.index
    ensures var r := Step(s, Progress(t, sd));
      r.position == t && r.duration == (if s.duration != 0.0 then s.duration else sd)
      && r.playing == s.playing && r.index == s.index
    ensures var r := Step(s, Failed); !r.loading && !r.playing && r.index == s.index
  {
  }

  /**
   * `handleEnd`: playback stops; before the last track the index moves on and
   * a resume timer starts, at the last track `onTrackEnd` is called.
   */
  lemma EndedEffect(s: PlayerState)
    ensures var r := Step(s, Ended);
      && !r.playing
      && (s.index < |s.tracks| - 1 ==>
            r.index == s.index + 1 && r.pendingResumes == s.pendingResumes + 1 && r.endNotices == s.endNotices)
      && (s.index >= |s.tracks| - 1 ==>
            r.index == s.index && r.pendingResumes == s.pendingResumes && r.endNotices == s.endNotices + 1)
  {
  }

  function Repeat(e: Event, k: nat): (r: seq<Event>)
    ensures |r| == k && forall j :: 0 <= j < k ==> r[j] == e
  {
    if k == 0 then [] else [e] + Repeat(e, k - 1)
  }

  function LastIndex(s: PlayerState): nat {
    if |s.tracks| > 0 then |s.tracks| - 1 else 0
  }

  function Min(a: int, b: int): int {
    if a <= b then a else b
  }

  /**
   * `k` consecutive track ends walk forward one track each, up to the last
   * track; every end there calls `onTrackEnd` again, and every step forward
   * leaves a resume timer running.
   */
  lemma {:induction false} EndsAdvanceInOrder(s: PlayerState, k: nat)
    requires IndexInRange(s)
    ensures var r := Run(s, Repeat(Ended, k));
      && r.index == Min(s.index + k, LastIndex(s))
      && r.pendingResumes == s.pendingResumes + (r.index - s.index)
      && r.endNotices == s.endNotices + (s.index + k - r.index)
      && r.tracks == s.tracks
      && (k > 0 ==> !r.playing)
    decreases k
  {
    if k > 0 {
      var t := Step(s, Ended);
      EndedEffect(s);
      assert IndexInRange(t) && t.tracks == s.tracks;
      assert LastIndex(t) == LastIndex(s);
      assert Repeat(Ended, k)[1..] == Repeat(Ended, k - 1);
      assert Run(s, Repeat(Ended, k)) == Run(t, Repeat(Ended, k - 1));
      EndsAdvanceInOrder(t, k - 1);
    }
  }

  /** `play` and `pause` set the flag and leave the index and the timers alone. */
  lemma PlayPauseEffect(s: PlayerState)
    ensures var r := Step(s, Play); r.playing && r.index == s.index && r.pendingResumes == s.pendingResumes
    ensures var r := Step(s, Pause); !r.playing && r.index == s.index && r.pendingResumes == s.pendingResumes
  {
  }

  /** A resume timer that fires sets playing and stays on the track; without one running nothing happens. */
  lemma ResumeTimerEffect(s: PlayerState)
    ensures var r := Step(s, ResumeTimer);
      if s.pendingResumes > 0 then r.playing && r.index == s.index && r.pendingResumes == s.pendingResumes - 1
      else r == s
  {
  }

  lemma RunThree(s: PlayerState, e1: Event, e2: Event, e3: Event)
    ensures Run(s, [e1, e2, e3]) == Step(Step(Step(s, e1), e2), e3)
  {
    var a := Step(s, e1);
    var b := Step(a, e2);
    assert [e1, e2, e3][1..] == [e2, e3];
    assert Run(s, [e1, e2, e3]) == Run(a, [e2, e3]);
    assert [e2, e3][1..] == [e3];
    assert Run(a, [e2, e3]) == Run(b, [e3]);
    assert [e3][1..] == [];
    assert Run(b, [e3]) == Run(Step(b, e3), []);
  }

  /**
   * A pause between a track end and its resume timer is overridden: the timer
   * still sets playing.
   */
  lemma PauseDuringResumeDelayIsOverridden(s: PlayerState)
    requires s.index < |s.tracks| - 1
    ensures Run(s, [Ended, Pause, ResumeTimer]).playing
    ensures Run(s, [Ended, Pause, ResumeTimer]).index == s.index + 1
  {
    var a := Step(s, Ended);
    assert a.index == s.index + 1 && a.pendingResumes > 0 by {
      EndedEffect(s);
    }
    var b := Step(a, Pause);
    assert b.index == a.index && b.pendingResumes == a.pendingResumes by {
      PlayPauseEffect(a);
    }
    var c := Step(b, ResumeTimer);
    assert c.playing && c.index == b.index by {
      ResumeTimerEffect(b);
    }
    RunThree(s, Ended, Pause, ResumeTimer);
  }

  /** A new list keeps the index, so a shorter list can leave it past the end. */
  lemma NewListKeepsIndex(s: PlayerState, ts: seq<Track>)
    requires 0 < |ts| <= s.index
    ensures Step(s, NewTracks(ts)).index == s.index
    ensures !IndexInRange(Step(s, NewTracks(ts)))
  {
  }

  // ---------------------------------------------------------------- the hook as an object

  class Player {
    var tracks: seq<Track>
    var autoPlay: bool
    var index: nat
    var playing: bool
    var loading: bool
    var position: real
    var duration: real
    var currentTrack: Option<Track>
    var pendingResumes: nat
    var seeks: seq<real>
    var endNotices: nat
    var reports: seq<bool>

    function State(): PlayerState
      reads this
    {
      PlayerState(tracks, autoPlay, index, playing, loading, position, duration,
                  currentTrack, pendingResumes, seeks, endNotices, reports)
    }

    /** Mounting the hook: initial state, then the first render's effects. */
    constructor (ts: seq<Track>, auto: bool)
      ensures State() == Mounted(ts, auto)
    {
      tracks := ts;
      autoPlay := auto;
      index := 0;
      playing := false;
      loading := true;
      position := 0.0;
      duration := 0.0;
      currentTrack := None;
      pendingResumes := 0;
      seeks := [];
      endNotices := 0;
      reports := [false];
      if |ts| > 0 {
        currentTrack := Some(ts[0]);
        if auto {
          playing := true;
          reports := reports + [true];
        }
      }
    }

    /** The effects after a handler: reload when the index moved or the list changed, then report. */
    method AfterRender(wasPlaying: bool, reload: bool)
      modifies this
      ensures State() == Report(wasPlaying, if reload then LoadEffect(old(State())) else old(State()))
    {
      if reload && index < |tracks| {
        currentTrack := Some(tracks[index]);
        loading := true;
        if autoPlay && index == 0 {
          playing := true;
        }
      }
      if playing != wasPlaying {
        reports := reports + [playing];
      }
    }

    method Seek(p: real)
      modifies this
      ensures State() == SeekCommand(old(State()), p)
    {
      if |tracks| > 0 && currentTrack.Some? {
        seeks := seeks + [p];
        position := p;
      }
    }

    method Play()
      modifies this
      ensures State() == Step(old(State()), Event.Play)
    {
      var was := playing;
      playing := true;
      AfterRender(was, false);
    }

    method Pause()
      modifies this
      ensures State() == Step(old(State()), Event.Pause)
    {
      var was := playing;
      playing := false;
      AfterRender(was, false);
    }

    method Stop()
      modifies this
      ensures State() == Step(old(State()), Event.Stop)
    {
      var was := playing;
      var attached := |tracks| > 0 && currentTrack.Some?;
      playing := false;
      position := 0.0;
      duration := 0.0;
      if attached {
        seeks := seeks + [0.0];
      }
      assert State() == Apply(old(State()), Event.Stop);
      AfterRender(was, false);
    }

    method SeekTo(p: real)
      modifies this
      ensures State() == Step(old(State()), Event.SeekTo(p))
    {
      var was := playing;
      Seek(p);
      assert State() == Apply(old(State()), Event.SeekTo(p));
      AfterRender(was, false);
    }

    method SkipToNext()
      modifies this
      ensures State() == Step(old(State()), Event.SkipToNext)
    {
      var was := playing;
      var moved := false;
      if index < |tracks| - 1 {
        index := index + 1;
        playing := true;
        moved := true;
      }
      assert State() == Apply(old(State()), Event.SkipToNext);
      AfterRender(was, moved);
    }

    method SkipToPrevious()
      modifies this
      ensures State() == Step(old(State()), Event.SkipToPrevious)
    {
      var was := playing;
      var moved := false;
      if index > 0 {
        index := index - 1;
        playing := true;
        moved := true;
      } else {
        Seek(0.0);
      }
      assert State() == Apply(old(State()), Event.SkipToPrevious);
      AfterRender(was, moved);
    }

    method SkipToIndex(i: int)
      modifies this
      ensures State() == Step(old(State()), Event.SkipToIndex(i))
    {
      var was := playing;
      var moved := false;
      if 0 <= i < |tracks| {
        moved := i != index;
        index := i;
        playing := true;
      }
      assert State() == Apply(old(State()), Event.SkipToIndex(i));
      AfterRender(was, moved);
    }

    method HandleLoad(reported: real)
      modifies this
      ensures State() == Step(old(State()), Loaded(reported))
    {
      var was := playing;
      loading := false;
      if reported != 0.0 {
        duration := reported;
      }
      if autoPlay && index == 0 {
        playing := true;
      }
      assert State() == Apply(old(State()), Loaded(reported));
      AfterRender(was, false);
    }

    method HandleProgress(currentTime: real, seekable: real)
      modifies this
      ensures State() == Step(old(State()), Progress(currentTime, seekable))
    {
      var was := playing;
      position := currentTime;
      if duration == 0.0 {
        duration := if seekable != 0.0 then seekable else 0.0;
      }
      assert State() == Apply(old(State()), Progress(currentTime, seekable));
      AfterRender(was, false);
    }

    method HandleEnd()
      modifies this
      ensures State() == Step(old(State()), Ended)
    {
      var was := playing;
      var moved := false;
      playing := false;
      if index < |tracks| - 1 {
        index := index + 1;
        pendingResumes := pendingResumes + 1;
        moved := true;
      } else {
        endNotices := endNotices + 1;
      }
      assert State() == Apply(old(State()), Ended);
      AfterRender(was, moved);
    }

    method HandleError()
      modifies this
      ensures State() == Step(old(State()), Failed)
    {
      var was := playing;
      loading := false;
      playing := false;
      AfterRender(was, false);
    }

    /** One of the 100 ms timers started by `handleEnd` fires. */
    method FireResumeTimer()
      modifies this
      ensures State() == Step(old(State()), ResumeTimer)
    {
      var was := playing;
      if pendingResumes > 0 {
        playing := true;
        pendingResumes := pendingResumes - 1;
      }
      AfterRender(was, false);
    }

    /** The owner passes a new track list. */
    method SetTracks(ts: seq<Track>)
      modifies this
      ensures State() == Step(old(State()), NewTracks(ts))
    {
      var was := playing;
      tracks := ts;
      AfterRender(was, true);
    }
  }
}
