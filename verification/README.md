# Media core of the streaming app, modelled in Dafny

This project models the client-side media core of a React Native streaming
app: the screens list movies, series, audiobooks, albums, ebooks and courses
and play them. The model covers:

- **The playback sequencer** (`useAudioPlayer`). `AudioPlayerHook` holds it
  as a value-level state machine (`PlayerState`, `Event`, `Step`, `Run`) and as
  the class `AudioPlayerHook.Player`, whose methods are proved to follow
  `Step`. The media element, the 100 ms resume timer and the parent's
  `onTrackEnd` / `onPlaybackStateChanged` callbacks are explicit events and
  counters.
- **The player view** (`AudioPlayer`), in `AudioPlayerView`: time labels,
  button rules, the seek bar and display fallbacks.
- **The video modal** (`VideoPlayerModal`), in `VideoEmbed`: the YouTube,
  Vimeo and Panda Videos embed resolvers, the modal's own YouTube id and
  validity, and the WebView request filter. The regular expressions are
  modelled by the scans they perform.
- **The track-list builders** of the audiobook screen, the album screen and
  the player's usage example (`AudiobookDetail`, `AlbumDetail`,
  `AudioPlayerExample`). Each one filters, then sorts stably, then maps
  (`TrackLists`).
- **The detail screens:**
  - `SeriesDetail`: status labels, the YouTube id extractor, episode and
    trailer URLs, the first-season selection;
  - `CourseDetail`: normalisation, module and lesson ordering, the expanded
    set, lesson selection;
  - `MovieDetail`: the play buttons;
  - `EbookDetail`: the PDF address, the embedded page-by-page PDF viewer and
    its loading indicator.
- **The list screens.** `ContentList` holds the shared list screen. The six
  card mappers are `Videoteca`, `Ebooks`, `SeriesList`, `Musicas`,
  `Audiobooks` and `Cursos`.
- **The login form controller** (`Login`).
- **The API client's interceptors** (`ApiClient`): the Authorization header,
  and the error classification with its 401 storage clean-up.
- **Shared helpers:**
  - `Wrappers`: optional values and the JavaScript `||` fallback;
  - `Text`: prefixes, digits, padding and `trim`;
  - `BaseUrl`: the base-URL join rule;
  - `Durations`: the three duration label formats, each with a reader that
    recovers its number.

The server base URL (`SERVER_BASE_URL`) is a parameter `base` everywhere,
because its definition is not part of this model.

Stateful source code is modelled as classes with `modifies` clauses. Their
methods state the whole new state. These classes are:

- `AudioPlayerHook.Player`;
- `CourseDetail.CourseScreen`;
- `EbookDetail.PdfPager` and `EbookDetail.PdfIndicator`;
- `ContentList.ContentListScreen`;
- `Login.LoginController`;
- `ApiClient.Client` and `ApiClient.RequestConfig`.

Pure helpers are functions, and lemmas relate them.

## Where the code and its description differ

The model follows the code in each case below.

- **`play` with an empty list.** `play` has no empty-list guard, so it sets
  playing even with no tracks (`useAudioPlayer.ts:111-113`).
- **`onTrackEnd` at the last index.** `onTrackEnd` runs on every track end at
  the last index, not once per list. `EndsAdvanceInOrder` counts one call per
  extra end.
- **A new track list.** It does not reset the index, so a shorter list can
  leave the index past its end (`NewListKeepsIndex`).
- **The resume timer.** Nothing cancels the 100 ms timer that follows a track
  end. A pause in between is overridden
  (`PauseDuringResumeDelayIsOverridden`).
- **Artwork and trailer links.** These test the prefix "http", not "http://"
  or "https://". So a relative artwork path such as "httpdocs/a.png" is not
  joined to the base URL (`ArtworkAgreesWithFullUrl`). A trailer
  "httpx.example.com" is opened as it is, while an episode URL with the same
  text gets "https://" (`TrailerAndEpisodeRulesDiffer`).
- **YouTube ids in the modal.** The modal's own id takes any capture length.
  `getEmbedUrl` requires exactly 11 characters, and the modal's validity uses
  the modal's id (`ValidSourceCases`).
- **`extractYouTubeVideoId`** in the series screen is defined but never
  called. It is modelled on its own.
- **Tapping a list item.** `handleItemPress` decides by the screen's `type`,
  not by the card's type (`ItemPress`).
- **The album example's artist.** The usage example prefers the album's
  artist to the track's. The album screen does the reverse
  (`ArtistPrecedenceDiffers`).
- **The "faixas" label** counts every song returned, including the ones the
  player skips (`CountIncludesUnplayable`).
- **The album example's fields.** It reads `audio_file` and `duration`, where
  the album screen reads `audio_url` and `duration_seconds`.

## Model

| member | source | states |
|---|---|---|
| BaseUrl.CleanPath | src/hooks/useAudioPlayer.ts:44 | exactly one leading '/' is dropped, and only when present |
| BaseUrl.FullUrl | src/hooks/useAudioPlayer.ts:40-46 | an http(s) URL is returned unchanged; any other path gives base + "/" + the path, from which the path is recovered up to the dropped '/' |
| BaseUrl.ImageUrl | src/screens/AudiobookDetail/AudiobookDetailScreen.tsx:60-67 | no image for a missing or empty path; an absolute path unchanged; otherwise a URL under base + "/" |
| BaseUrl.LeadingSlashIgnored | src/hooks/useAudioPlayer.ts:44-45 | a relative path with or without one leading '/' gives the same URL |
| BaseUrl.FullUrlIdempotent | src/hooks/useAudioPlayer.ts:40-46 | with an absolute base, joining an already joined URL changes nothing |
| BaseUrl.RootedPathJoin | src/hooks/useAudioPlayer.ts:44-45 | a path starting with '/' is joined with exactly one '/' between the base and the rest |
| Durations.FormatClock | src/screens/AlbumDetail/AlbumDetailScreen.tsx:71-75 | the label is digits, a colon and exactly two digits |
| Durations.FormatMinutes | src/screens/AudiobookDetail/AudiobookDetailScreen.tsx:69-76 | the label ends in "min", and is only digits before it exactly when there is no whole hour |
| Durations.FormatSeconds | src/screens/CourseDetail/CourseDetailScreen.tsx:76-83 | the label is the minutes label of the whole minutes |
| Durations.ClockRoundTrip | src/screens/AlbumDetail/AlbumDetailScreen.tsx:71-75 | reading back the `m:ss` label of n seconds gives n |
| Durations.ClockInjective | src/screens/AlbumDetail/AlbumDetailScreen.tsx:71-75 | different numbers of seconds never share a label |
| Durations.MinutesRoundTrip | src/screens/AudiobookDetail/AudiobookDetailScreen.tsx:69-76 | reading back the `Hh Mmin` / `Mmin` label of n minutes gives n |
| Durations.SecondsLabelIsWholeMinutes | src/screens/CourseDetail/CourseDetailScreen.tsx:76-83 | the course label of s seconds is the minutes label of the whole minutes of s, and reads back as s / 60 |
| TrackLists.FilterKeepsPassing | src/screens/AudiobookDetail/AudiobookDetailScreen.tsx:121 | the filter keeps exactly the passing elements, never more often than in the input |
| TrackLists.FilterDropsFailing | src/screens/AlbumDetail/AlbumDetailScreen.tsx:121 | one failing element makes the filtered list strictly shorter |
| TrackLists.FilterConcat | src/screens/AudiobookDetail/AudiobookDetailScreen.tsx:121 | filtering a concatenation is concatenating the filtered parts |
| TrackLists.FilterNone | src/screens/AudiobookDetail/AudiobookDetailScreen.tsx:121 | a list with no passing element filters to empty |
| TrackLists.InsertSorted | src/screens/AudiobookDetail/AudiobookDetailScreen.tsx:122 | inserting into a sorted list keeps it sorted |
| TrackLists.InsertPermutation | src/screens/AudiobookDetail/AudiobookDetailScreen.tsx:122 | inserting adds exactly one occurrence of the element and changes nothing else |
| TrackLists.SortByKeySorted | src/screens/AudiobookDetail/AudiobookDetailScreen.tsx:122 | the `a.k - b.k` sort gives an ascending list |
| TrackLists.SortByKeyPermutation | src/screens/AudiobookDetail/AudiobookDetailScreen.tsx:122 | the sort gives a permutation of its input |
| TrackLists.InsertKeepsTies | src/screens/AudiobookDetail/AudiobookDetailScreen.tsx:122 | an inserted element goes after every element with its key |
| TrackLists.SortIsStable | src/screens/AudiobookDetail/AudiobookDetailScreen.tsx:122 | elements with equal keys keep their input order |
| TrackLists.KeepSorted | src/screens/AudiobookDetail/AudiobookDetailScreen.tsx:120-122 | filter then sort: ascending, a permutation of the passing elements, no longer than the input, every element from the input and passing, every passing input element present |
| AudioPlayerHook.PlaybackState | src/hooks/useAudioPlayer.ts:173 | "playing" exactly when playing, "paused" otherwise |
| AudioPlayerHook.LoadEffect | src/hooks/useAudioPlayer.ts:49-59 | after the load effect the current track is the track at the index; the index and list are untouched |
| AudioPlayerHook.Report | src/hooks/useAudioPlayer.ts:159-163 | the callback receives the playing flag when it changed, so the last report equals the flag |
| AudioPlayerHook.Mounted | src/hooks/useAudioPlayer.ts:23-59 | on mount: index 0, loading, position and duration 0, playing only when autoplaying a non-empty list, the current track set only for a non-empty list, and the three invariants hold |
| AudioPlayerHook.Apply | src/hooks/useAudioPlayer.ts:62-156 | handlers never touch reports or autoPlay; only a new list changes the list; a moved index is inside the list or moved down |
| AudioPlayerHook.Step | src/hooks/useAudioPlayer.ts:32-163 | every event keeps the current track in step with the index and the last report equal to the flag; the index stays in the list, except after a new, shorter list |
| AudioPlayerHook.RunKeepsInvariants | src/hooks/useAudioPlayer.ts:134-156 | any event sequence without a new list keeps the list and the three invariants |
| AudioPlayerHook.SkipToNextEffect | src/hooks/useAudioPlayer.ts:134-139 | below the last index: exactly one forward, playing, loading the next track; at the last index: no change at all |
| AudioPlayerHook.SkipToPreviousEffect | src/hooks/useAudioPlayer.ts:141-149 | above index 0: one back and playing; at index 0: only position 0 and a seek to 0, and only with the media attached |
| AudioPlayerHook.SkipToIndexEffect | src/hooks/useAudioPlayer.ts:151-156 | an index inside the list is taken and playing starts; any other index changes nothing |
| AudioPlayerHook.StopAndSeekEffect | src/hooks/useAudioPlayer.ts:119-132 | stop pauses and zeroes position and duration; seekTo moves only the position and only with the media attached |
| AudioPlayerHook.MediaCallbackEffects | src/hooks/useAudioPlayer.ts:62-100 | load clears loading and keeps the old duration when 0 is reported; progress keeps a known duration, else the seekable one; an error clears loading and playing |
| AudioPlayerHook.EndedEffect | src/hooks/useAudioPlayer.ts:77-94 | an end pauses; before the last track it moves on and starts a resume timer, at the last track it calls onTrackEnd |
| AudioPlayerHook.Repeat | src/hooks/useAudioPlayer.ts:77-94 | k copies of one event, used to state repeated track ends |
| AudioPlayerHook.EndsAdvanceInOrder | src/hooks/useAudioPlayer.ts:77-94 | k ends walk forward one track each up to the last; each step leaves one timer and each end at the last track one onTrackEnd call |
| AudioPlayerHook.PlayPauseEffect | src/hooks/useAudioPlayer.ts:111-117 | play sets the playing flag and pause clears it; neither moves the index or touches the resume timers |
| AudioPlayerHook.ResumeTimerEffect | src/hooks/useAudioPlayer.ts:85-87 | a pending resume timer sets playing and stays on the track; with none pending nothing changes |
| AudioPlayerHook.PauseDuringResumeDelayIsOverridden | src/hooks/useAudioPlayer.ts:77-117 | end, pause, then the timer: the next track is playing |
| AudioPlayerHook.NewListKeepsIndex | src/hooks/useAudioPlayer.ts:32-37 | a new list keeps the index, even past the end of a shorter list |
| AudioPlayerHook.Player.constructor | src/hooks/useAudioPlayer.ts:21-59 | the object starts in the mounted state |
| AudioPlayerHook.Player.AfterRender | src/hooks/useAudioPlayer.ts:49-59 | the effects after a handler: reload when asked, then report |
| AudioPlayerHook.Player.Seek | src/hooks/useAudioPlayer.ts:127-132 | a seek command and a new position, only with the media attached |
| AudioPlayerHook.Player.Play | src/hooks/useAudioPlayer.ts:111-113 | the new state is `Step` of the old state and play |
| AudioPlayerHook.Player.Pause | src/hooks/useAudioPlayer.ts:115-117 | the new state is `Step` of the old state and pause |
| AudioPlayerHook.Player.Stop | src/hooks/useAudioPlayer.ts:119-125 | the new state is `Step` of the old state and stop |
| AudioPlayerHook.Player.SeekTo | src/hooks/useAudioPlayer.ts:127-132 | the new state is `Step` of the old state and seekTo(p) |
| AudioPlayerHook.Player.SkipToNext | src/hooks/useAudioPlayer.ts:134-139 | the new state is `Step` of the old state and skipToNext |
| AudioPlayerHook.Player.SkipToPrevious | src/hooks/useAudioPlayer.ts:141-149 | the new state is `Step` of the old state and skipToPrevious |
| AudioPlayerHook.Player.SkipToIndex | src/hooks/useAudioPlayer.ts:151-156 | the new state is `Step` of the old state and skipToIndex(i) |
| AudioPlayerHook.Player.HandleLoad | src/hooks/useAudioPlayer.ts:62-68 | the new state is `Step` of the old state and the load callback |
| AudioPlayerHook.Player.HandleProgress | src/hooks/useAudioPlayer.ts:70-75 | the new state is `Step` of the old state and the progress callback |
| AudioPlayerHook.Player.HandleEnd | src/hooks/useAudioPlayer.ts:77-94 | the new state is `Step` of the old state and the end callback |
| AudioPlayerHook.Player.HandleError | src/hooks/useAudioPlayer.ts:96-100 | the new state is `Step` of the old state and the error callback |
| AudioPlayerHook.Player.FireResumeTimer | src/hooks/useAudioPlayer.ts:85-87 | the new state is `Step` of the old state and a resume timer firing |
| AudioPlayerHook.Player.SetTracks | src/hooks/useAudioPlayer.ts:32-37 | the new state is `Step` of the old state and a new list |
| AudioPlayerView.FloorSplit | src/components/ui/AudioPlayer.tsx:29-30 | whole minutes and leftover whole seconds of a time are those of its whole seconds |
| AudioPlayerView.FormatTime | src/components/ui/AudioPlayer.tsx:26-32 | the label of a non-negative time is the `m:ss` clock label of its whole seconds |
| AudioPlayerView.FormatTimeIsClockOfWholeSeconds | src/components/ui/AudioPlayer.tsx:26-32 | the time label of t is the `m:ss` label of its whole seconds and reads back as them |
| AudioPlayerView.PreviousEnabled | src/components/ui/AudioPlayer.tsx:323-325 | when the previous button is enabled, a press moves one track back and plays |
| AudioPlayerView.NextEnabled | src/components/ui/AudioPlayer.tsx:353-354 | when the next button is enabled, a press moves one track on and plays |
| AudioPlayerView.PlayPauseEnabled | src/components/ui/AudioPlayer.tsx:335-336 | the play/pause button is enabled whenever a skip button is; when enabled, a press flips the playing flag and stays on the track |
| AudioPlayerView.PlayPauseAction | src/components/ui/AudioPlayer.tsx:333-336 | the button's event flips the playing flag |
| AudioPlayerView.SkipButtonsMatchHook | src/components/ui/AudioPlayer.tsx:231-232 | next is offered exactly when skipToNext moves, previous exactly when skipToPrevious moves, each by one track |
| AudioPlayerView.Clamp01 | src/components/ui/AudioPlayer.tsx:293 | the fraction lies in [0, 1] and is unchanged inside it |
| AudioPlayerView.SeekTarget | src/components/ui/AudioPlayer.tsx:287-296 | a press seeks exactly when not loading and the duration is positive |
| AudioPlayerView.SeekTargetValue | src/components/ui/AudioPlayer.tsx:293-295 | the target is the clamped fraction of the duration |
| AudioPlayerView.SeekTargetRange | src/components/ui/AudioPlayer.tsx:293-295 | the target lies in [0, duration]; a press left of the bar seeks to 0, right of it to the duration |
| AudioPlayerView.SeekTargetMonotone | src/components/ui/AudioPlayer.tsx:293-295 | pressing further right never seeks earlier |
| AudioPlayerView.ProgressPercent | src/components/ui/AudioPlayer.tsx:302-306 | 0 without a duration, within [0, 100] for a position inside the track |
| AudioPlayerView.PercentOfFraction | src/components/ui/AudioPlayer.tsx:287-307 | a position that is the fraction f of a known duration fills f of the bar |
| AudioPlayerView.FillFollowsPress | src/components/ui/AudioPlayer.tsx:287-307 | after a press the fill shows the pressed fraction |
| AudioPlayerView.TitleLabel | src/components/ui/AudioPlayer.tsx:274 | the track title, or "Sem título" when missing or empty |
| AudioPlayerView.ArtistLabel | src/components/ui/AudioPlayer.tsx:277 | the track artist, or "Artista desconhecido" when missing or empty |
| AudioPlayerView.ArtworkUri | src/components/ui/AudioPlayer.tsx:258-270 | no image without artwork; artwork starting with "http" as it is; otherwise joined to the base |
| AudioPlayerView.ArtworkAgreesWithFullUrl | src/components/ui/AudioPlayer.tsx:262 | the artwork rule equals the join rule except on relative paths starting with "http" |
| AudioPlayerView.MediaSource | src/components/ui/AudioPlayer.tsx:233-254 | the hidden media element exists exactly when the hook's seeks reach it, with the joined track URL |
| AudioPlayerView.TrackRowPlaysIt | src/components/ui/AudioPlayer.tsx:364-401 | pressing row k plays track k |
| AudioPlayerView.Render | src/components/ui/AudioPlayer.tsx:221-313 | only the "Nenhuma faixa disponível" message for an empty list; otherwise the player, with the media element exactly when attached |
| VideoEmbed.IdRunEnd | src/components/ui/VideoPlayerModal.tsx:29 | `[^&\n?#]+` takes the longest run without a stop character |
| VideoEmbed.MarkerAt | src/components/ui/VideoPlayerModal.tsx:29 | the first alternative matching at a position, followed by an id character |
| VideoEmbed.CaptureFrom | src/components/ui/VideoPlayerModal.tsx:29 | the capture is non-empty and has no '&', '?', '#' or newline |
| VideoEmbed.NoCaptureMeansNoMatch | src/components/ui/VideoPlayerModal.tsx:29-32 | there is no capture exactly when no position matches |
| VideoEmbed.ShortLinkPatternRedundant | src/components/ui/VideoPlayerModal.tsx:34-40 | the `youtu.be` fallback never finds what the first pattern missed |
| VideoEmbed.YouTubeVideoId | src/components/ui/VideoPlayerModal.tsx:26-44 | an id only when the capture is exactly 11 characters, and then the capture itself |
| VideoEmbed.YouTubeEmbedUrl | src/components/ui/VideoPlayerModal.tsx:25-50 | an embed URL exactly when an id is accepted: the fixed prefix, that id, the fixed parameters |
| VideoEmbed.LastSlashBeforeDigit | src/components/ui/VideoPlayerModal.tsx:54 | the greedy `(?:.*\/)?`: the last '/' on the line followed by a digit |
| VideoEmbed.VimeoDigitsAt | src/components/ui/VideoPlayerModal.tsx:54 | a digit id found after the marker is non-empty, all digits, and taken from the URL |
| VideoEmbed.VimeoIdFrom | src/components/ui/VideoPlayerModal.tsx:54-55 | the leftmost match's id is non-empty, all digits, and taken from the URL |
| VideoEmbed.VimeoEmbedUrl | src/components/ui/VideoPlayerModal.tsx:53-60 | a player URL exactly when an id is found: the fixed prefix, a non-empty digit string from the URL, "?autoplay=1" |
| VideoEmbed.PandaEmbedUrl | src/components/ui/VideoPlayerModal.tsx:63-74 | only for pandavideo.com / panda.video URLs: the URL, then '&' if it has a '?' else '?', then "autoplay=1" |
| VideoEmbed.EmbedUrl | src/components/ui/VideoPlayerModal.tsx:76-91 | YouTube, else Vimeo, else Panda; none only when all three fail |
| VideoEmbed.ModalVideoId | src/components/ui/VideoPlayerModal.tsx:116-123 | for a YouTube source, the first capture with no length check, non-empty and without stop characters |
| VideoEmbed.HasValidSource | src/components/ui/VideoPlayerModal.tsx:294 | a valid source has page content; a YouTube source is valid exactly when the modal found an id, any other source exactly when `getEmbedUrl` resolves it |
| VideoEmbed.ValidSourceCases | src/components/ui/VideoPlayerModal.tsx:294 | a YouTube source is valid exactly when an id is captured; any other source exactly when `getEmbedUrl` resolves it |
| VideoEmbed.ContainsAnyMeans | src/components/ui/VideoPlayerModal.tsx:383-411 | the marker test holds exactly when some listed marker occurs |
| VideoEmbed.ShouldStartLoad | src/components/ui/VideoPlayerModal.tsx:374-415 | blank, empty, data: and blob: requests and all non-YouTube requests pass; for YouTube a request passes exactly when it names a player resource, so the blocked-page branch decides nothing |
| VideoEmbed.RequestFilterMeaning | src/components/ui/VideoPlayerModal.tsx:374-415 | blank, empty, data: and blob: requests and all non-YouTube requests pass; for YouTube a request passes exactly when it mentions a player resource |
| AudiobookDetail.BookArtist | src/screens/AudiobookDetail/AudiobookDetailScreen.tsx:127-130 | the first author's name, else the narrator, else "Desconhecido"; never empty |
| AudiobookDetail.ChapterTracks | src/screens/AudiobookDetail/AudiobookDetailScreen.tsx:120-133 | one track per kept chapter, in ascending `order`, no more tracks than chapters |
| AudiobookDetail.ChapterTracksFacts | src/screens/AudiobookDetail/AudiobookDetailScreen.tsx:120-133 | every track has a URL, the book's artist and artwork, and comes from a published chapter with audio; every such chapter has its track |
| AudiobookDetail.SameOrderKeepsApiOrder | src/screens/AudiobookDetail/AudiobookDetailScreen.tsx:122 | chapters with equal `order` play in the order received |
| AudiobookDetail.PlayerShownIffPlayableChapter | src/screens/AudiobookDetail/AudiobookDetailScreen.tsx:364 | the player appears exactly when some chapter is published with an audio file |
| AudiobookDetail.FilterSkipsFirst | src/screens/AudiobookDetail/AudiobookDetailScreen.tsx:121 | an unplayable first chapter is dropped, the other two kept |
| AudiobookDetail.SortTwoInOrder | src/screens/AudiobookDetail/AudiobookDetailScreen.tsx:122 | two chapters already in order stay in order |
| AudiobookDetail.UnpublishedChapterIsSkipped | src/screens/AudiobookDetail/AudiobookDetailScreen.tsx:120-133 | orders 3 (unpublished), 1, 2 give the tracks of chapters 1 and 2 |
| AlbumDetail.SongArtist | src/screens/AlbumDetail/AlbumDetailScreen.tsx:127-130 | the song's first artist, else the album's artist, else "Desconhecido"; never empty |
| AlbumDetail.SongTracks | src/screens/AlbumDetail/AlbumDetailScreen.tsx:120-133 | one track per kept song, in ascending track number, no more tracks than songs |
| AlbumDetail.SongTracksFacts | src/screens/AlbumDetail/AlbumDetailScreen.tsx:120-133 | every track has a URL and the album's artwork and comes from a published song with audio; every such song has its track |
| AlbumDetail.SameNumberKeepsApiOrder | src/screens/AlbumDetail/AlbumDetailScreen.tsx:122 | songs with equal track numbers play in the order received |
| AlbumDetail.SongCountLabel | src/screens/AlbumDetail/AlbumDetailScreen.tsx:315-318 | a label exactly when there are songs, whose number reads back as the song count |
| AlbumDetail.CountIncludesUnplayable | src/screens/AlbumDetail/AlbumDetailScreen.tsx:315-318 | one unplayable song makes the count exceed the player's track list |
| AudioPlayerExample.ExampleArtist | src/components/ui/AudioPlayer.example.tsx:92 | the album's artist, else the track's, else "Desconhecido"; never empty |
| AudioPlayerExample.ExampleAlbumTracks | src/components/ui/AudioPlayer.example.tsx:85-95 | one track per kept record (published, with `audio_file`), in ascending track number |
| AudioPlayerExample.AlbumArtistCoversEveryTrack | src/components/ui/AudioPlayer.example.tsx:92 | with a named album artist, every track carries it |
| AudioPlayerExample.ArtistPrecedenceDiffers | src/components/ui/AudioPlayer.example.tsx:92 | for one song given to both chains with its own artist, different from the album's, the album screen shows the song's artist and the example the album's |
| Links.HttpPrefixed | src/screens/MovieDetail/MovieDetailScreen.tsx:103-105 | the result starts with "http"; it is the link itself exactly when the link starts with "http", else "https://" + link |
| Links.HttpPrefixedIdempotent | src/screens/MovieDetail/MovieDetailScreen.tsx:103-105 | prefixing twice is prefixing once |
| Links.OpenTarget | src/screens/MovieDetail/MovieDetailScreen.tsx:102-105 | a target exactly when the link is non-empty; it starts with "http" and ends with the link |
| Links.Opened | src/screens/MovieDetail/MovieDetailScreen.tsx:101-111 | a link is opened exactly when present and the system can open it, and it is the target |
| MovieDetail.PlayVideo | src/screens/MovieDetail/MovieDetailScreen.tsx:101-111 | opens the video link exactly when present and openable, as it is or with "https://" |
| MovieDetail.PlayTrailer | src/screens/MovieDetail/MovieDetailScreen.tsx:89-99 | opens the trailer link exactly when present and openable, as it is or with "https://" |
| SeriesDetail.StatusLabel | src/screens/SeriesDetail/SeriesDetailScreen.tsx:78-86 | the four known statuses get their Portuguese labels; any other status is shown as it is |
| SeriesDetail.StatusLabelIdempotent | src/screens/SeriesDetail/SeriesDetailScreen.tsx:78-86 | labelling a label changes nothing |
| SeriesDetail.MarkerLen | src/screens/SeriesDetail/SeriesDetailScreen.tsx:90 | an alternative of the group matches at the position, inside the first line |
| SeriesDetail.Rightmost | src/screens/SeriesDetail/SeriesDetailScreen.tsx:90 | the backtracking search returns a position at or before the bound that passes the test |
| SeriesDetail.RightmostIsRightmost | src/screens/SeriesDetail/SeriesDetailScreen.tsx:90 | no later position passes the test, and none at all when the search fails |
| SeriesDetail.LastMarker | src/screens/SeriesDetail/SeriesDetailScreen.tsx:90 | the greedy `^.*` picks a marker at or before the bound |
| SeriesDetail.LastMarkerIsRightmost | src/screens/SeriesDetail/SeriesDetailScreen.tsx:90 | no marker lies between the chosen one and the bound, and none at all when there is no choice |
| SeriesDetail.Capture | src/screens/SeriesDetail/SeriesDetailScreen.tsx:90-91 | the captured group has no '#', '&' or '?' and is taken from the URL |
| SeriesDetail.CaptureIffMarker | src/screens/SeriesDetail/SeriesDetailScreen.tsx:90-91 | the pattern matches exactly when a marker starts in the first line |
| SeriesDetail.ExtractYouTubeVideoId | src/screens/SeriesDetail/SeriesDetailScreen.tsx:89-93 | an id exactly when the group is 11 characters long, and then the group itself |
| SeriesDetail.ShortLinkYieldsId | src/screens/SeriesDetail/SeriesDetailScreen.tsx:89-93 | "youtu.be/" followed by 11 word characters yields those 11 characters |
| SeriesDetail.EpisodeUrl | src/screens/SeriesDetail/SeriesDetailScreen.tsx:188-203 | a URL exactly when the episode has one; it starts with "http://" or "https://" and is the trimmed URL or "https://" + it |
| SeriesDetail.LinkEdges | src/screens/SeriesDetail/SeriesDetailScreen.tsx:194-199 | a link made from a trimmed URL neither starts nor ends with white space |
| SeriesDetail.EpisodeUrlStable | src/screens/SeriesDetail/SeriesDetailScreen.tsx:194-199 | normalising a normalised episode URL changes nothing |
| SeriesDetail.TrailerUrl | src/screens/SeriesDetail/SeriesDetailScreen.tsx:176-186 | a target exactly when the trailer is non-empty; it starts with "http" |
| SeriesDetail.TrailerAndEpisodeRulesDiffer | src/screens/SeriesDetail/SeriesDetailScreen.tsx:176-198 | a link starting with "http" is kept by the trailer rule; the episode rule prefixes it exactly when it starts with neither "http://" nor "https://" (so "httpx.example.com" differs) |
| SeriesDetail.SelectedAfterLoad | src/screens/SeriesDetail/SeriesDetailScreen.tsx:156-158 | the first season is selected when the list is non-empty; otherwise the selection is kept |
| CourseDetail.NormaliseModule | src/screens/CourseDetail/CourseDetailScreen.tsx:110-113 | an object entry keeps its fields and its lessons are always a list, empty when missing |
| CourseDetail.NormaliseModules | src/screens/CourseDetail/CourseDetailScreen.tsx:106-113 | fails exactly when some entry is `null`; otherwise a missing list is empty and each module is normalised, same length and order |
| CourseDetail.SortedModules | src/screens/CourseDetail/CourseDetailScreen.tsx:365-367 | exactly the modules with an id, ascending by order |
| CourseDetail.SortedClassrooms | src/screens/CourseDetail/CourseDetailScreen.tsx:437-439 | exactly the active lessons with an id, ascending by order |
| CourseDetail.MissingOrderCountsAsZero | src/screens/CourseDetail/CourseDetailScreen.tsx:367 | modules without an order sit among order 0 in the order received |
| CourseDetail.LessonLabel | src/screens/CourseDetail/CourseDetailScreen.tsx:451 | the count, then " aula", with a final "s" exactly when the count is not 1 |
| CourseDetail.LessonLabelCount | src/screens/CourseDetail/CourseDetailScreen.tsx:451 | the count reads back from the label |
| CourseDetail.Toggle | src/screens/CourseDetail/CourseDetailScreen.tsx:127-135 | the module's membership flips; every other module is unchanged |
| CourseDetail.ToggleTwice | src/screens/CourseDetail/CourseDetailScreen.tsx:127-135 | toggling twice restores the set |
| CourseDetail.TogglesCommute | src/screens/CourseDetail/CourseDetailScreen.tsx:127-135 | toggles of two modules can be applied in either order |
| CourseDetail.CourseScreen.constructor | src/screens/CourseDetail/CourseDetailScreen.tsx:90-94 | no course, nothing expanded, no video, no error |
| CourseDetail.CourseScreen.LoadCourse | src/screens/CourseDetail/CourseDetailScreen.tsx:100-120 | modules normalised, only the first module expanded when there is one, the error cleared; a `null` entry instead sets the `TypeError` message and keeps the modules and expanded set |
| CourseDetail.LoadWithNullModule | src/screens/CourseDetail/CourseDetailScreen.tsx:100-120 | a list with a `null` entry leaves a fresh screen without modules, nothing expanded, and the error set |
| CourseDetail.CourseScreen.LoadFailed | src/screens/CourseDetail/CourseDetailScreen.tsx:119-120 | the error's message, else "Erro ao carregar curso"; nothing else changes |
| CourseDetail.CourseScreen.ToggleModule | src/screens/CourseDetail/CourseDetailScreen.tsx:127-135 | the expanded set becomes `Toggle` of the old one; nothing else changes |
| CourseDetail.CourseScreen.PressClassroom | src/screens/CourseDetail/CourseDetailScreen.tsx:137-141 | a lesson with a video selects it; one without changes nothing |
| CourseDetail.CourseScreen.CloseVideo | src/screens/CourseDetail/CourseDetailScreen.tsx:510 | the video is deselected; nothing else changes |
| EbookDetail.PdfUrl | src/screens/EbookDetail/EbookDetailScreen.tsx:61-67 | an absolute path unchanged; otherwise the join, longer than the base |
| EbookDetail.ViewerShownIffPdfFile | src/screens/EbookDetail/EbookDetailScreen.tsx:547 | the viewer shows exactly when the ebook has a PDF file |
| EbookDetail.PdfPager.constructor | src/screens/EbookDetail/EbookDetailScreen.tsx:174-177 | page 1, not rendering, nothing waiting; the invariant holds |
| EbookDetail.PdfPager.RenderPage | src/screens/EbookDetail/EbookDetailScreen.tsx:181-182 | a render of the page starts |
| EbookDetail.PdfPager.Open | src/screens/EbookDetail/EbookDetailScreen.tsx:236-238 | the document opens, the current page is rendered and nothing waits; the invariant holds |
| EbookDetail.PdfPager.QueueRenderPage | src/screens/EbookDetail/EbookDetailScreen.tsx:215-221 | while rendering, the page replaces the waiting one; otherwise it renders now |
| EbookDetail.PdfPager.PrevPage | src/screens/EbookDetail/EbookDetailScreen.tsx:215-227 | on page 1 nothing changes; otherwise one page back, a render is in flight, and the page either waits behind the running render or starts at once; the page stays in [1, numPages] |
| EbookDetail.PdfPager.NextPage | src/screens/EbookDetail/EbookDetailScreen.tsx:215-233 | on the last page nothing changes; otherwise one page on, a render is in flight, and the page either waits behind the running render or starts at once; the page stays in [1, numPages] |
| EbookDetail.PdfPager.RenderDone | src/screens/EbookDetail/EbookDetailScreen.tsx:200-205 | rendering ends; a waiting page is rendered and the slot cleared, so the last render is the current page |
| EbookDetail.OpenFinishNext | src/screens/EbookDetail/EbookDetailScreen.tsx:200-238 | opening, finishing the first render, moving on and finishing again renders pages 1 then 2 and leaves nothing in flight |
| EbookDetail.PdfIndicator.constructor | src/screens/EbookDetail/EbookDetailScreen.tsx:91 | the indicator starts on |
| EbookDetail.PdfIndicator.Handle | src/screens/EbookDetail/EbookDetailScreen.tsx:562-575 | load end, error and HTTP error each turn it off |
| ContentList.PickImage | src/screens/Videoteca/VideotecaScreen.tsx:21 | an image exactly when one path is non-empty, from the first when it is |
| ContentList.MapCards | src/screens/ContentList/ContentListScreen.tsx:56 | one card per record, same length and order |
| ContentList.MapCardsConcat | src/screens/ContentList/ContentListScreen.tsx:56 | cards never move between records: mapping distributes over concatenation |
| ContentList.ItemPress | src/screens/ContentList/ContentListScreen.tsx:66-76 | video screens open the movie, series screens the series, with the item's id; other screens stay |
| ContentList.ContentListScreen.constructor | src/screens/ContentList/ContentListScreen.tsx:42-44 | loading, no cards, no error |
| ContentList.ContentListScreen.LoadContent | src/screens/ContentList/ContentListScreen.tsx:50-64 | the mapped cards or the error text ("Erro ao carregar conteúdo" by default); loading ends either way |
| Videoteca.MovieCard | src/screens/Videoteca/VideotecaScreen.tsx:17-23 | a video card: the id, the title or "", the first genre or "", the poster else the banner |
| Videoteca.MovieSlide | src/screens/Videoteca/VideotecaScreen.tsx:25-31 | the id; the title and description, each the record's value or ""; the banner before the poster; the trailer else the video URL |
| Videoteca.CardAndSlidePickDifferentPictures | src/screens/Videoteca/VideotecaScreen.tsx:21-29 | with both pictures, the card shows the poster and the slideshow the banner |
| Ebooks.EbookCard | src/screens/Ebooks/EbooksScreen.tsx:17-23 | an ebook card with the id; the title or ""; the first author, else the publisher, else ""; the poster else the banner |
| Ebooks.EbookSlide | src/screens/Ebooks/EbooksScreen.tsx:25-30 | the id; the title or ""; the description or ""; the banner before the poster |
| SeriesList.SeriesCard | src/screens/Series/SeriesScreen.tsx:16-22 | a series card with the id; the title or ""; the raw status, else the first genre, else "" |
| Musicas.AlbumCard | src/screens/Musicas/MusicasScreen.tsx:16-22 | an album card with the id; the title or ""; the artist or "" |
| Audiobooks.AudiobookCard | src/screens/Audiobooks/AudiobooksScreen.tsx:16-22 | an audiobook card with the id; the title or ""; the first author, else the narrator, else "" |
| Cursos.CourseCard | src/screens/Cursos/CursosScreen.tsx:16-22 | a course card with the id; the title or ""; the teacher, else the category, else "" |
| Login.Validate | src/screens/Login/useLoginController.ts:13-22 | an email error exactly when the email is empty or has no '@'; a password error exactly when it has fewer than 6 characters |
| Login.InitialFormIsValid | src/screens/Login/useLoginController.ts:7-8 | the prefilled email and password pass validation |
| Login.LoginController.constructor | src/screens/Login/useLoginController.ts:7-11 | the prefilled fields, hidden password, not loading, no errors |
| Login.LoginController.SetEmail | src/screens/Login/useLoginController.ts:7 | only the email changes |
| Login.LoginController.SetPassword | src/screens/Login/useLoginController.ts:8 | only the password changes |
| Login.LoginController.ValidateForm | src/screens/Login/useLoginController.ts:13-26 | the error object is replaced by a fresh one; true exactly when it is empty |
| Login.LoginController.HandleLogin | src/screens/Login/useLoginController.ts:28-49 | an invalid form changes only the errors; a valid one sets then clears loading, goes to "Home" on success or alerts the error's message (else "Erro ao fazer login") |
| Login.LoginOnFreshScreen | src/screens/Login/useLoginController.ts:7-49 | pressing login on a fresh screen reaches "Home" and ends not loading |
| ApiClient.BaseMessage | src/services/api/client.ts:70-74 | the body's message, else the transport's, else "Erro desconhecido"; never empty |
| ApiClient.Classify | src/services/api/client.ts:70-104 | code and status copied; the connection text without a response; fixed texts for 403, 404 and 500; the base message otherwise |
| ApiClient.ClassifiedMessageCases | src/services/api/client.ts:70-102 | the message is never empty and is the base message or one of the four fixed texts |
| ApiClient.RequestConfig.constructor | src/services/api/client.ts:25 | a request configuration with the given headers |
| ApiClient.Client.constructor | src/services/api/client.ts:28 | a client over the given storage |
| ApiClient.Client.AuthorizeRequest | src/services/api/client.ts:28-31 | `Authorization: Bearer <token>` is set exactly when a non-empty token is stored and headers exist |
| ApiClient.Client.OnResponseError | src/services/api/client.ts:60-104 | the rejected error is `Classify` of the failure; a 401 removes the token and user data, and nothing else changes storage |

## Left out

- Rendering, styling, navigation wiring, the home screen and the login screen are not part of this model. They are UI and framework configuration.
- Network calls, `homeService` and `useApiQuery` are left out. Each response is a given list of records, or a failure with an optional message.
- The storage service (`src/services/storage`) is not part of this model. Storage is a map of strings. The asynchronous `removeItem` calls are treated as done by the time the error is rejected.
- A token read that throws is not modelled (`AuthorizeRequest`). Such a read leaves the request unchanged in the source.
- The `__DEV__` request and response logging is left out: it has no effect on state.
- `Linking.canOpenURL` is the `canOpen` parameter of `Links.Opened`, and `Linking.openURL` is its result.
- The media element, the WebView and PDF.js are abstract events (load, progress, end, error, render done) and commands (seek, render).
- React scheduling is left out: each event sees the state the previous one produced. The stale closures of `useCallback` and the batching of state updates are not modelled.
- The 100 ms timer is a counter of pending resumes. Real time, and clearing the timers on unmount, are not modelled.
- `formatTime` is modelled for finite, non-negative times only. Its `isNaN` / `isFinite` branch and negative times are not covered.
- The seek bar width (screen width minus padding) is a positive parameter, since the screen dimensions are not modelled.
- Durations are whole numbers (`nat`). Fractional or negative minutes and seconds in the `formatDuration` copies are not modelled.
- The `formatDuration` copies map to three functions:
  - the minutes format `Durations.FormatMinutes` covers the audiobook, series and movie screens;
  - the `m:ss` format `Durations.FormatClock` covers the album screen. That copy is declared there but never called, so the album screen shows no such label. `Durations.ClockRoundTrip` and `ClockInjective` are about the formula; the same label is shown by the player (`AudioPlayerView.FormatTime`);
  - the seconds format `Durations.FormatSeconds` covers the course screen.
- The thirteen `getImageUrl` copies and `getPdfUrl` are the one rule `BaseUrl.ImageUrl` / `BaseUrl.FullUrl`. The copies are identical.
- JavaScript regular expressions are modelled only for the patterns the code uses. Behaviour on lone UTF-16 surrogates is not modelled, and neither is the `\w` class beyond ASCII letters, digits and '_'.
- `SeriesDetail.StatusLabel`: keys inherited from `Object.prototype`, such as "constructor", are not modelled. The source's lookup would return a function for those.
- `CourseDetail.CourseScreen.LoadCourse`: an id-less first module puts `undefined` in the expanded set in the source. The model leaves the set empty. Neither matches a listed module, because listed modules have ids.
- `CourseDetail.NullModuleMessage`: the text of the `TypeError` raised by a `null` module entry depends on the JavaScript engine. The model uses Hermes' wording. `null` lessons are not modelled.
- `CourseDetail.SortedModules`: orders are integers. `NaN` orders, and comparators that return `NaN`, are not modelled.
- `Login.Validate`: the length is counted in characters, where the source counts UTF-16 code units.
- `VideoEmbed.YouTubeVideoId`: the 11-character check counts characters, where `length === 11` counts UTF-16 code units. A capture of ten ASCII characters and one character outside the Basic Multilingual Plane (an emoji) has length 12 in the source and is refused there, but is accepted here.
- `SeriesDetail.ExtractYouTubeVideoId`: the same gap as `VideoEmbed.YouTubeVideoId`. Its `length === 11` check counts UTF-16 code units, and the model counts characters.
- `handleGoogleLogin` and `handleForgotPassword` are left out, being outside the form-validation and login core. `handleGoogleLogin` sets loading, waits 1.5 s, replaces the route with "Home", alerts the error's message (else "Erro ao fazer login com Google") on failure, and clears loading. `handleForgotPassword` only shows the "Recuperar Senha" alert.
- `handleLogin`'s simulated 1.5 s delay is left out. The sign-in outcome is the `signIn` parameter.
- The PDF viewer's "Página N de M" label and its navigation buttons' markup are left out as rendering. The buttons are `PrevPage` / `NextPage`.
- Before the document opens, `onPrevPage` and `onNextPage` are not modelled (`EbookDetail.PdfPager.PrevPage`, `EbookDetail.PdfPager.NextPage` require an open document). In the source, `onNextPage` would read `pdfDoc.numPages` from `null` and throw.
- `formatDate`, `price.toFixed(2)` and other locale formatting are left out.
- The slideshow props passed by the movie and ebook list screens are not declared by the shared list screen. Their entries are modelled (`MovieSlide`, `EbookSlide`), but not how the list screen would show them.
