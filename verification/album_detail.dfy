/**
 * The album screen's song list: published songs with an audio URL, in
 * ascending track number, each turned into a player track; the song's own
 * artist comes before the album's.
 */
module AlbumDetail {
  import opened Wrappers
  import opened Text
  import opened TrackLists
  import opened AudioPlayerHook

  datatype Song = Song(
    id: string,
    title: string,
    trackNumber: int,
    audioUrl: Option<string>,
    durationSeconds: Option<int>,
    isPublished: bool,
    artistNames: seq<string>)

  /** The fields of an album the track list reads; `artistName` is `album.artist?.name`. */
  datatype Album = Album(poster: Option<string>, banner: Option<string>, artistName: Option<string>)

  const UnknownArtist := "Desconhecido"

  predicate IsPlayable(s: Song) {
    s.isPublished && Truthy(s.audioUrl)
  }

  function TrackNumber(s: Song): int {
    s.trackNumber
  }

  /** The song's first artist, else the album's artist, else "Desconhecido". */
  function SongArtist(album: Album, s: Song): (r: string)
    ensures r != ""
    ensures |s.artistNames| > 0 && s.artistNames[0] != "" ==> r == s.artistNames[0]
    ensures !(|s.artistNames| > 0 && s.artistNames[0] != "") && Truthy(album.artistName) ==> r == album.artistName.value
    ensures !(|s.artistNames| > 0 && s.artistNames[0] != "") && !Truthy(album.artistName) ==> r == UnknownArtist
  {
    OrElse(Or(FirstName(s.artistNames), album.artistName), UnknownArtist)
  }

  function SongTrack(album: Album, s: Song): Track {
    Track(s.id, s.audioUrl.GetOr(""), s.title, Some(SongArtist(album, s)),
          Or(album.poster, album.banner), Some(s.durationSeconds.GetOr(0)))
  }

  function KeptSongs(songs: seq<Song>): seq<Song> {
    KeepSorted(songs, IsPlayable, TrackNumber)
  }

  /** `loadSongs`' conversion: the kept songs, in ascending track number, each as a track. */
  function SongTracks(album: Album, songs: seq<Song>): (r: seq<Track>)
    ensures var kept := KeptSongs(songs);
      && SortedBy(kept, TrackNumber) && |r| == |kept| <= |songs|
      && forall i :: 0 <= i < |r| ==> r[i] == SongTrack(album, kept[i])
  {
    var kept := KeptSongs(songs);
    seq(|kept|, i requires 0 <= i < |kept| => SongTrack(album, kept[i]))
  }

  /**
   * One track per playable song and no other, each with the album's artwork
   * and a non-empty URL.
   */
  lemma SongTracksFacts(album: Album, songs: seq<Song>)
    ensures var r := SongTracks(album, songs);
      && (forall i :: 0 <= i < |r| ==> r[i].url != "" && r[i].artwork == Or(album.poster, album.banner))
      && (forall i :: 0 <= i < |r| ==>
            exists j :: 0 <= j < |songs| && IsPlayable(songs[j]) && r[i] == SongTrack(album, songs[j]))
      && (forall j :: 0 <= j < |songs| && IsPlayable(songs[j]) ==> SongTrack(album, songs[j]) in r)
  {
    var kept := KeptSongs(songs);
    var r := SongTracks(album, songs);
    forall i | 0 <= i < |r|
      ensures exists j :: 0 <= j < |songs| && IsPlayable(songs[j]) && r[i] == SongTrack(album, songs[j])
    {
      assert kept[i] in songs && IsPlayable(kept[i]);
      var j :| 0 <= j < |songs| && songs[j] == kept[i];
    }
    forall j | 0 <= j < |songs| && IsPlayable(songs[j])
      ensures SongTrack(album, songs[j]) in r
    {
      var i :| 0 <= i < |kept| && kept[i] == songs[j];
      assert r[i] == SongTrack(album, songs[j]);
    }
  }

  /** Songs with the same track number reach the player in the order the API sent them. */
  lemma SameNumberKeepsApiOrder(songs: seq<Song>, k: int)
    ensures WithKey(KeptSongs(songs), TrackNumber, k) == WithKey(Filter(songs, IsPlayable), TrackNumber, k)
  {
    SortIsStable(Filter(songs, IsPlayable), TrackNumber, k);
  }

  /** The "N faixas" label, shown when the album has songs, counts every song the API returned. */
  function SongCountLabel(songs: seq<Song>): (r: Option<string>)
    ensures r.Some? <==> |songs| > 0
    ensures r.Some? ==> ParseNat(r.value[..LeadingDigits(r.value)]) == |songs|
  {
    if |songs| > 0 then
      var n := NatToString(|songs|);
      LeadingDigitsOfConcat(n, " faixas");
      ParseNatToString(|songs|);
      assert (n + " faixas")[..|n|] == n;
      Some(n + " faixas")
    else None
  }

  /**
   * The count label counts unpublished songs and songs without audio too, so
   * it is larger than the player's track list as soon as one song is not playable.
   */
  lemma CountIncludesUnplayable(album: Album, songs: seq<Song>, j: nat)
    requires j < |songs| && !IsPlayable(songs[j])
    ensures |SongTracks(album, songs)| < |songs|
  {
    FilterDropsFailing(songs, IsPlayable, j);
    var kept := KeptSongs(songs);
    assert |multiset(kept)| == |multiset(Filter(songs, IsPlayable))|;
  }
}
