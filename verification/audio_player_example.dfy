/**
 * The album example of the player's usage file. Its audiobook chain is the
 * audiobook screen's chain (`AudiobookDetail.ChapterTracks`); its album chain
 * reads `audio_file` and `duration` and prefers the album's artist to the track's.
 */
module AudioPlayerExample {
  import opened Wrappers
  import opened TrackLists
  import opened AudioPlayerHook
  import AlbumDetail

  datatype AlbumTrackRecord = AlbumTrackRecord(
    id: string,
    title: string,
    trackNumber: int,
    audioFile: Option<string>,
    duration: Option<int>,
    isPublished: bool,
    artistName: Option<string>)

  predicate IsPlayable(t: AlbumTrackRecord) {
    t.isPublished && Truthy(t.audioFile)
  }

  function TrackNumber(t: AlbumTrackRecord): int {
    t.trackNumber
  }

  /** The album's artist, else the track's artist, else "Desconhecido". */
  function ExampleArtist(album: AlbumDetail.Album, t: AlbumTrackRecord): (r: string)
    ensures r != ""
    ensures Truthy(album.artistName) ==> r == album.artistName.value
    ensures !Truthy(album.artistName) && Truthy(t.artistName) ==> r == t.artistName.value
    ensures !Truthy(album.artistName) && !Truthy(t.artistName) ==> r == AlbumDetail.UnknownArtist
  {
    OrElse(Or(album.artistName, t.artistName), AlbumDetail.UnknownArtist)
  }

  function ExampleTrack(album: AlbumDetail.Album, t: AlbumTrackRecord): Track {
    Track(t.id, t.audioFile.GetOr(""), t.title, Some(ExampleArtist(album, t)),
          Or(album.poster, album.banner), Some(t.duration.GetOr(0)))
  }

  function KeptRecords(records: seq<AlbumTrackRecord>): seq<AlbumTrackRecord> {
    KeepSorted(records, IsPlayable, TrackNumber)
  }

  /** The example's album conversion: the kept records, in ascending track number, each as a track. */
  function ExampleAlbumTracks(album: AlbumDetail.Album, records: seq<AlbumTrackRecord>): (r: seq<Track>)
    ensures var kept := KeptRecords(records);
      && SortedBy(kept, TrackNumber) && |r| == |kept| <= |records|
      && forall i :: 0 <= i < |r| ==> r[i] == ExampleTrack(album, kept[i])
  {
    var kept := KeptRecords(records);
    seq(|kept|, i requires 0 <= i < |kept| => ExampleTrack(album, kept[i]))
  }

  /**
   * With a named album artist every track of the example carries it, so a
   * compilation shows one artist for all its tracks, unlike the album screen,
   * where a song's own artist wins.
   */
  lemma AlbumArtistCoversEveryTrack(album: AlbumDetail.Album, records: seq<AlbumTrackRecord>)
    requires Truthy(album.artistName)
    ensures forall i :: 0 <= i < |ExampleAlbumTracks(album, records)| ==>
      ExampleAlbumTracks(album, records)[i].artist == album.artistName
  {
  }

  /**
   * The two album chains disagree on a song that names its own, different
   * artist: given the same song as a record carrying that artist, the album
   * screen shows the song's artist and the example the album's.
   */
  lemma ArtistPrecedenceDiffers(album: AlbumDetail.Album, song: AlbumDetail.Song, record: AlbumTrackRecord)
    requires Truthy(album.artistName) && |song.artistNames| > 0 && song.artistNames[0] != ""
    requires song.artistNames[0] != album.artistName.value
    requires record.id == song.id && record.artistName == Some(song.artistNames[0])
    ensures AlbumDetail.SongArtist(album, song) == song.artistNames[0]
    ensures ExampleArtist(album, record) == album.artistName.value
    ensures AlbumDetail.SongArtist(album, song) != ExampleArtist(album, record)
  {
  }
}
