/**
 * The audiobook screen's chapter list: published chapters with an audio file,
 * in ascending `order`, each turned into a player track that carries the
 * book's artist and artwork.
 */
module AudiobookDetail {
  import opened Wrappers
  import opened TrackLists
  import opened AudioPlayerHook

  datatype Chapter = Chapter(
    id: string,
    chapterNumber: int,
    title: string,
    audioFile: Option<string>,
    duration: Option<int>,
    isPublished: bool,
    order: int)

  /** The fields of an audiobook the track list reads; `authorNames` are the authors' names in API order. */
  datatype Audiobook = Audiobook(
    poster: Option<string>,
    banner: Option<string>,
    narrator: Option<string>,
    authorNames: seq<string>)

  const UnknownArtist := "Desconhecido"

  predicate IsPlayable(c: Chapter) {
    c.isPublished && Truthy(c.audioFile)
  }

  function Order(c: Chapter): int {
    c.order
  }

  /** The first author's name, else the narrator, else "Desconhecido". */
  function BookArtist(book: Audiobook): (r: string)
    ensures r != ""
    ensures |book.authorNames| > 0 && book.authorNames[0] != "" ==> r == book.authorNames[0]
    ensures !(|book.authorNames| > 0 && book.authorNames[0] != "") && Truthy(book.narrator) ==> r == book.narrator.value
    ensures !(|book.authorNames| > 0 && book.authorNames[0] != "") && !Truthy(book.narrator) ==> r == UnknownArtist
  {
    OrElse(Or(FirstName(book.authorNames), book.narrator), UnknownArtist)
  }

  function ChapterTrack(book: Audiobook, c: Chapter): Track {
    Track(c.id, c.audioFile.GetOr(""), c.title, Some(BookArtist(book)),
          Or(book.poster, book.banner), Some(c.duration.GetOr(0)))
  }

  function KeptChapters(chapters: seq<Chapter>): seq<Chapter> {
    KeepSorted(chapters, IsPlayable, Order)
  }

  /** `loadChapters`' conversion: the kept chapters, in ascending order, each as a track. */
  function ChapterTracks(book: Audiobook, chapters: seq<Chapter>): (r: seq<Track>)
    ensures var kept := KeptChapters(chapters);
      && SortedBy(kept, Order) && |r| == |kept| <= |chapters|
      && forall i :: 0 <= i < |r| ==> r[i] == ChapterTrack(book, kept[i])
  {
    var kept := KeptChapters(chapters);
    seq(|kept|, i requires 0 <= i < |kept| => ChapterTrack(book, kept[i]))
  }

  /**
   * One track per playable chapter and no other: every track comes from a
   * published chapter with an audio file and every such chapter has its track;
   * all tracks carry the book's artist and artwork.
   */
  lemma ChapterTracksFacts(book: Audiobook, chapters: seq<Chapter>)
    ensures var r := ChapterTracks(book, chapters);
      && (forall i :: 0 <= i < |r| ==>
            r[i].url != "" && r[i].artist == Some(BookArtist(book)) && r[i].artwork == Or(book.poster, book.banner))
      && (forall i :: 0 <= i < |r| ==>
            exists j :: 0 <= j < |chapters| && IsPlayable(chapters[j]) && r[i] == ChapterTrack(book, chapters[j]))
      && (forall j :: 0 <= j < |chapters| && IsPlayable(chapters[j]) ==> ChapterTrack(book, chapters[j]) in r)
  {
    var kept := KeptChapters(chapters);
    var r := ChapterTracks(book, chapters);
    forall i | 0 <= i < |r|
      ensures exists j :: 0 <= j < |chapters| && IsPlayable(chapters[j]) && r[i] == ChapterTrack(book, chapters[j])
    {
      assert kept[i] in chapters && IsPlayable(kept[i]);
      var j :| 0 <= j < |chapters| && chapters[j] == kept[i];
    }
    forall j | 0 <= j < |chapters| && IsPlayable(chapters[j])
      ensures ChapterTrack(book, chapters[j]) in r
    {
      var i :| 0 <= i < |kept| && kept[i] == chapters[j];
      assert r[i] == ChapterTrack(book, chapters[j]);
    }
  }

  /** Chapters with the same `order` reach the player in the order the API sent them. */
  lemma SameOrderKeepsApiOrder(chapters: seq<Chapter>, k: int)
    ensures WithKey(KeptChapters(chapters), Order, k) == WithKey(Filter(chapters, IsPlayable), Order, k)
  {
    SortIsStable(Filter(chapters, IsPlayable), Order, k);
  }

  /** The player is rendered only when the track list is non-empty. */
  predicate PlayerShown(tracks: seq<Track>) {
    |tracks| > 0
  }

  /** The player appears exactly when some chapter is published and has an audio file. */
  lemma PlayerShownIffPlayableChapter(book: Audiobook, chapters: seq<Chapter>)
    ensures PlayerShown(ChapterTracks(book, chapters)) <==>
      exists j :: 0 <= j < |chapters| && IsPlayable(chapters[j])
  {
    var r := ChapterTracks(book, chapters);
    ChapterTracksFacts(book, chapters);
    if |r| > 0 {
      var j :| 0 <= j < |chapters| && IsPlayable(chapters[j]) && r[0] == ChapterTrack(book, chapters[j]);
    }
  }

  lemma FilterSkipsFirst(c3: Chapter, c1: Chapter, c2: Chapter)
    requires !IsPlayable(c3) && IsPlayable(c1) && IsPlayable(c2)
    ensures Filter([c3, c1, c2], IsPlayable) == [c1, c2]
  {
    assert [c3, c1, c2][1..] == [c1, c2] && [c1, c2][1..] == [c2] && [c2][1..] == [];
    assert Filter([c2], IsPlayable) == [c2];
    assert Filter([c1, c2], IsPlayable) == [c1] + [c2];
  }

  lemma SortTwoInOrder(c1: Chapter, c2: Chapter)
    requires c1.order <= c2.order
    ensures SortByKey([c1, c2], Order) == [c1, c2]
  {
    assert [c1, c2][..1] == [c1] && [c1][..0] == [];
    assert SortByKey([c1], Order) == Insert(c1, [], Order) == [c1];
    assert Insert(c2, [c1], Order) == [c1] + Insert(c2, [], Order);
  }

  /**
   * An unpublished chapter is skipped and the others are played in ascending
   * order: orders 3 (unpublished), 1, 2 give the tracks of chapters 1 and 2.
   */
  lemma UnpublishedChapterIsSkipped(book: Audiobook, c3: Chapter, c1: Chapter, c2: Chapter)
    requires c3.order == 3 && !c3.isPublished && c1.order == 1 && c2.order == 2
    requires IsPlayable(c1) && IsPlayable(c2)
    ensures ChapterTracks(book, [c3, c1, c2]) == [ChapterTrack(book, c1), ChapterTrack(book, c2)]
  {
    FilterSkipsFirst(c3, c1, c2);
    SortTwoInOrder(c1, c2);
    assert KeptChapters([c3, c1, c2]) == [c1, c2];
  }
}
