/** The series list: a card per series. */
module SeriesList {
  import opened Wrappers
  import opened ContentList

  datatype SeriesRecord = SeriesRecord(
    id: string,
    title: Option<string>,
    status: Option<string>,
    genreNames: seq<string>,
    poster: Option<string>,
    banner: Option<string>)

  /** The series card: the title or "", the raw status else the first genre else "", the poster else the banner. */
  function SeriesCard(base: string, s: SeriesRecord): (r: ContentCard)
    ensures r.cardType == Series && r.id == s.id
    ensures r.title != "" <==> Truthy(s.title)
    ensures r.title != "" ==> s.title == Some(r.title)
    ensures r.subtitle != "" <==> Truthy(s.status) || (|s.genreNames| > 0 && s.genreNames[0] != "")
    ensures Truthy(s.status) ==> r.subtitle == s.status.value
    ensures !Truthy(s.status) && |s.genreNames| > 0 && s.genreNames[0] != "" ==> r.subtitle == s.genreNames[0]
    ensures r.image == PickImage(base, s.poster, s.banner)
  {
    ContentCard(s.id, OrEmpty(s.title), OrEmpty(Or(s.status, FirstName(s.genreNames))),
                PickImage(base, s.poster, s.banner), Series)
  }
}
