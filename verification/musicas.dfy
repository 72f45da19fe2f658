/** The album list: a card per album. */
module Musicas {
  import opened Wrappers
  import opened ContentList

  datatype AlbumRecord = AlbumRecord(
    id: string,
    title: Option<string>,
    artistName: Option<string>,
    poster: Option<string>,
    banner: Option<string>)

  /** The album card: the title or "", the artist or "", the poster else the banner. */
  function AlbumCard(base: string, a: AlbumRecord): (r: ContentCard)
    ensures r.cardType == Album && r.id == a.id
    ensures r.title != "" <==> Truthy(a.title)
    ensures r.title != "" ==> a.title == Some(r.title)
    ensures r.subtitle != "" <==> Truthy(a.artistName)
    ensures r.subtitle != "" ==> a.artistName == Some(r.subtitle)
    ensures r.image == PickImage(base, a.poster, a.banner)
  {
    ContentCard(a.id, OrEmpty(a.title), OrEmpty(a.artistName), PickImage(base, a.poster, a.banner), Album)
  }
}
