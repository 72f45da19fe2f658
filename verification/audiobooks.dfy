/** The audiobook list: a card per audiobook. */
module Audiobooks {
  import opened Wrappers
  import opened ContentList

  datatype AudiobookRecord = AudiobookRecord(
    id: string,
    title: Option<string>,
    authorNames: seq<string>,
    narrator: Option<string>,
    poster: Option<string>,
    banner: Option<string>)

  /** The audiobook card: the title or "", the first author else the narrator else "", the poster else the banner. */
  function AudiobookCard(base: string, b: AudiobookRecord): (r: ContentCard)
    ensures r.cardType == Audiobook && r.id == b.id
    ensures r.title != "" <==> Truthy(b.title)
    ensures r.title != "" ==> b.title == Some(r.title)
    ensures r.subtitle != "" <==> (|b.authorNames| > 0 && b.authorNames[0] != "") || Truthy(b.narrator)
    ensures |b.authorNames| > 0 && b.authorNames[0] != "" ==> r.subtitle == b.authorNames[0]
    ensures !(|b.authorNames| > 0 && b.authorNames[0] != "") && Truthy(b.narrator) ==> r.subtitle == b.narrator.value
    ensures r.image == PickImage(base, b.poster, b.banner)
  {
    ContentCard(b.id, OrEmpty(b.title), OrEmpty(Or(FirstName(b.authorNames), b.narrator)),
                PickImage(base, b.poster, b.banner), Audiobook)
  }
}
