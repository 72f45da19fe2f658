/** The ebook list: a card per ebook and a slideshow entry per featured ebook. */
module Ebooks {
  import opened Wrappers
  import opened ContentList

  datatype EbookRecord = EbookRecord(
    id: string,
    title: Option<string>,
    description: Option<string>,
    authorNames: seq<string>,
    publisher: Option<string>,
    poster: Option<string>,
    banner: Option<string>)

  /** The ebook card: the title or "", the first author else the publisher else "", the poster else the banner. */
  function EbookCard(base: string, e: EbookRecord): (r: ContentCard)
    ensures r.cardType == Ebook && r.id == e.id
    ensures r.title != "" <==> Truthy(e.title)
    ensures r.title != "" ==> e.title == Some(r.title)
    ensures r.subtitle != "" <==> (|e.authorNames| > 0 && e.authorNames[0] != "") || Truthy(e.publisher)
    ensures |e.authorNames| > 0 && e.authorNames[0] != "" ==> r.subtitle == e.authorNames[0]
    ensures !(|e.authorNames| > 0 && e.authorNames[0] != "") && Truthy(e.publisher) ==> r.subtitle == e.publisher.value
    ensures r.image == PickImage(base, e.poster, e.banner)
  {
    ContentCard(e.id, OrEmpty(e.title), OrEmpty(Or(FirstName(e.authorNames), e.publisher)),
                PickImage(base, e.poster, e.banner), Ebook)
  }

  datatype SlideshowItem = SlideshowItem(id: string, title: string, description: string, image: Option<string>)

  /** The slideshow entry: the banner before the poster, the description or "". */
  function EbookSlide(base: string, e: EbookRecord): (r: SlideshowItem)
    ensures r.id == e.id
    ensures r.title != "" <==> Truthy(e.title)
    ensures r.title != "" ==> e.title == Some(r.title)
    ensures r.description != "" <==> Truthy(e.description)
    ensures r.description != "" ==> e.description == Some(r.description)
    ensures r.image == PickImage(base, e.banner, e.poster)
  {
    SlideshowItem(e.id, OrEmpty(e.title), OrEmpty(e.description), PickImage(base, e.banner, e.poster))
  }
}
