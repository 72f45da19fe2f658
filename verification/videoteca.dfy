/** The movie list: a card per movie and a slideshow entry per featured movie. */
module Videoteca {
  import opened Wrappers
  import opened ContentList
  import BaseUrl

  datatype MovieRecord = MovieRecord(
    id: string,
    title: Option<string>,
    description: Option<string>,
    genreNames: seq<string>,
    poster: Option<string>,
    banner: Option<string>,
    trailer: Option<string>,
    videoUrl: Option<string>)

  /** The movie card: the title or "", the first genre or "", the poster else the banner. */
  function MovieCard(base: string, m: MovieRecord): (r: ContentCard)
    ensures r.cardType == Video && r.id == m.id
    ensures r.title != "" <==> Truthy(m.title)
    ensures r.title != "" ==> m.title == Some(r.title)
    ensures r.subtitle != "" <==> |m.genreNames| > 0 && m.genreNames[0] != ""
    ensures r.subtitle != "" ==> r.subtitle == m.genreNames[0]
    ensures r.image == PickImage(base, m.poster, m.banner)
  {
    ContentCard(m.id, OrEmpty(m.title), OrEmpty(FirstName(m.genreNames)),
                PickImage(base, m.poster, m.banner), Video)
  }

  datatype SlideshowItem = SlideshowItem(
    id: string,
    title: string,
    description: string,
    image: Option<string>,
    trailer: Option<string>)

  /** The slideshow entry: the banner before the poster, and the trailer else the video. */
  function MovieSlide(base: string, m: MovieRecord): (r: SlideshowItem)
    ensures r.id == m.id
    ensures r.title != "" <==> Truthy(m.title)
    ensures r.title != "" ==> m.title == Some(r.title)
    ensures r.description != "" <==> Truthy(m.description)
    ensures r.description != "" ==> m.description == Some(r.description)
    ensures r.image == PickImage(base, m.banner, m.poster)
    ensures Truthy(r.trailer) <==> Truthy(m.trailer) || Truthy(m.videoUrl)
    ensures Truthy(m.trailer) ==> r.trailer == m.trailer
    ensures !Truthy(m.trailer) ==> r.trailer == m.videoUrl
  {
    SlideshowItem(m.id, OrEmpty(m.title), OrEmpty(m.description),
                  PickImage(base, m.banner, m.poster), Or(m.trailer, m.videoUrl))
  }

  /** With both pictures present, the card shows the poster and the slideshow the banner. */
  lemma CardAndSlidePickDifferentPictures(base: string, m: MovieRecord)
    requires Truthy(m.poster) && Truthy(m.banner)
    ensures MovieCard(base, m).image == BaseUrl.ImageUrl(base, m.poster)
    ensures MovieSlide(base, m).image == BaseUrl.ImageUrl(base, m.banner)
  {
  }
}
