/**
 * The shared list screen: the card it shows per record, the image a card
 * uses, the load outcome and where a press on a card leads.
 */
module ContentList {
  import opened Wrappers
  import BaseUrl

  datatype CardType = Video | Series | Audiobook | Album | Ebook | Course

  datatype ContentCard = ContentCard(
    id: string,
    title: string,
    subtitle: string,
    image: Option<string>,
    cardType: CardType)

  /**
   * `getImageUrl(first || second)`: an image exactly when one of the two
   * paths is non-empty, taken from the first when it is.
   */
  function PickImage(base: string, first: Option<string>, second: Option<string>): (r: Option<string>)
    ensures r.Some? <==> Truthy(first) || Truthy(second)
    ensures Truthy(first) ==> r == BaseUrl.ImageUrl(base, first)
    ensures !Truthy(first) ==> r == BaseUrl.ImageUrl(base, second)
  {
    BaseUrl.ImageUrl(base, Or(first, second))
  }

  /** `response.map(mapToContentCard)`: one card per record, in the same order. */
  function MapCards<T>(response: seq<T>, toCard: T -> ContentCard): (r: seq<ContentCard>)
    ensures |r| == |response|
    ensures forall i :: 0 <= i < |r| ==> r[i] == toCard(response[i])
  {
    seq(|response|, i requires 0 <= i < |response| => toCard(response[i]))
  }

  /** Mapping a concatenation is concatenating the mappings: cards never move between records. */
  lemma MapCardsConcat<T>(a: seq<T>, b: seq<T>, toCard: T -> ContentCard)
    ensures MapCards(a + b, toCard) == MapCards(a, toCard) + MapCards(b, toCard)
  {
    assert forall i :: 0 <= i < |a| ==> (a + b)[i] == a[i];
    assert forall i :: |a| <= i < |a| + |b| ==> (a + b)[i] == b[i - |a|];
  }

  datatype Route = MovieDetail(movieId: string) | SeriesDetail(seriesId: string) | Stay

  /**
   * `handleItemPress`: decided by the screen's type, not the card's; videos
   * open the movie screen, series the series screen, anything else stays.
   */
  function ItemPress(screenType: CardType, item: ContentCard): (r: Route)
    ensures r.MovieDetail? <==> screenType == Video
    ensures r.SeriesDetail? <==> screenType == Series
    ensures r.MovieDetail? ==> r.movieId == item.id
    ensures r.SeriesDetail? ==> r.seriesId == item.id
  {
    if screenType == Video then MovieDetail(item.id)
    else if screenType == Series then SeriesDetail(item.id)
    else Stay
  }

  const LoadErrorMessage := "Erro ao carregar conteúdo"

  /** What `loadData` gives: the records, or a failure with the error's message. */
  datatype Outcome<T> = Loaded(records: seq<T>) | Failed(message: Option<string>)

  /** The screen's state: loading flag, cards shown and error. */
  class ContentListScreen {
    var loading: bool
    var data: seq<ContentCard>
    var error: Option<string>

    constructor ()
      ensures loading && data == [] && error.None?
    {
      loading := true;
      data := [];
      error := None;
    }

    /**
     * `loadContent` once `loadData` has answered: the mapped cards, or the
     * error's message (or a fixed text); loading ends either way.
     */
    method LoadContent<T>(outcome: Outcome<T>, toCard: T -> ContentCard)
      modifies this
      ensures !loading
      ensures outcome.Loaded? ==> data == MapCards(outcome.records, toCard) && error.None?
      ensures outcome.Failed? ==> data == old(data) && error == Some(OrElse(outcome.message, LoadErrorMessage))
    {
      loading := true;
      error := None;
      match outcome {
        case Loaded(records) =>
          data := MapCards(records, toCard);
        case Failed(message) =>
          error := Some(OrElse(message, LoadErrorMessage));
      }
      loading := false;
    }
  }
}
