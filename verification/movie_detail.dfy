/** The movie screen's play and trailer buttons. */
module MovieDetail {
  import opened Wrappers
  import opened Text
  import Links

  datatype Movie = Movie(videoUrl: Option<string>, trailer: Option<string>)

  /** `handlePlayVideo`: opens the video link, with "https://" added unless it starts with "http". */
  function PlayVideo(movie: Movie, canOpen: bool): (r: Option<string>)
    ensures r.Some? <==> Truthy(movie.videoUrl) && canOpen
    ensures r.Some? ==> StartsWith(r.value, "http")
    ensures r.Some? ==> r.value == movie.videoUrl.value || r.value == "https://" + movie.videoUrl.value
  {
    Links.Opened(movie.videoUrl, canOpen)
  }

  /** `handlePlayTrailer`: the same rule on the trailer link. */
  function PlayTrailer(movie: Movie, canOpen: bool): (r: Option<string>)
    ensures r.Some? <==> Truthy(movie.trailer) && canOpen
    ensures r.Some? ==> StartsWith(r.value, "http")
    ensures r.Some? ==> r.value == movie.trailer.value || r.value == "https://" + movie.trailer.value
  {
    Links.Opened(movie.trailer, canOpen)
  }
}
