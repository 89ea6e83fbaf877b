/** The upstream movie-database records the handlers read and the response
    shapes they build. */
module Records {
  import opened Results
  import opened Json
  import opened Scraper

  /** One entry of a movie's video list. kind is the 'type' field. */
  datatype Video = Video(kind: string, name: string, key: string)

  datatype Genre = Genre(id: int, name: string)

  /** One movie of a trending or search result list (and the core of a
      detail record). voteAverage is the text Python prints for
      round(vote_average, 2); releaseDate, posterPath and backdropPath may be
      absent. */
  datatype TmdbMovie = TmdbMovie(
    id: int,
    title: string,
    overview: string,
    releaseDate: Option<string>,
    voteAverage: string,
    posterPath: Option<string>,
    backdropPath: Option<string>)

  /** The movie-detail record. */
  datatype MovieDetails = MovieDetails(movie: TmdbMovie, genres: seq<Genre>, runtime: Value)

  /** The score attached to a movie; its variant decides the output key. */
  datatype ScoreField =
    | CriticScore(ratingValue: Value)  // key "tomatometer"
    | TmdbScore(text: string)          // key "tmdbScore"

  function ScoreKey(s: ScoreField): string
  {
    if s.CriticScore? then "tomatometer" else "tmdbScore"
  }

  /** An entry of the trending list; rank is the 'movie' key. */
  datatype TopEntry = TopEntry(
    rank: int,
    title: string,
    overview: string,
    id: int,
    score: ScoreField,
    year: string,
    poster: string,
    backdrop: string,
    trailer: Option<string>)

  /** An entry of the search results; year is None where the entry has no
      'year' key at all. */
  datatype SimilarEntry = SimilarEntry(
    rank: int,
    title: string,
    overview: string,
    year: Option<string>,
    id: int,
    tmdbScore: string,
    poster: string,
    trailer: Option<string>)

  /** The single-movie detail object. */
  datatype MovieInfo = MovieInfo(
    title: string,
    overview: string,
    year: string,
    genres: seq<string>,
    runtime: Value,
    score: ScoreField,
    poster: string,
    trailer: Option<string>)

  /** The JSON bodies the handlers answer with. */
  datatype Body =
    | ErrorBody(error: string)               // {"error": ...}
    | RatingBody(tomatometer: Tomatometer)   // {"Tomatometer": {...}}
    | TopMovies(top: seq<TopEntry>)          // {"TopMovies": [...]}
    | SimilarMovies(similar: seq<SimilarEntry>)  // {"SimilarMovies": [...]}
    | MovieInfoBody(info: MovieInfo)

  /** A handler's answer: a status and a body, or an uncaught exception. */
  datatype Reply = Respond(status: int, body: Body) | Crash(fault: Fault)

  const InvalidApiKey := "Unauthorized access: Invalid API key"
  const QueryRequired := "Query parameter is required"
  const UnauthorizedAccess := "Unauthorized access"
  const RatingNotFound := "Rating not found"

  const ImageBase := "https://image.tmdb.org/t/p/w500"

  /** f"{image_base_url}{path}": an absent path renders as "None". */
  function ImageUrl(path: Option<string>): (r: string)
    ensures |r| >= |ImageBase| && r[..|ImageBase|] == ImageBase
    ensures path.Some? ==> r[|ImageBase|..] == path.value
    ensures path.None? ==> r == ImageBase + "None"
  {
    var rest := if path.Some? then path.value else "None";
    assert (ImageBase + rest)[|ImageBase|..] == rest;
    ImageBase + rest
  }
}
