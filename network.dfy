/** The remote services, as canned answers behind a stub that counts the
    requests made to it. */
module Network {
  import opened Results
  import opened Json
  import opened Records
  import opened Scraper

  /** What each remote endpoint answers. search is None when the request
      fails; pages maps a review-page URL to what fetching it gives;
      scoreEndpoint is what the /score endpoint reached over HTTP answers
      for a query, Crash standing for the error page of a server whose
      handler raised. */
  datatype Upstream = Upstream(
    trending: seq<TmdbMovie>,
    search: string -> Option<seq<TmdbMovie>>,
    details: int -> MovieDetails,
    videos: int -> seq<Video>,
    pages: string -> Page,
    scoreEndpoint: string -> Reply)

  /** The network as the handlers see it. Every request adds one to requests. */
  class Services {
    const data: Upstream
    ghost var requests: nat

    constructor (data: Upstream)
      ensures this.data == data && requests == 0
    {
      this.data := data;
      requests := 0;
    }

    /** GET /3/trending/movie/week, its 'results' list. */
    method Trending() returns (movies: seq<TmdbMovie>)
      modifies this
      ensures movies == data.trending && requests == old(requests) + 1
    {
      movies := data.trending;
      requests := requests + 1;
    }

    /** GET /3/search/movie?query=..., its 'results' list or a failed request. */
    method Search(query: string) returns (movies: Option<seq<TmdbMovie>>)
      modifies this
      ensures movies == data.search(query) && requests == old(requests) + 1
    {
      movies := data.search(query);
      requests := requests + 1;
    }

    /** GET /3/movie/{id}. */
    method Details(id: int) returns (details: MovieDetails)
      modifies this
      ensures details == data.details(id) && requests == old(requests) + 1
    {
      details := data.details(id);
      requests := requests + 1;
    }

    /** GET /3/movie/{id}/videos, its 'results' list. */
    method Videos(id: int) returns (videos: seq<Video>)
      modifies this
      ensures videos == data.videos(id) && requests == old(requests) + 1
    {
      videos := data.videos(id);
      requests := requests + 1;
    }

    /** GET of a review page, parsed down to its scorecard, or a request that raised. */
    method ReviewPage(url: string) returns (page: Page)
      modifies this
      ensures page == data.pages(url) && requests == old(requests) + 1
    {
      page := data.pages(url);
      requests := requests + 1;
    }

    /** GET /score?query=... over HTTP with the internal-call header. */
    method ScoreEndpoint(query: string) returns (reply: Reply)
      modifies this
      ensures reply == data.scoreEndpoint(query) && requests == old(requests) + 1
    {
      reply := data.scoreEndpoint(query);
      requests := requests + 1;
    }
  }
}
