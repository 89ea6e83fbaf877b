/** The serverless deployment (lambda_function.py): the /score sub-call is
    an in-process call, search entries carry a year, and there is a
    movie-detail handler. */
module LambdaApi {
  import opened Results
  import opened Json
  import opened Text
  import opened Scraper
  import opened Records
  import opened Network
  import opened Trailers
  import opened Gateway

  /** What the handler gets from calling score() directly. The 403 and 400
      rejections are returned as (response, status) tuples, and reading
      status_code off a tuple raises; the 200 and 404 replies are response
      objects and pass through. */
  function InProcessReply(reply: Reply): Reply
  {
    if reply.Respond? && reply.status in {400, 403} then Crash(TupleHasNoStatus) else reply
  }

  /** The in-process sub-call: /score with the internal header and the title as query. */
  function InProcessScore(pages: string -> Page, title: string): SubCall
  {
    SubCall(InProcessReply(ScoreReply(Some("true"), Some(title), pages)), ScoreRequests(Some("true"), Some(title)))
  }

  function InProcessScoring(pages: string -> Page): string -> SubCall
  {
    (title: string) => InProcessScore(pages, title)
  }

  /** In process, a title gets the critic score exactly when its review page
      has a Tomatometer card, the database score when the page has none, and
      raises when the title is empty (the 400 rejection comes back as a
      tuple) or when the page is unreachable or its card malformed. */
  lemma InProcessRatingField(pages: string -> Page, title: string, voteAverage: string)
    ensures var r := RatingField(InProcessScore(pages, title).reply, voteAverage);
      && (title == "" ==> r == Fail(TupleHasNoStatus))
      && (title != "" ==>
        match Rating(title, pages)
        case Ok(Some(card)) => r == Ok(CriticScore(card.ratingValue))
        case Ok(None) => r == Ok(TmdbScore(voteAverage + "/10"))
        case Fail(f) => r == Fail(f))
  {
  }

  /** The genre loop of get_movie_info: names in upstream order. */
  method GenreNames(genres: seq<Genre>) returns (names: seq<string>)
    ensures |names| == |genres|
    ensures forall i :: 0 <= i < |genres| ==> names[i] == genres[i].name
  {
    names := [];
    for i := 0 to |genres|
      invariant |names| == i
      invariant forall k :: 0 <= k < i ==> names[k] == genres[k].name
    {
      names := names + [genres[i].name];
    }
  }

  function NamesOf(genres: seq<Genre>): seq<string>
  {
    seq(|genres|, i requires 0 <= i < |genres| => genres[i].name)
  }

  /** get_movie_info(id). */
  function DetailSpec(expectedKey: Option<string>, u: Upstream, id: int, apiKey: Option<string>): (r: Run)
    ensures r.requests == 0 <==> apiKey != expectedKey
    ensures (r.reply.Respond? && r.reply.status == 401) <==> apiKey != expectedKey
    ensures r.reply.Respond? && r.reply.status != 401 ==> r.reply.status == 200 && r.reply.body.MovieInfoBody?
    ensures apiKey == expectedKey && u.details(id).movie.releaseDate.None? ==> r.reply.Crash?
  {
    if apiKey != expectedKey then Run(Respond(401, ErrorBody(InvalidApiKey)), 0)
    else
      var details := u.details(id);
      var m := details.movie;
      var sub := InProcessScore(u.pages, ReplaceAmpersands(m.title));
      match RatingField(sub.reply, m.voteAverage)
      case Fail(f) => Run(Crash(f), 1 + sub.requests)
      case Ok(score) =>
        match m.releaseDate
        case None => Run(Crash(MissingReleaseDate), 1 + sub.requests)
        case Some(date) =>
          Run(Respond(200, MovieInfoBody(MovieInfo(m.title, m.overview, BeforeFirst(date, '-'),
                NamesOf(details.genres), details.runtime, score, ImageUrl(m.posterPath),
                FirstTrailer(u.videos(id))))),
              2 + sub.requests)
  }

  /** A completed detail object keeps the movie's title, overview and
      runtime, takes the year from its release date, lists the genre names in
      upstream order, and takes its trailer from the requested id. */
  lemma DetailFields(expectedKey: Option<string>, u: Upstream, id: int, apiKey: Option<string>)
    requires DetailSpec(expectedKey, u, id, apiKey).reply.Respond?
    requires DetailSpec(expectedKey, u, id, apiKey).reply.status == 200
    ensures var info := DetailSpec(expectedKey, u, id, apiKey).reply.body.info;
      var details := u.details(id);
      && |info.genres| == |details.genres|
      && (forall i :: 0 <= i < |info.genres| ==> info.genres[i] == details.genres[i].name)
      && info.title == details.movie.title
      && info.overview == details.movie.overview
      && info.runtime == details.runtime
      && details.movie.releaseDate.Some?
      && info.year == BeforeFirst(details.movie.releaseDate.value, '-')
      && RatingField(InProcessScore(u.pages, ReplaceAmpersands(details.movie.title)).reply,
                     details.movie.voteAverage) == Ok(info.score)
      && info.trailer == FirstTrailer(u.videos(id))
  {
  }

  /** When the expected key is not configured, a request without an api_key
      argument passes the key check of every handler. */
  lemma UnconfiguredKeyAdmitsMissingKey(u: Upstream, query: Option<string>, id: int)
    ensures TrendingSpec(None, u, None, InProcessScoring(u.pages)).requests > 0
    ensures Given(query) ==> SearchSpec(None, u, query, None, true).requests > 0
    ensures DetailSpec(None, u, id, None).requests > 0
  {
  }

  /** One pass of get_popular's loop body. */
  method PopularEntry(svc: Services, m: TmdbMovie, rank: int) returns (entry: Outcome<TopEntry>)
    modifies svc
    ensures var s := TopItems(svc.data, InProcessScoring(svc.data.pages))(m, rank);
      entry == s.outcome && svc.requests == old(svc.requests) + s.requests
  {
    var sub := Score(svc, Some("true"), Some(ReplaceAmpersands(m.title)));
    var score := RatingField(InProcessReply(sub), m.voteAverage);
    if score.Fail? {
      return Fail(score.fault);
    }
    if m.releaseDate.None? {
      return Fail(MissingReleaseDate);
    }
    var trailer := GetTrailer(svc, m.id);
    entry := Ok(TopEntry(rank, m.title, m.overview, m.id, score.value, BeforeFirst(m.releaseDate.value, '-'),
                         ImageUrl(m.posterPath), ImageUrl(m.backdropPath), trailer));
  }

  /** One pass of search_for_movie's loop body. */
  method SearchEntry(svc: Services, m: TmdbMovie, rank: int) returns (entry: Outcome<SimilarEntry>)
    modifies svc
    ensures var s := SimilarItems(svc.data, true)(m, rank);
      entry == s.outcome && svc.requests == old(svc.requests) + s.requests
  {
    assert SimilarItems(svc.data, true)(m, rank) == SimilarItem(m, rank, true, svc.data.videos(m.id));
    if m.releaseDate.None? {
      return Fail(MissingReleaseDate);
    }
    var trailer := GetTrailer(svc, m.id);
    entry := Ok(SimilarEntry(rank, m.title, m.overview, Some(BeforeFirst(m.releaseDate.value, '-')),
                             m.id, m.voteAverage + "/10", ImageUrl(m.posterPath), trailer));
  }

  /** The loop of get_popular over the first ten trending movies. */
  method PopularList(svc: Services, movies: seq<TmdbMovie>) returns (entries: Outcome<seq<TopEntry>>)
    modifies svc
    ensures var c := Collect(movies, TopItems(svc.data, InProcessScoring(svc.data.pages)));
      entries == c.outcome && svc.requests == old(svc.requests) + c.requests
  {
    ghost var item := TopItems(svc.data, InProcessScoring(svc.data.pages));
    var done: seq<TopEntry> := [];
    var i := 0;
    while i < |movies|
      invariant 0 <= i <= |movies|
      invariant Collect(movies[..i], item).outcome == Ok(done)
      invariant svc.requests == old(svc.requests) + Collect(movies[..i], item).requests
    {
      CollectExtends(movies, i, item);
      var entry := PopularEntry(svc, movies[i], i + 1);
      if entry.Fail? {
        CollectStopsAtFailure(movies, i + 1, item);
        return Fail(entry.fault);
      }
      done := done + [entry.value];
      i := i + 1;
    }
    assert movies[..i] == movies;
    return Ok(done);
  }

  /** The loop of search_for_movie over the first ten results. */
  method SearchList(svc: Services, movies: seq<TmdbMovie>) returns (entries: Outcome<seq<SimilarEntry>>)
    modifies svc
    ensures var c := Collect(movies, SimilarItems(svc.data, true));
      entries == c.outcome && svc.requests == old(svc.requests) + c.requests
  {
    ghost var item := SimilarItems(svc.data, true);
    var done: seq<SimilarEntry> := [];
    var i := 0;
    while i < |movies|
      invariant 0 <= i <= |movies|
      invariant Collect(movies[..i], item).outcome == Ok(done)
      invariant svc.requests == old(svc.requests) + Collect(movies[..i], item).requests
    {
      CollectExtends(movies, i, item);
      var entry := SearchEntry(svc, movies[i], i + 1);
      if entry.Fail? {
        CollectStopsAtFailure(movies, i + 1, item);
        return Fail(entry.fault);
      }
      done := done + [entry.value];
      i := i + 1;
    }
    assert movies[..i] == movies;
    return Ok(done);
  }

  /** The service object; its key is fixed at construction. */
  class MovieApi {
    const expectedKey: Option<string>

    constructor (expectedKey: Option<string>)
      ensures this.expectedKey == expectedKey
    {
      this.expectedKey := expectedKey;
    }

    /** GET /trending. */
    method GetPopular(svc: Services, apiKey: Option<string>) returns (reply: Reply)
      modifies svc
      ensures reply == TrendingSpec(expectedKey, svc.data, apiKey, InProcessScoring(svc.data.pages)).reply
      ensures svc.requests == old(svc.requests) + TrendingSpec(expectedKey, svc.data, apiKey, InProcessScoring(svc.data.pages)).requests
    {
      if apiKey != expectedKey {
        return Respond(401, ErrorBody(InvalidApiKey));
      }
      var movies := svc.Trending();
      var top := PopularList(svc, FirstTen(movies));
      reply := if top.Ok? then Respond(200, TopMovies(top.value)) else Crash(top.fault);
    }

    /** GET /search. */
    method SearchForMovie(svc: Services, query: Option<string>, apiKey: Option<string>) returns (reply: Reply)
      modifies svc
      ensures reply == SearchSpec(expectedKey, svc.data, query, apiKey, true).reply
      ensures svc.requests == old(svc.requests) + SearchSpec(expectedKey, svc.data, query, apiKey, true).requests
    {
      if query.None? || query.value == "" {
        return Respond(400, ErrorBody(QueryRequired));
      }
      if apiKey != expectedKey {
        return Respond(401, ErrorBody(InvalidApiKey));
      }
      var found := svc.Search(query.value);
      if found.None? {
        return Crash(SearchRequestFailed);
      }
      var similar := SearchList(svc, FirstTen(found.value));
      reply := if similar.Ok? then Respond(200, SimilarMovies(similar.value)) else Crash(similar.fault);
    }

    /** GET /movie/<id>. */
    method GetMovieInfo(svc: Services, id: int, apiKey: Option<string>) returns (reply: Reply)
      modifies svc
      ensures reply == DetailSpec(expectedKey, svc.data, id, apiKey).reply
      ensures svc.requests == old(svc.requests) + DetailSpec(expectedKey, svc.data, id, apiKey).requests
    {
      if apiKey != expectedKey {
        return Respond(401, ErrorBody(InvalidApiKey));
      }
      var details := svc.Details(id);
      var genres := GenreNames(details.genres);
      assert genres == NamesOf(details.genres);
      var m := details.movie;
      var sub := Score(svc, Some("true"), Some(ReplaceAmpersands(m.title)));
      var score := RatingField(InProcessReply(sub), m.voteAverage);
      if score.Fail? {
        return Crash(score.fault);
      }
      if m.releaseDate.None? {
        return Crash(MissingReleaseDate);
      }
      var trailer := GetTrailer(svc, id);
      reply := Respond(200, MovieInfoBody(MovieInfo(m.title, m.overview, BeforeFirst(m.releaseDate.value, '-'),
                                                    genres, details.runtime, score.value,
                                                    ImageUrl(m.posterPath), trailer)));
    }
  }
}
