/** The stand-alone deployment (app.py): the /score sub-call is an HTTP
    request to the local server, search entries have no year, and there is
    no movie-detail handler. */
module LocalApi {
  import opened Results
  import opened Json
  import opened Text
  import opened Scraper
  import opened Records
  import opened Network
  import opened Trailers
  import opened Gateway
  import LambdaApi

  /** What get_popular makes of the HTTP reply of /score: a server whose
      handler raised answers with its HTML error page, and .json() on that
      page raises in turn. */
  function OverHttp(reply: Reply): Reply
  {
    if reply.Crash? then Crash(ScoreReplyNotJson) else reply
  }

  /** The HTTP sub-call: whatever /score answers over the network, one request. */
  function HttpScoring(u: Upstream): string -> SubCall
  {
    (title: string) => SubCall(OverHttp(u.scoreEndpoint(title)), 1)
  }

  /** For one title, the two sub-calls give the same score, or both raise. */
  lemma SameScoreOrBothRaise(u: Upstream, title: string, voteAverage: string)
    requires u.scoreEndpoint(title) == ScoreReply(Some("true"), Some(title), u.pages)
    ensures var http := RatingField(HttpScoring(u)(title).reply, voteAverage);
      var inProcess := RatingField(LambdaApi.InProcessScoring(u.pages)(title).reply, voteAverage);
      && (http.Ok? <==> inProcess.Ok?)
      && (http.Ok? ==> http == inProcess)
  {
    assert HttpScoring(u)(title).reply == OverHttp(ScoreReply(Some("true"), Some(title), u.pages));
    assert LambdaApi.InProcessScoring(u.pages)(title).reply
        == LambdaApi.InProcessReply(ScoreReply(Some("true"), Some(title), u.pages));
  }

  /** When the local /score endpoint answers as the /score handler does,
      trending replies are those of the in-process deployment, except that
      where both raise the exception may differ. */
  lemma {:induction false} TrendingMatchesInProcess(expectedKey: Option<string>, u: Upstream, apiKey: Option<string>)
    requires forall t :: u.scoreEndpoint(t) == ScoreReply(Some("true"), Some(t), u.pages)
    ensures var http := TrendingSpec(expectedKey, u, apiKey, HttpScoring(u)).reply;
      var inProcess := TrendingSpec(expectedKey, u, apiKey, LambdaApi.InProcessScoring(u.pages)).reply;
      && (http.Crash? <==> inProcess.Crash?)
      && (http.Respond? ==> http == inProcess)
  {
    var f := TopItems(u, HttpScoring(u));
    var g := TopItems(u, LambdaApi.InProcessScoring(u.pages));
    forall m: TmdbMovie, r: int
      ensures f(m, r).outcome.Ok? <==> g(m, r).outcome.Ok?
      ensures f(m, r).outcome.Ok? ==> f(m, r).outcome == g(m, r).outcome
    {
      var title := ReplaceAmpersands(m.title);
      SameScoreOrBothRaise(u, title, m.voteAverage);
      assert f(m, r) == TopItem(m, r, HttpScoring(u)(title), u.videos(m.id));
      assert g(m, r) == TopItem(m, r, LambdaApi.InProcessScoring(u.pages)(title), u.videos(m.id));
    }
    CollectAgree(FirstTen(u.trending), f, g);
  }

  /** Where the in-process deployment completes a search, this one completes
      it with the same entries, each without its year. */
  lemma {:induction false} SearchWithoutYears(expectedKey: Option<string>, u: Upstream, query: Option<string>, apiKey: Option<string>)
    requires SearchSpec(expectedKey, u, query, apiKey, true).reply.Respond?
    requires SearchSpec(expectedKey, u, query, apiKey, true).reply.status == 200
    ensures SearchSpec(expectedKey, u, query, apiKey, false).reply.Respond?
    ensures SearchSpec(expectedKey, u, query, apiKey, false).reply.status == 200
    ensures var withYears := SearchSpec(expectedKey, u, query, apiKey, true).reply.body.similar;
      var without := SearchSpec(expectedKey, u, query, apiKey, false).reply.body.similar;
      && |without| == |withYears|
      && forall j :: 0 <= j < |without| ==> without[j] == withYears[j].(year := None)
  {
    assert Given(query) && apiKey == expectedKey && u.search(query.value).Some?;
    var top := FirstTen(u.search(query.value).value);
    var f := SimilarItems(u, true);
    var g := SimilarItems(u, false);
    forall j | 0 <= j < |top| ensures g(top[j], j + 1).outcome.Ok? {
      assert g(top[j], j + 1) == SimilarItem(top[j], j + 1, false, u.videos(top[j].id));
    }
    CollectFails(top, g);
    CollectEntries(top, f);
    CollectEntries(top, g);
    var withYears := Collect(top, f).outcome.value;
    var without := Collect(top, g).outcome.value;
    forall j | 0 <= j < |without| ensures without[j] == withYears[j].(year := None) {
      assert f(top[j], j + 1) == SimilarItem(top[j], j + 1, true, u.videos(top[j].id));
      assert g(top[j], j + 1) == SimilarItem(top[j], j + 1, false, u.videos(top[j].id));
    }
  }

  /** One pass of get_popular's loop body, with the sub-call over HTTP. */
  method PopularEntry(svc: Services, m: TmdbMovie, rank: int) returns (entry: Outcome<TopEntry>)
    modifies svc
    ensures var s := TopItems(svc.data, HttpScoring(svc.data))(m, rank);
      entry == s.outcome && svc.requests == old(svc.requests) + s.requests
  {
    var sub := svc.ScoreEndpoint(ReplaceAmpersands(m.title));
    var score := RatingField(OverHttp(sub), m.voteAverage);
    if score.Fail? {
      return Fail(score.fault);
    }
    if m.releaseDate.None? {
      return Fail(MissingReleaseDate);
    }
    var trailer := GetTrailer(svc, m.id);
    entry := Ok(TopEntry(rank, m.title, m.overview, m.id, score.value, BeforeFirst(m.releaseDate.value, '-'),
                         ImageUrl(m.posterPath), ImageUrl(m.backdropPath), trailer));
  }

  /** One pass of search_for_movie's loop body: no year key. */
  method SearchEntry(svc: Services, m: TmdbMovie, rank: int) returns (entry: Outcome<SimilarEntry>)
    modifies svc
    ensures entry.Ok?
    ensures var s := SimilarItems(svc.data, false)(m, rank);
      entry == s.outcome && svc.requests == old(svc.requests) + s.requests
  {
    assert SimilarItems(svc.data, false)(m, rank) == SimilarItem(m, rank, false, svc.data.videos(m.id));
    var trailer := GetTrailer(svc, m.id);
    entry := Ok(SimilarEntry(rank, m.title, m.overview, None, m.id, m.voteAverage + "/10",
                             ImageUrl(m.posterPath), trailer));
  }

  /** The loop of get_popular over the first ten trending movies. */
  method PopularList(svc: Services, movies: seq<TmdbMovie>) returns (entries: Outcome<seq<TopEntry>>)
    modifies svc
    ensures var c := Collect(movies, TopItems(svc.data, HttpScoring(svc.data)));
      entries == c.outcome && svc.requests == old(svc.requests) + c.requests
  {
    ghost var item := TopItems(svc.data, HttpScoring(svc.data));
    var done: seq<TopEntry> := [];
    var i := 0;
    while i < |movies|
      invariant 0 <= i <= |movies|
      invariant Collect(movies[..i], item).outcome == Ok(done)
      invariant svc.requests == old(svc.requests) + Collect(movies[..i], item).requests
    {
      CollectExtends(movies, i, item);
      var entry := PopularEntry(svc, movies[i], i + 1);
      if entry.Fail? {
        CollectStopsAtFailure(movies, i + 1, item);
        return Fail(entry.fault);
      }
      done := done + [entry.value];
      i := i + 1;
    }
    assert movies[..i] == movies;
    return Ok(done);
  }

  /** The loop of search_for_movie over the first ten results. */
  method SearchList(svc: Services, movies: seq<TmdbMovie>) returns (entries: Outcome<seq<SimilarEntry>>)
    modifies svc
    ensures var c := Collect(movies, SimilarItems(svc.data, false));
      entries == c.outcome && svc.requests == old(svc.requests) + c.requests
  {
    ghost var item := SimilarItems(svc.data, false);
    var done: seq<SimilarEntry> := [];
    var i := 0;
    while i < |movies|
      invariant 0 <= i <= |movies|
      invariant Collect(movies[..i], item).outcome == Ok(done)
      invariant svc.requests == old(svc.requests) + Collect(movies[..i], item).requests
    {
      CollectExtends(movies, i, item);
      var entry := SearchEntry(svc, movies[i], i + 1);
      done := done + [entry.value];
      i := i + 1;
    }
    assert movies[..i] == movies;
    return Ok(done);
  }

  /** The service object; its key is fixed at construction. */
  class MovieApi {
    const expectedKey: Option<string>

    constructor (expectedKey: Option<string>)
      ensures this.expectedKey == expectedKey
    {
      this.expectedKey := expectedKey;
    }

    /** GET /trending. */
    method GetPopular(svc: Services, apiKey: Option<string>) returns (reply: Reply)
      modifies svc
      ensures reply == TrendingSpec(expectedKey, svc.data, apiKey, HttpScoring(svc.data)).reply
      ensures svc.requests == old(svc.requests) + TrendingSpec(expectedKey, svc.data, apiKey, HttpScoring(svc.data)).requests
    {
      if apiKey != expectedKey {
        return Respond(401, ErrorBody(InvalidApiKey));
      }
      var movies := svc.Trending();
      var top := PopularList(svc, FirstTen(movies));
      reply := if top.Ok? then Respond(200, TopMovies(top.value)) else Crash(top.fault);
    }

    /** GET /movie?query=... (the search route). */
    method SearchForMovie(svc: Services, query: Option<string>, apiKey: Option<string>) returns (reply: Reply)
      modifies svc
      ensures reply == SearchSpec(expectedKey, svc.data, query, apiKey, false).reply
      ensures svc.requests == old(svc.requests) + SearchSpec(expectedKey, svc.data, query, apiKey, false).requests
    {
      if query.None? || query.value == "" {
        return Respond(400, ErrorBody(QueryRequired));
      }
      if apiKey != expectedKey {
        return Respond(401, ErrorBody(InvalidApiKey));
      }
      var found := svc.Search(query.value);
      if found.None? {
        return Crash(SearchRequestFailed);
      }
      var similar := SearchList(svc, FirstTen(found.value));
      reply := if similar.Ok? then Respond(200, SimilarMovies(similar.value)) else Crash(similar.fault);
    }
  }
}
