/** The decision logic both deployments share: the /score handler, the
    choice between the critic score and the database score, the per-movie
    entries, and the fold that builds a result list in upstream order and
    stops at the first exception. */
module Gateway {
  import opened Results
  import opened Json
  import opened Text
  import opened Scraper
  import opened Records
  import opened Network
  import opened Trailers

  /** The X-Internal-Call header marks the call as internal. */
  predicate Internal(header: Option<string>)
  {
    header == Some("true")
  }

  /** The /score handler: header check, then query check, then the lookup. */
  function ScoreReply(header: Option<string>, query: Option<string>, pages: string -> Page): (r: Reply)
    ensures (r.Respond? && r.status == 403) <==> !Internal(header)
    ensures (r.Respond? && r.status == 400) <==> Internal(header) && !Given(query)
    ensures (r.Respond? && r.status == 200) <==>
      Internal(header) && Given(query) && Rating(query.value, pages).Ok? && Rating(query.value, pages).value.Some?
    ensures (r.Respond? && r.status == 404) <==>
      Internal(header) && Given(query) && Rating(query.value, pages) == Ok(None)
    ensures r.Crash? <==> Internal(header) && Given(query) && Rating(query.value, pages).Fail?
    ensures r.Respond? && r.status == 200 ==>
      r.body.RatingBody? && Rating(query.value, pages) == Ok(Some(r.body.tomatometer))
      && r.body.tomatometer.movie == query.value
  {
    if !Internal(header) then Respond(403, ErrorBody(UnauthorizedAccess))
    else if !Given(query) then Respond(400, ErrorBody(QueryRequired))
    else
      match Rating(query.value, pages)
      case Ok(Some(card)) => Respond(200, RatingBody(card))
      case Ok(None) => Respond(404, ErrorBody(RatingNotFound))
      case Fail(f) => Crash(f)
  }

  /** Requests /score makes: one review page, once both checks pass. */
  function ScoreRequests(header: Option<string>, query: Option<string>): nat
  {
    if Internal(header) && Given(query) then 1 else 0
  }

  /** get_rotten_tomatoes_rating: fetch the slug's page, extract the record. */
  method RottenTomatoesRating(svc: Services, query: string) returns (r: Outcome<Option<Tomatometer>>)
    modifies svc
    ensures r == Rating(query, svc.data.pages)
    ensures svc.requests == old(svc.requests) + 1
  {
    var page := svc.ReviewPage(ReviewUrl(query));
    match page
    case Unreachable => r := Fail(ReviewPageUnreachable);
    case Fetched(card) => r := Extract(query, card);
  }

  /** The /score handler. */
  method Score(svc: Services, header: Option<string>, query: Option<string>) returns (reply: Reply)
    modifies svc
    ensures reply == ScoreReply(header, query, svc.data.pages)
    ensures svc.requests == old(svc.requests) + ScoreRequests(header, query)
  {
    if header != Some("true") {
      return Respond(403, ErrorBody(UnauthorizedAccess));
    }
    if query.None? || query.value == "" {
      return Respond(400, ErrorBody(QueryRequired));
    }
    var result := RottenTomatoesRating(svc, query.value);
    match result
    case Ok(Some(card)) => reply := Respond(200, RatingBody(card));
    case Ok(None) => reply := Respond(404, ErrorBody(RatingNotFound));
    case Fail(f) => reply := Crash(f);
  }

  /** What the handlers do with the /score reply: a 404 falls back to the
      database score, any other status must carry the Tomatometer record. */
  function RatingField(reply: Reply, voteAverage: string): (r: Outcome<ScoreField>)
    ensures (r.Ok? && r.value.TmdbScore?) <==> reply.Respond? && reply.status == 404
    ensures r.Ok? && r.value.TmdbScore? ==> r.value.text == voteAverage + "/10"
    ensures (r.Ok? && r.value.CriticScore?) <==>
      reply.Respond? && reply.status != 404 && reply.body.RatingBody?
    ensures r.Ok? && r.value.CriticScore? ==> r.value.ratingValue == reply.body.tomatometer.ratingValue
    ensures reply.Crash? ==> r == Fail(reply.fault)
    ensures r.Ok? ==> ScoreKey(r.value) == if reply.Respond? && reply.status == 404 then "tmdbScore" else "tomatometer"
  {
    match reply
    case Crash(f) => Fail(f)
    case Respond(status, body) =>
      if status == 404 then Ok(TmdbScore(voteAverage + "/10"))
      else if body.RatingBody? then Ok(CriticScore(body.tomatometer.ratingValue))
      else Fail(NoTomatometerInScoreReply)
  }

  /** The /score sub-call's reply and the requests it cost the caller. */
  datatype SubCall = SubCall(reply: Reply, requests: nat)

  /** A step that yields a value or raises, and the requests it made. */
  datatype Step<T> = Step(outcome: Outcome<T>, requests: nat)

  /** A handler's reply and the upstream requests it made. */
  datatype Run = Run(reply: Reply, requests: nat)

  /** movies[:10]. */
  function FirstTen(movies: seq<TmdbMovie>): (r: seq<TmdbMovie>)
    ensures |r| == Min(10, |movies|) && r == movies[..|r|]
  {
    if |movies| <= 10 then movies else movies[..10]
  }

  /** The loop over result movies: item(movie, index + 1) for each in order,
      stopping at the first that raises. */
  function Collect<E>(movies: seq<TmdbMovie>, item: (TmdbMovie, int) -> Step<E>): Step<seq<E>>
    decreases |movies|
  {
    if movies == [] then Step(Ok([]), 0)
    else
      var prev := Collect(movies[..|movies| - 1], item);
      if prev.outcome.Fail? then prev
      else
        var s := item(movies[|movies| - 1], |movies|);
        match s.outcome
        case Fail(f) => Step(Fail(f), prev.requests + s.requests)
        case Ok(e) => Step(Ok(prev.outcome.value + [e]), prev.requests + s.requests)
  }

  /** A completed list has one entry per movie, entry j being movie j's at rank j + 1. */
  lemma {:induction false} CollectEntries<E>(movies: seq<TmdbMovie>, item: (TmdbMovie, int) -> Step<E>)
    requires Collect(movies, item).outcome.Ok?
    ensures |Collect(movies, item).outcome.value| == |movies|
    ensures forall j :: 0 <= j < |movies| ==>
      item(movies[j], j + 1).outcome == Ok(Collect(movies, item).outcome.value[j])
  {
    if movies != [] {
      var init := movies[..|movies| - 1];
      CollectEntries(init, item);
      forall j | 0 <= j < |movies| - 1
        ensures item(movies[j], j + 1).outcome == Ok(Collect(movies, item).outcome.value[j])
      {
        assert movies[j] == init[j];
      }
    }
  }

  /** The list raises exactly when some movie's step raises, and then with the
      exception of the first such movie. */
  lemma {:induction false} CollectFails<E>(movies: seq<TmdbMovie>, item: (TmdbMovie, int) -> Step<E>)
    ensures Collect(movies, item).outcome.Fail? <==>
      exists j :: 0 <= j < |movies| && item(movies[j], j + 1).outcome.Fail?
    ensures Collect(movies, item).outcome.Fail? ==>
      exists j :: 0 <= j < |movies| && item(movies[j], j + 1).outcome == Fail(Collect(movies, item).outcome.fault)
        && forall k :: 0 <= k < j ==> item(movies[k], k + 1).outcome.Ok?
  {
    if movies != [] {
      var n := |movies|;
      var init := movies[..n - 1];
      CollectFails(init, item);
      assert forall j :: 0 <= j < n - 1 ==> movies[j] == init[j];
      if Collect(init, item).outcome.Fail? {
        var j :| 0 <= j < n - 1 && item(init[j], j + 1).outcome == Fail(Collect(init, item).outcome.fault)
          && forall k :: 0 <= k < j ==> item(init[k], k + 1).outcome.Ok?;
        assert item(movies[j], j + 1).outcome == Fail(Collect(movies, item).outcome.fault);
      } else if item(movies[n - 1], n).outcome.Fail? {
        assert forall k :: 0 <= k < n - 1 ==> item(movies[k], k + 1).outcome.Ok?;
      }
    }
  }

  /** Once a prefix has raised, the rest of the list is never processed. */
  lemma {:induction false} CollectStopsAtFailure<E>(movies: seq<TmdbMovie>, k: nat, item: (TmdbMovie, int) -> Step<E>)
    requires k <= |movies|
    requires Collect(movies[..k], item).outcome.Fail?
    ensures Collect(movies, item) == Collect(movies[..k], item)
    decreases |movies|
  {
    if k < |movies| {
      var init := movies[..|movies| - 1];
      assert init[..k] == movies[..k];
      CollectStopsAtFailure(init, k, item);
    } else {
      assert movies[..k] == movies;
    }
  }

  /** Processing one more movie after a prefix that completed. */
  lemma CollectExtends<E>(movies: seq<TmdbMovie>, i: nat, item: (TmdbMovie, int) -> Step<E>)
    requires i < |movies|
    requires Collect(movies[..i], item).outcome.Ok?
    ensures var prev := Collect(movies[..i], item);
      var s := item(movies[i], i + 1);
      Collect(movies[..i + 1], item) ==
        Step(if s.outcome.Ok? then Ok(prev.outcome.value + [s.outcome.value]) else Fail(s.outcome.fault),
             prev.requests + s.requests)
  {
    assert movies[..i + 1][..i] == movies[..i];
  }

  /** Two item functions that succeed on the same movies, with the same
      entries, give the same list, or both raise (the faults raised and the
      requests made may differ). */
  lemma {:induction false} CollectAgree<E>(movies: seq<TmdbMovie>, f: (TmdbMovie, int) -> Step<E>, g: (TmdbMovie, int) -> Step<E>)
    requires forall m, r :: f(m, r).outcome.Ok? <==> g(m, r).outcome.Ok?
    requires forall m, r :: f(m, r).outcome.Ok? ==> f(m, r).outcome == g(m, r).outcome
    ensures Collect(movies, f).outcome.Ok? <==> Collect(movies, g).outcome.Ok?
    ensures Collect(movies, f).outcome.Ok? ==> Collect(movies, f).outcome == Collect(movies, g).outcome
  {
    if movies != [] {
      CollectAgree(movies[..|movies| - 1], f, g);
    }
  }

  /** One trending entry, built in the order get_popular evaluates it: the
      score sub-call and its use, then the year, then the trailer request. */
  function TopItem(m: TmdbMovie, rank: int, sub: SubCall, videos: seq<Video>): Step<TopEntry>
  {
    match RatingField(sub.reply, m.voteAverage)
    case Fail(f) => Step(Fail(f), sub.requests)
    case Ok(score) =>
      match m.releaseDate
      case None => Step(Fail(MissingReleaseDate), sub.requests)
      case Some(date) =>
        Step(Ok(TopEntry(rank, m.title, m.overview, m.id, score, BeforeFirst(date, '-'),
                         ImageUrl(m.posterPath), ImageUrl(m.backdropPath), FirstTrailer(videos))),
             sub.requests + 1)
  }

  /** The trending step, given how a title's score is obtained; the title is
      looked up with every '&' spelled out. */
  function TopItems(u: Upstream, scoring: string -> SubCall): (TmdbMovie, int) -> Step<TopEntry>
  {
    (m: TmdbMovie, rank: int) => TopItem(m, rank, scoring(ReplaceAmpersands(m.title)), u.videos(m.id))
  }

  /** get_popular. */
  function TrendingSpec(expectedKey: Option<string>, u: Upstream, apiKey: Option<string>, scoring: string -> SubCall): (r: Run)
    ensures r.requests == 0 <==> apiKey != expectedKey
    ensures (r.reply.Respond? && r.reply.status == 401) <==> apiKey != expectedKey
    ensures r.reply.Respond? && r.reply.status != 401 ==> r.reply.status == 200 && r.reply.body.TopMovies?
  {
    if apiKey != expectedKey then Run(Respond(401, ErrorBody(InvalidApiKey)), 0)
    else
      var s := Collect(FirstTen(u.trending), TopItems(u, scoring));
      Run(if s.outcome.Ok? then Respond(200, TopMovies(s.outcome.value)) else Crash(s.outcome.fault),
          1 + s.requests)
  }

  /** A trending list that completes has min(10, n) entries ranked 1.. in
      upstream order; each keeps the original title and carries the field
      the /score reply for the '&'-spelled title decides. */
  lemma TrendingEntries(expectedKey: Option<string>, u: Upstream, apiKey: Option<string>, scoring: string -> SubCall)
    requires TrendingSpec(expectedKey, u, apiKey, scoring).reply.Respond?
    requires TrendingSpec(expectedKey, u, apiKey, scoring).reply.status == 200
    ensures var es := TrendingSpec(expectedKey, u, apiKey, scoring).reply.body.top;
      && |es| == Min(10, |u.trending|)
      && forall j :: 0 <= j < |es| ==>
        var m := u.trending[j];
        && es[j].rank == j + 1
        && es[j].title == m.title && es[j].id == m.id && es[j].overview == m.overview
        && m.releaseDate.Some? && es[j].year == BeforeFirst(m.releaseDate.value, '-')
        && RatingField(scoring(ReplaceAmpersands(m.title)).reply, m.voteAverage) == Ok(es[j].score)
        && es[j].trailer == FirstTrailer(u.videos(m.id))
        && es[j].poster == ImageUrl(m.posterPath) && es[j].backdrop == ImageUrl(m.backdropPath)
  {
    var top := FirstTen(u.trending);
    var item := TopItems(u, scoring);
    CollectEntries(top, item);
    var es := Collect(top, item).outcome.value;
    forall j | 0 <= j < |es|
      ensures item(top[j], j + 1).outcome == Ok(es[j])
      ensures item(top[j], j + 1) == TopItem(top[j], j + 1, scoring(ReplaceAmpersands(top[j].title)), u.videos(top[j].id))
      ensures top[j] == u.trending[j]
    {
      TopItemFields(top[j], j + 1, scoring(ReplaceAmpersands(top[j].title)), u.videos(top[j].id));
    }
  }

  /** The fields of a trending entry that was built. */
  lemma TopItemFields(m: TmdbMovie, rank: int, sub: SubCall, videos: seq<Video>)
    requires TopItem(m, rank, sub, videos).outcome.Ok?
    ensures var e := TopItem(m, rank, sub, videos).outcome.value;
      && e.rank == rank && e.title == m.title && e.id == m.id && e.overview == m.overview
      && m.releaseDate.Some? && e.year == BeforeFirst(m.releaseDate.value, '-')
      && RatingField(sub.reply, m.voteAverage) == Ok(e.score)
      && e.trailer == FirstTrailer(videos)
      && e.poster == ImageUrl(m.posterPath) && e.backdrop == ImageUrl(m.backdropPath)
  {
  }

  /** One search entry; withYear tells whether the entry has a 'year' key. */
  function SimilarItem(m: TmdbMovie, rank: int, withYear: bool, videos: seq<Video>): Step<SimilarEntry>
  {
    if withYear && m.releaseDate.None? then Step(Fail(MissingReleaseDate), 0)
    else
      var year := if withYear then Some(BeforeFirst(m.releaseDate.value, '-')) else None;
      Step(Ok(SimilarEntry(rank, m.title, m.overview, year, m.id, m.voteAverage + "/10",
                           ImageUrl(m.posterPath), FirstTrailer(videos))), 1)
  }

  function SimilarItems(u: Upstream, withYear: bool): (TmdbMovie, int) -> Step<SimilarEntry>
  {
    (m: TmdbMovie, rank: int) => SimilarItem(m, rank, withYear, u.videos(m.id))
  }

  /** search_for_movie: query check, then key check, then the search. */
  function SearchSpec(expectedKey: Option<string>, u: Upstream, query: Option<string>, apiKey: Option<string>, withYear: bool): (r: Run)
    ensures (r.reply.Respond? && r.reply.status == 400) <==> !Given(query)
    ensures (r.reply.Respond? && r.reply.status == 401) <==> Given(query) && apiKey != expectedKey
    ensures r.requests == 0 <==> !Given(query) || apiKey != expectedKey
    ensures r.reply.Respond? && r.reply.status !in {400, 401} ==> r.reply.status == 200 && r.reply.body.SimilarMovies?
  {
    if !Given(query) then Run(Respond(400, ErrorBody(QueryRequired)), 0)
    else if apiKey != expectedKey then Run(Respond(401, ErrorBody(InvalidApiKey)), 0)
    else
      match u.search(query.value)
      case None => Run(Crash(SearchRequestFailed), 1)
      case Some(movies) =>
        var s := Collect(FirstTen(movies), SimilarItems(u, withYear));
        Run(if s.outcome.Ok? then Respond(200, SimilarMovies(s.outcome.value)) else Crash(s.outcome.fault),
            1 + s.requests)
  }

  /** Completed search results: min(10, n) entries ranked 1.. in upstream
      order, each keeping its movie's title, id and overview, scored by the
      database, with its own first official trailer, and with a year exactly
      when withYear. */
  lemma SearchEntries(expectedKey: Option<string>, u: Upstream, query: Option<string>, apiKey: Option<string>, withYear: bool)
    requires SearchSpec(expectedKey, u, query, apiKey, withYear).reply.Respond?
    requires SearchSpec(expectedKey, u, query, apiKey, withYear).reply.status == 200
    ensures Given(query) && u.search(query.value).Some?
    ensures var movies := u.search(query.value).value;
      var es := SearchSpec(expectedKey, u, query, apiKey, withYear).reply.body.similar;
      && |es| == Min(10, |movies|)
      && forall j :: 0 <= j < |es| ==>
        && es[j].rank == j + 1
        && es[j].title == movies[j].title && es[j].id == movies[j].id
        && es[j].overview == movies[j].overview
        && es[j].trailer == FirstTrailer(u.videos(movies[j].id))
        && es[j].poster == ImageUrl(movies[j].posterPath)
        && es[j].tmdbScore == movies[j].voteAverage + "/10"
        && (withYear ==> movies[j].releaseDate.Some? && es[j].year == Some(BeforeFirst(movies[j].releaseDate.value, '-')))
        && (!withYear ==> es[j].year.None?)
  {
    var movies := u.search(query.value).value;
    var top := FirstTen(movies);
    var item := SimilarItems(u, withYear);
    CollectEntries(top, item);
    var es := Collect(top, item).outcome.value;
    forall j | 0 <= j < |es|
      ensures item(top[j], j + 1).outcome == Ok(es[j])
      ensures item(top[j], j + 1) == SimilarItem(top[j], j + 1, withYear, u.videos(top[j].id))
      ensures top[j] == movies[j]
    {
    }
  }
}
