# CineRedux gateway — a Dafny model

CineRedux is a small Flask gateway in front of The Movie Database (TMDB).
It has two deployments with the same core:

- **lambda_function.py** is the serverless one. It serves `/trending`, `/search`, `/score` and `/movie/<id>`.
- **app.py** is the stand-alone one. It serves `/trending`, `/movie?query=` (search) and `/score`.

For every trending movie, and for the movie of a detail request, the gateway resolves a critic score. It slugifies
the title, fetches that review page on rottentomatoes.com and reads the "Tomatometer" record from the page's
embedded scorecard JSON. It falls back to TMDB's own vote average, written as "<value>/10", when `/score` answers
404. Search results are always scored by that vote average. Access to that lookup goes through
the `/score` handler, which insists on the `X-Internal-Call: true` header. Each deployment reaches `/score` in its
own way:

- the Lambda calls `/score` in-process;
- app.py calls it over HTTP on 127.0.0.1:8080.

Every entry also carries a YouTube link to the movie's first video that is a "Trailer" whose name contains
"Official Trailer", or null when no video qualifies.

The model is organised by module:

| module | file | what it holds |
|---|---|---|
| `Results` | results.dfy | `Option`, `Outcome` (a value or a raised exception `Fault`), `Given` (present and non-empty, Python's truthiness of a query argument) |
| `Json` | json.dfy | decoded JSON values; `Get` is `dict.get` |
| `Text` | text.dfy | the string operations the handlers use: `re.sub('&', 'and', …)`, `re.sub(' ', '_', …)`, `str.lower`, `in` on strings, `split('-')[0]` |
| `Scraper` | scraper.dfy | the review-site slug and the Tomatometer extraction |
| `Records` | records.dfy | the JSON objects the handlers return, and `Reply` (a Flask response, or `Crash` for an uncaught exception) |
| `Network` | network.dfy | the upstream services as data (`Upstream`); the class `Services` performs the fetches and counts them in the ghost field `requests` |
| `Trailers` | trailers.dfy | `get_trailer` |
| `Gateway` | gateway.dfy | `/score`, the critic-or-database choice, and the list-building fold and handler specifications shared by both deployments |
| `LambdaApi` | lambda_api.dfy | lambda_function.py's `MovieAPI` as a class, with an in-process `/score` sub-call |
| `LocalApi` | local_api.dfy | app.py's `MovieAPI` as a class, with an HTTP `/score` sub-call |

Each handler is specified twice:

- a pure function returns a `Run`: the reply and the number of upstream requests made (`TrendingSpec`, `SearchSpec`, `DetailSpec`);
- a class method does the fetches step by step and is proved to return that reply and to make exactly that many requests.

The source's `for` loops are methods with loop invariants:

- The per-movie loops of `get_popular` and `search_for_movie` are proved equal to the fold `Gateway.Collect`. The
  fold processes the movies in order and stops at the first one whose processing raises.
- The video loop of `get_trailer` (`Trailers.SelectTrailer`) is proved equal to `FirstTrailer`.
- The genre loop of `get_movie_info` (`LambdaApi.GenreNames`) is proved to yield the names in order.

A request that makes no upstream call is one whose `requests` count is 0.

Behaviour of the code worth knowing, all of it modelled as written:

- **Whitespace.** The slug turns each single space into `_`. A run of spaces gives a run of `_`, and tabs are kept.
- **A missing `criticsScore` key.** A scorecard without one is answered "not found" (lambda_function.py:36). What raises is a
  `criticsScore` entry without a `title` key, or one that is not an object.
- **Result-list size.** Lists have `min(10, n)` entries, so fewer than 10 when upstream returns fewer.
- **Check order in search.** Search checks the query (400) before the key (401), so a request with neither gets 400.
- **Upstream search failure.** The handler answers `jsonify(...), e`. Flask cannot turn that into a response, so the
  request ends in a server error. The model represents it as `Crash(SearchRequestFailed)`.
- **Sub-call rejections.** A `/score` rejection seen by `get_popular`/`get_movie_info` ends the handler with an exception.
  - In the Lambda, `score()` is called directly. It returns its 403 and 400 rejections as `(response, status)`
    tuples, and reading `status_code` off a tuple raises (`TupleHasNoStatus`). In-process this happens exactly when the
    title is empty.
  - Over HTTP (app.py), any status other than 404 is read as a Tomatometer reply. A rejection has none, so the
    handler raises (`NoTomatometerInScoreReply`).
  - A `/score` server whose own handler raised answers with an HTML error page, on which `.json()` raises
    (`ScoreReplyNotJson`). So over HTTP the scraper's own exception never reaches the caller. In-process it does.
- **Review-page fetch failure.** A failed fetch of the review page raises in `requests.get`
  (lambda_function.py:31, app.py:32), and the exception leaves `/score` and the handler that called it
  (`ReviewPageUnreachable`).

app.py:26-58 and app.py:132-145 repeat lambda_function.py:25-57 and lambda_function.py:173-189 line for line, except
that the 404 is returned as a tuple. The same members model both.

## Model

| member | source | states |
|---|---|---|
| Scraper.StripPunctuation | lambda_function.py:26 | the result has no character of `string.punctuation`; it is shorter by exactly the number of punctuation characters; the spaces are all kept |
| Scraper.Slug | lambda_function.py:26-28 | the slug has no space and no upper-case letter; every punctuation character left in it is `_`; its length is the title's minus the punctuation; it has exactly one `_` per space of the title |
| Scraper.SlugIsPerCharacter | lambda_function.py:26-28 | the three-pass slug equals the independent per-character definition: drop punctuation, map ' ' to '_', lowercase |
| Scraper.SlugNotIdempotent | lambda_function.py:26-28 | slugging is not idempotent: "a b" gives "a_b", and slugging "a_b" again gives "ab", because '_' is punctuation |
| Scraper.AmpersandDropped | lambda_function.py:26-28 | the raw title "A & B" would look up "a__b", which is why titles have '&' spelled out first |
| Scraper.Extract | lambda_function.py:33-47 | no scorecard, or one without `criticsScore`, is "not found"; it raises exactly when `criticsScore` is not an object with a `title`; it finds a record exactly when that title is "Tomatometer", and the record echoes the query and copies ratingCount, scorePercent as ratingValue, and reviewCount |
| Scraper.SameSlugSameRating | lambda_function.py:25-47 | two titles with the same slug get the same outcome, found or not found or raised, up to the echoed movie name |
| Text.ReplaceAmpersands | lambda_function.py:74 | the looked-up title contains no '&', and each '&' became three characters |
| Text.ReplaceAmpersandsAppend | lambda_function.py:74 | the replacement works piecewise: replacing in a + b is replacing in a, then in b |
| Text.ReplaceAmpersandsChar | lambda_function.py:74 | a single '&' becomes "and", and any other character is kept; with the append lemma this fixes the whole result |
| Text.ReplaceAmpersandsWithoutAmpersand | lambda_function.py:74 | a title without '&' is looked up unchanged |
| Text.SpelledOut | lambda_function.py:74 | a title with a single '&', such as "Fast & Furious", is looked up with "and" in its place and the rest unchanged |
| Text.ReplaceChar | lambda_function.py:27 | same length; exactly the spaces become '_', every other character is kept |
| Text.ReplaceCharCounts | lambda_function.py:27 | after the replacement there are no spaces left, and the '_' count is the old '_' count plus the space count |
| Text.Lower | lambda_function.py:28 | same length; every character lowercased; no upper-case letter left |
| Text.LowerKeepsOccurrences | lambda_function.py:28 | lowercasing keeps the number of '_' (of any non-letter) |
| Text.HasSubstringAt | lambda_function.py:55 | the `in` test on video names holds exactly when the phrase occurs at some index of the name |
| Text.BeforeFirst | lambda_function.py:94 | `split('-')[0]` is a prefix of the date without '-', and it ends just before the first '-' when there is one |
| Trailers.FirstTrailerIsFirstMatch | lambda_function.py:54-57 | no trailer exactly when no video is an official trailer; otherwise the URL is that of the first video that is one, and no earlier video is |
| Trailers.SelectTrailer | lambda_function.py:54-57 | the loop over videos returns the first official trailer's watch URL, or nothing |
| Trailers.GetTrailer | lambda_function.py:49-57 | one request to the videos endpoint of the id; the trailer chosen from its results |
| Trailers.BehindTheScenesNotOfficial | lambda_function.py:55 | a "Trailer" named "Behind the Scenes" does not qualify |
| Trailers.OfficialTrailerOneIsOfficial | lambda_function.py:55 | a name that only contains "Official Trailer" qualifies |
| Trailers.ThirdVideoChosen | lambda_function.py:54-57 | with a teaser and an unofficial trailer first, the third video is the one chosen |
| Network.Services.Trending | lambda_function.py:66-69 | one request; the trending results |
| Network.Services.Search | lambda_function.py:113-120 | one request; the search results, or none when the request fails |
| Network.Services.Details | lambda_function.py:143-146 | one request; the movie's details |
| Network.Services.Videos | lambda_function.py:50-53 | one request; the movie's videos |
| Network.Services.ReviewPage | lambda_function.py:28-35 | one request; the decoded scorecard of the page if any, or a request that raised |
| Network.Services.ScoreEndpoint | app.py:76 | one request; the local `/score` reply for the title |
| Records.ImageUrl | lambda_function.py:95-96 | an image URL is the fixed image base followed by the path, or by the text "None" when the path is absent |
| Gateway.ScoreReply | lambda_function.py:173-189 | 403 exactly without the internal header; 400 exactly with it but without a query; 200 exactly when the lookup finds a record, which is then the body; 404 exactly when it finds none; a crash exactly when the lookup raises |
| Gateway.RottenTomatoesRating | lambda_function.py:25-47 | one request, to the slug's page; it raises when the fetch raises, and otherwise gives the outcome of extracting the record from the page |
| Gateway.Score | lambda_function.py:173-189 | the reply `ScoreReply` gives; one request exactly when both checks pass, none otherwise |
| Gateway.RatingField | lambda_function.py:78-85 | the database score "<vote>/10" exactly on a 404; the Tomatometer's ratingValue exactly on another status whose body is a Tomatometer record; otherwise it raises. A crashed sub-call raises the same fault; how each deployment turns its sub-call into this reply is modelled beside it (`InProcessRatingField`, `SameScoreOrBothRaise`); the entry's key is "tmdbScore" on a 404 and "tomatometer" otherwise (lines 79, 84) |
| Gateway.FirstTen | lambda_function.py:72 | `[:10]` keeps the first min(10, n) movies |
| Gateway.CollectEntries | lambda_function.py:72-100 | a completed list has one entry per movie, entry j being movie j's, ranked j + 1 |
| Gateway.CollectFails | lambda_function.py:72-100 | the list raises exactly when some movie's step raises, and then with the fault of the first such movie |
| Gateway.CollectStopsAtFailure | lambda_function.py:72-100 | after a prefix has raised, the rest of the movies are never processed and cost no request |
| Gateway.CollectExtends | lambda_function.py:72-100 | one more pass of the loop appends that movie's entry or raises its fault, adding its requests |
| Gateway.CollectAgree | lambda_function.py:72-100 | two ways of building an entry that succeed on the same movies with the same entries give the same list, or both raise |
| Gateway.TrendingSpec | lambda_function.py:59-102 | 401 exactly when the key differs from the expected one, and then no upstream request; otherwise a crash or 200 with TopMovies |
| Gateway.TrendingEntries | lambda_function.py:72-100 | a 200 trending reply has min(10, n) entries ranked 1.. in upstream order; each keeps the original title, id, overview and year prefix; each takes the score the `/score` reply for its '&'-spelled title decides, its own first official trailer, and its poster and backdrop URLs |
| Gateway.SearchSpec | lambda_function.py:104-135 | 400 exactly without a query; 401 exactly with one but a wrong key; no request in either case; otherwise a crash or 200 with SimilarMovies |
| Gateway.SearchEntries | lambda_function.py:121-133 | a 200 search reply has min(10, n) entries ranked 1.. in result order; each keeps its movie's title, id and overview, is scored "<vote>/10", carries its own movie's first official trailer and poster URL, and has its year exactly in the Lambda variant |
| LambdaApi.InProcessRatingField | lambda_function.py:74-85 | in-process, an empty title raises, because the 400 rejection of lines 180-181 is a tuple without `status_code`; otherwise the critic score exactly when the title's page has a Tomatometer, "<vote>/10" when it has none, and the scraper's own fault when fetching or reading the page raises |
| LambdaApi.GenreNames | lambda_function.py:147-149 | the genre names, one per genre, in upstream order |
| LambdaApi.DetailSpec | lambda_function.py:137-171 | 401 exactly on a wrong key, and then no request; otherwise a crash or 200 with the movie's info object; a movie without a release date crashes |
| LambdaApi.DetailFields | lambda_function.py:147-170 | a 200 detail reply keeps the title, overview and runtime; it takes the year from the release date up to the first '-'; it lists the genre names in order, takes the score the in-process `/score` decides, and takes the trailer of the requested id |
| LambdaApi.UnconfiguredKeyAdmitsMissingKey | lambda_function.py:60-61 | with no configured key, a request with no api_key passes the key check of every handler and reaches upstream |
| LambdaApi.PopularEntry | lambda_function.py:74-100 | one loop pass of get_popular: the entry or fault the specification gives, and exactly its requests |
| LambdaApi.SearchEntry | lambda_function.py:122-132 | one loop pass of search_for_movie: the entry or fault the specification gives, and exactly its requests |
| LambdaApi.PopularList | lambda_function.py:70-100 | the loop yields the fold's list or fault, and makes exactly the fold's requests |
| LambdaApi.SearchList | lambda_function.py:115-132 | the loop yields the fold's list or fault, and makes exactly the fold's requests |
| LambdaApi.MovieApi.constructor | lambda_function.py:7-8 | the expected key is fixed at construction |
| LambdaApi.MovieApi.GetPopular | lambda_function.py:59-102 | the reply `TrendingSpec` gives, with its requests exactly |
| LambdaApi.MovieApi.SearchForMovie | lambda_function.py:104-135 | the reply `SearchSpec` gives (with years), with its requests exactly |
| LambdaApi.MovieApi.GetMovieInfo | lambda_function.py:137-171 | the reply `DetailSpec` gives, with its requests exactly |
| LocalApi.SameScoreOrBothRaise | app.py:75-83 | when the local `/score` server answers as the `/score` handler does, a title gets the same score over HTTP as in-process, or both raise; only the exception can differ |
| LocalApi.TrendingMatchesInProcess | app.py:72-83 | when the local `/score` server answers as the `/score` handler does, a trending reply crashes exactly when the in-process deployment's does, and is otherwise the same reply |
| LocalApi.SearchWithoutYears | app.py:117-127 | where the Lambda search completes, app.py's completes too, with the same entries minus their year |
| LocalApi.PopularEntry | app.py:75-96 | one loop pass with the HTTP sub-call: the specified entry or fault, and exactly its requests |
| LocalApi.SearchEntry | app.py:118-127 | one loop pass never raises, and gives the specified entry and requests |
| LocalApi.PopularList | app.py:70-96 | the loop yields the fold's list or fault, and makes exactly the fold's requests |
| LocalApi.SearchList | app.py:111-127 | the loop yields the fold's list, and makes exactly the fold's requests |
| LocalApi.MovieApi.constructor | app.py:10-11 | the expected key is fixed at construction |
| LocalApi.MovieApi.GetPopular | app.py:60-98 | the reply `TrendingSpec` with HTTP scoring gives, with its requests exactly |
| LocalApi.MovieApi.SearchForMovie | app.py:100-130 | the reply `SearchSpec` without years gives, with its requests exactly |

## Left out

- Flask routing, the index route, `lambda_handler`/awsgi and `app.run`: these dispatch requests to the handlers, and the handlers are modelled directly with their arguments.
- The in-process `test_request_context` is modelled as a direct call of the `/score` handler with the header and query it sets.
- HTTP, HTML parsing and `json.loads` are inputs (`Upstream`). Beyond the cases listed below, the model does not cover malformed upstream payloads: a response without `results`, `genres`, `id`, `type`, `name` or `key`, or a non-object payload.
- The User-Agent header and the TMDB `api_key` parameter of outgoing requests are not modelled; they do not affect any decision.
- Environment configuration (`os.getenv`, `load_dotenv`) becomes the constructor's `expectedKey` argument, and `None` stands for an unset variable.
- `round(vote_average, 2)` and float formatting: the vote average is taken as its already-rendered text `voteAverage`.
- Text.Lower: only ASCII letters are lowercased; Python's `str.lower` also maps non-ASCII letters.
- JSON numbers are integers only; ratings are carried as opaque JSON values.
- A missing or non-string `title`, `overview` or `release_date` is not modelled, except for a missing `release_date`. That one raises and is modelled as `MissingReleaseDate`.
- Failures of the trending, detail and video requests are not modelled. Search failures are modelled: `raise_for_status` and a missing `results` are both `Crash(SearchRequestFailed)`. So are review-page fetch failures, as `ReviewPageUnreachable`.
- Network.Services.ScoreEndpoint: a failure to reach the local `/score` server is not modelled; only the server's replies are, including its error page.
- Network.Services.ScoreEndpoint: app.py sends the title as an unencoded query string. What the server then sees is part of the `scoreEndpoint` input, so `LocalApi.TrendingMatchesInProcess` assumes the server decodes each title faithfully.
- The body of the server error that follows an uncaught exception is not modelled; `Crash` carries only which fault it was.
