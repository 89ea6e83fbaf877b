/** The critic-score scraper of get_rotten_tomatoes_rating: the review-site
    slug derived from a title, and the Tomatometer record extracted from the
    page's decoded scorecard JSON. The fetched and parsed page is an input. */
module Scraper {
  import opened Results
  import opened Json
  import opened Text

  /** The 32 characters of Python's string.punctuation:
      !"#$%&'()*+,-./  :;<=>?@  [\]^_`  {|}~ , i.e. the four ASCII ranges below. */
  predicate IsPunctuation(c: char)
  {
    ('!' <= c <= '/') || (':' <= c <= '@') || ('[' <= c <= '`') || ('{' <= c <= '~')
  }

  function PunctuationCount(s: string): nat
  {
    if s == [] then 0 else (if IsPunctuation(s[0]) then 1 else 0) + PunctuationCount(s[1..])
  }

  /** re.sub("[<escaped punctuation>]", '', s): delete every punctuation character. */
  function StripPunctuation(s: string): (r: string)
    ensures forall i :: 0 <= i < |r| ==> !IsPunctuation(r[i])
    ensures |r| == |s| - PunctuationCount(s)
    ensures Occurrences(r, ' ') == Occurrences(s, ' ')
  {
    if s == [] then []
    else
      var head := if IsPunctuation(s[0]) then [] else [s[0]];
      var tail := StripPunctuation(s[1..]);
      OccurrencesAppend(head, tail, ' ');
      head + tail
  }

  /** The slug: punctuation deleted, then each single space turned into '_',
      then lowercased. */
  function Slug(query: string): (r: string)
    ensures ' ' !in r
    ensures forall i :: 0 <= i < |r| ==> !IsAsciiUpper(r[i])
    ensures forall i :: 0 <= i < |r| && IsPunctuation(r[i]) ==> r[i] == '_'
    ensures |r| == |query| - PunctuationCount(query)
    ensures Occurrences(r, '_') == Occurrences(query, ' ')
  {
    var stripped := StripPunctuation(query);
    var spaced := ReplaceChar(stripped, ' ', '_');
    assert '_' !in stripped;
    NoOccurrences(stripped, '_');
    ReplaceCharCounts(stripped, ' ', '_');
    LowerKeepsOccurrences(spaced, '_');
    Lower(spaced)
  }

  const ReviewSite := "https://www.rottentomatoes.com/m/"

  /** The page fetched for a title. */
  function ReviewUrl(query: string): string
  {
    ReviewSite + Slug(query)
  }

  /** What one input character becomes in the slug, when it is kept. */
  function SlugChar(c: char): char
  {
    if c == ' ' then '_' else LowerChar(c)
  }

  /** An independent, one-pass definition of the slug: drop punctuation,
      map every other character through SlugChar. */
  function SlugByCharacter(query: string): string
  {
    if query == [] then []
    else (if IsPunctuation(query[0]) then [] else [SlugChar(query[0])]) + SlugByCharacter(query[1..])
  }

  /** The three-pass slug agrees with the one-pass reference definition. */
  lemma {:induction false} SlugIsPerCharacter(query: string)
    ensures Slug(query) == SlugByCharacter(query)
  {
    if query != [] {
      SlugIsPerCharacter(query[1..]);
      var head := if IsPunctuation(query[0]) then [] else [query[0]];
      var tail := StripPunctuation(query[1..]);
      assert StripPunctuation(query) == head + tail;
      ReplaceCharAppend(head, tail, ' ', '_');
      LowerAppend(ReplaceChar(head, ' ', '_'), ReplaceChar(tail, ' ', '_'));
    }
  }

  lemma {:induction false} ReplaceCharAppend(a: string, b: string, from: char, to: char)
    ensures ReplaceChar(a + b, from, to) == ReplaceChar(a, from, to) + ReplaceChar(b, from, to)
  {
    var r := ReplaceChar(a + b, from, to);
    var t := ReplaceChar(a, from, to) + ReplaceChar(b, from, to);
    assert |r| == |t|;
    forall i | 0 <= i < |r| ensures r[i] == t[i] {
      if i < |a| { assert (a + b)[i] == a[i]; } else { assert (a + b)[i] == b[i - |a|]; }
    }
  }

  lemma {:induction false} LowerAppend(a: string, b: string)
    ensures Lower(a + b) == Lower(a) + Lower(b)
  {
    var r := Lower(a + b);
    var t := Lower(a) + Lower(b);
    assert |r| == |t|;
    forall i | 0 <= i < |r| ensures r[i] == t[i] {
      if i < |a| { assert (a + b)[i] == a[i]; } else { assert (a + b)[i] == b[i - |a|]; }
    }
  }

  /** The slug is not idempotent: '_' is punctuation, so slugging a slug
      deletes the underscores that came from spaces. */
  lemma SlugNotIdempotent()
    ensures Slug("a b") == "a_b"
    ensures Slug(Slug("a b")) == "ab"
  {
    SlugIsPerCharacter("a b");
    SlugIsPerCharacter("a_b");
    assert "a b"[1..] == " b" && " b"[1..] == "b" && "b"[1..] == [];
    assert "a_b"[1..] == "_b" && "_b"[1..] == "b";
  }

  /** The record keyed 'Tomatometer' in the score reply. */
  datatype Tomatometer = Tomatometer(movie: string, ratingCount: Value, ratingValue: Value, reviewCount: Value)

  /** The scorecard has a criticsScore entry. */
  predicate HasCriticsScore(card: Scorecard)
  {
    "criticsScore" in card
  }

  /** The criticsScore entry can be indexed by 'title' without raising. */
  predicate CriticsScoreTitled(card: Scorecard)
    requires HasCriticsScore(card)
  {
    card["criticsScore"].Object? && "title" in card["criticsScore"].fields
  }

  /** The criticsScore entry is the Tomatometer. */
  predicate IsTomatometer(card: Scorecard)
  {
    HasCriticsScore(card) && CriticsScoreTitled(card)
    && card["criticsScore"].fields["title"] == Str("Tomatometer")
  }

  /** The extraction step of get_rotten_tomatoes_rating. card is the decoded
      media-scorecard-json script element, None when the page has none.
      Ok(None) is "not found"; Fail is a KeyError or TypeError. */
  function Extract(query: string, card: Option<Scorecard>): (r: Outcome<Option<Tomatometer>>)
    ensures card.None? ==> r == Ok(None)
    ensures card.Some? && !HasCriticsScore(card.value) ==> r == Ok(None)
    ensures r.Fail? <==> card.Some? && HasCriticsScore(card.value) && !CriticsScoreTitled(card.value)
    ensures r.Ok? && r.value.Some? <==> card.Some? && IsTomatometer(card.value)
    ensures r.Ok? && r.value.Some? ==>
      var info := card.value["criticsScore"].fields;
      && r.value.value.movie == query
      && r.value.value.ratingCount == Get(info, "ratingCount")
      && r.value.value.ratingValue == Get(info, "scorePercent")
      && r.value.value.reviewCount == Get(info, "reviewCount")
  {
    match card
    case None => Ok(None)
    case Some(page) =>
      if "criticsScore" !in page then Ok(None)
      else
        match page["criticsScore"]
        case Object(info) =>
          if "title" !in info then Fail(CriticsScoreWithoutTitle)
          else if info["title"] == Str("Tomatometer") then
            Ok(Some(Tomatometer(query, Get(info, "ratingCount"), Get(info, "scorePercent"), Get(info, "reviewCount"))))
          else Ok(None)
        case _ => Fail(CriticsScoreNotObject)
  }

  /** What fetching a review page gives: the request raised, or the page's
      decoded scorecard element (None when the page has none). */
  datatype Page = Unreachable | Fetched(card: Option<Scorecard>)

  /** get_rotten_tomatoes_rating with the site as a function from URL to
      the page fetched there. */
  function Rating(query: string, pages: string -> Page): Outcome<Option<Tomatometer>>
  {
    match pages(ReviewUrl(query))
    case Unreachable => Fail(ReviewPageUnreachable)
    case Fetched(card) => Extract(query, card)
  }

  /** Titles with the same slug read the same page: their outcomes differ
      only in the movie field, which echoes the title asked for. */
  lemma SameSlugSameRating(a: string, b: string, pages: string -> Page)
    requires Slug(a) == Slug(b)
    ensures Rating(a, pages).Fail? <==> Rating(b, pages).Fail?
    ensures Rating(a, pages).Fail? ==> Rating(a, pages) == Rating(b, pages)
    ensures Rating(a, pages).Ok? ==>
      (Rating(a, pages).value.Some? <==> Rating(b, pages).value.Some?)
    ensures Rating(a, pages).Ok? && Rating(a, pages).value.Some? ==>
      Rating(a, pages).value.value == Rating(b, pages).value.value.(movie := a)
  {
  }

  /** Why titles have '&' spelled out before the lookup: slugging the raw
      title drops the ampersand and keeps both spaces around it. */
  lemma AmpersandDropped()
    ensures Slug("A & B") == "a__b"
  {
    SlugIsPerCharacter("A & B");
  }
}
