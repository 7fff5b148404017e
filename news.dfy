/**
 * The news page: articles filtered by a case-insensitive search over title,
 * summary and source plus category and source selects, and the "time ago"
 * label of each article.
 */
module News {

  import opened Wrappers
  import opened Text
  import opened Seqs

  datatype NewsArticle = NewsArticle(
    id: int,
    title: string,
    source: string,
    url: string,
    publishedAt: string,
    summary: string,
    category: string,
    imageUrl: Option<string>)

  datatype NewsFilters = NewsFilters(searchTerm: string, category: string, source: string)

  predicate MatchesSearch(a: NewsArticle, term: string)
  {
    || Includes(Lower(a.title), Lower(term))
    || Includes(Lower(a.summary), Lower(term))
    || Includes(Lower(a.source), Lower(term))
  }

  predicate Matches(a: NewsArticle, f: NewsFilters)
  {
    && MatchesSearch(a, f.searchTerm)
    && (f.category == "" || a.category == f.category)
    && (f.source == "" || a.source == f.source)
  }

  function Keep(f: NewsFilters): NewsArticle -> bool
  {
    (a: NewsArticle) => Matches(a, f)
  }

  /**
   * `filteredNews`: the articles, in order, whose title, summary or source
   * contains the term ignoring case, restricted to the selected category
   * and source when those are set.
   */
  function FilteredNews(news: seq<NewsArticle>, f: NewsFilters): (r: seq<NewsArticle>)
    ensures IsSubsequence(r, news)
    ensures forall a :: a in r ==>
      && (|| Includes(Lower(a.title), Lower(f.searchTerm))
          || Includes(Lower(a.summary), Lower(f.searchTerm))
          || Includes(Lower(a.source), Lower(f.searchTerm)))
      && (f.category != "" ==> a.category == f.category)
      && (f.source != "" ==> a.source == f.source)
    ensures forall a :: a in news && Matches(a, f) ==> a in r
    ensures forall a :: a in news ==> multiset(r)[a] == if Matches(a, f) then multiset(news)[a] else 0
  {
    FilterMultiplicity(news, Keep(f));
    Filter(news, Keep(f))
  }

  /** Filtering the filtered list again changes nothing. */
  lemma FilterNewsIdempotent(news: seq<NewsArticle>, f: NewsFilters)
    ensures FilteredNews(FilteredNews(news, f), f) == FilteredNews(news, f)
  {
    FilterIdempotent(news, Keep(f));
  }

  /** With no search term and both selects on "All" every article is listed. */
  lemma NoFiltersKeepAll(news: seq<NewsArticle>)
    ensures FilteredNews(news, NewsFilters("", "", "")) == news
  {
    forall a | a in news ensures Keep(NewsFilters("", "", ""))(a) {
      IncludesEmpty(Lower(a.title));
    }
    FilterAll(news, Keep(NewsFilters("", "", "")));
  }

  /** Searching for an article's exact title finds it, whatever the case of the term. */
  lemma SearchByTitleFinds(news: seq<NewsArticle>, a: NewsArticle, term: string)
    requires a in news && Lower(term) == Lower(a.title)
    ensures a in FilteredNews(news, NewsFilters(term, "", ""))
  {
    IncludesSelf(Lower(a.title));
    assert Keep(NewsFilters(term, "", ""))(a);
  }

  function CategoryOf(a: NewsArticle): string
  {
    a.category
  }

  /** `categories`: each category that occurs, once, in first-occurrence order. */
  function CategoryOptions(news: seq<NewsArticle>): (r: seq<string>)
    ensures NoDuplicates(r)
    ensures forall c :: c in r ==> exists a :: a in news && a.category == c
    ensures forall a :: a in news ==> a.category in r
    ensures InFirstOccurrenceOrder(r, Map(news, CategoryOf))
  {
    DistinctValues(news, CategoryOf)
  }

  function SourceOf(a: NewsArticle): string
  {
    a.source
  }

  /** `sources`: each source that occurs, once, in first-occurrence order. */
  function SourceOptions(news: seq<NewsArticle>): (r: seq<string>)
    ensures NoDuplicates(r)
    ensures forall s :: s in r ==> exists a :: a in news && a.source == s
    ensures forall a :: a in news ==> a.source in r
    ensures InFirstOccurrenceOrder(r, Map(news, SourceOf))
  {
    DistinctValues(news, SourceOf)
  }

  // ---------------------------------------------------------------- time ago

  /**
   * `timeAgo` on the whole seconds elapsed since publication (the caller
   * floors the millisecond difference): the coarsest of minutes, hours and
   * days, with no tier above days.
   */
  function TimeAgo(elapsed: int): (text: string)
    ensures |text| > 0
  {
    if elapsed < 60 then "Just now"
    else if elapsed < 3600 then NatToString(elapsed / 60) + "m ago"
    else if elapsed < 86400 then NatToString(elapsed / 3600) + "h ago"
    else NatToString(elapsed / 86400) + "d ago"
  }

  /** The label reads "Just now" exactly for less than a minute, including times in the future. */
  lemma JustNowIff(elapsed: int)
    ensures TimeAgo(elapsed) == "Just now" <==> elapsed < 60
  {
    if elapsed >= 60 {
      var text := TimeAgo(elapsed);
      assert text[|text| - 1] == 'o';
    }
  }

  /** Under an hour: whole minutes, between 1 and 59, and no whole hour yet. */
  lemma MinutesBucket(elapsed: int)
    requires 60 <= elapsed < 3600
    ensures var m := elapsed / 60;
      && 1 <= m < 60
      && m * 60 <= elapsed < m * 60 + 60
      && elapsed / 3600 == 0
      && TimeAgo(elapsed) == NatToString(m) + "m ago"
  {
  }

  /** Under a day: whole hours, between 1 and 23, and no whole day yet. */
  lemma HoursBucket(elapsed: int)
    requires 3600 <= elapsed < 86400
    ensures var h := elapsed / 3600;
      && 1 <= h < 24
      && h * 3600 <= elapsed < h * 3600 + 3600
      && elapsed / 86400 == 0
      && TimeAgo(elapsed) == NatToString(h) + "h ago"
  {
  }

  /** From a day on: whole days, at least 1, however many. */
  lemma DaysBucket(elapsed: int)
    requires elapsed >= 86400
    ensures var d := elapsed / 86400;
      && d >= 1
      && d * 86400 <= elapsed < d * 86400 + 86400
      && TimeAgo(elapsed) == NatToString(d) + "d ago"
  {
  }

  /** Two ages under an hour get the same label exactly when they have the same whole minutes. */
  lemma SameLabelSameBucket(a: int, b: int)
    requires 60 <= a < 3600 && 60 <= b < 3600
    ensures TimeAgo(a) == TimeAgo(b) <==> a / 60 == b / 60
  {
    if TimeAgo(a) == TimeAgo(b) {
      var x, y := NatToString(a / 60), NatToString(b / 60);
      assert x + "m ago" == y + "m ago";
      assert |x| == |y|;
      assert x == (x + "m ago")[..|x|] == (y + "m ago")[..|y|] == y;
      NatToStringInjective(a / 60, b / 60);
    }
  }

  lemma TimeAgoExamples()
    ensures TimeAgo(30) == "Just now"
    ensures TimeAgo(5 * 60) == "5m ago"
    ensures TimeAgo(3 * 3600) == "3h ago"
    ensures TimeAgo(2 * 86400) == "2d ago"
    ensures TimeAgo(-5) == "Just now"
  {
  }
}
