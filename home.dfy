/**
 * The dashboard: of the upcoming launches and the recent news the server
 * sends, only the first six of each are shown, each upcoming launch with
 * its countdown.
 */
module Home {

  import opened Seqs
  import opened Ints
  import opened Records
  import opened Countdown

  datatype Stats = Stats(
    totalOrganizations: int,
    totalRockets: int,
    totalSatellites: int,
    totalLaunches: int,
    upcomingLaunches: int,
    recentNews: int)

  datatype RocketSummary = RocketSummary(id: int, name: string, organization: OrgRef)

  datatype UpcomingLaunch = UpcomingLaunch(
    id: int,
    name: string,
    launchDate: string,
    countdownSeconds: int,
    daysUntilLaunch: int,
    rocket: RocketSummary)

  datatype NewsItem = NewsItem(
    id: int,
    title: string,
    source: string,
    publishedAt: string,
    summary: string,
    imageUrl: string,
    url: string)

  datatype FeaturedRocket = FeaturedRocket(
    id: int,
    name: string,
    description: string,
    imageUrl: string,
    launchCount: int,
    successRate: real,
    organization: OrgRef)

  datatype FeaturedSatellite = FeaturedSatellite(
    id: int,
    name: string,
    purpose: string,
    imageUrl: string,
    ageInDays: int,
    organization: OrgRef)

  datatype DashboardData = DashboardData(
    stats: Stats,
    upcomingLaunches: seq<UpcomingLaunch>,
    recentNews: seq<NewsItem>,
    featuredRockets: seq<FeaturedRocket>,
    featuredSatellites: seq<FeaturedSatellite>)

  const CardLimit := 6

  /** One upcoming-launch card: the launch and the countdown shown on it. */
  datatype UpcomingCard = UpcomingCard(launch: UpcomingLaunch, countdown: Countdown)

  /** `upcoming_launches.slice(0, 6)`, each with `formatCountdown` of its seconds. */
  function UpcomingCards(data: DashboardData): (r: seq<UpcomingCard>)
    ensures |r| == Min(CardLimit, |data.upcomingLaunches|)
    ensures forall i :: 0 <= i < |r| ==>
      && r[i].launch == data.upcomingLaunches[i]
      && r[i].countdown == FormatCountdown(data.upcomingLaunches[i].countdownSeconds)
  {
    TakeFirst(data.upcomingLaunches, CardLimit);
    var shown := JsSlice(data.upcomingLaunches, 0, CardLimit);
    seq(|shown|, i requires 0 <= i < |shown| => UpcomingCard(shown[i], FormatCountdown(shown[i].countdownSeconds)))
  }

  /** `recent_news.slice(0, 6)`: the first six news items, in the order sent. */
  function NewsCards(data: DashboardData): (r: seq<NewsItem>)
    ensures |r| == Min(CardLimit, |data.recentNews|)
    ensures r == data.recentNews[..|r|]
  {
    TakeFirst(data.recentNews, CardLimit);
    JsSlice(data.recentNews, 0, CardLimit)
  }

  /**
   * A launch is missing from the cards only because six earlier ones were
   * shown: with fewer than seven launches every one gets a card.
   */
  lemma AllUpcomingShownWhenFew(data: DashboardData)
    requires |data.upcomingLaunches| <= CardLimit
    ensures forall l :: l in data.upcomingLaunches ==>
      exists i :: 0 <= i < |UpcomingCards(data)| && UpcomingCards(data)[i].launch == l
  {
    var cards := UpcomingCards(data);
    forall l | l in data.upcomingLaunches
      ensures exists i :: 0 <= i < |cards| && cards[i].launch == l
    {
      var i :| 0 <= i < |data.upcomingLaunches| && data.upcomingLaunches[i] == l;
      assert cards[i].launch == l;
    }
  }

  /** A card's countdown decomposes the launch's remaining seconds as on the launches page. */
  lemma CardCountdownDecomposes(data: DashboardData, i: nat)
    requires i < |UpcomingCards(data)|
    requires data.upcomingLaunches[i].countdownSeconds >= 0
    ensures var c := UpcomingCards(data)[i].countdown;
      var seconds := data.upcomingLaunches[i].countdownSeconds;
      && 0 <= c.hours < 24 && 0 <= c.minutes < 60
      && c.days * 86400 + c.hours * 3600 + c.minutes * 60 <= seconds
      && seconds < c.days * 86400 + c.hours * 3600 + c.minutes * 60 + 60
  {
    CountdownDecomposes(data.upcomingLaunches[i].countdownSeconds);
  }
}
