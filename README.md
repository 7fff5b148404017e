# Space Explorer front end: a Dafny model of its data derivation

The Space Explorer front end is a Next.js application. It shows rockets, satellites, launches, organizations, news, space missions and an analytics dashboard. Each page fetches JSON from a backend and then derives what it renders, in the browser:

- the case-insensitive search-and-select filters of the list pages;
- the "distinct values in order of first occurrence" option lists for those selects;
- client-side pagination of the rockets list;
- the query string and Prev/Next controls of the server-paginated launches list;
- the days/hours/minutes countdown and the "time ago" labels;
- the mission cost estimator;
- the rule deciding which navigation link is highlighted.

This project models that derivation in Dafny and proves what each page promises about it.

Module layout, one module per source file plus shared helpers:

- `Wrappers`: `Option`.
- `Text`: ASCII lower-casing, prefix and substring tests, and decimal rendering of integers.
- `Seqs`: a generic `filter` that keeps order, subsequences, counting, `find`, `map`, JavaScript `slice`, and `[...new Set(xs)]`.
- `Ints`: `Math.min` and `Math.max`.
- `Records`: the `{id, name}` organization reference that the records share.
- `Countdown`: `formatCountdown`. The launches page and the dashboard both have it.
- `Rockets`, `Launches`, `Analytics`, `News`, `Satellites`, `Organizations`, `Missions`, `Home`, `Navigation`: the pages and the navigation bar.

Pure derivations are functions. The state a page updates through React setters lives in classes:

- `Rockets.RocketsPage`, `Launches.LaunchesPage` and `Analytics.AnalyticsPage` hold a page's state, with one method per handler or effect.
- `Navigation.MobileMenu` holds the mobile menu's open flag.

In a class, a `useEffect` that depends on a value is modelled as running only when that value actually changes. `Launches.LaunchesPage.requests` records the query of every fetch the page starts, in order.

Behaviour of the code worth noting:

- **Launch card.** What a launch card shows is decided by `is_upcoming`, not by the sign of `countdown_seconds`. An upcoming launch with a negative countdown still shows a (negative) countdown.
- **Launches filters.** Changing the status or type filter on the launches page starts a new request for the same page. It does not go back to page 1. Only the search button resets the page.
- **Search button.** The search button calls `fetchLaunches` directly after `setCurrentPage(1)`. That call still sees the old page, so when the page was not 1, two requests go out: one for the old page, then one for page 1.
- **Empty rockets list.** With no rockets, the range text reads "Showing 1-0 of 0".
- **Zero cost.** A computed cost of exactly 0 is stored, but the result box is guarded by `estimatedCost &&`. For 0 that expression is the number 0 itself, so React prints a bare "0" where the box would be.

## Model

| member | source | states |
|---|---|---|
| Text.IncludesIff | src/app/rockets/page.tsx:51-52 | `includes` holds exactly when the needle occurs at some position of the haystack |
| Text.LowerIdempotent | src/app/rockets/page.tsx:51 | lower-casing twice is lower-casing once, so a lower-cased search term searches the same way |
| Text.DigitsValueOfNatToString | src/app/analytics/page.tsx:644 | reading back the decimal rendering of an id gives the id, so an option's value names its id |
| Seqs.Filter | src/app/rockets/page.tsx:50-57 | `Array.filter` gives a subsequence of the list: every kept element passes the predicate and comes from the list, and every passing element is kept |
| Seqs.FilterMultiplicity | src/app/rockets/page.tsx:50-57 | `Array.filter` keeps each passing element as many times as it occurs and drops every other one |
| Seqs.FilterIdempotent | src/app/news/page.tsx:39-47 | filtering a filtered list by the same predicate changes nothing |
| Seqs.FilterStronger | src/app/satellites/page.tsx:52-56 | filtering by a stronger predicate is filtering the weaker result again, and gives a subsequence of it |
| Seqs.Count | src/app/missions/page.tsx:140-142 | `filter(...).length` is never more than the length of the list |
| Seqs.CountDisjoint | src/app/missions/page.tsx:140-142 | the counts of two predicates no element meets together add up to the count of their disjunction and to at most the length |
| Seqs.FindFirst | src/app/analytics/page.tsx:256-257 | `find` is absent exactly when no element matches, and otherwise is the first match |
| Seqs.JsSlice | src/app/rockets/page.tsx:63 | `slice` clamps both bounds into the list, counts negative bounds from the end, and is empty when they cross |
| Seqs.TakeFirst | src/app/page.tsx:255 | `slice(0, k)` is the first min(k, n) elements |
| Seqs.Preview | src/app/launches/page.tsx:306-315 | a "first k and +n more" list shows a prefix of at most k elements and a count exactly covering the rest, present only when something is left out |
| Seqs.DistinctSpec | src/app/rockets/page.tsx:70 | `[...new Set(xs)]` has no duplicates, holds exactly the values of `xs`, and keeps their first-occurrence order |
| Seqs.DistinctValues | src/app/rockets/page.tsx:70-71 | the distinct values of a field: duplicate-free, exactly the values that occur, in first-occurrence order |
| Seqs.DistinctExamples | src/app/rockets/page.tsx:70 | [1,2,1,3,2] gives [1,2,3] and the empty list gives the empty list |
| Countdown.JsRem | src/app/launches/page.tsx:88-89 | the truncating `%`: equal to the mathematical remainder for non-negative operands, never positive for negative ones, and always differing from the dividend by a whole multiple of the divisor, which fixes its value |
| Countdown.FloorDiv | src/app/launches/page.tsx:87 | `Math.floor(a / b)` is the quotient q with q·b ≤ a < q·b + b |
| Countdown.RemainderOfHours | src/app/launches/page.tsx:89 | the remainder by an hour ignores whole hours |
| Countdown.CountdownDecomposes | src/app/launches/page.tsx:86-91 | for seconds ≥ 0: hours in [0, 24), minutes in [0, 60), and the shown days, hours and minutes fall less than a minute short of the seconds |
| Countdown.CountdownRemainder | src/app/page.tsx:84-89 | for seconds ≥ 0 the shown days, hours and minutes plus the seconds remainder in [0, 60) add up exactly to the seconds |
| Countdown.CountdownExample | src/app/page.tsx:84-89 | 90061 seconds is 1 day, 1 hour and 1 minute, and 0 is all zeros |
| Countdown.CountdownOfNegative | src/app/launches/page.tsx:86-91 | negative seconds give negative parts (−1 s is −1 day, −1 hour, −1 minute) |
| Rockets.FilteredRockets | src/app/rockets/page.tsx:50-57 | the filtered list is a subsequence of the rockets, each kept rocket matches the case-insensitive search on name or organization name and every set select, and every matching rocket is kept as many times as it occurs |
| Rockets.NoFiltersKeepAll | src/app/rockets/page.tsx:51-54 | with no search term and empty selects every rocket is listed, in order |
| Rockets.FilterRocketsIdempotent | src/app/rockets/page.tsx:50-57 | filtering the filtered list again changes nothing |
| Rockets.TotalPages | src/app/rockets/page.tsx:60 | the page count is the ceiling of n / 9 |
| Rockets.CurrentPageIsSlice | src/app/rockets/page.tsx:61-63 | page p is exactly filtered[(p−1)·9 .. min(p·9, n)]: at most 9 rockets, exactly 9 before the last page, non-empty up to the last page, empty past it |
| Rockets.PagesFromIsSuffix | src/app/rockets/page.tsx:61-63 | the pages from p onwards are the filtered list from index (p−1)·9 onwards |
| Rockets.PagesPartition | src/app/rockets/page.tsx:60-63 | pages 1 to totalPages, concatenated, are the filtered list with nothing repeated or missed |
| Rockets.ShowingRange | src/app/rockets/page.tsx:151 | on every existing page the range text shows exactly (p−1)·9 + 1 to min(p·9, n), within 1..n and at most 9 wide; "1-0" for an empty list |
| Rockets.ShowingRangeCountsPage | src/app/rockets/page.tsx:151 | on an existing page the range's width is the number of rockets shown, and its 1-based endpoints name exactly their positions: the shown page is filtered[a−1 .. b] |
| Rockets.OrganizationOptions | src/app/rockets/page.tsx:70 | the organization names, duplicate-free, exactly those that occur, in the order of their first occurrence in the rockets |
| Rockets.StatusOptions | src/app/rockets/page.tsx:71 | the statuses, duplicate-free, exactly those that occur, in the order of their first occurrence in the rockets |
| Rockets.RocketsPage.constructor | src/app/rockets/page.tsx:29-35 | no rockets, empty filters, page 1 |
| Rockets.RocketsPage.Load | src/app/rockets/page.tsx:41 | the fetched rockets replace the list |
| Rockets.RocketsPage.SetSearchTerm | src/app/rockets/page.tsx:66-68 | the term is stored; the page goes back to 1 exactly when the term changed |
| Rockets.RocketsPage.SetOrganization | src/app/rockets/page.tsx:66-68 | the organization is stored; the page goes back to 1 exactly when it changed |
| Rockets.RocketsPage.SetStatus | src/app/rockets/page.tsx:66-68 | the status is stored; the page goes back to 1 exactly when it changed |
| Rockets.RocketsPage.SetPage | src/app/rockets/page.tsx:243 | the page given by the pagination control is stored |
| Rockets.ChangeFilterShowsFirstPage | src/app/rockets/page.tsx:63-68 | after a change to the search term, the organization select or the status select (any of them), the filters hold the new values, page 1 is open and the first nine filtered rockets are shown |
| Launches.GetConcat | src/app/launches/page.tsx:61-69 | looking up a key in appended parameters finds it in the first part if it is there, otherwise in the second |
| Launches.LaunchQuery | src/app/launches/page.tsx:61-69 | `page` and `per_page`=12 come first; `search` only for a non-empty term; `status` only when not "all"; `type` only for "upcoming" or "past"; no key twice |
| Launches.StatusColor | src/app/launches/page.tsx:103-116 | scheduled, completed, failed and delayed (any case) get their colours, every other status gray |
| Launches.StatusColorIgnoresCase | src/app/launches/page.tsx:104 | the colour depends only on the lower-cased status |
| Launches.StatusColorExamples | src/app/launches/page.tsx:104-106 | "Scheduled" gets the scheduled colour |
| Launches.UnknownStatusIsGray | src/app/launches/page.tsx:113-114 | the colour is gray exactly when the lower-cased status is none of the four known ones; "unknown" is gray |
| Launches.PayloadPreview | src/app/launches/page.tsx:306-315 | a launch card lists the first min(2, n) satellites, and a "+n − 2 more" line exactly when there are more than two |
| Launches.LaunchPanel | src/app/launches/page.tsx:255-289 | a card shows the countdown exactly when `is_upcoming`, else the outcome, captioned "Unknown" when empty, and green exactly for "success" |
| Launches.NegativeCountdownStillShown | src/app/launches/page.tsx:255 | every upcoming launch with a negative countdown still shows a countdown panel, with negative days; −1 s shows (−1, −1, −1) |
| Launches.PreviousPage | src/app/launches/page.tsx:340 | Previous goes to max(1, p − 1) |
| Launches.NextPage | src/app/launches/page.tsx:352 | Next goes to min(total, p + 1) |
| Launches.PagingStaysInRange | src/app/launches/page.tsx:340-353 | from a page in [1, total], Previous and Next stay in [1, total] |
| Launches.DisabledExactlyAtTheEnds | src/app/launches/page.tsx:341-353 | Previous is disabled exactly on page 1 and Next exactly on the last page |
| Launches.LaunchesPage.constructor | src/app/launches/page.tsx:47-56 | mounting starts one request, for page 1 with no filters |
| Launches.LaunchesPage.FetchLaunches | src/app/launches/page.tsx:58-69 | the parameters built by successive appends are exactly the query of the current page and filters |
| Launches.LaunchesPage.Receive | src/app/launches/page.tsx:73 | a response replaces the data |
| Launches.LaunchesPage.SetSearchTerm | src/app/launches/page.tsx:54-56 | typing stores the term and starts no request |
| Launches.LaunchesPage.SetStatusFilter | src/app/launches/page.tsx:54-56 | a changed status starts a request for the same page, and an unchanged one starts none |
| Launches.LaunchesPage.SetTypeFilter | src/app/launches/page.tsx:54-56 | a changed type starts a request for the same page, and an unchanged one starts none |
| Launches.LaunchesPage.HandleSearch | src/app/launches/page.tsx:81-84 | the page becomes 1; a request for the old page goes out, followed by one for page 1 when the page was not 1 |
| Launches.LaunchesPage.Previous | src/app/launches/page.tsx:338-343 | the page becomes max(1, p − 1), stays within the page count, and a request goes out exactly when it changed |
| Launches.LaunchesPage.Next | src/app/launches/page.tsx:350-355 | the page becomes min(total, p + 1) unless already last, and a request goes out exactly when it changed |
| Analytics.MissionCost | src/app/analytics/page.tsx:261-269 | subtotal = payload·rocket rate + mass·satellite rate + mass·launch services; total = subtotal·(1 + insurance + contingency) = subtotal + insurance cost + contingency cost |
| Analytics.CostNonNegative | src/app/analytics/page.tsx:261-269 | with non-negative inputs, total ≥ subtotal ≥ 0 |
| Analytics.CostExample | src/app/analytics/page.tsx:261-269 | a worked case of the formula gives 3680 |
| Analytics.Estimate | src/app/analytics/page.tsx:253-270 | no estimate without data, without both selections, or when an id is not listed; otherwise the total for the first rocket and first satellite with those ids |
| Analytics.EstimateFound | src/app/analytics/page.tsx:256-270 | when both ids are listed an estimate is produced |
| Analytics.SelectionOf | src/app/analytics/page.tsx:644 | `Number(v) \|\| null`: the placeholder "" is no selection, and any selection is a positive id |
| Analytics.SelectionOfRenderedId | src/app/analytics/page.tsx:642-662 | choosing the option of id k selects k, except that id 0 selects nothing |
| Analytics.AnalyticsPage.constructor | src/app/analytics/page.tsx:176-189 | no data, no selections, no estimate, the overview tab |
| Analytics.AnalyticsPage.Load | src/app/analytics/page.tsx:237 | the estimator data is stored |
| Analytics.AnalyticsPage.SelectRocket | src/app/analytics/page.tsx:644 | the rocket selection becomes `Number(v) \|\| null` |
| Analytics.AnalyticsPage.SelectSatellite | src/app/analytics/page.tsx:662 | the satellite selection becomes `Number(v) \|\| null` |
| Analytics.AnalyticsPage.CalculateMissionCost | src/app/analytics/page.tsx:253-271 | the stored estimate becomes the computed total when there is one, and is otherwise left as it was |
| Analytics.AnalyticsPage.SetActiveTab | src/app/analytics/page.tsx:324 | the tapped tab becomes active |
| Analytics.CalculateEnabledIffBothSelected | src/app/analytics/page.tsx:644-676 | the Calculate button is enabled exactly when both selects hold an entry |
| Analytics.EnabledButtonEstimates | src/app/analytics/page.tsx:253-276 | pressing the enabled button with both selections listed produces an estimate |
| Analytics.CostAreaOf | src/app/analytics/page.tsx:682-695 | no estimate renders nothing, an estimate of 0 renders a bare "0", and any other estimate renders the result box with that cost |
| Analytics.PositiveCostShowsBox | src/app/analytics/page.tsx:261-270 | a rocket with positive payload capacity at a positive rate, with no negative input, always gets the result box |
| Analytics.EmptyMissionShowsBareZero | src/app/analytics/page.tsx:261-270 | a zero payload capacity and a zero satellite mass give a cost of 0, shown as a bare "0" |
| Analytics.SuccessRateColor | src/app/analytics/page.tsx:827-828 | green from 80, yellow from 60 below 80, red below 60 |
| Analytics.SuccessRateColorMonotone | src/app/analytics/page.tsx:827-828 | a higher success rate never gets a worse colour |
| Analytics.SectionClass | src/app/analytics/page.tsx:338 | a section is `block` exactly when its tab is active or the window is at least 1024 wide, otherwise `hidden lg:block` |
| Analytics.SectionVisibility | src/app/analytics/page.tsx:338-1024 | on a narrow window exactly the active section is shown; on a wide one every section is |
| Analytics.StatusColor | src/app/analytics/page.tsx:275-282 | completed, ongoing and planned get their colours, every other status gray |
| News.FilteredNews | src/app/news/page.tsx:39-47 | a subsequence of the articles whose title, summary or source contains the term ignoring case, restricted to the set category and source, keeping every match as many times as it occurs |
| News.FilterNewsIdempotent | src/app/news/page.tsx:39-47 | filtering the filtered list again changes nothing |
| News.NoFiltersKeepAll | src/app/news/page.tsx:40-46 | with no filters every article is listed |
| News.SearchByTitleFinds | src/app/news/page.tsx:40 | searching an article's title in any case finds it |
| News.CategoryOptions | src/app/news/page.tsx:49 | the categories, duplicate-free and exactly those that occur, in first-occurrence order |
| News.SourceOptions | src/app/news/page.tsx:50 | the sources, duplicate-free and exactly those that occur, in first-occurrence order |
| News.TimeAgo | src/app/news/page.tsx:52-61 | the label is never empty |
| News.JustNowIff | src/app/news/page.tsx:57 | "Just now" exactly under a minute, including future dates |
| News.MinutesBucket | src/app/news/page.tsx:58 | under an hour the label is ⌊d/60⌋ "m ago" with the number in [1, 60) |
| News.HoursBucket | src/app/news/page.tsx:59 | under a day the label is ⌊d/3600⌋ "h ago" with the number in [1, 24) |
| News.DaysBucket | src/app/news/page.tsx:60 | from a day on the label is ⌊d/86400⌋ "d ago" with the number at least 1 |
| News.SameLabelSameBucket | src/app/news/page.tsx:58 | two ages under an hour share a label exactly when they have the same whole minutes |
| News.TimeAgoExamples | src/app/news/page.tsx:57-60 | 30 s, 5 min, 3 h, 2 days and −5 s get "Just now", "5m ago", "3h ago", "2d ago", "Just now" |
| Satellites.FilteredSatellites | src/app/satellites/page.tsx:48-57 | a subsequence of the satellites matching the search on name, organization or purpose and every set select, keeping every match as many times as it occurs |
| Satellites.NoFiltersKeepAll | src/app/satellites/page.tsx:49-56 | with no filters every satellite is listed |
| Satellites.ChoosingOrbitTypeNarrows | src/app/satellites/page.tsx:53-56 | choosing an orbit type drops exactly the other orbit types from the previous list, and yields a subsequence of it |
| Satellites.FilterSatellitesIdempotent | src/app/satellites/page.tsx:48-57 | filtering the filtered list again changes nothing |
| Satellites.OrganizationOptions | src/app/satellites/page.tsx:59 | the organization names, duplicate-free and exactly those that occur, in first-occurrence order |
| Satellites.OrbitTypeOptions | src/app/satellites/page.tsx:60 | the orbit types, duplicate-free and exactly those that occur, in first-occurrence order |
| Satellites.StatusOptions | src/app/satellites/page.tsx:61 | the statuses, duplicate-free and exactly those that occur, in first-occurrence order |
| Organizations.FilteredOrganizations | src/app/organizations/page.tsx:41-48 | a subsequence of the organizations matching the search on name or country and the set selects, keeping every match as many times as it occurs |
| Organizations.NoFiltersKeepAll | src/app/organizations/page.tsx:42-47 | with no filters every organization is listed |
| Organizations.FilterOrganizationsIdempotent | src/app/organizations/page.tsx:41-48 | filtering the filtered list again changes nothing |
| Organizations.SearchIgnoresCase | src/app/organizations/page.tsx:42-43 | a term and its lower-case form list the same organizations |
| Organizations.CountryOptions | src/app/organizations/page.tsx:50 | the countries, duplicate-free and exactly those that occur, in first-occurrence order |
| Organizations.KindOptions | src/app/organizations/page.tsx:51 | the types, duplicate-free and exactly those that occur, in first-occurrence order |
| Missions.FilteredMissions | src/app/missions/page.tsx:86-89 | "all" gives every mission; any other key gives, in order, exactly the missions with that status, each as many times as it occurs |
| Missions.FilterByUnknownStatusIsEmpty | src/app/missions/page.tsx:88 | a key no mission has as status shows no card |
| Missions.FilterButtons | src/app/missions/page.tsx:138-155 | four buttons all, ongoing, planned, completed; "all" counts every mission; a button is highlighted exactly when its key is the filter |
| Missions.ButtonCountIsShownCount | src/app/missions/page.tsx:139-142 | each button's count is the number of cards shown after pressing it |
| Missions.AtMostOneButtonActive | src/app/missions/page.tsx:147-149 | at most one button is highlighted |
| Missions.StatusCountsWithinTotal | src/app/missions/page.tsx:139-142 | ongoing + planned + completed never exceeds "All Missions" |
| Missions.StatusColor | src/app/missions/page.tsx:56-69 | ongoing, planned, completed, cancelled get their colours (case-sensitive); exactly the rest are gray |
| Missions.StatusIcon | src/app/missions/page.tsx:71-84 | ongoing, completed, cancelled get their icons; planned and every unknown status get the clock |
| Missions.ClockIsAmbiguous | src/app/missions/page.tsx:75-83 | a planned mission and an unknown status share the icon but not the colour |
| Missions.ObjectivesPreview | src/app/missions/page.tsx:218-230 | a card lists the first min(3, n) objectives as held, and a "+n − 3 more" line exactly when there are more than three |
| Missions.MilestonesPreview | src/app/missions/page.tsx:243-256 | a card lists the first min(3, n) milestones as held, and a "+n − 3 more" line exactly when there are more than three |
| Home.UpcomingCards | src/app/page.tsx:255-256 | the first min(6, n) upcoming launches, in order, each with the countdown of its seconds |
| Home.NewsCards | src/app/page.tsx:377 | the first min(6, n) news items, in order |
| Home.AllUpcomingShownWhenFew | src/app/page.tsx:255 | with at most six upcoming launches, each one gets a card |
| Home.CardCountdownDecomposes | src/app/page.tsx:84-89 | a card's countdown for seconds ≥ 0 has hours in [0, 24), minutes in [0, 60) and falls less than a minute short of the seconds |
| Navigation.RootActiveIff | src/components/Navigation.tsx:32-34 | the home link is highlighted exactly on "/" |
| Navigation.OtherActiveIff | src/components/Navigation.tsx:35 | any other link is highlighted exactly when its href is a prefix of the path |
| Navigation.PrefixWithoutBoundary | src/components/Navigation.tsx:35 | "/rocketsX" and "/rockets/12" highlight "/rockets"; on "/" none of the five non-root links is highlighted |
| Navigation.HrefsDifferAfterSlash | src/components/Navigation.tsx:22-29 | the six hrefs start with "/", only the home href is "/", and the others differ in their second character |
| Navigation.AtMostOneActive | src/components/Navigation.tsx:22-36 | whatever the path, at most one link is highlighted |
| Navigation.MobileMenu.constructor | src/components/Navigation.tsx:19 | the menu starts closed |
| Navigation.MobileMenu.Toggle | src/components/Navigation.tsx:75 | the menu button flips the open flag |
| Navigation.MobileMenu.Close | src/components/Navigation.tsx:99 | choosing a link closes the menu |
| Navigation.ToggleTwiceRestores | src/components/Navigation.tsx:75 | pressing the menu button twice leaves the menu as it was |

## Left out

- Network and asynchrony: every `fetch`, JSON decoding, `|| []` fallbacks on absent fields, `Promise.all` and the order in which responses arrive. Responses are parameters of `Load` and `Receive`, and a stale response overwriting a newer one is not modelled.
- Loading and error flags, and everything rendered while loading.
- Case folding: `toLowerCase` is modelled on ASCII letters only, with no Unicode case mapping.
- Floating point: costs, masses and success rates are exact `real`s. No claim is made about double rounding. The countdown and the time-ago tiers take whole seconds.
- Date handling: `new Date`, `Date.now()` and the locale formatting of dates. `News.TimeAgo` takes the whole number of elapsed seconds.
- Analytics.SelectionOf: reads option values as decimal digit strings, the only values the selects render. Other `Number` syntax (signs, spaces, exponents) is not modelled.
- Launches.LaunchQuery: gives the parameter list, not its URL-encoded string.
- Pagination component: the rockets page's pagination component is not part of this model. `Rockets.RocketsPage.SetPage` stores whatever page it is given.
- Rockets.RocketsPage.SetSearchTerm: the single render with the old page between the filter change and the reset effect is not modelled. The reset is applied with the change.
- Rendering: JSX, framer-motion animations, the recharts charts, badge and gradient classes other than the colour rules above, the star field on the home page, and the hard-coded chart constants of the analytics page.
- Rocket3D, the layout and the tailwind configuration have no data logic.
- The detail pages under `[id]` are not part of this model.
- Missions.StatusIcon: the icons are the four constructors of `Icon`, not rendered components.
