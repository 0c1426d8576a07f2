# AdSense calculator site: a verified model of its logic

AdsenseCalculator.online is a marketing site built with Next.js. Nearly all
of it is static markup, but a few React components hold real logic. This
project models that logic in Dafny and proves what the components promise.
The components modelled are:

- **Advanced calculator.** The `results` estimator with its niche and
  geography CPC multipliers and its `|| default` input normalisation. Also
  the revenue pie split and the "keep the last five" saved list, stored
  under `adsense-calculations`.
- **Basic calculator.** The guarded estimator, which reports eCPM equal to
  RPM.
- **Quick calculator.** The unguarded monthly estimate behind the
  Calculate button.
- **Saved-calculations panel.** Delete-by-id and the case-insensitive
  search. The list is stored under `adsense-saved-calculations`.
- **Personalization dashboard.**
  - Partial profile and preference updates.
  - Goal toggling.
  - The traffic tier and its recommendation blocks.
  - The profile is stored under `adsense-calculator-profile`.
- **Dynamic content feed.**
  - The feed generated from the user's niche and goals, sorted newest
    first.
  - Bookmarks, stored under `adsense-calculator-bookmarks`.
  - The tab filter.
- **Breadcrumb.**
  - Path segments, cumulative hrefs and title-cased labels.
  - Hidden on the home page.
  - Its BreadcrumbList schema.
- **Sitemap.** Each page expands into an English entry and a Spanish
  entry, and the two point at each other.
- **JSON-LD builders.** The FAQ page, breadcrumb list, article, web page,
  how-to and item-list schemas. Each has a reader that recovers its input.
- **Dashboard overview.**
  - Metrics taken from the latest saved calculation.
  - The length and labels of the chart series for each period.
  - The K/M abbreviation of page views.
- **Goals tracker.**
  - Progress, the capped progress bar and the completion badge.
  - Unit formatting.

## How the model is built

**JavaScript values**
- Numbers are Dafny `real`s.
- A parse that can fail yields `JsValues.Number`, which is a real or `NaN`.
- `x || d` is `JsValues.OrElse`.
- Every comparison with NaN is false, as in JavaScript.
- An optional string counts as present only when it is supplied and
  non-empty. This is the `v && {...}` conditional spread.

**Component state**
- Each component whose state changes is a class. React state becomes its
  fields.
- Local storage becomes an `Option` field named `stored`.
- Each handler becomes a method whose `ensures` give the new state in terms
  of the old one.
- Pure computations (memos, schema builders, formatters) are functions.
  Lemmas state their properties.

**Outside inputs**
- The clock (`Date.now()`, `new Date()`) becomes a method parameter.
- Stored data arrives already parsed.

**JSON-LD**
- JSON values are a `Json` datatype whose objects are maps.
- Each builder is paired with a reader, and a lemma proves that reading the
  built value gives back the input.

**Fallbacks and guards in the code:**
- A fill rate of 0 falls back to 85% (`fillRate[0] / 100 || 0.85`), and an
  ad density of 0 falls back to 1 (`adDensity[0] || 1`). The sliders start
  at 50 and 1, so these fallbacks cannot be reached from the page. The model
  keeps them because the code has them.
- RPM and eCPM are divisions with no zero guard of their own. The early
  return makes views positive, so the impressions they divide by are never
  zero.
- The calculators return null, not zero figures, for non-positive input.

## Model

| member | source | states |
|---|---|---|
| AdvancedCalculator.TablesPositive | src/components/advanced-adsense-calculator.tsx:73-95 | every niche and geography multiplier is positive |
| AdvancedCalculator.Multiplier | src/components/advanced-adsense-calculator.tsx:153-154 | an unknown niche or geography key gives multiplier 1; a known key gives its table entry |
| AdvancedCalculator.Normalize | src/components/advanced-adsense-calculator.tsx:150-156 | unparseable or zero views become 0, ctr is divided by 100, density 0 becomes 1, fill 0 becomes 0.85 (otherwise fill/100), and both multipliers are positive |
| AdvancedCalculator.Results | src/components/advanced-adsense-calculator.tsx:149-186 | null exactly when the normalised inputs are insufficient, otherwise the estimate of the normalised inputs |
| AdvancedCalculator.Estimate | src/components/advanced-adsense-calculator.tsx:162-185 | impressions = views·density·fill, daily earnings = impressions·rate·adjusted CPC, ×30 and ×365 projections of earnings and clicks, rpm and ecpm in closed form, reported fill = fill·100 |
| AdvancedCalculator.EstimateRatios | src/components/advanced-adsense-calculator.tsx:158-172 | rpm is daily earnings per thousand views and ecpm per thousand impressions, and impressions are never zero, so neither division is by zero |
| AdvancedCalculator.NullIffInsufficient | src/components/advanced-adsense-calculator.tsx:150-160 | null exactly when parsed views ≤ 0 (or unparseable), ctr ≤ 0 or cpc ≤ 0; unparseable views always give null |
| AdvancedCalculator.AdjustedCpcPositive | src/components/advanced-adsense-calculator.tsx:153-165 | whenever a result exists the adjusted CPC is positive, and with non-negative sliders so are the daily earnings |
| AdvancedCalculator.ZeroFillReportsEightyFive | src/components/advanced-adsense-calculator.tsx:156-184 | on the code path, a fill value of 0 takes the 0.85 fallback and an 85% fill rate is reported; the slider (minimum 50) never produces 0 |
| AdvancedCalculator.PieData | src/components/advanced-adsense-calculator.tsx:200-207 | empty exactly when there is no result; otherwise three slices of 70%, 20% and 10% of daily earnings that sum to it |
| AdvancedCalculator.Prepend | src/components/advanced-adsense-calculator.tsx:259 | the new record first, then the old records in order, with length min(old+1, 5) |
| AdvancedCalculator.PrependBounded | src/components/advanced-adsense-calculator.tsx:259 | the saved list never exceeds five and its tail is a prefix of the old list |
| AdvancedCalculator.PrependEvictsOldest | src/components/advanced-adsense-calculator.tsx:259 | saving into a full list drops exactly the oldest record; with distinct records and a new one, the oldest is no longer in the list |
| AdvancedCalculator.Calculator.constructor | src/components/advanced-adsense-calculator.tsx:126-136 | the default inputs (10000 views, 2.5% ctr, $0.75, general, us, density 3, fill 85) and an empty list |
| AdvancedCalculator.Calculator.Load | src/components/advanced-adsense-calculator.tsx:138-147 | a stored list replaces the in-memory one; otherwise it is unchanged |
| AdvancedCalculator.Calculator.SetInputs | src/components/advanced-adsense-calculator.tsx:126-132 | editing changes the inputs only |
| AdvancedCalculator.Calculator.SaveCalculation | src/components/advanced-adsense-calculator.tsx:247-263 | with a result, the list becomes the bounded prepend of the new record and storage holds the same list; without one, nothing changes |
| AdvancedCalculator.DefaultEstimate | src/components/advanced-adsense-calculator.tsx:126-132 | the default inputs give 25500 impressions and $478.125 a day |
| BasicCalculator.ClickRate | src/components/adsense-calculator.tsx:31 | unparseable ctr gives 0, otherwise ctr/100 |
| BasicCalculator.Results | src/components/adsense-calculator.tsx:29-58 | null exactly when views, rate or cpc is not positive, otherwise the estimate |
| BasicCalculator.Estimate | src/components/adsense-calculator.tsx:38-46 | clicks = views·rate, earnings = clicks·cpc, ×30 and ×365 projections, rpm = rate·cpc·1000 and ecpm = rpm |
| BasicCalculator.NullIffInsufficient | src/components/adsense-calculator.tsx:30-36 | null exactly when some parsed input is ≤ 0 or unparseable |
| BasicCalculator.RpmIndependentOfViews | src/components/adsense-calculator.tsx:45-46 | rpm (and ecpm, equal to it) does not depend on the page views |
| BasicCalculator.EarningsIncreaseWithViews | src/components/adsense-calculator.tsx:38-39 | with ctr and cpc fixed, more views earn strictly more |
| BasicCalculator.MatchesAdvancedWhenNeutral | src/components/adsense-calculator.tsx:29-58 | the basic estimator equals the advanced one with niche general, geography us, density 1 and fill 100%, field by field, including when both are null |
| BasicCalculator.ExampleEstimate | src/components/adsense-calculator.tsx:38-45 | 10000 views at 2.5% and $0.75 give 250 clicks, $187.50 a day, $5625 a month, rpm 18.75 |
| QuickCalculator.MonthlyEstimate | src/components/quick-calculator.tsx:17-23 | a zero or unparseable input gives 0 and never null |
| QuickCalculator.AgreesWithBasic | src/components/quick-calculator.tsx:17-23 | whenever the basic calculator has a result, the quick estimate equals its monthly earnings |
| QuickCalculator.ZeroWhereBasicIsNull | src/components/quick-calculator.tsx:17-25 | an unparseable field makes the basic calculator null but the quick one 0 |
| QuickCalculator.Quick.constructor | src/components/quick-calculator.tsx:11-14 | default fields and no result |
| QuickCalculator.Quick.SetPageViews | src/components/quick-calculator.tsx:11 | editing a field changes only that field; the result is untouched |
| QuickCalculator.Quick.SetCtr | src/components/quick-calculator.tsx:12 | editing a field changes only that field; the result is untouched |
| QuickCalculator.Quick.SetCpc | src/components/quick-calculator.tsx:13 | editing a field changes only that field; the result is untouched |
| QuickCalculator.Quick.Calculate | src/components/quick-calculator.tsx:16-26 | the result becomes the monthly estimate of the current inputs, which are unchanged, so a second call changes nothing |
| SavedCalculations.DeleteKeepsOthersInOrder | src/components/saved-calculations.tsx:41-42 | delete drops exactly the records with the id and keeps the others in order |
| SavedCalculations.DeleteLength | src/components/saved-calculations.tsx:42 | the length shrinks by the number of records with the id |
| SavedCalculations.DeleteAbsent | src/components/saved-calculations.tsx:42 | deleting an absent id leaves the list unchanged |
| SavedCalculations.DeleteTwice | src/components/saved-calculations.tsx:42 | deleting twice equals deleting once |
| SavedCalculations.SearchIsOrderedFilter | src/components/saved-calculations.tsx:57-61 | a record is listed iff it is saved and its lower-cased niche or geography includes the lower-cased term, in saved order |
| SavedCalculations.EmptySearchListsAll | src/components/saved-calculations.tsx:57-61 | an empty search lists every record |
| SavedCalculations.SearchIgnoresCase | src/components/saved-calculations.tsx:59-60 | the search does not depend on the letter case of the term |
| SavedCalculations.Panel.constructor | src/components/saved-calculations.tsx:27-28 | an empty list and an empty search term |
| SavedCalculations.Panel.Load | src/components/saved-calculations.tsx:30-39 | a stored list replaces the in-memory one |
| SavedCalculations.Panel.SetSearchTerm | src/components/saved-calculations.tsx:28 | only the search term changes |
| SavedCalculations.Panel.DeleteCalculation | src/components/saved-calculations.tsx:41-45 | the list loses the records with the id and storage holds the new list |
| SavedCalculations.Panel.FilteredCalculations | src/components/saved-calculations.tsx:57-61 | the listing is an order-preserving filter by the search, and everything when the term is empty |
| Personalization.MergeProfileOverwritesSupplied | src/components/personalization-dashboard.tsx:71-72 | an update overwrites exactly the supplied fields |
| Personalization.MergeProfileIdentityAndIdempotent | src/components/personalization-dashboard.tsx:72 | an empty update changes nothing, and applying an update twice equals applying it once |
| Personalization.MergeProfileComposes | src/components/personalization-dashboard.tsx:72 | two updates in a row equal one update in which the later fields win |
| Personalization.MergePreferencesOverwritesSupplied | src/components/personalization-dashboard.tsx:78-82 | a preference update overwrites exactly the supplied preferences |
| Personalization.ToggledGoals | src/components/personalization-dashboard.tsx:88-89 | a present goal is removed (every copy) and the other goals keep their order and copies, the length dropping by the goal's count; an absent goal is appended at the end |
| Personalization.ToggleTwiceRestores | src/components/personalization-dashboard.tsx:88-90 | toggling an absent goal twice restores the list |
| Personalization.ToggleTwiceMovesToEnd | src/components/personalization-dashboard.tsx:88-90 | toggling a present goal twice moves one copy of it to the end |
| Personalization.Dashboard.constructor | src/components/personalization-dashboard.tsx:34-48 | the default profile |
| Personalization.Dashboard.Load | src/components/personalization-dashboard.tsx:52-64 | a stored profile replaces the default one |
| Personalization.Dashboard.SaveProfile | src/components/personalization-dashboard.tsx:66-69 | storage holds the current profile |
| Personalization.Dashboard.UpdateProfile | src/components/personalization-dashboard.tsx:71-76 | the profile becomes the merge and storage holds it |
| Personalization.Dashboard.UpdatePreferences | src/components/personalization-dashboard.tsx:78-86 | only the preferences change, to their merge, and storage holds the new profile |
| Personalization.Dashboard.ToggleGoal | src/components/personalization-dashboard.tsx:88-91 | only the goal list changes, to its toggle, and storage holds the new profile |
| Personalization.TrafficTier | src/components/personalization-dashboard.tsx:480-484 | high-traffic iff views > 1,000,000; medium-traffic iff > 100,000 but not above 1,000,000 |
| Personalization.OneRecommendationForNumbers | src/components/personalization-dashboard.tsx:488-502 | for a number, exactly one recommendation block shows, the one of its tier |
| Personalization.NoRecommendationForNaN | src/components/personalization-dashboard.tsx:480-502 | NaN views are named "growing" yet show no recommendation block |
| ContentFeed.Insert | src/components/dynamic-content-feed.tsx:178 | insertion adds exactly one item |
| ContentFeed.InsertPermutes | src/components/dynamic-content-feed.tsx:178 | insertion adds one copy of the item and loses nothing |
| ContentFeed.InsertSorted | src/components/dynamic-content-feed.tsx:178 | insertion into a newest-first list keeps it newest first |
| ContentFeed.InsertKeepsDistinct | src/components/dynamic-content-feed.tsx:178 | inserting an item with a new id keeps ids distinct and adds that id |
| ContentFeed.InsertNext | src/components/dynamic-content-feed.tsx:178 | one insertion step keeps the placed items newest first, a permutation of the items placed so far, and their ids distinct |
| ContentFeed.SortNewestFirst | src/components/dynamic-content-feed.tsx:178 | the result is newest first and a permutation of the input, keeping distinct ids and the id set |
| ContentFeed.BaseContentIds | src/components/dynamic-content-feed.tsx:46-113 | the five base items have the distinct ids 1–5 |
| ContentFeed.Collect | src/components/dynamic-content-feed.tsx:115-176 | the pushes keep the base items as a prefix |
| ContentFeed.PushWhenNew | src/components/dynamic-content-feed.tsx:116-131 | a conditional push of an item with a new id keeps ids distinct and adds exactly that id when it happens |
| ContentFeed.PushesIds | src/components/dynamic-content-feed.tsx:115-176 | four conditional pushes of new, pairwise different ids keep ids distinct and add the ids pushed |
| ContentFeed.PushesHas | src/components/dynamic-content-feed.tsx:115-176 | after the four pushes, a pushed item is present exactly when its condition held |
| ContentFeed.CollectIds | src/components/dynamic-content-feed.tsx:115-176 | the collected items have distinct ids, exactly the expected ones for the niche and goals |
| ContentFeed.CollectMembers | src/components/dynamic-content-feed.tsx:115-176 | item 6 is collected iff niche is finance, 7 iff technology, 8 iff the goals include "Increase RPM", 9 iff "Optimize CTR" |
| ContentFeed.GenerateContent | src/components/dynamic-content-feed.tsx:45-179 | the feed is newest first with distinct ids, holds the five base items, and holds each optional item exactly when its condition holds |
| ContentFeed.Toggle | src/components/dynamic-content-feed.tsx:190-196 | the item's bookmark flips and no other id changes |
| ContentFeed.ToggleTwiceRestores | src/components/dynamic-content-feed.tsx:190-196 | toggling twice restores the bookmarks |
| ContentFeed.TabContent | src/components/dynamic-content-feed.tsx:201-206 | an item is shown iff the tab admits it (all, trending, bookmarked, or its type), in feed order, and "all" shows the whole feed |
| ContentFeed.Feed.constructor | src/components/dynamic-content-feed.tsx:39-41 | an empty feed, the "all" tab and no bookmarks |
| ContentFeed.Feed.Refresh | src/components/dynamic-content-feed.tsx:181-188 | the feed is regenerated: newest first, distinct expected ids, all five base items, and each optional item exactly when its niche or goal condition holds; stored bookmarks are loaded |
| ContentFeed.Feed.SetActiveTab | src/components/dynamic-content-feed.tsx:40 | only the tab changes |
| ContentFeed.Feed.ToggleBookmark | src/components/dynamic-content-feed.tsx:190-199 | the bookmark set becomes its toggle and storage holds it |
| Breadcrumb.Segments | src/components/breadcrumb.tsx:17 | the segments are non-empty and contain no "/" |
| Breadcrumb.LabelWords | src/components/breadcrumb.tsx:23-26 | a label splits at its spaces back into the capitalized dash-separated words |
| Breadcrumb.LabelOfOneWord | src/components/breadcrumb.tsx:23-26 | a segment without dashes is labelled by capitalizing it |
| Breadcrumb.PathPrefixes | src/components/breadcrumb.tsx:20-22 | each crumb's href is the previous href followed by "/" and its segment |
| Breadcrumb.SegmentsOfPath | src/components/breadcrumb.tsx:17-22 | the segments of a cumulative href are the segments it was built from |
| Breadcrumb.GenerateBreadcrumbs | src/components/breadcrumb.tsx:16-31 | "Home" at "/" first, then one crumb per non-empty segment with its title-cased label and cumulative href |
| Breadcrumb.LastHrefIsCanonical | src/components/breadcrumb.tsx:17-22 | feeding the last href back in gives the same segments |
| Breadcrumb.SchemaListsCrumbs | src/components/breadcrumb.tsx:39-48 | the schema numbers the crumbs 1..n in order, each with its label and the origin followed by its href |
| Breadcrumb.Render | src/components/breadcrumb.tsx:33-48 | nothing is rendered iff the pathname is "/", otherwise the trail and its schema |
| Sitemap.Expand | src/app/sitemap.ts:20-48 | entry 2i is the English entry of page i and entry 2i+1 its Spanish entry, both with the page's frequency, priority, alternates and the shared time |
| Sitemap.Sitemap | src/app/sitemap.ts:3-51 | sixteen entries, all with the same modification time, every entry as above, all urls distinct |
| Sitemap.EntriesCrossReference | src/app/sitemap.ts:27-46 | the two entries of a page carry the same alternates, each naming the other's url and its own |
| Sitemap.UrlsDistinct | src/app/sitemap.ts:20-48 | pages with distinct paths, none under "/es", give distinct urls |
| Sitemap.SiteUrlsDistinct | src/app/sitemap.ts:6-15 | the site's sixteen urls are distinct |
| JsonLd.FaqPageSchema | src/components/json-ld-schema.tsx:85-96 | an FAQPage with one entity per FAQ |
| JsonLd.FaqPageRoundTrip | src/components/json-ld-schema.tsx:85-96 | every question and answer reads back in order |
| JsonLd.BreadcrumbSchema | src/components/json-ld-schema.tsx:114-123 | a BreadcrumbList with one item per link, numbered from 1 |
| JsonLd.BreadcrumbRoundTrip | src/components/json-ld-schema.tsx:114-123 | every name and url reads back in order |
| JsonLd.ArticleSchema | src/components/json-ld-schema.tsx:125-162 | the image key is present iff an image is supplied, and the publisher is the site |
| JsonLd.ArticleRoundTrip | src/components/json-ld-schema.tsx:125-162 | every field reads back, and an empty image reads back as none |
| JsonLd.ReadArticleBody | src/components/json-ld-schema.tsx:134-161 | an object holding the article keys reads back as the article, with the image exactly when it was spread in |
| JsonLd.WebPageSchema | src/components/json-ld-schema.tsx:164-192 | the date keys are present iff supplied and non-empty; the language is "en" |
| JsonLd.WebPageRoundTrip | src/components/json-ld-schema.tsx:164-192 | every field reads back, and empty dates read back as none |
| JsonLd.HowToSchema | src/components/json-ld-schema.tsx:194-225 | steps numbered from 1 in order; totalTime and a USD estimatedCost present iff supplied |
| JsonLd.ReadStepOf | src/components/json-ld-schema.tsx:213-224 | each step reads back with its name, text and non-empty image, at position index + 1 |
| JsonLd.HowToSpreads | src/components/json-ld-schema.tsx:205-212 | spreading totalTime and estimatedCost keeps every other key and adds each exactly when supplied, the cost as a USD amount |
| JsonLd.HowToRoundTrip | src/components/json-ld-schema.tsx:194-225 | every field and step reads back in order |
| JsonLd.ItemListSchema | src/components/json-ld-schema.tsx:227-237 | entries numbered from 1, each with a description key iff its description is non-empty |
| JsonLd.ItemListRoundTrip | src/components/json-ld-schema.tsx:227-237 | every entry reads back in order |
| DashboardOverview.FromLatest | src/components/dashboard-overview.tsx:43-65 | the metrics show the calculation's monthly earnings, ctr and rpm as saved, and page views that divide by thirty back to the saved daily views (NaN iff NaN); the constant changes agree with their constant arrows |
| DashboardOverview.LoadedShowsLatest | src/components/dashboard-overview.tsx:37-65 | with a non-empty stored list the metrics are the first entry's monthly earnings, ctr and rpm, and page views that divide by 30 back to its daily views |
| DashboardOverview.LoadedKeepsOrReplaces | src/components/dashboard-overview.tsx:26-42 | an absent or empty list keeps the metrics; loading twice equals loading once |
| DashboardOverview.SeriesLength | src/components/dashboard-overview.tsx:73 | every period has a non-empty series |
| DashboardOverview.SeriesLengthIncreasing | src/components/dashboard-overview.tsx:73 | week 7 < today 24 < month 30 < year 365 |
| DashboardOverview.SeriesNames | src/components/dashboard-overview.tsx:73-78 | one label per point of the period |
| DashboardOverview.SeriesNameReadsBack | src/components/dashboard-overview.tsx:75 | "i:00" reads back as hour i and "Day i+1" as day i+1 |
| DashboardOverview.SeriesNamesDistinct | src/components/dashboard-overview.tsx:74-75 | no two points of a series share a label |
| DashboardOverview.Abbreviate | src/components/dashboard-overview.tsx:91-99 | "M" iff num ≥ 1,000,000, "K" iff 1000 ≤ num < 1,000,000, no suffix otherwise (NaN included) |
| DashboardOverview.AbbreviateRoundTrip | src/components/dashboard-overview.tsx:91-99 | the figure times its suffix's scale is the number, and a suffixed figure lies in [1, 1000) for K and ≥ 1 for M |
| DashboardOverview.AbbreviateMonotone | src/components/dashboard-overview.tsx:91-99 | a larger number never gets a smaller suffix |
| DashboardOverview.Overview.constructor | src/components/dashboard-overview.tsx:25-31 | the month period and all-zero metrics |
| DashboardOverview.Overview.Refresh | src/components/dashboard-overview.tsx:35-80 | the metrics become the loaded ones and the series labels those of the period, keeping arrows in agreement |
| DashboardOverview.Overview.SetPeriod | src/components/dashboard-overview.tsx:147 | the period changes and the effect runs again |
| DashboardOverview.Overview.PageViewsCard | src/components/dashboard-overview.tsx:113 | the card's figure scaled back is the page-view metric |
| GoalsTracker.Progress | src/components/goals-tracker.tsx:44 | progress·target = current·100 |
| GoalsTracker.CompleteIffReached | src/components/goals-tracker.tsx:45 | for a positive target, complete iff current ≥ target |
| GoalsTracker.BarValue | src/components/goals-tracker.tsx:57 | the bar is at most 100 and at most the progress, full iff complete, and the progress otherwise |
| GoalsTracker.FormatValue | src/components/goals-tracker.tsx:24-32 | "$" is a prefix, "%" a suffix on a one-decimal figure, other units are not written; the figure is the value |
| GoalsTracker.FormatShowsUnitOnce | src/components/goals-tracker.tsx:24-32 | a "$" or "%" unit is written exactly once, other units never |
| GoalsTracker.Rows | src/components/goals-tracker.tsx:43-66 | one row per goal in order, each bar at most full, the badge exactly when the bar is full |
| GoalsTracker.InitialGoals | src/components/goals-tracker.tsx:18-22 | the fixed goals have distinct ids and positive targets, stand at 62.5% and 75% (and about 76.7%), and none is complete |

## Left out

- IEEE-754 rounding: all arithmetic is exact over `real`.
- `Number.parseFloat` prefix parsing: a text field is modelled by the result of its parse, a number or NaN.
- The digits of `toFixed`, `toLocaleString` and `Intl.NumberFormat`, including the currency formatters. `formatNumber` and `formatValue` are modelled down to the branch, the divisor and the symbols.
- `chartData`, the sparklines and the dashboard chart values: they are drawn from `Math.random`. Only the series labels are modelled.
- JSON.parse failures and the shape of what local storage holds: stored data arrives already parsed.
- The Blob downloads of `exportData` and `exportCalculation`.
- `Date.now()` and `new Date()`: they become method parameters.
- The `onProfileUpdate` callback.
- The analytics, performance monitor, i18n context, contact form, schema-markup component, and all page, layout, header, footer and animation files: they are static markup or browser plumbing.
- `videoObjectSchema` and the constant schemas such as `organizationSchema` and `webApplicationSchema`: they have no inputs worth stating.
- JSON key order and the `dangerouslySetInnerHTML` serialisation.
- Case mapping beyond ASCII letters.
- Lookups of inherited object keys such as `constructor` in the multiplier tables.
- The feed items' description and content text.
- ContentFeed.SortNewestFirst: sorts a sequence by insertion instead of sorting an array in place. It states order and permutation; stability is not stated.
- Breadcrumb.GenerateBreadcrumbs: states each href as the path of its segment prefix. The step from one href to the next is stated separately by Breadcrumb.PathPrefixes.
- GoalsTracker.Progress: requires a non-zero target. The source has no guard, and a zero target would give Infinity or NaN. Every fixed goal has a positive target.
- The goals tracker's `setGoals` is never called, so the goals are a constant.
