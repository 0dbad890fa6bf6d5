# Medical ad platform: selection engine, report ledger and analytics, in Dafny

This project models the core of a Next.js advertising platform that shows medical ads next to
questions people ask. The platform has these parts:

- **Ad selection** (`POST` and `GET /api/ads`). A question is matched to a category by counting
  keyword hits. The matched category's active, in-date ads are scored on four signals: 50 %
  category relevance, 30 % click-through rate over the last 30 days, 10 % freshness and 10 %
  budget headroom. The first ad with the highest score wins. Without a question the pick is
  random among all eligible ads. When a category matched but has no candidates, the pick is
  random among at most five eligible ads. Each served ad records an impression.
- **The report ledger** (`POST /api/report`). A `view` report stores the reporting session on the
  impression; a `click` report raises the impression's `clicked` flag. Either then recomputes the
  ad's metrics row for today by counting impressions (an upsert keyed by `(adId, date)`), rather
  than incrementing it.
- **The report queries.** The summary groups impressions by company and category; the daily
  report groups them by UTC day, ascending; the row report lists impressions with company, date
  and role restrictions.
- **The campaign and category routes**, with the access rule they share: a super admin reaches
  every company, anyone else only the session's own.
- **The dashboards and campaign screens.** The super, staff and advertiser dashboards, each with
  filters, totals, CTR and CSV export. The campaign card (status toggle and archive), the edit
  dialog (form state, validation, submission), and the advertiser's and super admin's campaign
  lists.
- **`lib/utils.ts`.**

Most modules follow one source file. The exceptions are shared code: `Common` and `Entities`
hold the values and helpers every module uses, `Grouping` serves both the summary and the daily
report, `Csv` serves the three dashboards' exports, `ReportDashboard` covers the advertiser and
staff dashboards, and `CampaignLists` covers both campaign list screens. Lookups in the store become Dafny sequences and maps, read
in the order the store returns them. The clock (`now`, today's midnight) and the draw of
`Math.random()` are parameters. So are conversions the runtime performs, such as `Number`,
`parseFloat`, `new Date(s)`, `toJSON` and the currency and date formatters. Where a source
function works step by step, the model is an imperative method proved against a specification
function. This covers the keyword-scoring loop, the scoring loop, the grouping loops, the form
validation and the chart grouping. The ledger and the campaign screens, whose state is updated in
place, are classes with `modifies` clauses.

The two ad handlers (`POST` at app/api/ads/route.ts:128-328 and `GET` at
app/api/ads/route.ts:330-518) run the same selection, so `AdSelection.SelectAd` takes the verb as a parameter.
They differ in four ways:
- where they read the question: the JSON body or the query string;
- one 404 message, which `SelectAd` states as a function of the verb;
- the `POST` handler's `catch` around parsing the body, which goes on with an empty question
  and no session; the model passes such a request as an absent question and session;
- the two-second wait on the `POST` fallback path (app/api/ads/route.ts:269-270), after the
  impression is created and before the response; it is timing and is not modelled.

With no candidate in the matched category, app/api/ads/route.ts:228-283 picks one of up to five
eligible ads at random without scoring them, and so does `AdSelection.SelectAd`.

## Model

| member | source | states |
|---|---|---|
| CategoryMatcher.Hits | app/api/ads/route.ts:29-36 | a category's score is the number of its keywords found in the lower-cased question, so at most its keyword count |
| CategoryMatcher.BestIsUnique | app/api/ads/route.ts:42-47 | at most one category is the winner: highest score above zero, and earliest among equal scores |
| CategoryMatcher.BestExists | app/api/ads/route.ts:38-47 | when some category scores above zero, a winner exists |
| CategoryMatcher.BestCategory | app/api/ads/route.ts:23-51 | the scoring loop with its running maximum returns exactly the reference answer: the winner's slug, or none when every score is zero |
| CategoryMatcher.MatchQuestionToCategory | app/api/ads/route.ts:5-51 | the same over the fixed keyword table of the route |
| CategoryMatcher.MatchedCategoryIndex | app/api/ads/route.ts:42-50 | a match is the slug of the winning index |
| CategoryMatcher.MatchedNoneIff | app/api/ads/route.ts:49-50 | no category is returned exactly when no keyword of any category occurs in the question, ignoring case |
| CategoryMatcher.MatchedIsBest | app/api/ads/route.ts:42-50 | a returned category has the highest score, and comes first among ties in table order |
| CategoryMatcher.CountSnoc | app/api/ads/route.ts:31-35 | counting one more keyword adds one exactly when that keyword hits |
| Scoring.WindowRows | app/api/ads/route.ts:61-72 | the window query returns exactly the ad's metrics rows dated on or after midnight thirty days before today |
| Scoring.CtrBounds | app/api/ads/route.ts:74-83 | the window CTR is summed clicks over summed impressions, in [0, 1] when no row has more clicks than impressions, and 0 without impressions |
| Scoring.SumWindow | app/api/ads/route.ts:75-81 | the summing loop yields the window's total impressions and clicks |
| Scoring.LastShown | app/api/ads/route.ts:86-89 | none exactly when the ad has no impression; otherwise the latest impression timestamp of the ad |
| Scoring.FreshnessBounds | app/api/ads/route.ts:91-96 | a never-shown ad scores 1; otherwise hours since shown over 24, capped at 1, so in [0, 1] |
| Scoring.SpendNonNegative | app/api/ads/route.ts:120-126 | the summed spend over all the ad's rows is non-negative when each row's spend is |
| Scoring.BudgetScoreFacts | app/api/ads/route.ts:98-105 | without a truthy budget and spend cap the budget signal is 1; with both it is 1 minus spent over budget, clamped at 0, so in [0, 1] for non-negative spend |
| Scoring.BudgetExample | app/api/ads/route.ts:98-105 | a budget of 1000 with 400 spent gives 0.6 once a spend cap is set |
| Scoring.WeightedScoreBounds | app/api/ads/route.ts:13-18 | the four weights sum to 1, so signals in [0, 1] give a score in [0, 1] |
| Scoring.AdScoreBounds | app/api/ads/route.ts:56-115 | on well-formed data (clicks at most impressions, non-negative spend, no future impressions) every ad's score lies in [0, 1] |
| Scoring.CalculateAdScore | app/api/ads/route.ts:56-115 | the imperative score computation returns the specified weighted score of relevance, window CTR, freshness and budget headroom |
| Scoring.FreshRelevantAdWins | app/api/ads/route.ts:107-114 | a never-shown relevant ad scores 0.7 and beats an irrelevant one with a 100 % CTR shown an hour ago, which scores 0.4 + 0.1/24 |
| AdSelection.EligibleAds | app/api/ads/route.ts:144-164 | the eligible ads are exactly the store's ads that are active, started or undated, and not ended, in store order |
| AdSelection.CandidateAds | app/api/ads/route.ts:200-226 | the candidates are exactly the eligible ads carrying the matched category's slug (every eligible ad when nothing matched), in store order |
| AdSelection.FallbackAds | app/api/ads/route.ts:230-250 | the fallback pool is the first at most five eligible ads, in store order |
| AdSelection.RandomIndex | app/api/ads/route.ts:172 | floor of the draw times the pool size is an index into the pool |
| AdSelection.Pick | app/api/ads/route.ts:172 | the random pick is a member of the pool |
| AdSelection.RelevanceUniform | app/api/ads/route.ts:288 | every candidate has relevance 1 when a category matched and 0 when none did |
| AdSelection.CandidateScores | app/api/ads/route.ts:285-295 | one score per candidate, in candidate order |
| AdSelection.ScoreCandidates | app/api/ads/route.ts:285-295 | the scoring loop produces exactly the candidates' scores |
| AdSelection.HighestScoring | app/api/ads/route.ts:297-301 | the head of the stable descending sort is the first index attaining the maximum score |
| AdSelection.QuestionOf | app/api/ads/route.ts:135 | a missing question reads as the empty string; a given one is kept |
| AdSelection.SelectAd | app/api/ads/route.ts:128-328 | a served ad is in the store and eligible; the only failure is a 404, reading `No fallback ads available` on the `POST` fallback path and `No active ads available` otherwise; an empty question is a random pick among all eligible ads recording `''`; otherwise the scored winner among the candidates, or the random fallback among at most five eligible ads when there is no candidate |
| AdSelection.NoEligibleAdsMeansNotFound | app/api/ads/route.ts:228-254 | with no eligible ad both the candidate list and the fallback pool are empty, so every request is a 404 |
| AdSelection.FallbackWidens | app/api/ads/route.ts:228-250 | with some eligible ad the fallback pool is non-empty and holds min(5, eligible) ads |
| Ledger.AdStore.constructor | app/api/report/route.ts:8-133 | the store starts with empty impression and metrics tables |
| Serving.Serve | app/api/ads/route.ts:128-328 | the answer meets everything `AdSelection.SelectAd` promises, its 404 messages included; on success the impression table gains exactly one entry, the new id, holding the served ad's id, the recorded question, no click, the current time and the session id when one is given, with the metrics unchanged; a failed selection stores nothing |
| Ledger.AdStore.CreateImpression | app/api/ads/route.ts:175-182 | a new impression is stored unclicked with the ad, question, session and current time; metrics are unchanged |
| Ledger.AdStore.UpdateAdMetrics | app/api/report/route.ts:84-133 | the `(adId, today)` row is replaced by a recount of today's impressions and clicked impressions of the ad; impressions are unchanged |
| Ledger.AdStore.Report | app/api/report/route.ts:8-79 | the new tables and the response are those of the report function `ApplyReport` |
| Ledger.MissingParameterRejected | app/api/report/route.ts:15-21 | a missing `type` or `impressionId` is a 400 naming the missing parameter, with no change, `type` checked first |
| Ledger.FailureChangesNothing | app/api/report/route.ts:15-68 | the response is a failure exactly when the request fails validation or names no impression; a failure changes nothing and is a 400; an unknown type and an unknown impression each get their own message |
| Ledger.ImpressionEffect | app/api/report/route.ts:25-64 | a view writes the reporting session onto the impression when one is given, and a click sets `clicked`; nothing else in the impression table changes and the response carries the id |
| Ledger.ClickedNeverReset | app/api/report/route.ts:47-64 | no report clears `clicked`, changes an impression's ad or timestamp, or adds or removes an impression |
| Ledger.MetricsEffect | app/api/report/route.ts:84-133 | a successful report rewrites only its ad's row for today, with today's counts; every other row is kept |
| Ledger.RowBounds | app/api/report/route.ts:89-110 | a written row has clicks at most impressions and a CTR of clicks over impressions (0 without impressions) in [0, 1] |
| Ledger.CtrOfBounds | app/api/report/route.ts:110 | the stored CTR lies in [0, 1] when clicks do not exceed impressions |
| Ledger.ReportIdempotent | app/api/report/route.ts:8-79 | the same report twice leaves the tables and the response as one report does |
| Ledger.ApplyAllCharacterized | app/api/report/route.ts:8-133 | a batch of reports raises `clicked` on exactly the clicked impressions and leaves metrics equal to an order-free recount |
| Ledger.ReportsCommute | app/api/report/route.ts:8-133 | two batches holding the same reports, in any order and with repeats, give the same metrics and the same clicked impressions |
| Ledger.SuccessShape | app/api/report/route.ts:25-64 | a successful report writes its impression and upserts its ad's today row, nothing more |
| Ledger.SameCounts | app/api/report/route.ts:89-106 | tables that agree on an ad's impressions give the same counts for it |
| Reports.Summary | app/api/reports/summary/route.ts:6-28 | 401 signed out, 403 for any role but super; otherwise one entry per company and category pair, counted by the loop |
| Reports.SummaryFacts | app/api/reports/summary/route.ts:16-27 | summary keys are distinct and cover every impression; impressions add up to the number of impressions, clicks to the clicked ones; no group has more clicks than impressions |
| Grouping.GroupCount | app/api/reports/summary/route.ts:16-27 | the counting loop over a map produces one tally per distinct key, in first-seen order, titled by its first record |
| Grouping.CountRecord | app/api/reports/summary/route.ts:17-26 | counting one record adds its key on first sight and bumps that key's counters |
| Grouping.DistinctKeys | app/api/reports/summary/route.ts:16-27 | the distinct keys are exactly the keys some record has |
| Grouping.DistinctKeysUnique | app/api/reports/summary/route.ts:16-27 | no key is listed twice |
| Grouping.GroupingKeys | app/api/reports/summary/route.ts:16-27 | a grouping's entry keys are pairwise different and cover every record |
| Grouping.GroupingBounded | app/api/reports/summary/route.ts:16-27 | each group has clicks at most impressions |
| Grouping.GroupingConserves | app/api/reports/summary/route.ts:16-27 | the groups' impressions add up to the number of records and their clicks to the clicked records |
| Grouping.GroupSums | app/api/reports/summary/route.ts:16-27 | summed over the distinct keys, occurrences give the record count and clicked occurrences the clicked count |
| Reports.Daily | app/api/reports/daily/route.ts:6-64 | 401 signed out; 403 for roles other than advertiser, staff and super; 400 without a company; otherwise one entry per UTC day of the company's impressions, ascending by day |
| Reports.DailyAdvertiserUsesSession | app/api/reports/daily/route.ts:20-22 | an advertiser's daily report is for the session's company, whatever the query asks |
| Reports.DailyFacts | app/api/reports/daily/route.ts:39-61 | the sorted days are strictly ascending, cover every impression, have clicks at most impressions and add up to the impression count |
| Reports.SortByDay | app/api/reports/daily/route.ts:59-61 | the sort returns the same entries, ascending by day |
| Reports.InsertByDaySorted | app/api/reports/daily/route.ts:59-61 | inserting an entry into a day-sorted list keeps it sorted |
| Reports.InsertByDayKeeps | app/api/reports/daily/route.ts:59-61 | inserting adds exactly that entry |
| Reports.SumNatPermutation | app/api/reports/daily/route.ts:59-61 | reordering the entries does not change their impression total |
| Reports.BuildWhere | app/api/reports/route.ts:21-36 | an advertiser's filter is the session's company (none when it has none), others use the query's; the date bounds are present exactly when the parameters are truthy |
| Reports.ToRow | app/api/reports/route.ts:45-54 | each row counts one view, one click when clicked, and keeps the impression's id, ad and timestamp |
| Reports.Rows | app/api/reports/route.ts:6-56 | 401 signed out; 403 for other roles; otherwise one row per impression matching the filter, in order |
| Reports.AdvertiserRestricted | app/api/reports/route.ts:23-25 | an advertiser with a company sees only that company's impressions, whatever `companyId` asks for |
| Reports.AdvertiserWithoutCompanyUnrestricted | app/api/reports/route.ts:23-30 | an advertiser whose session has no company, with no other filter, gets every impression |
| Reports.BoundsInclusive | app/api/reports/route.ts:32-36 | an impression exactly at `from` or at `to` is selected |
| Reports.RowClicksCount | app/api/reports/route.ts:53 | the rows' clicks add up to the number of clicked impressions |
| Campaigns.RollUpFacts | app/api/campaigns/route.ts:51-64 | the roll-up keeps the ad, gives zeros without rows, is the sum of the fetched rows (at most thirty), and has clicks at most impressions when every row does |
| Campaigns.RollUpAll | app/api/campaigns/route.ts:51-64 | one rolled-up entry per campaign, in order |
| Campaigns.ListCampaigns | app/api/campaigns/route.ts:7-71 | 401 signed out, 400 without a company, 403 when the user may not access it; success exactly otherwise, with the rolled-up campaigns of that company |
| Campaigns.NumberOrNull | app/api/campaigns/route.ts:115-116 | an amount is null exactly when the field is falsy; otherwise it is the field parsed with `parseFloat` |
| Campaigns.CreateCampaign | app/api/campaigns/route.ts:74-141 | 401 signed out, 400 when a required field is missing, 403 without access, 400 when the category is unknown or belongs to another company; a request passing every guard succeeds, and only such a request; the created row carries the request's fields, status `active` by default, each amount as `NumberOrNull` of its field and each date read from its text, null exactly for falsy fields |
| Campaigns.MissingFieldsBeforeAccess | app/api/campaigns/route.ts:88-95 | a missing field is reported as 400 even to a user without access to the company |
| CampaignsAll.ListAllCampaigns | app/api/campaigns/all/route.ts:6-66 | 401 signed out, 403 for any role but super; success exactly for super, with each entry the roll-up of the campaign at the same position |
| CampaignsAll.AllTotals | app/api/campaigns/all/route.ts:46-59 | each listed total is the sum over that campaign's fetched rows |
| Categories.ListCategories | app/api/categories/route.ts:7-41 | 401, 400 without company, 403 without access; on success exactly the categories of that company, in store order |
| Categories.CreateErrorStatus | app/api/categories/route.ts:80-86 | a failed insert is 409 exactly for a unique-constraint violation, else 500 |
| Categories.CreateCategory | app/api/categories/route.ts:44-88 | 401 signed out, 400 when name, slug or company is missing, 403 without access; past the guards a successful insert returns the inserted category and a failed one answers `CreateErrorStatus` of its error code (409 for `P2002`, else 500); success only past every guard |
| Categories.AccessRule | app/api/categories/route.ts:22-24 | a super may access any company; anyone else exactly the session's own |
| Utils.CalculatePercentage | lib/utils.ts:42-45 | 0 for a zero total; otherwise the value times 100 over the total |
| Utils.PercentageBounds | lib/utils.ts:42-45 | the whole is 100 %, and a part of a positive total lies in [0, 100] |
| Utils.Substring | lib/utils.ts:53-56 | `substring(0, n)` clamps the end into [0, length] |
| Utils.TruncateText | lib/utils.ts:53-56 | a text within the length is kept; a longer one is cut to the length and followed by `...` |
| Utils.TruncateIdempotent | lib/utils.ts:53-56 | a truncated text is at most the length plus three, and truncating it again changes nothing |
| Utils.FormatCurrency | lib/utils.ts:6-17 | null or undefined shows `$0.00`; any number goes to the formatter |
| Utils.FormatDate | lib/utils.ts:24-34 | null, undefined and the empty string show `Not set`; any other text goes to the formatter |
| CampaignCard.NextStatusFacts | app/analytics/components/campaign-management/campaign-card.tsx:59-66 | the toggle swaps active and paused, fixes archived, and applying it twice is the identity |
| CampaignCard.StatusColor | app/analytics/components/campaign-management/campaign-card.tsx:50-57 | the chip is red exactly for archived and green exactly for active |
| CampaignCard.CardMetrics | app/analytics/components/campaign-management/campaign-card.tsx:41 | missing metrics read as zeros |
| CampaignCard.CardCtr | app/analytics/components/campaign-management/campaign-card.tsx:42 | the text `0` exactly without impressions, else clicks over impressions in percent, in [0, 100] when clicks do not exceed impressions |
| CampaignCard.BudgetUsage | app/analytics/components/campaign-management/campaign-card.tsx:43 | spend as a percentage of a truthy budget, 0 without one |
| CampaignCard.ProgressValue | app/analytics/components/campaign-management/campaign-card.tsx:160 | the bar shows the usage capped at 100 |
| CampaignCard.StatusAfter | app/analytics/components/campaign-management/campaign-card.tsx:198-220 | edit keeps the status, the toggle asks for the next status, archive asks for archived |
| CampaignCard.ArchivedIsTerminal | app/analytics/components/campaign-management/campaign-card.tsx:203-220 | an archived card offers only its edit button, so no sequence of the card's own buttons changes an archived status (the dialog opened by edit can, see `CampaignEdit.ArchivedCanBeReactivated`) |
| CampaignCard.ArchiveReachable | app/analytics/components/campaign-management/campaign-card.tsx:203-220 | from active or paused, archive is one press away and two toggles return to the start |
| CampaignEdit.Get | app/analytics/components/campaign-management/campaign-edit-dialog.tsx:82-98 | a field reads as a date exactly when it is a date field |
| CampaignEdit.SetText | app/analytics/components/campaign-management/campaign-edit-dialog.tsx:82-98 | a text update sets that field and keeps every other |
| CampaignEdit.SetDate | app/analytics/components/campaign-management/campaign-edit-dialog.tsx:100-113 | a date update sets that field and keeps every other |
| CampaignEdit.ClearError | app/analytics/components/campaign-management/campaign-edit-dialog.tsx:91-97 | a shown error is blanked; no key is added or removed and no other message changes |
| CampaignEdit.HandleChange | app/analytics/components/campaign-management/campaign-edit-dialog.tsx:82-98 | an event without a name changes nothing; otherwise the field takes the value and its error is cleared |
| CampaignEdit.HandleDateChange | app/analytics/components/campaign-management/campaign-edit-dialog.tsx:100-113 | the date field takes the picked date or null, other fields are kept, its error is cleared |
| CampaignEdit.ChangeKeepsOtherErrors | app/analytics/components/campaign-management/campaign-edit-dialog.tsx:91-97 | editing a field leaves every other field's error message as it was |
| CampaignEdit.UrlError | app/analytics/components/campaign-management/campaign-edit-dialog.tsx:126-136 | no URL error exactly when the URL is not blank and starts with `http` |
| CampaignEdit.AmountError | app/analytics/components/campaign-management/campaign-edit-dialog.tsx:142-148 | no amount error exactly when the amount is empty or numeric |
| CampaignEdit.ValidateForm | app/analytics/components/campaign-management/campaign-edit-dialog.tsx:115-156 | the rule sequence records exactly each field's message, and the form is valid exactly when no rule fails |
| CampaignEdit.AllRulesRun | app/analytics/components/campaign-management/campaign-edit-dialog.tsx:115-156 | after all eight rules the dictionary holds exactly the messages, and is empty exactly when the form is valid |
| CampaignEdit.ExpectedHolds | app/analytics/components/campaign-management/campaign-edit-dialog.tsx:115-156 | after the first k rules the dictionary holds exactly those rules' messages |
| CampaignEdit.ExpectedAll | app/analytics/components/campaign-management/campaign-edit-dialog.tsx:115-156 | the two fields without a rule have no message, so all messages are recorded |
| CampaignEdit.NoMessagesIffValid | app/analytics/components/campaign-management/campaign-edit-dialog.tsx:153-156 | a dictionary of exactly the messages is empty exactly when the form is valid |
| CampaignEdit.Note | app/analytics/components/campaign-management/campaign-edit-dialog.tsx:115-152 | a failing rule writes its message under its field; a passing rule writes nothing |
| CampaignEdit.ValidIff | app/analytics/components/campaign-management/campaign-edit-dialog.tsx:115-156 | the form is valid exactly when headline and CTA text are not blank, both URLs are set and start with `http`, a category is chosen, both amounts are empty or numeric, and the dates are in order |
| CampaignEdit.DateRule | app/analytics/components/campaign-management/campaign-edit-dialog.tsx:150-152 | the date error is on the end date, only when both dates are set and the start is after the end; equal dates pass |
| CampaignEdit.BlankUrlIsRequired | app/analytics/components/campaign-management/campaign-edit-dialog.tsx:126-130 | a blank URL is reported as missing, not as lacking the scheme |
| CampaignEdit.ParseAmount | app/analytics/components/campaign-management/campaign-edit-dialog.tsx:164-168 | an empty amount submits null, anything else its parsed number |
| CampaignEdit.ToSubmission | app/analytics/components/campaign-management/campaign-edit-dialog.tsx:164-168 | the submission copies every form field and parses the two amounts |
| CampaignEdit.HandleSubmit | app/analytics/components/campaign-management/campaign-edit-dialog.tsx:158-177 | the errors are the rules' messages; something is saved exactly when the form is valid, and it is the submission built from the form |
| CampaignEdit.ShowAmount | app/analytics/components/campaign-management/campaign-edit-dialog.tsx:72-73 | a truthy amount shows as its text, anything else as empty |
| CampaignEdit.ReadDate | app/analytics/components/campaign-management/campaign-edit-dialog.tsx:74-75 | a date is null exactly when its text is falsy; otherwise it is `new Date` of that text |
| CampaignEdit.LoadAd | app/analytics/components/campaign-management/campaign-edit-dialog.tsx:64-80 | without an ad nothing changes; with one every field is filled from it (a zero or missing amount as empty text, each date as `ReadDate` of the ad's text) and the errors are emptied |
| CampaignEdit.LoadThenSubmitAmounts | app/analytics/components/campaign-management/campaign-edit-dialog.tsx:64-168 | when parsing reads back what showing writes and showing never writes the empty string, loading an ad and submitting it unedited returns its truthy amounts, and null for a zero or missing one |
| CampaignEdit.ArchivedCanBeReactivated | app/analytics/components/campaign-management/campaign-edit-dialog.tsx:64-362 | an archived ad loads as `archived`; choosing `active` in the status select leaves the form's validity as it was, and the submission then carries `active` |
| CampaignEdit.LoadedStatusIsKnown | app/analytics/components/campaign-management/campaign-edit-dialog.tsx:71 | a loaded status is one of the three the select offers |
| CampaignLists.FilteredCampaigns | app/analytics/components/campaign-management/advertiser-campaigns.tsx:88-94 | the list keeps its order and holds exactly the campaigns matching the search, status and category filters |
| CampaignLists.TabCampaigns | app/analytics/components/campaign-management/advertiser-campaigns.tsx:97-110 | tabs 1 to 3 hold exactly the filtered campaigns of their status; any other tab holds all |
| CampaignLists.TabsCoverStatuses | app/analytics/components/campaign-management/advertiser-campaigns.tsx:97-110 | every shown campaign is on the tab of its status and on the all tab |
| CampaignLists.FindById | app/analytics/components/campaign-management/advertiser-campaigns.tsx:114 | none exactly when no campaign has the id; otherwise a campaign of the list with that id |
| CampaignLists.FirstMatchIsFound | app/analytics/components/campaign-management/advertiser-campaigns.tsx:114 | `find` returns the first campaign with the id |
| CampaignLists.Ids | app/analytics/components/campaign-management/advertiser-campaigns.tsx:125-127 | the i-th id is the i-th campaign's own id |
| CampaignLists.WithStatus | app/analytics/components/campaign-management/advertiser-campaigns.tsx:125-127 | a status change replaces the status of the campaigns with that id and keeps every other campaign |
| CampaignLists.WithStatusFacts | app/analytics/components/campaign-management/advertiser-campaigns.tsx:125-127 | a status change keeps the ids in place, and repeating it does nothing more |
| CampaignLists.FindAfterStatusChange | app/analytics/components/campaign-management/advertiser-campaigns.tsx:114-127 | after a status change the campaign found by that id carries the new status |
| CampaignLists.Merged | app/analytics/components/campaign-management/advertiser-campaigns.tsx:141-143 | a saved campaign takes the response's columns and keeps its company name and roll-up; other campaigns are kept |
| CampaignLists.MergedKeepsIds | app/analytics/components/campaign-management/advertiser-campaigns.tsx:141-143 | when the response echoes the id, a save keeps every id in place |
| CampaignLists.Appended | app/analytics/components/campaign-management/advertiser-campaigns.tsx:152 | a created campaign is appended after the existing ones |
| CampaignLists.AdvertiserCampaigns.constructor | app/analytics/components/campaign-management/advertiser-campaigns.tsx:45-56 | the view starts with no campaigns and no open dialog |
| CampaignLists.AdvertiserCampaigns.Load | app/analytics/components/campaign-management/advertiser-campaigns.tsx:58-80 | a successful campaigns request replaces the shown list; a failed one keeps it |
| CampaignLists.AdvertiserCampaigns.HandleEditCampaign | app/analytics/components/campaign-management/advertiser-campaigns.tsx:113-117 | the dialog opens on the first campaign with the id, or empty |
| CampaignLists.AdvertiserCampaigns.HandleCreateCampaign | app/analytics/components/campaign-management/advertiser-campaigns.tsx:161-164 | the dialog opens empty |
| CampaignLists.AdvertiserCampaigns.HandleStatusChange | app/analytics/components/campaign-management/advertiser-campaigns.tsx:120-131 | after a successful `PATCH` only the campaigns with that id change status; after a failed one nothing changes |
| CampaignLists.AdvertiserCampaigns.HandleSaveCampaign | app/analytics/components/campaign-management/advertiser-campaigns.tsx:134-158 | an edit sends a `PUT` to the edited id and merges the response; a create sends a `POST` with the session's company and appends the response; a failure changes nothing |
| CampaignLists.SuperFilteredCampaigns | app/analytics/components/campaign-management/super-campaigns.tsx:106-113 | the list keeps its order and holds exactly the campaigns matching the search, status, category and company filters |
| CampaignLists.SuperWithoutCompanyFilter | app/analytics/components/campaign-management/super-campaigns.tsx:106-113 | with the company filter on `all` the super view shows what the advertiser view would |
| CampaignLists.NoFiltersKeepAll | app/analytics/components/campaign-management/super-campaigns.tsx:106-113 | with no search and every filter on `all` both views show the whole list in order |
| CampaignLists.EmptySearchMatches | app/analytics/components/campaign-management/super-campaigns.tsx:106-113 | the empty search term matches every headline |
| CampaignLists.CompanyCategories | app/analytics/components/campaign-management/super-campaigns.tsx:132-135 | nothing without a selected company, otherwise exactly that company's categories |
| CampaignLists.SuperCampaigns.constructor | app/analytics/components/campaign-management/super-campaigns.tsx:56-69 | the view starts empty, with no dialog and no selected company |
| CampaignLists.SuperCampaigns.Load | app/analytics/components/campaign-management/super-campaigns.tsx:72-98 | companies, campaigns and categories are fetched in turn and the first failure ends the load: the campaigns are replaced when their request and the companies request succeeded, the categories only when all three did, so a failed categories request leaves the new campaigns beside the old categories |
| CampaignLists.SuperCampaigns.DialogCategories | app/analytics/components/campaign-management/super-campaigns.tsx:132-135 | the dialog offers only the selected company's categories, none without a selection |
| CampaignLists.SuperCampaigns.HandleEditCampaign | app/analytics/components/campaign-management/super-campaigns.tsx:138-145 | the dialog opens on the found campaign and selects its company; when none is found the selection is kept |
| CampaignLists.SuperCampaigns.HandleCreateCampaign | app/analytics/components/campaign-management/super-campaigns.tsx:189-192 | the dialog opens empty and the selected company is kept |
| CampaignLists.SuperCampaigns.HandleDialogClose | app/analytics/components/campaign-management/super-campaigns.tsx:385-388 | closing the dialog after a create clears the selected company; after an edit it is kept; nothing else changes |
| CampaignLists.SuperCampaigns.HandleCompanyChange | app/analytics/components/campaign-management/super-campaigns.tsx:195-197 | the selector sets the dialog's company, nothing else |
| CampaignLists.SuperCampaigns.HandleStatusChange | app/analytics/components/campaign-management/super-campaigns.tsx:148-159 | as in the advertiser view, only the campaigns with that id change status after a successful `PATCH` |
| CampaignLists.SuperCampaigns.HandleSaveCampaign | app/analytics/components/campaign-management/super-campaigns.tsx:162-186 | an edit sends a `PUT` and merges; a create sends a `POST` with the selected company and appends; a failure changes nothing |
| SuperDashboard.RowCtr | app/analytics/components/super.tsx:53-56 | a row's CTR is clicks over impressions in percent, 0 without impressions, in [0, 100] when clicks do not exceed impressions |
| SuperDashboard.WithCtr | app/analytics/components/super.tsx:53-56 | each row keeps its fields and gains its CTR, in order |
| SuperDashboard.SuperScreen | app/analytics/components/super.tsx:47-62 | the spinner stays without a session or while pending; a success shows the rows with CTR; a failure shows no rows |
| SuperDashboard.FromEntries | app/api/reports/summary/route.ts:16-27 | one dashboard row per summary entry, with its names and counts |
| SuperDashboard.ServerSummaryFigures | app/analytics/components/super.tsx:53-94 | on the summary endpoint's output every row's CTR is in [0, 100], and the totals are the impressions and the clicked impressions |
| SuperDashboard.AddRow | app/analytics/components/super.tsx:69-74 | one row added to the map: its name appended on first sight, its counters added to that name's entry |
| SuperDashboard.MapStep | app/analytics/components/super.tsx:69-74 | adding a row keeps the map equal to the per-name sums over the rows seen so far |
| SuperDashboard.PrepareChartData | app/analytics/components/super.tsx:65-87 | the chart has one entry per distinct company or category, in first-seen order, with that name's impression and click sums |
| SuperDashboard.ChartNames | app/analytics/components/super.tsx:65-87 | chart names are distinct, every row's name appears, and every name comes from a row |
| SuperDashboard.ChartTotals | app/analytics/components/super.tsx:65-94 | the chart's impressions and clicks add up to the dashboard totals |
| SuperDashboard.KeySumsTotal | app/analytics/components/super.tsx:65-94 | per-name sums over the distinct names add up to the sum over all rows |
| SuperDashboard.OverallCtr | app/analytics/components/super.tsx:92-94 | the text `0` exactly without impressions, else total clicks over total impressions in percent |
| SuperDashboard.OverallCtrBounded | app/analytics/components/super.tsx:92-94 | the overall CTR lies in [0, 100] when no row has more clicks than impressions |
| SuperDashboard.SummaryRowLines | app/analytics/components/super.tsx:99-101 | one CSV line per row, in order |
| SuperDashboard.SummaryCsvLines | app/analytics/components/super.tsx:96-102 | read back line by line, the export is the header followed by one line per row |
| SuperDashboard.SummaryLineFields | app/analytics/components/super.tsx:99-101 | a line without commas in its names splits into its four fields and the counts read back |
| ReportDashboard.Received | app/analytics/components/staff.tsx:46-54 | the row the browser holds keeps every field and carries the timestamp as its ISO text |
| ReportDashboard.ReceivedAll | app/analytics/components/staff.tsx:46-54 | one received row per server row, in order |
| ReportDashboard.AfterFetch | app/analytics/components/staff.tsx:46-54 | without a request or while pending the spinner stays; a success shows the rows; a failure shows none |
| ReportDashboard.AdvertiserScreen | app/analytics/components/advertiser.tsx:40-56 | the advertiser dashboard spins forever when the session has no company; with one it shows the outcome of its reports request |
| ReportDashboard.StaffScreen | app/analytics/components/staff.tsx:46-54 | the staff dashboard spins until there is a session; then it shows the outcome of its reports request |
| ReportDashboard.StatsOf | app/analytics/components/advertiser.tsx:59-62 | impressions are the number of rows, views and clicks the rows' sums; the CTR is the text `0` exactly without views, else clicks over views in percent |
| ReportDashboard.ServerRowsStats | app/analytics/components/advertiser.tsx:59-62 | on rows the report endpoint built, views equal impressions, clicks do not exceed views, and the CTR lies in [0, 100] |
| ReportDashboard.ViewsCountRows | app/analytics/components/advertiser.tsx:60 | when every row is one view the views add up to the number of rows |
| ReportDashboard.FailureShowsZeros | app/analytics/components/advertiser.tsx:40-62 | a failed request shows zero figures and the `0` CTR |
| ReportDashboard.RowLines | app/analytics/components/advertiser.tsx:67-78 | one CSV line per row, in order |
| ReportDashboard.ReportCsvLines | app/analytics/components/advertiser.tsx:64-79 | read back line by line, the export is the header followed by one line per row, because the quoted question holds no raw line break |
| ReportDashboard.ReportLineFields | app/analytics/components/advertiser.tsx:67-78 | a line without commas splits into its eight fields, and the quoted question reads back as the question |
| StaffDashboard.Options | app/analytics/components/staff.tsx:43-44 | `all` first, then each company (or category) of the rows exactly once |
| StaffDashboard.OptionsDistinct | app/analytics/components/staff.tsx:43-44 | when no row names `all`, no option appears twice |
| StaffDashboard.FilteredData | app/analytics/components/staff.tsx:57-61 | the table keeps its order and holds exactly the rows passing both filters |
| StaffDashboard.AllShowsEverything | app/analytics/components/staff.tsx:57-67 | with both filters on `all` the table and the cards cover every row |
| StaffDashboard.CompanyFilterCount | app/analytics/components/staff.tsx:57-64 | choosing a company shows as many rows as that company has |
| StaffDashboard.CompaniesPartitionRows | app/analytics/components/staff.tsx:43-64 | when no company is named `all`, the per-company counts over the options add up to all impressions |
| Csv.SplitJoin | app/analytics/components/staff.tsx:83-84 | splitting a join gives the parts back when no part holds the separator |
| Csv.ParseNatToString | app/analytics/components/staff.tsx:79-80 | `String(n)` of a counter reads back as `n` |
| Csv.JsonRoundTrip | app/analytics/components/staff.tsx:77 | `JSON.parse(JSON.stringify(q))` is `q` for a question `q` |
| Csv.JsonQuote | app/analytics/components/staff.tsx:77 | the quoted question starts and ends with a quote and holds no raw line break |
| Common.ToLower | app/api/ads/route.ts:27 | lower-casing keeps the length and maps each ASCII capital to its small letter |
| Common.Filter | app/analytics/components/staff.tsx:57-61 | `filter` keeps only elements of the list that satisfy the test |
| Common.FilterExactly | app/analytics/components/staff.tsx:57-61 | `filter` keeps the order and is exactly the elements satisfying the test |
| Common.PercentOrZero | app/analytics/components/staff.tsx:67 | the text `0` exactly for a zero total, else part over total in percent, in [0, 100] for a part within the total |
| Entities.StatusName | app/analytics/components/campaign-management/advertiser-campaigns.tsx:90-91 | no status is spelt `all`, so the status filter's `all` never names a status |

## Left out

- Persistence: the Prisma store is a pair of tables (impressions by id, metrics by `(adId, date)`) and sequences of ads, campaigns and categories, read in the order the database returns them.
- Concurrency: `Promise.all` and interleaved requests are not modelled; each request runs alone over a snapshot.
- The two-second wait on the `POST` fallback path of app/api/ads/route.ts:269-270, between creating the impression and answering, is timing and is not modelled; so is every loading spinner beyond the dashboards' own screens.
- `Math.random()` is a parameter `roll` in [0, 1); the clock is the parameters `now` and today's midnight. The 30-day window is midnight 30 days earlier, ignoring daylight-saving shifts of `setDate`.
- Floating point: scores, CTRs and amounts are exact reals. `toFixed(2)` is left out, and a CTR is kept as its exact percentage.
- `toLowerCase` and `trim` act on ASCII letters and ASCII white space only; no Unicode case mapping or normalisation.
- `Number`, `parseFloat`, `new Date(s)`, `Date.toJSON`, `String(n)` of a real, `Intl.NumberFormat` and `toLocaleDateString` are function parameters. Their results are not modelled beyond what the parameters return.
- HTTP, session retrieval and the network: the session is an `Option<User>` parameter; the outcome of each client request (`PATCH`, `PUT`, `POST`, the dashboard fetches) is a parameter. The 500 responses of the `catch` blocks are not modelled.
- Store-chosen identifiers: a new impression's id is a parameter required to be unused.
- Dialog open/close flags, `isSaving`, tab and snackbar state, and all rendering are not modelled.
- CSV download (`Blob`, object URL, anchor click) and the JSON export are not modelled; the CSV text itself is.
- The super dashboard's `viewMode` and `chartType` only choose a rendering and are not modelled.
- AdSelection.HighestScoring: the stable descending `sort` is modelled by its head only, the first index attaining the maximum score, which is all the route reads.
- Reports.SortByDay: the library sort of the daily report is modelled by an insertion sort on values, specified as sorted and a permutation; the in-place order of equal keys is not modelled, as keys are distinct.
- StaffDashboard.OptionsDistinct: a company or category literally named `all` would appear twice in the options; the lemma assumes none does, as the source does implicitly.
- Reports.AdvertiserWithoutCompanyUnrestricted: an advertiser whose session has no company gets every impression from the row report. The model keeps this behaviour of the code and states it, without judging it.
- CampaignEdit.LoadThenSubmitAmounts: holds only for a formatter and parser that read each other back, which `String` and `parseFloat` do on finite numbers outside the model.
- CampaignCard.ArchivedIsTerminal: archived is final only for the card's buttons. The edit dialog offers `active` for an archived campaign (`CampaignEdit.ArchivedCanBeReactivated`), and the single-campaign `PUT` route stores whatever status it is sent. That route is not part of this model, so the model does not follow the un-archived status into the store.
- Scoring.BudgetScoreFacts: budget, spend cap and spend are plain numbers, so a zero budget or spend cap is falsy and gives the signal 1. If the store hands them back as decimal objects, which are always truthy, a zero budget would give 0/0 instead; that representation is not modelled.
- Reports.Summary: a group's key is the pair of company and category ids, where the source joins them into the string `companyId|categoryId`. The two differ only for ids holding `|`, which could make two different pairs collide in the source.
- Utils.Substring and Utils.TruncateText: lengths and cut positions count characters, where JavaScript's `length` and `substring` count UTF-16 code units. Text outside the Basic Multilingual Plane (an emoji, say) is measured differently, and the model never splits a surrogate pair as the source can.
- Serving.Serve: the selection reads a snapshot of ads, metrics and impressions passed beside the ledger, and the model does not tie that snapshot to the ledger's tables.
- The advertiser view's categories request (advertiser-campaigns.tsx:68-70) fills the category filter's options and, through advertiser-campaigns.tsx:298, the edit dialog's category select (campaign-edit-dialog.tsx:217-221). Neither list is modelled for the advertiser view, so the model does not follow which categories the advertiser can choose from.
- app/api/auth, the companies, single-campaign and campaign-status routes, the navbar, the banner component, the analytics page and the seed script are not part of this model.
