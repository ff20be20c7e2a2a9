# Charity compliance tracker — a Dafny model of the record pipeline

The charity compliance tracker gathers regulatory material that concerns charities in England
and Wales. This includes Charity Commission inquiry reports and guidance, ICO enforcement
notices, OFSI sanctions entries, HSE and HMRC guidance pages, curated guidance lists and the
Fundraising Regulator's code. Each source has an *adapter* that downloads raw items and
normalizes them into one common record shape, `NormalizedRecord`. The orchestrator runs the
adapters, merges their records into the existing dataset by id and saves the result sorted
newest first. Maintenance passes then:

- remove duplicate URLs;
- patch placeholder dates;
- enrich rows from the Charity Commission register API;
- summarise the dataset into analytics counters.

The model has one Dafny module per source file, plus shared modules:

- `Wrappers`: `Option`/`Result`.
- `Text`: the ASCII string operations.
- `Collections`: first-occurrence de-duplication and `Counter` tallies.
- `Scan`: leftmost regex search for the linear patterns the scrapers use.
- `Dates`: `strptime`/`strftime` for the formats used.
- `Slug`: the `[^a-z0-9]+` slug rule.
- `Keywords`: the `[a-z]{4,}` keyword lists.
- `Phrases`: phrase look-ups.
- `CsvTable`: `DictReader`/`DictWriter` rows.
- `DescribedPages`: the page shape shared by HSE and HMRC.
- `Curated`: what the five curated-resource adapters share.

The code takes three forms:

- Pure Python helpers are functions.
- Python loops are methods with loop invariants, proved against those functions.
- The dataset passes are methods over sequences of rows.

HTTP responses, HTML selector results, the clock and float formatting are parameters of the model.

## Model

| member | source | states |
|---|---|---|
| AdapterBase.NewSourceMetadata | python-scripts/adapters/base.py:20-28 | a new source description keeps the four given fields, has no last-fetched time and a record count of 0 |
| AdapterBase.Flat | python-scripts/adapters/base.py:74-80 | `value or ''`: empty exactly when the value is missing or empty, the value itself otherwise |
| AdapterBase.JoinedList | python-scripts/adapters/base.py:81-85 | a missing or empty list gives `''`; a non-empty one gives its join with the pipe character as separator |
| AdapterBase.Amount | python-scripts/adapters/base.py:84 | a missing or zero fine gives `''`; any other fine is shown by `str` |
| AdapterBase.ToCsvRow | python-scripts/adapters/base.py:62-87 | the row has exactly the 21 CSV column keys; `full_text` is never written |
| AdapterBase.ToCsvRowIdentity | python-scripts/adapters/base.py:65-68 | id, title, summary and source URL are copied unchanged |
| AdapterBase.ToCsvRowDates | python-scripts/adapters/base.py:69-70 | both dates are copied unchanged |
| AdapterBase.ToCsvRowClassification | python-scripts/adapters/base.py:71-73 | regulator, domain and document type are copied unchanged |
| AdapterBase.ToCsvRowCharity | python-scripts/adapters/base.py:74-77 | charity number, name, income band and risk level become `''` when missing and are copied otherwise |
| AdapterBase.ToCsvRowCase | python-scripts/adapters/base.py:78-83 | case id, status, outcome, sanctions regime and designation become `''` when missing and are copied otherwise |
| AdapterBase.ToCsvRowLists | python-scripts/adapters/base.py:81-85 | issues and keywords are joined with the pipe character when non-empty, else `''`; the fine is shown only when non-zero |
| AdapterBase.KeywordsRoundTrip | python-scripts/adapters/base.py:85 | splitting a non-empty keyword cell on the pipe character gives the record's keywords back when no keyword holds one |
| AdapterBase.SplitJoin | python-scripts/adapters/base.py:81-85 | `split` on the separator inverts `join` for a non-empty list of parts without the separator |
| AdapterBase.FetchAndNormalize | python-scripts/adapters/base.py:142-161 | a failed download is reported with its own error and nothing else happens; otherwise the outcome is that of normalizing the download |
| AdapterBase.FailedDownloadSkipsNormalize | python-scripts/adapters/base.py:150-161 | after a failed download the outcome does not depend on `normalize`, which is never called |
| AdapterBase.NormalizeEach | python-scripts/adapters/fundraising_regulator.py:63-87 | the append loop of every `normalize` makes one record per item, each the item's own record, in order |
| AdapterBase.Kept | python-scripts/adapters/hse.py:53-60 | what a skip-on-failure loop keeps: no more values than items, each one yielded by some item, and one per item when none fails |
| AdapterBase.KeepEach | python-scripts/adapters/hse.py:53-60 | the loop that appends every value an item yields, skipping the others, collects exactly `Kept` |
| AdapterBase.YieldedValues | python-scripts/adapters/charity_guidance.py:56-70 | a value is in the collected set exactly when some item yields it |
| Wrappers.FirstOf | python-scripts/adapters/charity_commission.py:155-199 | a chain of fallbacks gives nothing exactly when every step gives nothing; otherwise it gives the value of a step all of whose predecessors gave nothing |
| Wrappers.FirstOfAt | python-scripts/adapters/charity_commission.py:155-199 | the first step that gives a value decides the result of the chain |
| Collections.Dedup | python-scripts/adapters/charity_guidance.py:285-296 | the `seen`/`unique` idiom: no repeats, the same elements as the input, and no longer than it |
| Collections.DedupPrefix | python-scripts/adapters/charity_guidance.py:289-295 | de-duplicating a prefix gives a prefix of the de-duplicated whole, which is why a loop that stops early keeps the first distinct items |
| Collections.Tally | python-scripts/build_analytics.py:78-90 | `Counter`: the keys are exactly the items seen, each counted with its number of occurrences, never 0 |
| Collections.TallySnoc | python-scripts/build_analytics.py:96-150 | `counter[x] += 1` on one more item adds one to its count, starting from 0 when it is new |
| Collections.TallyTotal | python-scripts/build_analytics.py:131-133 | a tally neither loses nor invents an item: its counts add up to the number of items counted |
| Collections.SumCountsTotal | python-scripts/build_analytics.py:131-133 | the counts of a list of distinct keys covering every item add up to the number of items |
| Text.Lower | python-scripts/adapters/charity_guidance.py:231 | `lower()` keeps the length and maps each ASCII character to its lower case |
| Text.Upper | python-scripts/adapters/ofsi.py:148-154 | `upper()` keeps the length and maps each ASCII character to its upper case |
| Text.RemoveChar | python-scripts/adapters/ico.py:121-177 | `replace(c, '')` leaves no `c`, adds nothing and is no longer than the input |
| Text.RemoveCharAbsent | python-scripts/adapters/ico.py:175-177 | removing a character the text does not hold leaves the text unchanged |
| Text.SplitOn | python-scripts/adapters/charity_commission.py:178-179 | `split(sep)` always gives at least one piece |
| Text.Words | python-scripts/adapters/charity_commission.py:402-419 | `split()` gives non-empty words only |
| Text.WordsOfBlank | python-scripts/adapters/charity_commission.py:402-419 | an all-blank text splits into no words |
| Text.WordsOfWord | python-scripts/adapters/charity_commission.py:402-419 | a non-empty text without blanks is its own single word |
| Text.WordsSplit | python-scripts/adapters/charity_commission.py:412-413 | splitting at a blank: the words of `a + c + b` are the words of `a` followed by those of `b` |
| Text.Runs | python-scripts/build_analytics.py:55 | there is at least one piece, and the pieces between characters outside a class lie inside the class |
| Text.RunsOfClass | python-scripts/build_analytics.py:55 | text wholly inside the class is one piece, itself |
| Text.RunsSplit | python-scripts/build_analytics.py:55 | cutting at a character outside the class: the pieces of `a + c + b` are those of `a` followed by those of `b` |
| Text.StrLessTransitive | python-scripts/run_charity_update.py:106-134 | Python's string `<` is transitive, so sorting by date strings is well defined |
| Text.StrLessTotal | python-scripts/run_charity_update.py:127-134 | any two different strings are ordered one way or the other |
| Text.StrLessAsymmetric | python-scripts/run_charity_update.py:127-134 | string `<` never holds both ways |
| Text.StrLessAppend | python-scripts/build_analytics.py:161-168 | comparing two strings whose first parts have equal length compares those parts first, then the rest |
| Text.SplitOnFirstPiece | python-scripts/adapters/charity_commission.py:178-179 | the first piece of `split(c)` holds no `c` |
| Scan.RunLen | python-scripts/adapters/charity_commission.py:248-254 | a greedy repetition takes only characters of its class, at most its bound, and stops only at the end, at a character outside the class, or at the bound |
| Scan.SearchFrom | python-scripts/adapters/charity_commission.py:169-195 | `re.search` finds the leftmost position with a match, and none when no position from the start on matches |
| Scan.Search | python-scripts/adapters/hse.py:103 | the capture group of the leftmost match; nothing exactly when the pattern matches nowhere |
| Scan.RunGroupFound | python-scripts/adapters/charity_commission.py:248-254 | a group of one bounded repetition reports a run of that class whose length lies within the bounds, e.g. six or seven digits for a charity number |
| Slug.SlugIsShaped | python-scripts/adapters/charity_guidance.py:231 | a slug has only `[a-z0-9-]`, no leading `'-'`, no `'--'`, and at most 60 characters |
| Slug.SlugId | python-scripts/adapters/hse.py:137-138 | the id is the prefix plus the slug, or the prefix plus the clock reading exactly when the slug is empty |
| Slug.CollapseIsClean | python-scripts/adapters/charity_guidance.py:231 | replacing each run of other characters by `'-'` leaves only slug characters and single dashes |
| Slug.CollapseSpaced | python-scripts/adapters/charity_guidance.py:231 | words separated by runs of other characters collapse to the words joined by `'-'` |
| Slug.SlugBeginsWithWords | python-scripts/adapters/charity_guidance.py:231 | a title that starts with separated words has a slug that starts with those words dash-joined |
| Slug.SlugsDiffer | python-scripts/adapters/charity_guidance.py:231-232 | titles whose slugs start with texts differing at some position get different slugs, so different ids |
| Dates.Strptime | python-scripts/adapters/charity_commission.py:226-243 | any date `strptime` returns is a valid calendar date |
| Dates.ParseFirst | python-scripts/adapters/charity_commission.py:226-243 | trying formats in turn gives nothing exactly when every format fails; otherwise the first format that reads the text decides, and the result is `YYYY-MM-DD` |
| Dates.ParseHuman | python-scripts/adapters/hse.py:110-118 | the stripped text read as `%d %B %Y`, else as `%d %b %Y`, else nothing; a result is `YYYY-MM-DD` |
| Dates.StrptimeRoundTrip | python-scripts/adapters/charity_commission.py:226-243 | each format the adapters use reads back the date whose text `strftime` writes with it (`%B %Y` the first of the month) |
| Dates.IsoMatch | python-scripts/adapters/ico.py:160-163 | `%Y-%m-%d` reads the date back from its own text, and fails when anything follows the text |
| Dates.NumericMatch | python-scripts/adapters/ofsi.py:183-186 | `%d/%m/%Y` and `%d-%m-%Y` read the date back from their own text, and fail when anything follows it |
| Dates.NamedMatch | python-scripts/adapters/charity_commission.py:236-239 | `%d %B %Y` and `%d %b %Y` read the date back from the text with the month's name or abbreviation, and fail when anything follows it |
| Dates.MonthYearMatch | python-scripts/adapters/charity_commission.py:236-239 | `%B %Y` reads back the year and month of its own text with day 1, and fails when anything follows it |
| Dates.FourDigitsOrder | python-scripts/build_analytics.py:113 | below 10000, zero-padded four-digit texts sort as the numbers they write and are equal exactly when the numbers are |
| Dates.TwoDigitsOrder | python-scripts/build_analytics.py:113 | below 100, zero-padded two-digit texts sort as the numbers they write and are equal exactly when the numbers are |
| Dates.TrailingTextFails | python-scripts/adapters/charity_commission.py:226-243 | the whole input must match: the same texts followed by anything more are rejected |
| Dates.IsoShapedStarts | python-scripts/fix_dates.py:69-71 | a `YYYY-MM-DD` text satisfies the `\d{4}-\d{2}-\d{2}` prefix check |
| Dates.DatePart | python-scripts/adapters/ico.py:121-123 | the date part of an id has no dashes and at most ten characters |
| Dates.DatePartOfIso | python-scripts/adapters/ico.py:121-123 | a `YYYY-MM-DD` date gives exactly eight digits |
| Keywords.Tokens | python-scripts/adapters/charity_guidance.py:287 | `re.findall(r"[a-z]{4,}")` gives only words of at least four lower-case letters; a text of lower-case letters only is one token when it has four or more, none otherwise |
| Keywords.TokensSplit | python-scripts/adapters/charity_guidance.py:287 | cutting at a character that is no lower-case letter: the tokens of `a + c + b` are those of `a` followed by those of `b` |
| Keywords.KeywordsOf | python-scripts/adapters/charity_guidance.py:285-296 | at most `cap` distinct tokens of the text, in first-seen order (a prefix of the de-duplicated tokens), and every token when there are no more than `cap` distinct ones |
| Keywords.CapReached | python-scripts/adapters/charity_guidance.py:294-295 | once `cap` distinct tokens are collected they are the first `cap` distinct tokens of the whole text, so the early `break` loses nothing |
| Keywords.KeepIfUnseen | python-scripts/adapters/charity_guidance.py:291-293 | a token not seen before is appended and remembered; `seen` and `unique` keep holding the same words |
| Keywords.FirstDistinct | python-scripts/adapters/charity_guidance.py:289-295 | the `seen`/`unique` loop with its `break` returns the first `cap` distinct tokens |
| Keywords.BuildKeywords | python-scripts/adapters/charity_guidance.py:285-296 | `_build_keywords` returns exactly `KeywordsOf` the lower-cased text |
| Phrases.Tags | python-scripts/adapters/charity_commission.py:270-335 | the `if any_kw(...): append(tag)` chain: a rule's tag is present exactly when one of its phrases occurs, and tags keep rule order |
| Phrases.TagsOr | python-scripts/adapters/charity_commission.py:270-335 | as `Tags`, except that the fallback tag appears alone exactly when no rule applies; no tag repeats |
| Phrases.OrderedTagsDistinct | python-scripts/adapters/charity_commission.py:270-335 | tags listed in rule order are pairwise different |
| Phrases.FirstFound | python-scripts/adapters/charity_guidance.py:254-283 | nothing exactly when no key occurs; otherwise the value of the entry at the first index whose key occurs, no earlier key occurring |
| CsvTable.FirstMisfit | python-scripts/fix_dates.py:92-95 | `DictWriter` writes the rows before the first row holding a key outside the header and fails on that one |
| CsvTable.AsWritten | python-scripts/fix_dates.py:92-95 | a written and re-read row has exactly the header fields, `''` where the row had no value |
| CsvTable.AsWrittenExact | python-scripts/fix_dates.py:92-95 | a row whose keys are exactly the header fields reads back unchanged |
| CsvTable.FirstMisfitAll | python-scripts/fix_dates.py:92-95 | when every row fits the header, every row is written |
| DescribedPages.SummaryText | python-scripts/adapters/hse.py:77-84 | the stripped meta description when non-empty, else the first paragraph, else the adapter's fallback |
| DescribedPages.PageItem | python-scripts/adapters/hse.py:68-98 | the staged item holds the URL, the heading or default title, the summary cut to 600 and the main text cut to 8000; it holds a date exactly when one was found |
| Curated.AsItem | python-scripts/adapters/financial_reporting.py:77-84 | a staged resource is read back with its five fields unchanged |
| Curated.Staged | python-scripts/adapters/financial_reporting.py:77-90 | `download_raw` and the read-back give one item per resource, in order |
| Curated.RegulatorOf | python-scripts/adapters/safeguarding.py:102 | a fixed regulator ignores the item; otherwise the item's regulator, or the adapter's default when the item has none |
| Curated.NormalizeItem | python-scripts/adapters/financial_reporting.py:93-114 | a guidance record with the item's title, summary and URL, id = prefix + slug (never a timestamp), dated by the item or `2023-01-01` only when the key is absent, published = last updated, keywords from title and summary capped at 20 |
| Curated.NormalizedKeywords | python-scripts/adapters/financial_reporting.py:119-130 | a curated record has at most 20 keywords and none repeats |
| Curated.Normalize | python-scripts/adapters/financial_reporting.py:92-117 | one record per raw item, in order |
| Curated.StagedRecord | python-scripts/adapters/financial_reporting.py:77-114 | a staged resource's record carries its own title, summary, URL and date (the default never applies) and its regulator unless the adapter fixes one |
| Curated.StagedRecords | python-scripts/adapters/financial_reporting.py:77-114 | every staged resource's record is as `StagedRecord` says |
| Curated.StagedIdsDistinct | python-scripts/adapters/financial_reporting.py:97-98 | resources whose titles have pairwise different slugs get pairwise different ids |
| FinancialReporting.Normalize | python-scripts/adapters/financial_reporting.py:86-117 | one `FINANCE_` `financial_reporting` guidance record per item, in order, regulator defaulting to `CC` |
| FinancialReporting.ResourceSlugsDistinct | python-scripts/adapters/financial_reporting.py:24-67 | the six resource titles have pairwise different slugs |
| FinancialReporting.ResourceIdsDistinct | python-scripts/adapters/financial_reporting.py:24-98 | the six staged resources give records with pairwise different ids |
| AntiFraud.Normalize | python-scripts/adapters/anti_fraud.py:79-110 | one `FRAUD_` `anti_fraud` guidance record per item, in order, regulator defaulting to `CC` |
| AntiFraud.ResourceSlugsDistinct | python-scripts/adapters/anti_fraud.py:24-60 | the five resource titles have pairwise different slugs |
| AntiFraud.ResourceIdsDistinct | python-scripts/adapters/anti_fraud.py:24-91 | the five staged resources give records with pairwise different ids |
| Safeguarding.Normalize | python-scripts/adapters/safeguarding.py:79-110 | one `SAFEGUARDING_` `safeguarding` guidance record per item, in order, always regulated by `CC` whatever the item says |
| Safeguarding.ResourceSlugsDistinct | python-scripts/adapters/safeguarding.py:24-60 | the five resource titles have pairwise different slugs |
| Safeguarding.ResourceIdsDistinct | python-scripts/adapters/safeguarding.py:24-91 | the five staged resources give records with pairwise different ids |
| DataProtection.Normalize | python-scripts/adapters/data_protection.py:79-110 | one `GDPR_` `gdpr` guidance record per item, in order, regulator defaulting to `ICO` |
| DataProtection.ResourceSlugsDistinct | python-scripts/adapters/data_protection.py:24-60 | the five resource titles have pairwise different slugs |
| DataProtection.ResourceIdsDistinct | python-scripts/adapters/data_protection.py:24-91 | the five staged resources give records with pairwise different ids |
| RiskManagement.Normalize | python-scripts/adapters/risk_management.py:79-110 | one `RISK_` `risk_management` guidance record per item, in order, regulator defaulting to `CC` |
| RiskManagement.ResourceSlugsDistinct | python-scripts/adapters/risk_management.py:24-60 | the five resource titles have pairwise different slugs |
| RiskManagement.ResourceIdsDistinct | python-scripts/adapters/risk_management.py:24-91 | the five staged resources give records with pairwise different ids |
| FundraisingRegulator.NormalizeItem | python-scripts/adapters/fundraising_regulator.py:63-87 | a `risk_management` guidance record of `FR`, dated by the item or by today when the date is missing or empty, published = last updated, with the fixed four keywords |
| FundraisingRegulator.Normalize | python-scripts/adapters/fundraising_regulator.py:57-90 | one record per item, in order |
| FundraisingRegulator.CodeSlug | python-scripts/adapters/fundraising_regulator.py:71 | the Code's title slugs to `code-of-fundraising-practice` |
| FundraisingRegulator.StagedCodeRecord | python-scripts/adapters/fundraising_regulator.py:38-87 | the staged items are the Code alone, whose record is `FR_guidance_code-of-fundraising-practice`, dated 2019-10-01 whatever the day, pointing at the Code's PDF |
| Hse.LastUpdatedIn | python-scripts/adapters/hse.py:100-108 | only the first `<day> <word> <year>` text is tried; no such text or a failed parse gives no date, whatever later text says; a date is `YYYY-MM-DD` |
| Hse.PageItem | python-scripts/adapters/hse.py:68-98 | the page's item is titled `HSE guidance` when it has no heading, summary ≤ 600, text ≤ 8000, and holds the date exactly when `LastUpdatedIn` finds one |
| Hse.DownloadRaw | python-scripts/adapters/hse.py:48-66 | the pages in list order, each failed page skipped: at most one item per page, and one for each when none fails |
| Hse.NormalizeItem | python-scripts/adapters/hse.py:127-158 | a `health_safety` guidance record of `HSE`, dated by the item or the `1970-01-01` placeholder, published = last updated, slug id with a timestamp only when the slug is empty, ≤ 25 distinct keywords from title, summary and the first 500 text characters |
| Hse.PageRecordDated | python-scripts/adapters/hse.py:100-135 | a fetched page's record is always dated `YYYY-MM-DD`, and with the placeholder when the page gave no date |
| Hse.Normalize | python-scripts/adapters/hse.py:120-158 | one record per raw item, in order |
| Hmrc.LastUpdatedIn | python-scripts/adapters/hmrc.py:90-99 | only the first `<day> <word> <year>` text is tried, and only as `%d %B %Y`; anything else gives no date |
| Hmrc.PageItem | python-scripts/adapters/hmrc.py:59-88 | the page's item is titled `HMRC charities guidance` when it has no heading and summarised by the fixed HMRC sentence when it has neither description nor paragraph; it holds the date exactly when `LastUpdatedIn` finds one |
| Hmrc.DownloadRaw | python-scripts/adapters/hmrc.py:39-57 | the pages in list order, a failed page skipped |
| Hmrc.NormalizeItem | python-scripts/adapters/hmrc.py:108-133 | a `financial_reporting` guidance record of `HMRC`, dated by the item or by today, published = last updated, slug id, ≤ 25 distinct keywords |
| Hmrc.UndatedPageIsDatedToday | python-scripts/adapters/hmrc.py:90-113 | a page without a `%d %B %Y` date gives a record dated with the run's day, not a placeholder; otherwise the page's date |
| Hmrc.Normalize | python-scripts/adapters/hmrc.py:101-136 | one record per raw item, in order |
| CharityCommission.KnownDatesAreIso | python-scripts/adapters/charity_commission.py:21-43 | every hard-coded publication date is a `YYYY-MM-DD` date |
| CharityCommission.InquiryLink | python-scripts/adapters/charity_commission.py:84-91 | an anchor is kept exactly when its href contains `/government/publications/` and, lower-cased, `inquiry`; a relative href is prefixed with the site's base URL, so every kept link is absolute |
| CharityCommission.InquiryLinks | python-scripts/adapters/charity_commission.py:84-91 | a page gives no more links than anchors, all absolute |
| CharityCommission.CrawlFrom | python-scripts/adapters/charity_commission.py:92-114 | the last page requested by the crawl from page `n` lies between `n` and 25 |
| CharityCommission.CrawlStep | python-scripts/adapters/charity_commission.py:94-114 | a 404 or a page without inquiry links ends the crawl with what was collected; any other failing request aborts it; a page with links and no `rel=next`, or page 25, ends it after its links; otherwise its links come first and the crawl goes on to the next page |
| CharityCommission.VisitPage | python-scripts/adapters/charity_commission.py:95-114 | one pass of the pagination loop: either the crawl ends with exactly what the whole crawl collects, or the collected links grow by the page's links and the rest of the crawl is still to come |
| CharityCommission.CollectReportLinks | python-scripts/adapters/charity_commission.py:92-114 | the pagination loop collects exactly the crawl's links (or its error) and requests between 1 and 25 pages |
| CharityCommission.CrawlStopsAtLimit | python-scripts/adapters/charity_commission.py:111-114 | when every page lists inquiries and links onwards, the crawl stops at page 25 without error |
| CharityCommission.CrawlLinksAreAbsolute | python-scripts/adapters/charity_commission.py:89-106 | every collected link is absolute |
| CharityCommission.ParseDate | python-scripts/adapters/charity_commission.py:226-243 | empty text gives nothing; text starting with `YYYY-MM-DD` gives its first ten characters; otherwise the first of `%d %B %Y`, `%d %b %Y`, `%B %Y` that reads the stripped text decides; a result is always `YYYY-MM-DD` |
| CharityCommission.ParseDateIdempotent | python-scripts/adapters/charity_commission.py:226-243 | a date the parser produced parses back to itself |
| CharityCommission.FromMeta | python-scripts/adapters/charity_commission.py:174-180 | method 3 gives a date only when the content, cut at its first `T` (so holding no `T`), starts with `YYYY-MM-DD` |
| CharityCommission.PublishedDateIsDated | python-scripts/adapters/charity_commission.py:150-199 | whichever of the known date or the five methods supplies it, a publication date starts with `YYYY-MM-DD` |
| CharityCommission.BlocksDateIsIso | python-scripts/adapters/charity_commission.py:183-190 | method 4's date is a `YYYY-MM-DD` date |
| CharityCommission.ScanBlocks | python-scripts/adapters/charity_commission.py:183-190 | the loop over `p`/`div` blocks stops at the first block mentioning `published` next to a date, parsed or not, exactly as `FromBlocks` says |
| CharityCommission.ScrapePublishedDate | python-scripts/adapters/charity_commission.py:150-199 | the date chain gives the known date of the URL, else the date of the first of the five methods that finds one |
| CharityCommission.KnownDateWins | python-scripts/adapters/charity_commission.py:150-151 | a URL with a hard-coded date takes that date whatever the page says |
| CharityCommission.CharityNumber | python-scripts/adapters/charity_commission.py:245-258 | the labelled 6-or-7-digit number when one is found, else the 7 digits after `registered`, else nothing; a number is 6 or 7 digits |
| CharityCommission.AfterColon | python-scripts/adapters/charity_commission.py:264 | `split(':', 1)[1]` is the text after the first colon |
| CharityCommission.DropConcluding | python-scripts/adapters/charity_commission.py:266 | the suffix substitution keeps a prefix of the name: all of it when the pattern matches nowhere, else the text before the leftmost match |
| CharityCommission.CharityName | python-scripts/adapters/charity_commission.py:260-268 | a name exactly when the title has a colon: the stripped text after the first colon with a trailing "- conclud..." cut off |
| CharityCommission.CharityNameIsPrefix | python-scripts/adapters/charity_commission.py:263-267 | the name is a prefix of the stripped text after the colon |
| CharityCommission.Issues | python-scripts/adapters/charity_commission.py:270-335 | an issue tag is listed exactly when one of its phrases occurs in the lower-cased title, summary and body; `governance` appears, and alone, exactly when none does; tags appear once each, in checking order |
| CharityCommission.IssuesLead | python-scripts/adapters/charity_commission.py:270-335 | the first issue is an issue tag, or `governance` exactly when it is the only one |
| CharityCommission.OutcomeLabels | python-scripts/adapters/charity_commission.py:337-354 | an outcome label is listed exactly when one of its phrases occurs in the lower-cased body, in checking order |
| CharityCommission.Outcome | python-scripts/adapters/charity_commission.py:337-355 | nothing exactly when no label applies; otherwise the labels joined with `', '` |
| CharityCommission.ReportOf | python-scripts/adapters/charity_commission.py:138-224 | the report holds the heading or `Unknown`, the lead paragraph cut to 500, the body cut to 5000, the scraped date and the number, name, issues and outcome found in the whole texts |
| CharityCommission.FetchReportPage | python-scripts/adapters/charity_commission.py:138-224 | reading a downloaded page gives `ReportOf` it |
| CharityCommission.DownloadReports | python-scripts/adapters/charity_commission.py:73-136 | a failing collection page aborts with its error; otherwise the reports of the crawled links, in link order, each failed page skipped |
| CharityCommission.PublishedOrPlaceholder | python-scripts/adapters/charity_commission.py:373 | the report's date when present and non-empty, else `1970-01-01` |
| CharityCommission.LongWords | python-scripts/adapters/charity_commission.py:411-412 | only words of the name longer than three characters are kept |
| CharityCommission.GenerateKeywords | python-scripts/adapters/charity_commission.py:402-418 | at most 20 different words, each an issue, a name word of more than three characters or an outcome part, and all of them when there are no more than 20 |
| CharityCommission.NormalizeReport | python-scripts/adapters/charity_commission.py:365-398 | a `CC` concluded case record dated by the report or `1970-01-01`, id `CC_case_<number>_<date digits>`, filed under the first issue (`governance` when there is none), with the report's title, URL, number, name, outcome and issues, summary ≤ 500, and the keywords `_generate_keywords` gives the report |
| CharityCommission.Normalize | python-scripts/adapters/charity_commission.py:357-400 | one record per stored report, in order |
| CharityCommission.CaseIdsDiffer | python-scripts/adapters/charity_commission.py:375-379 | two case records share an id only when their reports have the same charity number (or both none) and the same date digits |
| CharityCommission.ScrapedDomain | python-scripts/adapters/charity_commission.py:211-368 | a scraped report is filed under an issue tag, and under `governance` exactly when no issue phrase occurred |
| CharityCommission.FiledUnderFirstIssue | python-scripts/adapters/charity_commission.py:367-368 | a report with issues is filed under its first issue |
| CharityGuidance.KnownDatesAreIso | python-scripts/adapters/charity_guidance.py:26-33 | every hard-coded guidance date is a `YYYY-MM-DD` date |
| CharityGuidance.GuidanceLink | python-scripts/adapters/charity_guidance.py:57-70 | an anchor is kept exactly when its href is non-empty, not in-page, not `mailto:`/`tel:`, names a guidance or publication page and contains `charity`; a relative href is made absolute |
| CharityGuidance.Insert | python-scripts/adapters/charity_guidance.py:70-75 | adding a link to the sorted set keeps it strictly sorted and adds exactly that link |
| CharityGuidance.CollectGuidanceLinks | python-scripts/adapters/charity_guidance.py:56-75 | the link loop and `sorted(links)` give, once each and in code-point order, exactly the links some anchor yields |
| CharityGuidance.MetasDated | python-scripts/adapters/charity_guidance.py:157-174 | a date from the meta tags starts with `YYYY-MM-DD` |
| CharityGuidance.BlocksDated | python-scripts/adapters/charity_guidance.py:176-190 | a date from the text blocks is a `YYYY-MM-DD` date |
| CharityGuidance.FirstStrategyDated | python-scripts/adapters/charity_guidance.py:126-201 | whichever method finds it, the first date found starts with `YYYY-MM-DD` |
| CharityGuidance.LastUpdated | python-scripts/adapters/charity_guidance.py:126-201 | nothing exactly when all five methods find nothing; otherwise the date of the first method that finds one; every date starts with `YYYY-MM-DD` |
| CharityGuidance.PageItem | python-scripts/adapters/charity_guidance.py:90-124 | the page's item: URL, heading or `Untitled guidance`, summary ≤ 600, text ≤ 8000; it holds a date exactly when the URL has a known date or the page gives one, and the known date wins |
| CharityGuidance.PageItemDated | python-scripts/adapters/charity_guidance.py:112-122 | whatever its source, a page's date starts with `YYYY-MM-DD` |
| CharityGuidance.DownloadRaw | python-scripts/adapters/charity_guidance.py:46-88 | the index's guidance links, sorted and once each, then one item per page fetched in that order, failed pages skipped |
| CharityGuidance.InferDomain | python-scripts/adapters/charity_guidance.py:254-283 | the domain of the first table keyword found in the title, summary and first 2000 body characters (no earlier keyword found), else `governance`; always one of the eight domains |
| CharityGuidance.DomainTableTargets | python-scripts/adapters/charity_guidance.py:257-277 | every table entry names one of the eight domains |
| CharityGuidance.ProtectionMeansSafeguarding | python-scripts/adapters/charity_guidance.py:257-281 | any text mentioning `protection` is filed under `safeguarding` |
| CharityGuidance.DataProtectionIsSafeguarding | python-scripts/adapters/charity_guidance.py:259-281 | the `data protection` entry never decides: such text is filed under `safeguarding`, not `gdpr` |
| CharityGuidance.NormalizeItem | python-scripts/adapters/charity_guidance.py:220-249 | a `CC` guidance record dated by the item or `1970-01-01`, published = last updated, slug id with a timestamp only when the slug is empty, an inferred domain, ≤ 25 distinct keywords from title, summary and the first 500 body characters |
| CharityGuidance.ScrapedRecordDated | python-scripts/adapters/charity_guidance.py:105-229 | a record made from a scraped page is dated `YYYY-MM-DD`: the page's date or the placeholder |
| CharityGuidance.KnownDateReachesRecord | python-scripts/adapters/charity_guidance.py:113-242 | a URL with a known date keeps it through to the record, whatever the page says |
| CharityGuidance.Normalize | python-scripts/adapters/charity_guidance.py:213-252 | one record per raw item, in order |
| Ico.Headers | python-scripts/adapters/ico.py:62 | one column name per cell of the first row, `th` or `td` |
| Ico.DataCells | python-scripts/adapters/ico.py:65 | the `td` cells of a row, in order |
| Ico.CaseUpTo | python-scripts/adapters/ico.py:69-78 | after `n` cells every header of a stored cell is a key; a table without column names gives an empty case |
| Ico.CaseHoldsCells | python-scripts/adapters/ico.py:70-78 | with distinct column names, each cell's text is stored under its own header and a linked cell's href under `<header>_url` |
| Ico.BuildCase | python-scripts/adapters/ico.py:69-78 | the cell loop stores exactly `CaseUpTo` all the cells |
| Ico.RowCase | python-scripts/adapters/ico.py:64-81 | a row gives no case exactly when it has fewer than three `td` cells or the table has no column names; otherwise its case |
| Ico.ScanRow | python-scripts/adapters/ico.py:65-81 | one pass of the row loop gives `RowCase` of that row |
| Ico.ScanTable | python-scripts/adapters/ico.py:61-81 | the row loop over a table with rows gives the cases of its data rows, in order |
| Ico.TableCases | python-scripts/adapters/ico.py:61-62 | a table fails exactly when it has no rows (`rows[0]` raises) |
| Ico.PageFailsOnEmptyTable | python-scripts/adapters/ico.py:58-62 | the scrape fails exactly when one of the page's tables has no rows |
| Ico.PageCasesStep | python-scripts/adapters/ico.py:60-81 | the page from table `k` on: that table's cases before the rest, or its error |
| Ico.DownloadRaw | python-scripts/adapters/ico.py:38-90 | a failed request is reported as is; otherwise the cases of every table in table order, or the error of the first table without rows |
| Ico.OrgName | python-scripts/adapters/ico.py:102-107 | the first non-empty of `organisation`, `name`, `company`, else `Unknown Organisation`; never empty |
| Ico.ActionType | python-scripts/adapters/ico.py:126 | the first non-empty of `type` and `action`, else `Enforcement action`; never empty |
| Ico.DateText | python-scripts/adapters/ico.py:114 | the first non-empty of `date` and `published`; nothing exactly when both are missing or empty |
| Ico.ParseDate | python-scripts/adapters/ico.py:154-167 | nothing for a missing or empty text; otherwise the first of `%d/%m/%Y`, `%d %B %Y`, `%Y-%m-%d`, `%B %Y` that reads the stripped text, as `YYYY-MM-DD` |
| Ico.FirstDigit | python-scripts/adapters/ico.py:175 | the leftmost match starts at the text's first digit |
| Ico.FineIn | python-scripts/adapters/ico.py:175-177 | an amount is found exactly when the text holds a digit, and is never negative |
| Ico.AmountAt | python-scripts/adapters/ico.py:175-177 | the amount read at a digit is never negative |
| Ico.WholeAmount | python-scripts/adapters/ico.py:175-177 | without pence an amount is its whole part with the commas dropped |
| Ico.UnseparatedFineIsCut | python-scripts/adapters/ico.py:175-177 | a run of digits without separators is cut after three digits: `'500000'` reads as a fine of 500 |
| Ico.SeparatedFineIsRead | python-scripts/adapters/ico.py:175-177 | with separators the whole amount is read: `'£500,000'` reads as 500000 |
| Ico.FineFrom | python-scripts/adapters/ico.py:171-178 | nothing exactly when no key is present with a digit in its text; otherwise the fine of the first such key, earlier keys being absent or without digits |
| Ico.ExtractFine | python-scripts/adapters/ico.py:169-178 | a fine read from `fine`, `amount` or `penalty` is never negative |
| Ico.AssessRisk | python-scripts/adapters/ico.py:180-193 | each level holds exactly when its condition does: critical for a fine ≥ 100000 or, absent a fine ≥ 10000, a prosecution; high for a fine in [10000, 100000); medium for an undertaking or reprimand that is not critical; low otherwise |
| Ico.LargeFineDecides | python-scripts/adapters/ico.py:184-187 | a fine of 10000 or more decides the level whatever the action |
| Ico.SmallFineIsNoFine | python-scripts/adapters/ico.py:184-193 | below 10000 a fine counts for nothing: the level is the one with no fine |
| Ico.SlugChars | python-scripts/adapters/ico.py:122 | the substitution keeps only lower-case letters and digits, never lengthening the text |
| Ico.OrgSlug | python-scripts/adapters/ico.py:122 | at most 20 lower-case letters and digits |
| Ico.SourceUrl | python-scripts/adapters/ico.py:138 | the organisation's link when non-empty; else the name's link when non-empty; else the enforcement page |
| Ico.SummaryText | python-scripts/adapters/ico.py:125-129 | `<action> against <name>.`, with ` Fine: £<amount>.` appended exactly when there is a non-zero fine |
| Ico.CaseRecord | python-scripts/adapters/ico.py:120-149 | a `gdpr` `ICO` enforcement record dated by the case or `1970-01-01`, both dates `YYYY-MM-DD` and equal; titled `ICO action: <name>`; a charity name exactly when the organisation's name holds a charity word; the id from the name and the date; the source link, the fine, the action as outcome and the assessed risk; the summary text cut to 500; keywords `data protection`, `gdpr`, `ico` and the lower-cased action |
| Ico.CaseIdShape | python-scripts/adapters/ico.py:121-123 | the id is `ICO_enforcement_`, the org slug, `_` and either the date's eight digits or `unknown` |
| Ico.UndatedCase | python-scripts/adapters/ico.py:114-140 | a case with neither `date` nor `published` has no date, so its record carries the placeholder date and `unknown` in its id |
| Ico.Normalize | python-scripts/adapters/ico.py:92-152 | one record per stored case, in order |
| Ofsi.Candidates | python-scripts/adapters/ofsi.py:61-72 | one entry per anchor of the page, in order |
| Ofsi.FoundLinkIsConList | python-scripts/adapters/ofsi.py:61-72 | the link found ends in `.csv`, mentions `conlist` in any case and is the stripped `href` of one of the page's anchors |
| Ofsi.NoLinkMeansNoConList | python-scripts/adapters/ofsi.py:61-82 | no link is found only when no anchor points at the list |
| Ofsi.FoundAt | python-scripts/adapters/ofsi.py:61-72 | the first anchor pointing at the list gives the link found |
| Ofsi.FindCsvLink | python-scripts/adapters/ofsi.py:60-72 | the anchor loop with its `break` finds the first link to the list |
| Ofsi.DownloadUrl | python-scripts/adapters/ofsi.py:74-79 | an `http` link is kept; any other is made absolute on `https://www.gov.uk` |
| Ofsi.DownloadUrlIsAbsolute | python-scripts/adapters/ofsi.py:74-79 | the list is always fetched from an `http` address |
| Ofsi.DownloadRaw | python-scripts/adapters/ofsi.py:41-98 | a failed page fetch is reported as is; a page without a link to the list fails; otherwise the rows of the file at the absolute address of the first link |
| Ofsi.ParseDate | python-scripts/adapters/ofsi.py:177-189 | nothing for an empty text; otherwise the first of `%d/%m/%Y`, `%Y-%m-%d`, `%d-%m-%Y`, `%d %b %Y` that reads the stripped text, as `YYYY-MM-DD` |
| Ofsi.Alnums | python-scripts/adapters/ofsi.py:141 | only letters and digits of the text, never lengthening it |
| Ofsi.NameSlug | python-scripts/adapters/ofsi.py:141 | at most 30 lower-case letters and digits |
| Ofsi.DesignatedBy | python-scripts/adapters/ofsi.py:148-154 | `UN` exactly when the upper-cased reasons mention `UN`; `EU` exactly when they mention `EU` but not `UN`; `UK` exactly when they mention neither |
| Ofsi.NormalizeRow | python-scripts/adapters/ofsi.py:115-175 | no record exactly when the stripped name is shorter than two characters; otherwise a critical `OFSI` `sanctions` record with the slug id, the name's first 100 characters in the title, dated by the listing date or today, last updated today, carrying the regime and the designating authority, the summary text cut to 500, keywords `sanctions`, `ofsi` and the lower-cased regime and group type |
| Ofsi.SummaryText | python-scripts/adapters/ofsi.py:156-159 | `<name> is designated under <regime> sanctions regime.`, prefixed by `<group type>: ` exactly when there is a group type |
| Ofsi.DesignationIsKnown | python-scripts/adapters/ofsi.py:148-173 | the designating authority is always `UN`, `EU` or `UK` |
| Ofsi.SameLettersSameId | python-scripts/adapters/ofsi.py:141-142 | targets whose names agree in their first thirty letters and digits, ignoring case, share an id |
| Ofsi.Normalize | python-scripts/adapters/ofsi.py:100-113 | the records of the rows that name a target, in the file's order; every one is `OFSI` and critical |
| RunCharityUpdate.CsvColumnsMatchRecordRows | python-scripts/run_charity_update.py:48-54 | the 21 persisted columns are distinct and are exactly the keys a serialised record carries |
| RunCharityUpdate.Find | python-scripts/run_charity_update.py:103 | a position found holds the id; none is found only when no row has it |
| RunCharityUpdate.LookupAt | python-scripts/run_charity_update.py:105 | in an id-keyed table each row is what its id looks up |
| RunCharityUpdate.PutShape | python-scripts/run_charity_update.py:109-112 | assigning a row by id keeps the table keyed, adds the id, keeps every earlier row's position and id, and changes the lookup of that id only |
| RunCharityUpdate.PutLookup | python-scripts/run_charity_update.py:109-112 | after the assignment the id looks up the new row and every other id what it did before |
| RunCharityUpdate.UpsertShape | python-scripts/run_charity_update.py:99-113 | one merge step keeps the table keyed, adds the row's id and keeps earlier rows in place |
| RunCharityUpdate.UpsertLookup | python-scripts/run_charity_update.py:103-113 | a new id is added; a stored id is replaced exactly when the new `last_updated` is strictly greater; other ids are untouched |
| RunCharityUpdate.MergeShape | python-scripts/run_charity_update.py:97-115 | merging a batch keeps the table keyed, its ids are the old ones plus the batch's, and pre-existing rows keep their positions |
| RunCharityUpdate.MergeKeepsOthers | python-scripts/run_charity_update.py:95-97 | a stored record whose id is not in the batch survives the merge unchanged |
| RunCharityUpdate.MergeStoredIsNoOp | python-scripts/run_charity_update.py:103-110 | merging rows already stored leaves the table as it was (an equal `last_updated` never replaces) |
| RunCharityUpdate.RepeatedIdInBatch | python-scripts/run_charity_update.py:99-113 | of two new rows sharing an id in one batch the later wins only when strictly newer |
| RunCharityUpdate.CsvRows | python-scripts/run_charity_update.py:100 | one serialised row per new record, each carrying an id |
| RunCharityUpdate.MergeRecords | python-scripts/run_charity_update.py:85-115 | the merge loop yields the batch upserted into the existing table in batch order |
| RunCharityUpdate.PutAllLookup | python-scripts/run_charity_update.py:79-80 | loading keeps one row per id, the last one read with it |
| RunCharityUpdate.LoadExistingRecords | python-scripts/run_charity_update.py:72-82 | a missing file gives an empty table, a row without `id` fails the load, otherwise the rows keyed by id |
| RunCharityUpdate.Insert | python-scripts/run_charity_update.py:127-131 | an insertion step is a permutation of the row and the rows it goes among |
| RunCharityUpdate.SortByDateDesc | python-scripts/run_charity_update.py:127-131 | the sorted rows are a permutation of the table |
| RunCharityUpdate.NotLessTransitive | python-scripts/run_charity_update.py:127-131 | "not earlier than" on date texts is transitive |
| RunCharityUpdate.InsertSorted | python-scripts/run_charity_update.py:127-131 | inserting into a newest-first sequence keeps it newest first |
| RunCharityUpdate.SortIsNewestFirst | python-scripts/run_charity_update.py:127-131 | the table is written newest `published_date` first |
| RunCharityUpdate.SortIsStable | python-scripts/run_charity_update.py:127-131 | rows of equal date are written in their table order |
| RunCharityUpdate.Project | python-scripts/run_charity_update.py:123-134 | a written row has exactly the persisted columns, each the row's value or empty |
| RunCharityUpdate.SaveRecords | python-scripts/run_charity_update.py:118-136 | one written row per table row |
| RunCharityUpdate.SortFacts | python-scripts/run_charity_update.py:127-131 | the sort is a stable, newest-first permutation of the table |
| RunCharityUpdate.SaveRecordsOrder | python-scripts/run_charity_update.py:118-136 | what is written is the column projection of a stable, newest-first permutation of the table |
| RunCharityUpdate.SourcesToRun | python-scripts/run_charity_update.py:166 | the given keys when there are any, otherwise every registered source in registry order |
| RunCharityUpdate.CollectedAppend | python-scripts/run_charity_update.py:171-193 | the records collected from `a + b` are those of `a` followed by those of `b`: one source's failure does not affect another's records |
| RunCharityUpdate.SkippedSource | python-scripts/run_charity_update.py:172-193 | an unknown key or a failing adapter contributes no records |
| RunCharityUpdate.CollectedStep | python-scripts/run_charity_update.py:171-193 | one more key adds its contribution after those before it |
| RunCharityUpdate.CollectRecords | python-scripts/run_charity_update.py:169-193 | the source loop collects each known, succeeding adapter's records in key order |
| RunCharityUpdate.Regulators | python-scripts/run_charity_update.py:219 | each merged row's regulator, `Unknown` when absent |
| RunCharityUpdate.CountByRegulator | python-scripts/run_charity_update.py:217-220 | the summary counts the merged rows per regulator |
| RunCharityUpdate.RegulatorSummaryTotal | python-scripts/run_charity_update.py:217-223 | the per-regulator counts add up to the number of merged rows |
| RunCharityUpdate.RunPipeline | python-scripts/run_charity_update.py:139-227 | a persisted row without an id aborts the run; otherwise the collected records are merged into the loaded table, written newest first unless it is a dry run, and tallied by regulator |
| RemoveDuplicates.Urls | python-scripts/remove_duplicates.py:32 | each record's `source_url`, empty when absent |
| RemoveDuplicates.WithUrlMembers | python-scripts/remove_duplicates.py:31-35 | a URL's group holds only table records with that URL |
| RemoveDuplicates.WithUrlSnoc | python-scripts/remove_duplicates.py:35 | one more record joins the end of its URL's group only |
| RemoveDuplicates.WithUrlSize | python-scripts/remove_duplicates.py:31-35 | a URL's group has as many records as the table has with that URL |
| RemoveDuplicates.FirstDated | python-scripts/remove_duplicates.py:50-65 | nothing only when every record of the group has a placeholder date (`2025-01-01`, `2025-12-31`, `1970-01-01`); otherwise a record of the group with a real date |
| RemoveDuplicates.FirstDatedIsFirst | python-scripts/remove_duplicates.py:50-65 | the record chosen is the first with a real date: once one is chosen it is never replaced |
| RemoveDuplicates.FirstDatedSnoc | python-scripts/remove_duplicates.py:51-64 | one more record of the group changes the choice only when none had a real date and this one has |
| RemoveDuplicates.Best | python-scripts/remove_duplicates.py:42-68 | the kept record belongs to the group, and a group of one keeps its only record |
| RemoveDuplicates.PickBest | python-scripts/remove_duplicates.py:50-68 | the loop over a group of several picks `Best` |
| RemoveDuplicates.DeduplicatedShape | python-scripts/remove_duplicates.py:30-71 | the kept records' URLs are the table's distinct URLs in order of first appearance, and every kept record is an unchanged table record |
| RemoveDuplicates.DeduplicatedAt | python-scripts/remove_duplicates.py:41-70 | the `i`-th kept record is the best of the `i`-th URL's group, which is not empty |
| RemoveDuplicates.DeduplicatedLength | python-scripts/remove_duplicates.py:41-70 | one kept record per distinct URL |
| RemoveDuplicates.GroupMapHoldsGroups | python-scripts/remove_duplicates.py:30-35 | the grouping has a key exactly for each URL of the table, holding that URL's records in table order |
| RemoveDuplicates.GroupStep | python-scripts/remove_duplicates.py:31-35 | one more record appends its URL to the order exactly when it is new to the grouping, and joins the end of its group |
| RemoveDuplicates.AddToGroups | python-scripts/remove_duplicates.py:32-35 | the grouping step: a new URL gets a group, and the record joins the end of its URL's group |
| RemoveDuplicates.GroupByUrl | python-scripts/remove_duplicates.py:30-35 | the grouping loop yields the distinct URLs in order of first appearance and each URL's records in table order |
| RemoveDuplicates.GroupSizesAreCounts | python-scripts/remove_duplicates.py:41-71 | the sizes of the groups are the occurrence counts of their URLs |
| RemoveDuplicates.GroupSizesSnoc | python-scripts/remove_duplicates.py:41-71 | one more URL adds its group's size |
| RemoveDuplicates.GroupSizesTotal | python-scripts/remove_duplicates.py:41-71 | the groups together hold every record of the table exactly once |
| RemoveDuplicates.DedupLoopStep | python-scripts/remove_duplicates.py:41-71 | one more group adds its kept record at the end and its size to the total |
| RemoveDuplicates.KeepOne | python-scripts/remove_duplicates.py:42-71 | a group keeps its best record and removes the rest of its records |
| RemoveDuplicates.RemoveDuplicates | python-scripts/remove_duplicates.py:16-85 | one record per URL is kept, and the count of removed records is exactly how much the table shrank |
| RemoveDuplicates.DedupOfDistinct | python-scripts/remove_duplicates.py:30-41 | a table of distinct URLs keeps its URL order |
| RemoveDuplicates.SingletonGroups | python-scripts/remove_duplicates.py:42-44 | with distinct URLs every group is the record alone |
| RemoveDuplicates.DeduplicatedIdempotent | python-scripts/remove_duplicates.py:16-85 | a second pass changes nothing |
| FixDates.CcGuidanceDatesAreReal | python-scripts/fix_dates.py:22-26 | the Charity Commission guidance dates are `YYYY-MM-DD` dates and not placeholders |
| FixDates.CcCaseDatesAreReal | python-scripts/fix_dates.py:28-38 | the first block of inquiry case dates are real dates |
| FixDates.CcCaseDatesVerifiedAreReal | python-scripts/fix_dates.py:40-58 | the manually verified inquiry case dates are real dates |
| FixDates.HseGuidanceDatesAreReal | python-scripts/fix_dates.py:60-64 | the HSE guidance dates are real dates |
| FixDates.FixedDatesAreReal | python-scripts/fix_dates.py:21-65 | every known good date is a `YYYY-MM-DD` date that the de-duplication pass does not treat as a placeholder |
| FixDates.PatchRow | python-scripts/fix_dates.py:84-87 | a record whose id has a known date gets that date as both `published_date` and `last_updated`; any other record is unchanged; no other field changes |
| FixDates.Patched | python-scripts/fix_dates.py:83-88 | one fixed record per record, in order |
| FixDates.Updates | python-scripts/fix_dates.py:82-88 | the update count never exceeds the number of records |
| FixDates.PatchRowKeepsId | python-scripts/fix_dates.py:84-87 | the fix keeps a record's id, so a fixed record is fixable exactly when it was |
| FixDates.PatchedRecordIsDated | python-scripts/fix_dates.py:21-87 | a fixed record no longer carries a placeholder date, so the de-duplication pass prefers it |
| FixDates.PatchedIdempotent | python-scripts/fix_dates.py:83-88 | running the fix twice gives the table of running it once |
| FixDates.UpdatesStable | python-scripts/fix_dates.py:82-88 | a second run reports as many updates as the first |
| FixDates.NoUpdatesNoChange | python-scripts/fix_dates.py:82-88 | a run with no updates leaves every record as it was |
| FixDates.PatchRows | python-scripts/fix_dates.py:82-89 | the loop fixes the record dictionaries in place and counts the fixable ones |
| FixDates.PatchCsv | python-scripts/fix_dates.py:67-97 | no file: nothing happens; an empty file: it is emptied and the write fails; otherwise the file is rewritten under its header with the fixed rows up to the first one holding a column the header lacks, succeeding with the update count exactly when every row fits |
| FixDates.WellFormedFileIsRewritten | python-scripts/fix_dates.py:75-95 | for a file whose header has both date columns, every fixed row fits and the file ends up holding exactly the fixed table |
| Enrich.IntText | python-scripts/enrich_with_register_api.py:262 | `str` of an integer: never empty, starting with a digit exactly when the integer is not negative |
| Enrich.HitKey | python-scripts/enrich_with_register_api.py:64-66 | the hit's number as text, empty when absent, and its subsidiary number, 0 when absent |
| Enrich.FindCharityByName | python-scripts/enrich_with_register_api.py:42-72 | nothing for an empty name; otherwise a charity exactly when the search for the stripped name succeeds with a hit, and then the first hit's |
| Enrich.EmptyNameNeedsNoSearch | python-scripts/enrich_with_register_api.py:47-48 | an empty name is answered without consulting the search |
| Enrich.Fetch | python-scripts/enrich_with_register_api.py:75-138 | each endpoint is not asked for an empty number and otherwise gives its answer, nothing on failure |
| Enrich.ExtractEnrichmentFields | python-scripts/enrich_with_register_api.py:141-172 | exactly the four `cc_*` fields: status always empty; income the overview's non-null `latest_income`, else empty; governing document from the governance answer, else empty; region the first entry's `area_of_operation` when the area answer is a non-empty list, else empty |
| Enrich.Enrichment | python-scripts/enrich_with_register_api.py:251-262 | a charity's enrichment has exactly the six new fields, carrying its number and the text of its suffix |
| Enrich.Extended | python-scripts/enrich_with_register_api.py:204-206 | the extended schema begins with the old one, holds exactly the old and new names, and stays free of repeats |
| Enrich.ExtendedAppendsMissing | python-scripts/enrich_with_register_api.py:204-206 | extension appends exactly the new names missing from the schema, in their listed order |
| Enrich.NothingMissing | python-scripts/enrich_with_register_api.py:205 | no name is missing when all are already columns |
| Enrich.ExtendedComplete | python-scripts/enrich_with_register_api.py:204-206 | a schema that already has the six fields is left as it is, so extending twice is extending once |
| Enrich.ExtendFields | python-scripts/enrich_with_register_api.py:195-206 | the schema loop computes `Extended` |
| Enrich.KeyFor | python-scripts/enrich_with_register_api.py:218-240 | no name and no number: skipped; a number: that number with suffix 0; a name alone: the first search hit when it names a number, else skipped; an enriched row's number is never empty |
| Enrich.RowKeys | python-scripts/enrich_with_register_api.py:215-270 | at most one charity per row |
| Enrich.LookUp | python-scripts/enrich_with_register_api.py:218-240 | the lookup half of a pass finds the row's charity and searches only for the name of a row without a number |
| Enrich.Cached | python-scripts/enrich_with_register_api.py:242-266 | the enrichment returned is the charity's answers; the endpoints are asked only for a charity not fetched before, and the cache keeps holding every fetched charity's enrichment |
| Enrich.EnrichRows | python-scripts/enrich_with_register_api.py:208-270 | every row is enriched with its charity's six fields or left as it was; the counters add up to the row count, the enriched one counting the rows with a charity; names are searched for only on behalf of rows without a number; each charity is fetched once, in order of first need |
| Enrich.SameCharitySameEnrichment | python-scripts/enrich_with_register_api.py:243-269 | two rows naming the same charity receive the same six fields |
| Enrich.SkippedRowUnchanged | python-scripts/enrich_with_register_api.py:222-240 | a skipped row comes out exactly as it went in |
| Enrich.EnrichedRowFields | python-scripts/enrich_with_register_api.py:269 | an enriched row gains the six fields of its charity and keeps every other field |
| Enrich.NumberedRowIgnoresSearch | python-scripts/enrich_with_register_api.py:228-232 | a row with its own number is keyed by it with suffix 0, whatever the search would answer |
| Enrich.SearchesComeFromUnnumberedRows | python-scripts/enrich_with_register_api.py:232-234 | every name searched for is the name of a row that has no number |
| Enrich.EnrichedRowsFitSchema | python-scripts/enrich_with_register_api.py:204-276 | every enriched row's fields are columns of the extended schema, so the writer accepts them |
| Enrich.EnrichCsv | python-scripts/enrich_with_register_api.py:175-276 | nothing is written when the table is missing; otherwise the extended schema and one enriched row per input row, the counters adding up to the row count |
| Analytics.BandIndex | python-scripts/build_analytics.py:31-43 | a finite value falls in the band whose bounds enclose it; +∞ and NaN fall in `Over £5m`, −∞ in `Under £10k` |
| Analytics.BandMonotone | python-scripts/build_analytics.py:32-43 | a larger income never falls in a lower band |
| Analytics.ParseIncomeBand | python-scripts/build_analytics.py:25-45 | `Unknown` for an empty or unparsable text, otherwise the band of the parsed value; never anything but a band or `Unknown` |
| Analytics.LetterRuns | python-scripts/build_analytics.py:55 | the runs kept are exactly the non-empty runs of lower-case letters, in order |
| Analytics.LetterWordsOfRun | python-scripts/build_analytics.py:55 | a run of word characters gives itself when it is non-empty lower-case letters, nothing otherwise |
| Analytics.LetterWordsSplit | python-scripts/build_analytics.py:55 | cutting at a non-word character: the words of `a + c + b` are those of `a` followed by those of `b` |
| Analytics.MeaningfulOnly | python-scripts/build_analytics.py:65 | only long enough non-stopwords are kept |
| Analytics.ExtractKeywords | python-scripts/build_analytics.py:48-66 | nothing for an empty text; every keyword is a whole lower-case letter word of the text, long enough and no stopword |
| Analytics.MeaningfulKeepsRepeats | python-scripts/build_analytics.py:65 | every occurrence of a meaningful word is kept |
| Analytics.KeywordsOfJoined | python-scripts/build_analytics.py:148 | the keywords of `title + ' ' + summary` are those of the title followed by those of the summary |
| Analytics.KeywordsOfWords | python-scripts/build_analytics.py:48-66 | the keywords of lower-case words joined by spaces are those words, filtered for length and stopwords, in order |
| Analytics.Month | python-scripts/build_analytics.py:111-116 | a row has a month exactly when its `published_date` parses, and the month is that date's `%Y-%m` text |
| Analytics.MonthTextOrder | python-scripts/build_analytics.py:113-168 | for a valid date the `%Y-%m` text is four digits, a dash and two digits; two such texts sort as their (year, month) pairs and are equal exactly when year and month are |
| Analytics.Year | python-scripts/build_analytics.py:111-117 | a row has a year exactly when its `published_date` parses, and the year is that date's year |
| Analytics.Observe | python-scripts/build_analytics.py:100-144 | every row counts its regulator, domain and document type, each the row's value or `unknown` when missing; the income band, status and region only when that field is non-empty, the band being `ParseIncomeBand` of the income and status and region the field's own text |
| Analytics.ObservePair | python-scripts/build_analytics.py:126-128 | a row counts in the time series exactly when its date parses, under its month |
| Analytics.Seen | python-scripts/build_analytics.py:130-144 | at most one key per row, exactly one for regulator, domain and type |
| Analytics.YearKeywords | python-scripts/build_analytics.py:147-150 | only a case with a parsed year adds keywords, each paired with that year |
| Analytics.CounterIsTally | python-scripts/build_analytics.py:127-150 | counting element by element maps each key seen to its number of occurrences |
| Analytics.CountRows | python-scripts/build_analytics.py:93-150 | the loop over the rows leaves every counter the tally of what the rows add to it, and the totals counting rows, cases and guidance |
| Analytics.EveryRowCountedOnce | python-scripts/build_analytics.py:97-133 | the regulator, domain and type counters each account for every row exactly once |
| Analytics.CasesAndGuidanceWithinTotal | python-scripts/build_analytics.py:119-123 | cases and guidance together never exceed the total |
| Analytics.EnrichedCounterKeys | python-scripts/build_analytics.py:136-144 | income-band keys are bands or `Unknown`; status and region keys are never empty |
| Analytics.MonthsAgree | python-scripts/build_analytics.py:126-128 | both time series see the same months, row for row |
| Analytics.MonthTotalsAgree | python-scripts/build_analytics.py:126-128 | the two time series count the same number of rows |
| Analytics.YearKeywordsMeaningful | python-scripts/build_analytics.py:147-150 | every counted keyword has a year and is a lower-case word of at least four letters that is no stopword |
| Analytics.KeywordCounterKeys | python-scripts/build_analytics.py:147-150 | the same holds for the keys of the keyword counter |
| Analytics.InsertBy | python-scripts/build_analytics.py:163-173 | inserting into a sorted sequence gives a sorted permutation |
| Analytics.SortBy | python-scripts/build_analytics.py:163-173 | the result is sorted and a permutation of the input |
| Analytics.SortDistinct | python-scripts/build_analytics.py:163 | sorting distinct keys keeps them distinct |
| Analytics.SortStrictly | python-scripts/build_analytics.py:163 | distinct keys under a total order come out strictly increasing |
| Analytics.MoreCommonIsStrict | python-scripts/build_analytics.py:173 | "more common" is a strict order |
| Analytics.MostCommon | python-scripts/build_analytics.py:173-199 | `most_common(n)`: `n` entries (all when no limit), in non-increasing count, each a counted key with its count; with no limit a permutation of the counter's items |
| Analytics.MostCommonKeepsTies | python-scripts/build_analytics.py:173 | keys of equal count stay in the order they were first counted |
| Analytics.MostCommonKeepsTop | python-scripts/build_analytics.py:193-199 | a key cut by the limit is no more common than any key listed |
| Analytics.PairLessIsTotalOrder | python-scripts/build_analytics.py:163-167 | tuple order on `(month, key)` is a strict total order |
| Analytics.TimeSeries | python-scripts/build_analytics.py:161-168 | the series lists each key once with its count, in key order |
| Analytics.TimeSeriesStrictlyIncreasing | python-scripts/build_analytics.py:161-168 | the keys of a series are strictly increasing |
| Analytics.SortedYears | python-scripts/build_analytics.py:201 | the years counted, strictly increasing |
| Analytics.CountWordsOf | python-scripts/build_analytics.py:150 | counting `(year, keyword)` pairs is counting the year's keywords |
| Analytics.FlattenedCounterAgrees | python-scripts/build_analytics.py:86-150 | the counter keyed by `(year, keyword)` gives each year the counts its own counter would |
| Analytics.BuildAnalytics | python-scripts/build_analytics.py:69-207 | nothing when the CSV is missing; otherwise the report of the rows |
| Analytics.ReportSummary | python-scripts/build_analytics.py:153-159 | the summary counts every row, the cases and the guidance among them, and carries the run's timestamp |
| Analytics.MostCommonOfCounter | python-scripts/build_analytics.py:171-194 | a breakdown lists distinct keys that occur, each with its number of occurrences, most common first; with no limit every key seen is listed; with a limit a key left out is no more common than any listed |
| Analytics.MostCommonDistinct | python-scripts/build_analytics.py:173 | `most_common` of distinct keys lists each key at most once |
| Analytics.MostCommonListsAll | python-scripts/build_analytics.py:173 | with no limit every key is listed with its count |
| Analytics.ReportBreakdowns | python-scripts/build_analytics.py:170-195 | each breakdown gives distinct keys with their number of rows, most common first; every key seen is listed, except regions, cut to the ten most common, a left-out region no more common than any listed |
| Analytics.TimeSeriesOfCounter | python-scripts/build_analytics.py:160-169 | a series built from a counter lists every key counted, once, in order, with its count |
| Analytics.ReportTimeSeries | python-scripts/build_analytics.py:160-169 | each time series lists every `(month, key)` seen once, in order, with its number of rows |
| Analytics.ReportKeywords | python-scripts/build_analytics.py:196-202 | exactly the years that counted a keyword, in increasing order, each with twenty distinct keywords of that year's cases (all of them when fewer), most common first, each with its number of occurrences in that year's cases, and no keyword left out more common than one listed |
| Analytics.TopKeywordsCounts | python-scripts/build_analytics.py:199 | a year's top keywords are twenty distinct words of the year (all of them when fewer), most common first, each with its count in that year, none left out more common than one listed |
| Analytics.KeywordSectionCounts | python-scripts/build_analytics.py:196-202 | the keyword section of the counted pairs lists exactly the years of the pairs, in increasing order, and each year's list is its top twenty as above |

## Left out

- HTTP requests, status and timeout handling: each fetch is an input value, a `Result` or an `Option` whose error stands for the exception raised.
- HTML parsing with BeautifulSoup: each selector's finding (a `<time>` element, a metadata block, meta contents, text blocks, anchors, table cells, page text) is given as a string, a sequence or an `Option`.
- Reading and writing JSON and CSV files, creating the staging directory, and CSV quoting: a table is a sequence of `map<string, string>` rows. A missing file is `None`.
- A JSON `null` is modelled as an absent key. Both are falsy for the `.get(k) or default` reads the adapters use; the Charity Commission report's `charity_number`, which is written with `str` and so shows a null as `None`, is an `Option` instead.
- `DictReader` fills the missing fields of a short CSV line with `None`. The model's rows have only string values.
- `time.sleep` rate limiting, logging, `print`, tracebacks, the console summary of top regulators and domains, and the argparse `main` functions: they do not change any result.
- `datetime.now()`: today's date (`today`), the fallback id timestamp (`stamp`) and the analytics timestamp (`now`) are parameters.
- `float()` in `parse_income_band` is a parameter returning a finite value, an infinity or NaN. `str(float)` in `to_csv_row` and `'{:,.0f}'` in the ICO summary are formatting parameters. Amounts are exact reals, so binary rounding of large fines is not modelled.
- Ico.FineIn: `float()` of the digits read is the exact decimal value, without binary rounding.
- Character classes are ASCII only. This covers `lower()`, `upper()`, `isalnum()`, `\w`, whitespace (`isspace()`, `\s`, `strip()`, `split()` and the `\s+` that `strptime` puts for each blank) and digits (`\d`, `isdigit()`). Python also case-folds and classifies non-ASCII letters, treats characters such as U+00A0 as whitespace, and lets `\d` match non-ASCII decimal digits; none of this is modelled.
- `strftime('%Y')` is modelled as four zero-padded digits. Python on some platforms does not pad years below 1000.
- CharityCommission.GenerateKeywords: Python leaves the iteration order of a `set` unspecified, so the contract states only the bounds: at most 20 keywords, distinct, all drawn from the issues, the long name words and the outcome parts, and all of them when there are at most 20. The function takes first-insertion order.
- A Python `dict` that is updated while it is iterated later is modelled as a sequence in insertion order. This covers the merged table, `url_groups` and the `Counter`s. `most_common` ties and `list(merged.values())` follow that order.
- Analytics: `defaultdict(Counter)` keyed by year is one counter keyed by `(year, keyword)`. `FlattenedCounterAgrees` shows each year reads the same counts. JSON keys `str(year)` are kept as the year number.
- `BaseAdapter.__init__` only stores the staging directory and a logger, and `get_metadata` returns constants. The adapters are modelled as modules of functions, not as objects.
- `adapters/__init__.py` only re-exports names and is not part of this model.
- The `ISSUE_TO_DOMAIN` table in `adapters/charity_commission.py` is never read by the code, so it is not part of this model.
- The Register API key and the request headers are configuration, not behaviour.
- The OFSI adapter is in neither the source registry nor the package exports. It is modelled on its own, outside `RunPipeline`.
- Enrich.HitKey: a JSON `null` for `registeredCharityNumber` or `subsidiaryNumber` is treated like an absent field. Python would write it as the text `None`.
- Enrich.EnrichCsv: a file without a header line, for which Python fails on `list(None)`, is not distinguished from an empty table.
- RunCharityUpdate.RunPipeline: the only load failure modelled is a persisted row without an `id`. Other read errors, such as malformed CSV or encoding, are not part of this model.
