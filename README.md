# GitHub trending scanner, modelled in Dafny

This project models the repository-scanning engine of `github_scout`, the
`GitHubTrendingScanner` class and the helpers that classify a repository
for video production. The repository holds two copies of this code, in
`test.py` and `functions.py`, with the same behaviour. The model covers both.

- **Search client** (`SearchClient`, `Scanner.GitHubTrendingScanner`). The
  scanner owns the quota counter `rate_limit_remaining`, which starts at 60.
  A search is refused without a request when the counter is at or below 5.
  An HTTP 200 answer costs exactly one unit. `check_rate_limit` overwrites
  the counter with the value the provider reports. The HTTP exchange is an
  input value (`SearchOutcome`, `RateLimitResponse`). The requests the
  scanner would send are kept in a log field, `requests`. What the source
  shows the user through `st.warning`/`st.error` is returned as a `Notice`.
- **Interest score** (`Scoring`). The score is
  `(popularity + activity) * recency * language boost`, computed over exact
  reals with the source's weights and its 11-entry language table. The age
  in whole days is an input. It is `None` when `created_at` is missing or
  does not parse.
- **Category planner** (`Scanner`). A fixed table maps nine category names
  to qualifier templates over a date threshold. An unknown category yields
  `[]` and no request. Otherwise every search result is scored, and the
  list is sorted with `sorted(..., reverse=True)`. That sort is stable and
  puts the highest score first. The model states it as an insertion sort
  (`Ranking.RankByScore`).
- **Video helpers** (`VideoHelpers`). These are `determine_content_type`,
  `generate_video_tags`, `get_target_audience` and
  `get_optimal_upload_time`.

The clock and date parsing are inputs. The scan takes the threshold string
`D` and a function `ageOf` that gives the whole days since a `created_at`
string, or `None` when it does not parse. `determine_content_type` takes
the age directly.

Behaviour the model keeps as the code has it:
- A 403 answer does not stop later searches. Only the local counter does.
- `check_rate_limit` returns the whole body, not a reset time. Only
  `rate.remaining` is read.
- The look-back window is not restricted to 1..30 days.
- A 200 answer whose body cannot be decoded has already been charged. The
  source decrements the counter before `response.json()` raises, and the
  model keeps that (`Body.Unparsable`).

## Model

| member | source | states |
|---|---|---|
| `Scanner.GitHubTrendingScanner.constructor` | test.py:37-44 | A new scanner keeps the token, builds its headers and starts with 60 remaining calls and no requests sent |
| `SearchClient.RequestHeaders` | functions.py:36-41 | The Accept header is always present. An Authorization header `token <stripped token>` is present exactly when a token is given and is not blank. There are no other headers |
| `Text.Strip` | test.py:41-42 | `str.strip()` with Python's whitespace set. The result is a slice `s[i..j]` of the input with only whitespace before `i` and after `j`. It is empty exactly when the input is blank, and otherwise starts and ends with a non-space character |
| `SearchClient.RateCheckStep` | functions.py:45-56 | The check succeeds exactly on a 200 answer that reports `rate.remaining`, and then the counter becomes that value. Any other status, a missing field or an exception leaves the counter unchanged and fails |
| `Scanner.GitHubTrendingScanner.CheckRateLimit` | test.py:46-57 | Logs one rate-limit request. The new counter and the result are those of `RateCheckStep` |
| `SearchClient.SearchStep` | test.py:59-95 | A request is issued exactly when the counter is above 5. The counter drops by exactly one only for an issued request answered 200. Items come back only from a 200 answer whose body lists them. The call is quiet exactly on a decodable 200 answer. Otherwise the notice names the cause: the local guard gives the low-quota notice, 403 gives rate-limit-exceeded, 422 gives invalid-query, any other status `s` gives `ApiError(s)`, and a timeout gives timed-out. An exception, or an undecodable 200 body, gives a fetch error, and nothing else does |
| `SearchClient.LowQuotaRefuses` | test.py:61-63 | At or below 5 remaining calls, a search returns `[]`, sends nothing, leaves the counter unchanged and raises the low-quota notice |
| `SearchClient.FailureKeepsQuota` | test.py:80-95 | A 403, 422 or other status, a timeout or an exception leaves the counter unchanged and yields no items |
| `SearchClient.QuotaAccounting` | test.py:61-77 | Over any series of searches, the counter falls by exactly the number of charged searches. A counter starting at `c` admits at most `c - 5` of them and never falls below `min(c, 5)` |
| `SearchClient.ResyncBelowMarkBlocksSearch` | test.py:46-63 | After a check that reports 5 or fewer remaining calls, the next search sends no request |
| `Scanner.GitHubTrendingScanner.SearchRepositories` | test.py:59-95 | Counter, items and notice are those of `SearchStep`. A `GET` with the query, sort, `desc` order and page size is logged exactly when the request is issued |
| `Scoring.RecencyMultiplier` | test.py:105-110 | The multiplier is at least 0.1, and exactly 0.5 when the creation date is unknown. It is at most 1 for a non-negative age, and above 1 for a future creation date because nothing caps it |
| `Scoring.RecencyFloor` | test.py:107-108 | The multiplier is exactly 0.1 if and only if the repository is at least 329 days old |
| `Scoring.RecencyAntitone` | test.py:107-108 | An older repository never gets a higher recency multiplier |
| `Scoring.LanguageBoost` | test.py:118-123 | The boost lies between 0.8 and 1.4. A language that is missing, null or not in the table gets exactly 1.0 |
| `Scoring.LanguageBoostTable` | test.py:118-123 | Rust gets 1.4, Kotlin 0.8 and Python 1.3. The lookup is case-sensitive, so `python` gets 1.0. A missing or null language gets 1.0 |
| `Scoring.InterestScore` | test.py:99-125 | The score has the sign of the raw signal `popularity + activity`: it is zero exactly when the signal is zero, and positive exactly when the signal is positive. For a non-negative signal the score is at least 0.08 times the signal. For a repository not dated in the future it is at most 1.4 times the signal |
| `Scoring.DaysOld` | test.py:105-110 | The age is what the date parser gives for a string `created_at`. A missing or null `created_at` gives no age, and then the recency multiplier is the fallback 0.5 |
| `Scoring.ScoreNonNegative` | test.py:99-125 | With non-negative stars, forks, watchers and open issues, the score is at least 0 |
| `Scoring.ScoreMonotone` | test.py:99-125 | Raising stars, forks or watchers, with all other fields fixed, never lowers the score |
| `Scoring.ScoreRepo` | test.py:129-133 | The scored entry carries the input record unchanged |
| `Ranking.RankByScore` | test.py:162 | The ranking keeps every entry: it has the input's length and is a permutation of it |
| `Ranking.RankSortedPermutation` | test.py:162 | The ranking is sorted by non-increasing score and is a permutation of its input |
| `Ranking.RankStable` | test.py:162 | For every score value, the entries with that score keep their input order |
| `Scanner.CategoryQuery` | test.py:139-153 | A query exists exactly for the nine category names, and each query contains the date threshold |
| `Scanner.HiddenGemsQuery` | test.py:148 | `hidden_gems` gives exactly `stars:10..100 forks:>5 created:>D` |
| `Scanner.ScoreAll` | test.py:156-160 | One scored entry per search item, in search order. Nothing is dropped or added |
| `Scanner.ScanResultShape` | test.py:155-162 | A scan of `n` items returns `n` entries, sorted and stable. Each entry is an input record with its interest score |
| `Scanner.GitHubTrendingScanner.ScanTrendingByCategory` | test.py:135-162 | An unknown category returns `[]` and leaves the counter and the request log unchanged. A known one searches with exactly its query, sorted by stars with 30 per page. It returns the stable ranking of the scored items, and the counter and notice are those of the search |
| `VideoHelpers.AnyTopicIn` | functions.py:493-497 | True exactly when some lower-cased topic is in the given set |
| `VideoHelpers.ContentTypeAsWritten` | functions.py:392-406 | The source raises exactly when the description is JSON null and none of the three popularity rules applies (at most 10000 stars, not under 30 days with more than 100 stars, not under 1000 stars with more than 50 forks) |
| `VideoHelpers.DetermineContentType` | functions.py:392-406 | Agrees with the source wherever the source does not raise. Each rule holds exactly when no earlier rule applies. Popular Spotlight: more than 10000 stars. Rising Star: under 30 days with more than 100 stars. Hidden Gem: under 1000 stars with more than 50 forks. AI Tool Review: the lower-cased description contains `ai`, or `machine-learning` is a topic. Deep Dive: neither of those |
| `VideoHelpers.ContentTypePopularityFirst` | functions.py:397-402 | When a popularity rule applies, the description and the topics do not change the content type |
| `VideoHelpers.ContentTypeNullDescription` | functions.py:403 | A JSON-null description makes the source raise even for a `machine-learning` repository. The corrected helper rates it an AI tool |
| `VideoHelpers.ContentTypeNullAsMissing` | functions.py:403 | The corrected helper treats a null description like a missing one. It matches the source whenever the description is not null |
| `VideoHelpers.GenerateVideoTags` | functions.py:422-432 | The tags are the five fixed tags, then the lower-cased language if it is truthy, then the first five topics in order. The length is `5 + (0 or 1) + min(5, #topics)`, at most 11 |
| `VideoHelpers.AudienceAsWritten` | functions.py:475-489 | The source raises exactly when the language is JSON null |
| `VideoHelpers.TargetAudience` | functions.py:475-489 | Agrees with the source wherever the source does not raise. Each audience holds exactly when no earlier one applies. AI/ML: some lower-cased topic is `machine-learning` or `ai`. Frontend: the lower-cased language is `javascript`, `typescript` or `react`. Python: it is `python`. DevOps: a `devops` topic, or the language `dockerfile` or `kubernetes`. General: none of these. So a `Python` repository without an AI topic targets Python developers |
| `VideoHelpers.AudienceNullLanguage` | functions.py:477 | A JSON-null language makes the source raise. The corrected helper treats it like a missing language |
| `VideoHelpers.AudienceAgrees` | functions.py:475-489 | For any non-null language, the corrected helper and the source agree |
| `VideoHelpers.OptimalUploadTime` | functions.py:491-500 | The AI slot is chosen exactly when some lower-cased topic is an AI topic. The default slot is chosen exactly when no topic is an AI or web topic |
| `VideoHelpers.UploadTimeAiFirst` | functions.py:495-498 | A repository with both an AI topic and a web topic gets the AI slot |

## Findings

| source | as written | input that shows it | evidently intended | confidence | as-written member | corrected member |
|---|---|---|---|---|---|---|
| functions.py:403 (also test.py:626) | `repo.get('description', '').lower()` calls `.lower()` on `None` when the record has `"description": null`. The default `''` applies only to a missing key | a record with 500 stars, 10 forks, age 400 days, `description: null`, topic `machine-learning` | treat a null description like a missing one (`''`) | not executed; medium | `VideoHelpers.ContentTypeAsWritten`, `VideoHelpers.ContentTypeNullDescription` | `VideoHelpers.DetermineContentType` |
| functions.py:477 (also test.py:659) | `repo.get('language', '').lower()` calls `.lower()` on `None` when the record has `"language": null`, which the search endpoint returns for repositories without a detected language | any record with `language: null` | treat a null language like a missing one (`''`) | not executed; medium | `VideoHelpers.AudienceAsWritten`, `VideoHelpers.AudienceNullLanguage` | `VideoHelpers.TargetAudience` |

## Left out

- HTTP (`requests.get`): each exchange is an input outcome. Response text and headers beyond the status and the fields read are not modelled.
- Streamlit rendering, `main()`, `show_repo_details_modal`, `test_api_connections`, session state and `show_help_readme` are UI. Their messages become `Notice` values where the core shows them.
- `GeminiAnalyzer` and its model-name fallback chain are calls into an opaque language-model library with fixed prompts.
- `generate_video_content_with_ai`, `generate_script_template`, `generate_video_titles` and `create_download_link` only template Markdown and prompts. The download link also goes through base64.
- `get_repository_details` (functions.py:96-107) is a single pass-through request. It is not part of the scanning core.
- `main.py` is a single request plus widgets.
- The clock and date handling (`datetime.now`, `strptime`, `timedelta`, `strftime`) are inputs: the threshold string, the `ageOf` function and the age given to the content-type helper. The crash of `determine_content_type` on an unparsable `created_at` lies in that parsing, so it is outside the model.
- The `reasoning` string of a scored entry is informational and uses float formatting.
- Python float rounding: scores are exact reals.
- `Text.Lower` maps only ASCII letters. Python's `str.lower()` also maps other Unicode letters, and can lengthen a string.
- Only the `remaining` field of the rate-limit body is modelled. The rest of the returned data is not.
- A 200 body whose `items` is JSON null is not modelled (the source would return `None`).
- `RepoData` and `MAJOR_COMPANIES` are declared but never used.
