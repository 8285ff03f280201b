/** `GitHubTrendingScanner`: the object that owns the quota counter, the
    category planner built on it, and the request log that stands for the
    HTTP traffic it would issue. */
module Scanner {
  import opened Repository
  import opened Text
  import opened SearchClient
  import opened Scoring
  import opened Ranking

  /** An HTTP GET the scanner issues. */
  datatype Request =
    | SearchRequest(query: string, sort: string, order: string, perPage: int)
    | RateLimitRequest

  /** The nine category names of the planner. */
  const Categories: set<string> := {
    "newly_created", "recently_active", "hot_topics", "ai_ml_trending",
    "web_dev_trending", "devops_trending", "mobile_trending",
    "breaking_out", "hidden_gems"}

  /** The qualifier templates, instantiated with the date threshold `d`
      (a `YYYY-MM-DD` string). */
  function CategoryQueries(d: string): map<string, string>
  {
    map[
      "newly_created" := "created:>" + d,
      "recently_active" := "pushed:>" + d + " stars:>10",
      "hot_topics" := "good-first-issues:>0 created:>" + d,
      "ai_ml_trending" := "topic:machine-learning created:>" + d,
      "web_dev_trending" := "topic:react created:>" + d,
      "devops_trending" := "topic:docker created:>" + d,
      "mobile_trending" := "topic:android created:>" + d,
      "breaking_out" := "stars:100..1000 created:>" + d,
      "hidden_gems" := "stars:10..100 forks:>5 created:>" + d]
  }

  /** The query for a category, None for an unknown one. Every query
      filters on the threshold date. */
  function CategoryQuery(category: string, threshold: string): (q: Option<string>)
    ensures q.Some? <==> category in Categories
    ensures q.Some? ==> Contains(q.value, threshold)
  {
    var queries := CategoryQueries(threshold);
    assert queries.Keys == Categories;
    if category in queries then
      var q := queries[category];
      assert Contains(q, threshold) by {
        if category == "recently_active" {
          ContainsAfterPrefix("pushed:>", threshold, " stars:>10");
        } else {
          ContainsAfterPrefix(q[..|q| - |threshold|], threshold, "");
          assert q[..|q| - |threshold|] + threshold + "" == q;
        }
      }
      Some(q)
    else
      None
  }

  lemma HiddenGemsQuery(d: string)
    ensures CategoryQuery("hidden_gems", d) == Some("stars:10..100 forks:>5 created:>" + d)
  {
  }

  /** Scores every search result, in search order. */
  function ScoreAll(repos: seq<Repo>, ageOf: string -> Option<int>): (s: seq<Scored>)
    ensures |s| == |repos|
    ensures forall k :: 0 <= k < |repos| ==> s[k] == ScoreRepo(repos[k], ageOf)
  {
    seq(|repos|, k requires 0 <= k < |repos| => ScoreRepo(repos[k], ageOf))
  }

  /** What a scan returns for the items of a search: one entry per item,
      each the unmodified record with its interest score, sorted highest
      first and stable among equal scores. */
  lemma ScanResultShape(items: seq<Repo>, ageOf: string -> Option<int>, v: real)
    ensures var ranked := RankByScore(ScoreAll(items, ageOf));
      && |ranked| == |items|
      && SortedDesc(ranked)
      && multiset(ranked) == multiset(ScoreAll(items, ageOf))
      && WithScore(ranked, v) == WithScore(ScoreAll(items, ageOf), v)
      && forall e :: e in ranked ==> e.repo in items && e.score == InterestScore(e.repo, DaysOld(e.repo, ageOf))
  {
    var scored := ScoreAll(items, ageOf);
    var ranked := RankByScore(scored);
    RankSortedPermutation(scored);
    RankStable(scored, v);
    forall e | e in ranked
      ensures e.repo in items && e.score == InterestScore(e.repo, DaysOld(e.repo, ageOf))
    {
      assert e in multiset(ranked);
      var k :| 0 <= k < |scored| && scored[k] == e;
      assert e == ScoreRepo(items[k], ageOf);
    }
  }

  class GitHubTrendingScanner {
    var token: Option<string>
    var headers: map<string, string>
    var rateLimitRemaining: int
    /** Every HTTP request issued so far, oldest first. */
    var requests: seq<Request>

    constructor (githubToken: Option<string>)
      ensures token == githubToken && headers == RequestHeaders(githubToken)
      ensures rateLimitRemaining == InitialQuota
      ensures requests == []
    {
      token := githubToken;
      headers := RequestHeaders(githubToken);
      rateLimitRemaining := InitialQuota;
      requests := [];
    }

    /** `check_rate_limit`: asks the rate-limit endpoint and, on success,
        resynchronises the counter with the reported value. */
    method CheckRateLimit(response: RateLimitResponse) returns (check: RateCheck)
      modifies this`rateLimitRemaining, this`requests
      ensures requests == old(requests) + [RateLimitRequest]
      ensures (rateLimitRemaining, check) == RateCheckStep(old(rateLimitRemaining), response)
    {
      requests := requests + [RateLimitRequest];
      match response {
        case RateRequestFailed =>
          check := CheckError;
        case RateResponse(status, reported) =>
          if status != 200 {
            check := CheckFailed(status);
          } else if reported.None? {
            check := CheckError;
          } else {
            rateLimitRemaining := reported.value;
            check := Checked(reported.value);
          }
      }
    }

    /** `search_repositories`: refused locally when the counter is at or
        below the low-water mark; otherwise one request, charged to the
        counter only when it is answered 200. */
    method SearchRepositories(query: string, sort: string, perPage: int, outcome: SearchOutcome)
      returns (items: seq<Repo>, notice: Notice)
      modifies this`rateLimitRemaining, this`requests
      ensures var e := SearchStep(old(rateLimitRemaining), outcome);
        && rateLimitRemaining == e.remaining && items == e.items && notice == e.notice
        && requests == old(requests) + (if e.issued then [SearchRequest(query, sort, "desc", perPage)] else [])
    {
      if rateLimitRemaining <= LowWaterMark {
        return [], RateLimitLow;
      }
      requests := requests + [SearchRequest(query, sort, "desc", perPage)];
      match outcome {
        case Response(status, body) =>
          if status == 200 {
            rateLimitRemaining := rateLimitRemaining - 1;
            match body {
              case Items(found) => items, notice := found, Quiet;
              case NoItems => items, notice := [], Quiet;
              case Unparsable => items, notice := [], FetchError;
            }
          } else if status == 403 {
            items, notice := [], RateLimitExceeded;
          } else if status == 422 {
            items, notice := [], InvalidQuery;
          } else {
            items, notice := [], ApiError(status);
          }
        case Timeout => items, notice := [], TimedOut;
        case RequestFailed => items, notice := [], FetchError;
      }
    }

    /** `scan_trending_by_category`: an unknown category changes nothing and
        issues no request; a known one searches with its query (sorted by
        stars, 30 per page), scores every result and ranks them. */
    method ScanTrendingByCategory(category: string, threshold: string, outcome: SearchOutcome,
                                  ageOf: string -> Option<int>)
      returns (ranked: seq<Scored>, notice: Notice)
      modifies this`rateLimitRemaining, this`requests
      ensures CategoryQuery(category, threshold).None? ==>
        && ranked == [] && notice == UnknownCategory(category)
        && rateLimitRemaining == old(rateLimitRemaining) && requests == old(requests)
      ensures CategoryQuery(category, threshold).Some? ==>
        var e := SearchStep(old(rateLimitRemaining), outcome);
        && ranked == RankByScore(ScoreAll(e.items, ageOf))
        && notice == e.notice && rateLimitRemaining == e.remaining
        && requests == old(requests) +
             (if e.issued then [SearchRequest(CategoryQuery(category, threshold).value, "stars", "desc", 30)] else [])
    {
      var query := CategoryQuery(category, threshold);
      if query.None? {
        return [], UnknownCategory(category);
      }
      var repos;
      repos, notice := SearchRepositories(query.value, "stars", 30, outcome);
      var scored: seq<Scored> := [];
      for k := 0 to |repos|
        invariant scored == ScoreAll(repos[..k], ageOf)
      {
        scored := scored + [ScoreRepo(repos[k], ageOf)];
      }
      assert repos[..|repos|] == repos;
      ranked := RankByScore(scored);
    }
  }
}
