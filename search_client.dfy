/** The search client's quota bookkeeping as a state machine over the
    integer `rate_limit_remaining`. The HTTP exchange is an input: the
    outcome the endpoint would have produced. What the client shows the
    user (`st.warning`, `st.error`) becomes a returned `Notice`. */
module SearchClient {
  import opened Repository
  import opened Text

  /** The counter's value in a freshly constructed scanner. */
  const InitialQuota: int := 60
  /** At or below this many remaining calls a search is refused locally. */
  const LowWaterMark: int := 5

  const AcceptHeader: string := "application/vnd.github.v3+json"

  /** The JSON body of a 200 answer to a search. */
  datatype Body =
    | Items(items: seq<Repo>) // an object with an `items` list
    | NoItems                 // an object without `items`
    | Unparsable              // `response.json()` or `data.get` raises

  /** What `requests.get` on the search endpoint yields. */
  datatype SearchOutcome =
    | Response(status: int, body: Body)
    | Timeout                 // requests.exceptions.Timeout
    | RequestFailed           // any other exception

  /** The condition a call surfaces to the user, if any. */
  datatype Notice =
    | Quiet
    | RateLimitLow            // refused locally, no request issued
    | RateLimitExceeded       // HTTP 403
    | InvalidQuery            // HTTP 422
    | ApiError(status: int)   // any other non-200 status
    | TimedOut
    | FetchError              // an exception while fetching or decoding
    | UnknownCategory(category: string)

  /** The effect of one call of `search_repositories`: the new counter, the
      returned items, the notice and whether an HTTP request was issued. */
  datatype SearchEffect = SearchEffect(remaining: int, items: seq<Repo>, notice: Notice, issued: bool)

  /** True when the outcome is an HTTP 200 answer. */
  predicate IsOk(outcome: SearchOutcome)
  {
    outcome.Response? && outcome.status == 200
  }

  /** One call of `search_repositories` with the counter at `remaining`. */
  function SearchStep(remaining: int, outcome: SearchOutcome): (e: SearchEffect)
    // a request goes out exactly when the counter is above the low-water mark
    ensures e.issued <==> remaining > LowWaterMark
    // the counter drops, by exactly one, only for an issued request answered 200
    ensures e.remaining == if e.issued && IsOk(outcome) then remaining - 1 else remaining
    // only a 200 answer whose body lists items yields any
    ensures e.items != [] ==> e.issued && IsOk(outcome) && outcome.body.Items? && e.items == outcome.body.items
    ensures e.issued && IsOk(outcome) && outcome.body.Items? ==> e.items == outcome.body.items
    ensures e.notice == Quiet <==> e.issued && IsOk(outcome) && !outcome.body.Unparsable?
    // the notice names the failure: the local guard, 403, 422, another
    // status, a timeout, or an exception while fetching or decoding
    ensures !e.issued ==> e.notice == RateLimitLow
    ensures e.issued && outcome.Response? && outcome.status == 403 ==> e.notice == RateLimitExceeded
    ensures e.issued && outcome.Response? && outcome.status == 422 ==> e.notice == InvalidQuery
    ensures e.issued && outcome.Response? && outcome.status !in {200, 403, 422} ==> e.notice == ApiError(outcome.status)
    ensures e.issued && outcome.Timeout? ==> e.notice == TimedOut
    ensures e.notice == FetchError <==> e.issued && (outcome.RequestFailed? || (IsOk(outcome) && outcome.body.Unparsable?))
  {
    if remaining <= LowWaterMark then
      SearchEffect(remaining, [], RateLimitLow, false)
    else
      match outcome
      case Response(status, body) =>
        if status == 200 then
          match body
          case Items(items) => SearchEffect(remaining - 1, items, Quiet, true)
          case NoItems => SearchEffect(remaining - 1, [], Quiet, true)
          case Unparsable => SearchEffect(remaining - 1, [], FetchError, true)
        else if status == 403 then SearchEffect(remaining, [], RateLimitExceeded, true)
        else if status == 422 then SearchEffect(remaining, [], InvalidQuery, true)
        else SearchEffect(remaining, [], ApiError(status), true)
      case Timeout => SearchEffect(remaining, [], TimedOut, true)
      case RequestFailed => SearchEffect(remaining, [], FetchError, true)
  }

  /** The counter after a series of searches with the given outcomes. */
  function QuotaAfter(remaining: int, outcomes: seq<SearchOutcome>): int
    decreases |outcomes|
  {
    if outcomes == [] then remaining
    else QuotaAfter(SearchStep(remaining, outcomes[0]).remaining, outcomes[1..])
  }

  /** How many of those searches were issued and answered 200. */
  function ChargedSearches(remaining: int, outcomes: seq<SearchOutcome>): nat
    decreases |outcomes|
  {
    if outcomes == [] then 0
    else
      var e := SearchStep(remaining, outcomes[0]);
      (if e.issued && IsOk(outcomes[0]) then 1 else 0) + ChargedSearches(e.remaining, outcomes[1..])
  }

  /** The local guard is the only brake on the counter: every charged search
      costs exactly one unit, the counter never rises, and once it is at or
      below the low-water mark no search is charged, so a counter that starts
      at `c` admits at most `c - 5` successful searches. */
  lemma {:induction false} QuotaAccounting(remaining: int, outcomes: seq<SearchOutcome>)
    ensures QuotaAfter(remaining, outcomes) == remaining - ChargedSearches(remaining, outcomes)
    ensures ChargedSearches(remaining, outcomes) <= if remaining > LowWaterMark then remaining - LowWaterMark else 0
    ensures QuotaAfter(remaining, outcomes) >= if remaining < LowWaterMark then remaining else LowWaterMark
    decreases |outcomes|
  {
    if outcomes != [] {
      QuotaAccounting(SearchStep(remaining, outcomes[0]).remaining, outcomes[1..]);
    }
  }

  /** A search made while the counter is at or below the low-water mark
      changes nothing, issues nothing and returns nothing. */
  lemma LowQuotaRefuses(remaining: int, outcome: SearchOutcome)
    requires remaining <= LowWaterMark
    ensures SearchStep(remaining, outcome) == SearchEffect(remaining, [], RateLimitLow, false)
  {
  }

  /** Every failure outcome (403, 422, another status, a timeout, an
      exception) leaves the counter alone and yields no items. */
  lemma FailureKeepsQuota(remaining: int, outcome: SearchOutcome)
    requires !IsOk(outcome)
    ensures SearchStep(remaining, outcome).remaining == remaining
    ensures SearchStep(remaining, outcome).items == []
  {
  }

  /** What `requests.get` on the rate-limit endpoint yields. `remaining` is
      `data['rate']['remaining']`, None when the body lacks it. */
  datatype RateLimitResponse =
    | RateResponse(status: int, remaining: Option<int>)
    | RateRequestFailed

  /** The first component of `check_rate_limit`'s result, with what it carries. */
  datatype RateCheck =
    | Checked(remaining: int)   // (True, data)
    | CheckFailed(status: int)  // (False, "Rate limit check failed: <status>")
    | CheckError                // (False, "Could not check rate limit: <e>")
  {
    predicate Succeeded() { Checked? }
  }

  /** `check_rate_limit` with the counter at `remaining`: the new counter and
      the reported result. */
  function RateCheckStep(remaining: int, response: RateLimitResponse): (r: (int, RateCheck))
    // success exactly on a 200 answer that reports the remaining quota
    ensures r.1.Succeeded() <==> response.RateResponse? && response.status == 200 && response.remaining.Some?
    // on success the counter is resynchronised to the reported value ...
    ensures r.1.Succeeded() ==> r.0 == response.remaining.value && r.1.remaining == r.0
    // ... and on failure it is left alone
    ensures !r.1.Succeeded() ==> r.0 == remaining
  {
    match response
    case RateRequestFailed => (remaining, CheckError)
    case RateResponse(status, reported) =>
      if status != 200 then (remaining, CheckFailed(status))
      else if reported.None? then (remaining, CheckError)
      else (reported.value, Checked(reported.value))
  }

  /** After a check reporting at most five remaining calls, the next search
      is refused without a request. */
  lemma ResyncBelowMarkBlocksSearch(remaining: int, response: RateLimitResponse, outcome: SearchOutcome)
    requires response.RateResponse? && response.status == 200
    requires response.remaining.Some? && response.remaining.value <= LowWaterMark
    ensures !SearchStep(RateCheckStep(remaining, response).0, outcome).issued
  {
  }

  /** The request headers built by `__init__`: the Accept header always, and
      an Authorization header exactly when the token is not blank. */
  function RequestHeaders(token: Option<string>): (h: map<string, string>)
    ensures "Accept" in h && h["Accept"] == AcceptHeader
    ensures "Authorization" in h <==> token.Some? && !IsBlank(token.value)
    ensures "Authorization" in h ==> h["Authorization"] == "token " + Strip(token.value)
    ensures h.Keys <= {"Accept", "Authorization"}
  {
    var accept := map["Accept" := AcceptHeader];
    if token.Some? && Strip(token.value) != "" then
      accept["Authorization" := "token " + Strip(token.value)]
    else
      accept
  }
}
