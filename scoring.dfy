/** The interest score of `calculate_interest_score`, over exact reals. The
    age of a repository in whole days is an input: None when `created_at`
    is missing or does not parse. */
module Scoring {
  import opened Repository

  /** A scored search result. `reasoning`, a formatted breakdown of the
      terms, is not modelled. */
  datatype Scored = Scored(repo: Repo, score: real)

  /** The fixed language-boost table. */
  const LanguageMultipliers: map<string, real> := map[
    "JavaScript" := 1.2, "Python" := 1.3, "TypeScript" := 1.1,
    "Go" := 1.0, "Rust" := 1.4, "Swift" := 0.9, "Kotlin" := 0.8,
    "Java" := 1.1, "C++" := 1.0, "C#" := 0.9, "PHP" := 0.8]

  function Max(a: real, b: real): real
  {
    if a >= b then a else b
  }

  /** Stars, forks and watchers, weighted 1.0, 2.0 and 1.5. */
  function Popularity(r: Repo): real
  {
    r.stars as real * 1.0 + r.forks as real * 2.0 + r.watchers as real * 1.5
  }

  /** Open issues at 0.1 each, 10 for a wiki, 5 per topic. */
  function Activity(r: Repo): real
  {
    r.openIssues as real * 0.1 + (if r.hasWiki then 10.0 else 0.0) + |r.topics| as real * 5.0
  }

  /** The recency multiplier: linear decay over a year, floored at 0.1,
      0.5 when the creation date is unknown, and uncapped above for a
      creation date in the future. */
  function RecencyMultiplier(daysOld: Option<int>): (m: real)
    ensures m >= 0.1
    ensures daysOld.None? ==> m == 0.5
    ensures daysOld.Some? && daysOld.value >= 0 ==> m <= 1.0
    ensures daysOld.Some? && daysOld.value < 0 ==> m > 1.0
  {
    match daysOld
    case None => 0.5
    case Some(d) => Max(0.1, 1.0 - d as real / 365.0)
  }

  /** The floor is reached exactly from day 329 on (1 - 328/365 is still
      above 0.1), so a ten-year-old repository gets exactly 0.1. */
  lemma RecencyFloor(d: int)
    ensures RecencyMultiplier(Some(d)) == 0.1 <==> d >= 329
  {
    if d <= 328 {
      assert 1.0 - d as real / 365.0 >= 1.0 - 328.0 / 365.0;
    }
  }

  /** Older repositories never score a higher multiplier. */
  lemma RecencyAntitone(d: int, e: int)
    requires d <= e
    ensures RecencyMultiplier(Some(e)) <= RecencyMultiplier(Some(d))
  {
  }

  /** The boost of `language_multipliers.get(repo.get('language'), 1.0)`. */
  function LanguageBoost(language: JsonText): (b: real)
    ensures 0.8 <= b <= 1.4
    ensures !(language.Text? && language.value in LanguageMultipliers) ==> b == 1.0
  {
    if language.Text? && language.value in LanguageMultipliers then
      LanguageMultipliers[language.value]
    else
      1.0
  }

  /** Listed languages get their table value; the lookup is case-sensitive. */
  lemma LanguageBoostTable()
    ensures LanguageBoost(Text("Rust")) == 1.4
    ensures LanguageBoost(Text("Kotlin")) == 0.8
    ensures LanguageBoost(Text("Python")) == 1.3
    ensures LanguageBoost(Text("python")) == 1.0
    ensures LanguageBoost(Missing) == LanguageBoost(Null) == 1.0
  {
  }

  /** `final_score`: (popularity + activity) * recency * language boost.
      Both multipliers are positive, so the score has the sign of the raw
      signal popularity + activity; for a repository not dated in the
      future it is at most 1.4 times that signal and at least 0.08 times it. */
  function InterestScore(r: Repo, daysOld: Option<int>): (score: real)
    ensures score == 0.0 <==> Popularity(r) + Activity(r) == 0.0
    ensures score > 0.0 <==> Popularity(r) + Activity(r) > 0.0
    ensures Popularity(r) + Activity(r) >= 0.0 ==> score >= (Popularity(r) + Activity(r)) * 0.08
    ensures Popularity(r) + Activity(r) >= 0.0 && (daysOld.None? || daysOld.value >= 0) ==>
              score <= (Popularity(r) + Activity(r)) * 1.4
  {
    Scale(Popularity(r) + Activity(r), RecencyMultiplier(daysOld), LanguageBoost(r.language))
  }

  /** The raw signal `x` scaled by the recency multiplier `m` and the
      language boost `b`: it keeps the sign of `x` and lies between 0.08 and
      1.4 times it. */
  function Scale(x: real, m: real, b: real): (y: real)
    requires m >= 0.1 && 0.8 <= b <= 1.4
    ensures y == 0.0 <==> x == 0.0
    ensures y > 0.0 <==> x > 0.0
    ensures x >= 0.0 ==> y >= x * 0.08
    ensures x >= 0.0 && m <= 1.0 ==> y <= x * 1.4
  {
    var p := m * b;
    MultiplierBounds(m, b);
    var y := x * p;
    ScaleFacts(x, p, y);
    y
  }

  /** A larger signal never scales to a smaller score. */
  lemma ScaleMonotone(x: real, x': real, m: real, b: real)
    requires x <= x' && m >= 0.1 && 0.8 <= b <= 1.4
    ensures Scale(x, m, b) <= Scale(x', m, b)
  {
    var p := m * b;
    MultiplierBounds(m, b);
    Distribute(p, x, x');
    MulNonNeg(p, x' - x);
    assert x * p == p * x && x' * p == p * x';
  }

  /** The product of the two multipliers lies between 0.08 and, for a
      recency multiplier of at most 1, 1.4. */
  lemma MultiplierBounds(m: real, b: real)
    requires m >= 0.1 && 0.8 <= b <= 1.4
    ensures m * b >= 0.08
    ensures m <= 1.0 ==> m * b <= 1.4
  {
    Distribute(b, 0.1, m);
    MulNonNeg(b, m - 0.1);
    if m <= 1.0 {
      Distribute(b, m, 1.0);
      MulNonNeg(b, 1.0 - m);
    }
  }

  /** Scaling by a factor of at least 0.08 keeps the sign, and for a
      non-negative value stays between 0.08 and, below 1.4, 1.4 times it. */
  lemma ScaleFacts(x: real, p: real, y: real)
    requires p >= 0.08 && y == x * p
    ensures y == 0.0 <==> x == 0.0
    ensures y > 0.0 <==> x > 0.0
    ensures x >= 0.0 ==> y >= x * 0.08
    ensures x >= 0.0 && p <= 1.4 ==> y <= x * 1.4
  {
    if x > 0.0 {
      MulPos(x, p);
      Distribute(x, 0.08, p);
      MulNonNeg(x, p - 0.08);
      if p <= 1.4 {
        Distribute(x, p, 1.4);
        MulNonNeg(x, 1.4 - p);
      }
    } else if x < 0.0 {
      MulPos(-x, p);
      Distribute(p, x, 0.0);
      assert x * p == p * x;
    }
  }

  lemma MulNonNeg(a: real, c: real)
    requires a >= 0.0 && c >= 0.0
    ensures a * c >= 0.0
  {
  }

  lemma MulPos(a: real, c: real)
    requires a > 0.0 && c > 0.0
    ensures a * c > 0.0
  {
  }

  lemma Distribute(c: real, a: real, a': real)
    ensures c * a' - c * a == c * (a' - a)
  {
  }

  /** The entry `calculate_interest_score` returns: the record unchanged,
      with its score. */
  function ScoreRepo(r: Repo, ageOf: string -> Option<int>): (s: Scored)
    ensures s.repo == r
  {
    Scored(r, InterestScore(r, DaysOld(r, ageOf)))
  }

  /** The whole days since `created_at`, when it is a string `ageOf` parses;
      a missing or null `created_at` makes `strptime` raise, like an
      unparsable one. */
  function DaysOld(r: Repo, ageOf: string -> Option<int>): (d: Option<int>)
    ensures r.createdAt.Text? ==> d == ageOf(r.createdAt.value)
    ensures !r.createdAt.Text? ==> d.None?
    ensures d.None? ==> RecencyMultiplier(d) == 0.5
  {
    if r.createdAt.Text? then ageOf(r.createdAt.value) else None
  }

  /** With non-negative counts the score is never negative. */
  lemma ScoreNonNegative(r: Repo, daysOld: Option<int>)
    requires r.stars >= 0 && r.forks >= 0 && r.watchers >= 0 && r.openIssues >= 0
    ensures InterestScore(r, daysOld) >= 0.0
  {
    assert Popularity(r) + Activity(r) >= 0.0;
  }

  lemma PopularityMonotone(r: Repo, r': Repo)
    requires r'.stars >= r.stars && r'.forks >= r.forks && r'.watchers >= r.watchers
    ensures Popularity(r) <= Popularity(r')
  {
  }

  /** More stars, forks or watchers, everything else fixed, never lower the
      score. */
  lemma ScoreMonotone(r: Repo, stars: int, forks: int, watchers: int, daysOld: Option<int>)
    requires stars >= r.stars && forks >= r.forks && watchers >= r.watchers
    ensures InterestScore(r, daysOld) <= InterestScore(r.(stars := stars, forks := forks, watchers := watchers), daysOld)
  {
    var r' := r.(stars := stars, forks := forks, watchers := watchers);
    PopularityMonotone(r, r');
    assert Activity(r') == Activity(r) && r'.language == r.language;
    ScaleMonotone(Popularity(r) + Activity(r), Popularity(r') + Activity(r'),
                  RecencyMultiplier(daysOld), LanguageBoost(r.language));
  }
}
