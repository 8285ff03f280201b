/** `sorted(scored, key=lambda x: x['score'], reverse=True)`: a stable sort,
    highest score first, entries of equal score kept in their original
    order. Stated here as an insertion sort over sequences. */
module Ranking {
  import opened Scoring

  /** Non-increasing by score. */
  predicate SortedDesc(s: seq<Scored>)
  {
    forall i, j :: 0 <= i < j < |s| ==> s[i].score >= s[j].score
  }

  /** The entries of `s` whose score is `v`, in their order in `s`. */
  function WithScore(s: seq<Scored>, v: real): seq<Scored>
  {
    if s == [] then []
    else (if s[0].score == v then [s[0]] else []) + WithScore(s[1..], v)
  }

  /** Puts `x` before the first entry whose score is not above its own. */
  function InsertByScore(x: Scored, s: seq<Scored>): seq<Scored>
  {
    if s == [] || x.score >= s[0].score then [x] + s
    else [s[0]] + InsertByScore(x, s[1..])
  }

  /** The ranking keeps every entry: it is a permutation of its input. */
  function RankByScore(s: seq<Scored>): (r: seq<Scored>)
    ensures |r| == |s| && multiset(r) == multiset(s)
  {
    if s == [] then []
    else
      var rest := RankByScore(s[1..]);
      InsertPermutes(s[0], rest);
      assert s == [s[0]] + s[1..];
      InsertByScore(s[0], rest)
  }

  /** No entry scores above `b`. */
  predicate AllAtMost(s: seq<Scored>, b: real)
  {
    forall k :: 0 <= k < |s| ==> s[k].score <= b
  }

  lemma {:induction false} InsertAtMost(x: Scored, s: seq<Scored>, b: real)
    requires AllAtMost(s, b) && x.score <= b
    ensures AllAtMost(InsertByScore(x, s), b)
  {
    if s != [] && x.score < s[0].score {
      InsertAtMost(x, s[1..], b);
    }
  }

  lemma {:induction false} InsertPermutes(x: Scored, s: seq<Scored>)
    ensures multiset(InsertByScore(x, s)) == multiset(s) + multiset{x}
    ensures |InsertByScore(x, s)| == |s| + 1
  {
    if s != [] && x.score < s[0].score {
      InsertPermutes(x, s[1..]);
      assert s == [s[0]] + s[1..];
    }
  }

  lemma {:induction false} InsertSorted(x: Scored, s: seq<Scored>)
    requires SortedDesc(s)
    ensures SortedDesc(InsertByScore(x, s))
  {
    if s != [] && x.score < s[0].score {
      InsertSorted(x, s[1..]);
      assert AllAtMost(s[1..], s[0].score);
      InsertAtMost(x, s[1..], s[0].score);
    }
  }

  /** Inserting `x` adds it in front of the entries of equal score. */
  lemma {:induction false} InsertWithScore(x: Scored, s: seq<Scored>, v: real)
    ensures WithScore(InsertByScore(x, s), v) == (if x.score == v then [x] else []) + WithScore(s, v)
  {
    var t := InsertByScore(x, s);
    if s == [] || x.score >= s[0].score {
      assert t == [x] + s && t[0] == x && t[1..] == s;
    } else {
      InsertWithScore(x, s[1..], v);
      assert t[0] == s[0] && t[1..] == InsertByScore(x, s[1..]);
    }
  }

  /** The ranking is a permutation of its input, sorted highest first. */
  lemma {:induction false} RankSortedPermutation(s: seq<Scored>)
    ensures SortedDesc(RankByScore(s))
    ensures multiset(RankByScore(s)) == multiset(s)
    ensures |RankByScore(s)| == |s|
  {
    if s != [] {
      RankSortedPermutation(s[1..]);
      InsertSorted(s[0], RankByScore(s[1..]));
    }
  }

  /** Stability: for every score, the entries with that score appear in the
      ranking in the order they had in the input. */
  lemma {:induction false} RankStable(s: seq<Scored>, v: real)
    ensures WithScore(RankByScore(s), v) == WithScore(s, v)
  {
    if s != [] {
      RankStable(s[1..], v);
      InsertWithScore(s[0], RankByScore(s[1..]), v);
    }
  }
}
