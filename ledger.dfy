/**
 * The score ledger `user_scores`: a process-wide dictionary from user id to
 * the list of that user's completed attempts, and the two queries that read
 * it, `leaderboard` and `show_score`.
 */
module Ledgers {
  import opened Wrappers

  /** One completed attempt: `{'score', 'date', 'total_questions'}`. */
  datatype Record = Record(score: int, date: string, totalQuestions: nat)

  /** One row of the leaderboard: a user and that user's best score. */
  datatype Entry = Entry(user: UserId, best: int)

  /** The leaderboard keeps at most this many rows. */
  const LeaderboardSize: nat := 10

  function Min(a: int, b: int): int { if a <= b then a else b }

  // ---------------------------------------------------------------------
  // max / sum over a user's records
  // ---------------------------------------------------------------------

  /** `max([s['score'] for s in records])`. */
  function MaxScore(rs: seq<Record>): (m: int)
    requires rs != []
    ensures exists k :: 0 <= k < |rs| && rs[k].score == m
    ensures forall k :: 0 <= k < |rs| ==> rs[k].score <= m
  {
    if |rs| == 1 then rs[0].score
    else
      var m, last := MaxScore(rs[..|rs| - 1]), rs[|rs| - 1].score;
      if last > m then last else m
  }

  /** `sum([s['score'] for s in records])`. */
  function SumScores(rs: seq<Record>): (sum: int)
    ensures (forall k :: 0 <= k < |rs| ==> rs[k].score >= 0) ==> sum >= 0
    ensures (forall k :: 0 <= k < |rs| ==> rs[k].score % 10 == 0) ==> sum % 10 == 0
  {
    if rs == [] then 0 else SumScores(rs[..|rs| - 1]) + rs[|rs| - 1].score
  }

  /** The total of the scores is at most their count times the best. */
  lemma {:induction false} SumAtMostCountTimesMax(rs: seq<Record>)
    requires rs != []
    ensures SumScores(rs) <= |rs| * MaxScore(rs)
  {
    if |rs| > 1 {
      var init, last := rs[..|rs| - 1], rs[|rs| - 1].score;
      var m, m' := MaxScore(init), MaxScore(rs);
      SumAtMostCountTimesMax(init);
      assert SumScores(rs) == SumScores(init) + last;
      assert m' == if last > m then last else m;
      MulMonotone(|init|, m, m');
      MulSucc(|init|, m');
    }
  }

  lemma MulMonotone(a: nat, b: int, c: int)
    requires b <= c
    ensures a * b <= a * c
  {
  }

  lemma MulSucc(a: nat, b: int)
    ensures (a + 1) * b == a * b + b
  {
  }

  /** Python's `sum // n` for a positive count is the floor of the mean, and at most any upper bound of the mean. */
  lemma FloorMean(sum: int, n: nat, bound: int)
    requires n > 0 && sum <= n * bound
    ensures (sum / n) * n <= sum < (sum / n + 1) * n
    ensures sum / n <= bound
  {
    var q := sum / n;
    assert sum == q * n + sum % n;
    if q > bound {
      MulMonotone(n, bound + 1, q);
      assert false;
    }
  }

  /** What `show_score` reports for a user with records. */
  datatype Stats = Stats(games: nat, best: int, average: int, lastDate: string)

  /**
   * `show_score`'s figures: the number of games, the best score, the floor
   * of the mean (`sum // total_games`) and the date of the last attempt.
   */
  function StatsOf(rs: seq<Record>): (s: Stats)
    requires rs != []
    ensures s.games == |rs| > 0
    ensures (exists k :: 0 <= k < |rs| && rs[k].score == s.best) && forall k :: 0 <= k < |rs| ==> rs[k].score <= s.best
    ensures s.average * s.games <= SumScores(rs) < (s.average + 1) * s.games
    ensures s.average <= s.best
    ensures s.lastDate == rs[|rs| - 1].date
  {
    var games, best, sum := |rs|, MaxScore(rs), SumScores(rs);
    SumAtMostCountTimesMax(rs);
    FloorMean(sum, games, best);
    Stats(games, best, sum / games, rs[|rs| - 1].date)
  }

  // ---------------------------------------------------------------------
  // sorted(best_scores.items(), key=score, reverse=True)[:10]
  // ---------------------------------------------------------------------

  predicate SortedByBest(es: seq<Entry>)
  {
    forall i, j :: 0 <= i < j < |es| ==> es[i].best >= es[j].best
  }

  /** Insert `e` ahead of every entry it ties with, behind every better one. */
  function Insert(e: Entry, es: seq<Entry>): (r: seq<Entry>)
    ensures |r| == |es| + 1
  {
    if es == [] || es[0].best <= e.best then [e] + es
    else [es[0]] + Insert(e, es[1..])
  }

  lemma {:induction false} InsertPermutes(e: Entry, es: seq<Entry>)
    ensures multiset(Insert(e, es)) == multiset(es) + multiset{e}
  {
    if es != [] && es[0].best > e.best {
      InsertPermutes(e, es[1..]);
      assert es == [es[0]] + es[1..];
    }
  }

  lemma {:induction false} InsertSorted(e: Entry, es: seq<Entry>)
    requires SortedByBest(es)
    ensures SortedByBest(Insert(e, es))
  {
    if es != [] && es[0].best > e.best {
      var rest := Insert(e, es[1..]);
      InsertSorted(e, es[1..]);
      InsertPermutes(e, es[1..]);
      forall k | 0 <= k < |rest|
        ensures rest[k].best <= es[0].best
      {
        assert rest[k] in multiset(es[1..]) + multiset{e};
        if rest[k] != e {
          assert rest[k] in es[1..];
        }
      }
    }
  }

  /** Python's stable sort by best score, descending (`sorted(..., reverse=True)`). */
  function SortByBest(es: seq<Entry>): (r: seq<Entry>)
    ensures |r| == |es|
  {
    if es == [] then [] else Insert(es[0], SortByBest(es[1..]))
  }

  /** The sort returns a permutation of its input. */
  lemma {:induction false} SortByBestPermutes(es: seq<Entry>)
    ensures multiset(SortByBest(es)) == multiset(es)
  {
    if es != [] {
      SortByBestPermutes(es[1..]);
      InsertPermutes(es[0], SortByBest(es[1..]));
      assert es == [es[0]] + es[1..];
    }
  }

  /** The sort's output is non-increasing in best score. */
  lemma {:induction false} SortByBestSorted(es: seq<Entry>)
    ensures SortedByBest(SortByBest(es))
  {
    if es != [] {
      SortByBestSorted(es[1..]);
      InsertSorted(es[0], SortByBest(es[1..]));
    }
  }

  /** The entries with best score `v`, in order. */
  function WithBest(es: seq<Entry>, v: int): seq<Entry>
  {
    if es == [] then []
    else (if es[0].best == v then [es[0]] else []) + WithBest(es[1..], v)
  }

  lemma WithBestCons(x: Entry, s: seq<Entry>, v: int)
    ensures WithBest([x] + s, v) == (if x.best == v then [x] else []) + WithBest(s, v)
  {
    assert ([x] + s)[0] == x;
    assert ([x] + s)[1..] == s;
  }

  lemma {:induction false} InsertKeepsTies(e: Entry, es: seq<Entry>, v: int)
    ensures WithBest(Insert(e, es), v) == (if e.best == v then [e] else []) + WithBest(es, v)
  {
    if es == [] || es[0].best <= e.best {
      WithBestCons(e, es, v);
    } else {
      var rest := Insert(e, es[1..]);
      assert Insert(e, es) == [es[0]] + rest;
      InsertKeepsTies(e, es[1..], v);
      WithBestCons(es[0], rest, v);
      WithBestCons(es[0], es[1..], v);
      assert [es[0]] + es[1..] == es;
      if e.best == v {
        assert es[0].best != v;
        calc {
          WithBest(Insert(e, es), v);
          WithBest(rest, v);
          [e] + WithBest(es[1..], v);
          [e] + WithBest(es, v);
        }
      } else {
        assert WithBest(rest, v) == WithBest(es[1..], v);
      }
    }
  }

  /** Stability: entries that tie keep their original relative order. */
  lemma {:induction false} SortByBestStable(es: seq<Entry>, v: int)
    ensures WithBest(SortByBest(es), v) == WithBest(es, v)
  {
    if es != [] {
      SortByBestStable(es[1..], v);
      InsertKeepsTies(es[0], SortByBest(es[1..]), v);
    }
  }

  /** An entry left out of a prefix of the sorted entries scores no more than any entry kept. */
  lemma TopNOmitted(es: seq<Entry>, n: nat)
    ensures forall e :: e in es && e !in SortByBest(es)[..Min(n, |es|)] ==>
      forall k :: 0 <= k < Min(n, |es|) ==> e.best <= SortByBest(es)[k].best
  {
    var sorted := SortByBest(es);
    var r := sorted[..Min(n, |es|)];
    SortByBestPermutes(es);
    SortByBestSorted(es);
    forall e | e in es && e !in r
      ensures forall k :: 0 <= k < |r| ==> e.best <= sorted[k].best
    {
      assert e in multiset(sorted);
      var j :| 0 <= j < |sorted| && sorted[j] == e;
    }
  }

  lemma TopNMembers(es: seq<Entry>, n: nat)
    ensures multiset(SortByBest(es)[..Min(n, |es|)]) <= multiset(es)
    ensures forall k :: 0 <= k < Min(n, |es|) ==> SortByBest(es)[k] in es
  {
    var sorted := SortByBest(es);
    var m := Min(n, |es|);
    SortByBestPermutes(es);
    assert sorted == sorted[..m] + sorted[m..];
    forall k | 0 <= k < m
      ensures sorted[k] in es
    {
      assert sorted[k] in multiset(sorted);
    }
  }

  /** `sorted(...)[:n]`: the at most `n` best entries, best first. */
  function TopN(es: seq<Entry>, n: nat): (r: seq<Entry>)
    ensures |r| == Min(n, |es|)
    ensures SortedByBest(r)
    ensures multiset(r) <= multiset(es)
    ensures forall k :: 0 <= k < |r| ==> r[k] in es
    ensures forall e :: e in es && e !in r ==> forall k :: 0 <= k < |r| ==> e.best <= r[k].best
  {
    TopNOmitted(es, n);
    TopNMembers(es, n);
    SortByBestSorted(es);
    SortByBest(es)[..Min(n, |es|)]
  }

  // ---------------------------------------------------------------------
  // The ledger object
  // ---------------------------------------------------------------------

  /** `best_scores` as the loop in `leaderboard` fills it, in the ledger's key order. */
  function BestTable(users: seq<UserId>, scores: map<UserId, seq<Record>>): (best: seq<Entry>)
    requires forall k :: 0 <= k < |users| ==> users[k] in scores && scores[users[k]] != []
    ensures |best| == |users|
  {
    seq(|users|, k requires 0 <= k < |users| => Entry(users[k], MaxScore(scores[users[k]])))
  }

  /** Row `k` of `best_scores` holds a score its user attained, and none of that user's records beats it. */
  lemma BestTableRow(users: seq<UserId>, scores: map<UserId, seq<Record>>, k: nat)
    requires forall k :: 0 <= k < |users| ==> users[k] in scores && scores[users[k]] != []
    requires k < |users|
    ensures var rs, e := scores[users[k]], BestTable(users, scores)[k];
      && e.user == users[k]
      && (exists j :: 0 <= j < |rs| && rs[j].score == e.best)
      && (forall j :: 0 <= j < |rs| ==> rs[j].score <= e.best)
  {
  }

  /** The rows of the top-`n` table are users with their true best scores. */
  lemma TopRowsAreBestScores(users: seq<UserId>, scores: map<UserId, seq<Record>>, n: nat)
    requires forall k :: 0 <= k < |users| ==> users[k] in scores && scores[users[k]] != []
    ensures var top := TopN(BestTable(users, scores), n);
      forall k :: 0 <= k < |top| ==> top[k].user in scores && top[k].best == MaxScore(scores[top[k].user])
  {
    var best := BestTable(users, scores);
    var top := TopN(best, n);
    forall k | 0 <= k < |top|
      ensures top[k].user in scores && top[k].best == MaxScore(scores[top[k].user])
    {
      var i :| 0 <= i < |best| && best[i] == top[k];
      assert best[i] == Entry(users[i], MaxScore(scores[users[i]]));
    }
  }

  /** A user without a row in the top-`n` table scored no more than every row. */
  lemma OmittedUsersScoreNoMore(users: seq<UserId>, scores: map<UserId, seq<Record>>, n: nat)
    requires forall k :: 0 <= k < |users| ==> users[k] in scores && scores[users[k]] != []
    requires forall u :: u in scores ==> u in users
    ensures var top := TopN(BestTable(users, scores), n);
      forall u :: u in scores && (forall k :: 0 <= k < |top| ==> top[k].user != u) ==>
        forall k :: 0 <= k < |top| ==> MaxScore(scores[u]) <= top[k].best
  {
    var best := BestTable(users, scores);
    var top := TopN(best, n);
    forall u | u in scores && (forall k :: 0 <= k < |top| ==> top[k].user != u)
      ensures forall k :: 0 <= k < |top| ==> MaxScore(scores[u]) <= top[k].best
    {
      var i :| 0 <= i < |users| && users[i] == u;
      var e := best[i];
      assert e == Entry(u, MaxScore(scores[u]));
      assert e in best;
      assert forall j :: 0 <= j < |top| ==> top[j] != e;
    }
  }

  /** The ledger after appending `r` to `user`'s list, creating the list for a new user. */
  function Appended(scores: map<UserId, seq<Record>>, user: UserId, r: Record): (after: map<UserId, seq<Record>>)
    ensures after.Keys == scores.Keys + {user}
    ensures |after[user]| >= 1 && after[user][|after[user]| - 1] == r
    ensures user in scores ==> after[user][..|after[user]| - 1] == scores[user]
    ensures user !in scores ==> after[user] == [r]
    ensures forall v :: v in scores && v != user ==> after[v] == scores[v]
  {
    var history := (if user in scores then scores[user] else []) + [r];
    assert history[..|history| - 1] == (if user in scores then scores[user] else []);
    scores[user := history]
  }

  /** Every earlier history is still there, unchanged, at the front of the later one. */
  ghost predicate Grows(before: map<UserId, seq<Record>>, after: map<UserId, seq<Record>>)
  {
    forall u :: u in before ==> u in after && before[u] <= after[u]
  }

  class Ledger {
    /** The user's attempts, oldest first. */
    var scores: map<UserId, seq<Record>>
    /** The dictionary's keys in insertion order (Python dicts keep it). */
    var users: seq<UserId>

    ghost predicate Valid()
      reads this
    {
      && (forall k :: 0 <= k < |users| ==> users[k] in scores && scores[users[k]] != [])
      && (forall u :: u in scores ==> u in users)
      && (forall i, j :: 0 <= i < j < |users| ==> users[i] != users[j])
      && (forall u :: u in scores ==> scores[u] != [])
    }

    constructor ()
      ensures Valid() && scores == map[] && users == []
    {
      scores := map[];
      users := [];
    }

    /**
     * `show_results`' ledger update: create the user's list if missing, then
     * append one record. Earlier records and other users' lists are untouched.
     */
    method Append(user: UserId, r: Record)
      requires Valid()
      modifies this
      ensures Valid()
      ensures scores == Appended(old(scores), user, r)
      ensures users == if user in old(scores) then old(users) else old(users) + [user]
      ensures Grows(old(scores), scores)
    {
      if user !in scores {
        scores := scores[user := []];
        users := users + [user];
        assert scores[user] + [r] == [r];
      }
      scores := scores[user := scores[user] + [r]];
    }

    /**
     * `leaderboard`: each user's best score, sorted best first (ties in the
     * order users first finished a quiz), at most ten rows. A user left out
     * scored no more than every listed row.
     */
    method Leaderboard() returns (top: seq<Entry>)
      requires Valid()
      ensures top == TopN(BestTable(users, scores), LeaderboardSize)
      ensures |top| == Min(LeaderboardSize, |users|) && |top| <= LeaderboardSize
      ensures SortedByBest(top)
      ensures forall k :: 0 <= k < |top| ==> top[k].user in scores && top[k].best == MaxScore(scores[top[k].user])
      ensures forall u :: u in scores && (forall k :: 0 <= k < |top| ==> top[k].user != u) ==>
        forall k :: 0 <= k < |top| ==> MaxScore(scores[u]) <= top[k].best
    {
      if users == [] {
        assert BestTable(users, scores) == [];
        return [];
      }
      var best: seq<Entry> := [];
      for i := 0 to |users|
        invariant |best| == i
        invariant forall k :: 0 <= k < i ==> best[k] == Entry(users[k], MaxScore(scores[users[k]]))
      {
        var u := users[i];
        best := best + [Entry(u, MaxScore(scores[u]))];
      }
      assert best == BestTable(users, scores);
      top := TopN(best, LeaderboardSize);
      TopRowsAreBestScores(users, scores, LeaderboardSize);
      OmittedUsersScoreNoMore(users, scores, LeaderboardSize);
    }

    /** `show_score`: nothing for a user without games, otherwise the user's statistics. */
    function ShowScore(user: UserId): (r: Option<Stats>)
      reads this
      requires Valid()
      ensures r.None? <==> user !in scores
      ensures r.Some? ==> r.value == StatsOf(scores[user])
    {
      if user in scores then Some(StatsOf(scores[user])) else None
    }
  }
}
