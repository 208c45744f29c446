/**
 * The top-ten leaderboard of `leaderboard.js`: a list of finished quizzes kept in
 * non-increasing order of percentage. `addScore` appends an entry, sorts the list with the
 * stable `Array.prototype.sort` and keeps the first ten; the queries filter by topic and
 * summarise the list.
 */
module Ranking {
  import opened Text
  import opened Numeric
  import opened Sequences

  /** One finished quiz; `date` is the ISO timestamp the caller supplies. */
  datatype ScoreEntry = ScoreEntry(name: string, score: int, total: int, topic: string, date: string, percentage: int)

  /** `maxScores`: how many entries the leaderboard keeps. */
  const MaxScores: nat := 10

  /** Non-increasing in percentage: what the comparator `b.percentage - a.percentage` sorts toward. */
  predicate Sorted(s: seq<ScoreEntry>)
  {
    forall i, j :: 0 <= i < j < |s| ==> s[i].percentage >= s[j].percentage
  }

  /**
   * One step of a stable sort: `e` goes in front of the first entry with a strictly smaller
   * percentage, so after every entry that ties with it.
   */
  function Insert(t: seq<ScoreEntry>, e: ScoreEntry): (r: seq<ScoreEntry>)
    ensures |r| == |t| + 1
    ensures multiset(r) == multiset(t) + multiset{e}
  {
    if t == [] || t[0].percentage < e.percentage then
      [e] + t
    else
      assert t == [t[0]] + t[1..];
      [t[0]] + Insert(t[1..], e)
  }

  /** The head of a sorted list has the highest percentage in it. */
  lemma SortedHead(t: seq<ScoreEntry>)
    requires Sorted(t) && t != []
    ensures forall x | x in t :: x.percentage <= t[0].percentage
  {
    forall x | x in t
      ensures x.percentage <= t[0].percentage
    {
      var k :| 0 <= k < |t| && t[k] == x;
      if k > 0 {
        assert t[0].percentage >= t[k].percentage;
      }
    }
  }

  lemma InsertMembers(t: seq<ScoreEntry>, e: ScoreEntry, y: ScoreEntry)
    requires y in Insert(t, e)
    ensures y in t || y == e
  {
    assert y in multiset(Insert(t, e));
  }

  /** Inserting into a sorted list keeps it sorted. */
  lemma {:induction false} InsertSorted(t: seq<ScoreEntry>, e: ScoreEntry)
    requires Sorted(t)
    ensures Sorted(Insert(t, e))
    decreases |t|
  {
    if t == [] {
      assert Insert(t, e) == [e];
    } else if t[0].percentage >= e.percentage {
      var rest := Insert(t[1..], e);
      InsertSorted(t[1..], e);
      SortedHead(t);
      forall y | y in rest
        ensures t[0].percentage >= y.percentage
      {
        InsertMembers(t[1..], e, y);
        if y != e {
          assert y in t;
        }
      }
      ConsSorted(t[0], rest);
      InsertCons(t, e);
    } else {
      SortedHead(t);
      ConsSorted(e, t);
      assert Insert(t, e) == [e] + t;
    }
  }

  /** An entry at least as high as everything in a sorted list can go in front of it. */
  lemma ConsSorted(x: ScoreEntry, rest: seq<ScoreEntry>)
    requires Sorted(rest)
    requires forall y | y in rest :: x.percentage >= y.percentage
    ensures Sorted([x] + rest)
  {
    var r := [x] + rest;
    forall i, j | 0 <= i < j < |r|
      ensures r[i].percentage >= r[j].percentage
    {
      assert r[j] == rest[j - 1];
      if i == 0 {
        assert rest[j - 1] in rest;
      } else {
        assert r[i] == rest[i - 1];
      }
    }
  }

  /**
   * The stable sort that `Array.prototype.sort` performs with the comparator
   * `b.percentage - a.percentage`: a permutation in non-increasing order of percentage.
   */
  function SortDesc(s: seq<ScoreEntry>): (r: seq<ScoreEntry>)
    ensures |r| == |s|
    ensures multiset(r) == multiset(s)
    ensures Sorted(r)
    decreases |s|
  {
    if s == [] then []
    else
      assert s == s[..|s| - 1] + [s[|s| - 1]];
      InsertSorted(SortDesc(s[..|s| - 1]), s[|s| - 1]);
      Insert(SortDesc(s[..|s| - 1]), s[|s| - 1])
  }

  /**
   * What `addScore` keeps of a list: the sorted list cut to `MaxScores` entries. The kept part
   * is sorted, comes from the list, and no entry left out has a higher percentage than one kept.
   */
  function Ranked(s: seq<ScoreEntry>): (r: seq<ScoreEntry>)
    ensures |r| == if |s| < MaxScores then |s| else MaxScores
    ensures Sorted(r)
    ensures multiset(r) <= multiset(s)
    ensures forall x | x in multiset(s) - multiset(r) :: forall y | y in r :: y.percentage >= x.percentage
  {
    var n := if |s| < MaxScores then |s| else MaxScores;
    CutSorted(SortDesc(s), n);
    SortDesc(s)[..n]
  }

  /** Cutting a sorted list keeps it sorted and keeps the highest entries. */
  lemma CutSorted(sorted: seq<ScoreEntry>, n: nat)
    requires Sorted(sorted) && n <= |sorted|
    ensures Sorted(sorted[..n])
    ensures multiset(sorted[..n]) <= multiset(sorted)
    ensures forall x | x in multiset(sorted) - multiset(sorted[..n]) :: forall y | y in sorted[..n] :: y.percentage >= x.percentage
  {
    CutMultiset(sorted, n);
    forall x, y | x in sorted[n..] && y in sorted[..n]
      ensures y.percentage >= x.percentage
    {
      var k := InDrop(sorted, n, x);
      var i := InTake(sorted, n, y);
    }
  }

  lemma CutMultiset<T>(s: seq<T>, n: nat)
    requires n <= |s|
    ensures multiset(s[..n]) <= multiset(s)
    ensures multiset(s) - multiset(s[..n]) == multiset(s[n..])
  {
    assert s == s[..n] + s[n..];
  }

  lemma InDrop<T>(s: seq<T>, n: nat, x: T) returns (k: nat)
    requires n <= |s| && x in s[n..]
    ensures n <= k < |s| && s[k] == x
  {
    var j :| 0 <= j < |s[n..]| && s[n..][j] == x;
    k := n + j;
  }

  lemma InTake<T>(s: seq<T>, n: nat, x: T) returns (k: nat)
    requires n <= |s| && x in s[..n]
    ensures k < n && s[k] == x
  {
    var j :| 0 <= j < n && s[..n][j] == x;
    k := j;
  }

  /** The entries whose percentage is `p`, in list order. */
  function Ties(s: seq<ScoreEntry>, p: int): seq<ScoreEntry>
  {
    if s == [] then [] else (if s[0].percentage == p then [s[0]] else []) + Ties(s[1..], p)
  }

  lemma {:induction false} TiesAppend(a: seq<ScoreEntry>, b: seq<ScoreEntry>, p: int)
    ensures Ties(a + b, p) == Ties(a, p) + Ties(b, p)
    decreases |a|
  {
    if a != [] {
      assert (a + b)[1..] == a[1..] + b;
      TiesAppend(a[1..], b, p);
    } else {
      assert a + b == b;
    }
  }

  lemma {:induction false} TiesNone(s: seq<ScoreEntry>, p: int)
    requires forall x | x in s :: x.percentage < p
    ensures Ties(s, p) == []
    decreases |s|
  {
    if s != [] {
      assert s[0] in s;
      assert forall x | x in s[1..] :: x in s;
      TiesNone(s[1..], p);
    }
  }

  /** Inserting into a sorted list keeps each group of ties in order, with `e` last in its group. */
  lemma {:induction false} InsertTies(t: seq<ScoreEntry>, e: ScoreEntry, p: int)
    requires Sorted(t)
    ensures Ties(Insert(t, e), p) == Ties(t + [e], p)
    decreases |t|
  {
    if t == [] {
      assert Insert(t, e) == [e] == t + [e];
    } else if t[0].percentage < e.percentage {
      InsertTiesFront(t, e, p);
    } else {
      InsertTies(t[1..], e, p);
      InsertTiesStep(t, e, p);
    }
  }

  lemma InsertCons(t: seq<ScoreEntry>, e: ScoreEntry)
    requires t != [] && t[0].percentage >= e.percentage
    ensures Insert(t, e) == [t[0]] + Insert(t[1..], e)
  {
  }

  lemma InsertTiesStep(t: seq<ScoreEntry>, e: ScoreEntry, p: int)
    requires t != [] && t[0].percentage >= e.percentage
    requires Ties(Insert(t[1..], e), p) == Ties(t[1..] + [e], p)
    ensures Ties(Insert(t, e), p) == Ties(t + [e], p)
  {
    InsertCons(t, e);
    TiesAppend([t[0]], Insert(t[1..], e), p);
    assert t + [e] == [t[0]] + (t[1..] + [e]);
    TiesAppend([t[0]], t[1..] + [e], p);
  }

  lemma InsertTiesFront(t: seq<ScoreEntry>, e: ScoreEntry, p: int)
    requires Sorted(t) && t != [] && t[0].percentage < e.percentage
    ensures Ties(Insert(t, e), p) == Ties(t + [e], p)
  {
    assert Insert(t, e) == [e] + t;
    TiesAppend([e], t, p);
    TiesAppend(t, [e], p);
    assert Ties([e], p) == if e.percentage == p then [e] else [] by {
      assert [e][1..] == [];
    }
    if p == e.percentage {
      SortedHead(t);
      TiesNone(t, p);
    }
  }

  /**
   * The sort is stable: for every percentage, the entries with that percentage appear in the
   * sorted list in the order they had before.
   */
  lemma {:induction false} SortStable(s: seq<ScoreEntry>, p: int)
    ensures Ties(SortDesc(s), p) == Ties(s, p)
    decreases |s|
  {
    if s != [] {
      var init, last := s[..|s| - 1], s[|s| - 1];
      assert s == init + [last];
      SortStable(init, p);
      InsertTies(SortDesc(init), last, p);
      TiesAppend(SortDesc(init), [last], p);
      TiesAppend(init, [last], p);
    }
  }

  /** Ties in a prefix are a prefix of the ties in the whole. */
  lemma {:induction false} TiesPrefix(s: seq<ScoreEntry>, n: nat, p: int)
    requires n <= |s|
    ensures Ties(s[..n], p) <= Ties(s, p)
  {
    assert s == s[..n] + s[n..];
    TiesAppend(s[..n], s[n..], p);
  }

  /**
   * The leaderboard after `addScore` keeps entries of equal percentage in the order they had
   * in the list with the new entry pushed at the end (a prefix of that order, once cut).
   */
  lemma RankedStable(s: seq<ScoreEntry>, p: int)
    ensures Ties(Ranked(s), p) <= Ties(s, p)
  {
    var n := if |s| < MaxScores then |s| else MaxScores;
    TiesPrefix(SortDesc(s), n, p);
    SortStable(s, p);
  }

  /** How many entries of `t` have a percentage of at least `p`. */
  function CountAtLeast(t: seq<ScoreEntry>, p: int): nat
  {
    if t == [] then 0 else (if t[0].percentage >= p then 1 else 0) + CountAtLeast(t[1..], p)
  }

  /** In a sorted list, the new entry lands right after every entry whose percentage is at least its own. */
  lemma {:induction false} InsertPosition(t: seq<ScoreEntry>, e: ScoreEntry)
    requires Sorted(t)
    ensures CountAtLeast(t, e.percentage) <= |t|
    ensures Insert(t, e) == t[..CountAtLeast(t, e.percentage)] + [e] + t[CountAtLeast(t, e.percentage)..]
    decreases |t|
  {
    if t == [] {
    } else if t[0].percentage < e.percentage {
      CountNone(t, e.percentage);
    } else {
      InsertPosition(t[1..], e);
      var k := CountAtLeast(t[1..], e.percentage);
      assert t[..k + 1] == [t[0]] + t[1..][..k];
      assert t[k + 1..] == t[1..][k..];
    }
  }

  lemma {:induction false} CountNone(t: seq<ScoreEntry>, p: int)
    requires Sorted(t) && t != [] && t[0].percentage < p
    ensures CountAtLeast(t, p) == 0
    decreases |t|
  {
    if |t| > 1 {
      assert t[1] == t[1..][0] && t[0].percentage >= t[1].percentage;
      CountNone(t[1..], p);
    }
  }

  /** Sorting an already sorted list changes nothing. */
  lemma {:induction false} SortSorted(s: seq<ScoreEntry>)
    requires Sorted(s)
    ensures SortDesc(s) == s
    decreases |s|
  {
    if s != [] {
      var init, last := s[..|s| - 1], s[|s| - 1];
      SortedInit(s);
      SortSorted(init);
      SortSnoc(s);
      InsertPosition(init, last);
      CountAll(init, last.percentage);
      SplitLast(s);
    }
  }

  lemma SplitLast<T>(s: seq<T>)
    requires s != []
    ensures s[..|s| - 1][..|s| - 1] + [s[|s| - 1]] + s[..|s| - 1][|s| - 1..] == s
  {
  }

  lemma SortSnoc(s: seq<ScoreEntry>)
    requires s != []
    ensures SortDesc(s) == Insert(SortDesc(s[..|s| - 1]), s[|s| - 1])
  {
  }

  /** Dropping the last entry of a sorted list leaves a sorted list of entries at least as high. */
  lemma SortedInit(s: seq<ScoreEntry>)
    requires Sorted(s) && s != []
    ensures Sorted(s[..|s| - 1])
    ensures forall x | x in s[..|s| - 1] :: x.percentage >= s[|s| - 1].percentage
  {
    forall x | x in s[..|s| - 1]
      ensures x.percentage >= s[|s| - 1].percentage
    {
      var k :| 0 <= k < |s| - 1 && s[..|s| - 1][k] == x;
      assert s[k] == x;
    }
  }

  lemma {:induction false} CountAll(t: seq<ScoreEntry>, p: int)
    requires forall x | x in t :: x.percentage >= p
    ensures CountAtLeast(t, p) == |t|
    decreases |t|
  {
    if t != [] {
      assert t[0] in t;
      assert forall x | x in t[1..] :: x in t;
      CountAll(t[1..], p);
    }
  }

  /**
   * On a leaderboard that is already in order, `addScore` inserts the new entry after every
   * entry whose percentage is at least its own, ties included, and moves nothing else.
   */
  lemma AddToSorted(s: seq<ScoreEntry>, e: ScoreEntry)
    requires Sorted(s)
    ensures CountAtLeast(s, e.percentage) <= |s|
    ensures SortDesc(s + [e]) == s[..CountAtLeast(s, e.percentage)] + [e] + s[CountAtLeast(s, e.percentage)..]
  {
    assert (s + [e])[..|s|] == s && (s + [e])[|s|] == e;
    SortSorted(s);
    InsertPosition(s, e);
  }

  /** `getScoresByTopic`: exactly the entries on the topic, ignoring case, in list order. */
  function TopicScores(s: seq<ScoreEntry>, topic: string): (r: seq<ScoreEntry>)
    ensures Subsequence(r, s)
    ensures forall x :: multiset(r)[x] == if EqualsIgnoringCase(x.topic, topic) then multiset(s)[x] else 0
  {
    if s == [] then []
    else
      var rest := TopicScores(s[1..], topic);
      assert s == [s[0]] + s[1..];
      if EqualsIgnoringCase(s[0].topic, topic) then
        SubsequenceCons(s[0], rest, s[1..]);
        [s[0]] + rest
      else
        SubsequenceSkip(s[0], rest, s[1..]);
        rest
  }

  /** The result of `getStatistics`. */
  datatype Stats = Stats(totalQuizzes: nat, averageScore: int, bestScore: int, topics: seq<string>)

  function SumPercent(s: seq<ScoreEntry>): int
  {
    if s == [] then 0 else s[0].percentage + SumPercent(s[1..])
  }

  /** The highest percentage on a non-empty list. */
  function BestPercent(s: seq<ScoreEntry>): (b: int)
    requires s != []
    ensures forall x | x in s :: x.percentage <= b
    ensures exists x | x in s :: x.percentage == b
  {
    if |s| == 1 then
      assert s[0] in s;
      s[0].percentage
    else
      var b := BestPercent(s[1..]);
      assert s == [s[0]] + s[1..];
      assert s[0] in s;
      if s[0].percentage > b then s[0].percentage else b
  }

  function TopicList(s: seq<ScoreEntry>): (ts: seq<string>)
    ensures |ts| == |s| && forall i :: 0 <= i < |s| ==> ts[i] == s[i].topic
  {
    seq(|s|, i requires 0 <= i < |s| => s[i].topic)
  }

  predicate Distinct(u: seq<string>)
  {
    forall i, j :: 0 <= i < j < |u| ==> u[i] != u[j]
  }

  /** Position of the first occurrence of `t`. */
  function FirstIndex(ts: seq<string>, t: string): (k: nat)
    requires t in ts
    ensures k < |ts| && ts[k] == t && t !in ts[..k]
  {
    if ts[0] == t then 0
    else
      assert ts[1..][..FirstIndex(ts[1..], t)] == ts[..FirstIndex(ts[1..], t) + 1][1..];
      1 + FirstIndex(ts[1..], t)
  }

  /** Where something occurs in a prefix, its first occurrence is there too. */
  lemma FirstIndexPrefix(ts: seq<string>, n: nat, t: string)
    requires n <= |ts| && t in ts[..n]
    ensures t in ts && FirstIndex(ts, t) == FirstIndex(ts[..n], t)
  {
    var k := FirstIndex(ts[..n], t);
    assert ts[..n][..k] == ts[..k];
  }

  /**
   * `[...new Set(ts)]`: each value once, in the order of first occurrence, as a `Set`
   * remembers insertion order.
   */
  function FirstSeen(ts: seq<string>): (u: seq<string>)
    ensures Distinct(u)
    ensures forall t :: t in u <==> t in ts
    decreases |ts|
  {
    if ts == [] then []
    else
      var init, last := ts[..|ts| - 1], ts[|ts| - 1];
      var u := FirstSeen(init);
      assert ts == init + [last];
      if last in u then u
      else
        assert forall i | 0 <= i < |u| :: (u + [last])[i] == u[i] && u[i] in u;
        u + [last]
  }

  /** `FirstSeen` lists values in the order of their first occurrence. */
  lemma {:induction false} FirstSeenOrder(ts: seq<string>)
    ensures forall i, j :: 0 <= i < j < |FirstSeen(ts)| ==> FirstIndex(ts, FirstSeen(ts)[i]) < FirstIndex(ts, FirstSeen(ts)[j])
    decreases |ts|
  {
    if ts != [] {
      var init, last := ts[..|ts| - 1], ts[|ts| - 1];
      var u := FirstSeen(init);
      FirstSeenOrder(init);
      assert ts[..|init|] == init;
      forall t | t in u
        ensures FirstIndex(ts, t) == FirstIndex(init, t) < |init|
      {
        FirstIndexPrefix(ts, |init|, t);
      }
      if last !in u {
        assert FirstIndex(ts, last) == |init|;
        var r := u + [last];
        assert FirstSeen(ts) == r;
        forall i, j | 0 <= i < j < |r|
          ensures FirstIndex(ts, r[i]) < FirstIndex(ts, r[j])
        {
          assert r[i] == u[i] && u[i] in u;
          if j < |u| {
            assert r[j] == u[j] && u[j] in u;
          }
        }
      }
    }
  }

  /** `getStatistics`. */
  function Statistics(s: seq<ScoreEntry>): (r: Stats)
    ensures s == [] ==> r == Stats(0, 0, 0, [])
    ensures s != [] ==>
      && r.totalQuizzes == |s|
      && 2 * |s| * r.averageScore <= 2 * SumPercent(s) + |s| < 2 * |s| * (r.averageScore + 1)
      && (forall x | x in s :: x.percentage <= r.bestScore)
      && (exists x | x in s :: x.percentage == r.bestScore)
      && Distinct(r.topics)
      && (forall t :: t in r.topics <==> t in TopicList(s))
      && forall i, j :: 0 <= i < j < |r.topics| ==> FirstIndex(TopicList(s), r.topics[i]) < FirstIndex(TopicList(s), r.topics[j])
  {
    if s == [] then Stats(0, 0, 0, [])
    else
      var ts := TopicList(s);
      FirstSeenOrder(ts);
      Stats(|s|, RoundHalfUp(SumPercent(s), |s|), BestPercent(s), FirstSeen(ts))
  }

  /** The leaderboard; the list that `localStorage` held is given to the constructor. */
  class Leaderboard {
    var scores: seq<ScoreEntry>

    constructor (stored: seq<ScoreEntry>)
      ensures scores == stored
    {
      scores := stored;
    }

    /**
     * `addScore`: builds the entry with its rounded percentage, pushes it, sorts the list and
     * keeps the first `MaxScores`.
     */
    method AddScore(name: string, score: int, total: int, topic: string, date: string) returns (entry: ScoreEntry)
      requires total > 0
      modifies this
      ensures entry == ScoreEntry(name, score, total, topic, date, Percentage(score, total))
      ensures scores == Ranked(old(scores) + [entry])
    {
      entry := ScoreEntry(name, score, total, topic, date, Percentage(score, total));
      scores := scores + [entry];
      scores := SortDesc(scores);
      scores := scores[..if |scores| < MaxScores then |scores| else MaxScores];
    }

    /** `getScores`: a copy equal to the list. */
    method GetScores() returns (r: seq<ScoreEntry>)
      ensures r == scores
    {
      r := scores;
    }

    function ScoresByTopic(topic: string): seq<ScoreEntry>
      reads this
    {
      TopicScores(scores, topic)
    }

    /** `clearScores`: the list becomes empty. */
    method ClearScores()
      modifies this
      ensures scores == []
    {
      scores := [];
    }

    function GetStatistics(): Stats
      reads this
    {
      Statistics(scores)
    }
  }
}
