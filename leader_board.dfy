/**
 * The leaderboard effect: copy the static entries, append the player's entry
 * when the score is positive, sort by descending score, find the player's
 * rank and keep the top ten; and the rank label.
 */
module LeaderBoard {
  import opened Decimal

  datatype Option<T> = None | Some(value: T)

  datatype Entry = Entry(id: string, name: string, score: int, date: string, isCurrent: bool)

  const CURRENT_ID: string := "current"
  const TOP_N: nat := 10

  function UserEntry(currentScore: int, today: string): Entry
  {
    Entry(CURRENT_ID, "You", currentScore, today, true)
  }

  predicate SortedDesc(s: seq<Entry>)
  {
    forall i, j :: 0 <= i < j < |s| ==> s[i].score >= s[j].score
  }

  /** Number of entries whose score is at least v. */
  function CountAtLeast(s: seq<Entry>, v: int): nat
  {
    if s == [] then 0 else (if s[0].score >= v then 1 else 0) + CountAtLeast(s[1..], v)
  }

  /** The entries whose score is exactly v, in their order in s. */
  function WithScore(s: seq<Entry>, v: int): seq<Entry>
  {
    if s == [] then [] else (if s[0].score == v then [s[0]] else []) + WithScore(s[1..], v)
  }

  /**
   * Insert e into a list sorted by descending score, behind every entry whose
   * score is at least e's: the placement a stable sort gives an entry that
   * came last.
   */
  function Insert(sorted: seq<Entry>, e: Entry): (r: seq<Entry>)
    ensures |r| == |sorted| + 1
  {
    if sorted == [] then [e]
    else if sorted[0].score >= e.score then [sorted[0]] + Insert(sorted[1..], e)
    else [e] + sorted
  }

  /** An insertion adds e and nothing else. */
  lemma {:induction false} InsertPermutes(sorted: seq<Entry>, e: Entry)
    ensures multiset(Insert(sorted, e)) == multiset(sorted) + multiset{e}
  {
    if sorted != [] {
      assert sorted == [sorted[0]] + sorted[1..];
      if sorted[0].score >= e.score {
        InsertPermutes(sorted[1..], e);
      }
    }
  }

  /** Every score is at most b. */
  predicate ScoresAtMost(s: seq<Entry>, b: int)
  {
    forall i :: 0 <= i < |s| ==> s[i].score <= b
  }

  /** A sorted list stays sorted behind an entry scoring at least as much as all of it. */
  lemma ConsSorted(x: Entry, s: seq<Entry>)
    requires SortedDesc(s) && ScoresAtMost(s, x.score)
    ensures SortedDesc([x] + s)
  {
    var c := [x] + s;
    forall i, j | 0 <= i < j < |c| ensures c[i].score >= c[j].score {
      if i > 0 {
        assert c[i] == s[i - 1] && c[j] == s[j - 1];
      } else {
        assert c[j] == s[j - 1];
      }
    }
  }

  /** Insertion keeps a common upper bound of the scores. */
  lemma {:induction false} InsertBounded(sorted: seq<Entry>, e: Entry, b: int)
    requires ScoresAtMost(sorted, b) && e.score <= b
    ensures ScoresAtMost(Insert(sorted, e), b)
  {
    if sorted != [] && sorted[0].score >= e.score {
      InsertBounded(sorted[1..], e, b);
      var rest := Insert(sorted[1..], e);
      var c := [sorted[0]] + rest;
      forall i | 0 <= i < |c| ensures c[i].score <= b {
        if i > 0 {
          assert c[i] == rest[i - 1];
        }
      }
    } else if sorted != [] {
      var c := [e] + sorted;
      forall i | 0 <= i < |c| ensures c[i].score <= b {
        if i > 0 {
          assert c[i] == sorted[i - 1];
        }
      }
    }
  }

  lemma {:induction false} InsertSorted(sorted: seq<Entry>, e: Entry)
    requires SortedDesc(sorted)
    ensures SortedDesc(Insert(sorted, e))
  {
    if sorted == [] {
    } else if sorted[0].score >= e.score {
      var tail := sorted[1..];
      assert SortedDesc(tail) by {
        forall i, j | 0 <= i < j < |tail| ensures tail[i].score >= tail[j].score {
          assert tail[i] == sorted[i + 1] && tail[j] == sorted[j + 1];
        }
      }
      InsertSorted(tail, e);
      assert ScoresAtMost(tail, sorted[0].score) by {
        forall i | 0 <= i < |tail| ensures tail[i].score <= sorted[0].score {
          assert tail[i] == sorted[i + 1];
        }
      }
      InsertBounded(tail, e, sorted[0].score);
      ConsSorted(sorted[0], Insert(tail, e));
    } else {
      assert ScoresAtMost(sorted, e.score);
      ConsSorted(e, sorted);
    }
  }

  /**
   * combinedData.sort((a, b) => b.score - a.score). Since the 2019 edition
   * of ECMA-262 the sort is stable; a stable sort on this key has exactly one
   * result, and this insertion sort computes it.
   */
  function SortByScoreDesc(s: seq<Entry>): (r: seq<Entry>)
    ensures |r| == |s|
    decreases |s|
  {
    if s == [] then [] else Insert(SortByScoreDesc(s[..|s| - 1]), s[|s| - 1])
  }

  /** The sort returns a permutation of its input ... */
  lemma {:induction false} SortPermutes(s: seq<Entry>)
    ensures multiset(SortByScoreDesc(s)) == multiset(s)
    decreases |s|
  {
    if s != [] {
      var init, last := s[..|s| - 1], s[|s| - 1];
      var sortedInit := SortByScoreDesc(init);
      assert multiset(sortedInit) == multiset(init) by {
        SortPermutes(init);
      }
      assert multiset(SortByScoreDesc(s)) == multiset(sortedInit) + multiset{last} by {
        InsertPermutes(sortedInit, last);
      }
      MultisetSnoc(s);
    }
  }

  lemma MultisetSnoc(s: seq<Entry>)
    requires s != []
    ensures multiset(s) == multiset(s[..|s| - 1]) + multiset{s[|s| - 1]}
  {
    assert s == s[..|s| - 1] + [s[|s| - 1]];
  }

  /** ... ordered by non-increasing score. */
  lemma {:induction false} SortSorted(s: seq<Entry>)
    ensures SortedDesc(SortByScoreDesc(s))
    decreases |s|
  {
    if s != [] {
      SortSorted(s[..|s| - 1]);
      InsertSorted(SortByScoreDesc(s[..|s| - 1]), s[|s| - 1]);
    }
  }

  // ---------------------------------------------------------------------------
  // Stability
  // ---------------------------------------------------------------------------

  lemma {:induction false} WithScoreAppend(a: seq<Entry>, b: seq<Entry>, v: int)
    ensures WithScore(a + b, v) == WithScore(a, v) + WithScore(b, v)
  {
    if a != [] {
      assert (a + b)[1..] == a[1..] + b;
      WithScoreAppend(a[1..], b, v);
    } else {
      assert a + b == b;
    }
  }

  lemma {:induction false} WithScoreBelow(s: seq<Entry>, v: int)
    requires forall i :: 0 <= i < |s| ==> s[i].score < v
    ensures WithScore(s, v) == []
  {
    if s != [] {
      WithScoreBelow(s[1..], v);
    }
  }

  /** WithScore of a list with a known first element. */
  lemma WithScoreCons(x: Entry, s: seq<Entry>, v: int)
    ensures WithScore([x] + s, v) == (if x.score == v then [x] else []) + WithScore(s, v)
  {
    assert ([x] + s)[1..] == s;
  }

  /** The step of WithScoreInsert where e goes behind the first entry. */
  lemma WithScoreInsertBehind(sorted: seq<Entry>, e: Entry, v: int)
    requires sorted != [] && sorted[0].score >= e.score
    requires WithScore(Insert(sorted[1..], e), v) ==
             WithScore(sorted[1..], v) + (if e.score == v then [e] else [])
    ensures WithScore(Insert(sorted, e), v) ==
            WithScore(sorted, v) + (if e.score == v then [e] else [])
  {
    var x, rest := sorted[0], Insert(sorted[1..], e);
    var head := if x.score == v then [x] else [];
    var tail := if e.score == v then [e] else [];
    calc {
      WithScore(Insert(sorted, e), v);
      WithScore([x] + rest, v);
      { WithScoreCons(x, rest, v); }
      head + WithScore(rest, v);
      head + (WithScore(sorted[1..], v) + tail);
      (head + WithScore(sorted[1..], v)) + tail;
      WithScore(sorted, v) + tail;
    }
  }

  lemma {:induction false} WithScoreInsert(sorted: seq<Entry>, e: Entry, v: int)
    requires SortedDesc(sorted)
    ensures WithScore(Insert(sorted, e), v) ==
            WithScore(sorted, v) + (if e.score == v then [e] else [])
  {
    if sorted == [] {
      WithScoreCons(e, [], v);
    } else if sorted[0].score >= e.score {
      WithScoreInsert(sorted[1..], e, v);
      WithScoreInsertBehind(sorted, e, v);
    } else {
      if e.score == v {
        WithScoreBelow(sorted, v);
      }
      WithScoreCons(e, sorted, v);
    }
  }

  /** One step of the sort: the last entry goes behind its equals. */
  lemma WithScoreSortStep(s: seq<Entry>, v: int)
    requires s != []
    ensures WithScore(SortByScoreDesc(s), v) ==
            WithScore(SortByScoreDesc(s[..|s| - 1]), v) +
            (if s[|s| - 1].score == v then [s[|s| - 1]] else [])
  {
    SortSorted(s[..|s| - 1]);
    WithScoreInsert(SortByScoreDesc(s[..|s| - 1]), s[|s| - 1], v);
  }

  /** Entries with equal scores keep their relative order through the sort. */
  lemma {:induction false} SortIsStable(s: seq<Entry>, v: int)
    ensures WithScore(SortByScoreDesc(s), v) == WithScore(s, v)
    decreases |s|
  {
    if s != [] {
      var init, last := s[..|s| - 1], s[|s| - 1];
      SortIsStable(init, v);
      WithScoreSortStep(s, v);
      WithScoreSnoc(s, v);
    }
  }

  lemma WithScoreSnoc(s: seq<Entry>, v: int)
    requires s != []
    ensures WithScore(s, v) ==
            WithScore(s[..|s| - 1], v) + (if s[|s| - 1].score == v then [s[|s| - 1]] else [])
  {
    var init, last := s[..|s| - 1], s[|s| - 1];
    assert s == init + [last];
    WithScoreAppend(init, [last], v);
    WithScoreCons(last, [], v);
  }

  // ---------------------------------------------------------------------------
  // Where the player's entry lands
  // ---------------------------------------------------------------------------

  lemma {:induction false} CountAtLeastBelow(s: seq<Entry>, v: int)
    requires forall i :: 0 <= i < |s| ==> s[i].score < v
    ensures CountAtLeast(s, v) == 0
  {
    if s != [] {
      CountAtLeastBelow(s[1..], v);
    }
  }

  lemma {:induction false} CountAtLeastAppend(a: seq<Entry>, x: Entry, v: int)
    ensures CountAtLeast(a + [x], v) == CountAtLeast(a, v) + (if x.score >= v then 1 else 0)
  {
    if a != [] {
      assert (a + [x])[1..] == a[1..] + [x];
      CountAtLeastAppend(a[1..], x, v);
    }
  }

  lemma {:induction false} CountAtLeastInsert(sorted: seq<Entry>, e: Entry, v: int)
    ensures CountAtLeast(Insert(sorted, e), v) ==
            CountAtLeast(sorted, v) + (if e.score >= v then 1 else 0)
  {
    if sorted != [] {
      if sorted[0].score >= e.score {
        var rest := Insert(sorted[1..], e);
        CountAtLeastInsert(sorted[1..], e, v);
        assert ([sorted[0]] + rest)[1..] == rest;
      } else {
        assert ([e] + sorted)[1..] == sorted;
      }
    }
  }

  lemma {:induction false} CountAtLeastSorted(s: seq<Entry>, v: int)
    ensures CountAtLeast(SortByScoreDesc(s), v) == CountAtLeast(s, v)
    decreases |s|
  {
    if s != [] {
      var init, last := s[..|s| - 1], s[|s| - 1];
      CountAtLeastSorted(init, v);
      CountAtLeastInsert(SortByScoreDesc(init), last, v);
      CountAtLeastSnoc(s, v);
    }
  }

  lemma CountAtLeastSnoc(s: seq<Entry>, v: int)
    requires s != []
    ensures CountAtLeast(s, v) ==
            CountAtLeast(s[..|s| - 1], v) + (if s[|s| - 1].score >= v then 1 else 0)
  {
    assert s == s[..|s| - 1] + [s[|s| - 1]];
    CountAtLeastAppend(s[..|s| - 1], s[|s| - 1], v);
  }

  /** In a sorted list, e is inserted right after the entries scoring at least e.score. */
  lemma {:induction false} InsertPosition(sorted: seq<Entry>, e: Entry)
    requires SortedDesc(sorted)
    ensures var k := CountAtLeast(sorted, e.score);
            k <= |sorted| && Insert(sorted, e) == sorted[..k] + [e] + sorted[k..]
  {
    if sorted != [] {
      if sorted[0].score >= e.score {
        InsertPosition(sorted[1..], e);
        var k := CountAtLeast(sorted[1..], e.score);
        assert sorted[..k + 1] == [sorted[0]] + sorted[1..][..k];
        assert sorted[k + 1..] == sorted[1..][k..];
      } else {
        CountAtLeastBelow(sorted, e.score);
      }
    }
  }

  /** First index whose entry has the given id, or -1 (Array.prototype.findIndex). */
  function IndexOfId(s: seq<Entry>, id: string): (r: int)
    ensures -1 <= r < |s|
    ensures r >= 0 ==> s[r].id == id
    ensures forall j :: 0 <= j < |s| && (r < 0 || j < r) ==> s[j].id != id
  {
    if s == [] then -1
    else if s[0].id == id then 0
    else
      var j := IndexOfId(s[1..], id);
      if j < 0 then -1 else j + 1
  }

  function NumberWithId(s: seq<Entry>, id: string): nat
  {
    if s == [] then 0 else (if s[0].id == id then 1 else 0) + NumberWithId(s[1..], id)
  }

  // ---------------------------------------------------------------------------
  // The effect
  // ---------------------------------------------------------------------------

  /** combinedData after the optional push and sort. */
  function Combined(data: seq<Entry>, currentScore: int, today: string): seq<Entry>
  {
    if currentScore > 0 then SortByScoreDesc(data + [UserEntry(currentScore, today)]) else data
  }

  function Min(a: nat, b: nat): nat { if a < b then a else b }

  /** combinedData.slice(0, 10) */
  function Displayed(data: seq<Entry>, currentScore: int, today: string): (r: seq<Entry>)
  {
    var c := Combined(data, currentScore, today);
    c[..Min(TOP_N, |c|)]
  }

  /** findIndex(entry => entry.id === 'current') + 1 */
  function UserRank(data: seq<Entry>, currentScore: int, today: string): int
  {
    IndexOfId(Combined(data, currentScore, today), CURRENT_ID) + 1
  }

  predicate NoCurrentId(data: seq<Entry>)
  {
    forall i :: 0 <= i < |data| ==> data[i].id != CURRENT_ID
  }

  lemma {:induction false} NumberWithIdNone(s: seq<Entry>, id: string)
    requires forall i :: 0 <= i < |s| ==> s[i].id != id
    ensures NumberWithId(s, id) == 0
  {
    if s != [] {
      NumberWithIdNone(s[1..], id);
    }
  }

  lemma {:induction false} NumberWithIdAppend(a: seq<Entry>, b: seq<Entry>, id: string)
    ensures NumberWithId(a + b, id) == NumberWithId(a, id) + NumberWithId(b, id)
  {
    if a != [] {
      assert (a + b)[1..] == a[1..] + b;
      NumberWithIdAppend(a[1..], b, id);
    } else {
      assert a + b == b;
    }
  }

  /** Sorting keeps the absence of the id 'current'. */
  lemma SortKeepsNoCurrentId(data: seq<Entry>)
    requires NoCurrentId(data)
    ensures NoCurrentId(SortByScoreDesc(data))
  {
    var sd := SortByScoreDesc(data);
    SortPermutes(data);
    forall i | 0 <= i < |sd| ensures sd[i].id != CURRENT_ID {
      assert sd[i] in multiset(sd);
      assert sd[i] in data;
    }
  }

  /** The combined list is Insert of the player's entry into the sorted static data. */
  lemma CombinedIsInsert(data: seq<Entry>, currentScore: int, today: string)
    requires currentScore > 0
    ensures Combined(data, currentScore, today) ==
            Insert(SortByScoreDesc(data), UserEntry(currentScore, today))
  {
    var s := data + [UserEntry(currentScore, today)];
    assert s[..|s| - 1] == data;
  }

  /**
   * With a positive score the combined list is one longer than the static
   * data, sorted by non-increasing score, and a permutation of the data plus
   * the player's entry.
   */
  lemma CombinedShape(data: seq<Entry>, currentScore: int, today: string)
    requires currentScore > 0
    ensures var c := Combined(data, currentScore, today);
            |c| == |data| + 1 && SortedDesc(c) &&
            multiset(c) == multiset(data) + multiset{UserEntry(currentScore, today)}
  {
    var s := data + [UserEntry(currentScore, today)];
    SortPermutes(s);
    SortSorted(s);
  }

  /** When no static id is 'current', exactly one combined entry carries it. */
  lemma ExactlyOneCurrent(data: seq<Entry>, currentScore: int, today: string)
    requires currentScore > 0 && NoCurrentId(data)
    ensures NumberWithId(Combined(data, currentScore, today), CURRENT_ID) == 1
  {
    var u := UserEntry(currentScore, today);
    var sd := SortByScoreDesc(data);
    CombinedIsInsert(data, currentScore, today);
    SortSorted(data);
    SortKeepsNoCurrentId(data);
    InsertPosition(sd, u);
    var k := CountAtLeast(sd, u.score);
    NumberWithIdNone(sd[..k], CURRENT_ID);
    NumberWithIdNone(sd[k..], CURRENT_ID);
    NumberWithIdAppend(sd[..k] + [u], sd[k..], CURRENT_ID);
    NumberWithIdAppend(sd[..k], [u], CURRENT_ID);
  }

  /**
   * Because the player's entry is pushed last and the sort is stable, the
   * rank is one more than the number of static entries scoring at least as
   * much; so it lies between 1 and |data| + 1.
   */
  lemma UserRankCountsBetterOrEqual(data: seq<Entry>, currentScore: int, today: string)
    requires currentScore > 0 && NoCurrentId(data)
    ensures UserRank(data, currentScore, today) == 1 + CountAtLeast(data, currentScore)
    ensures 1 <= UserRank(data, currentScore, today) <= |data| + 1
  {
    var u := UserEntry(currentScore, today);
    var sd := SortByScoreDesc(data);
    CombinedIsInsert(data, currentScore, today);
    SortSorted(data);
    SortKeepsNoCurrentId(data);
    InsertPosition(sd, u);
    CountAtLeastSorted(data, currentScore);
    var k := CountAtLeast(sd, currentScore);
    var c := sd[..k] + [u] + sd[k..];
    assert forall i :: 0 <= i < k ==> c[i] == sd[i];
    assert c[k] == u;
    assert 1 + CountAtLeast(data, currentScore) <= |data| + 1 by {
      CountAtLeastBound(data, currentScore);
    }
  }

  lemma {:induction false} CountAtLeastBound(s: seq<Entry>, v: int)
    ensures CountAtLeast(s, v) <= |s|
  {
    if s != [] {
      CountAtLeastBound(s[1..], v);
    }
  }

  /** With no positive score the list is the static data in its own order, cut to ten. */
  lemma NoScoreKeepsStaticOrder(data: seq<Entry>, currentScore: int, today: string)
    requires currentScore <= 0
    ensures Displayed(data, currentScore, today) == data[..Min(TOP_N, |data|)]
  {
  }

  lemma DisplayedIsTopTen(data: seq<Entry>, currentScore: int, today: string)
    ensures var c := Combined(data, currentScore, today);
            var d := Displayed(data, currentScore, today);
            |d| == Min(TOP_N, |c|) && (forall i :: 0 <= i < |d| ==> d[i] == c[i])
  {
  }

  /** The state the component keeps: the list shown and the player's rank. */
  class Board {
    var leaderboard: seq<Entry>
    var userRank: Option<int>

    constructor ()
      ensures leaderboard == [] && userRank == None
    {
      leaderboard := [];
      userRank := None;
    }

    /** The effect run on each change of currentScore; data is the imported list. */
    method Refresh(data: array<Entry>, currentScore: int, today: string)
      modifies this
      ensures unchanged(data)
      ensures leaderboard == Displayed(old(data[..]), currentScore, today)
      ensures userRank == if currentScore > 0
                          then Some(UserRank(old(data[..]), currentScore, today))
                          else old(userRank)
    {
      var combinedData := data[..];
      if currentScore > 0 {
        var userEntry := UserEntry(currentScore, today);
        combinedData := combinedData + [userEntry];
        combinedData := SortByScoreDesc(combinedData);
        var rank := IndexOfId(combinedData, CURRENT_ID) + 1;
        userRank := Some(rank);
      }
      leaderboard := combinedData[..Min(TOP_N, |combinedData|)];
    }
  }

  // ---------------------------------------------------------------------------
  // Rank label
  // ---------------------------------------------------------------------------

  const GOLD: string := "\U{1F3C6}"
  const SILVER: string := "\U{1F948}"
  const BRONZE: string := "\U{1F949}"

  function RankEmoji(rank: int): (r: string)
    ensures rank == 1 ==> r == GOLD
    ensures rank == 2 ==> r == SILVER
    ensures rank == 3 ==> r == BRONZE
  {
    match rank
    case 1 => GOLD
    case 2 => SILVER
    case 3 => BRONZE
    case _ => "#" + IntToString(rank)
  }

  /** Different ranks never get the same label. */
  lemma RankEmojiInjective(a: int, b: int)
    requires RankEmoji(a) == RankEmoji(b)
    ensures a == b
  {
    if a !in {1, 2, 3} && b !in {1, 2, 3} {
      assert RankEmoji(a)[1..] == IntToString(a);
      assert RankEmoji(b)[1..] == IntToString(b);
      IntToStringInjective(a, b);
    }
  }

  lemma RankEmojiOtherwise(rank: int)
    requires rank !in {1, 2, 3}
    ensures |RankEmoji(rank)| >= 2 && RankEmoji(rank)[0] == '#'
    ensures RankEmoji(rank)[1..] == IntToString(rank)
  {
  }
}
