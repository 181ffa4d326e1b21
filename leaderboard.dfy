/**
  The top-ten leaderboard (src/utils/leaderboard.ts). Browser storage is a cell
  holding what the JSON under the leaderboard key parses to: nothing, text that does
  not parse, or a list of entries.
*/
module Leaderboard {

  datatype Entry = Entry(name: string, score: int, date: string)

  /** What storage holds: no (or empty) text, text that is not valid JSON, or a list. */
  datatype Stored = Missing | Unparsable | Saved(entries: seq<Entry>)

  const MAX_ENTRIES: int := 10

  /** `loadLeaderboard`: the stored list, or none when storage is empty or malformed. */
  function Load(s: Stored): (lb: seq<Entry>)
    ensures s.Saved? ==> lb == s.entries
    ensures !s.Saved? ==> lb == []
  {
    if s.Saved? then s.entries else []
  }

  function Min(a: int, b: int): int { if a <= b then a else b }

  /** The `reduce` that finds the lowest stored score. */
  function MinScore(lb: seq<Entry>): (m: int)
    requires |lb| > 0
    ensures exists i :: 0 <= i < |lb| && lb[i].score == m
    ensures forall i :: 0 <= i < |lb| ==> m <= lb[i].score
  {
    if |lb| == 1 then lb[0].score
    else Min(MinScore(lb[..|lb| - 1]), lb[|lb| - 1].score)
  }

  /** `qualifiesForLeaderboard`: a score qualifies while the board has fewer than ten
      entries, and afterwards exactly when it beats some stored score. */
  function Qualifies(s: Stored, score: int): (q: bool)
    ensures |Load(s)| < MAX_ENTRIES ==> q
    ensures |Load(s)| >= MAX_ENTRIES ==>
      (q <==> exists i :: 0 <= i < |Load(s)| && score > Load(s)[i].score)
  {
    var lb := Load(s);
    if |lb| < MAX_ENTRIES then true else score > MinScore(lb)
  }

  /** Scores never increase along the list. */
  predicate SortedByScore(s: seq<Entry>)
  {
    forall i, j :: 0 <= i < j < |s| ==> s[i].score >= s[j].score
  }

  /** Stable insertion of `x` into a list sorted by descending score: `x` goes after
      every entry scoring at least as much. */
  function Insert(x: Entry, s: seq<Entry>): (r: seq<Entry>)
    ensures |r| == |s| + 1
    ensures multiset(r) == multiset(s) + multiset{x}
    ensures forall e :: e in r <==> e == x || e in s
  {
    if s == [] then [x]
    else if s[0].score >= x.score then
      assert s == [s[0]] + s[1..];
      [s[0]] + Insert(x, s[1..])
    else [x] + s
  }

  /** The stable sort of `lb.sort((a, b) => b.score - a.score)`, by insertion in list
      order. */
  function SortByScore(s: seq<Entry>): (r: seq<Entry>)
    ensures |r| == |s|
    ensures multiset(r) == multiset(s)
  {
    if s == [] then []
    else
      assert s == s[..|s| - 1] + [s[|s| - 1]];
      Insert(s[|s| - 1], SortByScore(s[..|s| - 1]))
  }

  lemma {:induction false} InsertSorted(x: Entry, s: seq<Entry>)
    requires SortedByScore(s)
    ensures SortedByScore(Insert(x, s))
  {
    if s != [] && s[0].score >= x.score {
      InsertSorted(x, s[1..]);
      var r := Insert(x, s);
      var t := Insert(x, s[1..]);
      forall k | 0 <= k < |t| ensures t[k].score <= s[0].score {
        if t[k] != x {
          assert t[k] in s[1..];
          var m :| 0 <= m < |s[1..]| && s[1..][m] == t[k];
          assert s[1..][m] == s[m + 1];
        }
      }
      forall i, j | 0 <= i < j < |r| ensures r[i].score >= r[j].score {
        if i > 0 {
          assert r[i] == t[i - 1] && r[j] == t[j - 1];
        } else {
          assert r[j] == t[j - 1];
        }
      }
    }
  }

  lemma {:induction false} SortSorted(s: seq<Entry>)
    ensures SortedByScore(SortByScore(s))
  {
    if s != [] {
      SortSorted(s[..|s| - 1]);
      InsertSorted(s[|s| - 1], SortByScore(s[..|s| - 1]));
    }
  }

  /** When some entry of the sorted list scores below `x`, `x` lands strictly before the
      end of the original list. */
  lemma {:induction false} InsertBefore(x: Entry, s: seq<Entry>, i: int)
    requires 0 <= i < |s| && s[i].score < x.score
    ensures exists k :: 0 <= k < |s| && Insert(x, s)[k] == x
  {
    if s[0].score >= x.score {
      assert i > 0;
      assert s[1..][i - 1] == s[i];
      InsertBefore(x, s[1..], i - 1);
      var k :| 0 <= k < |s[1..]| && Insert(x, s[1..])[k] == x;
      assert Insert(x, s)[k + 1] == x;
    } else {
      assert Insert(x, s)[0] == x;
    }
  }

  lemma PrefixMultiset(s: seq<Entry>, k: int)
    requires 0 <= k <= |s|
    ensures multiset(s[..k]) <= multiset(s)
  {
    assert s == s[..k] + s[k..];
  }

  lemma SortAppend(lb: seq<Entry>, entry: Entry)
    ensures SortByScore(lb + [entry]) == Insert(entry, SortByScore(lb))
  {
    assert (lb + [entry])[..|lb|] == lb;
  }

  /** A qualifying score on a board of at most ten survives the cut to ten. */
  lemma EntryKept(lb: seq<Entry>, entry: Entry)
    requires |lb| <= MAX_ENTRIES && Qualifies(Saved(lb), entry.score)
    ensures entry in SortByScore(lb + [entry])[..Min(MAX_ENTRIES, |lb| + 1)]
  {
    if |lb| < MAX_ENTRIES {
      EntryKeptShort(lb, entry);
    } else {
      EntryKeptFull(lb, entry);
    }
  }

  lemma EntryKeptShort(lb: seq<Entry>, entry: Entry)
    requires |lb| < MAX_ENTRIES
    ensures entry in SortByScore(lb + [entry])[..|lb| + 1]
  {
    var sorted := SortByScore(lb + [entry]);
    assert entry in multiset(lb + [entry]);
    InWhole(sorted, entry);
  }

  lemma InWhole(s: seq<Entry>, x: Entry)
    requires x in multiset(s)
    ensures x in s[..|s|]
  {
    assert s[..|s|] == s;
  }

  lemma EntryKeptFull(lb: seq<Entry>, entry: Entry)
    requires |lb| == MAX_ENTRIES && Qualifies(Saved(lb), entry.score)
    ensures entry in SortByScore(lb + [entry])[..MAX_ENTRIES]
  {
    SortAppend(lb, entry);
    assert Load(Saved(lb)) == lb;
    var i :| 0 <= i < |lb| && entry.score > lb[i].score;
    var j := SortedIndexOf(lb, i);
    InsertKeptWithin(entry, SortByScore(lb), j);
  }

  /** Every entry of a list has a place in its sorted copy. */
  lemma SortedIndexOf(lb: seq<Entry>, i: int) returns (j: int)
    requires 0 <= i < |lb|
    ensures 0 <= j < |SortByScore(lb)| && SortByScore(lb)[j] == lb[i]
  {
    var sorted := SortByScore(lb);
    assert lb[i] in multiset(lb);
    assert lb[i] in multiset(sorted);
    j :| 0 <= j < |sorted| && sorted[j] == lb[i];
  }

  lemma InsertKeptWithin(x: Entry, s: seq<Entry>, j: int)
    requires 0 <= j < |s| && s[j].score < x.score
    ensures x in Insert(x, s)[..|s|]
  {
    InsertBefore(x, s, j);
    var k :| 0 <= k < |s| && Insert(x, s)[k] == x;
    assert Insert(x, s)[..|s|][k] == x;
  }

  lemma PrefixSorted(s: seq<Entry>, k: int)
    requires SortedByScore(s) && 0 <= k <= |s|
    ensures SortedByScore(s[..k])
  {
  }

  lemma AddedTopFacts(lb: seq<Entry>, entry: Entry)
    ensures var r := SortByScore(lb + [entry])[..Min(MAX_ENTRIES, |lb| + 1)];
      && SortedByScore(r)
      && multiset(r) <= multiset(lb) + multiset{entry}
  {
    var all := lb + [entry];
    var sorted := SortByScore(all);
    var n := Min(MAX_ENTRIES, |lb| + 1);
    SortSorted(all);
    PrefixSorted(sorted, n);
    PrefixMultiset(sorted, n);
    assert multiset(all) == multiset(lb) + multiset{entry};
  }

  /** The entries cut off past the first `k` of a sorted list score no higher than any
      entry kept. */
  lemma {:induction false} CutScoresLower(s: seq<Entry>, k: int)
    requires SortedByScore(s) && 0 <= k <= |s|
    ensures multiset(s) - multiset(s[..k]) == multiset(s[k..])
    ensures forall e | e in multiset(s) - multiset(s[..k]) :: forall i | 0 <= i < k :: e.score <= s[..k][i].score
  {
    assert s == s[..k] + s[k..];
    assert multiset(s) == multiset(s[..k]) + multiset(s[k..]);
    forall e | e in multiset(s[k..])
      ensures forall i | 0 <= i < k :: e.score <= s[i].score
    {
      var m :| 0 <= m < |s[k..]| && s[k..][m] == e;
      assert s[k + m] == e;
    }
  }

  lemma AddedTopCut(lb: seq<Entry>, entry: Entry)
    ensures var r := SortByScore(lb + [entry])[..Min(MAX_ENTRIES, |lb| + 1)];
      forall e | e in multiset(lb + [entry]) - multiset(r) :: forall k | 0 <= k < |r| :: e.score <= r[k].score
  {
    var sorted := SortByScore(lb + [entry]);
    SortSorted(lb + [entry]);
    CutScoresLower(sorted, Min(MAX_ENTRIES, |lb| + 1));
  }

  /** What `addToLeaderboard` returns and saves: the board with the new entry, sorted,
      cut to ten. It is sorted, as long as the board allows, made of the old entries
      and the new one, holds the new entry whenever the score qualified on a board of
      at most ten, and every entry cut off scores no higher than every entry kept. */
  function AddedTop(lb: seq<Entry>, entry: Entry): (r: seq<Entry>)
    ensures |r| == Min(MAX_ENTRIES, |lb| + 1)
    ensures SortedByScore(r)
    ensures multiset(r) <= multiset(lb) + multiset{entry}
    ensures |lb| <= MAX_ENTRIES && Qualifies(Saved(lb), entry.score) ==> entry in r
    ensures forall e | e in multiset(lb + [entry]) - multiset(r) :: forall k | 0 <= k < |r| :: e.score <= r[k].score
  {
    AddedTopFacts(lb, entry);
    AddedTopCut(lb, entry);
    if |lb| <= MAX_ENTRIES && Qualifies(Saved(lb), entry.score) then
      EntryKept(lb, entry);
      SortByScore(lb + [entry])[..Min(MAX_ENTRIES, |lb| + 1)]
    else
      SortByScore(lb + [entry])[..Min(MAX_ENTRIES, |lb| + 1)]
  }

  /** The storage cell the board lives in. */
  class Store {
    var slot: Stored

    constructor (slot: Stored)
      ensures this.slot == slot
    {
      this.slot := slot;
    }

    /** `addToLeaderboard`: load, push, sort, keep ten, save; the saved list is the
        returned one. */
    method AddToLeaderboard(entry: Entry) returns (trimmed: seq<Entry>)
      modifies this
      ensures trimmed == AddedTop(Load(old(slot)), entry)
      ensures slot == Saved(trimmed)
    {
      var lb := Load(slot);
      lb := lb + [entry];
      lb := SortByScore(lb);
      trimmed := lb[..Min(MAX_ENTRIES, |lb|)];
      slot := Saved(trimmed);
    }
  }
}
