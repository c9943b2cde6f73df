/** The ordering rule of the high-score table: the scores sorted from highest
    to lowest (`list.sort(reverse=True)`) and cut to the first five. */
module Ranking {

  /** How many entries the table keeps. */
  const MaxEntries: nat := 5

  predicate SortedDesc(s: seq<nat>) {
    forall i, j :: 0 <= i < j < |s| ==> s[i] >= s[j]
  }

  /** An entry no lower than the head of a descending sequence can go in
      front of it. */
  lemma SortedCons(y: nat, t: seq<nat>)
    requires SortedDesc(t) && (t == [] || y >= t[0])
    ensures SortedDesc([y] + t)
  {
    forall i, j | 0 <= i < j < |t| + 1 ensures ([y] + t)[i] >= ([y] + t)[j] {
      if i == 0 {
        assert j - 1 == 0 || t[0] >= t[j - 1];
      }
    }
  }

  /** Places `x` into a descending sequence, ahead of the first entry it
      is not below. */
  function Insert(x: nat, s: seq<nat>): (r: seq<nat>)
    requires SortedDesc(s)
    ensures SortedDesc(r)
    ensures multiset(r) == multiset(s) + multiset{x}
    ensures |r| == |s| + 1 && r[0] == if s == [] || x >= s[0] then x else s[0]
  {
    if s == [] || x >= s[0] then
      SortedCons(x, s);
      [x] + s
    else
      assert SortedDesc(s[1..]);
      var rest := Insert(x, s[1..]);
      assert s == [s[0]] + s[1..];
      assert rest[0] == x || rest[0] == s[1];
      SortedCons(s[0], rest);
      [s[0]] + rest
  }

  /** The sorted order of `s`, highest first: the reference meaning of
      Python's `sort(reverse=True)` on a list of integers. */
  function SortDesc(s: seq<nat>): (r: seq<nat>)
    ensures SortedDesc(r)
    ensures multiset(r) == multiset(s)
  {
    if s == [] then []
    else
      assert s == [s[0]] + s[1..];
      Insert(s[0], SortDesc(s[1..]))
  }

  /** The table kept from the entries `all`: sort descending, then
      `scores[:5]` when there are more than five. */
  function TopScores(all: seq<nat>): (t: seq<nat>)
    ensures |t| <= MaxEntries && SortedDesc(t) && multiset(t) <= multiset(all)
  {
    var sorted := SortDesc(all);
    SortedPrefix(sorted, if |sorted| > MaxEntries then MaxEntries else |sorted|);
    Take(sorted, MaxEntries)
  }

  /** `s[:k]` when `len(s) > k`, otherwise `s`. */
  function Take(s: seq<nat>, k: nat): (t: seq<nat>) {
    if |s| > k then s[..k] else s
  }

  /** `scores[:5]` keeps the first `min(len(scores), 5)` entries, in order. */
  lemma TakeShape(s: seq<nat>, k: nat)
    ensures |Take(s, k)| == (if |s| < k then |s| else k)
    ensures forall i :: 0 <= i < |Take(s, k)| ==> Take(s, k)[i] == s[i]
  {
  }

  /** The first element of a non-empty sequence occurs in it. */
  lemma HeadInMultiset(s: seq<nat>)
    requires s != []
    ensures s[0] in multiset(s)
    ensures multiset(s[1..]) == multiset(s) - multiset{s[0]}
  {
    assert s == [s[0]] + s[1..];
  }

  /** In a descending sequence no entry exceeds the first. */
  lemma SortedHeadIsMax(s: seq<nat>, x: nat)
    requires SortedDesc(s) && x in multiset(s)
    ensures x <= s[0]
  {
    var k :| 0 <= k < |s| && s[k] == x;
    assert k == 0 || s[0] >= s[k];
  }

  /** Dropping the first entry keeps a sequence descending. */
  lemma SortedTail(s: seq<nat>)
    requires SortedDesc(s) && s != []
    ensures SortedDesc(s[1..])
  {
  }

  /** Two descending orders of the same multiset start with the same entry. */
  lemma SortedSameHead(a: seq<nat>, b: seq<nat>)
    requires SortedDesc(a) && SortedDesc(b) && a != [] && b != []
    requires multiset(a) == multiset(b)
    ensures a[0] == b[0]
  {
    HeadInMultiset(a);
    HeadInMultiset(b);
    SortedHeadIsMax(b, a[0]);
    SortedHeadIsMax(a, b[0]);
  }

  /** Two descending orders of the same multiset are the same sequence, so any
      correct descending sort of a list produces `SortDesc` of it. */
  lemma {:induction false} SortedUnique(a: seq<nat>, b: seq<nat>)
    requires SortedDesc(a) && SortedDesc(b)
    requires multiset(a) == multiset(b)
    ensures a == b
  {
    assert |a| == |multiset(a)| == |multiset(b)| == |b|;
    if a != [] {
      SortedSameHead(a, b);
      HeadInMultiset(a);
      HeadInMultiset(b);
      SortedTail(a);
      SortedTail(b);
      SortedUnique(a[1..], b[1..]);
      assert a == [a[0]] + a[1..];
      assert b == [b[0]] + b[1..];
    }
  }

  /** A prefix of a descending sequence is descending, is drawn from it, and
      nothing outside the prefix exceeds anything in it. */
  lemma SortedPrefix(s: seq<nat>, k: nat)
    requires SortedDesc(s) && k <= |s|
    ensures SortedDesc(s[..k])
    ensures multiset(s[..k]) <= multiset(s)
    ensures forall x, j :: x in multiset(s) - multiset(s[..k]) && 0 <= j < k ==> x <= s[j]
  {
    var top, rest := s[..k], s[k..];
    assert SortedDesc(top) by {
      forall i, j | 0 <= i < j < k ensures top[i] >= top[j] {
        assert top[i] == s[i] && top[j] == s[j];
      }
    }
    assert multiset(s) == multiset(top) + multiset(rest) by {
      assert s == top + rest;
    }
    assert multiset(s) - multiset(top) == multiset(rest);
    SuffixBelowPrefix(s, k);
  }

  /** In a descending sequence every entry past position `k` is at most
      every entry before it. */
  lemma SuffixBelowPrefix(s: seq<nat>, k: nat)
    requires SortedDesc(s) && k <= |s|
    ensures forall x, j :: x in multiset(s[k..]) && 0 <= j < k ==> x <= s[j]
  {
    var rest := s[k..];
    forall x, j | x in multiset(rest) && 0 <= j < k ensures x <= s[j] {
      var i :| 0 <= i < |rest| && rest[i] == x;
      assert s[k + i] == x;
    }
  }

  /** The table after recording: at most five entries, highest first, drawn
      from `all`, and nothing left out is higher than anything kept. */
  lemma TopScoresShape(all: seq<nat>)
    ensures |TopScores(all)| == if |all| < MaxEntries then |all| else MaxEntries
    ensures SortedDesc(TopScores(all))
    ensures multiset(TopScores(all)) <= multiset(all)
    ensures forall x, j :: x in multiset(all) - multiset(TopScores(all)) && 0 <= j < |TopScores(all)|
              ==> x <= TopScores(all)[j]
  {
    var sorted := SortDesc(all);
    assert |sorted| == |multiset(sorted)| == |multiset(all)| == |all|;
    var k := if |sorted| > MaxEntries then MaxEntries else |sorted|;
    assert TopScores(all) == sorted[..k];
    SortedPrefix(sorted, k);
  }

  /** Sorting does not depend on the order the entries arrive in. */
  lemma SortDescPermutation(a: seq<nat>, b: seq<nat>)
    requires multiset(a) == multiset(b)
    ensures SortDesc(a) == SortDesc(b)
  {
    SortedUnique(SortDesc(a), SortDesc(b));
  }

  /** A list that is already in descending order is its own sort. */
  lemma SortDescOfSorted(s: seq<nat>)
    requires SortedDesc(s)
    ensures SortDesc(s) == s
  {
    SortedUnique(SortDesc(s), s);
  }

  /** Appending one entry and sorting is inserting it into the sorted list. */
  lemma SortDescAppend(b: seq<nat>, x: nat)
    ensures SortDesc(b + [x]) == Insert(x, SortDesc(b))
  {
    SortedUnique(SortDesc(b + [x]), Insert(x, SortDesc(b)));
  }

  /** Taking from a list with one more entry in front. */
  lemma TakeCons(y: nat, s: seq<nat>, k: nat)
    requires k > 0
    ensures Take([y] + s, k) == [y] + Take(s, k - 1)
  {
    if |s| > k - 1 {
      assert ([y] + s)[..k] == [y] + s[..k - 1];
    }
  }

  /** Entries beyond the first `k` of a descending list cannot move into the
      first `k` when one more entry is inserted. */
  lemma {:induction false} InsertTake(x: nat, s: seq<nat>, k: nat)
    requires SortedDesc(s)
    ensures SortedDesc(Take(s, k))
    ensures Take(Insert(x, s), k) == Take(Insert(x, Take(s, k)), k)
  {
    SortedPrefix(s, if |s| > k then k else |s|);
    if k == 0 || s == [] {
    } else if x >= s[0] {
      InsertTakeFront(x, s, k);
    } else {
      SortedTail(s);
      InsertTake(x, s[1..], k - 1);
      InsertTakeBehind(x, s, k);
    }
  }

  /** `InsertTake` when `x` goes in front. */
  lemma InsertTakeFront(x: nat, s: seq<nat>, k: nat)
    requires SortedDesc(s) && s != [] && k > 0 && x >= s[0]
    requires SortedDesc(Take(s, k))
    ensures Take(Insert(x, s), k) == Take(Insert(x, Take(s, k)), k)
  {
    var t := Take(s, k);
    assert s == [s[0]] + s[1..];
    TakeCons(s[0], s[1..], k);
    assert t[0] == s[0];
    assert Insert(x, s) == [x] + s;
    assert Insert(x, t) == [x] + t;
    TakeCons(x, s, k);
    TakeCons(x, t, k);
    assert Take(t, k - 1) == Take(s, k - 1);
  }

  /** `InsertTake` when `x` goes behind the head, given it for the tail. */
  lemma InsertTakeBehind(x: nat, s: seq<nat>, k: nat)
    requires SortedDesc(s) && s != [] && k > 0 && x < s[0]
    requires SortedDesc(Take(s, k)) && SortedDesc(s[1..]) && SortedDesc(Take(s[1..], k - 1))
    requires Take(Insert(x, s[1..]), k - 1) == Take(Insert(x, Take(s[1..], k - 1)), k - 1)
    ensures Take(Insert(x, s), k) == Take(Insert(x, Take(s, k)), k)
  {
    var t := Take(s, k);
    var u := Take(s[1..], k - 1);
    assert t == [s[0]] + u by {
      assert s == [s[0]] + s[1..];
      TakeCons(s[0], s[1..], k);
    }
    assert Insert(x, s) == [s[0]] + Insert(x, s[1..]);
    assert Insert(x, t) == [s[0]] + Insert(x, u) by {
      assert t[0] == s[0] && t[1..] == u;
    }
    TakeCons(s[0], Insert(x, s[1..]), k);
    TakeCons(s[0], Insert(x, u), k);
  }

  /** Recording into the kept table gives the table of every entry ever
      recorded: dropping entries beyond the fifth loses nothing later. */
  lemma RecordIntoTop(all: seq<nat>, x: nat)
    ensures TopScores(TopScores(all) + [x]) == TopScores(all + [x])
  {
    var sorted := SortDesc(all);
    SortedPrefix(sorted, if |sorted| > MaxEntries then MaxEntries else |sorted|);
    SortDescOfSorted(TopScores(all));
    SortDescAppend(TopScores(all), x);
    SortDescAppend(all, x);
    InsertTake(x, sorted, MaxEntries);
  }
}
