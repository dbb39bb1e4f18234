/** Episode records as the listing API returns them, and the ordering that
    `fetch_episodes` puts them in: by episode number, highest first. */
module Episodes {

  /** One record of the listing. Only `number` takes part in any decision;
      the other fields are carried through to the notification. */
  datatype Episode = Episode(number: int, title: string, since: string, webUrl: string)

  /** Ordered by number, highest first (equal numbers may sit side by side). */
  predicate NonIncreasing(s: seq<Episode>) {
    forall i, j :: 0 <= i < j < |s| ==> s[i].number >= s[j].number
  }

  /** The largest episode number of a non-empty listing. */
  function MaxNumber(s: seq<Episode>): (m: int)
    requires |s| > 0
    ensures forall i :: 0 <= i < |s| ==> s[i].number <= m
    ensures exists i :: 0 <= i < |s| && s[i].number == m
  {
    if |s| == 1 then s[0].number
    else
      var rest := MaxNumber(s[1..]);
      assert forall i :: 1 <= i < |s| ==> s[i] == s[1..][i - 1];
      if s[0].number >= rest then s[0].number else rest
  }

  /** The position of the first record (in listing order) that carries the
      largest number: the one a stable sort brings to the front. */
  function LatestIndex(s: seq<Episode>): (k: nat)
    requires |s| > 0
    ensures k < |s| && s[k].number == MaxNumber(s)
    ensures forall i :: 0 <= i < k ==> s[i].number < s[k].number
  {
    if |s| == 1 || s[0].number >= MaxNumber(s[1..]) then 0
    else
      var k' := LatestIndex(s[1..]);
      assert forall i :: 1 <= i < |s| ==> s[i] == s[1..][i - 1];
      1 + k'
  }

  /** Putting a record in front of an ordered listing keeps it ordered when
      no record behind it has a larger number. */
  lemma ConsNonIncreasing(x: Episode, t: seq<Episode>)
    requires NonIncreasing(t)
    requires forall j :: 0 <= j < |t| ==> t[j].number <= x.number
    ensures NonIncreasing([x] + t)
  {
  }

  /** Every record of `t` is bounded by `b` when every member of a multiset
      equal to `t`'s is. */
  lemma BoundedByMembers(t: seq<Episode>, m: multiset<Episode>, b: int)
    requires multiset(t) == m
    requires forall x :: x in m ==> x.number <= b
    ensures forall j :: 0 <= j < |t| ==> t[j].number <= b
  {
  }

  /** Inserts `e` into a listing already ordered highest first, in front of
      every record whose number is not larger; a record inserted this way
      therefore precedes the equal-numbered records that came after it. */
  function Insert(e: Episode, t: seq<Episode>): (r: seq<Episode>)
    requires NonIncreasing(t)
    ensures NonIncreasing(r)
    ensures multiset(r) == multiset(t) + multiset{e}
  {
    if t == [] || t[0].number <= e.number then
      ConsNonIncreasing(e, t);
      [e] + t
    else
      var r' := Insert(e, t[1..]);
      assert t == [t[0]] + t[1..];
      forall x | x in multiset(t[1..]) + multiset{e} ensures x.number <= t[0].number {
        if x != e { assert x in t[1..]; }
      }
      BoundedByMembers(r', multiset(t[1..]) + multiset{e}, t[0].number);
      ConsNonIncreasing(t[0], r');
      [t[0]] + r'
  }

  /** `sorted(episodes, key=number, reverse=True)`: a stable sort by number,
      highest first. */
  function SortByNumberDesc(s: seq<Episode>): (r: seq<Episode>)
    ensures NonIncreasing(r)
    ensures multiset(r) == multiset(s)
  {
    if s == [] then []
    else
      assert s == [s[0]] + s[1..];
      Insert(s[0], SortByNumberDesc(s[1..]))
  }

  /** The front of a non-empty ordered listing has the largest number. */
  lemma {:induction false} SortedHeadIsMax(s: seq<Episode>)
    requires |s| > 0
    ensures |SortByNumberDesc(s)| == |s|
    ensures SortByNumberDesc(s)[0].number == MaxNumber(s)
    ensures SortByNumberDesc(s)[0] in s
  {
    var r := SortByNumberDesc(s);
    assert |r| == |multiset(r)| == |multiset(s)| == |s|;
    assert r[0] in multiset(r);
    var k :| 0 <= k < |s| && s[k].number == MaxNumber(s);
    assert s[k] in multiset(s);
    var j :| 0 <= j < |r| && r[j] == s[k];
    assert r[0].number >= r[j].number;
  }

  /** Inserting in front of equal numbers: the new front is `e` exactly when
      no record of `t` has a larger number. */
  lemma {:induction false} InsertHead(e: Episode, t: seq<Episode>)
    requires NonIncreasing(t)
    ensures |Insert(e, t)| > 0
    ensures t == [] || t[0].number <= e.number ==> Insert(e, t)[0] == e
    ensures t != [] && t[0].number > e.number ==> Insert(e, t)[0] == t[0]
  {
  }

  /** Which of several equal-numbered records ends up first: the one that
      came first in the listing. */
  lemma {:induction false} SortedHeadIsFirstLatest(s: seq<Episode>)
    requires |s| > 0
    ensures |SortByNumberDesc(s)| > 0
    ensures SortByNumberDesc(s)[0] == s[LatestIndex(s)]
  {
    SortedHeadIsMax(s);
    var t := SortByNumberDesc(s[1..]);
    InsertHead(s[0], t);
    if |s| > 1 {
      SortedHeadIsMax(s[1..]);
      SortedHeadIsFirstLatest(s[1..]);
    }
  }
}
