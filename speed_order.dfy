/** The speed priority list of battlesim/battle.py: combatants paired with
    their speed, sorted fastest first by Python's stable `list.sort(key=...,
    reverse=True)`, so that combatants of equal speed keep their original
    order. */
module SpeedOrder {
  type OeoId = string

  /** A combatant and its speed. */
  datatype Entry = Entry(id: OeoId, speed: int)

  /** Fastest first. */
  predicate SortedBySpeed(s: seq<Entry>) {
    forall i, j :: 0 <= i < j < |s| ==> s[i].speed >= s[j].speed
  }

  /** The entries of one speed, in the order they appear. */
  function WithSpeed(s: seq<Entry>, v: int): (r: seq<Entry>)
    ensures forall k :: 0 <= k < |r| ==> r[k].speed == v
  {
    if s == [] then []
    else (if s[0].speed == v then [s[0]] else []) + WithSpeed(s[1..], v)
  }

  /** Places `x` after every entry at least as fast, before the first slower one. */
  function Insert(x: Entry, s: seq<Entry>): (r: seq<Entry>)
    ensures |r| == |s| + 1
  {
    if s == [] then [x]
    else if s[0].speed < x.speed then [x] + s
    else [s[0]] + Insert(x, s[1..])
  }

  /** The stable descending sort: each entry in turn is inserted after those before it. */
  function SortBySpeed(s: seq<Entry>): (r: seq<Entry>)
    ensures |r| == |s|
  {
    if s == [] then [] else Insert(s[|s| - 1], SortBySpeed(s[..|s| - 1]))
  }

  /** Inserting adds exactly the one entry. */
  lemma {:induction false} InsertPermutes(x: Entry, s: seq<Entry>)
    ensures multiset(Insert(x, s)) == multiset(s) + multiset{x}
  {
    if s != [] && s[0].speed >= x.speed {
      InsertPermutes(x, s[1..]);
      assert s == [s[0]] + s[1..];
    }
  }

  /** Inserting into a sorted list keeps it sorted. */
  lemma {:induction false} InsertSorted(x: Entry, s: seq<Entry>)
    requires SortedBySpeed(s)
    ensures SortedBySpeed(Insert(x, s))
  {
    if s != [] && s[0].speed >= x.speed {
      var t := Insert(x, s[1..]);
      InsertSorted(x, s[1..]);
      InsertPermutes(x, s[1..]);
      forall k | 0 <= k < |t|
        ensures s[0].speed >= t[k].speed
      {
        assert t[k] in multiset(t);
        if t[k] != x {
          assert t[k] in multiset(s[1..]);
          var m :| 0 <= m < |s[1..]| && s[1..][m] == t[k];
          assert s[m + 1] == t[k];
        }
      }
      assert Insert(x, s) == [s[0]] + t;
    }
  }

  /** The sort is a permutation of its input. */
  lemma {:induction false} SortPermutes(s: seq<Entry>)
    ensures multiset(SortBySpeed(s)) == multiset(s)
  {
    if s != [] {
      var init := s[..|s| - 1];
      assert s == init + [s[|s| - 1]];
      SortPermutes(init);
      InsertPermutes(s[|s| - 1], SortBySpeed(init));
    }
  }

  /** The sort puts the fastest first. */
  lemma {:induction false} SortSorted(s: seq<Entry>)
    ensures SortedBySpeed(SortBySpeed(s))
  {
    if s != [] {
      SortSorted(s[..|s| - 1]);
      InsertSorted(s[|s| - 1], SortBySpeed(s[..|s| - 1]));
    }
  }

  /** The ids in list order (`[t[0] for t in oeo_against_speed]`). */
  function Ids(s: seq<Entry>): (r: seq<OeoId>)
    ensures |r| == |s|
    ensures forall k :: 0 <= k < |s| ==> r[k] == s[k].id
  {
    if s == [] then [] else [s[0].id] + Ids(s[1..])
  }

  /** Lists holding the same entries hold the same ids. */
  lemma IdsPermuted(s: seq<Entry>, t: seq<Entry>, x: OeoId)
    requires multiset(s) == multiset(t)
    ensures x in Ids(s) ==> x in Ids(t)
  {
    if x in Ids(s) {
      var m :| 0 <= m < |s| && Ids(s)[m] == x;
      assert s[m] in multiset(t);
      var k :| 0 <= k < |t| && t[k] == s[m];
      assert Ids(t)[k] == x;
    }
  }

  /** The sort keeps exactly the ids of its input. */
  lemma SortKeepsIds(s: seq<Entry>, x: OeoId)
    ensures x in Ids(SortBySpeed(s)) <==> x in Ids(s)
  {
    SortPermutes(s);
    IdsPermuted(SortBySpeed(s), s, x);
    IdsPermuted(s, SortBySpeed(s), x);
  }

  /** Selecting one speed distributes over concatenation. */
  lemma {:induction false} WithSpeedAppend(s: seq<Entry>, t: seq<Entry>, v: int)
    ensures WithSpeed(s + t, v) == WithSpeed(s, v) + WithSpeed(t, v)
  {
    if s == [] {
      assert s + t == t;
    } else {
      var head := if s[0].speed == v then [s[0]] else [];
      assert WithSpeed(s + t, v) == head + WithSpeed(s[1..] + t, v) by {
        assert (s + t)[0] == s[0];
        assert (s + t)[1..] == s[1..] + t;
      }
      WithSpeedAppend(s[1..], t, v);
    }
  }

  /** Inserting `x` puts it after every entry of its own speed. */
  lemma {:induction false} WithSpeedInsert(x: Entry, s: seq<Entry>, v: int)
    requires SortedBySpeed(s)
    ensures WithSpeed(Insert(x, s), v) == WithSpeed(s, v) + (if x.speed == v then [x] else [])
  {
    if s == [] {
    } else if s[0].speed < x.speed {
      if x.speed == v {
        NoneWithSpeed(s, v);
      }
    } else {
      WithSpeedInsert(x, s[1..], v);
      var t := Insert(x, s[1..]);
      assert ([s[0]] + t)[1..] == t;
    }
  }

  /** A sorted list whose first entry is slower than `v` has none of speed `v`. */
  lemma {:induction false} NoneWithSpeed(s: seq<Entry>, v: int)
    requires SortedBySpeed(s)
    requires s != [] && s[0].speed < v
    ensures WithSpeed(s, v) == []
  {
    if |s| > 1 {
      NoneWithSpeed(s[1..], v);
    }
  }

  /** Stability: among entries of equal speed the sort keeps the original order. */
  lemma {:induction false} SortIsStable(s: seq<Entry>, v: int)
    ensures WithSpeed(SortBySpeed(s), v) == WithSpeed(s, v)
  {
    if s != [] {
      var init := s[..|s| - 1];
      var x := s[|s| - 1];
      assert s == init + [x];
      SortIsStable(init, v);
      SortSorted(init);
      WithSpeedInsert(x, SortBySpeed(init), v);
      WithSpeedAppend(init, [x], v);
    }
  }

  /** In the sorted list a strictly faster combatant has a smaller index. */
  lemma FasterComesFirst(s: seq<Entry>, i: nat, j: nat)
    requires i < |SortBySpeed(s)| && j < |SortBySpeed(s)|
    requires SortBySpeed(s)[i].speed > SortBySpeed(s)[j].speed
    ensures i < j
  {
    SortSorted(s);
  }
}
