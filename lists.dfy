/** Python list and dict operations the core relies on: `list.index`,
    `list.remove`, and reading a dict's keys in order until one is absent. */
module Lists {
  import opened Outcomes

  /** `list.index(x)`: the position of the first occurrence of `x`. */
  function IndexOf<T(==)>(s: seq<T>, x: T): (i: nat)
    requires x in s
    ensures i < |s| && s[i] == x && x !in s[..i]
  {
    if s[0] == x then 0
    else
      var j := IndexOf(s[1..], x);
      assert s[..j + 1] == [s[0]] + s[1..][..j];
      j + 1
  }

  /** `list.remove(x)`: the list without the first occurrence of `x`. */
  function RemoveFirst<T(==)>(s: seq<T>, x: T): (r: seq<T>)
    requires x in s
    ensures r == s[..IndexOf(s, x)] + s[IndexOf(s, x) + 1..]
  {
    if s[0] == x then s[1..]
    else
      var t := RemoveFirst(s[1..], x);
      assert s[IndexOf(s, x) + 1..] == s[1..][IndexOf(s[1..], x) + 1..];
      [s[0]] + t
  }

  /** Removing takes exactly one copy of `x` out. */
  lemma {:induction false} RemoveFirstMultiset<T>(s: seq<T>, x: T)
    requires x in s
    ensures multiset(RemoveFirst(s, x)) == multiset(s) - multiset{x}
  {
    var i := IndexOf(s, x);
    assert s == s[..i] + [x] + s[i + 1..];
  }

  /** The count of `x` in a list with a given head. */
  lemma CountCons<T>(a: T, t: seq<T>, x: T)
    ensures multiset([a] + t)[x] == (if a == x then 1 else 0) + multiset(t)[x]
  {
  }

  /** The count of `x` in a non-empty list, split at its head. */
  lemma CountHead<T>(s: seq<T>, x: T)
    requires s != []
    ensures multiset(s)[x] == (if s[0] == x then 1 else 0) + multiset(s[1..])[x]
  {
    assert s == [s[0]] + s[1..];
  }

  /** The first of `keys`, in reading order, that `d` lacks: where reading
      `d[k]` for each key in turn raises `KeyError`. */
  function FirstAbsent<V>(d: map<string, V>, keys: seq<string>): (r: Option<string>)
    ensures r.None? <==> forall k :: k in keys ==> k in d
    ensures r.Some? ==> r.value in keys && r.value !in d
  {
    if keys == [] then None
    else if keys[0] !in d then Some(keys[0])
    else FirstAbsent(d, keys[1..])
  }
}
