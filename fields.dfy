/** The field of battle (battlesim/field.py): two sides, each a fixed row
    of positions that are empty or hold one combatant's id. */
module Fields {
  import opened Outcomes
  import opened Lists

  type OeoId = string
  type TeamId = string

  /** The position a Python list index names in a list of length n:
      0..n-1 as they are, -n..-1 counted from the end, anything else none. */
  function ResolvePosition(n: nat, position: int): (r: Option<nat>)
    ensures r.Some? <==> -(n as int) <= position < n
    ensures r.Some? ==> r.value < n && (r.value == position || r.value == position + n)
  {
    if 0 <= position < n then Some(position)
    else if -(n as int) <= position < 0 then Some(position + n)
    else None
  }

  /** The occupants in position order, skipping empty positions (`Side.fielded`). */
  function FieldedOf(s: seq<Option<OeoId>>): (r: seq<OeoId>)
    ensures |r| <= |s|
  {
    if s == [] then []
    else (if s[0].Some? then [s[0].value] else []) + FieldedOf(s[1..])
  }

  /** The empty positions from `start` on, in increasing order. */
  function EmptyFrom(s: seq<Option<OeoId>>, start: nat): (r: seq<nat>)
    requires start <= |s|
    ensures forall k :: 0 <= k < |r| ==> start <= r[k] < |s| && s[r[k]].None?
    ensures forall j :: start <= j < |s| && s[j].None? ==> j in r
    ensures forall k, l :: 0 <= k < l < |r| ==> r[k] < r[l]
    decreases |s| - start
  {
    if start == |s| then []
    else if s[start].None? then [start] + EmptyFrom(s, start + 1)
    else EmptyFrom(s, start + 1)
  }

  /** `Side.empty_positions`: every empty position, each once, in increasing order. */
  function EmptyPositionsOf(s: seq<Option<OeoId>>): (r: seq<nat>)
    ensures forall k :: 0 <= k < |r| ==> r[k] < |s| && s[r[k]].None?
    ensures forall j :: 0 <= j < |s| && s[j].None? ==> j in r
    ensures forall k, l :: 0 <= k < l < |r| ==> r[k] < r[l]
  {
    EmptyFrom(s, 0)
  }

  /** `Side.is_empty`: no position is occupied. */
  predicate IsEmptyOf(s: seq<Option<OeoId>>) {
    forall i :: 0 <= i < |s| ==> s[i].None?
  }

  /** `Side.deploy`: `side[position] = oeo_id`, with Python's list indexing. */
  function DeployTo(s: seq<Option<OeoId>>, id: OeoId, position: int): (r: Result<seq<Option<OeoId>>>)
    ensures r.Ok? <==> -|s| <= position < |s|
    ensures r.Err? ==> r.error == PositionOutOfRange(position)
    ensures r.Ok? ==> |r.value| == |s|
    ensures r.Ok? ==> var i := if position < 0 then position + |s| else position;
      r.value[i] == Some(id) && forall j :: 0 <= j < |s| && j != i ==> r.value[j] == s[j]
  {
    match ResolvePosition(|s|, position)
    case None => Err(PositionOutOfRange(position))
    case Some(i) => Ok(s[i := Some(id)])
  }

  /** `Side.withdraw`: empties the first position holding the id; an id that is
      not on the side is an error (`list.index` raises). */
  function WithdrawFrom(s: seq<Option<OeoId>>, id: OeoId): (r: Result<seq<Option<OeoId>>>)
    ensures r.Ok? <==> Some(id) in s
    ensures r.Err? ==> r.error == NotOnSide(id)
    ensures r.Ok? ==> |r.value| == |s|
    ensures r.Ok? ==> var i := IndexOf(s, Some(id));
      r.value[i] == None && Some(id) !in s[..i] && forall j :: 0 <= j < |s| && j != i ==> r.value[j] == s[j]
  {
    if Some(id) in s then Ok(s[IndexOf(s, Some(id)) := None]) else Err(NotOnSide(id))
  }

  /** The ids an optional occupant contributes to the fielded list. */
  function Occupant(o: Option<OeoId>): multiset<OeoId> {
    if o.Some? then multiset{o.value} else multiset{}
  }

  /** An id is fielded exactly when some position holds it. */
  lemma {:induction false} FieldedMembership(s: seq<Option<OeoId>>, x: OeoId)
    ensures x in FieldedOf(s) <==> Some(x) in s
  {
    if s != [] {
      FieldedMembership(s[1..], x);
      assert s == [s[0]] + s[1..];
    }
  }

  /** The fielded ids of two rows put together are those of each, in order. */
  lemma {:induction false} FieldedConcat(a: seq<Option<OeoId>>, b: seq<Option<OeoId>>)
    ensures FieldedOf(a + b) == FieldedOf(a) + FieldedOf(b)
  {
    if a == [] {
      assert a + b == b;
    } else {
      var head := if a[0].Some? then [a[0].value] else [];
      assert (a + b)[0] == a[0];
      assert (a + b)[1..] == a[1..] + b;
      FieldedConcat(a[1..], b);
      assert FieldedOf(a + b) == head + FieldedOf(a[1..] + b);
      assert FieldedOf(a) == head + FieldedOf(a[1..]);
    }
  }

  /** Replacing one position replaces its occupant among the fielded ids. */
  lemma FieldedUpdate(s: seq<Option<OeoId>>, i: nat, v: Option<OeoId>)
    requires i < |s|
    ensures multiset(FieldedOf(s[i := v])) == multiset(FieldedOf(s)) - Occupant(s[i]) + Occupant(v)
  {
    FieldedSwap(s, i, v);
    if s[i].Some? {
      assert Some(s[i].value) in s;
      FieldedMembership(s, s[i].value);
      assert s[i].value in multiset(FieldedOf(s));
    }
    UnionCancel(multiset(FieldedOf(s[i := v])), multiset(FieldedOf(s)), Occupant(s[i]), Occupant(v));
  }

  /** The same in sums: the new side plus the old occupant is the old side plus the new one. */
  lemma {:induction false} FieldedSwap(s: seq<Option<OeoId>>, i: nat, v: Option<OeoId>)
    requires i < |s|
    ensures multiset(FieldedOf(s[i := v])) + Occupant(s[i]) == multiset(FieldedOf(s)) + Occupant(v)
    decreases i
  {
    if i == 0 {
      FieldedSwapHead(s, v);
    } else {
      FieldedSwap(s[1..], i - 1, v);
      FieldedSwapStep(s, i, v);
    }
  }

  /** The base of the induction: a change at the first position. */
  lemma FieldedSwapHead(s: seq<Option<OeoId>>, v: Option<OeoId>)
    requires s != []
    ensures multiset(FieldedOf(s[0 := v])) + Occupant(s[0]) == multiset(FieldedOf(s)) + Occupant(v)
  {
    var s' := s[0 := v];
    FieldedHead(s);
    FieldedHead(s');
    assert s'[1..] == s[1..];
    var m := multiset(FieldedOf(s[1..]));
    forall e
      ensures (Occupant(v) + m + Occupant(s[0]))[e] == (Occupant(s[0]) + m + Occupant(v))[e]
    {
    }
  }

  /** The step of the induction: a change past the first position leaves that position's share. */
  lemma FieldedSwapStep(s: seq<Option<OeoId>>, i: nat, v: Option<OeoId>)
    requires 0 < i < |s|
    requires multiset(FieldedOf(s[1..][i - 1 := v])) + Occupant(s[1..][i - 1])
      == multiset(FieldedOf(s[1..])) + Occupant(v)
    ensures multiset(FieldedOf(s[i := v])) + Occupant(s[i]) == multiset(FieldedOf(s)) + Occupant(v)
  {
    var s' := s[i := v];
    var t, t' := s[1..], s'[1..];
    FieldedHead(s);
    FieldedHead(s');
    assert t' == t[i - 1 := v];
    assert t[i - 1] == s[i];
    assert s'[0] == s[0];
    UnionShift(Occupant(s[0]), multiset(FieldedOf(t')), multiset(FieldedOf(t)), Occupant(s[i]), Occupant(v));
  }

  /** Adding the same multiset to both sides of an equation of sums. */
  lemma UnionShift<T>(h: multiset<T>, a: multiset<T>, b: multiset<T>, x: multiset<T>, y: multiset<T>)
    requires a + x == b + y
    ensures h + a + x == h + b + y
  {
    forall e
      ensures (h + a + x)[e] == (h + b + y)[e]
    {
      assert (a + x)[e] == (b + y)[e];
    }
  }

  /** Taking back out of a sum what was added to it. */
  lemma UnionCancel<T>(m': multiset<T>, m: multiset<T>, o: multiset<T>, v: multiset<T>)
    requires m' + o == m + v && o <= m
    ensures m' == m - o + v
  {
    forall e
      ensures m'[e] == (m - o + v)[e]
    {
      assert (m' + o)[e] == (m + v)[e];
    }
  }

  /** The first position contributes its occupant, the rest their fielded ids. */
  lemma FieldedHead(s: seq<Option<OeoId>>)
    requires s != []
    ensures multiset(FieldedOf(s)) == Occupant(s[0]) + multiset(FieldedOf(s[1..]))
  {
  }

  /** `FieldedMembership` for every id at once. */
  lemma FieldedMembershipAll(s: seq<Option<OeoId>>)
    ensures forall x :: x in FieldedOf(s) <==> Some(x) in s
  {
    forall x
      ensures x in FieldedOf(s) <==> Some(x) in s
    {
      FieldedMembership(s, x);
    }
  }

  /** Every position is either occupied or listed as empty. */
  lemma {:induction false} PartitionLength(s: seq<Option<OeoId>>, start: nat)
    requires start <= |s|
    ensures |FieldedOf(s[start..])| + |EmptyFrom(s, start)| == |s| - start
    decreases |s| - start
  {
    if start < |s| {
      assert s[start..][1..] == s[start + 1..];
      PartitionLength(s, start + 1);
    }
  }

  /** A side is empty exactly when nothing is fielded and every position is free. */
  lemma EmptyIffNoneFielded(s: seq<Option<OeoId>>)
    ensures IsEmptyOf(s) <==> FieldedOf(s) == []
    ensures IsEmptyOf(s) <==> |EmptyPositionsOf(s)| == |s|
  {
    PartitionLength(s, 0);
    assert s[0..] == s;
    if !IsEmptyOf(s) {
      var i :| 0 <= i < |s| && s[i].Some?;
      FieldedMembership(s, s[i].value);
    } else if FieldedOf(s) != [] {
      FieldedMembership(s, FieldedOf(s)[0]);
    }
  }

  /** Deploying to an in-range position fields the id in place of the old occupant. */
  lemma DeployFielded(s: seq<Option<OeoId>>, id: OeoId, position: int)
    requires -|s| <= position < |s|
    ensures var i := if position < 0 then position + |s| else position;
      multiset(FieldedOf(DeployTo(s, id, position).value)) == multiset(FieldedOf(s)) - Occupant(s[i]) + multiset{id}
  {
    var i := if position < 0 then position + |s| else position;
    assert DeployTo(s, id, position).value == s[i := Some(id)];
    FieldedUpdate(s, i, Some(id));
  }

  /** Withdrawing a fielded id removes exactly one copy of it. */
  lemma WithdrawFielded(s: seq<Option<OeoId>>, id: OeoId)
    requires Some(id) in s
    ensures multiset(FieldedOf(WithdrawFrom(s, id).value)) == multiset(FieldedOf(s)) - multiset{id}
    ensures IndexOf(s, Some(id)) in EmptyPositionsOf(WithdrawFrom(s, id).value)
  {
    FieldedUpdate(s, IndexOf(s, Some(id)), None);
  }

  /** Deploying a new id to a free position and withdrawing it restores the side. */
  lemma DeployWithdrawRoundTrip(s: seq<Option<OeoId>>, id: OeoId, position: int)
    requires -|s| <= position < |s|
    requires s[if position < 0 then position + |s| else position].None?
    requires Some(id) !in s
    ensures WithdrawFrom(DeployTo(s, id, position).value, id) == Ok(s)
  {
    var i := if position < 0 then position + |s| else position;
    var t := DeployTo(s, id, position).value;
    assert t == s[i := Some(id)];
    assert t[i] == Some(id);
    assert IndexOf(t, Some(id)) == i;
    assert t[i := None] == s;
  }

  /** One side of the field. `maxFielded` is the `max_fielded` it was built
      with, which `__len__` returns; when it is negative the row of positions
      has none. */
  class Side {
    const maxFielded: int
    const slots: array<Option<OeoId>>

    /** `Side(max_fielded)`: every position starts empty. */
    constructor (maxFielded: int)
      ensures this.maxFielded == maxFielded
      ensures Valid()
      ensures IsEmptyOf(slots[..])
      ensures fresh(slots)
    {
      this.maxFielded := maxFielded;
      slots := new Option<OeoId>[if maxFielded > 0 then maxFielded else 0](_ => None);
    }

    /** The row has `len(side)` positions, none when that is not positive. */
    ghost predicate Valid() {
      slots.Length == if maxFielded > 0 then maxFielded else 0
    }

    /** `__len__`: `max_fielded` as given, which on a valid side is the row's
        length whenever it is positive. */
    function Len(): (r: int)
      ensures Valid() ==> (r > 0 ==> r == slots.Length) && (r <= 0 ==> slots.Length == 0)
    {
      maxFielded
    }

    /** The positions, in order (`side.side`). */
    function Contents(): seq<Option<OeoId>>
      reads slots
    {
      slots[..]
    }

    /** `side.fielded`: exactly the ids some position holds, one per occupied
        position. */
    function Fielded(): (r: seq<OeoId>)
      reads slots
      ensures forall k :: 0 <= k < |r| ==> Some(r[k]) in slots[..]
      ensures forall j :: 0 <= j < slots.Length && slots[j].Some? ==> slots[j].value in r
      ensures |r| + |EmptyPositionsOf(slots[..])| == slots.Length
    {
      FieldedMembershipAll(slots[..]);
      PartitionLength(slots[..], 0);
      assert slots[..][0..] == slots[..];
      FieldedOf(slots[..])
    }

    /** `side.empty_positions`: every empty position, each once, in increasing order. */
    function EmptyPositions(): (r: seq<nat>)
      reads slots
      ensures forall k :: 0 <= k < |r| ==> r[k] < slots.Length && slots[r[k]].None?
      ensures forall j :: 0 <= j < slots.Length && slots[j].None? ==> j in r
      ensures forall k, l :: 0 <= k < l < |r| ==> r[k] < r[l]
    {
      EmptyPositionsOf(slots[..])
    }

    /** `side.is_empty()`: nothing is fielded, so every position is free. */
    predicate IsEmpty(): (r: bool)
      reads slots
      ensures r <==> FieldedOf(slots[..]) == []
      ensures r <==> |EmptyPositionsOf(slots[..])| == slots.Length
    {
      EmptyIffNoneFielded(slots[..]);
      IsEmptyOf(slots[..])
    }

    /** `side.index(oeo_id)`: the first position holding the id. */
    function Index(id: OeoId): (r: Result<nat>)
      reads slots
      ensures r.Ok? <==> Some(id) in slots[..]
      ensures r.Ok? ==> r.value < slots.Length && slots[r.value] == Some(id) && Some(id) !in slots[..r.value]
      ensures r.Err? ==> r.error == NotOnSide(id)
    {
      if Some(id) in slots[..] then Ok(IndexOf(slots[..], Some(id))) else Err(NotOnSide(id))
    }

    /** `side.deploy(oeo_id, position)`. */
    method Deploy(id: OeoId, position: int) returns (r: Outcome)
      modifies slots
      ensures r.Pass? <==> DeployTo(old(slots[..]), id, position).Ok?
      ensures r.Pass? ==> slots[..] == DeployTo(old(slots[..]), id, position).value
      ensures r.Fail? ==> r.error == PositionOutOfRange(position) && slots[..] == old(slots[..])
    {
      match ResolvePosition(slots.Length, position)
      case None =>
        r := Fail(PositionOutOfRange(position));
      case Some(i) =>
        slots[i] := Some(id);
        r := Pass;
    }

    /** `side.withdraw(oeo_id)`. */
    method Withdraw(id: OeoId) returns (r: Outcome)
      modifies slots
      ensures r.Pass? <==> WithdrawFrom(old(slots[..]), id).Ok?
      ensures r.Pass? ==> slots[..] == WithdrawFrom(old(slots[..]), id).value
      ensures r.Fail? ==> r.error == NotOnSide(id) && slots[..] == old(slots[..])
    {
      match Index(id)
      case Err(e) =>
        r := Fail(e);
      case Ok(i) =>
        slots[i] := None;
        r := Pass;
    }
  }

  /** The whole field: a side per team. Python builds `{a_id: ..., b_id: ...}`,
      so when the two team ids coincide the second side is the one kept. */
  class Field {
    const aId: TeamId
    const bId: TeamId
    const sideA: Side
    const sideB: Side

    /** The two sides and their rows of positions are distinct objects, and
        each row has `len(side)` positions (none when that is negative). */
    ghost predicate Valid() {
      sideA != sideB && sideA.slots != sideB.slots && sideA.Valid() && sideB.Valid()
    }

    /** `Field(a_id, a_max_fielded, b_id, b_max_fielded)`. */
    constructor (aId: TeamId, aMaxFielded: int, bId: TeamId, bMaxFielded: int)
      ensures Valid()
      ensures this.aId == aId && this.bId == bId
      ensures sideA.maxFielded == aMaxFielded && sideB.maxFielded == bMaxFielded
      ensures IsEmptyOf(sideA.slots[..]) && IsEmptyOf(sideB.slots[..])
      ensures fresh(sideA) && fresh(sideB) && fresh(sideA.slots) && fresh(sideB.slots)
    {
      this.aId := aId;
      this.bId := bId;
      sideA := new Side(aMaxFielded);
      sideB := new Side(bMaxFielded);
    }

    /** `field[team_id]`: an unknown team is an error. */
    function Get(team: TeamId): (r: Result<Side>)
      ensures r.Ok? <==> team == aId || team == bId
      ensures r.Err? ==> r.error == UnknownTeam(team)
      ensures team == bId ==> r == Ok(sideB)
      ensures team == aId && team != bId ==> r == Ok(sideA)
    {
      if team == bId then Ok(sideB)
      else if team == aId then Ok(sideA)
      else Err(UnknownTeam(team))
    }

    /** `field.deploy(team_id, oeo_id, position)`: only the team's side changes. */
    method Deploy(team: TeamId, id: OeoId, position: int) returns (r: Outcome)
      requires Valid()
      modifies sideA.slots, sideB.slots
      ensures Get(team).Err? ==>
        r == Fail(UnknownTeam(team)) && sideA.slots[..] == old(sideA.slots[..]) && sideB.slots[..] == old(sideB.slots[..])
      ensures Get(team).Ok? ==> var side := Get(team).value;
        var other := if side == sideA then sideB else sideA;
        (r.Pass? <==> DeployTo(old(side.slots[..]), id, position).Ok?)
        && (r.Pass? ==> side.slots[..] == DeployTo(old(side.slots[..]), id, position).value)
        && (r.Fail? ==> r.error == PositionOutOfRange(position) && side.slots[..] == old(side.slots[..]))
        && other.slots[..] == old(other.slots[..])
    {
      match Get(team)
      case Err(e) =>
        r := Fail(e);
      case Ok(side) =>
        r := side.Deploy(id, position);
    }

    /** `field.withdraw(team_id, oeo_id)`: only the team's side changes. */
    method Withdraw(team: TeamId, id: OeoId) returns (r: Outcome)
      requires Valid()
      modifies sideA.slots, sideB.slots
      ensures Get(team).Err? ==>
        r == Fail(UnknownTeam(team)) && sideA.slots[..] == old(sideA.slots[..]) && sideB.slots[..] == old(sideB.slots[..])
      ensures Get(team).Ok? ==> var side := Get(team).value;
        var other := if side == sideA then sideB else sideA;
        (r.Pass? <==> WithdrawFrom(old(side.slots[..]), id).Ok?)
        && (r.Pass? ==> side.slots[..] == WithdrawFrom(old(side.slots[..]), id).value)
        && (r.Fail? ==> r.error == NotOnSide(id) && side.slots[..] == old(side.slots[..]))
        && other.slots[..] == old(other.slots[..])
    {
      match Get(team)
      case Err(e) =>
        r := Fail(e);
      case Ok(side) =>
        r := side.Withdraw(id);
    }
  }
}
