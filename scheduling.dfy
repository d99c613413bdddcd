/** Event scheduling in battlesim/battle.py: the priority key of an event and
    the pending queue it is popped from, smallest key first.

    The source writes the key as the float `float("turn.SSPP")`, where SS is
    the two-digit code of the move priority and PP the two-digit code of the
    actor's rank in the speed list; a BeginTurn event is keyed by the plain
    turn number. Here the key is the triple (turn, SS, PP) ordered
    lexicographically, with a BeginTurn event at (turn, 0, 0). */
module Scheduling {
  import opened Outcomes
  import opened SimEvents

  datatype Key = Key(turn: int, stage: int, speed: int)

  /** The key order: by turn, then stage code, then speed code. */
  predicate KeyLess(a: Key, b: Key) {
    a.turn < b.turn
    || (a.turn == b.turn && a.stage < b.stage)
    || (a.turn == b.turn && a.stage == b.stage && a.speed < b.speed)
  }

  /** The key as the integer t * 10000 + SSPP. For a turn t >= 0 (the only
      turns a battle reaches) this is `float("t.SSPP")` scaled by 10000; for
      a negative turn the float would be t - 0.SSPP instead. */
  function Decimal(k: Key): int {
    k.turn * 10000 + k.stage * 100 + k.speed
  }

  /** For two-digit codes the triple order is the order of the decimal numbers. */
  lemma KeyOrderMatchesDecimal(a: Key, b: Key)
    requires 0 <= a.stage < 100 && 0 <= a.speed < 100
    requires 0 <= b.stage < 100 && 0 <= b.speed < 100
    ensures KeyLess(a, b) <==> Decimal(a) < Decimal(b)
  {
    var ra := a.stage * 100 + a.speed;
    var rb := b.stage * 100 + b.speed;
    assert 0 <= ra < 10000 && 0 <= rb < 10000;
    if a.turn < b.turn {
      assert a.turn * 10000 + 10000 <= b.turn * 10000;
    } else if a.turn > b.turn {
      assert b.turn * 10000 + 10000 <= a.turn * 10000;
    }
  }

  /** `_turn_stage_map`: move priority 8..-7 to stage codes 02..17. */
  const TurnStageMap: map<int, int> :=
    map[8 := 2, 7 := 3, 6 := 4, 5 := 5, 4 := 6, 3 := 7, 2 := 8, 1 := 9, 0 := 10,
        -1 := 11, -2 := 12, -3 := 13, -4 := 14, -5 := 15, -6 := 16, -7 := 17]

  /** `_turn_spi_map`: speed rank 0..11 to speed codes 01..12. */
  const TurnSpiMap: map<int, int> :=
    map[0 := 1, 1 := 2, 2 := 3, 3 := 4, 4 := 5, 5 := 6,
        6 := 7, 7 := 8, 8 := 9, 9 := 10, 10 := 11, 11 := 12]

  /** The stage table covers priorities -7..8 and gives 10 - priority. */
  lemma TurnStageMapMeaning(p: int)
    ensures p in TurnStageMap <==> -7 <= p <= 8
    ensures p in TurnStageMap ==> TurnStageMap[p] == 10 - p
  {
  }

  /** The speed table covers ranks 0..11 and gives rank + 1. */
  lemma TurnSpiMapMeaning(s: int)
    ensures s in TurnSpiMap <==> 0 <= s <= 11
    ensures s in TurnSpiMap ==> TurnSpiMap[s] == s + 1
  {
  }

  /** `_calculate_event_priority(turn, priority, speed_priority)`: a lookup
      outside either table fails, the stage table being read first. */
  function EventPriority(turn: int, priority: int, speedRank: int): (r: Result<Key>)
    ensures r.Ok? <==> -7 <= priority <= 8 && 0 <= speedRank <= 11
    ensures !(-7 <= priority <= 8) ==> r == Err(PriorityOutOfRange(priority))
    ensures -7 <= priority <= 8 && !(0 <= speedRank <= 11) ==> r == Err(SpeedRankOutOfRange(speedRank))
    ensures r.Ok? ==> r.value == Key(turn, 10 - priority, speedRank + 1)
  {
    TurnStageMapMeaning(priority);
    TurnSpiMapMeaning(speedRank);
    if priority !in TurnStageMap then Err(PriorityOutOfRange(priority))
    else if speedRank !in TurnSpiMap then Err(SpeedRankOutOfRange(speedRank))
    else Ok(Key(turn, TurnStageMap[priority], TurnSpiMap[speedRank]))
  }

  /** The key of the BeginTurn event of turn t (`additem(..., t)`). */
  function BeginTurnKey(turn: int): (k: Key)
    ensures Decimal(k) == turn * 10000
  {
    Key(turn, 0, 0)
  }

  /** Within a turn a higher move priority goes first, whatever the speed ranks. */
  lemma HigherPriorityFirst(turn: int, p1: int, s1: int, p2: int, s2: int)
    requires EventPriority(turn, p1, s1).Ok? && EventPriority(turn, p2, s2).Ok?
    requires p1 > p2
    ensures KeyLess(EventPriority(turn, p1, s1).value, EventPriority(turn, p2, s2).value)
  {
  }

  /** At equal move priority the smaller speed rank goes first. */
  lemma FasterRankFirst(turn: int, p: int, s1: int, s2: int)
    requires EventPriority(turn, p, s1).Ok? && EventPriority(turn, p, s2).Ok?
    requires s1 < s2
    ensures KeyLess(EventPriority(turn, p, s1).value, EventPriority(turn, p, s2).value)
  {
  }

  /** Every action of turn t comes after BeginTurn t and before BeginTurn t + 1. */
  lemma ActionsWithinTurn(turn: int, p: int, s: int)
    requires EventPriority(turn, p, s).Ok?
    ensures KeyLess(BeginTurnKey(turn), EventPriority(turn, p, s).value)
    ensures KeyLess(EventPriority(turn, p, s).value, BeginTurnKey(turn + 1))
  {
  }

  /** A pending event and its key (one item of the `PQDict`). */
  datatype Pending = Pending(event: SimEvent, key: Key)

  /** The position of the first smallest key: the item `popitem` removes. */
  function MinIndex(q: seq<Pending>): (i: nat)
    requires q != []
    ensures i < |q|
    ensures forall j :: 0 <= j < |q| ==> !KeyLess(q[j].key, q[i].key)
    ensures forall j :: 0 <= j < i ==> KeyLess(q[i].key, q[j].key)
  {
    if |q| == 1 then 0
    else
      var k := MinIndex(q[1..]) + 1;
      if KeyLess(q[k].key, q[0].key) then k else 0
  }

  /** The queue after popping position i. */
  function RemoveAt(q: seq<Pending>, i: nat): (r: seq<Pending>)
    requires i < |q|
    ensures |r| == |q| - 1
    ensures multiset(r) + multiset{q[i]} == multiset(q)
    ensures forall k :: 0 <= k < |r| ==> r[k] == q[if k < i then k else k + 1]
  {
    assert q == q[..i] + [q[i]] + q[i + 1..];
    q[..i] + q[i + 1..]
  }
}
