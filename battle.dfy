/** The battle engine (battlesim/battle.py): a loop that withdraws fainted
    combatants, checks whether the battle is over, asks each team to deploy,
    then pops the pending event with the smallest key, processes it and logs
    it. The two decision handlers and the damage rolls are parameters. */
module Battles {
  import opened Outcomes
  import opened SimEvents
  import opened Moves
  import opened Oeos
  import opened Damage
  import opened Lists
  import opened Fields
  import opened Scheduling
  import opened BattleRules

  /** One entry of the processed log: the key, the event and its outcome code
      (1 done, -1 skipped, 0 not implemented). */
  datatype Processed = Processed(key: Key, event: SimEvent, outcome: int)

  /** How `run` ends: "DRAW", the id of the winning team, the fuel running
      out, or an exception. A BeginTurn is always pending (`HasBeginTurn`),
      so the `None` that `run` returns on an empty queue has no case here. */
  datatype RunOutcome = Draw | Won(team: TeamId) | OutOfFuel | Aborted(error: Error)

  /** What a pass of the loop of `run` starts from: both sides of the field,
      the conscious combatants, the queue, the turn number, the processed
      log and every combatant's HP. */
  datatype PassStart = PassStart(sideA: seq<Option<OeoId>>, sideB: seq<Option<OeoId>>, conscious: set<OeoId>,
                                 pending: seq<Pending>, turn: int, log: seq<Processed>, hp: map<OeoId, int>)

  /** The ids whose HP in `hp` is above 0. */
  ghost function ConsciousOf(hp: map<OeoId, int>): set<OeoId> {
    set x | x in hp && hp[x] > 0
  }

  /** The outcome code `run` logs for event `e` processed without error when
      team a's side holds `sa` and team b's `sb`: 1 for a BeginTurn, 1 for a
      UseMove whose user and target are both fielded and -1 otherwise, 0 for
      the stubs. */
  ghost function CodeOn(sa: seq<Option<OeoId>>, sb: seq<Option<OeoId>>, e: SimEvent): int {
    match e.eventType
    case BeginTurn => 1
    case UseMove =>
      if UserIdKey in e.data && TargetIdKey in e.data
         && (Some(e.data[UserIdKey]) in sa || Some(e.data[UserIdKey]) in sb)
         && (Some(e.data[TargetIdKey]) in sa || Some(e.data[TargetIdKey]) in sb) then 1 else -1
    case _ => 0
  }

  /** A handler's result as the pass or failure of its step. */
  function OutcomeOf(r: Result<int>): (o: Outcome)
    ensures o.Pass? <==> r.Ok?
    ensures o.Fail? ==> o.error == r.error
  {
    if r.Ok? then Pass else Fail(r.error)
  }

  /** The error a handler's result carries, `None` when it returned. */
  function ErrorOf(r: Result<int>): (e: Option<Error>)
    ensures e.Some? <==> r.Err?
    ensures e.Some? ==> e.value == r.error
  {
    if r.Err? then Some(r.error) else None
  }

  /** No id occurs twice. */
  predicate Distinct(s: seq<OeoId>) {
    forall i, j :: 0 <= i < j < |s| ==> s[i] != s[j]
  }

  /** Every occupant of the row is one of `ids`. */
  ghost predicate AllKnown(s: seq<Option<OeoId>>, ids: set<OeoId>) {
    forall i :: 0 <= i < |s| && s[i].Some? ==> s[i].value in ids
  }

  /** Clearing a row fields no one new. */
  lemma ClearedKnown(s: seq<Option<OeoId>>, conscious: set<OeoId>, ids: set<OeoId>)
    requires AllKnown(s, ids)
    ensures AllKnown(Cleared(s, conscious), ids)
  {
  }

  /** Deploying only fields members of the team, so known ids stay known. */
  lemma DeployedKnown(teamId: TeamId, team: set<OeoId>, s: seq<Option<OeoId>>, len: int,
                      conscious: set<OeoId>, h: DeployHandler, step: nat, ids: set<OeoId>)
    requires |s| == if len > 0 then len else 0
    requires AllKnown(s, ids) && team <= ids
    ensures DeployTeam(teamId, team, s, len, conscious, h, step).Ok? ==>
      AllKnown(DeployTeam(teamId, team, s, len, conscious, h, step).value, ids)
  {
    DeployTeamEffect(teamId, team, s, len, conscious, h, step);
  }

  /** The fielded ids of a row of known occupants are known. */
  lemma FieldedAllKnown(s: seq<Option<OeoId>>, ids: set<OeoId>)
    requires AllKnown(s, ids)
    ensures forall x :: x in FieldedOf(s) ==> x in ids
  {
    forall x | x in FieldedOf(s)
      ensures x in ids
    {
      FieldedMembership(s, x);
    }
  }

  /** The action map `_choose_actions` builds, or the error that stops it:
      each team is polled with its fielded ids (`aF`, `bF`) in key order
      sorted fastest first, team a's response is validated before team b is
      polled, and the responses are merged into the map keyed by the
      fielded ids. */
  ghost function PolledActions(h: ActionHandler, step: nat, aId: TeamId, bId: TeamId,
                               aTeam: set<OeoId>, bTeam: set<OeoId>,
                               aF: seq<OeoId>, bF: seq<OeoId>, speeds: map<OeoId, int>): Result<ActionMap>
    requires forall x :: x in aF + bF ==> x in speeds
  {
    var keys := Dedup(aF + bF);
    match h(aId, BySpeed(Within(keys, aF), speeds), step)
    case None => Err(HandlerFailed)
    case Some(aActs) =>
      match ActionError(aActs, aF + bF, aTeam, aId)
      case Some(e) => Err(e)
      case None =>
        match h(bId, BySpeed(Within(keys, bF), speeds), step)
        case None => Err(HandlerFailed)
        case Some(bActs) =>
          match ActionError(bActs, aF + bF, bTeam, bId)
          case Some(e) => Err(e)
          case None => Merge(EmptyMap(keys), aActs + bActs)
  }

  /** What `_choose_actions` leaves behind, given the polled action map `m`:
      a failed poll queues nothing; otherwise the scheduled events are
      appended to `base`, and when scheduling fails part way, the events
      scheduled before the failure stay queued. */
  ghost predicate ActionsQueued(m: Result<ActionMap>, turn: int, speedList: seq<OeoId>, moves: map<string, Move>,
                                base: seq<Pending>, pend: seq<Pending>, r: Outcome) {
    (m.Err? ==> r == Fail(m.error) && pend == base)
    && (m.Ok? ==>
          var s := Schedule(turn, m.value, speedList, moves);
          (r.Pass? <==> s.Ok?)
          && (s.Ok? ==> pend == base + s.value)
          && (s.Err? ==> (r == Fail(s.error) && pend == base + ScheduledPrefix(turn, m.value, speedList, moves))))
  }

  /** Choosing actions only appends to the queue. */
  lemma ActionsQueuedExtends(m: Result<ActionMap>, turn: int, speedList: seq<OeoId>, moves: map<string, Move>,
                             base: seq<Pending>, pend: seq<Pending>, r: Outcome)
    requires ActionsQueued(m, turn, speedList, moves, base, pend, r)
    ensures |pend| >= |base| && pend[..|base|] == base
  {
    if m.Ok? && Schedule(turn, m.value, speedList, moves).Ok? {
      assert (base + Schedule(turn, m.value, speedList, moves).value)[..|base|] == base;
    } else if m.Ok? {
      assert (base + ScheduledPrefix(turn, m.value, speedList, moves))[..|base|] == base;
    }
  }

  /** The keyword names `_process_use_move` takes. */
  const UseMoveKeys: set<string> := {UserIdKey, TargetIdKey, MoveIdKey}

  /** The order the event loop keeps: the processed log is in key order,
      nothing pending sorts before a logged event, and every pending
      BeginTurn is keyed (t, 0, 0) for a turn t no later than the next one. */
  ghost predicate QueueOrdered(pend: seq<Pending>, proc: seq<Processed>, turn: int) {
    (forall i, j :: 0 <= i < j < |proc| ==> !KeyLess(proc[j].key, proc[i].key))
    && (forall k, i :: 0 <= k < |pend| && 0 <= i < |proc| ==> !KeyLess(pend[k].key, proc[i].key))
    && (forall k :: 0 <= k < |pend| && pend[k].event.eventType == BeginTurn ==>
          pend[k].key == BeginTurnKey(pend[k].key.turn) && pend[k].key.turn <= turn + 1)
  }

  /** Some BeginTurn event is pending. */
  ghost predicate HasBeginTurn(pend: seq<Pending>) {
    exists k :: 0 <= k < |pend| && pend[k].event.eventType == BeginTurn
  }

  /** Appending to a log keeps any prefix it already had. */
  lemma AppendKeepsPrefix<T>(s: seq<T>, x: T, base: seq<T>)
    requires |base| <= |s| && s[..|base|] == base
    ensures (s + [x])[..|base|] == base
  {
    assert (s + [x])[..|base|] == s[..|base|];
  }

  /** Not sorting before is transitive (the key order is total). */
  lemma KeyNotLessTrans(a: Key, b: Key, c: Key)
    requires !KeyLess(a, b) && !KeyLess(b, c)
    ensures !KeyLess(a, c)
  {
  }

  /** The log stays in key order when the popped smallest key is logged. */
  lemma LogKeepsOrder(pend: seq<Pending>, proc: seq<Processed>, turn: int, logged: seq<Processed>)
    requires QueueOrdered(pend, proc, turn) && pend != []
    requires logged == [] || (|logged| == 1 && logged[0].key == pend[MinIndex(pend)].key)
    ensures forall i, j :: 0 <= i < j < |proc + logged| ==> !KeyLess((proc + logged)[j].key, (proc + logged)[i].key)
  {
    var l := proc + logged;
    forall i, j | 0 <= i < j < |l|
      ensures !KeyLess(l[j].key, l[i].key)
    {
      if j >= |proc| {
        assert l[j].key == pend[MinIndex(pend)].key;
        assert l[i] == proc[i];
      } else {
        assert l[i] == proc[i] && l[j] == proc[j];
      }
    }
  }

  /** Every event still pending, or newly queued, does not sort before
      anything in the extended log. */
  lemma PendingAfterLog(pend: seq<Pending>, proc: seq<Processed>, turn: int,
                        added: seq<Pending>, logged: seq<Processed>)
    requires QueueOrdered(pend, proc, turn) && pend != []
    requires logged == [] || (|logged| == 1 && logged[0].key == pend[MinIndex(pend)].key)
    requires forall k :: 0 <= k < |added| ==> !KeyLess(added[k].key, pend[MinIndex(pend)].key)
    ensures var q, l := RemoveAt(pend, MinIndex(pend)) + added, proc + logged;
      forall k, i :: 0 <= k < |q| && 0 <= i < |l| ==> !KeyLess(q[k].key, l[i].key)
  {
    var m := MinIndex(pend);
    var rest := RemoveAt(pend, m);
    var q, l := rest + added, proc + logged;
    forall k, i | 0 <= k < |q| && 0 <= i < |l|
      ensures !KeyLess(q[k].key, l[i].key)
    {
      var lk := if i < |proc| then proc[i].key else pend[m].key;
      assert l[i].key == lk;
      if k < |rest| {
        var n := if k < m then k else k + 1;
        assert q[k] == pend[n];
        if i < |proc| {
        } else {
          assert !KeyLess(pend[n].key, pend[m].key);
        }
      } else {
        assert q[k] == added[k - |rest|];
        if i < |proc| {
          assert !KeyLess(pend[m].key, proc[i].key);
          KeyNotLessTrans(q[k].key, pend[m].key, proc[i].key);
        }
      }
    }
  }

  /** Popping the smallest key and logging it, then queueing events that do
      not sort before it, keeps the order. */
  lemma PopKeepsOrder(pend: seq<Pending>, proc: seq<Processed>, turn: int, newTurn: int,
                      added: seq<Pending>, logged: seq<Processed>)
    requires QueueOrdered(pend, proc, turn) && pend != [] && turn <= newTurn
    requires logged == [] || (|logged| == 1 && logged[0].key == pend[MinIndex(pend)].key)
    requires forall k :: 0 <= k < |added| ==> !KeyLess(added[k].key, pend[MinIndex(pend)].key)
    requires forall k :: 0 <= k < |added| && added[k].event.eventType == BeginTurn ==>
      added[k].key == BeginTurnKey(added[k].key.turn) && added[k].key.turn <= newTurn + 1
    ensures QueueOrdered(RemoveAt(pend, MinIndex(pend)) + added, proc + logged, newTurn)
  {
    var m := MinIndex(pend);
    var rest := RemoveAt(pend, m);
    var q := rest + added;
    LogKeepsOrder(pend, proc, turn, logged);
    PendingAfterLog(pend, proc, turn, added, logged);
    forall k | 0 <= k < |q| && q[k].event.eventType == BeginTurn
      ensures q[k].key == BeginTurnKey(q[k].key.turn) && q[k].key.turn <= newTurn + 1
    {
      if k < |rest| {
        assert q[k] == pend[if k < m then k else k + 1];
      } else {
        assert q[k] == added[k - |rest|];
      }
    }
  }

  /** What a BeginTurn leaves queued after `before`: the next turn's
      BeginTurn, then UseMove events of turn `turn`. */
  ghost predicate BeginTurnQueued(before: seq<Pending>, after: seq<Pending>, turn: int) {
    |after| > |before|
    && after == before + [Pending(BeginTurnEvent, BeginTurnKey(turn + 1))] + after[|before| + 1..]
    && forall k :: |before| < k < |after| ==> ScheduledUseMove(after[k], turn)
  }

  /** The queue `mid` (`before` and the next turn's BeginTurn) followed by
      UseMove events of turn `turn` is what a BeginTurn leaves queued. */
  lemma BeginTurnQueuedFrom(before: seq<Pending>, mid: seq<Pending>, after: seq<Pending>, turn: int)
    requires mid == before + [Pending(BeginTurnEvent, BeginTurnKey(turn + 1))]
    requires |after| >= |mid| && after == mid + after[|mid|..]
    requires forall k :: |mid| <= k < |after| ==> ScheduledUseMove(after[k], turn)
    ensures BeginTurnQueued(before, after, turn)
  {
    assert after[|before| + 1..] == after[|mid|..];
  }

  /** The events a BeginTurn appends, on their own. */
  lemma BeginTurnQueuedSuffix(before: seq<Pending>, after: seq<Pending>, turn: int)
    requires BeginTurnQueued(before, after, turn)
    ensures var added := after[|before|..];
      after == before + added
      && |added| >= 1 && added[0] == Pending(BeginTurnEvent, BeginTurnKey(turn + 1))
      && forall k :: 1 <= k < |added| ==> ScheduledUseMove(added[k], turn)
  {
    var added := after[|before|..];
    forall k | 1 <= k < |added|
      ensures ScheduledUseMove(added[k], turn)
    {
      assert added[k] == after[|before| + k];
    }
  }

  /** One pass of the event loop keeps the queue order. */
  lemma StepKeepsOrder(pend: seq<Pending>, proc: seq<Processed>, turn: int, newTurn: int,
                       newPend: seq<Pending>, logged: seq<Processed>)
    requires pend != []
    requires logged == [] || (|logged| == 1 && logged[0].key == pend[MinIndex(pend)].key)
    requires pend[MinIndex(pend)].event.eventType == BeginTurn ==>
      newTurn == turn + 1 && BeginTurnQueued(RemoveAt(pend, MinIndex(pend)), newPend, newTurn)
    requires pend[MinIndex(pend)].event.eventType != BeginTurn ==>
      newTurn == turn && newPend == RemoveAt(pend, MinIndex(pend))
    ensures QueueOrdered(pend, proc, turn) ==> QueueOrdered(newPend, proc + logged, newTurn)
  {
    var i := MinIndex(pend);
    var rest := RemoveAt(pend, i);
    if !QueueOrdered(pend, proc, turn) {
    } else if pend[i].event.eventType == BeginTurn {
      BeginTurnQueuedSuffix(rest, newPend, newTurn);
      BeginTurnAdditions(pend[i].key, turn, newPend[|rest|..]);
      PopKeepsOrder(pend, proc, turn, newTurn, newPend[|rest|..], logged);
    } else {
      assert newPend == rest + [];
      PopKeepsOrder(pend, proc, turn, newTurn, [], logged);
    }
  }

  /** One pass of the event loop keeps a BeginTurn pending: popping a
      BeginTurn queues the next one. */
  lemma StepKeepsBeginTurn(pend: seq<Pending>, turn: int, newTurn: int, newPend: seq<Pending>)
    requires pend != []
    requires pend[MinIndex(pend)].event.eventType == BeginTurn ==>
      BeginTurnQueued(RemoveAt(pend, MinIndex(pend)), newPend, newTurn)
    requires pend[MinIndex(pend)].event.eventType != BeginTurn ==> newPend == RemoveAt(pend, MinIndex(pend))
    ensures HasBeginTurn(pend) ==> HasBeginTurn(newPend)
  {
    var i := MinIndex(pend);
    if !HasBeginTurn(pend) {
    } else if pend[i].event.eventType == BeginTurn {
      assert newPend[|pend| - 1].event.eventType == BeginTurn;
    } else {
      var k :| 0 <= k < |pend| && pend[k].event.eventType == BeginTurn;
      assert newPend[if k < i then k else k - 1] == pend[k];
    }
  }

  /** What `_process_begin_turn` queues after popping a BeginTurn keyed
      (t, 0, 0), t <= turn + 1: the next BeginTurn, keyed (turn + 2, 0, 0),
      and actions of turn + 1; none sorts before the popped key. */
  lemma BeginTurnAdditions(m: Key, turn: int, added: seq<Pending>)
    requires m == BeginTurnKey(m.turn) && m.turn <= turn + 1
    requires |added| >= 1 && added[0] == Pending(BeginTurnEvent, BeginTurnKey(turn + 2))
    requires forall k :: 1 <= k < |added| ==> ScheduledUseMove(added[k], turn + 1)
    ensures forall k :: 0 <= k < |added| ==> !KeyLess(added[k].key, m)
    ensures forall k :: 0 <= k < |added| && added[k].event.eventType == BeginTurn ==>
      added[k].key == BeginTurnKey(added[k].key.turn) && added[k].key.turn <= turn + 2
  {
  }

  /** The moves the combatants know (`move_set`). */
  function KnownMoves(oeos: map<OeoId, Oeo>): set<string>
    reads oeos.Values
  {
    set o, m | o in oeos.Values && m in o.moves :: m
  }

  /** The event that starts a turn. */
  const BeginTurnEvent := SimEvent(BeginTurn, map[])

  /** Each element of `ts` is related by `rel` to the one after it. */
  ghost predicate Linked<T>(ts: seq<T>, rel: (T, T) -> bool) {
    forall i :: 0 <= i < |ts| - 1 ==> rel(ts[i], ts[i + 1])
  }

  /** A linked sequence stays linked when an element related to its last one is appended. */
  lemma LinkedExtend<T>(ts: seq<T>, t: T, rel: (T, T) -> bool)
    requires |ts| >= 1 && Linked(ts, rel) && rel(ts[|ts| - 1], t)
    ensures Linked(ts + [t], rel)
  {
    var u := ts + [t];
    forall i | 0 <= i < |u| - 1
      ensures rel(u[i], u[i + 1])
    {
      if i < |ts| - 1 {
        assert u[i] == ts[i] && u[i + 1] == ts[i + 1];
      } else {
        assert u[i] == ts[|ts| - 1] && u[i + 1] == t;
      }
    }
  }

  /** HP that did not change leaves the conscious combatants as they were. */
  twostate lemma ConsciousKept(bt: Battle)
    requires forall o :: o in bt.oeo.Values ==> o.currentHp == old(o.currentHp)
    ensures bt.ConsciousIds() == old(bt.ConsciousIds())
  {
  }

  /** HP that did not change leaves the HP map as it was. */
  twostate lemma HpKept(bt: Battle)
    requires forall o :: o in bt.oeo.Values ==> o.currentHp == old(o.currentHp)
    ensures bt.HpMap() == old(bt.HpMap())
  {
  }

  /** Setting the HP of one combatant object to `v` sets it for every id bound to it. */
  twostate lemma HpDamaged(bt: Battle, new t: OeoId, new v: int)
    requires t in bt.oeo && bt.oeo[t].currentHp == v
    requires forall o :: o in bt.oeo.Values && o != bt.oeo[t] ==> o.currentHp == old(o.currentHp)
    ensures bt.HpMap() == bt.Damaged(old(bt.HpMap()), t, v)
  {
  }

  class Battle {
    /** The combatants by id; `order` is the order the dict yields them in. */
    const oeo: map<OeoId, Oeo>
    const order: seq<OeoId>
    const aId: TeamId
    const a: set<OeoId>
    const bId: TeamId
    const b: set<OeoId>
    const field: Field
    /** The loaded moves, by name. */
    const moves: map<string, Move>
    /** The element-effectiveness table the damage resolver reads. */
    const table: EffectivenessTable
    var turnNumber: int
    var pending: seq<Pending>
    var processed: seq<Processed>

    /** The field is laid out for the two teams, and `order` lists every combatant once. */
    ghost predicate Valid() {
      field.Valid() && field.aId == aId && field.bId == bId
      && (forall x :: x in order <==> x in oeo) && Distinct(order)
    }

    /** `teams[team_id]`: when the team ids coincide the later team is the one kept. */
    function TeamOf(team: TeamId): set<OeoId> {
      if team == bId then b else a
    }

    /** `field[team_id]` for one of the battle's own team ids. */
    function SideOf(team: TeamId): Side {
      if team == bId then field.sideB else field.sideA
    }

    /** Every fielded id names a combatant of the battle. */
    ghost predicate FieldedKnown()
      reads field.sideA.slots, field.sideB.slots
    {
      AllKnown(field.sideA.slots[..], oeo.Keys) && AllKnown(field.sideB.slots[..], oeo.Keys)
    }

    /** The combatants with HP above 0. */
    function ConsciousIds(): set<OeoId>
      reads oeo.Values
    {
      set x | x in oeo && oeo[x].Conscious()
    }

    /** Each combatant's current HP. */
    function HpMap(): map<OeoId, int>
      reads oeo.Values
    {
      map x | x in oeo :: oeo[x].currentHp
    }

    /** The conscious combatants are those whose HP is above 0. */
    lemma ConsciousFromHp()
      ensures ConsciousIds() == ConsciousOf(HpMap())
    {
    }

    /** The HP `hp` becomes when event `e` is dispatched with damage roll `k`
        while team a's side holds `sa` and team b's `sb`: a UseMove with the
        three keywords, a known user, move and target, both fielded, and
        damage the standard formula computes takes that damage off the
        target's HP through the clamping setter, for every id bound to the
        target's object; any other event, and a UseMove that is skipped or
        raises, leaves every HP as it is. */
    ghost function HpAfter(hp: map<OeoId, int>, sa: seq<Option<OeoId>>, sb: seq<Option<OeoId>>,
                           e: SimEvent, k: Roll): map<OeoId, int>
    {
      if e.eventType == UseMove then HpAfterUseMove(hp, sa, sb, e.data, k) else hp
    }

    /** A UseMove with data `data` that hits: it has the three keywords, a
        known user, move and target, both fielded on `sa` or `sb`, and damage
        the standard formula computes with roll `k`. */
    ghost predicate Hits(sa: seq<Option<OeoId>>, sb: seq<Option<OeoId>>, data: map<string, string>, k: Roll) {
      data.Keys == UseMoveKeys
      && data[UserIdKey] in oeo && data[MoveIdKey] in moves && data[TargetIdKey] in oeo
      && (Some(data[UserIdKey]) in sa || Some(data[UserIdKey]) in sb)
      && (Some(data[TargetIdKey]) in sa || Some(data[TargetIdKey]) in sb)
      && CalculateStandardDamage(oeo[data[UserIdKey]], moves[data[MoveIdKey]], oeo[data[TargetIdKey]], table, k).Ok?
    }

    /** `HpAfter` for a UseMove with data `data`. */
    ghost function HpAfterUseMove(hp: map<OeoId, int>, sa: seq<Option<OeoId>>, sb: seq<Option<OeoId>>,
                                  data: map<string, string>, k: Roll): map<OeoId, int>
    {
      if Hits(sa, sb, data, k) && data[TargetIdKey] in hp then
        var t := data[TargetIdKey];
        var d := CalculateStandardDamage(oeo[data[UserIdKey]], moves[data[MoveIdKey]], oeo[t], table, k);
        Damaged(hp, t, ClampHp(hp[t] - d.value, oeo[t].FullHp()))
      else hp
    }

    /** A UseMove that hits takes its damage off the target's HP. */
    lemma HitHp(hp: map<OeoId, int>, sa: seq<Option<OeoId>>, sb: seq<Option<OeoId>>, data: map<string, string>, k: Roll)
      requires Hits(sa, sb, data, k) && data[TargetIdKey] in hp
      ensures HpAfterUseMove(hp, sa, sb, data, k)
              == Damaged(hp, data[TargetIdKey], ClampHp(hp[data[TargetIdKey]]
                   - CalculateStandardDamage(oeo[data[UserIdKey]], moves[data[MoveIdKey]], oeo[data[TargetIdKey]], table, k).value,
                   oeo[data[TargetIdKey]].FullHp()))
    {
    }

    /** `hp` with `v` for `t` and for every id bound to the same object. */
    ghost function Damaged(hp: map<OeoId, int>, t: OeoId, v: int): map<OeoId, int>
    {
      map x | x in hp :: if t in oeo && x in oeo && oeo[x] == oeo[t] then v else hp[x]
    }

    /** Each combatant's current speed stat. */
    function Speeds(): map<OeoId, int>
    {
      map x | x in oeo :: oeo[x].Speed()
    }

    /** `_is_fielded`: the id is in a position of either team's side, so it
        is among that side's fielded ids. */
    predicate IsFielded(id: OeoId): (r: bool)
      reads field.sideA.slots, field.sideB.slots
      ensures r <==> id in FieldedOf(SideOf(aId).slots[..]) || id in FieldedOf(SideOf(bId).slots[..])
    {
      FieldedMembership(SideOf(aId).slots[..], id);
      FieldedMembership(SideOf(bId).slots[..], id);
      Some(id) in SideOf(aId).slots[..] || Some(id) in SideOf(bId).slots[..]
    }

    /** Builds the battle once `Create` has checked it can. */
    constructor (oeos: map<OeoId, Oeo>, order: seq<OeoId>, aId: TeamId, a: set<OeoId>, aMaxFielded: int,
                 bId: TeamId, b: set<OeoId>, bMaxFielded: int, moves: map<string, Move>, table: EffectivenessTable)
      requires (forall x :: x in order <==> x in oeos) && Distinct(order)
      ensures Valid() && FieldedKnown()
      ensures this.oeo == oeos && this.order == order && this.aId == aId && this.a == a
      ensures this.bId == bId && this.b == b && this.moves == moves && this.table == table
      ensures turnNumber == 0 && pending == [] && processed == []
      ensures field.sideA.maxFielded == aMaxFielded && field.sideB.maxFielded == bMaxFielded
      ensures IsEmptyOf(field.sideA.slots[..]) && IsEmptyOf(field.sideB.slots[..])
      ensures fresh(field) && fresh(field.sideA) && fresh(field.sideB)
      ensures fresh(field.sideA.slots) && fresh(field.sideB.slots)
    {
      oeo := oeos;
      this.order := order;
      this.aId := aId;
      this.a := a;
      this.bId := bId;
      this.b := b;
      this.moves := moves;
      this.table := table;
      turnNumber := 0;
      field := new Field(aId, aMaxFielded, bId, bMaxFielded);
      pending := [];
      processed := [];
    }

    /** `Battle(oeos, a_id, a, a_max_fielded, b_id, b, b_max_fielded)`: the
        teams must not share an id, and every move a combatant knows must be
        in `catalog`, the move definitions there are; the battle keeps those
        it needs. */
    static method Create(oeos: map<OeoId, Oeo>, order: seq<OeoId>, aId: TeamId, a: set<OeoId>, aMaxFielded: int,
                         bId: TeamId, b: set<OeoId>, bMaxFielded: int,
                         catalog: map<string, Move>, table: EffectivenessTable) returns (r: Result<Battle>)
      requires (forall x :: x in order <==> x in oeos) && Distinct(order)
      ensures r.Ok? <==> a * b == {} && KnownMoves(oeos) <= catalog.Keys
      ensures a * b != {} ==> r == Err(DuplicateIds)
      ensures a * b == {} && !(KnownMoves(oeos) <= catalog.Keys) ==>
        r.Err? && r.error.MissingMove? && r.error.move in KnownMoves(oeos) && r.error.move !in catalog
      ensures r.Ok? ==> var bt := r.value;
        bt.Valid() && bt.FieldedKnown() && fresh(bt) && fresh(bt.field)
        && bt.oeo == oeos && bt.order == order && bt.aId == aId && bt.a == a && bt.bId == bId && bt.b == b
        && bt.moves == (map m | m in KnownMoves(oeos) :: catalog[m]) && bt.table == table
        && bt.turnNumber == 0 && bt.pending == [] && bt.processed == []
        && bt.field.sideA.maxFielded == aMaxFielded && bt.field.sideB.maxFielded == bMaxFielded
        && IsEmptyOf(bt.field.sideA.slots[..]) && IsEmptyOf(bt.field.sideB.slots[..])
    {
      if a * b != {} {
        return Err(DuplicateIds);
      }
      var known := KnownMoves(oeos);
      if !(known <= catalog.Keys) {
        var m :| m in known && m !in catalog;
        return Err(MissingMove(m));
      }
      var bt := new Battle(oeos, order, aId, a, aMaxFielded, bId, b, bMaxFielded,
                           map m | m in known :: catalog[m], table);
      return Ok(bt);
    }

    /** One pass of `_remove_unconscious_oeo`: every fielded combatant of the
        team that is not conscious is withdrawn, one `withdraw` per entry of
        the fielded list. */
    method RemoveUnconsciousFrom(team: TeamId)
      requires Valid() && (team == aId || team == bId)
      modifies field.sideA.slots, field.sideB.slots
      ensures SideOf(team).slots[..] == Cleared(old(SideOf(team).slots[..]), ConsciousIds())
      ensures var other := if SideOf(team) == field.sideA then field.sideB else field.sideA;
        other.slots[..] == old(other.slots[..])
    {
      var side := SideOf(team);
      ghost var other := if side == field.sideA then field.sideB else field.sideA;
      ghost var target := Cleared(side.slots[..], ConsciousIds());
      var toRemove := Unconscious(side.Fielded(), ConsciousIds());
      WithdrawUnconscious(side.slots[..], ConsciousIds());
      ghost var s0 := side.slots[..];
      var k := 0;
      while k < |toRemove|
        invariant 0 <= k <= |toRemove|
        invariant WithdrawAll(side.slots[..], toRemove[k..]) == Ok(target)
        invariant other.slots[..] == old(other.slots[..])
      {
        assert toRemove[k..][1..] == toRemove[k + 1..];
        var o := side.Withdraw(toRemove[k]);
        k := k + 1;
      }
      assert side.slots[..] == target;
    }

    /** `_remove_unconscious_oeo`: both teams' sides are cleared of fainted combatants. */
    method RemoveUnconscious()
      requires Valid() && FieldedKnown()
      modifies field.sideA.slots, field.sideB.slots
      ensures FieldedKnown()
      ensures SideOf(aId).slots[..] == Cleared(old(SideOf(aId).slots[..]), ConsciousIds())
      ensures SideOf(bId).slots[..] == Cleared(old(SideOf(bId).slots[..]), ConsciousIds())
      ensures aId == bId ==> field.sideA.slots[..] == old(field.sideA.slots[..])
    {
      RemoveUnconsciousFrom(aId);
      RemoveUnconsciousFrom(bId);
      ClearedIdempotent(old(SideOf(bId).slots[..]), ConsciousIds());
      ClearedKnown(old(field.sideA.slots[..]), ConsciousIds(), oeo.Keys);
      ClearedKnown(old(field.sideB.slots[..]), ConsciousIds(), oeo.Keys);
    }

    /** The `field.deploy` calls of `_choose_deployments` for an accepted
        response, one per entry in order; every position is in range, so each
        one lands. */
    method DeployAll(side: Side, ds: Deployments)
      requires forall k :: 0 <= k < |ds| ==> 0 <= ds[k].0 < side.slots.Length
      modifies side.slots
      ensures ApplyDeployments(old(side.slots[..]), ds) == Ok(side.slots[..])
    {
      var k := 0;
      while k < |ds|
        invariant 0 <= k <= |ds|
        invariant ApplyDeployments(old(side.slots[..]), ds[..k]) == Ok(side.slots[..])
      {
        assert ds[..k + 1][..k] == ds[..k];
        var o := side.Deploy(ds[k].1, ds[k].0);
        k := k + 1;
      }
      assert ds[..k] == ds;
    }

    /** One team's turn of `_choose_deployments`, as `DeployTeam` describes it:
        a failing handler or a rejected response changes nothing. */
    method DeployFor(team: TeamId, h: DeployHandler, step: nat) returns (r: Outcome)
      requires Valid() && (team == aId || team == bId)
      modifies field.sideA.slots, field.sideB.slots
      ensures var res := DeployTeam(team, TeamOf(team), old(SideOf(team).slots[..]), SideOf(team).Len(), ConsciousIds(), h, step);
        (r.Pass? <==> res.Ok?)
        && (r.Pass? ==> SideOf(team).slots[..] == res.value)
        && (r.Fail? ==> r.error == res.error && SideOf(team).slots[..] == old(SideOf(team).slots[..]))
      ensures var other := if SideOf(team) == field.sideA then field.sideB else field.sideA;
        other.slots[..] == old(other.slots[..])
    {
      var side := SideOf(team);
      var s0 := side.slots[..];
      var empty := side.EmptyPositions();
      var benched := Benched(TeamOf(team), side.Fielded(), ConsciousIds());
      if empty == [] || benched == {} {
        return Pass;
      }
      var response := h(team, benched, empty, step);
      if response.None? {
        return Fail(HandlerFailed);
      }
      var ds := response.value;
      var error := DeploymentError(ds, side.Len(), TeamOf(team), team);
      if error.Some? {
        return Fail(error.value);
      }
      AcceptedDeployments(ds, side.Len(), TeamOf(team), team);
      DeployAll(side, ds);
      r := Pass;
    }

    /** `_choose_deployments`: team a and then team b, each as `DeployFor`;
        a failure of team b's leaves team a's deployments in place, and when
        the team ids coincide the one side is offered twice. */
    method ChooseDeployments(h: DeployHandler, step: nat) returns (r: Outcome)
      requires Valid() && FieldedKnown() && a <= oeo.Keys && b <= oeo.Keys
      modifies field.sideA.slots, field.sideB.slots
      ensures FieldedKnown()
      ensures var ra := DeployTeam(aId, TeamOf(aId), old(SideOf(aId).slots[..]), SideOf(aId).Len(), ConsciousIds(), h, step);
        var sb := if aId == bId && ra.Ok? then ra.value else old(SideOf(bId).slots[..]);
        var rb := DeployTeam(bId, TeamOf(bId), sb, SideOf(bId).Len(), ConsciousIds(), h, step);
        (ra.Err? ==>
          (r == Fail(ra.error)
           && field.sideA.slots[..] == old(field.sideA.slots[..]) && field.sideB.slots[..] == old(field.sideB.slots[..])))
        && (ra.Ok? ==>
          ((r.Pass? <==> rb.Ok?)
           && (aId != bId ==> SideOf(aId).slots[..] == ra.value)
           && (rb.Ok? ==> SideOf(bId).slots[..] == rb.value)
           && (rb.Err? ==> r == Fail(rb.error) && SideOf(bId).slots[..] == sb)))
    {
      r := DeployFor(aId, h, step);
      DeployedKnown(aId, TeamOf(aId), old(SideOf(aId).slots[..]), SideOf(aId).Len(), ConsciousIds(), h, step, oeo.Keys);
      if r.Fail? {
        return;
      }
      ghost var mid := SideOf(bId).slots[..];
      r := DeployFor(bId, h, step);
      DeployedKnown(bId, TeamOf(bId), mid, SideOf(bId).Len(), ConsciousIds(), h, step, oeo.Keys);
    }

    /** `speed_priority_list`: every combatant, fastest first, ties in dict order. */
    function SpeedList(): seq<OeoId>
      requires Valid()
    {
      BySpeed(order, Speeds())
    }

    /** The speed priority list holds every combatant, and a faster one
        always comes before a slower one. */
    lemma SpeedListOrder(x: OeoId, i: nat, j: nat)
      requires Valid()
      ensures x in SpeedList() <==> x in oeo
      ensures (i < |SpeedList()| && j < |SpeedList()| && SpeedList()[i] in oeo && SpeedList()[j] in oeo
               && oeo[SpeedList()[i]].Speed() > oeo[SpeedList()[j]].Speed()) ==> i < j
    {
      BySpeedMembers(order, Speeds(), x);
      if i < |SpeedList()| && j < |SpeedList()| && SpeedList()[i] in oeo && SpeedList()[j] in oeo
        && oeo[SpeedList()[i]].Speed() > oeo[SpeedList()[j]].Speed() {
        FasterHasSmallerRank(order, Speeds(), i, j);
      }
    }

    /** The action map `_choose_actions` builds from the current field and speeds. */
    ghost function ActionMapFor(h: ActionHandler, step: nat): Result<ActionMap>
      requires Valid() && FieldedKnown()
      reads field.sideA.slots, field.sideB.slots
    {
      FieldedAllKnown(SideOf(aId).slots[..], oeo.Keys);
      FieldedAllKnown(SideOf(bId).slots[..], oeo.Keys);
      PolledActions(h, step, aId, bId, TeamOf(aId), TeamOf(bId), SideOf(aId).Fielded(), SideOf(bId).Fielded(), Speeds())
    }

    /** The polling and merging half of `_choose_actions`: the action map
        is filled in place, entry by entry. */
    method PollActions(h: ActionHandler, step: nat) returns (r: Result<ActionMap>)
      requires Valid() && FieldedKnown()
      ensures r == ActionMapFor(h, step)
    {
      var aF := SideOf(aId).Fielded();
      var bF := SideOf(bId).Fielded();
      FieldedAllKnown(SideOf(aId).slots[..], oeo.Keys);
      FieldedAllKnown(SideOf(bId).slots[..], oeo.Keys);
      var keys := Dedup(aF + bF);
      var aResponse := h(aId, BySpeed(Within(keys, aF), Speeds()), step);
      if aResponse.None? {
        return Err(HandlerFailed);
      }
      var aActs := aResponse.value;
      var aError := ActionError(aActs, aF + bF, TeamOf(aId), aId);
      if aError.Some? {
        return Err(aError.value);
      }
      var bResponse := h(bId, BySpeed(Within(keys, bF), Speeds()), step);
      if bResponse.None? {
        return Err(HandlerFailed);
      }
      var bActs := bResponse.value;
      var bError := ActionError(bActs, aF + bF, TeamOf(bId), bId);
      if bError.Some? {
        return Err(bError.value);
      }
      assert ActionMapFor(h, step) == Merge(EmptyMap(keys), aActs + bActs);
      r := MergeInto(EmptyMap(keys), aActs + bActs);
    }


    /** The queueing half of `_choose_actions`: `additem` for each UseMove
        action of the map, in map order, keyed by the move's priority and the
        user's rank in the speed list, so a failing entry leaves those before
        it queued. */
    method QueueActions(am: ActionMap, speedList: seq<OeoId>) returns (r: Outcome)
      modifies this`pending
      ensures |pending| >= |old(pending)| && pending == old(pending) + pending[|old(pending)|..]
      ensures forall k :: |old(pending)| <= k < |pending| ==> ScheduledUseMove(pending[k], turnNumber)
      ensures ActionsQueued(Ok(am), turnNumber, speedList, moves, old(pending), pending, r)
    {
      ghost var q: seq<Pending> := [];
      var k := 0;
      while k < |am|
        invariant 0 <= k <= |am|
        invariant Schedule(turnNumber, am[..k], speedList, moves) == Ok(q)
        invariant pending == old(pending) + q
      {
        assert am[..k + 1][..k] == am[..k];
        match ScheduleOne(turnNumber, am[k], speedList, moves)
        case Err(e) =>
          ScheduledPrefixStops(turnNumber, am, k, speedList, moves);
          SchedulePrefixError(turnNumber, am, k + 1, speedList, moves);
          ScheduledPrefixEvents(turnNumber, am, speedList, moves);
          return Fail(e);
        case Ok(one) =>
          pending := pending + one;
          q := q + one;
          k := k + 1;
      }
      assert am[..k] == am;
      ScheduleEvents(turnNumber, am, speedList, moves);
      r := Pass;
    }

    /** What `_process_begin_turn` does, with `base` the queue left once its
        event was popped and `r` its outcome: the turn number goes up by one,
        the next turn's BeginTurn is queued after `base`, then this turn's
        actions are polled on the field and speeds it started with and queued. */
    twostate predicate BeginTurnDone(h: ActionHandler, step: nat, base: seq<Pending>, new r: Outcome)
      requires old(Valid() && FieldedKnown())
      reads this`turnNumber, this`pending, field.sideA.slots, field.sideB.slots, oeo.Values
    {
      turnNumber == old(turnNumber) + 1
      && BeginTurnQueued(base, pending, turnNumber)
      && ActionsQueued(old(ActionMapFor(h, step)), turnNumber, SpeedList(), moves,
                       base + [Pending(BeginTurnEvent, BeginTurnKey(turnNumber + 1))], pending, r)
      && old(BeginTurnErrorOn(SideOf(aId).slots[..], SideOf(bId).slots[..], h, step, turnNumber)) == (if r.Pass? then None else Some(r.error))
    }

    /** `_process_begin_turn`, on the queue `base` left once its event was
        popped: the turn number goes up by one, the next turn's BeginTurn is
        queued at the key of that turn, then this turn's actions are chosen
        (`_choose_actions`: polled, then queued). The polling is done first
        here: it reads neither the turn number nor the queue, so the order
        makes no difference. */
    method ProcessBeginTurn(h: ActionHandler, step: nat, base: seq<Pending>) returns (r: Outcome)
      requires Valid() && FieldedKnown()
      modifies this`turnNumber, this`pending
      ensures BeginTurnDone(h, step, base, r)
    {
      var am := PollActions(h, step);
      var speedList := SpeedList();
      turnNumber := turnNumber + 1;
      r := QueuePolled(am, speedList, base);
    }

    /** The rest of `_process_begin_turn` once the turn number is raised and
        the actions are polled into `am`: the next turn's BeginTurn is queued
        after `base`, then the actions; a failed poll queues nothing more and
        raises its error. */
    method QueuePolled(am: Result<ActionMap>, speedList: seq<OeoId>, base: seq<Pending>) returns (r: Outcome)
      modifies this`pending
      ensures BeginTurnQueued(base, pending, turnNumber)
      ensures ActionsQueued(am, turnNumber, speedList, moves,
                            base + [Pending(BeginTurnEvent, BeginTurnKey(turnNumber + 1))], pending, r)
    {
      pending := base + [Pending(BeginTurnEvent, BeginTurnKey(turnNumber + 1))];
      ghost var mid := pending;
      if am.Err? {
        r := Fail(am.error);
        assert mid[|mid|..] == [];
      } else {
        r := QueueActions(am.value, speedList);
      }
      BeginTurnQueuedFrom(base, mid, pending, turnNumber);
    }

    /** What `_process_use_move(**data)` does, from the state before it to
        the state after, with outcome `r`: the keywords must be exactly user,
        move and target, each of which must be known; when both combatants
        are fielded the standard damage is taken off the target's HP through
        the clamping setter (code 1), otherwise nothing happens (code -1). */
    twostate predicate UseMoveDone(data: map<string, string>, k: Roll, new r: Result<int>)
      reads oeo.Values, field.sideA.slots, field.sideB.slots
    {
      (data.Keys != UseMoveKeys ==> r == Err(BadEventData))
      && (data.Keys == UseMoveKeys ==>
        var u, m, t := data[UserIdKey], data[MoveIdKey], data[TargetIdKey];
        (u !in oeo ==> r == Err(UnknownCombatant(u)))
        && (u in oeo && m !in moves ==> r == Err(UnknownMove(m)))
        && (u in oeo && m in moves && t !in oeo ==> r == Err(UnknownCombatant(t)))
        && (u in oeo && m in moves && t in oeo && !(IsFielded(u) && IsFielded(t)) ==> r == Ok(-1))
        && (u in oeo && m in moves && t in oeo && IsFielded(u) && IsFielded(t) ==>
              var d := CalculateStandardDamage(oeo[u], moves[m], oeo[t], table, k);
              (d.Err? ==> r == Err(d.error))
              && (d.Ok? ==>
                    (r == Ok(1) && oeo[t].currentHp == ClampHp(old(oeo[t].currentHp) - d.value, oeo[t].FullHp())))))
      && (r != Ok(1) ==> forall o :: o in oeo.Values ==> o.currentHp == old(o.currentHp))
      && (r == Ok(1) ==> forall o :: o in oeo.Values && o != oeo[data[TargetIdKey]] ==> o.currentHp == old(o.currentHp))
      && old(UseMoveErrorOn(SideOf(aId).slots[..], SideOf(bId).slots[..], data, k)) == ErrorOf(r)
    }

    /** `_process_use_move(**data)`, as `UseMoveDone` states it, on the queue
        `base` left once its event was popped; the HP map becomes what
        `HpAfterUseMove` says and HP stays in range. */
    method ProcessUseMove(data: map<string, string>, k: Roll, base: seq<Pending>) returns (r: Result<int>)
      requires Valid()
      modifies this`pending, oeo.Values`currentHp
      ensures pending == base
      ensures UseMoveDone(data, k, r)
      ensures HpMap() == old(HpAfterUseMove(HpMap(), SideOf(aId).slots[..], SideOf(bId).slots[..], data, k))
      ensures forall o :: o in oeo.Values && o.FullHp() >= 0 && old(o.HpInRange()) ==> o.HpInRange()
    {
      ghost var hp0 := HpMap();
      ghost var sa, sb := SideOf(aId).slots[..], SideOf(bId).slots[..];
      r := UseMoveSteps(data, k, base);
      if r == Ok(1) {
        ghost var u, m, t := data[UserIdKey], data[MoveIdKey], data[TargetIdKey];
        ghost var d := CalculateStandardDamage(oeo[u], moves[m], oeo[t], table, k);
        assert t in hp0 && hp0[t] == old(oeo[t].currentHp);
        ghost var v := ClampHp(hp0[t] - d.value, oeo[t].FullHp());
        assert oeo[t].currentHp == v;
        HitHp(hp0, sa, sb, data, k);
        HpDamaged(this, t, v);
        assert HpAfterUseMove(hp0, sa, sb, data, k)
               == Damaged(hp0, data[TargetIdKey], ClampHp(hp0[data[TargetIdKey]] - d.value, oeo[data[TargetIdKey]].FullHp()));
      } else {
        HpKept(this);
        assert !Hits(sa, sb, data, k);
        assert HpMap() == HpAfterUseMove(hp0, sa, sb, data, k);
      }
    }

    /** The checks and the damage of `_process_use_move`, step by step. */
    method UseMoveSteps(data: map<string, string>, k: Roll, base: seq<Pending>) returns (r: Result<int>)
      requires Valid()
      modifies this`pending, oeo.Values`currentHp
      ensures pending == base
      ensures UseMoveDone(data, k, r)
      ensures r == Ok(1) <==> old(Hits(SideOf(aId).slots[..], SideOf(bId).slots[..], data, k))
      ensures forall o :: o in oeo.Values && o.FullHp() >= 0 && old(o.HpInRange()) ==> o.HpInRange()
    {
      pending := base;
      if data.Keys != UseMoveKeys {
        return Err(BadEventData);
      }
      var u, m, t := data[UserIdKey], data[MoveIdKey], data[TargetIdKey];
      if u !in oeo {
        return Err(UnknownCombatant(u));
      }
      if m !in moves {
        return Err(UnknownMove(m));
      }
      if t !in oeo {
        return Err(UnknownCombatant(t));
      }
      var user, move, target := oeo[u], moves[m], oeo[t];
      if !(IsFielded(u) && IsFielded(t)) {
        return Ok(-1);
      }
      // `getattr(move, "df_id", "Standard")`: a move has no damage-function id.
      var damageFunction := GetDamageFunction("Standard").value;
      var damage;
      match damageFunction
      case Standard =>
        damage := CalculateStandardDamage(user, move, target, table, k);
      if damage.Err? {
        return Err(damage.error);
      }
      target.SetCurrentHp(target.currentHp - damage.value);
      r := Ok(1);
    }

    /** The outcome code `run` logs for an event processed without error. */
    ghost function CodeOf(e: SimEvent): int
      reads field.sideA.slots, field.sideB.slots
    {
      CodeOn(SideOf(aId).slots[..], SideOf(bId).slots[..], e)
    }

    /** What the dispatch on the event's tag in `run` does, with `base` the
        queue left once the event was popped and `r` its result: BeginTurn and
        UseMove do what their handlers do and leave `base` as the queue
        otherwise unchanged; UseItem, Switch and Run are stubs that complete
        with code 0 and change nothing else. */
    twostate predicate EventDone(e: SimEvent, h: ActionHandler, step: nat, k: Roll, base: seq<Pending>, new r: Result<int>)
      requires old(Valid() && FieldedKnown())
      reads this`turnNumber, this`pending, field.sideA.slots, field.sideB.slots, oeo.Values
    {
      (r.Ok? ==> r.value == CodeOf(e))
      && old(DispatchErrorOn(SideOf(aId).slots[..], SideOf(bId).slots[..], e, h, step, k, turnNumber)) == ErrorOf(r)
      && (r.Err? ==> forall o :: o in oeo.Values ==> o.currentHp == old(o.currentHp))
      && match e.eventType
         case BeginTurn =>
           BeginTurnDone(h, step, base, OutcomeOf(r))
           && forall o :: o in oeo.Values ==> o.currentHp == old(o.currentHp)
         case UseMove =>
           turnNumber == old(turnNumber) && pending == base && UseMoveDone(e.data, k, r)
         case _ =>
           turnNumber == old(turnNumber) && pending == base && r == Ok(0)
           && forall o :: o in oeo.Values ==> o.currentHp == old(o.currentHp)
    }

    /** The exception `_process_begin_turn` raises at turn `turn` when team
        a's side holds `sa` and team b's `sb`, `None` when it returns: a
        failed poll of the actions, or a failed scheduling of them in turn
        `turn + 1`. */
    ghost function BeginTurnErrorOn(sa: seq<Option<OeoId>>, sb: seq<Option<OeoId>>,
                                    h: ActionHandler, step: nat, turn: int): Option<Error>
      requires Valid() && AllKnown(sa, oeo.Keys) && AllKnown(sb, oeo.Keys)
    {
      FieldedAllKnown(sa, oeo.Keys);
      FieldedAllKnown(sb, oeo.Keys);
      var m := PolledActions(h, step, aId, bId, TeamOf(aId), TeamOf(bId), FieldedOf(sa), FieldedOf(sb), Speeds());
      if m.Err? then Some(m.error)
      else
        var s := Schedule(turn + 1, m.value, SpeedList(), moves);
        if s.Err? then Some(s.error) else None
    }

    /** The exception `_process_use_move(**data)` raises when team a's side
        holds `sa` and team b's `sb`, `None` when it returns: wrong keywords,
        then an unknown user, move or target, and, when both combatants are
        fielded, a damage error. */
    ghost function UseMoveErrorOn(sa: seq<Option<OeoId>>, sb: seq<Option<OeoId>>,
                                  data: map<string, string>, k: Roll): Option<Error>
    {
      if data.Keys != UseMoveKeys then Some(BadEventData)
      else
        var u, m, t := data[UserIdKey], data[MoveIdKey], data[TargetIdKey];
        if u !in oeo then Some(UnknownCombatant(u))
        else if m !in moves then Some(UnknownMove(m))
        else if t !in oeo then Some(UnknownCombatant(t))
        else if !((Some(u) in sa || Some(u) in sb) && (Some(t) in sa || Some(t) in sb)) then None
        else
          var d := CalculateStandardDamage(oeo[u], moves[m], oeo[t], table, k);
          if d.Err? then Some(d.error) else None
    }

    /** The exception the dispatch of `e` raises at turn `turn` when team a's
        side holds `sa` and team b's `sb`, `None` when its handler returns:
        BeginTurn and UseMove as `BeginTurnErrorOn` and `UseMoveErrorOn` say;
        the stubs never raise. */
    ghost function DispatchErrorOn(sa: seq<Option<OeoId>>, sb: seq<Option<OeoId>>,
                                   e: SimEvent, h: ActionHandler, step: nat, k: Roll, turn: int): Option<Error>
      requires Valid() && AllKnown(sa, oeo.Keys) && AllKnown(sb, oeo.Keys)
    {
      match e.eventType
      case BeginTurn => BeginTurnErrorOn(sa, sb, h, step, turn)
      case UseMove => UseMoveErrorOn(sa, sb, e.data, k)
      case _ => None
    }

    /** The BeginTurn branch of the dispatch in `run`: `_process_begin_turn`,
        whose return value 1 is the outcome code. */
    method DispatchBeginTurn(e: SimEvent, h: ActionHandler, step: nat, k: Roll, base: seq<Pending>) returns (r: Result<int>)
      requires Valid() && FieldedKnown() && e.eventType == BeginTurn
      modifies this`turnNumber, this`pending
      ensures EventDone(e, h, step, k, base, r)
    {
      var o := ProcessBeginTurn(h, step, base);
      r := if o.Pass? then Ok(1) else Err(o.error);
      assert OutcomeOf(r) == o;
    }

    /** The UseMove branch of the dispatch in `run`: `_process_use_move`
        called with the event's data as keyword arguments. */
    method DispatchUseMove(e: SimEvent, h: ActionHandler, step: nat, k: Roll, base: seq<Pending>) returns (r: Result<int>)
      requires Valid() && FieldedKnown() && e.eventType == UseMove
      modifies this`pending, oeo.Values`currentHp
      ensures EventDone(e, h, step, k, base, r)
      ensures HpMap() == old(HpAfter(HpMap(), SideOf(aId).slots[..], SideOf(bId).slots[..], e, k))
    {
      r := ProcessUseMove(e.data, k, base);
    }

    /** The UseItem, Switch and Run branches of the dispatch in `run`: their
        handler calls are commented out, so the event completes with code 0. */
    method DispatchStub(e: SimEvent, h: ActionHandler, step: nat, k: Roll, base: seq<Pending>) returns (r: Result<int>)
      requires Valid() && FieldedKnown() && (e.eventType.UseItem? || e.eventType.Switch? || e.eventType.Run?)
      modifies this`pending
      ensures EventDone(e, h, step, k, base, r)
    {
      pending := base;
      r := Ok(0);
    }

    /** The dispatch on the event's tag in `run`, as `EventDone` states it. */
    method ProcessEvent(e: SimEvent, h: ActionHandler, step: nat, k: Roll, base: seq<Pending>) returns (r: Result<int>)
      requires Valid() && FieldedKnown()
      modifies this`turnNumber, this`pending, oeo.Values`currentHp
      ensures EventDone(e, h, step, k, base, r)
      ensures HpMap() == old(HpAfter(HpMap(), SideOf(aId).slots[..], SideOf(bId).slots[..], e, k))
    {
      match e.eventType {
        case BeginTurn =>
          r := DispatchBeginTurn(e, h, step, k, base);
          HpKept(this);
        case UseMove =>
          r := DispatchUseMove(e, h, step, k, base);
        case UseItem =>
          r := DispatchStub(e, h, step, k, base);
          HpKept(this);
        case Switch =>
          r := DispatchStub(e, h, step, k, base);
          HpKept(this);
        case Run =>
          r := DispatchStub(e, h, step, k, base);
          HpKept(this);
      }
    }

    /** The dispatch in the body of `run` after the end checks: pop the
        pending event `p` with the smallest key and dispatch on its tag (the
        handlers are asked with the number of events processed so far, and
        that number picks the damage roll); `code` is its outcome code. */
    method DispatchNext(h: ActionHandler, rolls: nat -> Roll) returns (p: Pending, code: Result<int>)
      requires Valid() && FieldedKnown() && pending != []
      modifies this`turnNumber, this`pending, oeo.Values`currentHp
      ensures p == old(pending[MinIndex(pending)])
      ensures EventDone(p.event, h, |processed|, rolls(|processed|), old(RemoveAt(pending, MinIndex(pending))), code)
      ensures HpMap() == old(HpAfter(HpMap(), SideOf(aId).slots[..], SideOf(bId).slots[..], pending[MinIndex(pending)].event,
                                     rolls(|processed|)))
      ensures FieldedKnown()
      ensures code.Ok? ==> code.value == CodeOf(p.event)
      ensures p.event.eventType == BeginTurn ==>
        turnNumber == old(turnNumber) + 1 && BeginTurnQueued(old(RemoveAt(pending, MinIndex(pending))), pending, turnNumber)
      ensures p.event.eventType != BeginTurn ==>
        turnNumber == old(turnNumber) && pending == old(RemoveAt(pending, MinIndex(pending)))
    {
      var i := MinIndex(pending);
      p := pending[i];
      code := ProcessEvent(p.event, h, |processed|, rolls(|processed|), RemoveAt(pending, i));
    }

    /** The append to the processed log at the end of the body of `run`:
        an event whose handler returned is logged as (key, event, code); one
        that failed is not. `pend0` and `turn0` are the queue and turn number
        before `p` was popped and dispatched; the log update keeps the loop's
        invariants: a BeginTurn stays pending and the queue stays in order
        against the log. */
    method LogOutcome(p: Pending, code: Result<int>, ghost pend0: seq<Pending>, ghost turn0: int)
      requires pend0 != [] && p == pend0[MinIndex(pend0)]
      requires p.event.eventType == BeginTurn ==>
        turnNumber == turn0 + 1 && BeginTurnQueued(RemoveAt(pend0, MinIndex(pend0)), pending, turnNumber)
      requires p.event.eventType != BeginTurn ==>
        turnNumber == turn0 && pending == RemoveAt(pend0, MinIndex(pend0))
      requires code.Ok? ==> code.value == CodeOf(p.event)
      modifies this`processed
      ensures code.Ok? ==> processed == old(processed) + [Processed(p.key, p.event, CodeOf(p.event))]
      ensures code.Err? ==> processed == old(processed)
      ensures HasBeginTurn(pend0) ==> HasBeginTurn(pending)
      ensures QueueOrdered(pend0, old(processed), turn0) ==> QueueOrdered(pending, processed, turnNumber)
    {
      StepKeepsBeginTurn(pend0, turn0, turnNumber, pending);
      if code.Err? {
        StepKeepsOrder(pend0, processed, turn0, turnNumber, pending, []);
        assert processed + [] == processed;
      } else {
        StepKeepsOrder(pend0, processed, turn0, turnNumber, pending, [Processed(p.key, p.event, code.value)]);
        processed := processed + [Processed(p.key, p.event, code.value)];
      }
    }

    /** The rest of the body of `run` after the end checks: the next event
        `p` (the pending event with the smallest key) is popped and
        dispatched, as `DispatchNext` states it, then logged with its outcome
        code `code`; an error ends the battle as `Aborted` with that error,
        and exactly the errors `DispatchErrorOn` names end it. */
    method ProcessNext(h: ActionHandler, rolls: nat -> Roll) returns (r: Option<RunOutcome>, code: Result<int>)
      requires Valid() && FieldedKnown() && HasBeginTurn(pending)
      modifies this`turnNumber, this`pending, this`processed, oeo.Values`currentHp
      ensures FieldedKnown() && HasBeginTurn(pending)
      ensures r == (if code.Err? then Some(Aborted(code.error)) else None)
      ensures EventDone(old(pending[MinIndex(pending)]).event, h, old(|processed|), rolls(old(|processed|)), old(RemoveAt(pending, MinIndex(pending))), code)
      ensures old(pending[MinIndex(pending)]).event.eventType == BeginTurn ==>
        turnNumber == old(turnNumber) + 1 && BeginTurnQueued(old(RemoveAt(pending, MinIndex(pending))), pending, turnNumber)
      ensures old(pending[MinIndex(pending)]).event.eventType != BeginTurn ==>
        turnNumber == old(turnNumber) && pending == old(RemoveAt(pending, MinIndex(pending)))
      ensures old(DispatchErrorOn(SideOf(aId).slots[..], SideOf(bId).slots[..], pending[MinIndex(pending)].event, h, |processed|, rolls(|processed|),
                              turnNumber))
              == ErrorOf(code)
      ensures code.Err? ==> processed == old(processed)
                            && forall o :: o in oeo.Values ==> o.currentHp == old(o.currentHp)
      ensures code.Err? || old(pending[MinIndex(pending)]).event.eventType != UseMove ==> ConsciousIds() == old(ConsciousIds())
      ensures HpMap() == old(HpAfter(HpMap(), SideOf(aId).slots[..], SideOf(bId).slots[..], pending[MinIndex(pending)].event,
                                     rolls(|processed|)))
      ensures code.Err? ==> HpMap() == old(HpMap())
      ensures code.Ok? && old(pending[MinIndex(pending)]).event.eventType == BeginTurn ==>
        pending == old(RemoveAt(pending, MinIndex(pending))) + [Pending(BeginTurnEvent, BeginTurnKey(turnNumber + 1))]
                   + old(QueuedFor(SideOf(aId).slots[..], SideOf(bId).slots[..], h, |processed|, turnNumber + 1))
      ensures code.Ok? ==> var p := old(pending[MinIndex(pending)]);
        processed == old(processed) + [Processed(p.key, p.event, CodeOf(p.event))]
      ensures old(QueueOrdered(pending, processed, turnNumber)) ==> QueueOrdered(pending, processed, turnNumber)
    {
      ghost var pend0, turn0 := pending, turnNumber;
      var p;
      p, code := DispatchNext(h, rolls);
      label dispatched:
      LogOutcome(p, code, pend0, turn0);
      assert unchanged@dispatched(this`turnNumber, this`pending, field.sideA.slots, field.sideB.slots, oeo.Values);
      HpKept@dispatched(this);

      r := if code.Err? then Some(Aborted(code.error)) else None;
      if code.Err? || p.event.eventType != UseMove || code != Ok(1) {
        ConsciousKept(this);
      }
      if code.Err? {
        HpKept(this);
      }
    }

    /** The end conditions of `run`, in the order they are checked: nobody
        conscious is a draw; else team a, then team b, all unconscious loses;
        after deploying, team a's side, then team b's side, empty loses. */
    ghost predicate Decided(r: RunOutcome)
      reads field.sideA.slots, field.sideB.slots, oeo.Values
    {
      var c := ConsciousIds();
      match r
      case Draw => c == {}
      case Won(t) =>
        c != {}
        && ((t == bId && (a !! c || (!(b !! c) && SideOf(aId).IsEmpty())))
            || (t == aId && !(a !! c) && (b !! c || (!SideOf(aId).IsEmpty() && SideOf(bId).IsEmpty()))))
      case _ => true
    }

    /** `_choose_deployments` on team a's side `sa` and team b's side `sb`:
        the outcome, then the two sides afterwards, as `ChooseDeployments`
        states it (when the team ids coincide the one side is offered twice). */
    ghost function DeploymentsFrom(sa: seq<Option<OeoId>>, sb: seq<Option<OeoId>>, conscious: set<OeoId>,
                                   h: DeployHandler, step: nat): (Outcome, seq<Option<OeoId>>, seq<Option<OeoId>>)
    {
      var ra := DeployTeam(aId, TeamOf(aId), sa, SideOf(aId).Len(), conscious, h, step);
      if ra.Err? then (Fail(ra.error), sa, sb)
      else
        var sb0 := if aId == bId then ra.value else sb;
        var rb := DeployTeam(bId, TeamOf(bId), sb0, SideOf(bId).Len(), conscious, h, step);
        if rb.Err? then (Fail(rb.error), ra.value, sb0)
        else (Pass, if aId == bId then rb.value else ra.value, rb.value)
    }

    /** The checks of one pass of the loop of `run`, on sides `sa` (team a)
        and `sb` (team b) with `c` the conscious combatants: the battle's
        result when the pass ends in the checks (`None` when it goes on to
        the next event), then the two sides afterwards. */
    ghost function ChecksFrom(sa: seq<Option<OeoId>>, sb: seq<Option<OeoId>>, c: set<OeoId>,
                              dh: DeployHandler, step: nat): (Option<RunOutcome>, seq<Option<OeoId>>, seq<Option<OeoId>>)
    {
      var ca, cb := Cleared(sa, c), Cleared(sb, c);
      if c == {} then (Some(Draw), ca, cb)
      else if a !! c then (Some(Won(bId)), ca, cb)
      else if b !! c then (Some(Won(aId)), ca, cb)
      else
        var d := DeploymentsFrom(ca, cb, c, dh, step);
        if d.0.Fail? then (Some(Aborted(d.0.error)), d.1, d.2)
        else if IsEmptyOf(d.1) then (Some(Won(bId)), d.1, d.2)
        else if IsEmptyOf(d.2) then (Some(Won(aId)), d.1, d.2)
        else (None, d.1, d.2)
    }

    /** The checks field only known combatants. */
    lemma DeploymentsFromKnown(sa: seq<Option<OeoId>>, sb: seq<Option<OeoId>>, c: set<OeoId>, dh: DeployHandler, step: nat)
      requires a <= oeo.Keys && b <= oeo.Keys && AllKnown(sa, oeo.Keys) && AllKnown(sb, oeo.Keys)
      requires |sa| == (if SideOf(aId).Len() > 0 then SideOf(aId).Len() else 0)
      requires |sb| == (if SideOf(bId).Len() > 0 then SideOf(bId).Len() else 0)
      ensures AllKnown(DeploymentsFrom(sa, sb, c, dh, step).1, oeo.Keys)
      ensures AllKnown(DeploymentsFrom(sa, sb, c, dh, step).2, oeo.Keys)
    {
      DeployedKnown(aId, TeamOf(aId), sa, SideOf(aId).Len(), c, dh, step, oeo.Keys);
      var ra := DeployTeam(aId, TeamOf(aId), sa, SideOf(aId).Len(), c, dh, step);
      if ra.Ok? {
        var sb0 := if aId == bId then ra.value else sb;
        DeployTeamEffect(aId, TeamOf(aId), sa, SideOf(aId).Len(), c, dh, step);
        DeployedKnown(bId, TeamOf(bId), sb0, SideOf(bId).Len(), c, dh, step, oeo.Keys);
      }
    }

    lemma ChecksFromKnown(sa: seq<Option<OeoId>>, sb: seq<Option<OeoId>>, c: set<OeoId>, dh: DeployHandler, step: nat)
      requires a <= oeo.Keys && b <= oeo.Keys && AllKnown(sa, oeo.Keys) && AllKnown(sb, oeo.Keys)
      requires |sa| == (if SideOf(aId).Len() > 0 then SideOf(aId).Len() else 0)
      requires |sb| == (if SideOf(bId).Len() > 0 then SideOf(bId).Len() else 0)
      ensures AllKnown(ChecksFrom(sa, sb, c, dh, step).1, oeo.Keys) && AllKnown(ChecksFrom(sa, sb, c, dh, step).2, oeo.Keys)
    {
      ClearedKnown(sa, c, oeo.Keys);
      ClearedKnown(sb, c, oeo.Keys);
      if !(c == {} || a !! c || b !! c) {
        var d := DeploymentsFrom(Cleared(sa, c), Cleared(sb, c), c, dh, step);
        DeploymentsFromKnown(Cleared(sa, c), Cleared(sb, c), c, dh, step);
        assert ChecksFrom(sa, sb, c, dh, step).1 == d.1 && ChecksFrom(sa, sb, c, dh, step).2 == d.2;
      }
    }

    /** How a pass of the loop of `run` ends, from team a's side `sa`, team
        b's side `sb`, the conscious combatants `c`, the queue `pend` and the
        turn number `turn` it starts with: the result of the checks when they
        end the battle; otherwise `Aborted` with the error the handler of the
        pending event with the smallest key raises on the deployed field, or
        `None` when the battle goes on. */
    ghost function PassResult(sa: seq<Option<OeoId>>, sb: seq<Option<OeoId>>, c: set<OeoId>, pend: seq<Pending>,
                              turn: int, dh: DeployHandler, ah: ActionHandler, rolls: nat -> Roll, step: nat): Option<RunOutcome>
      requires Valid() && a <= oeo.Keys && b <= oeo.Keys && AllKnown(sa, oeo.Keys) && AllKnown(sb, oeo.Keys)
      requires |sa| == (if SideOf(aId).Len() > 0 then SideOf(aId).Len() else 0)
      requires |sb| == (if SideOf(bId).Len() > 0 then SideOf(bId).Len() else 0)
      requires pend != []
    {
      var e := ChecksFrom(sa, sb, c, dh, step);
      if e.0.Some? then e.0
      else
        ChecksFromKnown(sa, sb, c, dh, step);
        var x := DispatchErrorOn(e.1, e.2, pend[MinIndex(pend)].event, ah, step, rolls(step), turn);
        if x.Some? then Some(Aborted(x.value)) else None
    }

    /** `ChecksFrom` on the current state. */
    ghost function NextChecks(dh: DeployHandler): (Option<RunOutcome>, seq<Option<OeoId>>, seq<Option<OeoId>>)
      reads this`processed, field.sideA.slots, field.sideB.slots, oeo.Values
    {
      ChecksFrom(SideOf(aId).slots[..], SideOf(bId).slots[..], ConsciousIds(), dh, |processed|)
    }

    /** The checks of one pass of the loop of `run`: clear the unconscious
        from the field; nobody conscious is a draw, else team a and then team
        b all unconscious loses; otherwise deploy, and then team a's and then
        team b's side empty loses. `Some` is the battle's result when it ends
        here, `None` that the battle goes on. */
    method CheckAndDeploy(dh: DeployHandler) returns (r: Option<RunOutcome>)
      requires Valid() && FieldedKnown() && a <= oeo.Keys && b <= oeo.Keys
      modifies field.sideA.slots, field.sideB.slots
      ensures FieldedKnown()
      ensures var c := ConsciousIds();
        (c == {} ==> r == Some(Draw))
        && (c != {} && a !! c ==> r == Some(Won(bId)))
        && (!(a !! c) && b !! c ==> r == Some(Won(aId)))
      ensures var c := ConsciousIds();
        a !! c || b !! c ==>
          SideOf(aId).slots[..] == Cleared(old(SideOf(aId).slots[..]), c)
          && SideOf(bId).slots[..] == Cleared(old(SideOf(bId).slots[..]), c)
      ensures var c := ConsciousIds();
        var d := DeploymentsFrom(Cleared(old(SideOf(aId).slots[..]), c), Cleared(old(SideOf(bId).slots[..]), c), c, dh, |processed|);
        !(a !! c) && !(b !! c) ==>
          SideOf(aId).slots[..] == d.1 && SideOf(bId).slots[..] == d.2
          && (d.0.Fail? ==> r == Some(Aborted(d.0.error)))
          && (d.0.Pass? && IsEmptyOf(d.1) ==> r == Some(Won(bId)))
          && (d.0.Pass? && !IsEmptyOf(d.1) && IsEmptyOf(d.2) ==> r == Some(Won(aId)))
          && (d.0.Pass? && !IsEmptyOf(d.1) && !IsEmptyOf(d.2) ==> r == None)
      ensures r.Some? ==> !r.value.OutOfFuel? && Decided(r.value)
      ensures unchanged(oeo.Values)
      ensures ConsciousIds() == old(ConsciousIds())
      ensures r == old(NextChecks(dh)).0
      ensures SideOf(aId).slots[..] == old(NextChecks(dh)).1 && SideOf(bId).slots[..] == old(NextChecks(dh)).2
    {
      RemoveUnconscious();
      var conscious := ConsciousIds();
      if conscious == {} {
        return Some(Draw);
      } else if a !! conscious {
        return Some(Won(bId));
      } else if b !! conscious {
        return Some(Won(aId));
      }
      ghost var ca, cb := SideOf(aId).slots[..], SideOf(bId).slots[..];
      r := DeployAndCheckSides(dh, |processed|);
      assert ConsciousIds() == conscious;
      ghost var d := DeploymentsFrom(ca, cb, conscious, dh, |processed|);
      assert SideOf(aId).slots[..] == d.1 && SideOf(bId).slots[..] == d.2;
    }

    /** The second half of the checks: `_choose_deployments`, then team a's
        and then team b's side empty loses. */
    method DeployAndCheckSides(dh: DeployHandler, step: nat) returns (r: Option<RunOutcome>)
      requires Valid() && FieldedKnown() && a <= oeo.Keys && b <= oeo.Keys
      modifies field.sideA.slots, field.sideB.slots
      ensures FieldedKnown()
      ensures var d := DeploymentsFrom(old(SideOf(aId).slots[..]), old(SideOf(bId).slots[..]), ConsciousIds(), dh, step);
        SideOf(aId).slots[..] == d.1 && SideOf(bId).slots[..] == d.2
        && (d.0.Fail? ==> r == Some(Aborted(d.0.error)))
        && (d.0.Pass? && IsEmptyOf(d.1) ==> r == Some(Won(bId)))
        && (d.0.Pass? && !IsEmptyOf(d.1) && IsEmptyOf(d.2) ==> r == Some(Won(aId)))
        && (d.0.Pass? && !IsEmptyOf(d.1) && !IsEmptyOf(d.2) ==> r == None)
    {
      var deployed := ChooseDeployments(dh, step);
      if deployed.Fail? {
        return Some(Aborted(deployed.error));
      }
      if SideOf(aId).IsEmpty() {
        return Some(Won(bId));
      } else if SideOf(bId).IsEmpty() {
        return Some(Won(aId));
      }
      r := None;
    }

    /** What the pass of the loop of `run` started now returns. */
    ghost function NextPassResult(dh: DeployHandler, ah: ActionHandler, rolls: nat -> Roll): Option<RunOutcome>
      requires Valid() && FieldedKnown() && a <= oeo.Keys && b <= oeo.Keys && pending != []
      reads this`pending, this`turnNumber, this`processed, field.sideA.slots, field.sideB.slots, oeo.Values
    {
      PassResult(SideOf(aId).slots[..], SideOf(bId).slots[..], ConsciousIds(), pending, turnNumber, dh, ah, rolls, |processed|)
    }

    /** The state a pass of the loop of `run` starts from. */
    ghost function Snapshot(): PassStart
      reads this`pending, this`turnNumber, this`processed, field.sideA.slots, field.sideB.slots, oeo.Values
    {
      PassStart(SideOf(aId).slots[..], SideOf(bId).slots[..], ConsciousIds(), pending, turnNumber, processed, HpMap())
    }

    /** The pass of the loop of `run` that starts from `s` ends with `r`
        (`None`: the battle goes on), as `PassResult` states. */
    ghost predicate PassGives(s: PassStart, dh: DeployHandler, ah: ActionHandler, rolls: nat -> Roll, r: Option<RunOutcome>)
      requires Valid()
    {
      a <= oeo.Keys && b <= oeo.Keys && AllKnown(s.sideA, oeo.Keys) && AllKnown(s.sideB, oeo.Keys)
      && |s.sideA| == (if SideOf(aId).Len() > 0 then SideOf(aId).Len() else 0)
      && |s.sideB| == (if SideOf(bId).Len() > 0 then SideOf(bId).Len() else 0)
      && s.pending != []
      && PassResult(s.sideA, s.sideB, s.conscious, s.pending, s.turn, dh, ah, rolls, |s.log|) == r
    }

    /** What a pass of the loop of `run` that started from `s` leaves as the
        sides `sa` and `sb`, the queue `pend` and the turn number `turn`: the
        sides `ChecksFrom` gives; the queue and turn it started with when the
        checks end the battle; otherwise the queue without the popped event
        and, for a BeginTurn, the next turn with its BeginTurn queued. */
    ghost predicate LeavesOn(s: PassStart, dh: DeployHandler, sa: seq<Option<OeoId>>, sb: seq<Option<OeoId>>,
                             pend: seq<Pending>, turn: int)
    {
      var e := ChecksFrom(s.sideA, s.sideB, s.conscious, dh, |s.log|);
      sa == e.1 && sb == e.2
      && (e.0.Some? ==> pend == s.pending && turn == s.turn)
      && (e.0.None? && s.pending != [] && s.pending[MinIndex(s.pending)].event.eventType == BeginTurn ==>
            turn == s.turn + 1 && BeginTurnQueued(RemoveAt(s.pending, MinIndex(s.pending)), pend, turn))
      && (e.0.None? && s.pending != [] && s.pending[MinIndex(s.pending)].event.eventType != BeginTurn ==>
            turn == s.turn && pend == RemoveAt(s.pending, MinIndex(s.pending)))
    }

    /** `LeavesOn` for the current sides, queue and turn number. */
    ghost predicate PassLeaves(s: PassStart, dh: DeployHandler)
      reads this`pending, this`turnNumber, field.sideA.slots, field.sideB.slots
    {
      LeavesOn(s, dh, SideOf(aId).slots[..], SideOf(bId).slots[..], pending, turnNumber)
    }

    /** The UseMove events `_choose_actions` queues in turn `turn` when team
        a's side holds `sa` and team b's `sb` and neither the poll nor the
        scheduling fails. */
    ghost function QueuedFor(sa: seq<Option<OeoId>>, sb: seq<Option<OeoId>>, h: ActionHandler, step: nat, turn: int): seq<Pending>
      requires Valid() && AllKnown(sa, oeo.Keys) && AllKnown(sb, oeo.Keys)
    {
      FieldedAllKnown(sa, oeo.Keys);
      FieldedAllKnown(sb, oeo.Keys);
      var m := PolledActions(h, step, aId, bId, TeamOf(aId), TeamOf(bId), FieldedOf(sa), FieldedOf(sb), Speeds());
      if m.Err? then []
      else
        var s := Schedule(turn, m.value, SpeedList(), moves);
        if s.Err? then [] else s.value
    }

    /** The state `t` that the pass which started from `s` hands to the next
        pass when the battle goes on: the pass's checks and dispatch let it
        go on (`PassGives` with `None`); it leaves the sides, queue and turn
        number of `t` (`LeavesOn`), with the actions polled on the deployed
        sides queued after a BeginTurn; it logs the popped event with its key
        and its code on those sides; the HP become those `HpAfter` gives for
        the event on those sides with this pass's roll, and the conscious
        combatants are those the new HP leave above 0. */
    ghost predicate PassFollows(s: PassStart, t: PassStart, dh: DeployHandler, ah: ActionHandler, rolls: nat -> Roll)
      requires Valid()
    {
      PassGives(s, dh, ah, rolls, None) && LeavesOn(s, dh, t.sideA, t.sideB, t.pending, t.turn)
      && (var p := s.pending[MinIndex(s.pending)];
          t.log == s.log + [Processed(p.key, p.event, CodeOn(t.sideA, t.sideB, p.event))]
          && t.hp == HpAfter(s.hp, t.sideA, t.sideB, p.event, rolls(|s.log|))
          && t.conscious == ConsciousOf(t.hp)
          && (p.event.eventType == BeginTurn ==>
                AllKnown(t.sideA, oeo.Keys) && AllKnown(t.sideB, oeo.Keys)
                && t.pending == RemoveAt(s.pending, MinIndex(s.pending)) + [Pending(BeginTurnEvent, BeginTurnKey(t.turn + 1))]
                                + QueuedFor(t.sideA, t.sideB, ah, |s.log|, t.turn)))
    }

    /** `PassFollows` as a relation between two states. */
    ghost function Follows(dh: DeployHandler, ah: ActionHandler, rolls: nat -> Roll): (PassStart, PassStart) -> bool {
      (s: PassStart, t: PassStart) => Valid() && PassFollows(s, t, dh, ah, rolls)
    }

    /** Each state in `ts` is the one the pass from the state before it hands on. */
    ghost predicate Chain(ts: seq<PassStart>, dh: DeployHandler, ah: ActionHandler, rolls: nat -> Roll)
      requires Valid()
    {
      Linked(ts, Follows(dh, ah, rolls))
    }

    /** A chain ending in `s` goes on to the state that `s`'s pass hands on. */
    lemma ChainExtend(ts: seq<PassStart>, s: PassStart, t: PassStart, dh: DeployHandler, ah: ActionHandler, rolls: nat -> Roll)
      requires Valid() && |ts| >= 1 && ts[|ts| - 1] == s && Chain(ts, dh, ah, rolls) && PassFollows(s, t, dh, ah, rolls)
      ensures Chain(ts + [t], dh, ah, rolls)
    {
      assert Follows(dh, ah, rolls)(s, t);
      LinkedExtend(ts, t, Follows(dh, ah, rolls));
    }

    /** The state in which a pass of the loop of `run` that started from `s`
        ends the battle: what `PassLeaves` states, with the log, the
        conscious combatants and the HP those it started with. */
    ghost predicate PassEnded(s: PassStart, dh: DeployHandler)
      reads this`pending, this`turnNumber, this`processed, field.sideA.slots, field.sideB.slots, oeo.Values
    {
      PassLeaves(s, dh) && s.log == processed && s.conscious == ConsciousIds() && s.hp == HpMap()
    }

    /** One pass of the loop of `run`: the checks and deployments, as
        `ChecksFrom` states them on the state the pass starts in; when they
        let the battle go on, the next event `p` is dispatched and logged as
        `ProcessNext` states it, and the battle ends exactly when its handler
        raises. `Some` is the battle's result when it ends in this pass. */
    method RunPass(dh: DeployHandler, ah: ActionHandler, rolls: nat -> Roll) returns (r: Option<RunOutcome>, ghost start: PassStart)
      requires Valid() && FieldedKnown() && HasBeginTurn(pending) && a <= oeo.Keys && b <= oeo.Keys
      modifies this`turnNumber, this`pending, this`processed, field.sideA.slots, field.sideB.slots,
               oeo.Values`currentHp
      ensures FieldedKnown() && HasBeginTurn(pending)
      ensures start == old(Snapshot())
      ensures r.None? ==> PassFollows(start, Snapshot(), dh, ah, rolls)
      ensures r.Some? ==> PassGives(start, dh, ah, rolls, Some(r.value)) && PassEnded(start, dh)
      ensures r.Some? ==> processed == old(processed) && forall o :: o in oeo.Values ==> o.currentHp == old(o.currentHp)
      ensures r.None? ==> var p := old(pending[MinIndex(pending)]);
        processed == old(processed) + [Processed(p.key, p.event, CodeOf(p.event))]
      ensures old(QueueOrdered(pending, processed, turnNumber)) ==> QueueOrdered(pending, processed, turnNumber)
      ensures r.Some? ==> !r.value.OutOfFuel? && Decided(r.value)
    {
      start := Snapshot();
      assert NextChecks(dh) == ChecksFrom(start.sideA, start.sideB, start.conscious, dh, |start.log|);
      r := CheckAndDeploy(dh);
      if r.Some? {
        return;
      }
      r := DispatchPass(dh, ah, rolls, start);
    }

    /** When the checks let the pass go on, its result is decided by the
        error the dispatch of the next event raises on the deployed field. */
    lemma DispatchResult(dh: DeployHandler, ah: ActionHandler, rolls: nat -> Roll, start: PassStart)
      requires Valid() && FieldedKnown() && pending != [] && a <= oeo.Keys && b <= oeo.Keys
      requires AllKnown(start.sideA, oeo.Keys) && AllKnown(start.sideB, oeo.Keys)
      requires |start.sideA| == SideOf(aId).slots.Length && |start.sideB| == SideOf(bId).slots.Length
      requires ChecksFrom(start.sideA, start.sideB, start.conscious, dh, |start.log|) == (None, SideOf(aId).slots[..], SideOf(bId).slots[..])
      requires start.pending == pending && start.turn == turnNumber && start.log == processed
      ensures var x := DispatchErrorOn(SideOf(aId).slots[..], SideOf(bId).slots[..], pending[MinIndex(pending)].event, ah,
                                       |processed|, rolls(|processed|), turnNumber);
        PassResult(start.sideA, start.sideB, start.conscious, start.pending, start.turn, dh, ah, rolls, |start.log|)
        == if x.Some? then Some(Aborted(x.value)) else None
    {
    }

    /** The second half of a pass of the loop of `run` that started from
        `start`, once its checks have let the battle go on: the next event is
        dispatched and logged as `ProcessNext` states it. */
    method DispatchPass(dh: DeployHandler, ah: ActionHandler, rolls: nat -> Roll, ghost start: PassStart) returns (r: Option<RunOutcome>)
      requires Valid() && FieldedKnown() && HasBeginTurn(pending) && a <= oeo.Keys && b <= oeo.Keys
      requires AllKnown(start.sideA, oeo.Keys) && AllKnown(start.sideB, oeo.Keys)
      requires |start.sideA| == SideOf(aId).slots.Length && |start.sideB| == SideOf(bId).slots.Length
      requires ChecksFrom(start.sideA, start.sideB, start.conscious, dh, |start.log|) == (None, SideOf(aId).slots[..], SideOf(bId).slots[..])
      requires start.pending == pending && start.turn == turnNumber && start.log == processed && start.conscious == ConsciousIds()
      requires start.hp == HpMap()
      modifies this`turnNumber, this`pending, this`processed, oeo.Values`currentHp
      ensures FieldedKnown() && HasBeginTurn(pending)
      ensures PassGives(start, dh, ah, rolls, r)
      ensures r.None? ==> PassFollows(start, Snapshot(), dh, ah, rolls)
      ensures r.Some? ==> PassLeaves(start, dh) && ConsciousIds() == start.conscious && HpMap() == start.hp
      ensures r.Some? ==> processed == old(processed) && forall o :: o in oeo.Values ==> o.currentHp == old(o.currentHp)
      ensures r.None? ==> var p := old(pending[MinIndex(pending)]);
        processed == old(processed) + [Processed(p.key, p.event, CodeOf(p.event))]
      ensures old(QueueOrdered(pending, processed, turnNumber)) ==> QueueOrdered(pending, processed, turnNumber)
      ensures r.Some? ==> !r.value.OutOfFuel? && Decided(r.value)
    {
      ghost var x := DispatchErrorOn(SideOf(aId).slots[..], SideOf(bId).slots[..], pending[MinIndex(pending)].event, ah,
                                     |processed|, rolls(|processed|), turnNumber);
      DispatchResult(dh, ah, rolls, start);
      var code;
      r, code := ProcessNext(ah, rolls);
      ConsciousFromHp();
      PassOutcome(start, Snapshot(), dh, ah, rolls, x, code, r);
    }

    /** How a pass whose checks let it go on ends: the dispatch of the next
        event raised `x`, which `code` carries and `r` turns into the
        battle's result, and left the state `t`; then `r` is the pass's
        result, and either the battle goes on to `t` or it ends with the
        sides, queue and turn number `t` holds and the HP and conscious set
        it started with. */
    lemma PassOutcome(start: PassStart, t: PassStart, dh: DeployHandler, ah: ActionHandler, rolls: nat -> Roll,
                      x: Option<Error>, code: Result<int>, r: Option<RunOutcome>)
      requires Valid() && a <= oeo.Keys && b <= oeo.Keys && start.pending != []
      requires AllKnown(start.sideA, oeo.Keys) && AllKnown(start.sideB, oeo.Keys)
      requires AllKnown(t.sideA, oeo.Keys) && AllKnown(t.sideB, oeo.Keys)
      requires |start.sideA| == (if SideOf(aId).Len() > 0 then SideOf(aId).Len() else 0)
      requires |start.sideB| == (if SideOf(bId).Len() > 0 then SideOf(bId).Len() else 0)
      requires ChecksFrom(start.sideA, start.sideB, start.conscious, dh, |start.log|) == (None, t.sideA, t.sideB)
      requires PassResult(start.sideA, start.sideB, start.conscious, start.pending, start.turn, dh, ah, rolls, |start.log|)
               == if x.Some? then Some(Aborted(x.value)) else None
      requires x == ErrorOf(code) && r == (if code.Err? then Some(Aborted(code.error)) else None)
      requires code.Err? ==> t.hp == start.hp && t.conscious == start.conscious
      requires t.conscious == ConsciousOf(t.hp)
      requires var p := start.pending[MinIndex(start.pending)]; var rest := RemoveAt(start.pending, MinIndex(start.pending));
        (p.event.eventType == BeginTurn ==> t.turn == start.turn + 1 && BeginTurnQueued(rest, t.pending, t.turn))
        && (p.event.eventType != BeginTurn ==> t.turn == start.turn && t.pending == rest)
        && (code.Ok? ==> t.log == start.log + [Processed(p.key, p.event, CodeOn(t.sideA, t.sideB, p.event))])
        && t.hp == HpAfter(start.hp, t.sideA, t.sideB, p.event, rolls(|start.log|))
        && (code.Ok? && p.event.eventType == BeginTurn ==>
              t.pending == rest + [Pending(BeginTurnEvent, BeginTurnKey(t.turn + 1))] + QueuedFor(t.sideA, t.sideB, ah, |start.log|, t.turn))
      ensures PassGives(start, dh, ah, rolls, r)
      ensures r.None? ==> PassFollows(start, t, dh, ah, rolls)
      ensures r.Some? ==> LeavesOn(start, dh, t.sideA, t.sideB, t.pending, t.turn) && t.conscious == start.conscious
                          && t.hp == start.hp
    { }

    /** A pass of the loop of `run`, as `RunPass` states it, recorded on the
        trace of the states the passes so far started from: when the battle
        goes on, the state the pass hands on is appended to the chain. */
    method TracedPass(dh: DeployHandler, ah: ActionHandler, rolls: nat -> Roll, ghost trace: seq<PassStart>)
      returns (r: Option<RunOutcome>, ghost start: PassStart, ghost next: seq<PassStart>)
      requires Valid() && FieldedKnown() && HasBeginTurn(pending) && a <= oeo.Keys && b <= oeo.Keys
      requires |trace| >= 1 && trace[|trace| - 1] == Snapshot() && Chain(trace, dh, ah, rolls)
      modifies this`turnNumber, this`pending, this`processed, field.sideA.slots, field.sideB.slots,
               oeo.Values`currentHp
      ensures FieldedKnown() && HasBeginTurn(pending)
      ensures start == old(Snapshot())
      ensures r.None? ==> next == trace + [Snapshot()] && Chain(next, dh, ah, rolls)
      ensures r.Some? ==> next == trace && PassGives(start, dh, ah, rolls, Some(r.value)) && PassEnded(start, dh)
      ensures r.Some? ==> processed == old(processed)
      ensures r.None? ==> var p := old(pending[MinIndex(pending)]);
        processed == old(processed) + [Processed(p.key, p.event, CodeOf(p.event))]
      ensures old(QueueOrdered(pending, processed, turnNumber)) ==> QueueOrdered(pending, processed, turnNumber)
      ensures r.Some? ==> !r.value.OutOfFuel? && Decided(r.value)
    {
      r, start := RunPass(dh, ah, rolls);
      next := trace;
      if r.None? {
        ChainExtend(trace, start, Snapshot(), dh, ah, rolls);
        next := trace + [Snapshot()];
      }
    }

    /** The loop of `run`: up to `fuel` passes, stopping at the first that
        ends the battle. */
    method Passes(dh: DeployHandler, ah: ActionHandler, rolls: nat -> Roll, fuel: nat)
      returns (r: RunOutcome, ghost last: PassStart, ghost trace: seq<PassStart>)
      requires Valid() && FieldedKnown() && HasBeginTurn(pending) && a <= oeo.Keys && b <= oeo.Keys
      modifies this`turnNumber, this`pending, this`processed, field.sideA.slots, field.sideB.slots,
               oeo.Values`currentHp
      ensures FieldedKnown() && HasBeginTurn(pending)
      ensures |processed| >= |old(processed)| && processed[..|old(processed)|] == old(processed)
      ensures r.OutOfFuel? ==> |processed| == |old(processed)| + fuel
      ensures old(QueueOrdered(pending, processed, turnNumber)) ==> QueueOrdered(pending, processed, turnNumber)
      ensures Decided(r)
      ensures |trace| == |processed| - |old(processed)| + 1 && trace[0] == old(Snapshot())
      ensures Chain(trace, dh, ah, rolls)
      ensures r.OutOfFuel? ==> trace[|trace| - 1] == Snapshot()
      ensures !r.OutOfFuel? ==> last == trace[|trace| - 1]
      ensures !r.OutOfFuel? ==> PassGives(last, dh, ah, rolls, Some(r)) && PassEnded(last, dh)
    {
      last := PassStart([], [], {}, [], 0, [], map[]);
      trace := [Snapshot()];
      ghost var ordered := QueueOrdered(pending, processed, turnNumber);
      var remaining := fuel;
      while remaining > 0
        invariant FieldedKnown() && HasBeginTurn(pending)
        invariant |processed| == |old(processed)| + (fuel - remaining) && processed[..|old(processed)|] == old(processed)
        invariant ordered ==> QueueOrdered(pending, processed, turnNumber)
        invariant |trace| == fuel - remaining + 1 && trace[|trace| - 1] == Snapshot()
        invariant trace[0] == old(Snapshot())
        invariant Chain(trace, dh, ah, rolls)
        decreases remaining
      {
        ghost var proc0 := processed;
        ghost var p := pending[MinIndex(pending)];
        var ended;
        ended, last, trace := TracedPass(dh, ah, rolls, trace);
        if ended.Some? {
          return ended.value, last, trace;
        }
        AppendKeepsPrefix(proc0, Processed(p.key, p.event, CodeOf(p.event)), old(processed));
        remaining := remaining - 1;
      }
      r := OutOfFuel;
    }

    /** `run`: queue BeginTurn 1, then make passes until an end condition
        holds. The decision handlers and the damage rolls are parameters;
        `fuel` bounds the number of passes. */
    method Run(dh: DeployHandler, ah: ActionHandler, rolls: nat -> Roll, fuel: nat)
      returns (r: RunOutcome, ghost last: PassStart, ghost trace: seq<PassStart>)
      requires Valid() && FieldedKnown()
      modifies this`turnNumber, this`pending, this`processed, field.sideA.slots, field.sideB.slots,
               oeo.Values`currentHp
      ensures FieldedKnown()
      ensures |processed| >= |old(processed)| && processed[..|old(processed)|] == old(processed)
      ensures r.OutOfFuel? ==> |processed| == |old(processed)| + fuel
      ensures !(a <= oeo.Keys) ==> r.Aborted? && r.error.UnknownCombatant? && r.error.oeo in a - oeo.Keys
      ensures a <= oeo.Keys && !(b <= oeo.Keys) ==> r.Aborted? && r.error.UnknownCombatant? && r.error.oeo in b - oeo.Keys
      ensures a <= oeo.Keys && b <= oeo.Keys ==> HasBeginTurn(pending)
      ensures a <= oeo.Keys && b <= oeo.Keys && old(pending == [] && processed == [] && turnNumber >= 0) ==>
        QueueOrdered(pending, processed, turnNumber)
      ensures Decided(r)
      ensures a <= oeo.Keys && b <= oeo.Keys ==>
        |trace| == |processed| - |old(processed)| + 1
        && trace[0] == old(Snapshot()).(pending := old(pending) + [Pending(BeginTurnEvent, BeginTurnKey(1))])
        && Chain(trace, dh, ah, rolls)
        && (r.OutOfFuel? ==> trace[|trace| - 1] == Snapshot())
        && (!r.OutOfFuel? ==> last == trace[|trace| - 1])
      ensures a <= oeo.Keys && b <= oeo.Keys && !r.OutOfFuel? ==> PassGives(last, dh, ah, rolls, Some(r)) && PassEnded(last, dh)
    {
      last, trace := PassStart([], [], {}, [], 0, [], map[]), [];
      // The team dictionaries built for logging look every member up.
      if !(a <= oeo.Keys) {
        var x :| x in a && x !in oeo;
        return Aborted(UnknownCombatant(x)), last, trace;
      }
      if !(b <= oeo.Keys) {
        var x :| x in b && x !in oeo;
        return Aborted(UnknownCombatant(x)), last, trace;
      }
      QueueFirstTurn();
      r, last, trace := Passes(dh, ah, rolls, fuel);
    }

    /** The queueing of BeginTurn 1 before the loop of `run`: it joins the queue,
        which a fresh battle then holds in order. */
    method QueueFirstTurn()
      modifies this`pending
      ensures pending == old(pending) + [Pending(BeginTurnEvent, BeginTurnKey(1))]
      ensures Snapshot() == old(Snapshot()).(pending := pending)
      ensures HasBeginTurn(pending)
      ensures old(pending == [] && processed == [] && turnNumber >= 0) ==> QueueOrdered(pending, processed, turnNumber)
    {
      ghost var fresh0 := pending == [] && processed == [] && turnNumber >= 0;
      pending := pending + [Pending(BeginTurnEvent, BeginTurnKey(1))];
      assert pending[|pending| - 1].event.eventType == BeginTurn;
      if fresh0 {
        assert pending == [Pending(BeginTurnEvent, BeginTurnKey(1))];
      }
    }
  }
}



