/** The rules `Battle` applies between its state changes (battlesim/battle.py),
    written as functions of the values they read: which combatants leave the
    field, which deployments and actions are accepted, and which events an
    accepted set of actions schedules. */
module BattleRules {
  import opened Outcomes
  import opened SimEvents
  import opened Moves
  import opened Lists
  import opened Fields
  import SpeedOrder
  import opened Scheduling

  // ----- `_remove_unconscious_oeo`

  /** One side once every position whose occupant is not conscious is emptied. */
  function Cleared(s: seq<Option<OeoId>>, conscious: set<OeoId>): (r: seq<Option<OeoId>>)
    ensures |r| == |s|
    ensures forall i :: 0 <= i < |s| ==> r[i] == if s[i].Some? && s[i].value !in conscious then None else s[i]
  {
    seq(|s|, i requires 0 <= i < |s| => if s[i].Some? && s[i].value !in conscious then None else s[i])
  }

  /** `[oeo_id for oeo_id in side.fielded if not conscious]`. */
  function Unconscious(ids: seq<OeoId>, conscious: set<OeoId>): (r: seq<OeoId>)
    ensures |r| <= |ids|
    ensures forall k :: 0 <= k < |r| ==> r[k] in ids && r[k] !in conscious
  {
    if ids == [] then []
    else if ids[0] !in conscious then [ids[0]] + Unconscious(ids[1..], conscious)
    else Unconscious(ids[1..], conscious)
  }

  /** The list to withdraw holds every unconscious id as often as it is fielded, and nothing else. */
  lemma {:induction false} UnconsciousCount(ids: seq<OeoId>, conscious: set<OeoId>, x: OeoId)
    ensures multiset(Unconscious(ids, conscious))[x] == if x in conscious then 0 else multiset(ids)[x]
  {
    if ids != [] {
      UnconsciousCount(ids[1..], conscious, x);
      CountHead(ids, x);
      if ids[0] !in conscious {
        CountCons(ids[0], Unconscious(ids[1..], conscious), x);
      }
    }
  }

  /** The list to withdraw is part of the fielded list. */
  lemma UnconsciousIncluded(ids: seq<OeoId>, conscious: set<OeoId>)
    ensures multiset(Unconscious(ids, conscious)) <= multiset(ids)
  {
    forall x {
      UnconsciousCount(ids, conscious, x);
    }
  }

  /** After clearing, every fielded combatant is conscious. */
  lemma ClearedOnlyConscious(s: seq<Option<OeoId>>, conscious: set<OeoId>, x: OeoId)
    requires x in FieldedOf(Cleared(s, conscious))
    ensures x in conscious
  {
    FieldedMembership(Cleared(s, conscious), x);
  }

  /** Clearing only empties positions: whoever is still fielded was fielded before. */
  lemma ClearedFieldsNoOneNew(s: seq<Option<OeoId>>, conscious: set<OeoId>, x: OeoId)
    requires Some(x) in Cleared(s, conscious)
    ensures Some(x) in s && x in conscious
  {
    var i :| 0 <= i < |s| && Cleared(s, conscious)[i] == Some(x);
    assert s[i] == Some(x);
  }

  /** Clearing twice is clearing once. */
  lemma ClearedIdempotent(s: seq<Option<OeoId>>, conscious: set<OeoId>)
    ensures Cleared(Cleared(s, conscious), conscious) == Cleared(s, conscious)
  {
  }

  /** `for oeo_id in oeo_to_remove: withdraw(oeo_id)`, stopping at the first failure. */
  function WithdrawAll(s: seq<Option<OeoId>>, ids: seq<OeoId>): (r: Result<seq<Option<OeoId>>>)
    ensures r.Ok? ==> |r.value| == |s|
    decreases |ids|
  {
    if ids == [] then Ok(s)
    else
      match WithdrawFrom(s, ids[0])
      case Err(e) => Err(e)
      case Ok(t) => WithdrawAll(t, ids[1..])
  }

  /** A first position that holds none of the ids is left alone by their withdrawal. */
  lemma {:induction false} WithdrawAllPastHead(o: Option<OeoId>, t: seq<Option<OeoId>>, ids: seq<OeoId>)
    requires forall k :: 0 <= k < |ids| ==> o != Some(ids[k])
    requires WithdrawAll(t, ids).Ok?
    ensures WithdrawAll([o] + t, ids) == Ok([o] + WithdrawAll(t, ids).value)
    decreases |ids|
  {
    if ids != [] {
      var x := ids[0];
      var u := WithdrawFrom(t, x).value;
      var i := IndexOf(t, Some(x));
      assert ([o] + t)[..i + 1] == [o] + t[..i];
      assert IndexOf([o] + t, Some(x)) == i + 1;
      assert WithdrawFrom([o] + t, x).value == [o] + u;
      WithdrawAllPastHead(o, u, ids[1..]);
    }
  }

  /** Clearing works position by position. */
  lemma ClearedCons(o: Option<OeoId>, t: seq<Option<OeoId>>, conscious: set<OeoId>)
    ensures Cleared([o] + t, conscious)
      == [if o.Some? && o.value !in conscious then None else o] + Cleared(t, conscious)
  {
  }

  /** The ids to withdraw from a row with a given first position. */
  lemma UnconsciousCons(o: Option<OeoId>, t: seq<Option<OeoId>>, conscious: set<OeoId>)
    ensures Unconscious(FieldedOf([o] + t), conscious)
      == (if o.Some? && o.value !in conscious then [o.value] else []) + Unconscious(FieldedOf(t), conscious)
  {
    assert ([o] + t)[1..] == t;
    var f := FieldedOf(t);
    if o.Some? {
      assert FieldedOf([o] + t) == [o.value] + f;
      assert ([o.value] + f)[1..] == f;
    } else {
      assert FieldedOf([o] + t) == f;
    }
  }

  /** Withdrawing a leading unconscious occupant empties the first position. */
  lemma WithdrawHead(x: OeoId, t: seq<Option<OeoId>>, ids: seq<OeoId>)
    ensures WithdrawAll([Some(x)] + t, [x] + ids) == WithdrawAll([None] + t, ids)
  {
    var s := [Some(x)] + t;
    assert IndexOf(s, Some(x)) == 0;
    assert s[0 := None] == [None] + t;
    assert ([x] + ids)[1..] == ids;
  }

  /** Withdrawing the unconscious fielded ids, one per entry, empties exactly
      the positions of unconscious combatants, even one fielded twice. */
  lemma {:induction false} WithdrawUnconscious(s: seq<Option<OeoId>>, conscious: set<OeoId>)
    ensures WithdrawAll(s, Unconscious(FieldedOf(s), conscious)) == Ok(Cleared(s, conscious))
  {
    if s == [] {
      assert Cleared(s, conscious) == [];
    } else {
      var o, t := s[0], s[1..];
      assert s == [o] + t;
      var rest := Unconscious(FieldedOf(t), conscious);
      WithdrawUnconscious(t, conscious);
      ClearedCons(o, t, conscious);
      UnconsciousCons(o, t, conscious);
      var c := Cleared(t, conscious);
      assert WithdrawAll(t, rest) == Ok(c);
      if o.Some? && o.value !in conscious {
        WithdrawHead(o.value, t, rest);
        WithdrawAllPastHead(None, t, rest);
        assert WithdrawAll(s, [o.value] + rest) == Ok([None] + c);
        assert Unconscious(FieldedOf(s), conscious) == [o.value] + rest;
        assert Cleared(s, conscious) == [None] + c;
      } else {
        forall k | 0 <= k < |rest|
          ensures o != Some(rest[k])
        {
          assert rest[k] !in conscious;
        }
        WithdrawAllPastHead(o, t, rest);
        assert WithdrawAll(s, rest) == Ok([o] + c);
        assert Unconscious(FieldedOf(s), conscious) == rest;
        assert Cleared(s, conscious) == [o] + c;
      }
    }
  }

  // ----- `_choose_deployments` and `_poll_deployments`

  /** A deployment response: `{position: oeo_id}`, in the order the dict yields it. */
  type Deployments = seq<(int, OeoId)>

  /** The deployment handler: team id, benched ids, empty positions and the
      number of events processed so far give a response, or none when the
      handler fails. */
  type DeployHandler = (TeamId, set<OeoId>, seq<nat>, nat) -> Option<Deployments>

  /** `benched`: members of the team that are not fielded on its side and are conscious. */
  function Benched(team: set<OeoId>, fielded: seq<OeoId>, conscious: set<OeoId>): set<OeoId> {
    set x | x in team && x !in fielded && x in conscious
  }

  /** `list(result.values())`. */
  function DeployedIds(ds: Deployments): (r: seq<OeoId>)
    ensures |r| == |ds|
    ensures forall k :: 0 <= k < |ds| ==> r[k] == ds[k].1
  {
    if ds == [] then [] else [ds[0].1] + DeployedIds(ds[1..])
  }

  /** The checks on entry k, in the source's order: the id is deployed once,
      the position is in 0..len-1, the id is on the team. */
  function EntryError(ds: Deployments, k: nat, len: int, team: set<OeoId>, teamId: TeamId): Option<Error>
    requires k < |ds|
  {
    if multiset(DeployedIds(ds))[ds[k].1] > 1 then Some(DeployedTwice(ds[k].1))
    else if ds[k].0 < 0 || ds[k].0 >= len then Some(PositionOutOfRange(ds[k].0))
    else if ds[k].1 !in team then Some(NotOnTeam(ds[k].1, teamId))
    else None
  }

  /** The first failing check from entry k on. */
  function DeploymentErrorFrom(ds: Deployments, k: nat, len: int, team: set<OeoId>, teamId: TeamId): (r: Option<Error>)
    requires k <= |ds|
    ensures r.None? <==> forall j :: k <= j < |ds| ==> EntryError(ds, j, len, team, teamId).None?
    ensures r.Some? ==> exists j :: (k <= j < |ds| && r == EntryError(ds, j, len, team, teamId)
      && forall i :: k <= i < j ==> EntryError(ds, i, len, team, teamId).None?)
    decreases |ds| - k
  {
    if k == |ds| then None
    else if EntryError(ds, k, len, team, teamId).Some? then EntryError(ds, k, len, team, teamId)
    else DeploymentErrorFrom(ds, k + 1, len, team, teamId)
  }

  /** The validation of `_poll_deployments`: none, or the first failure. */
  function DeploymentError(ds: Deployments, len: int, team: set<OeoId>, teamId: TeamId): Option<Error> {
    DeploymentErrorFrom(ds, 0, len, team, teamId)
  }

  /** An id that occurs once among the values is at no second entry. */
  lemma OnceIsDistinct(s: seq<OeoId>, i: nat, j: nat)
    requires i < j < |s| && multiset(s)[s[j]] <= 1
    ensures s[i] != s[j]
  {
    assert s == s[..j] + [s[j]] + s[j + 1..];
    assert multiset(s)[s[j]] >= multiset(s[..j])[s[j]] + 1;
    assert s[i] in multiset(s[..j]);
  }

  /** An accepted response names each id once, at in-range positions, from the team only. */
  lemma AcceptedDeployments(ds: Deployments, len: int, team: set<OeoId>, teamId: TeamId)
    requires DeploymentError(ds, len, team, teamId).None?
    ensures forall k :: 0 <= k < |ds| ==> 0 <= ds[k].0 < len && ds[k].1 in team
    ensures forall i, j :: 0 <= i < j < |ds| ==> ds[i].1 != ds[j].1
  {
    forall k | 0 <= k < |ds|
      ensures 0 <= ds[k].0 < len && ds[k].1 in team
    {
      assert EntryError(ds, k, len, team, teamId).None?;
    }
    forall i, j | 0 <= i < j < |ds|
      ensures ds[i].1 != ds[j].1
    {
      assert EntryError(ds, j, len, team, teamId).None?;
      OnceIsDistinct(DeployedIds(ds), i, j);
    }
  }

  /** `for position, oeo_id in deployments.items(): field.deploy(...)`. */
  function ApplyDeployments(s: seq<Option<OeoId>>, ds: Deployments): (r: Result<seq<Option<OeoId>>>)
  {
    if ds == [] then Ok(s)
    else
      match ApplyDeployments(s, ds[..|ds| - 1])
      case Err(e) => Err(e)
      case Ok(t) => DeployTo(t, ds[|ds| - 1].1, ds[|ds| - 1].0)
  }

  /** With in-range positions every deployment lands, and the row keeps its length. */
  lemma {:induction false} ApplyInRange(s: seq<Option<OeoId>>, ds: Deployments)
    requires forall k :: 0 <= k < |ds| ==> 0 <= ds[k].0 < |s|
    ensures ApplyDeployments(s, ds).Ok? && |ApplyDeployments(s, ds).value| == |s|
  {
    if ds != [] {
      ApplyInRange(s, ds[..|ds| - 1]);
    }
  }

  /** The last entry for a position decides its occupant. */
  lemma {:induction false} ApplyLastWins(s: seq<Option<OeoId>>, ds: Deployments)
    requires forall k :: 0 <= k < |ds| ==> 0 <= ds[k].0 < |s|
    ensures ApplyDeployments(s, ds).Ok? && |ApplyDeployments(s, ds).value| == |s|
    ensures forall k :: 0 <= k < |ds| && (forall l :: k < l < |ds| ==> ds[l].0 != ds[k].0) ==>
      ApplyDeployments(s, ds).value[ds[k].0] == Some(ds[k].1)
  {
    ApplyInRange(s, ds);
    if ds != [] {
      var init := ds[..|ds| - 1];
      ApplyInRange(s, init);
      ApplyLastWins(s, init);
      var t := ApplyDeployments(s, init).value;
      var last := ds[|ds| - 1];
      assert ApplyDeployments(s, ds) == DeployTo(t, last.1, last.0);
      forall k | 0 <= k < |ds| && (forall l :: k < l < |ds| ==> ds[l].0 != ds[k].0)
        ensures ApplyDeployments(s, ds).value[ds[k].0] == Some(ds[k].1)
      {
        if k < |ds| - 1 {
          assert init[k] == ds[k];
          assert forall l :: k < l < |init| ==> init[l].0 != init[k].0 by {
            forall l | k < l < |init| ensures init[l].0 != init[k].0 {
              assert init[l] == ds[l];
            }
          }
        }
      }
    }
  }

  /** Positions no entry names keep their occupant. */
  lemma {:induction false} ApplyUntouched(s: seq<Option<OeoId>>, ds: Deployments)
    requires forall k :: 0 <= k < |ds| ==> 0 <= ds[k].0 < |s|
    ensures ApplyDeployments(s, ds).Ok? && |ApplyDeployments(s, ds).value| == |s|
    ensures forall i :: 0 <= i < |s| && (forall k :: 0 <= k < |ds| ==> ds[k].0 != i) ==>
      ApplyDeployments(s, ds).value[i] == s[i]
  {
    ApplyInRange(s, ds);
    if ds != [] {
      var init := ds[..|ds| - 1];
      ApplyInRange(s, init);
      ApplyUntouched(s, init);
      var last := ds[|ds| - 1];
      assert ApplyDeployments(s, ds) == DeployTo(ApplyDeployments(s, init).value, last.1, last.0);
      forall i | 0 <= i < |s| && (forall k :: 0 <= k < |ds| ==> ds[k].0 != i)
        ensures ApplyDeployments(s, ds).value[i] == s[i]
      {
        assert forall k :: 0 <= k < |init| ==> init[k].0 != i by {
          forall k | 0 <= k < |init| ensures init[k].0 != i {
            assert init[k] == ds[k];
          }
        }
      }
    }
  }

  /** Placing `x` at `p` keeps every position at its old occupant or an id of `ids + [x]`. */
  lemma OccupantStep(s: seq<Option<OeoId>>, t: seq<Option<OeoId>>, u: seq<Option<OeoId>>,
                     ids: seq<OeoId>, p: int, x: OeoId)
    requires |t| == |s| && |u| == |s| && 0 <= p < |s|
    requires u[p] == Some(x) && forall j :: 0 <= j < |s| && j != p ==> u[j] == t[j]
    requires forall i :: 0 <= i < |s| ==> t[i] == s[i] || (t[i].Some? && t[i].value in ids)
    ensures forall i :: 0 <= i < |s| ==> u[i] == s[i] || (u[i].Some? && u[i].value in ids + [x])
  {
    forall i | 0 <= i < |s| && i != p && t[i] != s[i]
      ensures t[i].value in ids + [x]
    {
      assert t[i].value in ids;
    }
  }

  /** The deployed ids of all entries are those of all but the last, then the last's. */
  lemma DeployedIdsSnoc(ds: Deployments)
    requires ds != []
    ensures DeployedIds(ds) == DeployedIds(ds[..|ds| - 1]) + [ds[|ds| - 1].1]
  {
    var init := DeployedIds(ds[..|ds| - 1]);
    forall k | 0 <= k < |ds|
      ensures DeployedIds(ds)[k] == (init + [ds[|ds| - 1].1])[k]
    {
      if k < |ds| - 1 {
        assert init[k] == ds[k].1;
      }
    }
  }

  /** Every position holds its old occupant or one of the deployed ids. */
  lemma {:induction false} ApplyOccupants(s: seq<Option<OeoId>>, ds: Deployments)
    requires forall k :: 0 <= k < |ds| ==> 0 <= ds[k].0 < |s|
    ensures ApplyDeployments(s, ds).Ok? && |ApplyDeployments(s, ds).value| == |s|
    ensures forall i :: 0 <= i < |s| ==> (ApplyDeployments(s, ds).value[i] == s[i]
      || (ApplyDeployments(s, ds).value[i].Some? && ApplyDeployments(s, ds).value[i].value in DeployedIds(ds)))
  {
    ApplyInRange(s, ds);
    if ds != [] {
      var init := ds[..|ds| - 1];
      ApplyOccupants(s, init);
      var last := ds[|ds| - 1];
      var t := ApplyDeployments(s, init).value;
      DeployedIdsSnoc(ds);
      OccupantStep(s, t, ApplyDeployments(s, ds).value, DeployedIds(init), last.0, last.1);
    }
  }

  /** One team's turn of `_choose_deployments`, on that team's side `s`
      (`len` is `len(side)`): nothing happens when the side has no empty
      position or nobody is benched; otherwise the handler's response is
      validated in full before any of it is applied. */
  function DeployTeam(teamId: TeamId, team: set<OeoId>, s: seq<Option<OeoId>>, len: int,
                      conscious: set<OeoId>, h: DeployHandler, step: nat): (r: Result<seq<Option<OeoId>>>)
  {
    var empty := EmptyPositionsOf(s);
    var benched := Benched(team, FieldedOf(s), conscious);
    if empty == [] || benched == {} then Ok(s)
    else
      match h(teamId, benched, empty, step)
      case None => Err(HandlerFailed)
      case Some(ds) =>
        match DeploymentError(ds, len, team, teamId)
        case Some(e) => Err(e)
        case None => ApplyDeployments(s, ds)
  }

  /** What a team's deployments can do: with no empty position or nobody
      benched the side is untouched and the handler is not asked; a failing
      handler or a rejected response is an error; an accepted one only puts
      members of the team into positions. */
  lemma DeployTeamEffect(teamId: TeamId, team: set<OeoId>, s: seq<Option<OeoId>>, len: int,
                         conscious: set<OeoId>, h: DeployHandler, step: nat)
    requires |s| == if len > 0 then len else 0
    ensures EmptyPositionsOf(s) == [] || Benched(team, FieldedOf(s), conscious) == {} ==>
      DeployTeam(teamId, team, s, len, conscious, h, step) == Ok(s)
    ensures EmptyPositionsOf(s) != [] && Benched(team, FieldedOf(s), conscious) != {} ==>
      var response := h(teamId, Benched(team, FieldedOf(s), conscious), EmptyPositionsOf(s), step);
      (response.None? ==> DeployTeam(teamId, team, s, len, conscious, h, step) == Err(HandlerFailed))
      && (response.Some? && DeploymentError(response.value, len, team, teamId).Some? ==>
            DeployTeam(teamId, team, s, len, conscious, h, step) == Err(DeploymentError(response.value, len, team, teamId).value))
    ensures DeployTeam(teamId, team, s, len, conscious, h, step).Ok? ==>
      var t := DeployTeam(teamId, team, s, len, conscious, h, step).value;
      |t| == |s| && forall i :: 0 <= i < |s| ==> t[i] == s[i] || (t[i].Some? && t[i].value in team)
  {
    var empty := EmptyPositionsOf(s);
    var benched := Benched(team, FieldedOf(s), conscious);
    if empty != [] && benched != {} {
      var response := h(teamId, benched, empty, step);
      if response.Some? && DeploymentError(response.value, len, team, teamId).None? {
        var ds := response.value;
        AcceptedDeployments(ds, len, team, teamId);
        assert |s| > 0;
        ApplyInRange(s, ds);
        ApplyOccupants(s, ds);
      }
    }
  }

  // ----- `_choose_actions` and `_poll_actions`

  /** An action response: `{oeo_id: action}`, in the order the dict yields it. */
  type Actions = seq<(OeoId, SimEvent)>

  /** The action handler: team id, the ids requiring actions and the number
      of events processed so far give a response, or none when it fails. */
  type ActionHandler = (TeamId, seq<OeoId>, nat) -> Option<Actions>

  /** `action_map`: one entry per fielded id, holding its action once chosen. */
  type ActionMap = seq<(OeoId, Option<SimEvent>)>

  /** The keys of `{oeo_id: None for oeo_id in ids}`: each id once, where it first occurs. */
  function Dedup(ids: seq<OeoId>): (r: seq<OeoId>)
    ensures forall x :: x in r <==> x in ids
    ensures forall i, j :: 0 <= i < j < |r| ==> r[i] != r[j]
  {
    if ids == [] then []
    else
      var init := Dedup(ids[..|ids| - 1]);
      assert ids == ids[..|ids| - 1] + [ids[|ids| - 1]];
      if ids[|ids| - 1] in init then init else init + [ids[|ids| - 1]]
  }

  /** The ids of `keys` that are in `fielded`, in key order. */
  function Within(keys: seq<OeoId>, fielded: seq<OeoId>): (r: seq<OeoId>)
    ensures forall x :: x in r <==> x in keys && x in fielded
  {
    if keys == [] then []
    else (if keys[0] in fielded then [keys[0]] else []) + Within(keys[1..], fielded)
  }

  /** Each id paired with its speed. */
  function SpeedEntries(ids: seq<OeoId>, speeds: map<OeoId, int>): (r: seq<SpeedOrder.Entry>)
    requires forall x :: x in ids ==> x in speeds
    ensures |r| == |ids|
    ensures forall k :: 0 <= k < |ids| ==> r[k] == SpeedOrder.Entry(ids[k], speeds[ids[k]])
  {
    if ids == [] then [] else [SpeedOrder.Entry(ids[0], speeds[ids[0]])] + SpeedEntries(ids[1..], speeds)
  }

  /** The ids in a stable fastest-first order. */
  function BySpeed(ids: seq<OeoId>, speeds: map<OeoId, int>): (r: seq<OeoId>)
    requires forall x :: x in ids ==> x in speeds
  {
    SpeedOrder.Ids(SpeedOrder.SortBySpeed(SpeedEntries(ids, speeds)))
  }

  /** The stable fastest-first order keeps exactly the ids it is given. */
  lemma BySpeedMembers(ids: seq<OeoId>, speeds: map<OeoId, int>, x: OeoId)
    requires forall y :: y in ids ==> y in speeds
    ensures x in BySpeed(ids, speeds) <==> x in ids
  {
    SpeedOrder.SortKeepsIds(SpeedEntries(ids, speeds), x);
    EntryIds(ids, speeds);
  }

  /** Pairing the ids with their speeds keeps the ids in order. */
  lemma EntryIds(ids: seq<OeoId>, speeds: map<OeoId, int>)
    requires forall y :: y in ids ==> y in speeds
    ensures SpeedOrder.Ids(SpeedEntries(ids, speeds)) == ids
  {
  }

  /** A faster combatant gets a smaller speed rank. */
  lemma FasterHasSmallerRank(ids: seq<OeoId>, speeds: map<OeoId, int>, i: nat, j: nat)
    requires forall y :: y in ids ==> y in speeds
    requires i < |BySpeed(ids, speeds)| && j < |BySpeed(ids, speeds)|
    requires BySpeed(ids, speeds)[i] in speeds && BySpeed(ids, speeds)[j] in speeds
    requires speeds[BySpeed(ids, speeds)[i]] > speeds[BySpeed(ids, speeds)[j]]
    ensures i < j
  {
    var es := SpeedEntries(ids, speeds);
    var sorted := SpeedOrder.SortBySpeed(es);
    SpeedOrder.SortPermutes(es);
    forall m | 0 <= m < |sorted|
      ensures sorted[m].id in speeds && sorted[m].speed == speeds[sorted[m].id]
    {
      assert sorted[m] in multiset(es);
      var k :| 0 <= k < |es| && es[k] == sorted[m];
      assert ids[k] in ids;
    }
    SpeedOrder.FasterComesFirst(es, i, j);
  }

  /** The checks `_poll_actions` makes of one entry, in order: the actor is
      fielded, it is on the team, and the action is not a BeginTurn. */
  function ActionEntryError(act: (OeoId, SimEvent), fielded: seq<OeoId>, team: set<OeoId>, teamId: TeamId): Option<Error> {
    if act.0 !in fielded then Some(NotFielded(act.0))
    else if act.0 !in team then Some(NotOnTeam(act.0, teamId))
    else if act.1.eventType == BeginTurn then Some(BadActionType)
    else None
  }

  /** The first failing entry of a response. */
  function ActionError(acts: Actions, fielded: seq<OeoId>, team: set<OeoId>, teamId: TeamId): (r: Option<Error>)
    ensures r.None? <==> forall k :: 0 <= k < |acts| ==> ActionEntryError(acts[k], fielded, team, teamId).None?
    ensures r.Some? ==> exists k :: (0 <= k < |acts| && r == ActionEntryError(acts[k], fielded, team, teamId)
      && forall i :: 0 <= i < k ==> ActionEntryError(acts[i], fielded, team, teamId).None?)
  {
    if acts == [] then None
    else if ActionEntryError(acts[0], fielded, team, teamId).Some? then ActionEntryError(acts[0], fielded, team, teamId)
    else
      var r := ActionError(acts[1..], fielded, team, teamId);
      assert forall k :: 1 <= k < |acts| ==> acts[k] == acts[1..][k - 1];
      r
  }

  /** An accepted response names fielded members of the team with a UseMove,
      UseItem, Switch or Run action. */
  lemma AcceptedActions(acts: Actions, fielded: seq<OeoId>, team: set<OeoId>, teamId: TeamId)
    requires ActionError(acts, fielded, team, teamId).None?
    ensures forall k :: 0 <= k < |acts| ==>
      acts[k].0 in fielded && acts[k].0 in team && acts[k].1.eventType in {UseMove, UseItem, Switch, Run}
  {
    forall k | 0 <= k < |acts|
      ensures acts[k].0 in fielded && acts[k].0 in team && acts[k].1.eventType in {UseMove, UseItem, Switch, Run}
    {
      assert ActionEntryError(acts[k], fielded, team, teamId).None?;
    }
  }

  /** The ids of an action map, in order. */
  function MapIds(am: ActionMap): (r: seq<OeoId>)
    ensures |r| == |am|
    ensures forall k :: 0 <= k < |am| ==> r[k] == am[k].0
  {
    if am == [] then [] else [am[0].0] + MapIds(am[1..])
  }

  /** Replacing the action of one entry keeps the ids of the map. */
  lemma MapIdsUpdate(am: ActionMap, i: nat, a: Option<SimEvent>)
    requires i < |am|
    ensures MapIds(am[i := (am[i].0, a)]) == MapIds(am)
    ensures DistinctIds(am[i := (am[i].0, a)]) == DistinctIds(am)
  {
    var am' := am[i := (am[i].0, a)];
    assert forall k :: 0 <= k < |am| ==> am'[k].0 == am[k].0;
    assert forall k :: 0 <= k < |am| ==> MapIds(am')[k] == MapIds(am)[k];
  }

  /** An action map with no action chosen yet. */
  function EmptyMap(ids: seq<OeoId>): (r: ActionMap)
    ensures |r| == |ids|
    ensures forall k :: 0 <= k < |ids| ==> r[k] == (ids[k], None)
  {
    if ids == [] then [] else [(ids[0], None)] + EmptyMap(ids[1..])
  }

  /** `action_map[oeo_id] = action` for each entry, refusing an actor that
      already has an action. */
  function Merge(am: ActionMap, acts: Actions): (r: Result<ActionMap>)
    ensures r.Ok? ==> MapIds(r.value) == MapIds(am)
    decreases |acts|
  {
    if acts == [] then Ok(am)
    else
      var id := acts[0].0;
      if id !in MapIds(am) then Err(NotFielded(id))
      else
        var i := IndexOf(MapIds(am), id);
        if am[i].1.Some? then Err(AlreadyActed(id))
        else
          var am' := am[i := (id, Some(acts[0].1))];
          MapIdsUpdate(am, i, Some(acts[0].1));
          Merge(am', acts[1..])
  }

  /** `action_map[oeo_id] = action` for each entry of both responses, in
      order, into the action map `am0`: an actor the map does not name, or
      one that already has an action, raises. */
  method MergeInto(am0: ActionMap, acts: Actions) returns (r: Result<ActionMap>)
    ensures r == Merge(am0, acts)
  {
    var am := am0;
    var k := 0;
    while k < |acts|
      invariant 0 <= k <= |acts|
      invariant Merge(am, acts[k..]) == Merge(am0, acts)
    {
      assert acts[k..][0] == acts[k] && acts[k..][1..] == acts[k + 1..];
      var id := acts[k].0;
      if id !in MapIds(am) {
        return Err(NotFielded(id));
      }
      var i := IndexOf(MapIds(am), id);
      if am[i].1.Some? {
        return Err(AlreadyActed(id));
      }
      am := am[i := (id, Some(acts[k].1))];
      k := k + 1;
    }
    return Ok(am);
  }

  /** The ids of a response, in order. */
  function ActorIds(acts: Actions): (r: seq<OeoId>)
    ensures |r| == |acts|
    ensures forall k :: 0 <= k < |acts| ==> r[k] == acts[k].0
  {
    if acts == [] then [] else [acts[0].0] + ActorIds(acts[1..])
  }

  /** Each id of the map is its own first occurrence. */
  predicate DistinctIds(am: ActionMap) {
    forall i, j :: 0 <= i < j < |am| ==> am[i].0 != am[j].0
  }

  /** No actor is named twice in a response. */
  predicate DistinctActors(acts: Actions) {
    forall i, j :: 0 <= i < j < |acts| ==> acts[i].0 != acts[j].0
  }

  /** Every actor of the response has an entry in the map. */
  predicate ActorsMapped(am: ActionMap, acts: Actions) {
    forall k :: 0 <= k < |acts| ==> acts[k].0 in MapIds(am)
  }

  /** Merging the first action of a response into a free entry, and what is left for the rest. */
  lemma MergeStep(am: ActionMap, acts: Actions)
    requires DistinctIds(am) && ActorsMapped(am, acts)
    requires acts != [] && am[IndexOf(MapIds(am), acts[0].0)].1.None?
    ensures var i := IndexOf(MapIds(am), acts[0].0);
      var am' := am[i := (acts[0].0, Some(acts[0].1))];
      Merge(am, acts) == Merge(am', acts[1..])
      && DistinctIds(am') && ActorsMapped(am', acts[1..]) && MapIds(am') == MapIds(am)
  {
    var i := IndexOf(MapIds(am), acts[0].0);
    assert am[i].0 == acts[0].0;
    var am' := am[i := (acts[0].0, Some(acts[0].1))];
    MapIdsUpdate(am, i, Some(acts[0].1));
    assert Merge(am, acts) == Merge(am', acts[1..]);
    forall k | 0 <= k < |acts[1..]|
      ensures acts[1..][k].0 in MapIds(am')
    {
      assert acts[1..][k] == acts[k + 1];
    }
  }

  /** In a map of distinct ids, an id's first position is its position. */
  lemma IndexOfDistinct(am: ActionMap, i: nat)
    requires DistinctIds(am) && i < |am|
    ensures am[i].0 in MapIds(am) && IndexOf(MapIds(am), am[i].0) == i
  {
    assert MapIds(am)[i] == am[i].0;
  }

  /** A merge that succeeds names only mapped actors whose entries were free. */
  lemma {:induction false} MergeOkFree(am: ActionMap, acts: Actions)
    ensures Merge(am, acts).Ok? ==>
      forall a :: a in acts ==> a.0 in MapIds(am) && am[IndexOf(MapIds(am), a.0)].1.None?
    decreases |acts|
  {
    if acts != [] && acts[0].0 in MapIds(am) {
      var p := IndexOf(MapIds(am), acts[0].0);
      if am[p].1.None? {
        assert am[p].0 == acts[0].0;
        var am' := am[p := (acts[0].0, Some(acts[0].1))];
        var rest := acts[1..];
        MapIdsUpdate(am, p, Some(acts[0].1));
        assert Merge(am, acts) == Merge(am', rest);
        MergeOkFree(am', rest);
        if Merge(am, acts).Ok? {
          forall a | a in acts
            ensures a.0 in MapIds(am) && am[IndexOf(MapIds(am), a.0)].1.None?
          {
            if a != acts[0] {
              assert a in rest;
              assert am'[IndexOf(MapIds(am), a.0)].1.None?;
            }
          }
        }
      }
    }
  }

  /** An actor whose entry already holds an action makes a merge of it fail. */
  lemma MergeFindsAction(am: ActionMap, acts: Actions, i: nat, k: nat)
    requires DistinctIds(am)
    requires i < |am| && am[i].1.Some?
    requires k < |acts| && acts[k].0 == am[i].0
    ensures Merge(am, acts).Err?
  {
    MergeOkFree(am, acts);
    IndexOfDistinct(am, i);
    assert acts[k] in acts;
  }

  /** A response naming some actor twice is refused. */
  lemma {:induction false} MergeRefusesRepeat(am: ActionMap, acts: Actions)
    requires DistinctIds(am) && ActorsMapped(am, acts)
    requires !DistinctActors(acts)
    ensures Merge(am, acts).Err?
    decreases |acts|
  {
    var i := IndexOf(MapIds(am), acts[0].0);
    if am[i].1.None? {
      MergeStep(am, acts);
      var am' := am[i := (acts[0].0, Some(acts[0].1))];
      var rest := acts[1..];
      if k :| 0 <= k < |rest| && rest[k].0 == acts[0].0 {
        MergeFindsAction(am', rest, i, k);
      } else {
        assert !DistinctActors(rest) by {
          var a, b :| 0 <= a < b < |acts| && acts[a].0 == acts[b].0;
          assert a != 0;
          assert rest[a - 1] == acts[a] && rest[b - 1] == acts[b];
        }
        MergeRefusesRepeat(am', rest);
      }
    }
  }

  /** An acceptable response, before any of it is merged. */
  predicate Acceptable(am: ActionMap, acts: Actions) {
    DistinctIds(am) && ActorsMapped(am, acts) && DistinctActors(acts)
    && forall k :: 0 <= k < |acts| ==> am[IndexOf(MapIds(am), acts[k].0)].1.None?
  }

  /** Merging the first action of an acceptable response leaves an acceptable rest. */
  lemma MergeAcceptsRest(am: ActionMap, acts: Actions)
    requires Acceptable(am, acts) && acts != []
    ensures var i := IndexOf(MapIds(am), acts[0].0);
      var am' := am[i := (acts[0].0, Some(acts[0].1))];
      Merge(am, acts) == Merge(am', acts[1..]) && MapIds(am') == MapIds(am)
      && Acceptable(am', acts[1..]) && acts[0].0 !in ActorIds(acts[1..])
  {
    MergeStep(am, acts);
    var i := IndexOf(MapIds(am), acts[0].0);
    var am' := am[i := (acts[0].0, Some(acts[0].1))];
    var rest := acts[1..];
    assert acts[0].0 !in ActorIds(rest) by {
      forall k | 0 <= k < |rest|
        ensures ActorIds(rest)[k] != acts[0].0
      {
        assert rest[k] == acts[k + 1];
      }
    }
    assert DistinctActors(rest) by {
      forall x, y | 0 <= x < y < |rest|
        ensures rest[x].0 != rest[y].0
      {
        assert rest[x] == acts[x + 1] && rest[y] == acts[y + 1];
      }
    }
    forall k | 0 <= k < |rest|
      ensures am'[IndexOf(MapIds(am'), rest[k].0)].1.None?
    {
      assert rest[k] == acts[k + 1];
      assert IndexOf(MapIds(am'), rest[k].0) != i;
    }
  }

  /** An acceptable response leaves the entries of actors it does not name unchanged. */
  lemma {:induction false} MergeAcceptsKeeps(am: ActionMap, acts: Actions)
    requires Acceptable(am, acts)
    ensures Merge(am, acts).Ok?
    ensures forall i :: 0 <= i < |am| && am[i].0 !in ActorIds(acts) ==> Merge(am, acts).value[i] == am[i]
    decreases |acts|
  {
    if acts != [] {
      MergeAcceptsRest(am, acts);
      var i := IndexOf(MapIds(am), acts[0].0);
      var am' := am[i := (acts[0].0, Some(acts[0].1))];
      var rest := acts[1..];
      MergeAcceptsKeeps(am', rest);
      assert ActorIds(acts) == [acts[0].0] + ActorIds(rest);
      forall j | 0 <= j < |am| && am[j].0 !in ActorIds(acts)
        ensures Merge(am', rest).value[j] == am[j]
      {
        assert am'[j] == am[j];
      }
    }
  }

  /** An acceptable response puts each actor's action in that actor's entry. */
  lemma {:induction false} MergeAcceptsSets(am: ActionMap, acts: Actions)
    requires Acceptable(am, acts)
    ensures Merge(am, acts).Ok?
    ensures forall k :: 0 <= k < |acts| ==>
      Merge(am, acts).value[IndexOf(MapIds(am), acts[k].0)] == (acts[k].0, Some(acts[k].1))
    decreases |acts|
  {
    if acts != [] {
      MergeAcceptsRest(am, acts);
      var i := IndexOf(MapIds(am), acts[0].0);
      var am' := am[i := (acts[0].0, Some(acts[0].1))];
      var rest := acts[1..];
      MergeAcceptsSets(am', rest);
      MergeAcceptsKeeps(am', rest);
      var m := Merge(am', rest).value;
      assert m[i] == am'[i];
      forall k | 1 <= k < |acts|
        ensures m[IndexOf(MapIds(am), acts[k].0)] == (acts[k].0, Some(acts[k].1))
      {
        assert acts[k] == rest[k - 1];
      }
    }
  }

  /** A response naming distinct actors with free entries is merged: each
      actor holds its action and every other entry is unchanged. */
  lemma MergeAccepts(am: ActionMap, acts: Actions)
    requires DistinctIds(am) && ActorsMapped(am, acts) && DistinctActors(acts)
    requires forall k :: 0 <= k < |acts| ==> am[IndexOf(MapIds(am), acts[k].0)].1.None?
    ensures Merge(am, acts).Ok?
    ensures forall k :: 0 <= k < |acts| ==>
      Merge(am, acts).value[IndexOf(MapIds(am), acts[k].0)] == (acts[k].0, Some(acts[k].1))
    ensures forall i :: 0 <= i < |am| && am[i].0 !in ActorIds(acts) ==> Merge(am, acts).value[i] == am[i]
  {
    MergeAcceptsSets(am, acts);
    MergeAcceptsKeeps(am, acts);
  }

  /** Into a map of distinct ids whose actors have no action yet, a response
      of mapped actors merges exactly when it names no actor twice. */
  lemma MergeExact(am: ActionMap, acts: Actions)
    requires DistinctIds(am) && ActorsMapped(am, acts)
    requires forall k :: 0 <= k < |acts| ==> am[IndexOf(MapIds(am), acts[k].0)].1.None?
    ensures Merge(am, acts).Ok? <==> DistinctActors(acts)
  {
    if DistinctActors(acts) {
      MergeAccepts(am, acts);
    } else {
      MergeRefusesRepeat(am, acts);
    }
  }

  /** The events one action-map entry schedules: a UseMove action becomes a
      UseMove event of its actor, keyed by the turn, the move's priority and
      the actor's speed rank; other actions schedule nothing. */
  function ScheduleOne(turn: int, entry: (OeoId, Option<SimEvent>), speedList: seq<OeoId>,
                       moves: map<string, Move>): (r: Result<seq<Pending>>)
  {
    match entry.1
    case None => Ok([])
    case Some(action) =>
      if action.eventType != UseMove then Ok([])
      else
        match DataItem(action, TargetIdKey)
        case Err(e) => Err(e)
        case Ok(target) =>
          match DataItem(action, MoveIdKey)
          case Err(e) => Err(e)
          case Ok(moveId) =>
            if moveId !in moves then Err(UnknownMove(moveId))
            else if entry.0 !in speedList then Err(UnknownCombatant(entry.0))
            else
              match EventPriority(turn, moves[moveId].priority, IndexOf(speedList, entry.0))
              case Err(e) => Err(e)
              case Ok(key) =>
                Ok([Pending(SimEvent(UseMove, map[UserIdKey := entry.0, TargetIdKey := target, MoveIdKey := moveId]), key)])
  }

  /** The events the whole action map schedules, in map order: it succeeds
      exactly when every entry does, with at most one event per entry. */
  function Schedule(turn: int, am: ActionMap, speedList: seq<OeoId>, moves: map<string, Move>): (r: Result<seq<Pending>>)
    ensures r.Ok? <==> forall k :: 0 <= k < |am| ==> ScheduleOne(turn, am[k], speedList, moves).Ok?
    ensures r.Ok? ==> |r.value| <= |am|
  {
    if am == [] then Ok([])
    else
      match Schedule(turn, am[..|am| - 1], speedList, moves)
      case Err(e) => Err(e)
      case Ok(q) =>
        match ScheduleOne(turn, am[|am| - 1], speedList, moves)
        case Err(e) => Err(e)
        case Ok(one) => Ok(q + one)
  }

  /** A scheduled event is a well-formed UseMove of turn `turn`: its data are
      exactly user, target and move, and its key lies between the turn's
      BeginTurn and the next one. */
  predicate ScheduledUseMove(p: Pending, turn: int) {
    p.event.eventType == UseMove
    && p.event.data.Keys == {UserIdKey, TargetIdKey, MoveIdKey}
    && KeyLess(BeginTurnKey(turn), p.key) && KeyLess(p.key, BeginTurnKey(turn + 1))
  }

  /** The entries whose action is a UseMove. */
  function UseMoveCount(am: ActionMap): nat {
    if am == [] then 0
    else
      var last := am[|am| - 1];
      UseMoveCount(am[..|am| - 1]) + (if last.1.Some? && last.1.value.eventType == UseMove then 1 else 0)
  }

  /** One entry schedules one event exactly when its action is a UseMove,
      and that event is a well-formed UseMove of the turn by the entry's actor. */
  lemma ScheduleOneEvents(turn: int, entry: (OeoId, Option<SimEvent>), speedList: seq<OeoId>, moves: map<string, Move>)
    requires ScheduleOne(turn, entry, speedList, moves).Ok?
    ensures |ScheduleOne(turn, entry, speedList, moves).value|
      == if entry.1.Some? && entry.1.value.eventType == UseMove then 1 else 0
    ensures forall p :: p in ScheduleOne(turn, entry, speedList, moves).value ==>
      ScheduledUseMove(p, turn) && p.event.data[UserIdKey] == entry.0
  {
    var one := ScheduleOne(turn, entry, speedList, moves).value;
    if one != [] {
      var action := entry.1.value;
      var moveId := action.data[MoveIdKey];
      ActionsWithinTurn(turn, moves[moveId].priority, IndexOf(speedList, entry.0));
    }
  }

  /** Only UseMove actions are scheduled, one event each, and every event is
      a well-formed UseMove of the turn whose user is an actor of the map. */
  lemma {:induction false} ScheduleEvents(turn: int, am: ActionMap, speedList: seq<OeoId>, moves: map<string, Move>)
    requires Schedule(turn, am, speedList, moves).Ok?
    ensures |Schedule(turn, am, speedList, moves).value| == UseMoveCount(am)
    ensures forall p :: p in Schedule(turn, am, speedList, moves).value ==>
      ScheduledUseMove(p, turn) && p.event.data[UserIdKey] in MapIds(am)
  {
    if am != [] {
      var init, last := am[..|am| - 1], am[|am| - 1];
      var q := Schedule(turn, init, speedList, moves).value;
      var one := ScheduleOne(turn, last, speedList, moves).value;
      assert Schedule(turn, am, speedList, moves).value == q + one;
      ScheduleEvents(turn, init, speedList, moves);
      ScheduleOneEvents(turn, last, speedList, moves);
      assert MapIds(am) == MapIds(init) + [last.0];
    }
  }

  /** Once a prefix of the map fails, the whole map fails with that error. */
  lemma {:induction false} SchedulePrefixError(turn: int, am: ActionMap, k: nat, speedList: seq<OeoId>, moves: map<string, Move>)
    requires k <= |am|
    requires Schedule(turn, am[..k], speedList, moves).Err?
    ensures Schedule(turn, am, speedList, moves) == Schedule(turn, am[..k], speedList, moves)
    decreases |am| - k
  {
    if k < |am| {
      assert am[..k + 1][..k] == am[..k];
      SchedulePrefixError(turn, am, k + 1, speedList, moves);
    } else {
      assert am[..k] == am;
    }
  }

  /** The events `_choose_actions` has queued when it stops: all of them, or
      those of the entries before the first failing one. */
  function ScheduledPrefix(turn: int, am: ActionMap, speedList: seq<OeoId>, moves: map<string, Move>): (r: seq<Pending>)
    ensures Schedule(turn, am, speedList, moves).Ok? ==> r == Schedule(turn, am, speedList, moves).value
  {
    if am == [] then []
    else
      var init := am[..|am| - 1];
      match Schedule(turn, init, speedList, moves)
      case Err(_) => ScheduledPrefix(turn, init, speedList, moves)
      case Ok(q) =>
        match ScheduleOne(turn, am[|am| - 1], speedList, moves)
        case Err(_) => q
        case Ok(one) => q + one
  }

  /** When entry k is the first to fail, the queued events are those of the entries before it. */
  lemma {:induction false} ScheduledPrefixStops(turn: int, am: ActionMap, k: nat, speedList: seq<OeoId>, moves: map<string, Move>)
    requires k < |am|
    requires Schedule(turn, am[..k], speedList, moves).Ok?
    requires ScheduleOne(turn, am[k], speedList, moves).Err?
    ensures ScheduledPrefix(turn, am, speedList, moves) == Schedule(turn, am[..k], speedList, moves).value
    decreases |am|
  {
    var init := am[..|am| - 1];
    assert am[..k + 1][..k] == am[..k];
    if |am| == k + 1 {
      assert init == am[..k];
    } else {
      assert init[..k] == am[..k] && init[k] == am[k];
      assert init[..k + 1] == am[..k + 1];
      SchedulePrefixError(turn, init, k + 1, speedList, moves);
      ScheduledPrefixStops(turn, init, k, speedList, moves);
    }
  }

  /** Whatever has been queued when scheduling stops is a well-formed UseMove of the turn. */
  lemma {:induction false} ScheduledPrefixEvents(turn: int, am: ActionMap, speedList: seq<OeoId>, moves: map<string, Move>)
    ensures forall p :: p in ScheduledPrefix(turn, am, speedList, moves) ==> ScheduledUseMove(p, turn)
  {
    if am != [] {
      var init := am[..|am| - 1];
      match Schedule(turn, init, speedList, moves)
      case Err(_) =>
        ScheduledPrefixEvents(turn, init, speedList, moves);
      case Ok(q) =>
        ScheduleEvents(turn, init, speedList, moves);
        if Schedule(turn, am, speedList, moves).Ok? {
          ScheduleEvents(turn, am, speedList, moves);
        }
    }
  }
}
