# oeo battle simulator, modelled in Dafny

This project models the core of **oeo**, a turn-based battle simulator for
collectable creatures (the "oeo"). Two teams of oeo face each other across a
field. Each side of the field has a fixed number of positions. Every turn the
teams' decision handlers deploy benched oeo into empty positions and choose one
action for each fielded oeo. The battle keeps a priority queue of simulation
events (BeginTurn, UseMove, UseItem, Switch, Run), keyed by turn, move priority
and speed rank. It pops the event with the smallest key, processes it and logs
it, until one team has nobody conscious or nobody fielded.

The model has one Dafny module per part of the program:

| module | file | models |
|---|---|---|
| `Outcomes` | outcomes.dfy | `Option`, `Result`, `Outcome` and the error kinds the program raises |
| `Lists` | lists.dfy | Python's `list.index` and `list.remove` |
| `Elements` | elements.dfy | `core/element.py`: the element enum and lookup by name |
| `StatSets` | stats.dfy | `core/stats.py`: the six-stat record, its dict form, random IVs |
| `Moves` | moves.dfy | `core/move.py`: move categories, `Move`, `from_json_dict` |
| `SimEvents` | simevent.dfy | `battlesim/simevent.py`: event tags, events, `Action.use_move` |
| `Oeos` | oeo.dfy | `core/oeo.py`: class `Oeo`, its stat formulas and HP setter |
| `Damage` | damage.dfy | `battlesim/damage.py`: the standard damage formula and its factors |
| `Fields` | fields.dfy | `battlesim/field.py`: classes `Side` (an array of positions) and `Field` |
| `SpeedOrder` | speed_order.dfy | the stable fastest-first sort `battle.py` uses |
| `Scheduling` | scheduling.dfy | event keys, the two code tables, the pop of the smallest key |
| `BattleRules` | battle_rules.dfy | the rules `Battle` applies, as functions of the values they read |
| `Battles` | battle.dfy | class `Battle`: construction, the event loop and each handler |

The pure parts of the program (`stats.py`, `damage.py`, `simevent.py`,
`move.py`) are datatypes, functions and lemmas. The parts that change state are
classes:
- `Side` keeps its positions in an `array<Option<OeoId>>` that `deploy` and
  `withdraw` update in place.
- `Oeo` has a mutable `currentHp` and status list.
- `Battle` has the turn number, the pending queue and the processed log as
  fields, and its methods update them.

Most state-changing methods state their whole new state through a function on
the values they read, e.g. `Side.Deploy` against `DeployTo` and
`Battle.QueueActions` against `Schedule`. The event handlers, which change HP,
the turn number and the queue together, do so through two-state predicates
relating the state after to the state before: `UseMoveDone`, `BeginTurnDone`
and `EventDone`. The HP they leave is also stated as a function of the HP
before: `HpAfter` takes a UseMove's damage off its target's HP through the
clamping setter, for every id bound to the target's object, and leaves every
other HP as it was. The loop of `run` is stated pass by pass. A pass starts
from a state (`Snapshot`): the two sides, the conscious combatants, the queue,
the turn number, the processed log and every combatant's HP. `RunPass` gives
the pass's result as `PassResult` of that state (`PassGives`). When the battle
goes on, the pass hands on the state `PassFollows` describes:
- the sides `ChecksFrom` leaves;
- the queue without the popped event, and for a BeginTurn the raised turn, the
  next BeginTurn and the actions polled on the deployed sides (`QueuedFor`);
- the log with the popped event appended, with its key and the code it
  completed with on those sides (`CodeOn`);
- the HP `HpAfter` gives for the popped event on those sides with the pass's
  damage roll, and as conscious combatants those whose new HP is above 0.

`Passes` and `Run` return a ghost trace of the states the passes started from.
The trace begins at the state `run` was called in, with BeginTurn 1 queued.
Each state in it is the one the pass before hands on (`Chain`), so the log
entries and the HP of every state follow from the state before. It ends at the
final state when the fuel runs out. When the battle ended, it ends at the start
of the ending pass: that state gives the result, and the final state is the one
`PassEnded` describes for it (the same log, HP and conscious combatants, the
sides `ChecksFrom` leaves, the queue and turn it leaves).
The properties the program relies on are proved as lemmas about those
functions. Examples:
- withdrawing undoes deploying;
- the speed sort is a stable permutation;
- the event key order matches the decimal order of the source's float keys;
- the event loop keeps its log in key order.

The decision handlers, the random draws and the creature database are
parameters of the model (see "Left out").

## Model

| member | source | states |
|---|---|---|
| `Lists.IndexOf` | battlesim/field.py:53-54 | `list.index`: the result is the first position holding the value |
| `Lists.RemoveFirstMultiset` | core/oeo.py:147-148 | `list.remove` takes away exactly one copy of the value |
| `Elements.FromName` | core/element.py:5-22 | `Element[name]` finds the member with that name, and fails only when no member has it |
| `Elements.NameRoundTrip` | core/element.py:5-22 | looking up an element's own name gives that element back |
| `Moves.CategoryFromName` | core/move.py:11-14 | `MoveCategory[name]` finds the category with that name, and fails only when none has it |
| `Moves.NewMove` | core/move.py:23-39 | the constructor succeeds iff element and category names are valid; the element is checked first; the other fields are kept as given |
| `Moves.FromJsonDict` | core/move.py:79-93 | a dict missing a required key is refused with `MissingKey`; an accepted dict's required fields, and its optional priority and stages, are read off the dict |
| `Moves.FromJsonDictJsonOf` | core/move.py:79-93 | reading back a move's JSON form gives the move (round trip) |
| `Moves.FromJsonDictDefaults` | core/move.py:87-88 | without `priority` and `stages` the move has priority 0 and no stages |
| `StatSets.ToDict` | core/stats.py:6-9 | the dict has exactly the six stat keys, each mapped to its stat |
| `StatSets.FromDict` | core/stats.py:12-19 | succeeds iff all six keys are present, reports an absent key otherwise, and reads each stat from its key |
| `StatSets.FromDictToDict` | core/stats.py:6-19 | `from_dict(to_dict(s)) == s` |
| `StatSets.ToDictFromDict` | core/stats.py:6-19 | `to_dict(from_dict(d))` agrees with `d` on every stat key |
| `StatSets.RandIvs` | core/stats.py:22-27 | every drawn IV is in 0..31 |
| `StatSets.DefaultIsZero` | core/stats.py:5 | every stat defaults to 0 |
| `SimEvents.UseMoveAction` | battlesim/simevent.py:36-37 | `Action.use_move` builds a UseMove event whose data are exactly move and target |
| `SimEvents.DataItem` | battlesim/simevent.py:26-28 | reading the event's data succeeds iff the key is present, and gives its value |
| `SimEvents.UseMoveActionData` | battlesim/simevent.py:17-20 | a use-move action holds the given move and target, and no user |
| `Oeos.StatFormula` | core/oeo.py:196-206 | the result is the floor of ((IV + 2·base + EV/4)·level)/100 + 5, stated with exact reals |
| `Oeos.HpFormula` | core/oeo.py:188-194 | the result is the floor of ((IV + 2·base + EV/4 + 100)·level)/100 + 10, stated with exact reals |
| `Oeos.FormulasLowerBound` | core/oeo.py:188-206 | for non-negative inputs a stat is at least 5 and full HP at least 10 |
| `Oeos.ClampHp` | core/oeo.py:100-106 | the setter's value lies in 0..full HP, an in-range value is kept, and it is positive iff the value and full HP are |
| `Oeos.Oeo.constructor` | core/oeo.py:19-58 | fields are as given; no HP means full HP, a given HP goes through the clamping setter; no status list means the empty list |
| `Oeos.Oeo.Conscious` | core/oeo.py:88-93 | `conscious` is HP above 0, so an oeo with non-negative HP is unconscious exactly at 0 HP |
| `Oeos.Oeo.SetCurrentHp` | core/oeo.py:89-106 | HP becomes the clamped value, stays in 0..full HP, and the oeo is conscious iff the value and full HP are positive |
| `Oeos.Oeo.Heal` | core/oeo.py:208-209 | HP becomes full HP, so the oeo is conscious when full HP is positive |
| `Oeos.Oeo.AddStatusCondition` | core/oeo.py:144-145 | the condition is appended to the list |
| `Oeos.Oeo.RemoveStatusCondition` | core/oeo.py:147-148 | succeeds iff the condition is present, removes its first occurrence, and otherwise fails and changes nothing |
| `Damage.GetDamageFunction` | battlesim/damage.py:11-15 | only `"Standard"` names a damage function; any other id is an error |
| `Damage.SameTypeAttackBonus` | battlesim/damage.py:67-72 | STAB is 1.5 iff the move's element is one of the user's, else 1.0 |
| `Damage.ProductFromIsProduct` | battlesim/damage.py:77-80 | the loop's running product equals the start value times the product of the adjustments |
| `Damage.ElementEffectiveness` | battlesim/damage.py:75-80 | succeeds iff the table has a row for the move's element; the value is the product of the target elements' adjustments, a missing one counting as 1 |
| `Damage.ProductNeutral` | battlesim/damage.py:78-79 | when no target element has an adjustment the effectiveness is 1 |
| `Damage.ProductNonNegative` | battlesim/damage.py:78-79 | non-negative adjustments give a non-negative effectiveness |
| `Damage.ProductImmune` | battlesim/damage.py:78-79 | one zero adjustment makes the effectiveness 0 |
| `Damage.RandomnessFactor` | battlesim/damage.py:91-92 | the factor lies in 0.85..1.0 and is a whole number of hundredths |
| `Damage.ModifierNonNegative` | battlesim/damage.py:47 | the modifier is non-negative when STAB and effectiveness are |
| `Damage.DamageNonNegative` | battlesim/damage.py:58-61 | with non-negative level, attack, power and modifier and a positive defence, the damage is non-negative |
| `Damage.ImmuneTakesNoDamage` | battlesim/damage.py:47-61 | an effectiveness of 0 gives 0 damage |
| `Damage.WorkedExample` | battlesim/damage.py:58-61 | a level-5 user with a 40-power move on equal stats does 7 damage with STAB at the top roll |
| `Damage.CalculateStandardDamage` | battlesim/damage.py:18-64 | a missing table row is an error; a status move is refused; physical moves use attack over defence and special moves special attack over special defence; a zero defence is an error; otherwise the damage is the formula's floor |
| `Fields.ResolvePosition` | battlesim/field.py:74-75 | Python list indexing: a position in -n..n-1 is valid and names slot `position` or `position + n` |
| `Fields.EmptyPositionsOf` | battlesim/field.py:64-66 | the empty positions are exactly the indices of empty slots, in increasing order |
| `Fields.DeployTo` | battlesim/field.py:74-75 | a valid position is overwritten with the id and nothing else changes; an invalid one is `PositionOutOfRange` |
| `Fields.WithdrawFrom` | battlesim/field.py:77-79 | succeeds iff the id is fielded; empties its first position and nothing else; fails with `NotOnSide` otherwise |
| `Fields.FieldedMembership` | battlesim/field.py:60-62 | an id is in `fielded` iff some position holds it |
| `Fields.FieldedUpdate` | battlesim/field.py:60-62 | writing one slot changes the multiset of fielded ids by exactly the old and new occupant |
| `Fields.PartitionLength` | battlesim/field.py:60-66 | every position is either fielded or empty |
| `Fields.EmptyIffNoneFielded` | battlesim/field.py:68-72 | `is_empty` holds iff nobody is fielded, iff every position is empty |
| `Fields.DeployFielded` | battlesim/field.py:74-75 | deploying fields the id and removes the previous occupant, if any |
| `Fields.WithdrawFielded` | battlesim/field.py:77-79 | withdrawing removes one copy of the id from `fielded` and makes its position empty |
| `Fields.DeployWithdrawRoundTrip` | battlesim/field.py:74-79 | deploying an unfielded id into an empty position and withdrawing it restores the side |
| `Fields.Side.constructor` | battlesim/field.py:43-45 | a new side has `max_fielded` positions (none if negative), all empty |
| `Fields.Side.Len` | battlesim/field.py:47-48 | `__len__` returns `max_fielded` as given; on a valid side it is the number of positions when positive, and there are no positions otherwise |
| `Fields.Side.Fielded` | battlesim/field.py:60-62 | every fielded id is held by some position and every occupant is fielded; fielded and empty positions together make up the side |
| `Fields.Side.EmptyPositions` | battlesim/field.py:64-66 | exactly the indices of the empty positions, each once, in increasing order |
| `Fields.Side.IsEmpty` | battlesim/field.py:68-72 | `is_empty()` holds iff nothing is fielded, iff every position is empty |
| `Fields.Side.Index` | battlesim/field.py:53-54 | `index` succeeds iff the id is fielded and gives its first position; `NotOnSide` otherwise |
| `Fields.Side.Deploy` | battlesim/field.py:74-75 | the array becomes `DeployTo` of its old contents, or is unchanged with `PositionOutOfRange` |
| `Fields.Side.Withdraw` | battlesim/field.py:77-79 | the array becomes `WithdrawFrom` of its old contents, or is unchanged with `NotOnSide` |
| `Fields.Field.constructor` | battlesim/field.py:10-12 | two new, distinct sides of the given sizes, all positions empty |
| `Fields.Field.Get` | battlesim/field.py:14-19 | team b's id gives side b, team a's id side a (b wins when the ids coincide), any other id is `UnknownTeam` |
| `Fields.Field.Deploy` | battlesim/field.py:21-27 | deploys on the team's side as `Side.Deploy`, leaving the other side unchanged; an unknown team changes nothing |
| `Fields.Field.Withdraw` | battlesim/field.py:29-36 | withdraws from the team's side as `Side.Withdraw`, leaving the other side unchanged; an unknown team changes nothing |
| `SpeedOrder.SortPermutes` | battlesim/battle.py:280-281 | the speed sort is a permutation of the combatants |
| `SpeedOrder.SortSorted` | battlesim/battle.py:281 | the sorted list is fastest first |
| `SpeedOrder.SortIsStable` | battlesim/battle.py:281 | combatants of equal speed keep their original order (Python's sort is stable) |
| `SpeedOrder.FasterComesFirst` | battlesim/battle.py:281-283 | a strictly faster combatant has a smaller speed rank |
| `SpeedOrder.SortKeepsIds` | battlesim/battle.py:280-283 | an id is in the sorted list exactly when it is in the list given |
| `Scheduling.KeyOrderMatchesDecimal` | battlesim/battle.py:212 | for two-digit codes, ordering keys as (turn, stage, speed) triples is the order of the source's `float("turn.SSPP")` |
| `Scheduling.TurnStageMapMeaning` | battlesim/battle.py:18-19 | the stage table covers move priorities -7..8 and maps p to 10 - p |
| `Scheduling.TurnSpiMapMeaning` | battlesim/battle.py:21-22 | the speed table covers ranks 0..11 and maps r to r + 1 |
| `Scheduling.EventPriority` | battlesim/battle.py:205-212 | a key exists iff priority is in -7..8 and rank in 0..11, the priority being checked first; it is (turn, 10 - priority, rank + 1) |
| `Scheduling.BeginTurnKey` | battlesim/battle.py:95 | a BeginTurn key has the decimal value of the plain turn number |
| `Scheduling.HigherPriorityFirst` | battlesim/battle.py:212 | within a turn a higher move priority is popped first, whatever the speed ranks |
| `Scheduling.FasterRankFirst` | battlesim/battle.py:212 | at equal move priority the smaller speed rank is popped first |
| `Scheduling.ActionsWithinTurn` | battlesim/battle.py:166 | every action of turn t sorts after BeginTurn t and before BeginTurn t + 1 |
| `Scheduling.MinIndex` | battlesim/battle.py:137 | `popitem` takes an item with the smallest key, the first such one |
| `Scheduling.RemoveAt` | battlesim/battle.py:137 | popping removes exactly that item and keeps the others in order |
| `BattleRules.Cleared` | battlesim/battle.py:214-221 | after clearing, each position holding a combatant that is not conscious is empty and every other is unchanged |
| `BattleRules.UnconsciousCount` | battlesim/battle.py:219 | the list to withdraw holds every unconscious fielded id as often as it is fielded, and nothing else |
| `BattleRules.ClearedFieldsNoOneNew` | battlesim/battle.py:214-221 | whoever is fielded after clearing was fielded before and is conscious |
| `BattleRules.ClearedIdempotent` | battlesim/battle.py:214-221 | clearing twice is clearing once |
| `BattleRules.WithdrawUnconscious` | battlesim/battle.py:218-221 | one `withdraw` per listed id empties exactly the unconscious combatants' positions, even an id fielded twice |
| `BattleRules.DeploymentErrorFrom` | battlesim/battle.py:259-271 | no error iff every entry passes its checks; otherwise the error of the first failing entry |
| `BattleRules.AcceptedDeployments` | battlesim/battle.py:259-271 | an accepted response has in-range positions, members of the team only, and no id twice |
| `BattleRules.ApplyInRange` | battlesim/battle.py:248-249 | with in-range positions every deployment lands |
| `BattleRules.ApplyLastWins` | battlesim/battle.py:248-249 | the last entry for a position decides its occupant |
| `BattleRules.ApplyUntouched` | battlesim/battle.py:248-249 | a position no entry names keeps its occupant |
| `BattleRules.DeployTeamEffect` | battlesim/battle.py:237-273 | with no empty position or nobody benched the side is untouched; a failing handler or rejected response is that error; an accepted one only places team members |
| `BattleRules.Merge` | battlesim/battle.py:310-313 | a merge that succeeds keeps the map's ids, in their order |
| `BattleRules.MergeInto` | battlesim/battle.py:310-313 | the merge loop over both responses, entry by entry, gives exactly `Merge` of the map and the responses, whose accepting and refusing cases `MergeAccepts`, `MergeRefusesRepeat` and `MergeExact` state |
| `BattleRules.Dedup` | battlesim/battle.py:290 | the action map's keys are the fielded ids, each once |
| `BattleRules.Within` | battlesim/battle.py:295-300 | a team's ids requiring actions are exactly its fielded map keys |
| `BattleRules.BySpeedMembers` | battlesim/battle.py:297-300 | sorting the ids by speed keeps exactly those ids |
| `BattleRules.FasterHasSmallerRank` | battlesim/battle.py:297-300 | in the sorted list a strictly faster combatant comes first |
| `BattleRules.ActionError` | battlesim/battle.py:339-354 | no error iff every entry is fielded, on the team and not a BeginTurn; otherwise the first failing entry's error |
| `BattleRules.AcceptedActions` | battlesim/battle.py:339-354 | an accepted response names fielded team members with UseMove, UseItem, Switch or Run actions |
| `BattleRules.MergeAccepts` | battlesim/battle.py:310-313 | distinct actors with free entries are merged: each holds its action and every other entry is unchanged |
| `BattleRules.MergeRefusesRepeat` | battlesim/battle.py:310-312 | a response naming an actor twice is refused |
| `BattleRules.MergeExact` | battlesim/battle.py:310-313 | into free entries, a response merges iff it names no actor twice |
| `BattleRules.MergeOkFree` | battlesim/battle.py:310-313 | a merge that succeeds names only mapped actors whose entries were free |
| `BattleRules.Schedule` | battlesim/battle.py:317-327 | scheduling the whole map succeeds iff every entry schedules, and gives at most one event per entry |
| `BattleRules.ScheduleEvents` | battlesim/battle.py:317-327 | only UseMove actions are queued, one event each, each a well-formed UseMove of the turn by an actor of the map |
| `BattleRules.ScheduleOneEvents` | battlesim/battle.py:318-327 | one entry yields exactly one event when its action is a UseMove and none otherwise, and that event is a well-formed UseMove of the turn by the entry's actor |
| `BattleRules.SchedulePrefixError` | battlesim/battle.py:317-327 | once an entry fails, scheduling the whole map fails with that error |
| `BattleRules.ScheduledPrefixStops` | battlesim/battle.py:317-327 | when entry k is the first to fail, the events queued are those of the entries before it |
| `BattleRules.ScheduledPrefixEvents` | battlesim/battle.py:317-327 | whatever is queued when scheduling stops is a well-formed UseMove of the turn |
| `Battles.ActionsQueuedExtends` | battlesim/battle.py:317-327 | choosing actions only appends to the queue |
| `Battles.LogKeepsOrder` | battlesim/battle.py:137-156 | logging an event whose key is no smaller than the logged ones keeps the log in key order |
| `Battles.StepKeepsOrder` | battlesim/battle.py:137-166 | one pop, process and log step keeps the queue ordered: the log in key order, nothing pending before a logged event, each BeginTurn at most one turn ahead |
| `Battles.StepKeepsBeginTurn` | battlesim/battle.py:137-166 | a step leaves some BeginTurn pending, since popping one queues the next |
| `Battles.Battle.constructor` | battlesim/battle.py:24-55 | the battle holds what it is given, at turn 0 with an empty queue and log, on a new field of empty sides |
| `Battles.Battle.Create` | battlesim/battle.py:24-55 | succeeds iff the teams share no id and every known move has a definition; shared ids are `DuplicateIds`; the battle keeps the definitions of the moves its combatants know |
| `Battles.Battle.IsFielded` | battlesim/battle.py:223-231 | true iff the id is among the fielded ids of team a's side or of team b's side |
| `Battles.Battle.SpeedListOrder` | battlesim/battle.py:280-283 | the speed priority list holds exactly the combatants, and a strictly faster one comes before a slower one |
| `Battles.Battle.RemoveUnconsciousFrom` | battlesim/battle.py:218-221 | the team's side becomes `Cleared` of its old contents and the other side is unchanged |
| `Battles.Battle.RemoveUnconscious` | battlesim/battle.py:214-221 | both sides become `Cleared` of their old contents |
| `Battles.Battle.DeployAll` | battlesim/battle.py:248-249 | the side becomes `ApplyDeployments` of its old contents |
| `Battles.Battle.DeployFor` | battlesim/battle.py:237-273 | the team's side becomes `DeployTeam` of its old contents, or is unchanged with that error; the other side is unchanged |
| `Battles.Battle.ChooseDeployments` | battlesim/battle.py:233-249 | team a then team b deploy as `DeployTeam`; a failure of team a changes nothing, and a failure of team b keeps team a's deployments |
| `Battles.Battle.PollActions` | battlesim/battle.py:285-313 | the filled action map is `PolledActions` of the two handlers' responses, or the first error |
| `Battles.Battle.QueueActions` | battlesim/battle.py:317-327 | the queue gains `Schedule` of the map, or, when an entry fails, the events scheduled before it; each added event is a UseMove of the turn |
| `Battles.Battle.ProcessBeginTurn` | battlesim/battle.py:162-173 | on the queue left by the pop, the turn goes up by one, the next BeginTurn is queued after it, then the actions polled on the starting field and speeds are queued as `QueueActions` states (`BeginTurnDone`) |
| `Battles.Battle.QueuePolled` | battlesim/battle.py:166-173 | the next turn's BeginTurn is queued after the popped queue, then the polled actions as `QueueActions` states; a failed poll queues nothing more and raises its error |
| `Battles.Battle.ProcessUseMove` | battlesim/battle.py:175-191 | bad keywords or unknown ids are errors; with both combatants fielded the target's HP drops by the standard damage through the clamp (code 1), else nothing changes (code -1); no other oeo's HP changes and HP stays in range (`UseMoveDone`); the HP map becomes `HpAfterUseMove` of the HP before: when the move hits (`Hits`: valid keywords, known ids, both fielded, damage computed) every id bound to the target's object gets the target's HP less the damage through the clamp, and otherwise no HP changes; the queue is the one left by the pop |
| `Battles.Battle.UseMoveSteps` | battlesim/battle.py:175-191 | the checks of `_process_use_move` in order, as `UseMoveDone` states them; the move completes with code 1 exactly when it `Hits` on the sides before the call; HP stays in range |
| `Battles.Battle.DispatchBeginTurn` | battlesim/battle.py:140-141 | a BeginTurn event does what `_process_begin_turn` does and completes with code 1, or fails with its error; no HP changes |
| `Battles.Battle.DispatchUseMove` | battlesim/battle.py:142-143 | a UseMove event does what `_process_use_move` does with the event's data, and the HP map becomes `HpAfter` the event; turn and queue stay as the pop left them |
| `Battles.Battle.DispatchStub` | battlesim/battle.py:144-152 | UseItem, Switch and Run complete with code 0 and change neither HP, the turn nor the queue left by the pop |
| `Battles.Battle.ProcessEvent` | battlesim/battle.py:140-154 | the dispatch on the tag, as `EventDone`: BeginTurn raises the turn and queues the next BeginTurn and the turn's actions, UseMove changes HP as `UseMoveDone`, the other tags complete with code 0; a completed event's code is `CodeOf` the event; the HP map becomes `HpAfter` the event with the given roll on the sides before the call |
| `Battles.Battle.DispatchNext` | battlesim/battle.py:137-154 | the smallest-key event is popped and dispatched as `EventDone` states, on the queue without it; the field is outside its frame, its fielded ids stay known, a completed event's code is `CodeOf` it, and the HP map becomes `HpAfter` the popped event with roll `rolls(|processed|)` |
| `Battles.Battle.LogOutcome` | battlesim/battle.py:156 | a completed event is appended to the log as (key, event, code), a failed one is not; the queue stays in order against the log and a BeginTurn stays pending |
| `Battles.Battle.ProcessNext` | battlesim/battle.py:136-156 | the smallest-key event is popped and dispatched as `EventDone` states; BeginTurn raises the turn and queues the next BeginTurn, other tags leave the turn and the popped queue; the handler raises exactly the error `DispatchErrorOn` gives for the state before the pop, and then the battle aborts with it and nothing is logged; otherwise the event is logged with `CodeOf` it; the queue order and the pending BeginTurn are preserved; the HP map becomes `HpAfter` the popped event on the sides before the pop with roll `rolls(|processed|)`; a raising handler changes no HP and so no combatant's consciousness, and an event other than a UseMove changes no consciousness; a BeginTurn that completes leaves the popped queue, the next BeginTurn and the actions polled on the field (`QueuedFor`) |
| `Battles.Battle.DeployAndCheckSides` | battlesim/battle.py:120-134 | the sides become the deployments `_choose_deployments` makes (`DeploymentsFrom`); a failed deployment aborts; then team a's side empty is a win for team b, else team b's side empty a win for team a, else the battle goes on |
| `Battles.Battle.DeploymentsFromKnown` | battlesim/battle.py:237-273 | the sides `_choose_deployments` leaves hold only combatants of the battle |
| `Battles.Battle.ChecksFromKnown` | battlesim/battle.py:101-134 | the sides the checks of a pass leave hold only combatants of the battle |
| `Battles.Battle.CheckAndDeploy` | battlesim/battle.py:101-134 | nobody conscious is a draw, else team a all unconscious a win for team b, else team b all unconscious a win for team a, with both sides cleared of the unconscious; otherwise the cleared sides are deployed as `DeploymentsFrom` states and the result is `Aborted` on a failed deployment, a win for team b when team a's side is empty, else a win for team a when team b's side is empty, else the battle goes on; result and sides are `ChecksFrom` of the old state, and no HP changes |
| `Battles.Battle.RunPass` | battlesim/battle.py:100-156 | the result is `PassResult` of the state the pass starts from (`PassGives`): the checks' result when they end the battle, else `Aborted` with the error `DispatchErrorOn` gives for the popped event on the deployed field, else the battle goes on; a pass that goes on hands on the state `PassFollows` describes: the sides `ChecksFrom` gives, the queue without the popped event, for a BeginTurn the raised turn, the next BeginTurn and the actions polled on the deployed sides (`QueuedFor`), the log with the popped event appended with its key and its code on those sides (`CodeOn`), the HP `HpAfter` gives for the event with the pass's roll, and as conscious combatants those whose new HP is above 0; an ending pass logs nothing, changes no HP and leaves the state `PassEnded` describes; the queue stays ordered and a BeginTurn stays pending |
| `Battles.Battle.Passes` | battlesim/battle.py:99-158 | up to `fuel` passes: the ghost trace starts at the state before the first pass, gains one state per logged event, and each of its states is the one the pass before hands on (`Chain` of `PassFollows`), so each state's log entry, HP and conscious combatants are fixed by the state before; when the fuel runs out it ends at the final state and the log grew by one event per pass; an ending result is a decided end condition, the trace ends at the start of the ending pass, whose `PassResult` is the result (`PassGives`) and whose final state is as `PassEnded` states; the log only grows, the queue order and the pending BeginTurn are kept |
| `Battles.Battle.QueueFirstTurn` | battlesim/battle.py:94-95 | the queue gains BeginTurn 1 keyed as turn 1 and nothing else changes in the state a pass starts from; the queue then holds a BeginTurn, and a fresh battle's queue is in order |
| `Battles.Battle.Run` | battlesim/battle.py:81-160 | an unknown team member aborts; otherwise BeginTurn 1 is queued and the passes run as `Passes` states, with a trace that starts at the state `run` was called in with BeginTurn 1 queued and follows `PassFollows` (log entry with `CodeOn` code, HP per `HpAfter`, conscious combatants those with HP above 0) from pass to pass to the final state or to the start of the ending pass; the log only grows and stays in key order, a run that uses up its fuel logs exactly one event per pass, a returned winner or draw is the end condition that holds, and every result but `OutOfFuel` is `PassResult` of the state its last pass started from (`PassGives`), whose final state is as `PassEnded` states |

## Left out

- Logging, file and JSON loading (`Move.load_moves`, `_load_element_effectiveness_map`, `Oeo.load`, `Oeo.save`, `Oeo._load_oeo_base`) are left out. The element-effectiveness table, the move catalogue and each oeo's elements and base stats are parameters.
- `Oeo.create`, `oeo_terminal.py` and `pep8_oeo.py` are not part of this model: they are random creation, a terminal front end and a style script.
- `core/item.py` is not part of this model; a held item is an opaque optional string.
- `Oeo.__init__` type assertions are carried by Dafny's types and are not modelled.
- The event-handler framework (axel) is left out. The deployment and action handlers are function parameters that receive the team, the ids, the empty positions and the number of events processed so far. A handler that raises is `None`.
- The random draws (`randint` in `rand_ivs` and `_randomness_factor`) are parameters: a roll in 85..100 for each processed event, and any values for `RandIvs`.
- Floating point is modelled with exact reals, so rounding of the source's floats is not modelled. The event key is a triple rather than a float; `Scheduling.KeyOrderMatchesDecimal` shows the orders agree.
- `pqdict` ties: `Scheduling.MinIndex` pops the first item with the smallest key. The source leaves the order among equal keys to the heap.
- Python dicts (`{position: oeo_id}`, `{oeo_id: action}`, the action map) are sequences of pairs in the order the dict yields them. Team sets are `set`s, so a handler receives the benched ids as a set.
- A sequence of pairs can repeat a key, which one handler's dict cannot. This is an artefact of the model. A repeated position in a deployment response is applied in turn, so the last entry wins (`BattleRules.ApplyLastWins`). An actor repeated within one action response is refused by `Merge` as `AlreadyActed`, the same check the source makes when team b's response names an actor that team a's already gave an action.
- Python exceptions are `Err`/`Fail` values with an error kind; the messages are not modelled.
- The `else: raise ValueError` branch of the dispatch in `run` is left out: the tag enum has exactly five members, so it cannot be reached.
- `Oeos.Oeo`: the plain property setters of `name`, `moves`, `held_item`, `ivs` and `evs` (core/oeo.py:68-172) are not modelled as methods. `ivs` and `evs` are constants fixed by the constructor, since no part of the battle sets them.
- `Battles.Battle.Passes`: the trace is ghost, and the damage roll of each pass is the given function `rolls` of the log length rather than a draw from a random stream.
- `Battles.Battle.Run`: the loop has a `fuel` bound and returns `OutOfFuel` when it runs out. The source's exit with `victor = None` when the queue empties cannot happen, because a BeginTurn is always pending (proved as `HasBeginTurn`).
- `Battles.Battle.Run`: "DRAW" is a constructor `Draw` of its own, so a team whose id is "DRAW" cannot be confused with a draw.
- `Battles.Battle.ProcessBeginTurn`: the actions are polled before the turn number is raised and the next BeginTurn is queued. Polling reads neither, so the effect is the same.
- `Battles.Battle.ProcessUseMove`: `df_id` is always `"Standard"`, since `Move` has no such attribute and `getattr` falls back to the default.
- `Battles.Battle.DispatchNext`: HP staying in 0..full HP is stated per setter call and by `ProcessUseMove`, not carried through `EventDone` or kept as an invariant of the whole run.
- `Battles.Battle.ProcessNext`: the popped queue is passed to the handler as `base`, which installs it first, rather than being assigned before the dispatch. The state each handler starts from is the same, since the handlers read the queue only to append to it.
- `Moves.FromJsonDict`: JSON values of the wrong kind are refused with `BadValue`, where Python would store them unchecked.
- `Fields.ResolvePosition`: the slot a negative position names is stated as `position + n`, not with `%`.
- `Fields.Side.Len`: Python's `len()` raises `ValueError` when `__len__` returns a negative number; the model returns the negative `max_fielded` instead. The battle calls `len` on a side only in `_poll_deployments`, which runs only when the side has an empty position, and a side built with a negative `max_fielded` has none.
- `Oeos.Oeo.constructor`: the status list is copied into a field, so aliasing between the caller's list and the oeo's is not modelled.
