/** Battle events and actions (battlesim/simevent.py). */
module SimEvents {
  import opened Outcomes

  /** The closed set of event tags; an event can carry no other tag. */
  datatype SimEventType = BeginTurn | UseMove | UseItem | Switch | Run

  /** An event: its tag and the keyword data it was built with. The two
      properties `event_type` and `data` are the datatype's fields. */
  datatype SimEvent = SimEvent(eventType: SimEventType, data: map<string, string>)

  /** The keyword names of a move action. */
  const MoveIdKey := "move_id"
  const TargetIdKey := "target_id"
  const UserIdKey := "user_id"

  /** `Action.use_move`: a UseMove event carrying the move and the target. */
  function UseMoveAction(moveId: string, targetId: string): (e: SimEvent)
    ensures e.eventType == UseMove
    ensures e.data.Keys == {MoveIdKey, TargetIdKey}
  {
    SimEvent(UseMove, map[MoveIdKey := moveId, TargetIdKey := targetId])
  }

  /** `data[key]`, failing when the event was built without that keyword. */
  function DataItem(e: SimEvent, key: string): (r: Result<string>)
    ensures r.Ok? <==> key in e.data
    ensures r.Ok? ==> r.value == e.data[key]
  {
    if key in e.data then Ok(e.data[key]) else Err(MissingKey(key))
  }

  /** The move and the target of an action built by `use_move` read back unchanged. */
  lemma UseMoveActionData(moveId: string, targetId: string)
    ensures DataItem(UseMoveAction(moveId, targetId), MoveIdKey) == Ok(moveId)
    ensures DataItem(UseMoveAction(moveId, targetId), TargetIdKey) == Ok(targetId)
    ensures DataItem(UseMoveAction(moveId, targetId), UserIdKey).Err?
  {
  }
}
