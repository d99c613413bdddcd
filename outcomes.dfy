/** Failure-carrying values shared by every module: the Python code reports
    every failure by raising an exception, which the model returns instead. */
module Outcomes {

  /** A value that may be absent (Python's None). */
  datatype Option<+T> = None | Some(value: T)

  /** The exceptions the core raises, one constructor per cause. */
  datatype Error =
    | UnknownTeam(team: string)             // a team id that is not on the field
    | PositionOutOfRange(position: int)     // a side index outside the slot list
    | NotOnSide(oeo: string)                // list.index / remove of an absent value
    | InvalidElement(element: string)       // a name that is not an Element member
    | InvalidCategory(category: string)     // a name that is not a MoveCategory member
    | MissingKey(key: string)               // a dictionary lookup of an absent key
    | BadValue(key: string)                 // a data value of the wrong kind
    | UnknownDamageFunction(id: string)     // get_damage_function of an unknown id
    | NotDamaging                           // a Status move reached the damage formula
    | DivisionByZero                        // a defence stat of 0
    | DuplicateIds                          // the two teams share a combatant id
    | MissingMove(move: string)             // a referenced move has no definition
    | UnknownCombatant(oeo: string)         // a combatant id that is not in the battle
    | UnknownMove(move: string)             // a move id the battle did not load
    | PriorityOutOfRange(priority: int)     // no entry in the turn-stage table
    | SpeedRankOutOfRange(rank: int)        // no entry in the speed-priority table
    | HandlerFailed                         // a decision handler reported failure
    | DeployedTwice(oeo: string)            // one combatant sent to two positions
    | NotOnTeam(oeo: string, team: string)  // a combatant of another team
    | NotFielded(oeo: string)               // an actor that is not on the field
    | BadActionType                         // an action tag outside the four actions
    | AlreadyActed(oeo: string)             // a second action for one actor in a turn
    | BadEventData                          // event data that does not fit its handler

  /** The result of an operation that returns a value or raises. */
  datatype Result<+T> = Ok(value: T) | Err(error: Error)

  /** The result of an operation that returns nothing or raises. */
  datatype Outcome = Pass | Fail(error: Error)
}
