/** The seventeen elements a combatant or a move can have (core/element.py). */
module Elements {
  import opened Outcomes

  datatype Element =
    | Normal | Fight | Flying | Poison | Ground | Rock | Bug | Ghost | Steel
    | Fire | Water | Grass | Electric | Psychic | Ice | Dragon | Dark

  /** The member name, as `Element.name` gives it. */
  function Name(e: Element): string {
    match e
    case Normal => "Normal"
    case Fight => "Fight"
    case Flying => "Flying"
    case Poison => "Poison"
    case Ground => "Ground"
    case Rock => "Rock"
    case Bug => "Bug"
    case Ghost => "Ghost"
    case Steel => "Steel"
    case Fire => "Fire"
    case Water => "Water"
    case Grass => "Grass"
    case Electric => "Electric"
    case Psychic => "Psychic"
    case Ice => "Ice"
    case Dragon => "Dragon"
    case Dark => "Dark"
  }

  /** The lookup `Element[name]`: the member with that name, or none. */
  function FromName(s: string): (r: Option<Element>)
    ensures r.Some? ==> Name(r.value) == s
    ensures r.None? ==> forall e: Element :: Name(e) != s
  {
    if s == "Normal" then Some(Normal)
    else if s == "Fight" then Some(Fight)
    else if s == "Flying" then Some(Flying)
    else if s == "Poison" then Some(Poison)
    else if s == "Ground" then Some(Ground)
    else if s == "Rock" then Some(Rock)
    else if s == "Bug" then Some(Bug)
    else if s == "Ghost" then Some(Ghost)
    else if s == "Steel" then Some(Steel)
    else if s == "Fire" then Some(Fire)
    else if s == "Water" then Some(Water)
    else if s == "Grass" then Some(Grass)
    else if s == "Electric" then Some(Electric)
    else if s == "Psychic" then Some(Psychic)
    else if s == "Ice" then Some(Ice)
    else if s == "Dragon" then Some(Dragon)
    else if s == "Dark" then Some(Dark)
    else None
  }

  /** Looking a member up by its own name gives that member back. */
  lemma NameRoundTrip(e: Element)
    ensures FromName(Name(e)) == Some(e)
  {
  }
}
