/** The damage resolver (battlesim/damage.py), over exact reals with an
    integer floor. The element-effectiveness table, loaded from a data file
    in the source, and the random roll are parameters. */
module Damage {
  import opened Outcomes
  import opened Elements
  import opened Moves
  import opened Oeos

  /** Attacking element -> defending element -> multiplier; a defending
      element without an entry counts as 1. */
  type EffectivenessTable = map<Element, map<Element, real>>

  /** The random draw `randint(85, 100)` behind the randomness factor. */
  type Roll = k: int | 85 <= k <= 100 witness 100

  /** The damage functions there are: only the standard formula. */
  datatype DamageFunction = Standard

  /** `get_damage_function`. */
  function GetDamageFunction(dfId: string): (r: Result<DamageFunction>)
    ensures r.Ok? <==> dfId == "Standard"
    ensures r.Err? ==> r.error == UnknownDamageFunction(dfId)
  {
    if dfId == "Standard" then Ok(Standard) else Err(UnknownDamageFunction(dfId))
  }

  /** The loop of `_same_type_attack_bonus`: each matching element sets the bonus to 1.5. */
  function StabFrom(moveElement: Element, elements: seq<Element>, stab: real): (r: real)
    ensures r == if moveElement in elements then 1.5 else stab
  {
    if elements == [] then stab
    else StabFrom(moveElement, elements[1..], if elements[0] == moveElement then 1.5 else stab)
  }

  /** `_same_type_attack_bonus`: 1.5 exactly when the move shares an element with its user. */
  function SameTypeAttackBonus(moveElement: Element, userElements: seq<Element>): (r: real)
    ensures r == if moveElement in userElements then 1.5 else 1.0
  {
    StabFrom(moveElement, userElements, 1.0)
  }

  /** `effectiveness_adjustments.get(element, 1)`. */
  function Adjustment(adjustments: map<Element, real>, e: Element): real {
    if e in adjustments then adjustments[e] else 1.0
  }

  /** The product of two multipliers, named so that the products below are
      unfolded one factor at a time. */
  function Times(x: real, y: real): real {
    x * y
  }

  /** The loop of `_element_effectiveness`: a running product. */
  function ProductFrom(adjustments: map<Element, real>, elements: seq<Element>, acc: real): real {
    if elements == [] then acc
    else ProductFrom(adjustments, elements[1..], Times(acc, Adjustment(adjustments, elements[0])))
  }

  /** The product of the adjustments of the defending elements, as a reference. */
  function Product(adjustments: map<Element, real>, elements: seq<Element>): real {
    if elements == [] then 1.0
    else Times(Adjustment(adjustments, elements[0]), Product(adjustments, elements[1..]))
  }

  /** The loop computes the product, scaled by its starting value. */
  lemma {:induction false} ProductFromIsProduct(adjustments: map<Element, real>, elements: seq<Element>, acc: real)
    ensures ProductFrom(adjustments, elements, acc) == Times(acc, Product(adjustments, elements))
  {
    if elements != [] {
      var a := Adjustment(adjustments, elements[0]);
      var p := Product(adjustments, elements[1..]);
      ProductFromIsProduct(adjustments, elements[1..], Times(acc, a));
      assert Times(Times(acc, a), p) == Times(acc, Times(a, p));
    }
  }

  /** `_element_effectiveness`: fails when the table has no row for the move's element. */
  function ElementEffectiveness(table: EffectivenessTable, moveElement: Element,
                                targetElements: seq<Element>): (r: Result<real>)
    ensures r.Ok? <==> moveElement in table
    ensures r.Ok? ==> r.value == Product(table[moveElement], targetElements)
  {
    if moveElement !in table then Err(MissingKey(Name(moveElement)))
    else
      ProductFromIsProduct(table[moveElement], targetElements, 1.0);
      Ok(ProductFrom(table[moveElement], targetElements, 1.0))
  }

  /** With no entry for any defending element the effectiveness is 1. */
  lemma {:induction false} ProductNeutral(adjustments: map<Element, real>, elements: seq<Element>)
    requires forall e :: e in elements ==> e !in adjustments
    ensures Product(adjustments, elements) == 1.0
  {
    if elements != [] {
      ProductNeutral(adjustments, elements[1..]);
    }
  }

  /** Non-negative table entries give a non-negative effectiveness. */
  lemma {:induction false} ProductNonNegative(adjustments: map<Element, real>, elements: seq<Element>)
    requires forall e :: e in adjustments ==> adjustments[e] >= 0.0
    ensures Product(adjustments, elements) >= 0.0
  {
    if elements != [] {
      ProductNonNegative(adjustments, elements[1..]);
      var a := Adjustment(adjustments, elements[0]);
      assert a >= 0.0;
      assert Times(a, Product(adjustments, elements[1..])) >= 0.0;
    }
  }

  /** One defending element with multiplier 0 makes the move ineffective. */
  lemma {:induction false} ProductImmune(adjustments: map<Element, real>, elements: seq<Element>, e: Element)
    requires e in elements && e in adjustments && adjustments[e] == 0.0
    ensures Product(adjustments, elements) == 0.0
  {
    if elements[0] != e {
      ProductImmune(adjustments, elements[1..], e);
    }
  }

  /** `_critical_modifier`: an extension point, fixed at 1. */
  function CriticalModifier(user: Oeo, move: Move, target: Oeo): real {
    1.0
  }

  /** `_other_modifiers`: an extension point, fixed at 1. */
  function OtherModifiers(user: Oeo, move: Move, target: Oeo): real {
    1.0
  }

  /** `_randomness_factor(0.85, 1.0)`: one of 0.85, 0.86, ..., 1.00. */
  function RandomnessFactor(k: Roll): (r: real)
    ensures 0.85 <= r <= 1.0
    ensures (r * 100.0).Floor as real == r * 100.0
  {
    k as real / 100.0
  }

  /** ((2 level + 10) / 250) (attack / defence) power + 2. */
  function RawDamage(level: int, attack: int, defence: int, power: int): real
    requires defence != 0
  {
    ((2 * level + 10) as real / 250.0) * (attack as real / defence as real) * power as real + 2.0
  }

  /** stab * effectiveness * critical * other * randomness. */
  function Modifier(stab: real, effectiveness: real, critical: real, other: real, k: Roll): real {
    stab * effectiveness * critical * other * RandomnessFactor(k)
  }

  /** floor(raw damage * modifier). */
  function DamageFormula(level: int, attack: int, defence: int, power: int, modifier: real): int
    requires defence != 0
  {
    (RawDamage(level, attack, defence, power) * modifier).Floor
  }

  /** Non-negative multipliers give a non-negative modifier. */
  lemma ModifierNonNegative(stab: real, effectiveness: real, k: Roll)
    requires stab >= 0.0 && effectiveness >= 0.0
    ensures Modifier(stab, effectiveness, 1.0, 1.0, k) >= 0.0
  {
    assert stab * effectiveness >= 0.0;
  }

  /** Damage is never negative for a non-negative level, power and modifier. */
  lemma DamageNonNegative(level: int, attack: int, defence: int, power: int, modifier: real)
    requires level >= 0 && attack >= 0 && defence > 0 && power >= 0 && modifier >= 0.0
    ensures DamageFormula(level, attack, defence, power, modifier) >= 0
  {
    var ratio := attack as real / defence as real;
    assert ratio >= 0.0;
    assert ((2 * level + 10) as real / 250.0) * ratio >= 0.0;
    assert ((2 * level + 10) as real / 250.0) * ratio * power as real >= 0.0;
    var raw := RawDamage(level, attack, defence, power);
    assert raw >= 2.0;
    assert raw * modifier >= 0.0;
  }

  /** A move that affects none of the defending elements deals 0 damage. */
  lemma ImmuneTakesNoDamage(level: int, attack: int, defence: int, power: int, stab: real, k: Roll)
    requires defence != 0
    ensures DamageFormula(level, attack, defence, power, Modifier(stab, 0.0, 1.0, 1.0, k)) == 0
  {
  }

  /** The worked example: level 5, attack 10 against defence 10, power 40,
      same-type bonus, neutral effectiveness, roll 100: raw 5.2, damage 7. */
  lemma WorkedExample()
    ensures RawDamage(5, 10, 10, 40) == 5.2
    ensures DamageFormula(5, 10, 10, 40, Modifier(1.5, 1.0, 1.0, 1.0, 100)) == 7
  {
  }

  /** `calculate_standard_damage`. The bonus and the effectiveness are worked
      out first (a missing table row fails there), then the move's category
      picks the stats: Physical uses attack against defence, Special uses
      special attack against special defence, and Status is refused. */
  function CalculateStandardDamage(user: Oeo, move: Move, target: Oeo,
                                   table: EffectivenessTable, k: Roll): (r: Result<int>)
    ensures move.element !in table ==> r.Err? && r.error.MissingKey?
    ensures move.element in table && move.category == Status ==> r == Err(NotDamaging)
    ensures move.element in table && move.category == Physical ==>
      if target.Defence() == 0 then r == Err(DivisionByZero)
      else r == Ok(DamageFormula(user.level, user.Attack(), target.Defence(), move.power,
                                 Modifier(SameTypeAttackBonus(move.element, user.elements),
                                          Product(table[move.element], target.elements), 1.0, 1.0, k)))
    ensures move.element in table && move.category == Special ==>
      if target.SpDefence() == 0 then r == Err(DivisionByZero)
      else r == Ok(DamageFormula(user.level, user.SpAttack(), target.SpDefence(), move.power,
                                 Modifier(SameTypeAttackBonus(move.element, user.elements),
                                          Product(table[move.element], target.elements), 1.0, 1.0, k)))
  {
    var stab := SameTypeAttackBonus(move.element, user.elements);
    match ElementEffectiveness(table, move.element, target.elements)
    case Err(e) => Err(e)
    case Ok(effectiveness) =>
      var modifier := Modifier(stab, effectiveness, CriticalModifier(user, move, target),
                               OtherModifiers(user, move, target), k);
      match move.category
      case Status => Err(NotDamaging)
      case Physical =>
        if target.Defence() == 0 then Err(DivisionByZero)
        else Ok(DamageFormula(user.level, user.Attack(), target.Defence(), move.power, modifier))
      case Special =>
        if target.SpDefence() == 0 then Err(DivisionByZero)
        else Ok(DamageFormula(user.level, user.SpAttack(), target.SpDefence(), move.power, modifier))
  }
}
