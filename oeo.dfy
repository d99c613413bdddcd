/** A combatant (core/oeo.py): identity, species data, potentials and
    training values, hit points, moves and status conditions. The battle
    stats are recomputed from the stored fields on every read. */
module Oeos {
  import opened Outcomes
  import opened Elements
  import opened StatSets
  import opened Lists

  /** `_calculate_stat`: floor(((iv + 2 base + ev/4) level) / 100 + 5),
      computed exactly in integers. */
  function StatFormula(iv: int, base: int, ev: int, level: int): (r: int)
    ensures r as real <= ((iv as real + 2.0 * base as real + ev as real / 4.0) * level as real) / 100.0 + 5.0
    ensures ((iv as real + 2.0 * base as real + ev as real / 4.0) * level as real) / 100.0 + 5.0 < r as real + 1.0
  {
    ((4 * iv + 8 * base + ev) * level) / 400 + 5
  }

  /** `_calculate_hp_stat`: floor(((iv + 2 base + ev/4 + 100) level) / 100 + 10). */
  function HpFormula(iv: int, base: int, ev: int, level: int): (r: int)
    ensures r as real <= ((iv as real + 2.0 * base as real + ev as real / 4.0 + 100.0) * level as real) / 100.0 + 10.0
    ensures ((iv as real + 2.0 * base as real + ev as real / 4.0 + 100.0) * level as real) / 100.0 + 10.0 < r as real + 1.0
  {
    ((4 * iv + 8 * base + ev + 400) * level) / 400 + 10
  }

  /** The value the `current_hp` setter stores for `value`. */
  function ClampHp(value: int, fullHp: int): (r: int)
    ensures fullHp >= 0 ==> 0 <= r <= fullHp
    ensures 0 <= value <= fullHp ==> r == value
    ensures r > 0 <==> value > 0 && fullHp > 0
  {
    if value <= 0 then 0
    else if value > fullHp then fullHp
    else value
  }

  /** With non-negative inputs every stat is at least 5 and full HP at least 10. */
  lemma FormulasLowerBound(iv: int, base: int, ev: int, level: int)
    requires iv >= 0 && base >= 0 && ev >= 0 && level >= 0
    ensures StatFormula(iv, base, ev, level) >= 5
    ensures HpFormula(iv, base, ev, level) >= 10
  {
    assert (4 * iv + 8 * base + ev) * level >= 0;
    assert (4 * iv + 8 * base + ev + 400) * level >= 0;
  }

  class Oeo {
    const oeoId: string
    var name: string
    const species: string
    const level: int
    const xp: int
    /** Species data: loaded from a file in the source, given here. */
    const elements: seq<Element>
    const baseStats: Stats
    const ivs: Stats
    const evs: Stats
    var currentHp: int
    var moves: seq<string>
    var statusConditions: seq<string>
    var heldItem: Option<string>

    /** `Oeo.__init__`: an absent HP starts at full HP, a given one goes
        through the clamping setter; absent status conditions are empty. */
    constructor (oeoId: string, name: string, species: string, level: int, xp: int,
                 currentHp: Option<int>, ivs: Stats, evs: Stats, moves: seq<string>,
                 statusConditions: Option<seq<string>>, heldItem: Option<string>,
                 elements: seq<Element>, baseStats: Stats)
      ensures this.oeoId == oeoId && this.name == name && this.species == species
      ensures this.level == level && this.xp == xp && this.ivs == ivs && this.evs == evs
      ensures this.moves == moves && this.heldItem == heldItem
      ensures this.elements == elements && this.baseStats == baseStats
      ensures currentHp.None? ==> this.currentHp == FullHp()
      ensures currentHp.Some? ==> this.currentHp == ClampHp(currentHp.value, FullHp())
      ensures this.statusConditions == if statusConditions.None? then [] else statusConditions.value
    {
      this.oeoId := oeoId;
      this.name := name;
      this.species := species;
      this.level := level;
      this.xp := xp;
      this.elements := elements;
      this.baseStats := baseStats;
      this.ivs := ivs;
      this.evs := evs;
      this.moves := moves;
      this.heldItem := heldItem;
      this.statusConditions := if statusConditions.None? then [] else statusConditions.value;
      new;
      if currentHp.None? {
        this.currentHp := FullHp();
      } else {
        SetCurrentHp(currentHp.value);
      }
    }

    function FullHp(): int
    {
      HpFormula(ivs.hp, baseStats.hp, evs.hp, level)
    }

    function Attack(): int
    {
      StatFormula(ivs.attack, baseStats.attack, evs.attack, level)
    }

    function Defence(): int
    {
      StatFormula(ivs.defence, baseStats.defence, evs.defence, level)
    }

    function SpAttack(): int
    {
      StatFormula(ivs.spAttack, baseStats.spAttack, evs.spAttack, level)
    }

    function SpDefence(): int
    {
      StatFormula(ivs.spDefence, baseStats.spDefence, evs.spDefence, level)
    }

    function Speed(): int
    {
      StatFormula(ivs.speed, baseStats.speed, evs.speed, level)
    }

    /** A combatant is conscious exactly while its HP is positive, so one
        whose HP is in range is unconscious exactly at 0 HP. */
    predicate Conscious(): (r: bool)
      reads this`currentHp
      ensures 0 <= currentHp ==> (!r <==> currentHp == 0)
    {
      currentHp > 0
    }

    /** Within bounds: 0 <= HP <= full HP. */
    predicate HpInRange()
      reads this`currentHp
    {
      0 <= currentHp <= FullHp()
    }

    /** The `current_hp` setter. */
    method SetCurrentHp(value: int)
      modifies this`currentHp
      ensures currentHp == ClampHp(value, FullHp())
      ensures FullHp() >= 0 ==> HpInRange()
      ensures Conscious() <==> value > 0 && FullHp() > 0
    {
      if value <= 0 {
        currentHp := 0;
      } else if value > FullHp() {
        currentHp := FullHp();
      } else {
        currentHp := value;
      }
    }

    /** `heal`: HP back to full, through the setter. */
    method Heal()
      modifies this`currentHp
      ensures FullHp() > 0 ==> currentHp == FullHp() && Conscious()
      ensures FullHp() <= 0 ==> currentHp == 0
    {
      SetCurrentHp(FullHp());
    }

    method AddStatusCondition(condition: string)
      modifies this`statusConditions
      ensures statusConditions == old(statusConditions) + [condition]
    {
      statusConditions := statusConditions + [condition];
    }

    /** `remove_status_condition`: `list.remove`, which fails when absent. */
    method RemoveStatusCondition(condition: string) returns (r: Outcome)
      modifies this`statusConditions
      ensures r.Pass? <==> condition in old(statusConditions)
      ensures r.Pass? ==> statusConditions == RemoveFirst(old(statusConditions), condition)
      ensures r.Fail? ==> statusConditions == old(statusConditions) && r.error == NotOnSide(condition)
    {
      if condition in statusConditions {
        statusConditions := RemoveFirst(statusConditions, condition);
        r := Pass;
      } else {
        r := Fail(NotOnSide(condition));
      }
    }
  }
}
