/** The six-field stat record of core/stats.py, used for base stats,
    potentials (IVs) and training values (EVs). */
module StatSets {
  import opened Outcomes
  import opened Lists

  /** Every field defaults to 0, as in the named list the source declares. */
  datatype Stats = Stats(hp: int := 0, attack: int := 0, defence: int := 0,
                         spAttack: int := 0, spDefence: int := 0, speed: int := 0)

  /** The six dictionary keys, in the order `from_dict` reads them. */
  const StatKeys: seq<string> := ["hp", "attack", "defence", "sp_attack", "sp_defence", "speed"]

  /** `to_dict`: one entry per field, under its key. */
  function ToDict(s: Stats): (d: map<string, int>)
    ensures d.Keys == set k | k in StatKeys
    ensures d["hp"] == s.hp && d["attack"] == s.attack && d["defence"] == s.defence
    ensures d["sp_attack"] == s.spAttack && d["sp_defence"] == s.spDefence && d["speed"] == s.speed
  {
    map["hp" := s.hp, "attack" := s.attack, "defence" := s.defence,
        "sp_attack" := s.spAttack, "sp_defence" := s.spDefence, "speed" := s.speed]
  }

  /** `from_dict`: reads the six keys in order and fails on the first absent one. */
  function FromDict(d: map<string, int>): (r: Result<Stats>)
    ensures r.Ok? <==> forall k :: k in StatKeys ==> k in d
    ensures r.Err? ==> exists k :: k in StatKeys && k !in d && r.error == MissingKey(k)
    ensures r.Ok? ==>
      && r.value.hp == d["hp"] && r.value.attack == d["attack"]
      && r.value.defence == d["defence"] && r.value.spAttack == d["sp_attack"]
      && r.value.spDefence == d["sp_defence"] && r.value.speed == d["speed"]
  {
    match FirstAbsent(d, StatKeys)
    case Some(k) => Err(MissingKey(k))
    case None =>
      Ok(Stats(d["hp"], d["attack"], d["defence"], d["sp_attack"], d["sp_defence"], d["speed"]))
  }

  /** Writing a record to a dictionary and reading it back gives the record. */
  lemma FromDictToDict(s: Stats)
    ensures FromDict(ToDict(s)) == Ok(s)
  {
  }

  /** A dictionary that reads back to a record holds exactly that record's
      values under the six keys (other keys are ignored). */
  lemma ToDictFromDict(d: map<string, int>)
    requires FromDict(d).Ok?
    ensures forall k :: k in StatKeys ==> ToDict(FromDict(d).value)[k] == d[k]
  {
  }

  /** A potential (IV) lies in 0..31, the range `rand_ivs` draws from. */
  predicate IsPotential(s: Stats) {
    && 0 <= s.hp <= 31 && 0 <= s.attack <= 31 && 0 <= s.defence <= 31
    && 0 <= s.spAttack <= 31 && 0 <= s.spDefence <= 31 && 0 <= s.speed <= 31
  }

  /** `rand_ivs`: six independent draws from 0..31; the draw itself is an
      arbitrary choice within that range. */
  method RandIvs() returns (s: Stats)
    ensures IsPotential(s)
  {
    var hp :| 0 <= hp <= 31;
    var attack :| 0 <= attack <= 31;
    var defence :| 0 <= defence <= 31;
    var spAttack :| 0 <= spAttack <= 31;
    var spDefence :| 0 <= spDefence <= 31;
    var speed :| 0 <= speed <= 31;
    s := Stats(hp, attack, defence, spAttack, spDefence, speed);
  }

  /** The default record has every field 0. */
  lemma DefaultIsZero()
    ensures Stats() == Stats(0, 0, 0, 0, 0, 0)
  {
  }
}
