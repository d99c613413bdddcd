/** Move definitions (core/move.py): an immutable record whose constructor
    validates the element and category names, and its reader from a data
    dictionary. */
module Moves {
  import opened Outcomes
  import opened Lists
  import opened Elements

  datatype MoveCategory = Physical | Special | Status

  function CategoryName(c: MoveCategory): string {
    match c
    case Physical => "Physical"
    case Special => "Special"
    case Status => "Status"
  }

  /** The lookup `MoveCategory[name]`. */
  function CategoryFromName(s: string): (r: Option<MoveCategory>)
    ensures r.Some? ==> CategoryName(r.value) == s
    ensures r.None? ==> forall c: MoveCategory :: CategoryName(c) != s
  {
    if s == "Physical" then Some(Physical)
    else if s == "Special" then Some(Special)
    else if s == "Status" then Some(Status)
    else None
  }

  /** A value read from a move's data dictionary. */
  datatype JsonValue =
    | JNull
    | JBool(b: bool)
    | JNum(n: int)
    | JStr(s: string)
    | JArr(items: seq<JsonValue>)

  /** A move; the fields are read-only, as the source gives only getters. */
  datatype Move = Move(name: string, element: Element, category: MoveCategory,
                       power: int, accuracy: int, makesContact: bool,
                       priority: int, stages: seq<JsonValue>)

  /** `Move.__init__`: the element name is checked first, then the category name. */
  function NewMove(name: string, element: string, category: string, power: int,
                   accuracy: int, makesContact: bool, priority: int,
                   stages: seq<JsonValue>): (r: Result<Move>)
    ensures r.Ok? <==> FromName(element).Some? && CategoryFromName(category).Some?
    ensures FromName(element).None? ==> r == Err(InvalidElement(element))
    ensures FromName(element).Some? && CategoryFromName(category).None? ==>
              r == Err(InvalidCategory(category))
    ensures r.Ok? ==>
      && r.value.name == name && Name(r.value.element) == element
      && CategoryName(r.value.category) == category
      && r.value.power == power && r.value.accuracy == accuracy
      && r.value.makesContact == makesContact && r.value.priority == priority
      && r.value.stages == stages
  {
    match FromName(element)
    case None => Err(InvalidElement(element))
    case Some(e) =>
      match CategoryFromName(category)
      case None => Err(InvalidCategory(category))
      case Some(c) => Ok(Move(name, e, c, power, accuracy, makesContact, priority, stages))
  }

  /** The keys `from_json_dict` reads without a default, in reading order. */
  const RequiredKeys: seq<string> :=
    ["name", "element", "category", "power", "accuracy", "makes_contact"]

  /** The fields `from_json_dict` reads, all present, as a move. */
  ghost predicate Holds(d: map<string, JsonValue>, m: Move) {
    && (forall k :: k in RequiredKeys ==> k in d)
    && d["name"] == JStr(m.name)
    && d["element"] == JStr(Name(m.element))
    && d["category"] == JStr(CategoryName(m.category))
    && d["power"] == JNum(m.power)
    && d["accuracy"] == JNum(m.accuracy)
    && d["makes_contact"] == JBool(m.makesContact)
    && (if "priority" in d then d["priority"] == JNum(m.priority) else m.priority == 0)
    && (if "stages" in d then d["stages"] == JArr(m.stages) else m.stages == [])
  }

  /** `from_json_dict`: a missing required key fails, `priority` defaults
      to 0 and `stages` to the empty list, and the result is validated by
      the constructor. Values of the wrong kind are refused (BadValue). */
  function FromJsonDict(d: map<string, JsonValue>): (r: Result<Move>)
    ensures (exists k :: k in RequiredKeys && k !in d) ==>
              r.Err? && r.error.MissingKey? && r.error.key in RequiredKeys && r.error.key !in d
    ensures r.Ok? ==> Holds(d, r.value)
  {
    match FirstAbsent(d, RequiredKeys)
    case Some(k) => Err(MissingKey(k))
    case None => ReadPresent(d)
  }

  /** The reading of a dictionary that holds every required key. */
  function ReadPresent(d: map<string, JsonValue>): (r: Result<Move>)
    requires forall k :: k in RequiredKeys ==> k in d
    ensures r.Ok? ==> Holds(d, r.value)
  {
    var priority := if "priority" in d then d["priority"] else JNum(0);
    var stages := if "stages" in d then d["stages"] else JArr([]);
    match CheckNames(d["element"], d["category"])
    case Fail(e) => Err(e)
    case Pass =>
      if !d["name"].JStr? then Err(BadValue("name"))
      else if !d["power"].JNum? then Err(BadValue("power"))
      else if !d["accuracy"].JNum? then Err(BadValue("accuracy"))
      else if !d["makes_contact"].JBool? then Err(BadValue("makes_contact"))
      else if !priority.JNum? then Err(BadValue("priority"))
      else if !stages.JArr? then Err(BadValue("stages"))
      else NewMove(d["name"].s, d["element"].s, d["category"].s, d["power"].n,
                   d["accuracy"].n, d["makes_contact"].b, priority.n, stages.items)
  }

  /** The constructor's two name lookups, applied to raw data values: the
      element first, then the category; a value that is not a string names
      no member. */
  function CheckNames(element: JsonValue, category: JsonValue): (r: Outcome)
    ensures r.Pass? <==> && element.JStr? && FromName(element.s).Some?
                         && category.JStr? && CategoryFromName(category.s).Some?
    ensures (!element.JStr? || FromName(element.s).None?) ==> r.Fail? && r.error.InvalidElement?
  {
    if !element.JStr? then Fail(InvalidElement(""))
    else if FromName(element.s).None? then Fail(InvalidElement(element.s))
    else if !category.JStr? then Fail(InvalidCategory(""))
    else if CategoryFromName(category.s).None? then Fail(InvalidCategory(category.s))
    else Pass
  }

  /** The data-file layout of a move: every field under its key. */
  function JsonOf(m: Move): map<string, JsonValue> {
    map["name" := JStr(m.name), "element" := JStr(Name(m.element)),
        "category" := JStr(CategoryName(m.category)), "power" := JNum(m.power),
        "accuracy" := JNum(m.accuracy), "makes_contact" := JBool(m.makesContact),
        "priority" := JNum(m.priority), "stages" := JArr(m.stages)]
  }

  /** Reading back the data-file layout of a move gives the move. */
  lemma FromJsonDictJsonOf(m: Move)
    ensures FromJsonDict(JsonOf(m)) == Ok(m)
  {
    NameRoundTrip(m.element);
    assert CategoryFromName(CategoryName(m.category)) == Some(m.category);
  }

  /** Without `priority` and `stages` keys a move gets priority 0 and no stages. */
  lemma FromJsonDictDefaults(m: Move)
    ensures FromJsonDict(JsonOf(m) - {"priority", "stages"}) == Ok(m.(priority := 0, stages := []))
  {
    NameRoundTrip(m.element);
    assert CategoryFromName(CategoryName(m.category)) == Some(m.category);
    var d := map["name" := JStr(m.name), "element" := JStr(Name(m.element)),
                 "category" := JStr(CategoryName(m.category)), "power" := JNum(m.power),
                 "accuracy" := JNum(m.accuracy), "makes_contact" := JBool(m.makesContact)];
    assert JsonOf(m) - {"priority", "stages"} == d;
    assert FirstAbsent(d, RequiredKeys) == None;
    assert CheckNames(d["element"], d["category"]) == Pass;
    assert ReadPresent(d) == NewMove(m.name, Name(m.element), CategoryName(m.category), m.power,
                                     m.accuracy, m.makesContact, 0, []);
  }
}
