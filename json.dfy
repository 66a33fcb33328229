/** JSON values as the memory file holds them, and the few ways the program looks into them. */
module Json {

  datatype Option<T> = None | Some(value: T)

  /** A JSON document. Floating-point numbers do not occur in anything the core writes. */
  datatype Json =
    | JNull
    | JBool(b: bool)
    | JInt(i: int)
    | JStr(s: string)
    | JList(items: seq<Json>)
    | JObject(fields: map<string, Json>)

  /** The top-level JSON object of the memory file. */
  type Record = map<string, Json>

  /** Python's `obj.get(key)`: absent keys and non-objects give None. */
  function Get(obj: Json, key: string): (r: Option<Json>)
    ensures r.Some? <==> obj.JObject? && key in obj.fields
    ensures r.Some? ==> r.value == obj.fields[key]
  {
    if obj.JObject? && key in obj.fields then Some(obj.fields[key]) else None
  }

  /** `obj.get(key, default)` read as text: a string field, else the default. */
  function StrOr(obj: Json, key: string, default: string): string
  {
    match Get(obj, key)
    case Some(JStr(s)) => s
    case _ => default
  }

  /** The free text of a life event. */
  function EntryOf(event: Json): string { StrOr(event, "entry", "") }

  /** The `date` string of a life event. */
  function DateOf(event: Json): string { StrOr(event, "date", "") }

  /** The text of a goal. */
  function GoalOf(goal: Json): string { StrOr(goal, "goal", "") }

  /** `goal.get("status") == "active"`. */
  predicate IsActive(goal: Json) { Get(goal, "status") == Some(JStr("active")) }

  /** `event.get("type") == "career"`. */
  predicate IsCareer(event: Json) { Get(event, "type") == Some(JStr("career")) }

  /** Python truthiness of a JSON value. */
  predicate Truthy(j: Json)
  {
    match j
    case JNull => false
    case JBool(b) => b
    case JInt(i) => i != 0
    case JStr(s) => s != ""
    case JList(xs) => xs != []
    case JObject(m) => m != map[]
  }

  /** `obj.get(key, 0)` read as an integer; a non-integer value reads as 0. */
  function IntOr0(obj: Json, key: string): int
  {
    match Get(obj, key)
    case Some(JInt(n)) => n
    case _ => 0
  }

  predicate ListOfObjects(j: Json)
  {
    j.JList? && forall k :: 0 <= k < |j.items| ==> j.items[k].JObject?
  }

  /**
   * The shape the core relies on: whichever of the list and table keys are
   * present hold a list (of objects, for events and goals) or an object.
   */
  predicate Shaped(r: Record)
  {
    && ("life_events" in r ==> ListOfObjects(r["life_events"]))
    && ("goals" in r ==> ListOfObjects(r["goals"]))
    && ("warnings" in r ==> r["warnings"].JList?)
    && ("patterns" in r ==> r["patterns"].JObject?)
    && ("career_plans" in r ==> r["career_plans"].JList?)
  }

  /** A shaped record that has the four keys every manager fills on load. */
  predicate Complete(r: Record)
  {
    Shaped(r) && "life_events" in r && "goals" in r && "warnings" in r && "patterns" in r
  }

  function Events(r: Record): seq<Json>
    requires Complete(r)
  {
    r["life_events"].items
  }

  function Goals(r: Record): seq<Json>
    requires Complete(r)
  {
    r["goals"].items
  }

  function Warnings(r: Record): seq<Json>
    requires Complete(r)
  {
    r["warnings"].items
  }

  function Patterns(r: Record): map<string, Json>
    requires Complete(r)
  {
    r["patterns"].fields
  }

  /** `memory[key].append(item)` on a list-valued key: only that list grows. */
  function AppendItem(r: Record, key: string, item: Json): (r': Record)
    requires key in r && r[key].JList?
    ensures r'.Keys == r.Keys
    ensures r'[key] == JList(r[key].items + [item])
    ensures forall k :: k in r && k != key ==> r'[k] == r[k]
  {
    r[key := JList(r[key].items + [item])]
  }

  /** `memory["patterns"][name] = value`: only that pattern entry changes. */
  function SetPattern(r: Record, name: string, value: Json): (r': Record)
    requires Complete(r)
    ensures Complete(r') && r'.Keys == r.Keys
    ensures Patterns(r') == Patterns(r)[name := value]
    ensures forall k :: k in r && k != "patterns" ==> r'[k] == r[k]
  {
    r["patterns" := JObject(r["patterns"].fields[name := value])]
  }

  /** What `update_pattern` stores under a pattern name. */
  function WrappedPattern(data: Json, now: string): Json
  {
    JObject(map["data" := data, "last_updated" := JStr(now)])
  }
}
