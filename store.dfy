/**
 * The memory file `life_memory.json` as an abstract persisted record, and
 * the key-filling step each manager runs when it loads the file.
 */
module Store {
  import opened Json
  import opened Text

  /** What reading the file yields: no file, a file that cannot be read or parsed, or a JSON object. */
  datatype Stored = Missing | Unreadable | Holds(record: Record)

  /**
   * The one file both memory managers read and overwrite. `writable` stands
   * for whether opening it for writing succeeds (an IOError when it does not).
   */
  class JsonFile {
    var stored: Stored
    var writable: bool

    ghost predicate Valid()
      reads this
    {
      stored.Holds? ==> Shaped(stored.record)
    }

    constructor (stored: Stored, writable: bool)
      requires stored.Holds? ==> Shaped(stored.record)
      ensures Valid() && this.stored == stored && this.writable == writable
    {
      this.stored := stored;
      this.writable := writable;
    }

    /** Overwrite the whole file with `record`, when the file can be written. */
    method Write(record: Record) returns (ok: bool)
      requires Valid() && Shaped(record)
      modifies this
      ensures Valid() && writable == old(writable)
      ensures ok == writable
      ensures stored == if ok then Holds(record) else old(stored)
    {
      ok := writable;
      if ok {
        stored := Holds(record);
      }
    }
  }

  /**
   * The record `load_memory` returns for a stored record: the keys it has
   * keep their values, each missing default key gets its default.
   */
  function WithDefaults(stored: Record, defaults: Record): (r: Record)
    ensures r.Keys == stored.Keys + defaults.Keys
    ensures forall k :: k in stored ==> r[k] == stored[k]
    ensures forall k :: k in defaults && k !in stored ==> r[k] == defaults[k]
  {
    defaults + stored
  }

  /** The loop at memory_manager.py:26-28 and models.py:30-32, over a dict's distinct keys. */
  method FillDefaults(data: Record, defaults: Record) returns (r: Record)
    ensures r == WithDefaults(data, defaults)
  {
    r := data;
    var todo := defaults.Keys;
    while todo != {}
      invariant todo <= defaults.Keys
      invariant r.Keys == data.Keys + (defaults.Keys - todo)
      invariant forall k :: k in data ==> r[k] == data[k]
      invariant forall k :: k in r && k !in data ==> k in defaults && r[k] == defaults[k]
      decreases todo
    {
      var key :| key in todo;
      if key !in r {
        r := r[key := defaults[key]];
      }
      todo := todo - {key};
    }
  }

  /** Filling keeps the shape of a shaped record when the defaults are shaped. */
  lemma WithDefaultsShaped(stored: Record, defaults: Record)
    requires Shaped(stored) && Shaped(defaults)
    ensures Shaped(WithDefaults(stored, defaults))
  {
  }

  /** A record that already has every default key is left as it is. */
  lemma FilledIsIdentity(r: Record, defaults: Record)
    requires defaults.Keys <= r.Keys
    ensures WithDefaults(r, defaults) == r
  {
  }

  /** `list[-limit:] if list else []`: the query both managers answer with `get_recent_events`. */
  function RecentEvents(events: seq<Json>, limit: int): seq<Json>
  {
    if events == [] then [] else PyTail(events, limit)
  }

  /** For `limit >= 1` the answer is the last min(limit, n) events in stored order; none when there are none. */
  lemma RecentEventsPositive(events: seq<Json>, limit: int)
    requires limit >= 1
    ensures RecentEvents(events, limit) == Last(events, limit)
    ensures |RecentEvents(events, limit)| == Min(limit, |events|)
    ensures RecentEvents(events, limit) == events[|events| - Min(limit, |events|)..]
  {
    PyTailPositive(events, limit);
  }

  /** `get_recent_events(0)` takes `list[-0:]`, which is the whole list. */
  lemma RecentEventsZero(events: seq<Json>)
    ensures RecentEvents(events, 0) == events
  {
    PyTailZero(events);
  }

  /** `[goal for goal in goals if goal.get("status") == "active"]`. */
  function ActiveGoals(goals: seq<Json>): seq<Json>
  {
    Filter(goals, IsActive)
  }

  /** The active goals, in stored order: exactly the stored goals whose status is "active". */
  lemma ActiveGoalsSpec(goals: seq<Json>)
    ensures IsSubsequence(ActiveGoals(goals), goals)
    ensures forall g :: g in ActiveGoals(goals) <==> g in goals && IsActive(g)
    ensures |ActiveGoals(goals)| <= |goals|
  {
    FilterSpec(goals, IsActive);
  }

  /** Every item that carries an `id` has its 1-based position as id. */
  predicate IdsArePositions(items: seq<Json>)
  {
    forall k :: 0 <= k < |items| && Get(items[k], "id").Some? ==> Get(items[k], "id") == Some(JInt(k + 1))
  }

  /** Under that invariant no two items share an id. */
  lemma IdsAreUnique(items: seq<Json>, i: int, j: int)
    requires IdsArePositions(items)
    requires 0 <= i < j < |items| && Get(items[i], "id").Some? && Get(items[j], "id").Some?
    ensures Get(items[i], "id") != Get(items[j], "id")
  {
  }

  /** Appending an item numbered one past the count, or one with no id, keeps the invariant. */
  lemma IdsStayPositions(items: seq<Json>, item: Json)
    requires IdsArePositions(items)
    requires Get(item, "id") == None || Get(item, "id") == Some(JInt(|items| + 1))
    ensures IdsArePositions(items + [item])
  {
    var s := items + [item];
    forall k | 0 <= k < |s| && Get(s[k], "id").Some?
      ensures Get(s[k], "id") == Some(JInt(k + 1))
    {
      if k < |items| {
        assert s[k] == items[k];
      }
    }
  }

  /** `target_date`, with Python's None as JSON null. */
  function TargetJson(targetDate: Option<string>): Json
  {
    match targetDate
    case Some(s) => JStr(s)
    case None => JNull
  }

  /**
   * A goal as both managers' `add_goal` build it (memory_manager.py:64-71,
   * models.py:73-80); `created` is the clock reading for `created_date`.
   */
  function NewGoal(id: int, text: string, targetDate: Option<string>, created: string): Json
  {
    JObject(map[
      "id" := JInt(id), "goal" := JStr(text), "status" := JStr("active"),
      "created_date" := JStr(created), "target_date" := TargetJson(targetDate), "progress" := JInt(0)])
  }

  /**
   * The record `add_goal` saves: one goal appended with id one past the
   * previous count, status "active", progress 0 and the given target date.
   */
  function WithGoal(memory: Record, text: string, targetDate: Option<string>, created: string): (r: Record)
    requires Complete(memory)
    ensures Complete(r) && r.Keys == memory.Keys
    ensures Goals(r) == Goals(memory) + [NewGoal(|Goals(memory)| + 1, text, targetDate, created)]
    ensures var g := Goals(r)[|Goals(memory)|];
      Get(g, "id") == Some(JInt(|Goals(memory)| + 1)) && IsActive(g) && GoalOf(g) == text
      && Get(g, "progress") == Some(JInt(0)) && Get(g, "target_date") == Some(TargetJson(targetDate))
    ensures Events(r) == Events(memory) && Patterns(r) == Patterns(memory) && Warnings(r) == Warnings(memory)
    ensures forall k :: k in memory && k != "goals" ==> r[k] == memory[k]
  {
    AppendItem(memory, "goals", NewGoal(|Goals(memory)| + 1, text, targetDate, created))
  }

  /** Appending a goal numbered one past the count keeps goal ids equal to positions. */
  lemma WithGoalKeepsIds(memory: Record, text: string, targetDate: Option<string>, created: string)
    requires Complete(memory) && IdsArePositions(Goals(memory))
    ensures IdsArePositions(Goals(WithGoal(memory, text, targetDate, created)))
  {
    IdsStayPositions(Goals(memory), NewGoal(|Goals(memory)| + 1, text, targetDate, created));
  }
}
