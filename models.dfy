/**
 * models.py: `LifeMemoryManager`, the store the career coach and the
 * analytics use. It reads and writes the same file as `MemoryManager`, but
 * its events carry a `type` and no `id`, its defaults hold a user profile,
 * and its `save_memory` writes the record exactly as given.
 */
module Models {
  import opened Json
  import opened Text
  import opened Store

  /** `default_structure` (models.py:12-22). */
  function DefaultStructure(): (d: Record)
    ensures Complete(d)
    ensures Events(d) == [] && Goals(d) == [] && Warnings(d) == [] && Patterns(d) == map[]
  {
    map[
      "life_events" := JList([]),
      "goals" := JList([]),
      "warnings" := JList([]),
      "patterns" := JObject(map[]),
      "user_profile" := JObject(map[
        "name" := JStr(""),
        "preferences" := JObject(map[]),
        "coaching_style" := JStr("supportive")])]
  }

  /** A life event as `add_life_event` builds it (models.py:55-60): dated today, with a type and no id. */
  function NewTypedEvent(entry: string, eventType: string, today: string, now: string): Json
  {
    JObject(map["date" := JStr(today), "timestamp" := JStr(now), "entry" := JStr(entry), "type" := JStr(eventType)])
  }

  /**
   * The record `add_life_event` saves: one event appended, dated today,
   * with the given entry and type; all other keys unchanged.
   */
  function WithTypedEvent(memory: Record, entry: string, eventType: string, today: string, now: string): (r: Record)
    requires Complete(memory)
    ensures Complete(r) && r.Keys == memory.Keys
    ensures |Events(r)| == |Events(memory)| + 1
    ensures Events(r)[..|Events(memory)|] == Events(memory)
    ensures var e := Events(r)[|Events(memory)|];
      DateOf(e) == today && EntryOf(e) == entry && Get(e, "type") == Some(JStr(eventType)) && Get(e, "id") == None
    ensures Goals(r) == Goals(memory) && Patterns(r) == Patterns(memory) && Warnings(r) == Warnings(memory)
    ensures forall k :: k in memory && k != "life_events" ==> r[k] == memory[k]
  {
    var r := AppendItem(memory, "life_events", NewTypedEvent(entry, eventType, today, now));
    assert Events(r) == Events(memory) + [NewTypedEvent(entry, eventType, today, now)];
    r
  }

  /** An event without an id leaves the ids of the other manager's events at their positions. */
  lemma WithTypedEventKeepsIds(memory: Record, entry: string, eventType: string, today: string, now: string)
    requires Complete(memory) && IdsArePositions(Events(memory))
    ensures IdsArePositions(Events(WithTypedEvent(memory, entry, eventType, today, now)))
  {
    assert Events(WithTypedEvent(memory, entry, eventType, today, now))
        == Events(memory) + [NewTypedEvent(entry, eventType, today, now)];
    IdsStayPositions(Events(memory), NewTypedEvent(entry, eventType, today, now));
  }

  class LifeMemoryManager {
    const file: JsonFile

    constructor (file: JsonFile)
      ensures this.file == file
    {
      this.file := file;
    }

    ghost predicate Valid()
      reads this, file
    {
      file.Valid()
    }

    /** What `load_memory` returns for the file as it stands. */
    ghost function Loaded(): (r: Record)
      reads this, file
      requires Valid()
      ensures Complete(r) && DefaultStructure().Keys <= r.Keys
    {
      match file.stored
      case Holds(data) => WithDefaults(data, DefaultStructure())
      case _ => DefaultStructure()
    }

    /**
     * `load_memory` (models.py:24-38): missing top-level keys, `user_profile`
     * among them, come from the default structure and present keys keep
     * their values; a missing or unparsable file gives the default structure.
     */
    method LoadMemory() returns (memory: Record)
      requires Valid()
      ensures memory == Loaded() && Complete(memory)
      ensures file.stored.Holds? ==> memory.Keys == file.stored.record.Keys + DefaultStructure().Keys
      ensures file.stored.Holds? ==> forall k :: k in file.stored.record ==> memory[k] == file.stored.record[k]
      ensures "user_profile" in memory
      ensures !file.stored.Holds? ==> memory == DefaultStructure()
      ensures !file.stored.Holds? ==> Events(memory) == [] && Goals(memory) == [] && Warnings(memory) == [] && Patterns(memory) == map[]
    {
      match file.stored
      case Holds(data) =>
        memory := FillDefaults(data, DefaultStructure());
      case _ =>
        memory := DefaultStructure();
    }

    /** `save_memory` (models.py:40-48): writes the record as given; False, file unchanged, on an IOError. */
    method SaveMemory(memory: Record) returns (ok: bool)
      requires Valid() && Shaped(memory)
      modifies file
      ensures Valid() && file.writable == old(file.writable)
      ensures ok == file.writable
      ensures file.stored == if ok then Holds(memory) else old(file.stored)
    {
      ok := file.Write(memory);
    }

    /** Loading what was just saved gives it back unchanged. */
    lemma ReloadSaved(memory: Record)
      requires Valid() && Complete(memory) && DefaultStructure().Keys <= memory.Keys
      requires file.stored == Holds(memory)
      ensures Loaded() == memory
    {
      FilledIsIdentity(memory, DefaultStructure());
    }

    /** `add_life_event` (models.py:50-63); the event type defaults to "general". */
    method AddLifeEvent(entry: string, today: string, now: string, eventType: string := "general") returns (ok: bool)
      requires Valid()
      modifies file
      ensures Valid() && file.writable == old(file.writable) && ok == file.writable
      ensures file.stored == if ok then Holds(WithTypedEvent(old(Loaded()), entry, eventType, today, now)) else old(file.stored)
      ensures ok ==> Loaded() == WithTypedEvent(old(Loaded()), entry, eventType, today, now)
    {
      var memory := LoadMemory();
      ok := SaveMemory(WithTypedEvent(memory, entry, eventType, today, now));
      if ok {
        ReloadSaved(WithTypedEvent(memory, entry, eventType, today, now));
      }
    }

    /** `get_recent_events` (models.py:65-68). */
    method GetRecentEvents(limit: int) returns (events: seq<Json>)
      requires Valid()
      ensures events == RecentEvents(Events(Loaded()), limit)
      ensures limit >= 1 ==> events == Last(Events(Loaded()), limit)
      ensures limit >= 1 ==> |events| == Min(limit, |Events(Loaded())|)
    {
      var memory := LoadMemory();
      events := RecentEvents(Events(memory), limit);
      if limit >= 1 {
        RecentEventsPositive(Events(memory), limit);
      }
    }

    /** `add_goal` (models.py:70-83); `created_date` is today's date. */
    method AddGoal(goal: string, targetDate: Option<string>, today: string) returns (ok: bool)
      requires Valid()
      modifies file
      ensures Valid() && file.writable == old(file.writable) && ok == file.writable
      ensures file.stored == if ok then Holds(WithGoal(old(Loaded()), goal, targetDate, today)) else old(file.stored)
      ensures ok ==> Goals(Loaded())[..|old(Goals(Loaded()))|] == old(Goals(Loaded()))
    {
      var memory := LoadMemory();
      ok := SaveMemory(WithGoal(memory, goal, targetDate, today));
      if ok {
        ReloadSaved(WithGoal(memory, goal, targetDate, today));
      }
    }

    /** `get_active_goals` (models.py:85-88). */
    method GetActiveGoals() returns (goals: seq<Json>)
      requires Valid()
      ensures goals == ActiveGoals(Goals(Loaded()))
      ensures IsSubsequence(goals, Goals(Loaded()))
      ensures forall g :: g in goals <==> g in Goals(Loaded()) && IsActive(g)
    {
      var memory := LoadMemory();
      goals := ActiveGoals(Goals(memory));
      ActiveGoalsSpec(Goals(memory));
    }

    /** `update_pattern` (models.py:90-97). */
    method UpdatePattern(name: string, data: Json, now: string) returns (ok: bool)
      requires Valid()
      modifies file
      ensures Valid() && file.writable == old(file.writable) && ok == file.writable
      ensures file.stored == if ok then Holds(SetPattern(old(Loaded()), name, WrappedPattern(data, now))) else old(file.stored)
      ensures ok ==> Loaded() == SetPattern(old(Loaded()), name, WrappedPattern(data, now))
    {
      var memory := LoadMemory();
      ok := SaveMemory(SetPattern(memory, name, WrappedPattern(data, now)));
      if ok {
        ReloadSaved(SetPattern(memory, name, WrappedPattern(data, now)));
      }
    }
  }
}
