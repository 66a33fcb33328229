/**
 * memory_manager.py: `MemoryManager`, the store the life coach uses. Every
 * operation loads the file afresh; the mutators change one part of the
 * loaded record and save the whole record back, stamping `last_updated`.
 */
module Memory {
  import opened Json
  import opened Text
  import opened Store

  /** `default_memory` (memory_manager.py:10-17); both timestamps are taken at construction. */
  function DefaultMemory(createdAt: string): (d: Record)
    ensures Complete(d)
    ensures Events(d) == [] && Goals(d) == [] && Warnings(d) == [] && Patterns(d) == map[]
  {
    map[
      "life_events" := JList([]),
      "goals" := JList([]),
      "patterns" := JObject(map[]),
      "warnings" := JList([]),
      "created_at" := JStr(createdAt),
      "last_updated" := JStr(createdAt)]
  }

  /** A life event as `add_life_event` builds it (memory_manager.py:50-55): an id, no type. */
  function NewEvent(id: int, text: string, now: string): Json
  {
    JObject(map["id" := JInt(id), "date" := JStr(now), "entry" := JStr(text), "timestamp" := JStr(now)])
  }

  /** What `save_memory` writes: the record with `last_updated` set to now (memory_manager.py:38). */
  function Stamp(memory: Record, now: string): (r: Record)
    requires Complete(memory)
    ensures Complete(r) && r.Keys == memory.Keys + {"last_updated"}
    ensures r["last_updated"] == JStr(now)
    ensures forall k :: k in memory && k != "last_updated" ==> r[k] == memory[k]
  {
    memory["last_updated" := JStr(now)]
  }

  /**
   * The record `add_life_event` saves: exactly one event appended, numbered
   * one past the previous count and carrying the given text; goals,
   * patterns, warnings and every other key unchanged.
   */
  function WithEvent(memory: Record, text: string, now: string): (r: Record)
    requires Complete(memory)
    ensures Complete(r) && r.Keys == memory.Keys
    ensures |Events(r)| == |Events(memory)| + 1
    ensures Events(r)[..|Events(memory)|] == Events(memory)
    ensures Get(Events(r)[|Events(memory)|], "id") == Some(JInt(|Events(memory)| + 1))
    ensures EntryOf(Events(r)[|Events(memory)|]) == text
    ensures Goals(r) == Goals(memory) && Patterns(r) == Patterns(memory) && Warnings(r) == Warnings(memory)
    ensures forall k :: k in memory && k != "life_events" ==> r[k] == memory[k]
  {
    var r := AppendItem(memory, "life_events", NewEvent(|Events(memory)| + 1, text, now));
    assert Events(r) == Events(memory) + [NewEvent(|Events(memory)| + 1, text, now)];
    r
  }

  /** Event ids stay equal to 1-based positions: no two events get the same id. */
  lemma WithEventKeepsIds(memory: Record, text: string, now: string)
    requires Complete(memory) && IdsArePositions(Events(memory))
    ensures IdsArePositions(Events(WithEvent(memory, text, now)))
  {
    assert Events(WithEvent(memory, text, now)) == Events(memory) + [NewEvent(|Events(memory)| + 1, text, now)];
    IdsStayPositions(Events(memory), NewEvent(|Events(memory)| + 1, text, now));
  }

  /** The counters `get_memory_stats` reports (memory_manager.py:101-107). */
  datatype MemoryStats = MemoryStats(
    totalEvents: nat, totalGoals: nat, activeGoals: nat, patternsTracked: nat, warnings: nat)

  /** Each counter is the length of the list it counts; active goals are among all goals. */
  function Stats(memory: Record): (s: MemoryStats)
    requires Complete(memory)
    ensures s.totalEvents == |Events(memory)| && s.totalGoals == |Goals(memory)|
    ensures s.activeGoals == |ActiveGoals(Goals(memory))| && s.activeGoals <= s.totalGoals
    ensures s.patternsTracked == |Patterns(memory)| && s.warnings == |Warnings(memory)|
  {
    MemoryStats(|Events(memory)|, |Goals(memory)|, |ActiveGoals(Goals(memory))|,
                |Patterns(memory)|, |Warnings(memory)|)
  }

  class MemoryManager {
    const file: JsonFile
    const createdAt: string

    /** `MemoryManager(memory_file)`; `now` is the clock reading the defaults are stamped with. */
    constructor (file: JsonFile, now: string)
      ensures this.file == file && createdAt == now
    {
      this.file := file;
      createdAt := now;
    }

    ghost predicate Valid()
      reads this, file
    {
      file.Valid()
    }

    /** What `load_memory` returns for the file as it stands. */
    ghost function Loaded(): (r: Record)
      reads this, file
      requires Valid()
      ensures Complete(r) && DefaultMemory(createdAt).Keys <= r.Keys
    {
      match file.stored
      case Holds(data) => WithDefaults(data, DefaultMemory(createdAt))
      case _ => DefaultMemory(createdAt)
    }

    /**
     * `load_memory` (memory_manager.py:19-33): a stored record keeps every key
     * it has and gains each missing default key; a missing or unreadable
     * file gives the default record.
     */
    method LoadMemory() returns (memory: Record)
      requires Valid()
      ensures memory == Loaded() && Complete(memory)
      ensures file.stored.Holds? ==> memory.Keys == file.stored.record.Keys + DefaultMemory(createdAt).Keys
      ensures file.stored.Holds? ==> forall k :: k in file.stored.record ==> memory[k] == file.stored.record[k]
      ensures !file.stored.Holds? ==> memory == DefaultMemory(createdAt)
      ensures !file.stored.Holds? ==> Events(memory) == [] && Goals(memory) == [] && Warnings(memory) == []
    {
      match file.stored
      case Holds(data) =>
        memory := FillDefaults(data, DefaultMemory(createdAt));
      case _ =>
        memory := DefaultMemory(createdAt);
    }

    /**
     * `save_memory` (memory_manager.py:35-44): stamps `last_updated` and
     * overwrites the file; False, and the file unchanged, on an IOError.
     */
    method SaveMemory(memory: Record, now: string) returns (ok: bool)
      requires Valid() && Complete(memory)
      modifies file
      ensures Valid() && file.writable == old(file.writable)
      ensures ok == file.writable
      ensures file.stored == if ok then Holds(Stamp(memory, now)) else old(file.stored)
    {
      ok := file.Write(Stamp(memory, now));
    }

    /** Loading what was just saved gives it back unchanged. */
    lemma ReloadSaved(memory: Record, now: string)
      requires Valid() && Complete(memory) && DefaultMemory(createdAt).Keys <= memory.Keys
      requires file.stored == Holds(Stamp(memory, now))
      ensures Loaded() == Stamp(memory, now)
    {
      FilledIsIdentity(Stamp(memory, now), DefaultMemory(createdAt));
    }

    /** `add_life_event` (memory_manager.py:46-58). */
    method AddLifeEvent(text: string, now: string) returns (ok: bool)
      requires Valid()
      modifies file
      ensures Valid() && file.writable == old(file.writable) && ok == file.writable
      ensures file.stored == if ok then Holds(Stamp(WithEvent(old(Loaded()), text, now), now)) else old(file.stored)
      ensures ok ==> Loaded() == Stamp(WithEvent(old(Loaded()), text, now), now)
    {
      var memory := LoadMemory();
      ok := SaveMemory(WithEvent(memory, text, now), now);
      if ok {
        ReloadSaved(WithEvent(memory, text, now), now);
      }
    }

    /** `add_goal` (memory_manager.py:60-74). */
    method AddGoal(text: string, targetDate: Option<string>, now: string) returns (ok: bool)
      requires Valid()
      modifies file
      ensures Valid() && file.writable == old(file.writable) && ok == file.writable
      ensures file.stored == if ok then Holds(Stamp(WithGoal(old(Loaded()), text, targetDate, now), now)) else old(file.stored)
      ensures ok ==> Loaded() == Stamp(WithGoal(old(Loaded()), text, targetDate, now), now)
    {
      var memory := LoadMemory();
      ok := SaveMemory(WithGoal(memory, text, targetDate, now), now);
      if ok {
        ReloadSaved(WithGoal(memory, text, targetDate, now), now);
      }
    }

    /** `get_recent_events` (memory_manager.py:76-79). */
    method GetRecentEvents(limit: int) returns (events: seq<Json>)
      requires Valid()
      ensures events == RecentEvents(Events(Loaded()), limit)
      ensures limit >= 1 ==> events == Last(Events(Loaded()), limit)
      ensures limit >= 1 ==> |events| == Min(limit, |Events(Loaded())|)
    {
      var memory := LoadMemory();
      events := RecentEvents(Events(memory), limit);
      if limit >= 1 {
        RecentEventsPositive(Events(memory), limit);
      }
    }

    /** `get_active_goals` (memory_manager.py:81-84). */
    method GetActiveGoals() returns (goals: seq<Json>)
      requires Valid()
      ensures goals == ActiveGoals(Goals(Loaded()))
      ensures IsSubsequence(goals, Goals(Loaded()))
      ensures forall g :: g in goals <==> g in Goals(Loaded()) && IsActive(g)
    {
      var memory := LoadMemory();
      goals := ActiveGoals(Goals(memory));
      ActiveGoalsSpec(Goals(memory));
    }

    /** `update_pattern` (memory_manager.py:86-95). */
    method UpdatePattern(name: string, data: Json, now: string) returns (ok: bool)
      requires Valid()
      modifies file
      ensures Valid() && file.writable == old(file.writable) && ok == file.writable
      ensures file.stored == if ok then Holds(Stamp(SetPattern(old(Loaded()), name, WrappedPattern(data, now)), now)) else old(file.stored)
      ensures ok ==> Patterns(Loaded()) == old(Patterns(Loaded()))[name := WrappedPattern(data, now)]
      ensures ok ==> Events(Loaded()) == old(Events(Loaded())) && Goals(Loaded()) == old(Goals(Loaded()))
    {
      var memory := LoadMemory();
      ok := SaveMemory(SetPattern(memory, name, WrappedPattern(data, now)), now);
      if ok {
        ReloadSaved(SetPattern(memory, name, WrappedPattern(data, now)), now);
      }
    }

    /** `get_memory_stats` (memory_manager.py:97-107). */
    method GetMemoryStats() returns (s: MemoryStats)
      requires Valid()
      ensures s == Stats(Loaded())
      ensures s.totalEvents == |Events(Loaded())| && s.totalGoals == |Goals(Loaded())|
      ensures s.activeGoals <= s.totalGoals
    {
      var memory := LoadMemory();
      s := Stats(memory);
    }
  }
}
