/**
 * life_coach.py: `LifeCoach`, which records every user message as a life
 * event, answers it through the language-model API or a keyword fallback,
 * and keeps a rolling mood window and pattern warnings in the memory file
 * through a `MemoryManager`.
 */
module LifeCoaching {
  import opened Json
  import opened Text
  import opened Store
  import opened Memory

  // ---------------------------------------------------------------------
  // Message mood score (life_coach.py:140-152)

  const PositiveMoodWords: seq<string> := ["happy", "excited", "great", "awesome", "good", "wonderful", "amazing"]

  const NegativeMoodWords: seq<string> := ["sad", "depressed", "anxious", "worried", "stressed", "difficult", "hard"]

  /**
   * The mood of a message: the positive words it contains minus the negative
   * ones, so within [-7, 7]; positive only when some positive word occurs.
   */
  function MessageMoodScore(message: string): (score: int)
    ensures -7 <= score <= 7
    ensures score > 0 ==> AnyIn(PositiveMoodWords, Lower(message))
    ensures score < 0 ==> AnyIn(NegativeMoodWords, Lower(message))
    ensures !AnyIn(PositiveMoodWords, Lower(message)) && !AnyIn(NegativeMoodWords, Lower(message)) ==> score == 0
  {
    CountIn(PositiveMoodWords, Lower(message)) - CountIn(NegativeMoodWords, Lower(message))
  }

  /** The two counting loops of `_analyze_patterns`. */
  method MoodScoreOf(message: string) returns (score: int)
    ensures score == MessageMoodScore(message)
  {
    var text := Lower(message);
    score := 0;
    for i := 0 to |PositiveMoodWords|
      invariant score == CountIn(PositiveMoodWords[..i], text)
    {
      assert PositiveMoodWords[..i + 1] == PositiveMoodWords[..i] + [PositiveMoodWords[i]];
      CountInAppend(PositiveMoodWords[..i], PositiveMoodWords[i], text);
      if Contains(text, PositiveMoodWords[i]) {
        score := score + 1;
      }
    }
    assert PositiveMoodWords[..|PositiveMoodWords|] == PositiveMoodWords;
    for i := 0 to |NegativeMoodWords|
      invariant score == CountIn(PositiveMoodWords, text) - CountIn(NegativeMoodWords[..i], text)
    {
      assert NegativeMoodWords[..i + 1] == NegativeMoodWords[..i] + [NegativeMoodWords[i]];
      CountInAppend(NegativeMoodWords[..i], NegativeMoodWords[i], text);
      if Contains(text, NegativeMoodWords[i]) {
        score := score - 1;
      }
    }
    assert NegativeMoodWords[..|NegativeMoodWords|] == NegativeMoodWords;
  }

  // ---------------------------------------------------------------------
  // The mood window (life_coach.py:155-162)

  /** A dict whose `scores` and `dates` are lists: what the window code can append to. */
  predicate ReadableWindow(p: Json)
  {
    p.JObject? && "scores" in p.fields && p.fields["scores"].JList? && "dates" in p.fields && p.fields["dates"].JList?
  }

  function Scores(p: Json): seq<Json>
    requires ReadableWindow(p)
  {
    p.fields["scores"].items
  }

  function Dates(p: Json): seq<Json>
    requires ReadableWindow(p)
  {
    p.fields["dates"].items
  }

  /** The window started from the default `{'scores': [], 'dates': []}`. */
  function NewWindow(score: int, today: string): (w: Json)
    ensures ReadableWindow(w) && Scores(w) == [JInt(score)] && Dates(w) == [JStr(today)]
  {
    JObject(map["scores" := JList([JInt(score)]), "dates" := JList([JStr(today)])])
  }

  /**
   * One step of the window: the score and date are appended, both lists are
   * cut to their last 30 when the scores exceed 30, and every other key of
   * the dict stays as it was. Equal lengths stay equal.
   */
  function SlideWindow(p: Json, score: int, today: string): (q: Json)
    requires ReadableWindow(p)
    ensures ReadableWindow(q) && q.fields.Keys == p.fields.Keys
    ensures forall k :: k in p.fields && k != "scores" && k != "dates" ==> q.fields[k] == p.fields[k]
    ensures Scores(q) == Last(Scores(p) + [JInt(score)], 30)
    ensures |Scores(q)| == Min(|Scores(p)| + 1, 30) && Scores(q)[|Scores(q)| - 1] == JInt(score)
    ensures |Scores(p)| == |Dates(p)| ==> Dates(q) == Last(Dates(p) + [JStr(today)], 30) && |Dates(q)| == |Scores(q)|
  {
    var scores := Scores(p) + [JInt(score)];
    var dates := Dates(p) + [JStr(today)];
    if |scores| > 30 then
      JObject(p.fields["scores" := JList(scores[|scores| - 30..])]["dates" := JList(Last(dates, 30))])
    else
      JObject(p.fields["scores" := JList(scores)]["dates" := JList(dates)])
  }

  /**
   * The window `_analyze_patterns` hands to `update_pattern`, given the
   * stored `patterns['mood_trends']` entry: a new window when there is none,
   * the slid window when the entry has top-level `scores` and `dates` lists,
   * and None when reading it raises (the exception is swallowed).
   */
  function MoodUpdate(stored: Option<Json>, score: int, today: string): (w: Option<Json>)
    ensures w.Some? ==> ReadableWindow(w.value)
    ensures stored.None? ==> w == Some(NewWindow(score, today))
  {
    match stored
    case None => Some(NewWindow(score, today))
    case Some(p) => if ReadableWindow(p) then Some(SlideWindow(p, score, today)) else None
  }

  /**
   * `all(score < 0 for score in recent_scores)`, short-circuiting: None when
   * a comparison raises before a non-negative score is met.
   */
  function AllNegative(scores: seq<Json>): (r: Option<bool>)
    ensures r == Some(true) <==> forall k :: 0 <= k < |scores| ==> scores[k].JInt? && scores[k].i < 0
  {
    if scores == [] then Some(true)
    else
      match scores[0]
      case JInt(n) =>
        if n < 0 then
          var rest := AllNegative(scores[1..]);
          assert forall k :: 0 < k < |scores| ==> scores[k] == scores[1..][k - 1];
          rest
        else Some(false)
      case JBool(_) => Some(false)
      case _ => None
  }

  function WarningText(today: string): string
  {
    "Pattern detected: Multiple negative mood " + "indicators in recent entries (" + today + ")"
  }

  function StoredMood(memory: Record): Option<Json>
    requires Complete(memory)
  {
    if "mood_trends" in Patterns(memory) then Some(Patterns(memory)["mood_trends"]) else None
  }

  /** The warning rule: at least five scores, the last five negative, and the warning not yet recorded. */
  predicate Warns(window: Json, memory: Record, today: string)
    requires ReadableWindow(window) && Complete(memory)
  {
    && |Scores(window)| >= 5
    && AllNegative(Last(Scores(window), 5)) == Some(true)
    && JStr(WarningText(today)) !in Warnings(memory)
  }

  /**
   * The snapshot `_analyze_patterns` saves when it warns: the window it
   * mutated in place sits unwrapped under `mood_trends`, and the warning is
   * appended; events and goals are those of the snapshot.
   */
  function WarnedRecord(memory: Record, window: Json, today: string): (r: Record)
    requires Complete(memory)
    ensures Complete(r) && r.Keys == memory.Keys
    ensures Events(r) == Events(memory) && Goals(r) == Goals(memory)
    ensures Warnings(r) == Warnings(memory) + [JStr(WarningText(today))]
    ensures Patterns(r) == Patterns(memory)["mood_trends" := window]
  {
    AppendItem(SetPattern(memory, "mood_trends", window), "warnings", JStr(WarningText(today)))
  }

  /**
   * The record whose stamped form `_analyze_patterns` leaves in the file, for
   * the file's record `loaded` and the caller's snapshot `memory`; None when
   * it writes nothing.
   */
  function PatternOutcome(loaded: Record, memory: Record, score: int, today: string, now: string): Option<Record>
    requires Complete(loaded) && Complete(memory)
  {
    match MoodUpdate(StoredMood(memory), score, today)
    case None => None
    case Some(w) =>
      if Warns(w, memory, today) then Some(WarnedRecord(memory, w, today))
      else Some(SetPattern(loaded, "mood_trends", WrappedPattern(w, now)))
  }

  /**
   * Run on the file's own record, `_analyze_patterns` keeps the events and
   * goals, and appends at most the one warning, only under the warning rule.
   */
  lemma PatternOutcomeSpec(memory: Record, score: int, today: string, now: string)
    requires Complete(memory)
    ensures var o := PatternOutcome(memory, memory, score, today, now);
      o.Some? ==> Complete(o.value) && Events(o.value) == Events(memory) && Goals(o.value) == Goals(memory)
    ensures var o := PatternOutcome(memory, memory, score, today, now);
      var w := MoodUpdate(StoredMood(memory), score, today);
      o.Some? ==> (Warnings(o.value) == Warnings(memory) + [JStr(WarningText(today))] <==> Warns(w.value, memory, today))
    ensures var o := PatternOutcome(memory, memory, score, today, now);
      var w := MoodUpdate(StoredMood(memory), score, today);
      o.Some? && !Warns(w.value, memory, today) ==> Warnings(o.value) == Warnings(memory)
  {
    var o := PatternOutcome(memory, memory, score, today, now);
    if o.Some? {
      var w := MoodUpdate(StoredMood(memory), score, today).value;
      if !Warns(w, memory, today) {
        assert |Warnings(o.value)| == |Warnings(memory)|;
      }
    }
  }

  /** Warnings never repeat: the rule appends only a warning that is not yet present. */
  lemma WarningsStayDistinct(memory: Record, score: int, today: string, now: string)
    requires Complete(memory) && Distinct(Warnings(memory))
    ensures var o := PatternOutcome(memory, memory, score, today, now);
      o.Some? ==> Distinct(Warnings(o.value))
  {
    var o := PatternOutcome(memory, memory, score, today, now);
    if o.Some? {
      var w := MoodUpdate(StoredMood(memory), score, today).value;
      if Warns(w, memory, today) {
        DistinctAppend(Warnings(memory), JStr(WarningText(today)));
      }
    }
  }

  // ---------------------------------------------------------------------
  // Successive calls: the window as written and as evidently intended

  /** One call of `_analyze_patterns`: the message's score, today's date and the clock reading. */
  datatype Reading = Reading(score: int, today: string, now: string)

  function ReadingScore(r: Reading): Json { JInt(r.score) }

  function ReadingDate(r: Reading): Json { JStr(r.today) }

  /** The stored `mood_trends` entry after successive calls from a store without one (no warning fires). */
  function StoredAfter(readings: seq<Reading>): Option<Json>
  {
    if readings == [] then None
    else
      var prev := StoredAfter(readings[..|readings| - 1]);
      var r := readings[|readings| - 1];
      match MoodUpdate(prev, r.score, r.today)
      case Some(w) => Some(WrappedPattern(w, r.now))
      case None => prev
  }

  /** A wrapped entry has no top-level `scores`: reading it raises. */
  lemma WrappedWindowUnreadable(data: Json, now: string, score: int, today: string)
    ensures MoodUpdate(Some(WrappedPattern(data, now)), score, today) == None
  {
    assert "scores" !in WrappedPattern(data, now).fields;
  }

  /**
   * As written, the stored window never grows past the first call: every
   * later call raises on the wrapped entry, so the entry stays what the first
   * call wrote.
   */
  lemma {:induction false} AsWrittenWindowStuck(readings: seq<Reading>)
    requires readings != []
    ensures StoredAfter(readings) == Some(WrappedPattern(NewWindow(readings[0].score, readings[0].today), readings[0].now))
    decreases |readings|
  {
    var init := readings[..|readings| - 1];
    var r := readings[|readings| - 1];
    if init == [] {
      assert readings[0] == r;
    } else {
      AsWrittenWindowStuck(init);
      assert init[0] == readings[0];
      WrappedWindowUnreadable(NewWindow(readings[0].score, readings[0].today), readings[0].now, r.score, r.today);
    }
  }

  /**
   * Hence the warning rule can never fire from such a store: whenever a call
   * gets as far as the rule, its window holds a single score.
   */
  lemma AsWrittenNeverWarns(readings: seq<Reading>, next: Reading, memory: Record)
    requires Complete(memory)
    ensures var w := MoodUpdate(StoredAfter(readings), next.score, next.today);
      w.Some? ==> |Scores(w.value)| == 1 && !Warns(w.value, memory, next.today)
  {
    if readings != [] {
      AsWrittenWindowStuck(readings);
      WrappedWindowUnreadable(NewWindow(readings[0].score, readings[0].today), readings[0].now, next.score, next.today);
    }
  }

  /** The window read from the `data` field `update_pattern` wraps it in. */
  function CorrectedMoodUpdate(stored: Option<Json>, score: int, today: string): (w: Option<Json>)
    ensures w.Some? ==> ReadableWindow(w.value)
  {
    match stored
    case None => Some(NewWindow(score, today))
    case Some(p) =>
      match Get(p, "data")
      case Some(d) => if ReadableWindow(d) then Some(SlideWindow(d, score, today)) else None
      case None => None
  }

  /** One corrected call: the stored entry it leaves, given the entry before it. */
  function CorrectedCall(prev: Option<Json>, r: Reading): Option<Json>
  {
    match CorrectedMoodUpdate(prev, r.score, r.today)
    case Some(w) => Some(WrappedPattern(w, r.now))
    case None => prev
  }

  function CorrectedStoredAfter(readings: seq<Reading>): Option<Json>
  {
    if readings == [] then None
    else CorrectedCall(CorrectedStoredAfter(readings[..|readings| - 1]), readings[|readings| - 1])
  }

  /** The window stored after the calls, when there is one. */
  predicate HoldsWindow(s: Option<Json>)
  {
    s.Some? && Get(s.value, "data").Some? && ReadableWindow(Get(s.value, "data").value)
  }

  function WindowOf(s: Option<Json>): Json
    requires HoldsWindow(s)
  {
    Get(s.value, "data").value
  }

  /** One corrected call on a window holding the last 30 of equally long score and date lists. */
  lemma CorrectedStep(w: Json, scores: seq<Json>, dates: seq<Json>, r: Reading)
    requires ReadableWindow(w) && |scores| == |dates|
    requires Scores(w) == Last(scores, 30) && Dates(w) == Last(dates, 30)
    ensures Scores(SlideWindow(w, r.score, r.today)) == Last(scores + [ReadingScore(r)], 30)
    ensures Dates(SlideWindow(w, r.score, r.today)) == Last(dates + [ReadingDate(r)], 30)
  {
    LastAppend(scores, ReadingScore(r), 30);
    LastAppend(dates, ReadingDate(r), 30);
  }

  /** The first corrected call stores a new window. */
  lemma CorrectedFirstCall(r: Reading)
    ensures HoldsWindow(CorrectedStoredAfter([r]))
    ensures WindowOf(CorrectedStoredAfter([r])) == NewWindow(r.score, r.today)
  {
    assert [r][..0] == [];
  }

  /** A corrected call on a stored window stores the slid window. */
  lemma CorrectedCallSlides(prev: Option<Json>, r: Reading)
    requires HoldsWindow(prev)
    ensures HoldsWindow(CorrectedCall(prev, r))
    ensures WindowOf(CorrectedCall(prev, r)) == SlideWindow(WindowOf(prev), r.score, r.today)
  {
    var q := SlideWindow(WindowOf(prev), r.score, r.today);
    assert CorrectedMoodUpdate(prev, r.score, r.today) == Some(q);
    assert Get(WrappedPattern(q, r.now), "data") == Some(q);
  }

  /** The same step, inside the sequence of calls. */
  lemma CorrectedStoredStep(readings: seq<Reading>)
    requires readings != [] && HoldsWindow(CorrectedStoredAfter(readings[..|readings| - 1]))
    ensures HoldsWindow(CorrectedStoredAfter(readings))
    ensures var r := readings[|readings| - 1];
      WindowOf(CorrectedStoredAfter(readings))
        == SlideWindow(WindowOf(CorrectedStoredAfter(readings[..|readings| - 1])), r.score, r.today)
  {
    var r := readings[|readings| - 1];
    var prev := CorrectedStoredAfter(readings[..|readings| - 1]);
    assert CorrectedStoredAfter(readings) == CorrectedCall(prev, r);
    CorrectedCallSlides(prev, r);
  }

  /**
   * Reading `data`, the window is the rolling one intended: after any
   * number of calls it holds the last 30 scores and dates, in order.
   */
  lemma {:induction false} CorrectedWindowSlides(readings: seq<Reading>)
    requires readings != []
    ensures HoldsWindow(CorrectedStoredAfter(readings))
    ensures Scores(WindowOf(CorrectedStoredAfter(readings))) == Last(Map(readings, ReadingScore), 30)
    ensures Dates(WindowOf(CorrectedStoredAfter(readings))) == Last(Map(readings, ReadingDate), 30)
    decreases |readings|
  {
    var init := readings[..|readings| - 1];
    var r := readings[|readings| - 1];
    if init == [] {
      assert readings == [r];
      CorrectedFirstCall(r);
      assert Map(readings, ReadingScore) == [JInt(r.score)];
      assert Map(readings, ReadingDate) == [JStr(r.today)];
    } else {
      CorrectedWindowSlides(init);
      assert readings == init + [r];
      CorrectedStoredStep(readings);
      CorrectedCallExtends(CorrectedStoredAfter(init), init, r);
    }
  }

  /** One corrected call extends the window of the calls before it by one reading. */
  lemma CorrectedCallExtends(prev: Option<Json>, init: seq<Reading>, r: Reading)
    requires HoldsWindow(prev)
    requires Scores(WindowOf(prev)) == Last(Map(init, ReadingScore), 30)
    requires Dates(WindowOf(prev)) == Last(Map(init, ReadingDate), 30)
    ensures HoldsWindow(CorrectedCall(prev, r))
    ensures Scores(WindowOf(CorrectedCall(prev, r))) == Last(Map(init + [r], ReadingScore), 30)
    ensures Dates(WindowOf(CorrectedCall(prev, r))) == Last(Map(init + [r], ReadingDate), 30)
  {
    CorrectedCallSlides(prev, r);
    var w := WindowOf(prev);
    var scores := Map(init, ReadingScore);
    var dates := Map(init, ReadingDate);
    MapAppend(init, [r], ReadingScore);
    MapAppend(init, [r], ReadingDate);
    assert Map(init + [r], ReadingScore) == scores + [ReadingScore(r)];
    assert Map(init + [r], ReadingDate) == dates + [ReadingDate(r)];
    CorrectedStep(w, scores, dates, r);
  }

  /** Five negative readings in a row make the last five scores all negative. */
  lemma LastFiveNegative(readings: seq<Reading>)
    requires |readings| >= 5
    requires forall k :: |readings| - 5 <= k < |readings| ==> readings[k].score < 0
    ensures AllNegative(Last(Map(readings, ReadingScore), 5)) == Some(true)
  {
    var scores := Map(readings, ReadingScore);
    var five := Last(scores, 5);
    forall k | 0 <= k < 5
      ensures five[k].JInt? && five[k].i < 0
    {
      assert five[k] == scores[|scores| - 5 + k];
    }
  }

  /** With the correction, five negative scores in a row reach the warning rule. */
  lemma CorrectedWindowCanWarn(readings: seq<Reading>)
    requires |readings| >= 5
    requires forall k :: |readings| - 5 <= k < |readings| ==> readings[k].score < 0
    ensures HoldsWindow(CorrectedStoredAfter(readings))
    ensures |Scores(WindowOf(CorrectedStoredAfter(readings)))| >= 5
    ensures AllNegative(Last(Scores(WindowOf(CorrectedStoredAfter(readings))), 5)) == Some(true)
  {
    CorrectedWindowSlides(readings);
    var scores := Map(readings, ReadingScore);
    var q := WindowOf(CorrectedStoredAfter(readings));
    assert Scores(q) == Last(scores, 30);
    LastOfLast(scores, 5, 30);
    var five := Last(scores, 5);
    assert Last(Scores(q), 5) == five;
    LastFiveNegative(readings);
  }

  // ---------------------------------------------------------------------
  // Context and replies (life_coach.py:94-135)

  const NoContext := "No previous context available."

  function EventLine(event: Json): string
  {
    "- " + Take(DateOf(event), 10) + ": " + EntryOf(event)
  }

  function GoalLine(goal: Json): string
  {
    "- " + GoalOf(goal)
  }

  function PatternLine(count: nat): string
  {
    "\nRecognized patterns: " + IntToString(count) + " tracked"
  }

  function EventSection(recentEvents: seq<Json>): seq<string>
  {
    if recentEvents == [] then [] else ["Recent life updates:"] + Map(Last(recentEvents, 5), EventLine)
  }

  function GoalSection(activeGoals: seq<Json>): seq<string>
  {
    if activeGoals == [] then [] else ["\nCurrent goals:"] + Map(Take(activeGoals, 3), GoalLine)
  }

  function PatternSection(memory: Record): seq<string>
    requires Complete(memory)
  {
    if Patterns(memory) == map[] then [] else [PatternLine(|Patterns(memory)|)]
  }

  /** The `context_parts` list. */
  function ContextParts(recentEvents: seq<Json>, activeGoals: seq<Json>, memory: Record): seq<string>
    requires Complete(memory)
  {
    EventSection(recentEvents) + GoalSection(activeGoals) + PatternSection(memory)
  }

  /**
   * The context names at most the last five events, each with its date cut
   * to ten characters, at most the first three goals, and one pattern line.
   */
  lemma ContextPartsShape(recentEvents: seq<Json>, activeGoals: seq<Json>, memory: Record)
    requires Complete(memory)
    ensures |EventSection(recentEvents)| == (if recentEvents == [] then 0 else 1 + Min(5, |recentEvents|))
    ensures forall k :: 1 <= k < |EventSection(recentEvents)| ==>
      EventSection(recentEvents)[k] == EventLine(recentEvents[|recentEvents| - Min(5, |recentEvents|) + k - 1])
    ensures |GoalSection(activeGoals)| == (if activeGoals == [] then 0 else 1 + Min(3, |activeGoals|))
    ensures forall k :: 1 <= k < |GoalSection(activeGoals)| ==> GoalSection(activeGoals)[k] == GoalLine(activeGoals[k - 1])
    ensures |ContextParts(recentEvents, activeGoals, memory)| <= 11
  {
    EventSectionShape(recentEvents);
    GoalSectionShape(activeGoals);
  }

  lemma EventSectionShape(recentEvents: seq<Json>)
    ensures |EventSection(recentEvents)| == (if recentEvents == [] then 0 else 1 + Min(5, |recentEvents|))
    ensures forall k :: 1 <= k < |EventSection(recentEvents)| ==>
      EventSection(recentEvents)[k] == EventLine(recentEvents[|recentEvents| - Min(5, |recentEvents|) + k - 1])
  {
    if recentEvents != [] {
      var shown := Last(recentEvents, 5);
      var start := |recentEvents| - Min(5, |recentEvents|);
      assert |shown| == Min(5, |recentEvents|);
      forall k | 1 <= k < |EventSection(recentEvents)|
        ensures EventSection(recentEvents)[k] == EventLine(recentEvents[start + k - 1])
      {
        assert shown[k - 1] == recentEvents[start + k - 1];
      }
    }
  }

  lemma GoalSectionShape(activeGoals: seq<Json>)
    ensures |GoalSection(activeGoals)| == (if activeGoals == [] then 0 else 1 + Min(3, |activeGoals|))
    ensures forall k :: 1 <= k < |GoalSection(activeGoals)| ==> GoalSection(activeGoals)[k] == GoalLine(activeGoals[k - 1])
  {
    if activeGoals != [] {
      var shown := Take(activeGoals, 3);
      forall k | 1 <= k < |GoalSection(activeGoals)|
        ensures GoalSection(activeGoals)[k] == GoalLine(activeGoals[k - 1])
      {
        assert shown[k - 1] == activeGoals[k - 1];
      }
    }
  }

  /** The event loop of `_build_context`. */
  method EventLines(recentEvents: seq<Json>) returns (parts: seq<string>)
    ensures parts == EventSection(recentEvents)
  {
    parts := [];
    if recentEvents != [] {
      parts := parts + ["Recent life updates:"];
      var shown := Last(recentEvents, 5);
      for i := 0 to |shown|
        invariant parts == ["Recent life updates:"] + Map(shown[..i], EventLine)
      {
        assert shown[..i + 1] == shown[..i] + [shown[i]];
        MapAppend(shown[..i], [shown[i]], EventLine);
        parts := parts + [EventLine(shown[i])];
      }
      assert shown[..|shown|] == shown;
    }
  }

  /** The goal loop of `_build_context`. */
  method GoalLines(activeGoals: seq<Json>) returns (parts: seq<string>)
    ensures parts == GoalSection(activeGoals)
  {
    parts := [];
    if activeGoals != [] {
      parts := parts + ["\nCurrent goals:"];
      var shown := Take(activeGoals, 3);
      for i := 0 to |shown|
        invariant parts == ["\nCurrent goals:"] + Map(shown[..i], GoalLine)
      {
        assert shown[..i + 1] == shown[..i] + [shown[i]];
        MapAppend(shown[..i], [shown[i]], GoalLine);
        parts := parts + [GoalLine(shown[i])];
      }
      assert shown[..|shown|] == shown;
    }
  }

  /** Some part exists exactly when there is an event, a goal or a pattern, and no part starts like the no-context text. */
  lemma ContextPartsEmpty(recentEvents: seq<Json>, activeGoals: seq<Json>, memory: Record)
    requires Complete(memory)
    ensures ContextParts(recentEvents, activeGoals, memory) == [] <==>
      recentEvents == [] && activeGoals == [] && Patterns(memory) == map[]
    ensures ContextParts(recentEvents, activeGoals, memory) != [] ==>
      Join(ContextParts(recentEvents, activeGoals, memory), "\n") != NoContext
  {
    var parts := ContextParts(recentEvents, activeGoals, memory);
    if parts != [] {
      assert parts[0] != [] && parts[0][0] != 'N' by {
        if recentEvents != [] {
          assert parts[0] == "Recent life updates:";
        } else if activeGoals != [] {
          assert parts[0] == "\nCurrent goals:";
        } else {
          assert parts[0] == PatternLine(|Patterns(memory)|);
        }
      }
      JoinHead(parts, "\n");
      assert NoContext[0] == 'N';
    }
  }

  /**
   * `_build_context`: the parts joined by newlines, or the no-context text
   * exactly when there are no events, no goals and no patterns.
   */
  method BuildContext(recentEvents: seq<Json>, activeGoals: seq<Json>, memory: Record) returns (context: string)
    requires Complete(memory)
    ensures var parts := ContextParts(recentEvents, activeGoals, memory);
      context == if parts == [] then NoContext else Join(parts, "\n")
    ensures context == NoContext <==> recentEvents == [] && activeGoals == [] && Patterns(memory) == map[]
  {
    var events := EventLines(recentEvents);
    var goals := GoalLines(activeGoals);
    var parts := events + goals;
    if Patterns(memory) != map[] {
      parts := parts + [PatternLine(|Patterns(memory)|)];
    }
    assert parts == ContextParts(recentEvents, activeGoals, memory);
    ContextPartsEmpty(recentEvents, activeGoals, memory);
    context := if parts == [] then NoContext else Join(parts, "\n");
  }

  /** A reply dict: `success`, `response`, `timestamp` and whether it is a `fallback` reply. */
  datatype Reply = Reply(success: bool, response: string, timestamp: string, fallback: bool)

  const GoalReply := "That's a great goal! Breaking it down into smaller, manageable steps can help you make steady progress. What's the first small step you could take today?"

  const StressReply := "I understand you're feeling stressed. Remember that it's normal to feel this way sometimes. Consider taking some deep breaths, and think about what aspects of the situation you can control."

  const HappyReply := "That's wonderful to hear! It's important to celebrate these positive moments. What do you think contributed to feeling this way?"

  const TiredReply := "It sounds like you've been working hard. Remember that rest and self-care are just as important as productivity. How can you create some space for yourself today?"

  const DefaultReply := "Thank you for sharing that with me. Can you tell me more about how this is affecting you? I'm here to listen and help you work through your thoughts."

  /** The keyword groups of the fallback, in the order they are tried. */
  const FallbackGroups: seq<(string, seq<string>)> := [
    (GoalReply, ["goal", "achieve", "accomplish"]),
    (StressReply, ["stress", "worried", "anxious"]),
    (HappyReply, ["happy", "excited", "great", "awesome"]),
    (TiredReply, ["tired", "exhausted", "busy"])]

  /**
   * `_generate_fallback_response`: the reply of the first keyword group the
   * lower-cased message mentions, else the default; always a successful
   * fallback reply.
   */
  function FallbackResponse(message: string, now: string): (r: Reply)
    ensures r.success && r.fallback && r.timestamp == now
    ensures var m := Lower(message);
      && (AnyIn(FallbackGroups[0].1, m) ==> r.response == GoalReply)
      && (!AnyIn(FallbackGroups[0].1, m) && AnyIn(FallbackGroups[1].1, m) ==> r.response == StressReply)
      && (!AnyIn(FallbackGroups[0].1, m) && !AnyIn(FallbackGroups[1].1, m) && AnyIn(FallbackGroups[2].1, m)
          ==> r.response == HappyReply)
      && (!AnyIn(FallbackGroups[0].1, m) && !AnyIn(FallbackGroups[1].1, m) && !AnyIn(FallbackGroups[2].1, m)
          && AnyIn(FallbackGroups[3].1, m)
          ==> r.response == TiredReply)
      && ((forall j :: 0 <= j < |FallbackGroups| ==> !AnyIn(FallbackGroups[j].1, m)) ==> r.response == DefaultReply)
  {
    var k := FirstMatch(FallbackGroups, Lower(message));
    Reply(true, if k < |FallbackGroups| then FallbackGroups[k].0 else DefaultReply, now, true)
  }

  /**
   * What a writable store holds after an answered message, given the record
   * `m` it held before: the outcome of the pattern analysis, stamped, or `m`
   * when the analysis saves nothing.
   */
  function RepliedRecord(m: Record, message: string, today: string, now: string): Record
    requires Complete(m)
  {
    match PatternOutcome(m, m, MessageMoodScore(message), today, now)
    case Some(o) => Stamp(o, now)
    case None => m
  }

  /** An answered message keeps the events and goals of the record it is analysed against. */
  lemma RepliedRecordKeeps(m: Record, message: string, today: string, now: string)
    requires Complete(m)
    ensures var r := RepliedRecord(m, message, today, now);
      Complete(r) && Events(r) == Events(m) && Goals(r) == Goals(m)
  {
    PatternOutcomeSpec(m, MessageMoodScore(message), today, now);
  }

  /** What `get_memory_summary` returns. */
  datatype MemorySummary = MemorySummary(
    totalEvents: nat, recentEvents: seq<Json>, activeGoals: seq<Json>,
    totalGoals: nat, warnings: seq<Json>, patterns: map<string, Json>)

  class LifeCoach {
    const manager: MemoryManager
    /** Whether the API client and key were found when the coach was built. */
    const openaiAvailable: bool

    constructor (manager: MemoryManager, openaiAvailable: bool)
      ensures this.manager == manager && this.openaiAvailable == openaiAvailable
    {
      this.manager := manager;
      this.openaiAvailable := openaiAvailable;
    }

    ghost predicate Valid()
      reads this, manager, manager.file
    {
      manager.Valid()
    }

    /**
     * `_analyze_patterns(user_message, memory)` (life_coach.py:137-176):
     * writes what `PatternOutcome` gives, stamped, or nothing when the
     * window cannot be read or the file cannot be written.
     */
    method AnalyzePatterns(message: string, memory: Record, today: string, now: string)
      requires Valid() && Complete(memory)
      modifies manager.file
      ensures Valid() && manager.file.writable == old(manager.file.writable)
      ensures var o := PatternOutcome(old(manager.Loaded()), memory, MessageMoodScore(message), today, now);
        manager.file.stored == if old(manager.file.writable) && o.Some? then Holds(Stamp(o.value, now)) else old(manager.file.stored)
      ensures memory == old(manager.Loaded()) ==> Events(manager.Loaded()) == Events(memory)
    {
      PatternOutcomeSpec(memory, MessageMoodScore(message), today, now);
      var score := MoodScoreOf(message);
      var update := MoodUpdate(StoredMood(memory), score, today);
      if update.None? {
        return;
      }
      var window := update.value;
      ghost var loaded := manager.Loaded();
      var ok := manager.UpdatePattern("mood_trends", window, now);
      if |Scores(window)| >= 5 {
        var allNegative := AllNegative(Last(Scores(window), 5));
        if allNegative == Some(true) && JStr(WarningText(today)) !in Warnings(memory) {
          assert Warns(window, memory, today);
          ok := manager.SaveMemory(WarnedRecord(memory, window, today), now);
          if ok && memory == loaded {
            manager.ReloadSaved(WarnedRecord(memory, window, today), now);
          }
          return;
        }
      }
      assert !Warns(window, memory, today);
    }

    /**
     * `get_memory_summary` (life_coach.py:178-191): the counts are list
     * lengths, with at most the last five events and the last three warnings.
     */
    method GetMemorySummary() returns (s: MemorySummary)
      requires Valid()
      ensures var m := manager.Loaded();
        && s.totalEvents == |Events(m)| && s.totalGoals == |Goals(m)|
        && s.recentEvents == Last(Events(m), 5) && |s.recentEvents| == Min(5, |Events(m)|)
        && s.activeGoals == ActiveGoals(Goals(m))
        && s.warnings == Last(Warnings(m), 3) && |s.warnings| == Min(3, |Warnings(m)|)
        && s.patterns == Patterns(m)
    {
      var memory := manager.LoadMemory();
      var recent := manager.GetRecentEvents(5);
      var active := manager.GetActiveGoals();
      PyTailPositive(Warnings(memory), 3);
      s := MemorySummary(|Events(memory)|, recent, active, |Goals(memory)|, PyTail(Warnings(memory), 3), Patterns(memory));
    }

    /**
     * `generate_response` (life_coach.py:24-92): the message is stored as a
     * life event first, whichever reply follows. `reply` is the API's answer,
     * None when the call raises; the reply is the API's text when the API is
     * available and answers, else the keyword fallback.
     */
    method GenerateResponse(message: string, today: string, now: string, reply: Option<string>) returns (r: Reply)
      requires Valid()
      modifies manager.file
      ensures Valid() && manager.file.writable == old(manager.file.writable)
      ensures r.success
      ensures r.response == if openaiAvailable && reply.Some? then reply.value else FallbackResponse(message, now).response
      ensures r.fallback <==> !(openaiAvailable && reply.Some?)
      ensures old(manager.file.writable) ==>
        var before := old(Events(manager.Loaded()));
        && |Events(manager.Loaded())| == |before| + 1
        && Events(manager.Loaded())[..|before|] == before
        && EntryOf(Events(manager.Loaded())[|before|]) == message
      ensures !old(manager.file.writable) ==> manager.file.stored == old(manager.file.stored)
      ensures !(openaiAvailable && reply.Some?) && old(manager.file.writable) ==>
        manager.file.stored == Holds(Stamp(WithEvent(old(manager.Loaded()), message, now), now))
      ensures openaiAvailable && reply.Some? && old(manager.file.writable) ==>
        manager.file.stored == Holds(RepliedRecord(Stamp(WithEvent(old(manager.Loaded()), message, now), now), message, today, now))
    {
      var added := manager.AddLifeEvent(message, now);
      if !openaiAvailable {
        return FallbackResponse(message, now);
      }
      r := GenerateOpenAIResponse(message, today, now, reply);
    }

    /**
     * `_generate_openai_response` (life_coach.py:43-92): the memory is read
     * for the prompt; when the API answers, the patterns are analysed and the
     * answer returned, otherwise the keyword fallback. No life event is added.
     */
    method GenerateOpenAIResponse(message: string, today: string, now: string, reply: Option<string>) returns (r: Reply)
      requires Valid()
      modifies manager.file
      ensures Valid() && manager.file.writable == old(manager.file.writable)
      ensures r.success
      ensures r.response == if reply.Some? then reply.value else FallbackResponse(message, now).response
      ensures r.fallback <==> reply.None?
      ensures old(manager.file.writable) ==> Events(manager.Loaded()) == old(Events(manager.Loaded()))
      ensures !old(manager.file.writable) || reply.None? ==> manager.file.stored == old(manager.file.stored)
      ensures var m := old(manager.Loaded()); var o := PatternOutcome(m, m, MessageMoodScore(message), today, now);
        reply.Some? ==>
          manager.file.stored == if old(manager.file.writable) && o.Some? then Holds(Stamp(o.value, now)) else old(manager.file.stored)
    {
      var memory := manager.LoadMemory();
      var recent := manager.GetRecentEvents(10);
      var active := manager.GetActiveGoals();
      var context := BuildContext(recent, active, memory);
      if reply.None? {
        return FallbackResponse(message, now);
      }
      ghost var before := Events(memory);
      AnalyzePatterns(message, memory, today, now);
      assert old(manager.file.writable) ==> Events(manager.Loaded()) == before;
      r := Reply(true, reply.value, now, false);
    }

    /** `add_goal` (life_coach.py:193-195), passed through to the memory manager. */
    method AddGoal(text: string, targetDate: Option<string>, now: string) returns (ok: bool)
      requires Valid()
      modifies manager.file
      ensures Valid() && manager.file.writable == old(manager.file.writable) && ok == manager.file.writable
      ensures ok ==> manager.Loaded() == Stamp(WithGoal(old(manager.Loaded()), text, targetDate, now), now)
      ensures !ok ==> manager.file.stored == old(manager.file.stored)
    {
      ok := manager.AddGoal(text, targetDate, now);
    }
  }
}
