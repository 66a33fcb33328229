/**
 * analytics.py: the deterministic keyword and counting helpers of
 * `LifeAnalytics`. Each takes the event or goal list of a record loaded by
 * `LifeMemoryManager`; an entry is read lower-cased, and a keyword is
 * present when it occurs in that text as a substring.
 */
module Analytics {
  import opened Json
  import opened Text
  import opened Store

  /** `event["entry"].lower()`. */
  function TextOf(event: Json): string
  {
    Lower(EntryOf(event))
  }

  /** `any(word in text for word in words)` over an event's lower-cased entry. */
  predicate Mentions(event: Json, words: seq<string>)
  {
    AnyIn(words, TextOf(event))
  }

  /** The test `Mentions(·, words)` as a value, for filtering. */
  function Mentioner(words: seq<string>): Json -> bool
  {
    e => Mentions(e, words)
  }

  /** The events that mention one of `words`, in stored order. */
  function Mentioning(events: seq<Json>, words: seq<string>): seq<Json>
  {
    Filter(events, Mentioner(words))
  }

  /** Exactly the events that mention a word, in stored order. */
  lemma MentioningSpec(events: seq<Json>, words: seq<string>)
    ensures IsSubsequence(Mentioning(events, words), events)
    ensures forall e :: e in Mentioning(events, words) <==> e in events && Mentions(e, words)
    ensures |Mentioning(events, words)| <= |events|
  {
    FilterSpec(events, Mentioner(words));
  }

  /** Growing the scanned prefix by one event adds that event exactly when it mentions a word. */
  lemma MentioningStep(events: seq<Json>, i: int, words: seq<string>)
    requires 0 <= i < |events|
    ensures Mentioning(events[..i + 1], words)
         == Mentioning(events[..i], words) + (if Mentions(events[i], words) then [events[i]] else [])
  {
    assert events[..i + 1] == events[..i] + [events[i]];
    FilterAppend(events[..i], [events[i]], Mentioner(words));
  }

  // ---------------------------------------------------------------------
  // _calculate_tracking_days (analytics.py:195-201)

  /** `set(event["date"] for event in life_events)`. */
  function DateSet(events: seq<Json>): set<string>
  {
    if events == [] then {} else {DateOf(events[0])} + DateSet(events[1..])
  }

  lemma {:induction false} DateSetSpec(events: seq<Json>)
    ensures forall d :: d in DateSet(events) <==> exists k :: 0 <= k < |events| && DateOf(events[k]) == d
    ensures |DateSet(events)| <= |events|
    decreases |events|
  {
    if events != [] {
      DateSetSpec(events[1..]);
      forall d
        ensures d in DateSet(events) <==> exists k :: 0 <= k < |events| && DateOf(events[k]) == d
      {
        if d in DateSet(events[1..]) {
          var k :| 0 <= k < |events[1..]| && DateOf(events[1..][k]) == d;
          assert DateOf(events[k + 1]) == d;
        }
        if exists k :: 0 <= k < |events| && DateOf(events[k]) == d {
          var k :| 0 <= k < |events| && DateOf(events[k]) == d;
          if k > 0 {
            assert events[1..][k - 1] == events[k];
          }
        }
      }
    }
  }

  /** The number of distinct event dates: none without events, never more than the events. */
  function TrackingDays(events: seq<Json>): (n: nat)
    ensures n <= |events|
    ensures n == 0 <==> events == []
    ensures n == |DateSet(events)|
  {
    DateSetSpec(events);
    if events == [] then 0
    else
      assert DateOf(events[0]) in DateSet(events);
      |DateSet(events)|
  }

  lemma {:induction false} DateSetAppend(events: seq<Json>, e: Json)
    ensures DateSet(events + [e]) == DateSet(events) + {DateOf(e)}
    decreases |events|
  {
    if events == [] {
      assert events + [e] == [e];
    } else {
      assert (events + [e])[1..] == events[1..] + [e];
      DateSetAppend(events[1..], e);
    }
  }

  /** A further event adds a tracked day exactly when its date is new. */
  lemma TrackingDaysAppend(events: seq<Json>, e: Json)
    ensures TrackingDays(events + [e]) == TrackingDays(events) + (if DateOf(e) in DateSet(events) then 0 else 1)
  {
    DateSetAppend(events, e);
    if DateOf(e) in DateSet(events) {
      assert DateSet(events) + {DateOf(e)} == DateSet(events);
    } else {
      assert |DateSet(events) + {DateOf(e)}| == |DateSet(events)| + 1;
    }
  }

  // ---------------------------------------------------------------------
  // Mood scoring in _analyze_mood_trends (analytics.py:43-79)

  const PositiveWords: seq<string> :=
    ["happy", "excited", "grateful", "accomplished", "successful",
     "motivated", "confident", "proud", "satisfied", "optimistic"]

  const NegativeWords: seq<string> :=
    ["sad", "frustrated", "angry", "stressed", "overwhelmed",
     "disappointed", "worried", "anxious", "tired", "discouraged"]

  /** One entry of `daily_mood`. */
  datatype MoodPoint = MoodPoint(date: string, moodScore: int, positive: nat, negative: nat)

  /**
   * The mood of one event: how many of the ten positive and ten negative
   * words occur in it, and their difference, which lies in [-10, 10].
   */
  function MoodPointOf(event: Json): (p: MoodPoint)
    ensures p.date == DateOf(event)
    ensures p.positive <= 10 && p.negative <= 10
    ensures p.moodScore == p.positive - p.negative && -10 <= p.moodScore <= 10
    ensures p.positive > 0 <==> Mentions(event, PositiveWords)
    ensures p.negative > 0 <==> Mentions(event, NegativeWords)
  {
    var pos := CountIn(PositiveWords, TextOf(event));
    var neg := CountIn(NegativeWords, TextOf(event));
    MoodPoint(DateOf(event), pos - neg, pos, neg)
  }

  /** Whether `datetime.fromisoformat` accepts the date of every event; `dayOf` is the date parser. */
  predicate AllDatesParse(events: seq<Json>, dayOf: string -> Option<int>)
  {
    forall k :: 0 <= k < |events| ==> dayOf(DateOf(events[k])).Some?
  }

  /** `mood_data[-30:]`: the mood points of the last 30 events. */
  function DailyMood(events: seq<Json>): seq<MoodPoint>
  {
    Last(Map(events, MoodPointOf), 30)
  }

  /** The daily mood holds one point per event of the last 30, in order, each within [-10, 10]. */
  lemma DailyMoodSpec(events: seq<Json>)
    ensures |DailyMood(events)| == Min(30, |events|)
    ensures forall k :: 0 <= k < |DailyMood(events)| ==>
      DailyMood(events)[k] == MoodPointOf(events[|events| - |DailyMood(events)| + k])
    ensures forall k :: 0 <= k < |DailyMood(events)| ==> -10 <= DailyMood(events)[k].moodScore <= 10
  {
    var points := Map(events, MoodPointOf);
    var d := DailyMood(events);
    forall k | 0 <= k < |d|
      ensures d[k] == MoodPointOf(events[|events| - |d| + k])
    {
      assert d[k] == points[|events| - |d| + k];
    }
  }

  /**
   * `daily_mood`: the mood points of the last 30 events, in order; None
   * (the ValueError) when some event's date does not parse.
   */
  method AnalyzeMoodTrends(events: seq<Json>, dayOf: string -> Option<int>) returns (daily: Option<seq<MoodPoint>>)
    ensures daily.Some? <==> AllDatesParse(events, dayOf)
    ensures daily.Some? ==> daily.value == DailyMood(events)
  {
    var points: seq<MoodPoint> := [];
    for i := 0 to |events|
      invariant points == Map(events[..i], MoodPointOf)
      invariant forall k :: 0 <= k < i ==> dayOf(DateOf(events[k])).Some?
    {
      if dayOf(DateOf(events[i])).None? {
        assert !AllDatesParse(events, dayOf);
        return None;
      }
      assert events[..i + 1] == events[..i] + [events[i]];
      MapAppend(events[..i], [events[i]], MoodPointOf);
      points := points + [MoodPointOf(events[i])];
    }
    assert events[..|events|] == events;
    daily := Some(Last(points, 30));
  }

  // ---------------------------------------------------------------------
  // _categorize_goals (analytics.py:251-268)

  /** The keyword groups, in the order the `if/elif` chain tries them. */
  const GoalCategories: seq<(string, seq<string>)> := [
    ("career", ["career", "job", "work", "professional"]),
    ("health", ["health", "fitness", "exercise", "diet"]),
    ("relationships", ["relationship", "family", "friend", "social"]),
    ("learning", ["learn", "skill", "education", "course"])]

  const CategoryNames: set<string> := {"career", "health", "relationships", "learning", "personal"}

  /**
   * The category of a lower-cased goal text: the first group with a word in
   * the text, otherwise "personal".
   */
  function Category(text: string): (c: string)
    ensures c in CategoryNames
    ensures c == "career" <==> AnyIn(GoalCategories[0].1, text)
    ensures c == "health" <==> !AnyIn(GoalCategories[0].1, text) && AnyIn(GoalCategories[1].1, text)
    ensures c == "relationships" <==>
      !AnyIn(GoalCategories[0].1, text) && !AnyIn(GoalCategories[1].1, text) && AnyIn(GoalCategories[2].1, text)
    ensures c == "learning" <==>
      !AnyIn(GoalCategories[0].1, text) && !AnyIn(GoalCategories[1].1, text)
      && !AnyIn(GoalCategories[2].1, text) && AnyIn(GoalCategories[3].1, text)
    ensures c == "personal" <==> forall j :: 0 <= j < |GoalCategories| ==> !AnyIn(GoalCategories[j].1, text)
  {
    var k := FirstMatch(GoalCategories, text);
    if k < |GoalCategories| then GoalCategories[k].0 else "personal"
  }

  function GoalCategory(goal: Json): string
  {
    Category(Lower(GoalOf(goal)))
  }

  /** How many goals fall in category `c`. */
  function CategoryCount(goals: seq<Json>, c: string): (n: nat)
    ensures n <= |goals|
  {
    if goals == [] then 0
    else CategoryCount(goals[..|goals| - 1], c) + (if GoalCategory(goals[|goals| - 1]) == c then 1 else 0)
  }

  lemma CategoryCountStep(goals: seq<Json>, i: int, c: string)
    requires 0 <= i < |goals|
    ensures CategoryCount(goals[..i + 1], c) == CategoryCount(goals[..i], c) + (if GoalCategory(goals[i]) == c then 1 else 0)
  {
    assert goals[..i + 1][..i] == goals[..i];
  }

  /** The sum of the counts a category table holds for the five categories; absent ones count 0. */
  function CountsTotal(counts: map<string, nat>): nat
  {
    (if "career" in counts then counts["career"] else 0)
    + (if "health" in counts then counts["health"] else 0)
    + (if "relationships" in counts then counts["relationships"] else 0)
    + (if "learning" in counts then counts["learning"] else 0)
    + (if "personal" in counts then counts["personal"] else 0)
  }

  /** Each goal is in exactly one category, so the five counts add up to the number of goals. */
  lemma {:induction false} CategoryCountsPartition(goals: seq<Json>)
    ensures CategoryCount(goals, "career") + CategoryCount(goals, "health") + CategoryCount(goals, "relationships")
          + CategoryCount(goals, "learning") + CategoryCount(goals, "personal") == |goals|
    decreases |goals|
  {
    if goals != [] {
      CategoryCountsPartition(goals[..|goals| - 1]);
      var c := GoalCategory(goals[|goals| - 1]);
      assert c in CategoryNames;
    }
  }

  /**
   * `_categorize_goals`: a table holding, for each category that at least
   * one goal falls in, the number of goals in it; its counts sum to the
   * number of goals.
   */
  method CategorizeGoals(goals: seq<Json>) returns (counts: map<string, nat>)
    ensures forall c :: c in counts <==> c in CategoryNames && CategoryCount(goals, c) > 0
    ensures forall c :: c in counts ==> counts[c] == CategoryCount(goals, c)
    ensures CountsTotal(counts) == |goals|
  {
    counts := map[];
    for i := 0 to |goals|
      invariant forall c :: c in counts <==> c in CategoryNames && CategoryCount(goals[..i], c) > 0
      invariant forall c :: c in counts ==> counts[c] == CategoryCount(goals[..i], c)
    {
      var c := GoalCategory(goals[i]);
      forall c' ensures CategoryCount(goals[..i + 1], c') == CategoryCount(goals[..i], c') + (if c == c' then 1 else 0) {
        CategoryCountStep(goals, i, c');
      }
      counts := counts[c := (if c in counts then counts[c] else 0) + 1];
    }
    assert goals[..|goals|] == goals;
    CountsTotalIsGoals(goals, counts);
    CategoryCountsPartition(goals);
  }

  /** A table holding exactly the nonzero category counts adds up to the five counts. */
  lemma CountsTotalIsGoals(goals: seq<Json>, counts: map<string, nat>)
    requires forall c :: c in counts <==> c in CategoryNames && CategoryCount(goals, c) > 0
    requires forall c :: c in counts ==> counts[c] == CategoryCount(goals, c)
    ensures CountsTotal(counts) == CategoryCount(goals, "career") + CategoryCount(goals, "health")
      + CategoryCount(goals, "relationships") + CategoryCount(goals, "learning") + CategoryCount(goals, "personal")
  {
    CountEntry(goals, counts, "career");
    CountEntry(goals, counts, "health");
    CountEntry(goals, counts, "relationships");
    CountEntry(goals, counts, "learning");
    CountEntry(goals, counts, "personal");
  }

  lemma CountEntry(goals: seq<Json>, counts: map<string, nat>, c: string)
    requires forall c :: c in counts <==> c in CategoryNames && CategoryCount(goals, c) > 0
    requires forall c :: c in counts ==> counts[c] == CategoryCount(goals, c)
    requires c in CategoryNames
    ensures (if c in counts then counts[c] else 0) == CategoryCount(goals, c)
  {
  }

  // ---------------------------------------------------------------------
  // _identify_overdue_goals (analytics.py:270-285)

  /** An entry of the overdue list. */
  datatype OverdueGoal = OverdueGoal(goal: string, targetDate: string, daysOverdue: int)

  /**
   * Whether `datetime.fromisoformat` accepts the goal's target date when the
   * goal has a truthy one; `dayOf` is the date parser, giving a day number.
   */
  predicate TargetParses(goal: Json, dayOf: string -> Option<int>)
  {
    match Get(goal, "target_date")
    case None => true
    case Some(t) => !Truthy(t) || (t.JStr? && dayOf(t.s).Some?)
  }

  predicate AllTargetsParse(goals: seq<Json>, dayOf: string -> Option<int>)
  {
    forall k :: 0 <= k < |goals| ==> TargetParses(goals[k], dayOf)
  }

  /** What one goal contributes to the overdue list: itself when its target day is before today. */
  function OverdueEntry(goal: Json, today: int, dayOf: string -> Option<int>): seq<OverdueGoal>
    requires TargetParses(goal, dayOf)
  {
    match Get(goal, "target_date")
    case None => []
    case Some(t) =>
      if !Truthy(t) then []
      else
        var d := dayOf(t.s).value;
        if d < today then [OverdueGoal(GoalOf(goal), t.s, today - d)] else []
  }

  function OverdueList(goals: seq<Json>, today: int, dayOf: string -> Option<int>): seq<OverdueGoal>
    requires AllTargetsParse(goals, dayOf)
  {
    if goals == [] then []
    else OverdueList(goals[..|goals| - 1], today, dayOf) + OverdueEntry(goals[|goals| - 1], today, dayOf)
  }

  /** The overdue list has at most one entry per goal. */
  lemma {:induction false} OverdueListLength(goals: seq<Json>, today: int, dayOf: string -> Option<int>)
    requires AllTargetsParse(goals, dayOf)
    ensures |OverdueList(goals, today, dayOf)| <= |goals|
    decreases |goals|
  {
    if goals != [] {
      var init := goals[..|goals| - 1];
      assert AllTargetsParse(init, dayOf) by {
        assert forall k :: 0 <= k < |init| ==> init[k] == goals[k];
      }
      OverdueListLength(init, today, dayOf);
    }
  }

  /**
   * Every listed goal is one of the goals, with a target date whose day is
   * strictly before today, and is at least one day overdue.
   */
  lemma {:induction false} OverdueListSound(goals: seq<Json>, today: int, dayOf: string -> Option<int>, o: OverdueGoal)
    requires AllTargetsParse(goals, dayOf)
    requires o in OverdueList(goals, today, dayOf)
    ensures o.daysOverdue >= 1 && dayOf(o.targetDate) == Some(today - o.daysOverdue)
    ensures exists k :: 0 <= k < |goals| && Get(goals[k], "target_date") == Some(JStr(o.targetDate)) && GoalOf(goals[k]) == o.goal
    decreases |goals|
  {
    var init := goals[..|goals| - 1];
    var g := goals[|goals| - 1];
    assert AllTargetsParse(init, dayOf) by {
      assert forall k :: 0 <= k < |init| ==> init[k] == goals[k];
    }
    if o in OverdueList(init, today, dayOf) {
      OverdueListSound(init, today, dayOf, o);
      var k :| 0 <= k < |init| && Get(init[k], "target_date") == Some(JStr(o.targetDate)) && GoalOf(init[k]) == o.goal;
      assert goals[k] == init[k];
    } else {
      assert o in OverdueEntry(g, today, dayOf);
    }
  }

  /** Every goal whose (non-empty) target date parses to a day before today is listed. */
  lemma {:induction false} OverdueListComplete(goals: seq<Json>, today: int, dayOf: string -> Option<int>, k: int)
    requires AllTargetsParse(goals, dayOf)
    requires 0 <= k < |goals|
    requires Get(goals[k], "target_date").Some? && Get(goals[k], "target_date").value.JStr?
    requires Get(goals[k], "target_date").value.s != ""
    requires dayOf(Get(goals[k], "target_date").value.s).value < today
    ensures var t := Get(goals[k], "target_date").value.s;
      OverdueGoal(GoalOf(goals[k]), t, today - dayOf(t).value) in OverdueList(goals, today, dayOf)
    decreases |goals|
  {
    var init := goals[..|goals| - 1];
    assert AllTargetsParse(init, dayOf) by {
      assert forall j :: 0 <= j < |init| ==> init[j] == goals[j];
    }
    if k < |goals| - 1 {
      assert init[k] == goals[k];
      OverdueListComplete(init, today, dayOf, k);
    }
  }

  /**
   * `_identify_overdue_goals(active_goals)` with today's day number as a
   * parameter: None when a truthy target date fails to parse (the report
   * raises), otherwise the overdue list.
   */
  method IdentifyOverdueGoals(goals: seq<Json>, today: int, dayOf: string -> Option<int>)
    returns (r: Option<seq<OverdueGoal>>)
    ensures r.Some? <==> AllTargetsParse(goals, dayOf)
    ensures r.Some? ==> r.value == OverdueList(goals, today, dayOf)
    ensures r.Some? ==> forall o :: o in r.value ==> o.daysOverdue >= 1
  {
    var overdue: seq<OverdueGoal> := [];
    for i := 0 to |goals|
      invariant AllTargetsParse(goals[..i], dayOf)
      invariant overdue == OverdueList(goals[..i], today, dayOf)
    {
      var goal := goals[i];
      assert goals[..i + 1][..i] == goals[..i];
      match Get(goal, "target_date")
      case None =>
      case Some(t) =>
        if Truthy(t) {
          if !t.JStr? || dayOf(t.s).None? {
            assert !TargetParses(goals[i], dayOf);
            return None;
          }
          var d := dayOf(t.s).value;
          if d < today {
            overdue := overdue + [OverdueGoal(GoalOf(goal), t.s, today - d)];
          }
        }
    }
    assert goals[..|goals|] == goals;
    r := Some(overdue);
    forall o | o in overdue
      ensures o.daysOverdue >= 1
    {
      OverdueListSound(goals, today, dayOf, o);
    }
  }

  // ---------------------------------------------------------------------
  // _calculate_resilience_score (analytics.py:311-336)

  const ChallengeWords: seq<string> := ["problem", "difficult", "struggle", "setback", "failed"]

  const RecoveryWords: seq<string> := ["solved", "overcame", "better", "improved", "learned"]

  /** One of the (at most three) events after position `i` mentions a recovery word. */
  predicate RecoveredAfter(events: seq<Json>, i: int)
    requires 0 <= i < |events|
  {
    exists j :: i + 1 <= j < Min(i + 4, |events|) && Mentions(events[j], RecoveryWords)
  }

  /** Challenge events among the first `n`. */
  function ChallengeCount(events: seq<Json>, n: int): nat
    requires 0 <= n <= |events|
  {
    if n == 0 then 0
    else ChallengeCount(events, n - 1) + (if Mentions(events[n - 1], ChallengeWords) then 1 else 0)
  }

  /** Challenge events among the first `n` that are followed by a recovery; never more than the challenges. */
  function RecoveredCount(events: seq<Json>, n: int): (r: nat)
    requires 0 <= n <= |events|
    ensures r <= ChallengeCount(events, n)
  {
    if n == 0 then 0
    else
      var last := if Mentions(events[n - 1], ChallengeWords) && RecoveredAfter(events, n - 1) then 1 else 0;
      RecoveredCount(events, n - 1) + last
  }

  /**
   * The resilience score: 50 for fewer than five events, 75 when no event
   * mentions a challenge, else the percentage of challenges recovered from;
   * always within [0, 100].
   */
  function ResilienceScore(events: seq<Json>): (score: real)
    ensures |events| < 5 ==> score == 50.0
    ensures |events| >= 5 && ChallengeCount(events, |events|) == 0 ==> score == 75.0
    ensures 0.0 <= score <= 100.0
  {
    if |events| < 5 then 50.0
    else
      var c := ChallengeCount(events, |events|);
      var r := RecoveredCount(events, |events|);
      if c == 0 then 75.0
      else
        RatioAtMostOne(r, c);
        ((r as real) / (c as real)) * 100.0
  }

  lemma RatioAtMostOne(r: nat, c: nat)
    requires r <= c && c > 0
    ensures 0.0 <= (r as real) / (c as real) <= 1.0
  {
    var q := (r as real) / (c as real);
    assert q * (c as real) == r as real;
  }

  /** The nested window loop of `_calculate_resilience_score`. */
  method CalculateResilienceScore(events: seq<Json>) returns (score: real)
    ensures score == ResilienceScore(events)
    ensures |events| >= 5 && ChallengeCount(events, |events|) > 0 ==>
      score == (RecoveredCount(events, |events|) as real / ChallengeCount(events, |events|) as real) * 100.0
  {
    if |events| < 5 {
      return 50.0;
    }
    var resilient := 0;
    var total := 0;
    for i := 0 to |events|
      invariant total == ChallengeCount(events, i)
      invariant resilient == RecoveredCount(events, i)
    {
      if Mentions(events[i], ChallengeWords) {
        total := total + 1;
        var hi := Min(i + 4, |events|);
        var j := i + 1;
        while j < hi && !Mentions(events[j], RecoveryWords)
          invariant i + 1 <= j <= hi
          invariant forall k :: i + 1 <= k < j ==> !Mentions(events[k], RecoveryWords)
        {
          j := j + 1;
        }
        if j < hi {
          resilient := resilient + 1;
        }
      }
    }
    if total == 0 {
      return 75.0;
    }
    score := (resilient as real / total as real) * 100.0;
  }

  // ---------------------------------------------------------------------
  // _track_achievements (analytics.py:370-396)

  const AchievementWords: seq<string> :=
    ["achieved", "accomplished", "completed", "finished", "succeeded", "won", "graduated", "promoted"]

  datatype Achievement = Achievement(date: string, achievement: string, kind: Json)

  /** An achievement record; the stored type as it is, "general" when there is none. */
  function AchievementOf(event: Json): Achievement
  {
    Achievement(DateOf(event), EntryOf(event), match Get(event, "type") case Some(t) => t case None => JStr("general"))
  }

  datatype AchievementSummary = AchievementSummary(total: nat, recent: seq<Achievement>)

  /**
   * The number of events that mention an achievement word, and the
   * achievement records of the last ten of them, in order; None (the
   * ValueError of the month grouping) when some achievement's date does not
   * parse.
   */
  method TrackAchievements(events: seq<Json>, dayOf: string -> Option<int>) returns (r: Option<AchievementSummary>)
    ensures r.Some? <==> AllDatesParse(Mentioning(events, AchievementWords), dayOf)
    ensures r.Some? ==> r.value.total == |Mentioning(events, AchievementWords)| && r.value.total <= |events|
    ensures r.Some? ==> r.value.recent == Last(Map(Mentioning(events, AchievementWords), AchievementOf), 10)
    ensures r.Some? ==> |r.value.recent| == Min(10, r.value.total)
    ensures r.Some? ==> forall k :: 0 <= k < |r.value.recent| ==>
      exists e :: e in events && Mentions(e, AchievementWords) && r.value.recent[k] == AchievementOf(e)
  {
    var achievements := CollectAchievements(events);
    MentioningSpec(events, AchievementWords);
    var all := Mentioning(events, AchievementWords);
    var parsed := DatesParse(all, dayOf);
    if !parsed {
      return None;
    }
    var s := AchievementSummary(|achievements|, Last(achievements, 10));
    forall k | 0 <= k < |s.recent|
      ensures exists e :: e in events && Mentions(e, AchievementWords) && s.recent[k] == AchievementOf(e)
    {
      var m := |achievements| - |s.recent| + k;
      assert s.recent[k] == achievements[m] == AchievementOf(all[m]);
      assert all[m] in all;
    }
    r := Some(s);
  }

  /** The collecting loop of `_track_achievements`. */
  method CollectAchievements(events: seq<Json>) returns (achievements: seq<Achievement>)
    ensures achievements == Map(Mentioning(events, AchievementWords), AchievementOf)
  {
    achievements := [];
    for i := 0 to |events|
      invariant achievements == Map(Mentioning(events[..i], AchievementWords), AchievementOf)
    {
      MentioningStep(events, i, AchievementWords);
      MapAppend(Mentioning(events[..i], AchievementWords), if Mentions(events[i], AchievementWords) then [events[i]] else [], AchievementOf);
      if Mentions(events[i], AchievementWords) {
        achievements := achievements + [AchievementOf(events[i])];
      }
    }
    assert events[..|events|] == events;
  }

  /** The month-grouping loop, reduced to whether every date parses. */
  method DatesParse(events: seq<Json>, dayOf: string -> Option<int>) returns (ok: bool)
    ensures ok <==> AllDatesParse(events, dayOf)
  {
    for j := 0 to |events|
      invariant forall k :: 0 <= k < j ==> dayOf(DateOf(events[k])).Some?
    {
      if dayOf(DateOf(events[j])).None? {
        return false;
      }
    }
    return true;
  }

  // ---------------------------------------------------------------------
  // The weekly helpers (analytics.py:420-508)

  const WeeklyPositiveWords: seq<string> := ["happy", "excited", "accomplished", "grateful", "successful"]

  const WeeklyNegativeWords: seq<string> := ["stressed", "frustrated", "tired", "overwhelmed", "disappointed"]

  /** The total over the events of how many of `words` each mentions. */
  function WordHits(events: seq<Json>, words: seq<string>): nat
  {
    if events == [] then 0
    else WordHits(events[..|events| - 1], words) + CountIn(words, TextOf(events[|events| - 1]))
  }

  /**
   * `_analyze_weekly_mood`: "No entries this week" for no events; otherwise
   * which of the two word totals is larger, or "Balanced week" when equal.
   */
  method AnalyzeWeeklyMood(events: seq<Json>) returns (summary: string)
    ensures events == [] <==> summary == "No entries this week"
    ensures events != [] ==>
      (summary == "Predominantly positive" <==> WordHits(events, WeeklyPositiveWords) > WordHits(events, WeeklyNegativeWords))
    ensures events != [] ==>
      (summary == "Some challenges noted" <==> WordHits(events, WeeklyNegativeWords) > WordHits(events, WeeklyPositiveWords))
    ensures events != [] ==>
      (summary == "Balanced week" <==> WordHits(events, WeeklyNegativeWords) == WordHits(events, WeeklyPositiveWords))
  {
    if events == [] {
      return "No entries this week";
    }
    var positive := 0;
    var negative := 0;
    for i := 0 to |events|
      invariant positive == WordHits(events[..i], WeeklyPositiveWords)
      invariant negative == WordHits(events[..i], WeeklyNegativeWords)
    {
      assert events[..i + 1][..i] == events[..i];
      positive := positive + CountIn(WeeklyPositiveWords, TextOf(events[i]));
      negative := negative + CountIn(WeeklyNegativeWords, TextOf(events[i]));
    }
    assert events[..|events|] == events;
    if positive > negative {
      summary := "Predominantly positive";
    } else if negative > positive {
      summary := "Some challenges noted";
    } else {
      summary := "Balanced week";
    }
  }

  const WeeklyAchievementWords: seq<string> := ["achieved", "completed", "finished", "accomplished", "succeeded"]

  const WeeklyChallengeWords: seq<string> := ["difficult", "challenging", "struggle", "problem", "obstacle"]

  /** The first `n` entries of the events that mention one of `words`. */
  method FirstMentioning(events: seq<Json>, words: seq<string>, n: nat) returns (r: seq<string>)
    ensures r == Take(Map(Mentioning(events, words), EntryOf), n)
    ensures |r| <= n
    ensures IsSubsequence(r, Map(events, EntryOf))
    ensures forall k :: 0 <= k < |r| ==> AnyIn(words, Lower(r[k]))
  {
    var found: seq<string> := [];
    for i := 0 to |events|
      invariant found == Map(Mentioning(events[..i], words), EntryOf)
    {
      MentioningStep(events, i, words);
      MapAppend(Mentioning(events[..i], words), if Mentions(events[i], words) then [events[i]] else [], EntryOf);
      if Mentions(events[i], words) {
        found := found + [EntryOf(events[i])];
      }
    }
    assert events[..|events|] == events;
    MentioningSpec(events, words);
    MapSubsequence(Mentioning(events, words), events, EntryOf);
    TakeOfSubsequence(found, Map(events, EntryOf), n);
    r := Take(found, n);
    forall k | 0 <= k < |r|
      ensures AnyIn(words, Lower(r[k]))
    {
      assert r[k] == found[k] == EntryOf(Mentioning(events, words)[k]);
      assert Mentioner(words)(Mentioning(events, words)[k]);
    }
  }

  /** `_extract_weekly_achievements`: at most 5 entries, in order, each mentioning an achievement word. */
  method ExtractWeeklyAchievements(events: seq<Json>) returns (r: seq<string>)
    ensures r == Take(Map(Mentioning(events, WeeklyAchievementWords), EntryOf), 5)
    ensures |r| <= 5 && IsSubsequence(r, Map(events, EntryOf))
    ensures forall k :: 0 <= k < |r| ==> AnyIn(WeeklyAchievementWords, Lower(r[k]))
  {
    r := FirstMentioning(events, WeeklyAchievementWords, 5);
  }

  /** `_extract_weekly_challenges`: at most 3 entries, in order, each mentioning a challenge word. */
  method ExtractWeeklyChallenges(events: seq<Json>) returns (r: seq<string>)
    ensures r == Take(Map(Mentioning(events, WeeklyChallengeWords), EntryOf), 3)
    ensures |r| <= 3 && IsSubsequence(r, Map(events, EntryOf))
    ensures forall k :: 0 <= k < |r| ==> AnyIn(WeeklyChallengeWords, Lower(r[k]))
  {
    r := FirstMentioning(events, WeeklyChallengeWords, 3);
  }

  /** `goal["goal"].lower().split()[:3]`. */
  function GoalKeywords(goal: Json): seq<string>
  {
    Take(Words(Lower(GoalOf(goal))), 3)
  }

  /** Some event's lower-cased entry contains one of the goal's first three words. */
  predicate MentionedIn(goal: Json, events: seq<Json>)
  {
    exists k :: 0 <= k < |events| && AnyIn(GoalKeywords(goal), TextOf(events[k]))
  }

  function MentionedBy(events: seq<Json>): Json -> bool
  {
    g => MentionedIn(g, events)
  }

  /** The texts of the goals some event mentions, in goal order. */
  function MentionedGoals(goals: seq<Json>, events: seq<Json>): seq<string>
  {
    Map(Filter(goals, MentionedBy(events)), GoalOf)
  }

  /**
   * Each goal is listed at most once and in goal order (the result is a
   * subsequence of the goal texts), and only goals some event mentions.
   */
  lemma MentionedGoalsSpec(goals: seq<Json>, events: seq<Json>)
    ensures IsSubsequence(MentionedGoals(goals, events), Map(goals, GoalOf))
    ensures |MentionedGoals(goals, events)| <= |goals|
    ensures forall t :: t in MentionedGoals(goals, events) ==> exists g :: g in goals && MentionedIn(g, events) && GoalOf(g) == t
    ensures forall g :: g in goals && MentionedIn(g, events) ==> GoalOf(g) in MentionedGoals(goals, events)
  {
    FilterSpec(goals, MentionedBy(events));
    forall g | g in goals && MentionedIn(g, events)
      ensures GoalOf(g) in MentionedGoals(goals, events)
    {
      assert MentionedBy(events)(g);
      var f := Filter(goals, MentionedBy(events));
      assert g in f;
      var k :| 0 <= k < |f| && f[k] == g;
      assert MentionedGoals(goals, events)[k] == GoalOf(g);
    }
    MapSubsequence(Filter(goals, MentionedBy(events)), goals, GoalOf);
    forall t | t in MentionedGoals(goals, events)
      ensures exists g :: g in goals && MentionedIn(g, events) && GoalOf(g) == t
    {
      var k :| 0 <= k < |MentionedGoals(goals, events)| && MentionedGoals(goals, events)[k] == t;
      var g := Filter(goals, MentionedBy(events))[k];
      assert MentionedBy(events)(g);
      assert g in Filter(goals, MentionedBy(events));
    }
  }

  /** The nested loop with `break` of `_identify_goals_mentioned`. */
  method IdentifyGoalsMentioned(events: seq<Json>, goals: seq<Json>) returns (mentioned: seq<string>)
    ensures mentioned == MentionedGoals(goals, events)
    ensures IsSubsequence(mentioned, Map(goals, GoalOf))
  {
    mentioned := [];
    for i := 0 to |goals|
      invariant mentioned == MentionedGoals(goals[..i], events)
    {
      var keywords := GoalKeywords(goals[i]);
      var j := 0;
      while j < |events| && !AnyIn(keywords, TextOf(events[j]))
        invariant 0 <= j <= |events|
        invariant forall k :: 0 <= k < j ==> !AnyIn(keywords, TextOf(events[k]))
      {
        j := j + 1;
      }
      assert goals[..i + 1] == goals[..i] + [goals[i]];
      FilterAppend(goals[..i], [goals[i]], MentionedBy(events));
      MapAppend(Filter(goals[..i], MentionedBy(events)), Filter([goals[i]], MentionedBy(events)), GoalOf);
      if j < |events| {
        mentioned := mentioned + [GoalOf(goals[i])];
      }
    }
    assert goals[..|goals|] == goals;
    MentionedGoalsSpec(goals, events);
  }

  /** The texts of the active goals not among `mentioned`, in order. */
  function Unmentioned(active: seq<Json>, mentioned: seq<string>): (r: seq<string>)
    ensures forall t :: t in r <==> t in Map(active, GoalOf) && t !in mentioned
  {
    if active == [] then []
    else
      assert Map(active, GoalOf) == [GoalOf(active[0])] + Map(active[1..], GoalOf);
      (if GoalOf(active[0]) !in mentioned then [GoalOf(active[0])] else []) + Unmentioned(active[1..], mentioned)
  }

  const RecurringWords: seq<string> := ["difficult", "challenging", "struggle"]

  const ConsistencySuggestion := "Increase daily reflection consistency"

  const NeglectedPrefix := "Work on neglected goal: "

  const RecurringSuggestion := "Address recurring challenges " + "with specific action plans"

  const MomentumSuggestion := "Continue current positive momentum"

  /** The three rules of `_suggest_next_week_focus`. */
  predicate TooFewEntries(events: seq<Json>) { |events| < 3 }

  function Neglected(events: seq<Json>, goals: seq<Json>): seq<string>
  {
    Unmentioned(ActiveGoals(goals), MentionedGoals(goals, events))
  }

  predicate RecurringChallenges(events: seq<Json>)
  {
    |Mentioning(events, RecurringWords)| > 2
  }

  /** The suggestion of each rule that fires, in rule order. */
  function FocusRules(events: seq<Json>, goals: seq<Json>): seq<string>
  {
    (if TooFewEntries(events) then [ConsistencySuggestion] else [])
    + (if Neglected(events, goals) != [] then [NeglectedPrefix + Neglected(events, goals)[0]] else [])
    + (if RecurringChallenges(events) then [RecurringSuggestion] else [])
  }

  /** `suggestions[:3] if suggestions else [...]`. */
  function NextWeekFocus(events: seq<Json>, goals: seq<Json>): seq<string>
  {
    var rules := FocusRules(events, goals);
    if rules == [] then [MomentumSuggestion] else Take(rules, 3)
  }

  /**
   * One to three suggestions, one per rule that fires and in rule order;
   * exactly the momentum suggestion when none does.
   */
  lemma NextWeekFocusSpec(events: seq<Json>, goals: seq<Json>)
    ensures var r := NextWeekFocus(events, goals);
      && 1 <= |r| <= 3
      && (r == [MomentumSuggestion] <==>
            !TooFewEntries(events) && Neglected(events, goals) == [] && !RecurringChallenges(events))
      && (TooFewEntries(events) <==> ConsistencySuggestion in r)
      && (TooFewEntries(events) ==> r[0] == ConsistencySuggestion)
      && (Neglected(events, goals) != [] ==> NeglectedPrefix + Neglected(events, goals)[0] in r)
      && (RecurringChallenges(events) <==> RecurringSuggestion in r)
  {
    var rules := FocusRules(events, goals);
    assert ConsistencySuggestion[0] == 'I' && RecurringSuggestion[0] == 'A' && MomentumSuggestion[0] == 'C';
    assert Take(rules, 3) == rules;
    if Neglected(events, goals) != [] {
      assert (NeglectedPrefix + Neglected(events, goals)[0])[0] == 'W';
    }
  }

  /** A suggestion starts with the neglected-goal prefix exactly when some active goal goes unmentioned. */
  lemma NextWeekNeglectedSpec(events: seq<Json>, goals: seq<Json>)
    ensures Neglected(events, goals) != [] <==> exists s :: s in NextWeekFocus(events, goals) && NeglectedPrefix <= s
  {
    var rules := FocusRules(events, goals);
    var r := NextWeekFocus(events, goals);
    assert NeglectedPrefix[0] == 'W';
    assert Take(rules, 3) == rules;
    if Neglected(events, goals) != [] {
      var line := NeglectedPrefix + Neglected(events, goals)[0];
      assert NeglectedPrefix <= line;
      assert line in rules;
      assert ConsistencySuggestion[0] == 'I' && RecurringSuggestion[0] == 'A';
      assert line[0] == 'W';
      assert rules != [];
    } else {
      assert ConsistencySuggestion[0] == 'I' && RecurringSuggestion[0] == 'A' && MomentumSuggestion[0] == 'C';
      forall s | s in r
        ensures !(NeglectedPrefix <= s)
      {
        assert s == ConsistencySuggestion || s == RecurringSuggestion || s == MomentumSuggestion;
        assert s[0] != 'W';
      }
    }
  }

  /** `_suggest_next_week_focus`. */
  method SuggestNextWeekFocus(events: seq<Json>, goals: seq<Json>) returns (suggestions: seq<string>)
    ensures suggestions == NextWeekFocus(events, goals)
    ensures 1 <= |suggestions| <= 3
    ensures suggestions == [MomentumSuggestion] <==>
      !TooFewEntries(events) && Neglected(events, goals) == [] && !RecurringChallenges(events)
    ensures TooFewEntries(events) <==> ConsistencySuggestion in suggestions
    ensures TooFewEntries(events) ==> suggestions[0] == ConsistencySuggestion
    ensures Neglected(events, goals) != [] ==> NeglectedPrefix + Neglected(events, goals)[0] in suggestions
    ensures Neglected(events, goals) != [] <==> exists s :: s in suggestions && NeglectedPrefix <= s
    ensures RecurringChallenges(events) <==> RecurringSuggestion in suggestions
  {
    var s: seq<string> := [];
    if |events| < 3 {
      s := s + [ConsistencySuggestion];
    }
    var active := ActiveGoals(goals);
    var mentioned := IdentifyGoalsMentioned(events, goals);
    var unmentioned := Unmentioned(active, mentioned);
    if unmentioned != [] {
      s := s + [NeglectedPrefix + unmentioned[0]];
    }
    var repeated: seq<string> := [];
    for i := 0 to |events|
      invariant |repeated| == |Mentioning(events[..i], RecurringWords)|
    {
      MentioningStep(events, i, RecurringWords);
      if Mentions(events[i], RecurringWords) {
        repeated := repeated + [TextOf(events[i])];
      }
    }
    assert events[..|events|] == events;
    if |repeated| > 2 {
      s := s + [RecurringSuggestion];
    }
    assert s == FocusRules(events, goals);
    suggestions := if s == [] then [MomentumSuggestion] else Take(s, 3);
    NextWeekFocusSpec(events, goals);
    NextWeekNeglectedSpec(events, goals);
  }

  // ---------------------------------------------------------------------
  // _generate_summary_stats (analytics.py:29-41), its integer part

  datatype SummaryStats = SummaryStats(totalEntries: nat, totalGoals: nat, activeGoals: nat, daysTracked: nat)

  /** `_calculate_weekly_average` parses the first and the last date of a non-empty list. */
  predicate EndDatesParse(events: seq<Json>, dayOf: string -> Option<int>)
  {
    events == [] || (dayOf(DateOf(events[0])).Some? && dayOf(DateOf(events[|events| - 1])).Some?)
  }

  /** `_calculate_consistency_score` parses every date once there are seven entries or more. */
  predicate GapDatesParse(events: seq<Json>, dayOf: string -> Option<int>)
  {
    |events| < 7 || AllDatesParse(events, dayOf)
  }

  /**
   * None where the weekly average or the consistency score raises ValueError on a date;
   * otherwise the counts are list lengths, the active goals are among the goals and the
   * days among the entries.
   */
  function GenerateSummaryStats(memory: Record, dayOf: string -> Option<int>): (s: Option<SummaryStats>)
    requires Complete(memory)
    ensures var events := Events(memory);
      s.Some? <==>
        (events == [] || (dayOf(DateOf(events[0])).Some? && dayOf(DateOf(events[|events| - 1])).Some?))
        && (|events| < 7 || AllDatesParse(events, dayOf))
    ensures AllDatesParse(Events(memory), dayOf) ==> s.Some?
    ensures s.Some? ==> s.value.totalEntries == |Events(memory)| && s.value.totalGoals == |Goals(memory)|
    ensures s.Some? ==> s.value.activeGoals == |ActiveGoals(Goals(memory))| && s.value.activeGoals <= s.value.totalGoals
    ensures s.Some? ==> s.value.daysTracked == TrackingDays(Events(memory))
    ensures s.Some? ==> s.value.daysTracked <= s.value.totalEntries && (s.value.daysTracked == 0 <==> s.value.totalEntries == 0)
  {
    var events := Events(memory);
    if EndDatesParse(events, dayOf) && GapDatesParse(events, dayOf) then
      Some(SummaryStats(|events|, |Goals(memory)|, |ActiveGoals(Goals(memory))|, TrackingDays(events)))
    else
      None
  }
}
