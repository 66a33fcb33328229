/**
 * career_coach.py: `CareerCoach`, which records career input as a typed
 * life event through a `LifeMemoryManager`, answers through the
 * language-model API, counts career keywords into the `career_focus`
 * pattern, and derives insights, skill recommendations and career plans
 * from the memory file.
 */
module CareerCoaching {
  import opened Json
  import opened Text
  import opened Store
  import opened Models
  import opened Analytics

  // ---------------------------------------------------------------------
  // The filters (career_coach.py:68-76)

  /** `[event for event in life_events if event.get("type") == "career"]`. */
  function CareerEvents(events: seq<Json>): seq<Json>
  {
    Filter(events, IsCareer)
  }

  /** Exactly the career events, in stored order. */
  lemma CareerEventsSpec(events: seq<Json>)
    ensures IsSubsequence(CareerEvents(events), events)
    ensures forall e :: e in CareerEvents(events) <==> e in events && IsCareer(e)
    ensures |CareerEvents(events)| <= |events|
  {
    FilterSpec(events, IsCareer);
  }

  /** A goal whose lower-cased text mentions "career" or "job". */
  predicate IsProfessional(goal: Json)
  {
    Contains(Lower(GoalOf(goal)), "career") || Contains(Lower(GoalOf(goal)), "job")
  }

  function ProfessionalGoals(goals: seq<Json>): seq<Json>
  {
    Filter(goals, IsProfessional)
  }

  /** Exactly the goals that mention "career" or "job", in stored order. */
  lemma ProfessionalGoalsSpec(goals: seq<Json>)
    ensures IsSubsequence(ProfessionalGoals(goals), goals)
    ensures forall g :: g in ProfessionalGoals(goals) <==> g in goals && IsProfessional(g)
    ensures |ProfessionalGoals(goals)| <= |goals|
  {
    FilterSpec(goals, IsProfessional);
  }

  // ---------------------------------------------------------------------
  // The career context (career_coach.py:83-105)

  function HistoryLine(event: Json): string
  {
    "- " + DateOf(event) + ": " + EntryOf(event) + "\n"
  }

  /** `goal.get('target_date', 'Not set')` as a format field shows it. */
  function TargetText(goal: Json): string
  {
    match Get(goal, "target_date")
    case None => "Not set"
    case Some(JNull) => "None"
    case Some(JStr(s)) => s
    case Some(JInt(i)) => IntToString(i)
    case Some(JBool(b)) => if b then "True" else "False"
    case Some(_) => ""
  }

  function GoalLine(goal: Json): string
  {
    "- " + GoalOf(goal) + " (Target: " + TargetText(goal) + ")\n"
  }

  /** A skill entry as `- skill: data`, with `data` already rendered as text. */
  function SkillLine(item: (string, string)): string
  {
    "- " + item.0 + ": " + item.1 + "\n"
  }

  /** A titled section, or nothing at all when it has no lines. */
  function Section(title: string, lines: seq<string>): string
  {
    if lines == [] then "" else title + Concat(lines) + "\n"
  }

  function ContextHeader(today: string): string
  {
    "Career Analysis Date: " + today + "\n\n"
  }

  function HistorySection(careerEvents: seq<Json>): string
  {
    Section("Career History:\n", Map(Last(careerEvents, 10), HistoryLine))
  }

  function GoalsSection(goals: seq<Json>): string
  {
    Section("Professional Goals:\n", Map(goals, GoalLine))
  }

  function SkillsSection(skills: seq<(string, string)>): string
  {
    Section("Skill Assessment Data:\n", Map(skills, SkillLine))
  }

  function CareerContext(today: string, careerEvents: seq<Json>, goals: seq<Json>, skills: seq<(string, string)>): string
  {
    ContextHeader(today) + HistorySection(careerEvents) + GoalsSection(goals) + SkillsSection(skills)
  }

  /**
   * The history lists the last (at most ten) career events in order, the
   * goals section every professional goal, and each section is left out
   * exactly when its input is empty.
   */
  lemma CareerContextSections(careerEvents: seq<Json>, goals: seq<Json>, skills: seq<(string, string)>)
    ensures HistorySection(careerEvents) == "" <==> careerEvents == []
    ensures GoalsSection(goals) == "" <==> goals == []
    ensures SkillsSection(skills) == "" <==> skills == []
    ensures |Map(Last(careerEvents, 10), HistoryLine)| == Min(10, |careerEvents|)
    ensures forall k :: 0 <= k < Min(10, |careerEvents|) ==>
      Map(Last(careerEvents, 10), HistoryLine)[k] == HistoryLine(careerEvents[|careerEvents| - Min(10, |careerEvents|) + k])
    ensures careerEvents != [] ==> HistorySection(careerEvents) == "Career History:\n" + Concat(Map(Last(careerEvents, 10), HistoryLine)) + "\n"
  {
    if careerEvents != [] {
      assert |HistorySection(careerEvents)| > 0;
    }
    if goals != [] {
      assert |GoalsSection(goals)| > 0;
    }
    if skills != [] {
      assert |SkillsSection(skills)| > 0;
    }
  }

  /** One `if items: context += title; for …: context += line; context += "\n"` block. */
  method SectionOf<T>(title: string, items: seq<T>, line: T -> string) returns (s: string)
    ensures s == Section(title, Map(items, line))
  {
    s := "";
    if items != [] {
      s := title;
      for i := 0 to |items|
        invariant s == title + Concat(Map(items[..i], line))
      {
        assert items[..i + 1] == items[..i] + [items[i]];
        MapAppend(items[..i], [items[i]], line);
        assert Map(items[..i + 1], line)[..i] == Map(items[..i], line);
        s := s + line(items[i]);
      }
      assert items[..|items|] == items;
      s := s + "\n";
    }
  }

  /**
   * `_build_career_context`. `skills` are the entries of the `skills`
   * pattern in the dict's order, each value already rendered as text.
   */
  method BuildCareerContext(today: string, careerEvents: seq<Json>, goals: seq<Json>, skills: seq<(string, string)>)
    returns (context: string)
    ensures context == CareerContext(today, careerEvents, goals, skills)
  {
    context := ContextHeader(today);
    var history := SectionOf("Career History:\n", Last(careerEvents, 10), HistoryLine);
    context := context + history;
    var professional := SectionOf("Professional Goals:\n", goals, GoalLine);
    context := context + professional;
    var skillData := SectionOf("Skill Assessment Data:\n", skills, SkillLine);
    context := context + skillData;
  }

  // ---------------------------------------------------------------------
  // Career keyword counts (career_coach.py:136-159)

  const GrowthKeywords: seq<string> := ["promotion", "raise", "advancement", "leadership", "management"]

  const LearningKeywords: seq<string> := ["course", "training", "certification", "skill", "education"]

  const ChallengeKeywords: seq<string> := ["stress", "conflict", "difficulty", "struggle", "problem"]

  const NetworkingKeywords: seq<string> := ["meeting", "conference", "connection", "mentor", "colleague"]

  const TransitionKeywords: seq<string> := ["interview", "application", "job search", "career change"]

  /** The `career_keywords` dict, in its insertion order. */
  const CareerKeywords: seq<(string, seq<string>)> := [
    ("growth", GrowthKeywords), ("learning", LearningKeywords), ("challenges", ChallengeKeywords),
    ("networking", NetworkingKeywords), ("transitions", TransitionKeywords)]

  /** The lower-cased entries of the last five career events joined by spaces, a space, and the lower-cased input. */
  function FocusText(input: string, careerEvents: seq<Json>): string
  {
    Join(Map(Last(careerEvents, 5), TextOf), " ") + " " + Lower(input)
  }

  /** The counts dict filled category by category. */
  function FocusFrom(groups: seq<(string, seq<string>)>, text: string): map<string, Json>
  {
    if groups == [] then map[]
    else
      var g := groups[|groups| - 1];
      FocusFrom(groups[..|groups| - 1], text)[g.0 := JInt(CountIn(g.1, text))]
  }

  /** No category name occurs twice. */
  predicate NamesDistinct(groups: seq<(string, seq<string>)>)
  {
    forall i, j :: 0 <= i < j < |groups| ==> groups[i].0 != groups[j].0
  }

  /** The entries are exactly the category names. */
  lemma {:induction false} FocusFromKeys(groups: seq<(string, seq<string>)>, text: string)
    ensures forall x :: x in FocusFrom(groups, text) <==> exists j :: 0 <= j < |groups| && groups[j].0 == x
    decreases |groups|
  {
    if groups != [] {
      var init := groups[..|groups| - 1];
      FocusFromKeys(init, text);
      forall x | x in FocusFrom(groups, text)
        ensures exists j :: 0 <= j < |groups| && groups[j].0 == x
      {
        if x != groups[|groups| - 1].0 {
          assert x in FocusFrom(init, text);
          var j :| 0 <= j < |init| && init[j].0 == x;
          assert groups[j] == init[j];
        }
      }
      forall x | exists j :: 0 <= j < |groups| && groups[j].0 == x
        ensures x in FocusFrom(groups, text)
      {
        var j :| 0 <= j < |groups| && groups[j].0 == x;
        if j < |groups| - 1 {
          assert groups[j] == init[j];
        }
      }
    }
  }

  /** With distinct names, each category's entry is the number of its keywords found. */
  lemma {:induction false} FocusFromValues(groups: seq<(string, seq<string>)>, text: string)
    requires NamesDistinct(groups)
    ensures forall j :: 0 <= j < |groups| ==>
      groups[j].0 in FocusFrom(groups, text) && FocusFrom(groups, text)[groups[j].0] == JInt(CountIn(groups[j].1, text))
    decreases |groups|
  {
    if groups != [] {
      var init := groups[..|groups| - 1];
      assert NamesDistinct(init) by {
        forall i, j | 0 <= i < j < |init|
          ensures init[i].0 != init[j].0
        {
          assert init[i] == groups[i] && init[j] == groups[j];
        }
      }
      FocusFromValues(init, text);
      forall j | 0 <= j < |groups|
        ensures groups[j].0 in FocusFrom(groups, text)
        ensures FocusFrom(groups, text)[groups[j].0] == JInt(CountIn(groups[j].1, text))
      {
        if j < |groups| - 1 {
          assert groups[j] == init[j];
          assert groups[j].0 != groups[|groups| - 1].0;
        }
      }
    }
  }

  /** The `pattern_analysis` dict for a text. */
  function Focus(text: string): map<string, Json>
  {
    FocusFrom(CareerKeywords, text)
  }

  /**
   * Exactly five categories, none of them "leadership"; each holds the
   * number of its keywords the text contains, so at most five, and more
   * than zero exactly when one of them occurs.
   */
  lemma FocusSpec(text: string)
    ensures Focus(text).Keys == {"growth", "learning", "challenges", "networking", "transitions"}
    ensures "leadership" !in Focus(text)
    ensures forall j :: 0 <= j < |CareerKeywords| ==>
      var c := Focus(text)[CareerKeywords[j].0];
      && c == JInt(CountIn(CareerKeywords[j].1, text))
      && 0 <= c.i <= 5
      && (c.i > 0 <==> AnyIn(CareerKeywords[j].1, text))
  {
    FocusKeys(text);
    FocusCounts(text);
  }

  lemma FocusKeys(text: string)
    ensures Focus(text).Keys == {"growth", "learning", "challenges", "networking", "transitions"}
    ensures "leadership" !in Focus(text)
  {
    FocusFromKeys(CareerKeywords, text);
    assert CareerKeywords[0].0 == "growth" && CareerKeywords[1].0 == "learning";
    assert CareerKeywords[2].0 == "challenges" && CareerKeywords[3].0 == "networking";
    assert CareerKeywords[4].0 == "transitions";
  }

  lemma FocusCounts(text: string)
    ensures forall j :: 0 <= j < |CareerKeywords| ==>
      CareerKeywords[j].0 in Focus(text) &&
      var c := Focus(text)[CareerKeywords[j].0];
      && c == JInt(CountIn(CareerKeywords[j].1, text))
      && 0 <= c.i <= 5
      && (c.i > 0 <==> AnyIn(CareerKeywords[j].1, text))
  {
    assert NamesDistinct(CareerKeywords);
    FocusFromValues(CareerKeywords, text);
  }

  /** A keyword in the current input, or in one of the last five career entries, is counted. */
  lemma FocusSeesKeyword(input: string, careerEvents: seq<Json>, j: int, w: int)
    requires 0 <= j < |CareerKeywords| && 0 <= w < |CareerKeywords[j].1|
    requires Contains(Lower(input), CareerKeywords[j].1[w])
      || exists e :: e in Last(careerEvents, 5) && Contains(TextOf(e), CareerKeywords[j].1[w])
    ensures CountIn(CareerKeywords[j].1, FocusText(input, careerEvents)) >= 1
  {
    var word := CareerKeywords[j].1[w];
    var recent := Map(Last(careerEvents, 5), TextOf);
    if Contains(Lower(input), word) {
      ContainsInConcat(Join(recent, " ") + " ", Lower(input), word);
    } else {
      var e :| e in Last(careerEvents, 5) && Contains(TextOf(e), word);
      var k :| 0 <= k < |Last(careerEvents, 5)| && Last(careerEvents, 5)[k] == e;
      ContainsInJoin(recent, " ", k, word);
      ContainsInConcat(Join(recent, " "), " ", word);
      ContainsInConcat(Join(recent, " ") + " ", Lower(input), word);
    }
  }

  /** The category loop of `_analyze_career_patterns`. */
  method CareerFocus(input: string, careerEvents: seq<Json>) returns (focus: map<string, Json>)
    ensures focus == Focus(FocusText(input, careerEvents))
  {
    var text := FocusText(input, careerEvents);
    focus := map[];
    for i := 0 to |CareerKeywords|
      invariant focus == FocusFrom(CareerKeywords[..i], text)
    {
      var (category, keywords) := CareerKeywords[i];
      var count := CountKeywords(keywords, text);
      assert CareerKeywords[..i + 1][..i] == CareerKeywords[..i];
      focus := focus[category := JInt(count)];
    }
    assert CareerKeywords[..|CareerKeywords|] == CareerKeywords;
  }

  /** `sum(1 for keyword in keywords if keyword in text)`. */
  method CountKeywords(keywords: seq<string>, text: string) returns (count: nat)
    ensures count == CountIn(keywords, text)
  {
    count := 0;
    for w := 0 to |keywords|
      invariant count == CountIn(keywords[..w], text)
    {
      assert keywords[..w + 1] == keywords[..w] + [keywords[w]];
      CountInAppend(keywords[..w], keywords[w], text);
      if Contains(text, keywords[w]) {
        count := count + 1;
      }
    }
    assert keywords[..|keywords|] == keywords;
  }

  // ---------------------------------------------------------------------
  // Insights, skills and next steps (career_coach.py:161-205)

  const InsightPlaceholder := "Build more career history to generate insights"

  const ActiveInsight := "Active career development - regular professional updates"

  const GrowthInsight := "Positive career trajectory detected"

  const GrowthWords: seq<string> := ["promotion", "raise", "new role", "leadership"]

  /** Some of the last five career entries mentions a growth word. */
  predicate RecentGrowth(careerEvents: seq<Json>)
  {
    exists k :: 0 <= k < |Last(careerEvents, 5)| && Mentions(Last(careerEvents, 5)[k], GrowthWords)
  }

  function CareerInsights(careerEvents: seq<Json>): seq<string>
  {
    if |careerEvents| < 3 then [InsightPlaceholder]
    else
      var recent := Last(careerEvents, 5);
      (if |recent| >= 3 then [ActiveInsight] else []) + (if RecentGrowth(careerEvents) then [GrowthInsight] else [])
  }

  /**
   * Fewer than three career events give only the placeholder; otherwise
   * the activity insight comes first and the growth insight follows exactly
   * when one of the last five entries mentions a growth word.
   */
  lemma CareerInsightsSpec(careerEvents: seq<Json>)
    ensures |careerEvents| < 3 ==> CareerInsights(careerEvents) == [InsightPlaceholder]
    ensures |careerEvents| >= 3 ==>
      var r := CareerInsights(careerEvents);
      && 1 <= |r| <= 2 && r[0] == ActiveInsight
      && (GrowthInsight in r <==> RecentGrowth(careerEvents))
      && InsightPlaceholder !in r
  {
    if |careerEvents| >= 3 {
      assert |Last(careerEvents, 5)| >= 3;
      assert |GrowthInsight| != |ActiveInsight| && |InsightPlaceholder| != |ActiveInsight|;
      assert |InsightPlaceholder| != |GrowthInsight|;
    }
  }

  /** `_generate_career_insights`. */
  method GenerateCareerInsights(careerEvents: seq<Json>) returns (insights: seq<string>)
    ensures insights == CareerInsights(careerEvents)
  {
    if |careerEvents| < 3 {
      return [InsightPlaceholder];
    }
    insights := [];
    var recent := Last(careerEvents, 5);
    if |recent| >= 3 {
      insights := insights + [ActiveInsight];
    }
    var growth := false;
    var i := 0;
    while i < |recent| && !growth
      invariant 0 <= i <= |recent|
      invariant growth <==> exists k :: 0 <= k < i && Mentions(recent[k], GrowthWords)
    {
      growth := Mentions(recent[i], GrowthWords);
      i := i + 1;
    }
    assert growth <==> RecentGrowth(careerEvents);
    if growth {
      insights := insights + [GrowthInsight];
    }
  }

  const LeadershipRecommendation := "Leadership and team management skills"

  const CertificationRecommendation := "Continuous learning mindset - consider advanced certifications"

  const NetworkingRecommendation := "Professional networking and relationship building"

  const DefaultRecommendation := "Focus on core technical skills in your field"

  /**
   * `patterns.get(key, 0)` about to be compared with an integer: a missing
   * key reads 0, a bool reads as 0 or 1, and any other value, or a `patterns`
   * that is not a dict, raises (None).
   */
  function CountField(focus: Json, key: string): Option<int>
  {
    if !focus.JObject? then None
    else
      match Get(focus, key)
      case None => Some(0)
      case Some(JInt(n)) => Some(n)
      case Some(JBool(b)) => Some(if b then 1 else 0)
      case Some(_) => None
  }

  /** The three rules of `_recommend_skills` over the dict it reads; None when a comparison raises. */
  function SkillRecommendations(focus: Json): Option<seq<string>>
  {
    var leadership := CountField(focus, "leadership");
    var learning := CountField(focus, "learning");
    var networking := CountField(focus, "networking");
    if leadership.None? || learning.None? || networking.None? then None
    else
      var r := (if leadership.value > 0 then [LeadershipRecommendation] else [])
        + (if learning.value > 2 then [CertificationRecommendation] else [])
        + (if networking.value < 1 then [NetworkingRecommendation] else []);
      Some(if r == [] then [DefaultRecommendation] else r)
  }

  /**
   * The list is never empty; each rule's recommendation is present exactly
   * when its count passes the rule's threshold, and the default stands
   * alone exactly when no rule fires.
   */
  lemma SkillRecommendationsSpec(focus: Json)
    ensures var r := SkillRecommendations(focus);
      r.Some? <==> (CountField(focus, "leadership").Some? && CountField(focus, "learning").Some?
        && CountField(focus, "networking").Some?)
    ensures var r := SkillRecommendations(focus);
      r.Some? ==>
        && r.value != []
        && (LeadershipRecommendation in r.value <==> CountField(focus, "leadership").value > 0)
        && (CertificationRecommendation in r.value <==> CountField(focus, "learning").value > 2)
        && (NetworkingRecommendation in r.value <==> CountField(focus, "networking").value < 1)
        && (r.value == [DefaultRecommendation] <==>
              CountField(focus, "leadership").value <= 0 && CountField(focus, "learning").value <= 2
              && CountField(focus, "networking").value >= 1)
  {
    assert |LeadershipRecommendation| != |CertificationRecommendation|;
    assert |LeadershipRecommendation| != |NetworkingRecommendation|;
    assert |CertificationRecommendation| != |NetworkingRecommendation|;
    assert |DefaultRecommendation| != |LeadershipRecommendation|;
    assert |DefaultRecommendation| != |CertificationRecommendation|;
    assert |DefaultRecommendation| != |NetworkingRecommendation|;
  }

  /** `memory.get("patterns", {}).get("career_focus", {})`. */
  function FocusEntry(memory: Record): Json
    requires Complete(memory)
  {
    if "career_focus" in Patterns(memory) then Patterns(memory)["career_focus"] else JObject(map[])
  }

  /** `_recommend_skills` on a loaded record, as written: it reads the stored entry's top level. */
  function RecommendedSkills(memory: Record): Option<seq<string>>
    requires Complete(memory)
  {
    SkillRecommendations(FocusEntry(memory))
  }

  /**
   * As written, any entry `update_pattern` stored has only `data` and
   * `last_updated` at its top level: every count reads 0, so the answer is
   * always the networking recommendation alone, whatever was counted.
   */
  lemma AsWrittenSkillsIgnoreCounts(data: Json, now: string)
    ensures SkillRecommendations(WrappedPattern(data, now)) == Some([NetworkingRecommendation])
  {
    var p := WrappedPattern(data, now);
    assert "leadership" !in p.fields && "learning" !in p.fields && "networking" !in p.fields;
    assert CountField(p, "leadership") == Some(0) && CountField(p, "learning") == Some(0);
    assert CountField(p, "networking") == Some(0);
    var r: seq<string> := [] + [] + [NetworkingRecommendation];
    assert r == [NetworkingRecommendation];
  }

  /** After `update_pattern("career_focus", data)` the events stay and the skills answer is the networking advice. */
  lemma FocusUpdateEffect(memory: Record, data: Json, now: string)
    requires Complete(memory)
    ensures var m := SetPattern(memory, "career_focus", WrappedPattern(data, now));
      && Events(m) == Events(memory)
      && Patterns(m)["career_focus"] == WrappedPattern(data, now)
      && RecommendedSkills(m) == Some([NetworkingRecommendation])
  {
    AsWrittenSkillsIgnoreCounts(data, now);
  }

  /** The dict `_recommend_skills` evidently means to read: the counts under `data`. */
  function CorrectedFocus(entry: Json): Json
  {
    match Get(entry, "data")
    case Some(d) => d
    case None => JObject(map[])
  }

  function CorrectedRecommendedSkills(memory: Record): Option<seq<string>>
    requires Complete(memory)
  {
    SkillRecommendations(CorrectedFocus(FocusEntry(memory)))
  }

  /**
   * Reading `data`, the recommendations follow the stored counts: the
   * certification advice exactly when more than two learning keywords were
   * found, the networking advice exactly when no networking keyword was,
   * and never the leadership advice, which has no category.
   */
  lemma CorrectedSkillsFollowCounts(memory: Record, input: string, careerEvents: seq<Json>, now: string)
    requires Complete(memory)
    requires FocusEntry(memory) == WrappedPattern(JObject(Focus(FocusText(input, careerEvents))), now)
    ensures var f := Focus(FocusText(input, careerEvents));
      var r := CorrectedRecommendedSkills(memory);
      && r.Some? && r.value != []
      && LeadershipRecommendation !in r.value
      && (CertificationRecommendation in r.value <==> CountIn(LearningKeywords, FocusText(input, careerEvents)) > 2)
      && (NetworkingRecommendation in r.value <==> !AnyIn(NetworkingKeywords, FocusText(input, careerEvents)))
  {
    var text := FocusText(input, careerEvents);
    FocusSpec(text);
    var f := JObject(Focus(text));
    assert CorrectedFocus(FocusEntry(memory)) == f;
    assert CareerKeywords[1] == ("learning", LearningKeywords);
    assert CareerKeywords[3] == ("networking", NetworkingKeywords);
    assert CountField(f, "leadership") == Some(0);
    assert CountField(f, "learning") == Some(CountIn(LearningKeywords, text));
    assert CountField(f, "networking") == Some(CountIn(NetworkingKeywords, text));
    SkillRecommendationsSpec(f);
  }

  /** `_suggest_next_steps`: a fixed list. */
  const NextSteps: seq<string> := [
    "Update your resume with recent achievements",
    "Set up informational interviews in your target field",
    "Identify 2-3 key skills to develop this quarter",
    "Establish regular career check-ins with your manager"]

  // ---------------------------------------------------------------------
  // Career plans (career_coach.py:207-263)

  /** `memory.get("career_plans", [])`. */
  function Plans(memory: Record): seq<Json>
    requires Shaped(memory)
  {
    if "career_plans" in memory then memory["career_plans"].items else []
  }

  function NewPlan(plan: string, today: string, timeframe: string): Json
  {
    JObject(map[
      "plan" := JStr(plan), "created_date" := JStr(today),
      "timeframe" := JStr(timeframe), "status" := JStr("active")])
  }

  /**
   * The record `create_career_plan` saves: one active plan appended to
   * `career_plans` (created when missing); every other key unchanged.
   */
  function WithPlan(memory: Record, plan: string, today: string, timeframe: string): (r: Record)
    requires Complete(memory)
    ensures Complete(r) && r.Keys == memory.Keys + {"career_plans"}
    ensures Plans(r) == Plans(memory) + [NewPlan(plan, today, timeframe)]
    ensures Get(Plans(r)[|Plans(memory)|], "status") == Some(JStr("active"))
    ensures Get(Plans(r)[|Plans(memory)|], "timeframe") == Some(JStr(timeframe))
    ensures Events(r) == Events(memory) && Goals(r) == Goals(memory) && Patterns(r) == Patterns(memory)
    ensures forall k :: k in memory && k != "career_plans" ==> r[k] == memory[k]
  {
    memory["career_plans" := JList(Plans(memory) + [NewPlan(plan, today, timeframe)])]
  }

  /** What `create_career_plan` returns. */
  datatype PlanReply = PlanReply(success: bool, plan: string, planId: nat)

  /** What `analyze_career_path` returns; the error text of a failure is not modelled. */
  datatype CareerReply = CareerReply(
    success: bool, response: string, insights: seq<string>, skills: seq<string>, nextSteps: seq<string>)

  const TroubleReply := "I'm having trouble analyzing your career path. Please try again."

  class CareerCoach {
    const manager: LifeMemoryManager

    constructor (manager: LifeMemoryManager)
      ensures this.manager == manager
    {
      this.manager := manager;
    }

    ghost predicate Valid()
      reads this, manager, manager.file
    {
      manager.Valid()
    }

    /** `_get_career_events` (career_coach.py:68-71). */
    method GetCareerEvents() returns (events: seq<Json>)
      requires Valid()
      ensures events == CareerEvents(Events(manager.Loaded()))
      ensures forall e :: e in events <==> e in Events(manager.Loaded()) && IsCareer(e)
    {
      var memory := manager.LoadMemory();
      events := CareerEvents(Events(memory));
      CareerEventsSpec(Events(memory));
    }

    /** `_get_professional_goals` (career_coach.py:73-76). */
    method GetProfessionalGoals() returns (goals: seq<Json>)
      requires Valid()
      ensures goals == ProfessionalGoals(Goals(manager.Loaded()))
      ensures forall g :: g in goals <==> g in Goals(manager.Loaded()) && IsProfessional(g)
    {
      var memory := manager.LoadMemory();
      goals := ProfessionalGoals(Goals(memory));
      ProfessionalGoalsSpec(Goals(memory));
    }

    /**
     * `_analyze_career_patterns` (career_coach.py:136-159): the five counts
     * go to `update_pattern("career_focus", …)`; nothing else changes.
     */
    method AnalyzeCareerPatterns(input: string, careerEvents: seq<Json>, now: string)
      requires Valid()
      modifies manager.file
      ensures Valid() && manager.file.writable == old(manager.file.writable)
      ensures var data := JObject(Focus(FocusText(input, careerEvents)));
        manager.file.stored ==
          if old(manager.file.writable) then Holds(SetPattern(old(manager.Loaded()), "career_focus", WrappedPattern(data, now)))
          else old(manager.file.stored)
    {
      var focus := CareerFocus(input, careerEvents);
      var ok := manager.UpdatePattern("career_focus", JObject(focus), now);
    }

    /** `_recommend_skills` (career_coach.py:180-196), on the file as it stands. */
    method RecommendSkills() returns (r: Option<seq<string>>)
      requires Valid()
      ensures r == RecommendedSkills(manager.Loaded())
      ensures r.Some? ==> r.value != []
    {
      var memory := manager.LoadMemory();
      var focus := FocusEntry(memory);
      SkillRecommendationsSpec(focus);
      var leadership := CountField(focus, "leadership");
      var learning := CountField(focus, "learning");
      var networking := CountField(focus, "networking");
      if leadership.None? || learning.None? || networking.None? {
        return None;
      }
      var recommendations: seq<string> := [];
      if leadership.value > 0 {
        recommendations := recommendations + [LeadershipRecommendation];
      }
      if learning.value > 2 {
        recommendations := recommendations + [CertificationRecommendation];
      }
      if networking.value < 1 {
        recommendations := recommendations + [NetworkingRecommendation];
      }
      assert recommendations == (if leadership.value > 0 then [LeadershipRecommendation] else [])
        + (if learning.value > 2 then [CertificationRecommendation] else [])
        + (if networking.value < 1 then [NetworkingRecommendation] else []);
      r := Some(if recommendations == [] then [DefaultRecommendation] else recommendations);
    }

    /**
     * `analyze_career_path` (career_coach.py:24-66). `reply` is the API's
     * answer, None when the call raises. The input is stored as a "career"
     * event before the call, so it is kept even when the call fails; after
     * a reply the counts are stored and, as written, the networking
     * recommendation is the only one given.
     */
    method AnalyzeCareerPath(input: string, today: string, now: string, reply: Option<string>) returns (r: CareerReply)
      requires Valid()
      modifies manager.file
      ensures Valid() && manager.file.writable == old(manager.file.writable)
      ensures !old(manager.file.writable) ==> manager.file.stored == old(manager.file.stored)
      ensures old(manager.file.writable) ==>
        Events(manager.Loaded()) == Events(WithTypedEvent(old(manager.Loaded()), input, "career", today, now))
      ensures reply.None? ==> !r.success && r.response == TroubleReply
      ensures reply.None? && old(manager.file.writable) ==>
        manager.Loaded() == WithTypedEvent(old(manager.Loaded()), input, "career", today, now)
      ensures r.success ==> reply.Some? && r.response == reply.value && r.nextSteps == NextSteps
      ensures old(manager.file.writable) && reply.Some? ==>
        var careerEvents := CareerEvents(Events(WithTypedEvent(old(manager.Loaded()), input, "career", today, now)));
        && r.success
        && r.insights == CareerInsights(careerEvents)
        && r.skills == [NetworkingRecommendation]
        && "career_focus" in Patterns(manager.Loaded())
        && Patterns(manager.Loaded())["career_focus"]
             == WrappedPattern(JObject(Focus(FocusText(input, careerEvents))), now)
      ensures !old(manager.file.writable) && reply.Some? ==>
        && (r.success <==> RecommendedSkills(old(manager.Loaded())).Some?)
        && (r.success ==>
              && r.insights == CareerInsights(CareerEvents(Events(old(manager.Loaded()))))
              && r.skills == RecommendedSkills(old(manager.Loaded())).value)
    {
      var added := manager.AddLifeEvent(input, today, now, "career");
      ghost var afterEvent := manager.Loaded();
      var careerEvents := GetCareerEvents();
      var goals := GetProfessionalGoals();
      if reply.None? {
        return CareerReply(false, TroubleReply, [], [], []);
      }
      AnalyzeCareerPatterns(input, careerEvents, now);
      ghost var data := JObject(Focus(FocusText(input, careerEvents)));
      if manager.file.writable {
        manager.ReloadSaved(SetPattern(afterEvent, "career_focus", WrappedPattern(data, now)));
        FocusUpdateEffect(afterEvent, data, now);
        assert manager.Loaded() == SetPattern(afterEvent, "career_focus", WrappedPattern(data, now));
      }
      var insights := GenerateCareerInsights(careerEvents);
      var skills := RecommendSkills();
      assert manager.file.writable ==> skills == Some([NetworkingRecommendation]);
      if skills.None? {
        return CareerReply(false, TroubleReply, [], [], []);
      }
      r := CareerReply(true, reply.value, insights, skills.value, NextSteps);
    }

    /**
     * `create_career_plan` (career_coach.py:207-263). `reply` is the API's
     * plan, None when the call raises, and then nothing is written. On a
     * reply one active plan is appended and its number returned, which
     * `plan_id` reports whether or not the save succeeded.
     */
    method CreateCareerPlan(today: string, reply: Option<string>, timeframe: string := "6months") returns (r: PlanReply)
      requires Valid()
      modifies manager.file
      ensures Valid() && manager.file.writable == old(manager.file.writable)
      ensures reply.None? ==> !r.success && manager.file.stored == old(manager.file.stored)
      ensures reply.Some? ==> r.success && r.plan == reply.value && r.planId == |Plans(old(manager.Loaded()))| + 1
      ensures reply.Some? ==> (manager.file.stored ==
        if old(manager.file.writable) then Holds(WithPlan(old(manager.Loaded()), reply.value, today, timeframe))
        else old(manager.file.stored))
      ensures reply.Some? && old(manager.file.writable) ==>
        Plans(manager.Loaded()) == Plans(old(manager.Loaded())) + [NewPlan(reply.value, today, timeframe)]
        && r.planId == |Plans(manager.Loaded())|
    {
      var memory := manager.LoadMemory();
      var careerEvents := GetCareerEvents();
      var goals := GetProfessionalGoals();
      if reply.None? {
        return PlanReply(false, "", 0);
      }
      var saved := WithPlan(memory, reply.value, today, timeframe);
      var ok := manager.SaveMemory(saved);
      if ok {
        manager.ReloadSaved(saved);
      }
      r := PlanReply(true, reply.value, |Plans(saved)|);
    }
  }
}
