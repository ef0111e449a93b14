/**
 * The authored topic script: nineteen prompts in presentation order, and the
 * suggestion of which prompts to offer next.
 */
module FlowQuestions {
  import opened Options
  import opened Topics
  import opened Sequences

  /** One script entry: a stable id, the literal prompt text and the topic it asks for. */
  datatype FlowQuestion = FlowQuestion(id: string, question: string, intentId: Topic)

  const Questions: seq<FlowQuestion> := [
    FlowQuestion("q1", "תן לי ראשי פרקים לסיכום השנה", YearRecapHeadlines),
    FlowQuestion("q2", "מי היה לקוח הכיס העמוק שלנו?", TopRevenueClient2025),
    FlowQuestion("q3", "כמה כוסות קפה זה ההכנסות שלנו?", CoffeeToRevenue),
    FlowQuestion("q4", "מה היה הרבעון הכי חזק?", StrongestQuarter),
    FlowQuestion("q5", "מי בילה הכי הרבה במטבח ליד הקפה?", CoffeeCornerJoke),
    FlowQuestion("q6", "איזה קמפיין שבר את הרשת?", ViralCampaign2025),
    FlowQuestion("q7", "אילו 3 מילים הופיעו הכי הרבה בפידבקים?", ClientFeedbackKeywords),
    FlowQuestion("q8", "כמה זמן חסכנו עם AI?", AiTimeSavings),
    FlowQuestion("q9", "מה היה הפרויקט הכי מורכב טכנולוגית?", EnzoSodastream),
    FlowQuestion("q10", "מה ה-ROI הכי מרשים שעשינו?", RoiBest),
    FlowQuestion("q11", "מה המשפט הכי נפוץ בפגישות וידאו?", MostCommonMeetingPhrase),
    FlowQuestion("q12", "כמה אירועי חברה וגיבושים היו?", CultureEvents),
    FlowQuestion("q13", "איזה צוות שיאני הביצועים?", TopPerformingTeam),
    FlowQuestion("q14", "מה ה-DNA של לידרס?", CompanyDna),
    FlowQuestion("q15", "מתי הכי פחות פרודוקטיביים?", LeastProductiveTime),
    FlowQuestion("q16", "איפה לידרס תהיה בסוף 2026?", GrowthForecast),
    FlowQuestion("q17", "מי היועצים שמלווים אותנו?", Consultants),
    FlowQuestion("q18", "ספר לי על לידרס ב-2026", Vision2026Intro),
    FlowQuestion("q19", "תכתוב שיר ראפ לסיכום!", RapSummary)
  ]

  /** The script position of each topic, -1 for the two topics the script never asks. */
  function ScriptPosition(t: Topic): int
  {
    match t
    case YearRecapHeadlines => 0
    case TopRevenueClient2025 => 1
    case CoffeeToRevenue => 2
    case StrongestQuarter => 3
    case CoffeeCornerJoke => 4
    case ViralCampaign2025 => 5
    case ClientFeedbackKeywords => 6
    case AiTimeSavings => 7
    case EnzoSodastream => 8
    case RoiBest => 9
    case MostCommonMeetingPhrase => 10
    case CultureEvents => 11
    case TopPerformingTeam => 12
    case CompanyDna => 13
    case LeastProductiveTime => 14
    case GrowthForecast => 15
    case Consultants => 16
    case Vision2026Intro => 17
    case RapSummary => 18
    case YearRecapShort => -1
    case TotalRevenue2025 => -1
  }

  /** Ids "q1" to "q9" differ in their last digit, and so do "q10" to "q19". */
  function IdKey(id: string): (nat, char)
  {
    (|id|, if id == [] then ' ' else id[|id| - 1])
  }

  lemma QuestionsShape()
    ensures |Questions| == 19
    ensures forall i :: 0 <= i < |Questions| ==> ScriptPosition(Questions[i].intentId) == i
    ensures forall i :: 0 <= i < |Questions| ==>
      IdKey(Questions[i].id) == if i < 9 then (2, (i + 49) as char) else (3, (i + 39) as char)
  {
  }

  /** The script ids "q1" to "q9", in order. */
  lemma QuestionIdsHead()
    ensures |Questions| == 19
    ensures Questions[0].id == "q1" && Questions[1].id == "q2" && Questions[2].id == "q3" && Questions[3].id == "q4"
    ensures Questions[4].id == "q5" && Questions[5].id == "q6" && Questions[6].id == "q7" && Questions[7].id == "q8"
    ensures Questions[8].id == "q9"
  {
  }

  /** The script ids "q10" to "q19", in order. */
  lemma QuestionIdsTail()
    ensures |Questions| == 19
    ensures Questions[9].id == "q10" && Questions[10].id == "q11" && Questions[11].id == "q12" && Questions[12].id == "q13"
    ensures Questions[13].id == "q14" && Questions[14].id == "q15" && Questions[15].id == "q16" && Questions[16].id == "q17"
    ensures Questions[17].id == "q18" && Questions[18].id == "q19"
  {
  }

  /** Script ids are pairwise distinct, and so are the topics the script asks for. */
  lemma QuestionsDistinct()
    ensures forall i, j :: 0 <= i < j < |Questions| ==>
      Questions[i].id != Questions[j].id && Questions[i].intentId != Questions[j].intentId
  {
    QuestionsShape();
  }

  /** The script position of the topic called `name`, as the source looks it up with `findIndex`. */
  function IndexOfIntent(name: string): (r: int)
    ensures -1 <= r < |Questions|
  {
    FindIndex(Questions, AsksFor(name))
  }

  /** The `findIndex` predicate `q => q.intentId === name`. */
  function AsksFor(name: string): FlowQuestion -> bool
  {
    (q: FlowQuestion) => Name(q.intentId) == name
  }

  /**
   * Since the script asks for each topic at most once, looking a string up
   * finds exactly the script position of the topic it names, and -1 for a
   * string that names no topic the script asks for.
   */
  lemma IndexOfIntentIsPosition(name: string)
    ensures IndexOfIntent(name) == if Parse(name).Some? then ScriptPosition(Parse(name).value) else -1
  {
    if Parse(name).Some? {
      IndexOfTopicName(name, Parse(name).value);
    } else {
      IndexOfNonTopic(name);
    }
  }

  lemma IndexOfTopicName(name: string, t: Topic)
    requires Parse(name) == Some(t)
    ensures IndexOfIntent(name) == ScriptPosition(t)
  {
    QuestionsShape();
    FindByPosition(Questions, name, t);
  }

  /** The lookup argument over any sequence laid out by script position. */
  lemma FindByPosition(s: seq<FlowQuestion>, name: string, t: Topic)
    requires |s| == 19
    requires forall i :: 0 <= i < |s| ==> ScriptPosition(s[i].intentId) == i
    requires Parse(name) == Some(t)
    ensures FindIndex(s, AsksFor(name)) == ScriptPosition(t)
  {
    forall j | 0 <= j < |s|
      ensures AsksFor(name)(s[j]) <==> j == ScriptPosition(t)
    {
      AsksForAt(s[j], j, name, t);
    }
    if ScriptPosition(t) >= 0 {
      FindIndexUnique(s, AsksFor(name), ScriptPosition(t));
    }
  }

  lemma AsksForAt(q: FlowQuestion, j: int, name: string, t: Topic)
    requires ScriptPosition(q.intentId) == j >= 0
    requires Parse(name) == Some(t)
    ensures AsksFor(name)(q) <==> j == ScriptPosition(t)
  {
    ParseName(q.intentId);
    PositionInjective(q.intentId, t);
  }

  /** Each script position belongs to one topic. */
  lemma PositionInjective(a: Topic, b: Topic)
    ensures ScriptPosition(a) == ScriptPosition(b) >= 0 ==> a == b
  {
  }

  lemma IndexOfNonTopic(name: string)
    requires Parse(name) == None
    ensures IndexOfIntent(name) == -1
  {
    forall j | 0 <= j < |Questions| ensures !AsksFor(name)(Questions[j]) {
      ParseName(Questions[j].intentId);
    }
  }

  /** Only the script entry at position `ScriptPosition(t)` asks for `t`. */
  lemma ScriptPositionUnique(t: Topic, i: int)
    requires 0 <= i < |Questions|
    ensures Questions[i].intentId == t <==> ScriptPosition(t) == i
  {
    QuestionsShape();
  }

  /** Where the suggestions start: just after the last topic when the script asks for it, else at the top. */
  function StartIndex(lastIntentId: Option<string>): (r: nat)
    ensures r <= |Questions|
  {
    if lastIntentId.Some? && lastIntentId.value != "" && IndexOfIntent(lastIntentId.value) != -1
    then IndexOfIntent(lastIntentId.value) + 1
    else 0
  }

  /** `getNextQuestions`: up to three not-yet-asked prompts, from just after the last topic on. */
  function GetNextQuestions(lastIntentId: Option<string>, askedIntents: seq<string>): (r: seq<FlowQuestion>)
    ensures |r| <= 3
    ensures forall k :: 0 <= k < |r| ==> Name(r[k].intentId) !in askedIntents
  {
    Suggest(Questions, StartIndex(lastIntentId), askedIntents)
  }

  /** The suggestion rule over any script: slice from `start`, drop asked topics, keep three. */
  function Suggest(script: seq<FlowQuestion>, start: nat, askedIntents: seq<string>): (r: seq<FlowQuestion>)
    requires start <= |script|
    ensures |r| <= 3
    ensures forall k :: 0 <= k < |r| ==> Name(r[k].intentId) !in askedIntents
  {
    var available := Filter(script[start..], NotAsked(askedIntents));
    Take(available, 3)
  }

  /** The `filter` predicate `q => !askedIntents.includes(q.intentId)`. */
  function NotAsked(askedIntents: seq<string>): FlowQuestion -> bool
  {
    (q: FlowQuestion) => Name(q.intentId) !in askedIntents
  }

  /** A prompt's place in the script. */
  function Position(q: FlowQuestion): int
  {
    ScriptPosition(q.intentId)
  }

  /** Each entry of `script` sits at the script position of its topic, as in `Questions`. */
  predicate ScriptLaidOut(script: seq<FlowQuestion>)
  {
    forall i :: 0 <= i < |script| ==> Position(script[i]) == i
  }

  /**
   * The suggestions start just after the script position of the last topic,
   * and at the top when there is no last topic or the script never asks it.
   */
  lemma StartIndexIsPosition(lastIntentId: Option<string>)
    ensures StartIndex(lastIntentId) ==
      if lastIntentId.Some? && Parse(lastIntentId.value).Some? && ScriptPosition(Parse(lastIntentId.value).value) >= 0
      then ScriptPosition(Parse(lastIntentId.value).value) + 1
      else 0
  {
    if lastIntentId.Some? {
      IndexOfIntentIsPosition(lastIntentId.value);
    }
  }

  /** In a laid-out script, every suffix is ordered by position. */
  lemma SuffixPositions(script: seq<FlowQuestion>, start: nat)
    requires start <= |script| && ScriptLaidOut(script)
    ensures forall i :: 0 <= i < |script[start..]| ==> Position(script[start..][i]) == start + i
    ensures Increasing(script[start..], Position)
  {
    assert forall i :: 0 <= i < |script[start..]| ==> script[start..][i] == script[start + i];
  }

  lemma SuggestInOrder(script: seq<FlowQuestion>, start: nat, askedIntents: seq<string>)
    requires start <= |script| && ScriptLaidOut(script)
    ensures var r := Suggest(script, start, askedIntents);
      && (forall i, j :: 0 <= i < j < |r| ==> Position(r[i]) < Position(r[j]))
      && (forall k :: 0 <= k < |r| ==> start <= Position(r[k]) < |script| && r[k] == script[Position(r[k])])
  {
    SuggestIncreasing(script, start, askedIntents);
    SuggestEntries(script, start, askedIntents);
  }

  lemma SuggestIncreasing(script: seq<FlowQuestion>, start: nat, askedIntents: seq<string>)
    requires start <= |script| && ScriptLaidOut(script)
    ensures Increasing(Suggest(script, start, askedIntents), Position)
  {
    var suffix := script[start..];
    SuffixPositions(script, start);
    var available := Filter(suffix, NotAsked(askedIntents));
    FilterIncreasing(suffix, NotAsked(askedIntents), Position);
    var r := Take(available, 3);
    forall i, j | 0 <= i < j < |r| ensures Position(r[i]) < Position(r[j]) {
      assert r[i] == available[i] && r[j] == available[j];
    }
  }

  lemma SuggestEntries(script: seq<FlowQuestion>, start: nat, askedIntents: seq<string>)
    requires start <= |script| && ScriptLaidOut(script)
    ensures var r := Suggest(script, start, askedIntents);
      forall k :: 0 <= k < |r| ==> start <= Position(r[k]) < |script| && r[k] == script[Position(r[k])]
  {
    var suffix := script[start..];
    var available := Filter(suffix, NotAsked(askedIntents));
    FilterSound(suffix, NotAsked(askedIntents));
    var r := Take(available, 3);
    forall k | 0 <= k < |r| ensures start <= Position(r[k]) < |script| && r[k] == script[Position(r[k])] {
      assert r[k] == available[k];
      var i :| 0 <= i < |suffix| && suffix[i] == r[k];
      assert suffix[i] == script[start + i];
    }
  }

  lemma SuggestSkipsNothing(script: seq<FlowQuestion>, start: nat, askedIntents: seq<string>, j: nat)
    requires start <= j < |script| && ScriptLaidOut(script)
    requires Name(script[j].intentId) !in askedIntents
    ensures var r := Suggest(script, start, askedIntents);
      script[j] in r || (|r| == 3 && forall k :: 0 <= k < 3 ==> Position(r[k]) < j)
  {
    var suffix := script[start..];
    SuffixPositions(script, start);
    assert suffix[j - start] == script[j];
    TakeFilterSkipsNothing(suffix, NotAsked(askedIntents), Position, j - start, 3);
  }

  /** With nothing asked, the suggestion from the top is the first three entries. */
  lemma SuggestNothingAsked(script: seq<FlowQuestion>)
    requires |script| >= 3
    ensures Suggest(script, 0, []) == script[..3]
  {
    FilterAll(script[0..], NotAsked([]));
    assert script[0..] == script;
  }

  /**
   * Suggestions are script entries at or after the start index, in script
   * order.
   */
  lemma NextQuestionsInOrder(lastIntentId: Option<string>, askedIntents: seq<string>)
    ensures var r := GetNextQuestions(lastIntentId, askedIntents);
      && (forall i, j :: 0 <= i < j < |r| ==> ScriptPosition(r[i].intentId) < ScriptPosition(r[j].intentId))
      && (forall k :: 0 <= k < |r| ==>
            && StartIndex(lastIntentId) <= ScriptPosition(r[k].intentId) < |Questions|
            && r[k] == Questions[ScriptPosition(r[k].intentId)])
  {
    QuestionsShape();
    SuggestInOrder(Questions, StartIndex(lastIntentId), askedIntents);
  }

  /**
   * No eligible prompt is skipped: a prompt at or after the start index whose
   * topic was not asked is suggested, or else three prompts, all earlier in
   * the script, were suggested instead.
   */
  lemma NextQuestionsSkipNothing(lastIntentId: Option<string>, askedIntents: seq<string>, j: nat)
    requires StartIndex(lastIntentId) <= j < |Questions|
    requires Name(Questions[j].intentId) !in askedIntents
    ensures var r := GetNextQuestions(lastIntentId, askedIntents);
      Questions[j] in r || (|r| == 3 && forall k :: 0 <= k < 3 ==> ScriptPosition(r[k].intentId) < j)
  {
    QuestionsShape();
    SuggestSkipsNothing(Questions, StartIndex(lastIntentId), askedIntents, j);
  }

  /**
   * The opening prompts are what is suggested before anything was asked,
   * whenever the suggestions start at the top (no last topic, an empty one,
   * or one the script does not ask).
   */
  lemma OpeningIsFirstSuggestion(lastIntentId: Option<string>)
    requires StartIndex(lastIntentId) == 0
    ensures GetNextQuestions(lastIntentId, []) == GetOpeningQuestions()
  {
    SuggestNothingAsked(Questions);
  }

  /** `getOpeningQuestions`: the first three script entries. */
  function GetOpeningQuestions(): (r: seq<FlowQuestion>)
    ensures r == [Questions[0], Questions[1], Questions[2]]
  {
    Questions[..3]
  }
}
