/**
 * The scripted dialogue engine (src/lib/flowEngine.ts): a message is
 * normalized, then resolved to a topic by three rules tried in order:
 * an affirmation ("yes", "go on", ...) takes the topic of the scripted
 * question at the cursor; otherwise the first keyword rule the message
 * mentions wins; otherwise the topic at the cursor is taken anyway. Only past
 * the end of the script, with no keyword, is the answer the 'UNKNOWN' reply.
 */
module FlowEngine {
  import opened Options
  import opened Topics
  import opened VisualTypes
  import opened Strings
  import opened Sequences
  import opened FlowQuestions

  /** Phrases whose occurrence anywhere in a message means "go on with the script". */
  const PositiveResponses: seq<string> := [
    "כן", "יאלה", "בוא", "בואו", "נתחיל", "מתחילים",
    "אוקי", "ok", "בסדר", "כן בוא", "יאלה בוא", "בטח",
    "נשמע טוב", "מעולה", "יופי", "קדימה", "כן נתחיל", "בוא נתחיל",
    "מוכן", "מוכנים", "תמשיך", "הלאה", "ספר", "ספר לנו",
    "תן", "תגיד", "דבר", "אמור", "הראה", "תראה",
    "בינוני", "קטן", "גדול", "הפוך"
  ]

  /** One row of the keyword table: a topic and the phrases that select it. */
  datatype KeywordRule = KeywordRule(topic: Topic, keywords: seq<string>)

  /** The keyword table in declaration order, which is the order the rules are tried in. */
  const KeywordTable: seq<KeywordRule> := [
    KeywordRule(YearRecapHeadlines, ["ראשי פרקים", "סיכום שנה", "נושאים"]),
    KeywordRule(YearRecapShort, ["תמציתי", "קצר", "לא חופר", "חפרת"]),
    KeywordRule(TopRevenueClient2025, ["לקוח גדול", "כיס עמוק", "הכנסות"]),
    KeywordRule(CoffeeToRevenue, ["קפה", "ארומה", "כוסות"]),
    KeywordRule(StrongestQuarter, ["רבעון", "חזק", "עסקה"]),
    KeywordRule(CoffeeCornerJoke, ["מטבח", "קפאין", "מכונת קפה"]),
    KeywordRule(ViralCampaign2025, ["ויראלי", "שבר את הרשת", "קמפיין"]),
    KeywordRule(ClientFeedbackKeywords, ["פידבק", "מילים", "לקוחות אמרו"]),
    KeywordRule(AiTimeSavings, ["ai", "בינה מלאכותית", "חסכנו", "זמן"]),
    KeywordRule(EnzoSodastream, ["אנזו", "סודה סטרים", "מורכב"]),
    KeywordRule(RoiBest, ["roi", "החזר", "תשואה"]),
    KeywordRule(MostCommonMeetingPhrase, ["פגישות", "zoom", "מיוט", "משפט"]),
    KeywordRule(CultureEvents, ["חמישי שמח", "אירועים", "גיבוש"]),
    KeywordRule(TopPerformingTeam, ["צוות", "ביצועים", "kpi", "יעדים"]),
    KeywordRule(CompanyDna, ["dna", "ערכים", "זהות"]),
    KeywordRule(LeastProductiveTime, ["פרודוקטיבי", "שקי תפוחי אדמה"]),
    KeywordRule(GrowthForecast, ["צמיחה", "תחזית", "2026"]),
    KeywordRule(Consultants, ["יועצים", "מלווים"]),
    KeywordRule(Vision2026Intro, ["חזון", "שנה הבאה"]),
    KeywordRule(RapSummary, ["שיר", "ראפ", "חרוזים"])
  ]

  /** The topics the answer generator table has an entry for: all but TOTAL_REVENUE_2025. */
  predicate HasResponse(t: Topic)
  {
    t != TotalRevenue2025
  }

  /**
   * The kind of visual each entry of the visual generator table builds. The
   * visual table has exactly the keys of the answer table.
   */
  function VisualOf(t: Topic): (r: Option<VisualType>)
    ensures r.Some? <==> HasResponse(t)
  {
    match t
    case YearRecapHeadlines => Some(ValueCards)
    case YearRecapShort => Some(QuoteCard)
    case TopRevenueClient2025 => Some(Leaderboard)
    case CoffeeToRevenue => Some(KpiBigNumber)
    case StrongestQuarter => Some(VideoEmbed)
    case CoffeeCornerJoke => Some(QuoteCard)
    case ViralCampaign2025 => Some(VideoEmbed)
    case ClientFeedbackKeywords => Some(Leaderboard)
    case AiTimeSavings => Some(KpiBigNumber)
    case EnzoSodastream => Some(VideoEmbed)
    case RoiBest => Some(KpiBigNumber)
    case MostCommonMeetingPhrase => Some(QuoteCard)
    case CultureEvents => Some(KpiBigNumber)
    case TopPerformingTeam => Some(KpiBigNumber)
    case CompanyDna => Some(ValueCards)
    case LeastProductiveTime => Some(QuoteCard)
    case GrowthForecast => Some(MiniChart)
    case Consultants => Some(ValueCards)
    case Vision2026Intro => Some(ValueCards)
    case RapSummary => Some(QuoteCard)
    case TotalRevenue2025 => None
  }

  /**
   * A visual's properties: those a topic's generator reads from the data
   * pack (not modelled beyond the topic they belong to), a quote with its
   * author, or none.
   */
  datatype Props = DataProps(topic: Topic) | QuoteProps(quote: string, author: string) | NoProps

  datatype Visual = Visual(kind: VisualType, props: Props)

  /** The engine's reply; `intentId` is a topic's id string or 'UNKNOWN'. */
  datatype FlowResponse = FlowResponse(intentId: string, answerText: string, visual: Visual, nextQuestion: Option<FlowQuestion>)

  /**
   * The tables the engine consults: the script, the affirmation phrases and
   * the keyword rules. The engine is written over any such tables; `Flow`
   * holds the ones the source declares.
   */
  datatype Tables = Tables(script: seq<FlowQuestion>, affirmations: seq<string>, rules: seq<KeywordRule>)

  const Flow: Tables := Tables(Questions, PositiveResponses, KeywordTable)

  /** Every topic the tables can resolve to has an answer generator. */
  predicate Answered(e: Tables)
  {
    && (forall i :: 0 <= i < |e.script| ==> HasResponse(e.script[i].intentId))
    && (forall j :: 0 <= j < |e.rules| ==> HasResponse(e.rules[j].topic))
  }

  const NotUnderstood: string := "לא בטוח שהבנתי. אפשר לנסח אחרת?"

  /** `message.trim().toLowerCase()` */
  function Normalize(message: string): (r: string)
    ensures r == [] || (!IsWhitespace(r[0]) && !IsWhitespace(r[|r| - 1]))
    ensures forall c :: c in r ==> !('A' <= c <= 'Z')
  {
    Lower(Trim(message))
  }

  /** `phrases.some(k => text.includes(k))` */
  predicate MentionsAny(text: string, phrases: seq<string>)
  {
    exists i :: 0 <= i < |phrases| && Contains(text, phrases[i])
  }

  /** The message includes one of the affirmation phrases, each lower-cased first. */
  predicate IsAffirmation(affirmations: seq<string>, text: string)
  {
    exists i :: 0 <= i < |affirmations| && Contains(text, Lower(affirmations[i]))
  }

  /** The predicate the keyword search applies to each rule. */
  function Hits(text: string): KeywordRule -> bool
  {
    (rule: KeywordRule) => MentionsAny(text, rule.keywords)
  }

  /** The topic of the first rule that the text mentions, if any. */
  function Detect(rules: seq<KeywordRule>, text: string): (r: Option<Topic>)
    ensures r.None? <==> forall i :: 0 <= i < |rules| ==> !MentionsAny(text, rules[i].keywords)
    ensures r.Some? ==> exists i :: 0 <= i < |rules| && rules[i].topic == r.value && MentionsAny(text, rules[i].keywords)
                                    && forall j :: 0 <= j < i ==> !MentionsAny(text, rules[j].keywords)
  {
    var i := FindIndex(rules, Hits(text));
    if i == -1 then None else Some(rules[i].topic)
  }

  /** `detectIntentFromText`: the rules in table order, stopping at the first hit. */
  method DetectIntentFromText(rules: seq<KeywordRule>, text: string) returns (r: Option<Topic>)
    ensures r == Detect(rules, text)
  {
    for i := 0 to |rules|
      invariant forall j :: 0 <= j < i ==> !MentionsAny(text, rules[j].keywords)
    {
      var rule := rules[i];
      if MentionsAny(text, rule.keywords) {
        return Some(rule.topic);
      }
    }
    return None;
  }

  /** `flowQuestions[i] || null` */
  function QuestionAt(script: seq<FlowQuestion>, i: nat): (r: Option<FlowQuestion>)
    ensures r.Some? <==> i < |script|
    ensures r.Some? ==> r.value == script[i]
  {
    if i < |script| then Some(script[i]) else None
  }

  /** The topic a normalized message resolves to with the cursor at `index`; None is 'UNKNOWN'. */
  function Resolve(e: Tables, text: string, index: nat): Option<Topic>
  {
    if IsAffirmation(e.affirmations, text) && index < |e.script| then Some(e.script[index].intentId)
    else if Detect(e.rules, text).Some? then Detect(e.rules, text)
    else if index < |e.script| then Some(e.script[index].intentId)
    else None
  }

  /** The reply to an unresolved message. */
  function UnknownReply(next: Option<FlowQuestion>): FlowResponse
  {
    FlowResponse(UnknownName, NotUnderstood, Visual(QuoteCard, QuoteProps("?", "")), next)
  }

  /**
   * The reply object for a target: the 'UNKNOWN' reply when the target has no
   * answer generator, otherwise its id, its answer and its visual (a bare
   * quote card when it has no visual generator).
   */
  function Reply(target: Option<Topic>, next: Option<FlowQuestion>, answerFor: Topic -> string): FlowResponse
  {
    if target.None? || !HasResponse(target.value) then UnknownReply(next)
    else
      var t := target.value;
      var visual := if VisualOf(t).Some? then Visual(VisualOf(t).value, DataProps(t)) else Visual(QuoteCard, NoProps);
      FlowResponse(Name(t), answerFor(t), visual, next)
  }

  /**
   * The whole reply, as a function of the raw message, the cursor and the
   * answer generators (`answerFor`, which reads the data pack).
   */
  function Respond(e: Tables, message: string, index: nat, answerFor: Topic -> string): FlowResponse
  {
    var target := Resolve(e, Normalize(message), index);
    Reply(target, QuestionAt(e.script, if target.Some? then index + 1 else index), answerFor)
  }

  /** `processMessage`: the target and the local cursor are updated step by step. */
  method ProcessMessage(e: Tables, message: string, currentQuestionIndex: nat, answerFor: Topic -> string)
    returns (r: FlowResponse)
    ensures r == Respond(e, message, currentQuestionIndex, answerFor)
  {
    var normalized := Normalize(message);
    var isPositive := IsAffirmation(e.affirmations, normalized);
    var target: Option<Topic>;
    var questionIndex := currentQuestionIndex;
    if isPositive && currentQuestionIndex < |e.script| {
      target := Some(e.script[currentQuestionIndex].intentId);
      questionIndex := questionIndex + 1;
    } else {
      target := DetectIntentFromText(e.rules, normalized);
      if target.None? && currentQuestionIndex < |e.script| {
        target := Some(e.script[currentQuestionIndex].intentId);
      }
      if target.Some? {
        questionIndex := questionIndex + 1;
      }
    }
    r := Reply(target, QuestionAt(e.script, questionIndex), answerFor);
  }

  // ------------------------------------------------------------ properties

  /** Normalizing twice is normalizing once. */
  lemma NormalizeIdempotent(message: string)
    ensures Normalize(Normalize(message)) == Normalize(message)
  {
    var x := Trim(message);
    TrimUnchanged(Lower(x));
    LowerIdempotent(x);
  }

  /** The reply depends on the message only through its normalized form. */
  lemma RespondNormalized(e: Tables, message: string, index: nat, answerFor: Topic -> string)
    ensures Respond(e, Normalize(message), index, answerFor) == Respond(e, message, index, answerFor)
  {
    NormalizeIdempotent(message);
  }

  /** The source's tables resolve only to topics with an answer generator. */
  lemma FlowAnswered()
    ensures Answered(Flow)
  {
    QuestionsShape();
  }

  /** The fields of `Flow`, read off once so that proofs need not unfold the tables. */
  lemma FlowFields()
    ensures Flow.script == Questions && Flow.affirmations == PositiveResponses && Flow.rules == KeywordTable
  {
  }

  /** A resolved topic has an answer, so the engine's fallback visual is never built. */
  lemma ResolvedIsAnswered(e: Tables, text: string, index: nat)
    requires Answered(e)
    ensures Resolve(e, text, index).Some? ==> HasResponse(Resolve(e, text, index).value)
  {
  }

  /**
   * A resolved message is answered with its topic's id, answer and visual,
   * and the next question is the one after the cursor.
   */
  lemma ResolvedReply(e: Tables, message: string, index: nat, answerFor: Topic -> string)
    requires Answered(e)
    requires Resolve(e, Normalize(message), index).Some?
    ensures var t := Resolve(e, Normalize(message), index).value;
      && VisualOf(t).Some?
      && Respond(e, message, index, answerFor)
           == FlowResponse(Name(t), answerFor(t), Visual(VisualOf(t).value, DataProps(t)), QuestionAt(e.script, index + 1))
  {
    ResolvedIsAnswered(e, Normalize(message), index);
  }

  /**
   * 'UNKNOWN' is answered exactly when the script is exhausted and no
   * keyword matches; that reply offers no next question.
   */
  lemma UnknownExactly(e: Tables, message: string, index: nat, answerFor: Topic -> string)
    requires Answered(e)
    ensures (Respond(e, message, index, answerFor).intentId == UnknownName)
        <==> (index >= |e.script| && Detect(e.rules, Normalize(message)).None?)
    ensures Respond(e, message, index, answerFor).intentId == UnknownName
        ==> Respond(e, message, index, answerFor) == UnknownReply(None)
  {
    var target := Resolve(e, Normalize(message), index);
    ResolvedIsAnswered(e, Normalize(message), index);
    if target.Some? {
      NameInjective(target.value, target.value);
    }
  }

  /** An affirmation inside the script takes the cursor's topic, whatever keywords it mentions. */
  lemma AffirmationFollowsScript(e: Tables, message: string, index: nat, answerFor: Topic -> string)
    requires Answered(e)
    requires IsAffirmation(e.affirmations, Normalize(message)) && index < |e.script|
    ensures Respond(e, message, index, answerFor).intentId == Name(e.script[index].intentId)
    ensures Respond(e, message, index, answerFor).nextQuestion == QuestionAt(e.script, index + 1)
  {
    ResolvedReply(e, message, index, answerFor);
  }

  /** Otherwise a keyword hit wins over the cursor's topic. */
  lemma KeywordBeatsScript(e: Tables, message: string, index: nat, answerFor: Topic -> string, t: Topic)
    requires Answered(e)
    requires !IsAffirmation(e.affirmations, Normalize(message)) || index >= |e.script|
    requires Detect(e.rules, Normalize(message)) == Some(t)
    ensures Respond(e, message, index, answerFor).intentId == Name(t)
    ensures Respond(e, message, index, answerFor).nextQuestion == QuestionAt(e.script, index + 1)
  {
    ResolvedReply(e, message, index, answerFor);
  }

  /** With neither an affirmation nor a keyword, the cursor's topic is taken anyway. */
  lemma ScriptFallback(e: Tables, message: string, index: nat, answerFor: Topic -> string)
    requires Answered(e)
    requires Detect(e.rules, Normalize(message)).None? && index < |e.script|
    ensures Respond(e, message, index, answerFor).intentId == Name(e.script[index].intentId)
    ensures Respond(e, message, index, answerFor).nextQuestion == QuestionAt(e.script, index + 1)
  {
    ResolvedReply(e, message, index, answerFor);
  }

  // ------------------------------------------------- the cursor (history)

  /**
   * `getCurrentQuestionIndex`: one past the script position of the last
   * topic asked, or the length of the history when that topic is not in
   * the script.
   */
  function GetCurrentQuestionIndex(askedIntents: seq<string>): (r: nat)
    ensures askedIntents == [] ==> r == 0
    ensures askedIntents != [] ==>
      var last := askedIntents[|askedIntents| - 1];
      r == if Parse(last).Some? && ScriptPosition(Parse(last).value) >= 0
           then ScriptPosition(Parse(last).value) + 1
           else |askedIntents|
  {
    if |askedIntents| == 0 then 0
    else
      var lastIndex := IndexOfIntent(askedIntents[|askedIntents| - 1]);
      IndexOfIntentIsPosition(askedIntents[|askedIntents| - 1]);
      if lastIndex >= 0 then lastIndex + 1 else |askedIntents|
  }

  /** After a scripted topic the cursor moves to the question that follows it in the script. */
  lemma CursorAfterScriptTopic(askedIntents: seq<string>, t: Topic)
    requires |askedIntents| > 0 && askedIntents[|askedIntents| - 1] == Name(t)
    requires ScriptPosition(t) >= 0
    ensures GetCurrentQuestionIndex(askedIntents) == ScriptPosition(t) + 1
  {
    ParseName(t);
  }

  /** After anything else (an unscripted topic, 'UNKNOWN', any other string) the cursor is the history's length. */
  lemma CursorAfterOther(askedIntents: seq<string>)
    requires |askedIntents| > 0
    requires var last := askedIntents[|askedIntents| - 1];
      Parse(last).None? || ScriptPosition(Parse(last).value) < 0
    ensures GetCurrentQuestionIndex(askedIntents) == |askedIntents|
  {
  }

  /**
   * The cursor looks only at the last entry, so it does not skip what was
   * already asked: after TOP_REVENUE_CLIENT_2025 and then
   * YEAR_RECAP_HEADLINES it points at TOP_REVENUE_CLIENT_2025's question again.
   */
  lemma CursorRevisitsAskedTopic(askedIntents: seq<string>)
    requires askedIntents == [Name(TopRevenueClient2025), Name(YearRecapHeadlines)]
    ensures GetCurrentQuestionIndex(askedIntents) == 1
    ensures Name(Questions[1].intentId) == askedIntents[0]
  {
    CursorAfterScriptTopic(askedIntents, YearRecapHeadlines);
    QuestionsShape();
  }

  // ------------------------------------------ keyword order in the tables

  /** A text missing a (non-capital) character of `k` does not include `k` lower-cased. */
  lemma LowerAbsent(text: string, k: string, c: char)
    requires c in k && c !in text && !('A' <= c <= 'Z')
    ensures !Contains(text, Lower(k))
  {
    var j :| 0 <= j < |k| && k[j] == c;
    assert Lower(k)[j] == c;
    ContainsChar(text, Lower(k), c);
  }

  /** The first rule mentioned decides. */
  lemma DetectFirst(rules: seq<KeywordRule>, text: string, k: nat)
    requires k < |rules| && MentionsAny(text, rules[k].keywords)
    requires forall j :: 0 <= j < k ==> !MentionsAny(text, rules[j].keywords)
    ensures Detect(rules, text) == Some(rules[k].topic)
  {
    assert Hits(text)(rules[k]);
  }

  /** A rule that is mentioned bounds how far down the table the decision can be. */
  lemma DetectNoLater(rules: seq<KeywordRule>, text: string, k: nat)
    requires k < |rules| && MentionsAny(text, rules[k].keywords)
    ensures Detect(rules, text).Some?
    ensures exists i :: 0 <= i <= k && rules[i].topic == Detect(rules, text).value
  {
  }

  lemma MachineMentionsCoffee(text: string)
    requires Contains(text, "מכונת קפה")
    ensures MentionsAny(text, KeywordTable[3].keywords)
  {
    assert OccursAt("מכונת קפה", "קפה", 6);
    ContainsTrans(text, "מכונת קפה", "קפה");
    assert KeywordTable[3].keywords[0] == "קפה";
  }

  /**
   * Whatever else it says, a message that includes "מכונת קפה" includes
   * "קפה", which the COFFEE_TO_REVENUE rule lists before COFFEE_CORNER_JOKE's
   * turn: that keyword of COFFEE_CORNER_JOKE never decides.
   */
  lemma CoffeeMachineNeverCornerJoke(text: string)
    requires Contains(text, "מכונת קפה")
    ensures Detect(KeywordTable, text).Some?
    ensures Detect(KeywordTable, text) != Some(CoffeeCornerJoke)
  {
    MachineMentionsCoffee(text);
    DetectNoLater(KeywordTable, text, 3);
    KeywordTableHead();
  }

  // The phrase "מכונת קפה" on its own, taken apart in small steps.

  lemma MachineLacks(t: string)
    requires t == "מכונת קפה"
    ensures forall i :: 0 <= i < |t| ==> t[i] != 'ר' && t[i] != 'ס' && t[i] != 'ש' && t[i] != 'צ' && t[i] != 'ל' && t[i] != 'ח'
  {
  }

  /** It mentions none of the three rules above COFFEE_TO_REVENUE. */
  lemma MachineMissesEarlierRules(t: string)
    requires t == "מכונת קפה"
    ensures forall j :: 0 <= j < 3 ==> !MentionsAny(t, KeywordTable[j].keywords)
  {
    MachineLacks(t);
    ContainsChar(t, "ראשי פרקים", 'ר');
    ContainsChar(t, "סיכום שנה", 'ס');
    ContainsChar(t, "נושאים", 'ש');
    ContainsChar(t, "תמציתי", 'צ');
    ContainsChar(t, "קצר", 'צ');
    ContainsChar(t, "לא חופר", 'ל');
    ContainsChar(t, "חפרת", 'ח');
    ContainsChar(t, "לקוח גדול", 'ל');
    ContainsChar(t, "כיס עמוק", 'ס');
    ContainsChar(t, "הכנסות", 'ס');
  }

  /**
   * The keyword COFFEE_CORNER_JOKE lists, sent on its own, is detected as
   * COFFEE_TO_REVENUE, whose "קפה" comes first in the table.
   */
  lemma MachineDetectedAsCoffeeToRevenue(t: string)
    requires t == "מכונת קפה"
    ensures Detect(KeywordTable, t) == Some(CoffeeToRevenue)
  {
    ContainsInfix("", t, "", t);
    MachineMentionsCoffee(t);
    MachineMissesEarlierRules(t);
    KeywordTableHead();
    DetectFirst(KeywordTable, t, 3);
  }

  /** The first four rows of the keyword table, read off once for the proofs about them. */
  lemma KeywordTableHead()
    ensures |KeywordTable| == 20
    ensures KeywordTable[0].topic == YearRecapHeadlines && KeywordTable[1].topic == YearRecapShort
    ensures KeywordTable[2].topic == TopRevenueClient2025 && KeywordTable[3].topic == CoffeeToRevenue
  {
  }

  // The script's COFFEE_TO_REVENUE question, taken apart in small steps.

  lemma CoffeePromptLacks(t: string)
    requires t == "כמה כוסות קפה זה ההכנסות שלנו?"
    ensures forall i :: 0 <= i < |t| ==> t[i] != 'י' && t[i] != 'א' && t[i] != 'ן' && t[i] != 'ב' && t[i] != 'ר' && t[i] != 'o' && t[i] != 'ד' && t[i] != 'ע' && t[i] != 'ך' && t[i] != 'צ' && t[i] != 'ח'
  {
  }

  lemma CoffeePromptTrimmed(t: string)
    requires t == "כמה כוסות קפה זה ההכנסות שלנו?"
    ensures Trim(t) == t
  {
    TrimUnchanged(t);
  }

  lemma CoffeePromptLowered(t: string)
    requires t == "כמה כוסות קפה זה ההכנסות שלנו?"
    ensures Lower(t) == t
  {
    LowerUnchanged(t);
  }

  /** The question is already in normal form. */
  lemma CoffeePromptNormal(t: string)
    requires t == "כמה כוסות קפה זה ההכנסות שלנו?"
    ensures Normalize(t) == t
  {
    CoffeePromptTrimmed(t);
    CoffeePromptLowered(t);
  }

  lemma CoffeePromptNoEarlyAffirmation(t: string)
    requires t == "כמה כוסות קפה זה ההכנסות שלנו?"
    ensures forall i :: 0 <= i < 17 ==> !Contains(t, Lower(PositiveResponses[i]))
  {
    var w := "ןיאאיייoבאיבבעייייןייאררןיבאאאיןדך";
    CoffeePromptLacks(t);
    forall i | 0 <= i < 17 ensures !Contains(t, Lower(PositiveResponses[i])) {
      LowerAbsent(t, PositiveResponses[i], w[i]);
    }
  }

  lemma CoffeePromptNoLateAffirmation(t: string)
    requires t == "כמה כוסות קפה זה ההכנסות שלנו?"
    ensures forall i :: 17 <= i < |PositiveResponses| ==> !Contains(t, Lower(PositiveResponses[i]))
  {
    var w := "ןיאאיייoבאיבבעייייןייאררןיבאאאיןדך";
    CoffeePromptLacks(t);
    forall i | 17 <= i < |PositiveResponses| ensures !Contains(t, Lower(PositiveResponses[i])) {
      LowerAbsent(t, PositiveResponses[i], w[i]);
    }
  }

  /** The question includes no affirmation phrase. */
  lemma CoffeePromptNoAffirmation(t: string)
    requires t == "כמה כוסות קפה זה ההכנסות שלנו?"
    ensures !IsAffirmation(PositiveResponses, t)
  {
    CoffeePromptNoEarlyAffirmation(t);
    CoffeePromptNoLateAffirmation(t);
  }

  /** It mentions no keyword of the two YEAR_RECAP rules. */
  lemma CoffeePromptMissesRecaps(t: string)
    requires t == "כמה כוסות קפה זה ההכנסות שלנו?"
    ensures !MentionsAny(t, KeywordTable[0].keywords)
    ensures !MentionsAny(t, KeywordTable[1].keywords)
  {
    CoffeePromptLacks(t);
    ContainsChar(t, "ראשי פרקים", 'ר');
    ContainsChar(t, "סיכום שנה", 'י');
    ContainsChar(t, "נושאים", 'א');
    ContainsChar(t, "תמציתי", 'צ');
    ContainsChar(t, "קצר", 'צ');
    ContainsChar(t, "לא חופר", 'א');
    ContainsChar(t, "חפרת", 'ח');
  }

  /** It mentions "הכנסות", a keyword of TOP_REVENUE_CLIENT_2025. */
  lemma CoffeePromptHitsRevenue(t: string)
    requires t == "כמה כוסות קפה זה ההכנסות שלנו?"
    ensures MentionsAny(t, KeywordTable[2].keywords)
  {
    var k := "הכנסות";
    assert t[18..24] == k;
    assert Contains(t, k) by { assert OccursAt(t, k, 18); }
    assert KeywordTable[2].keywords[2] == k;
  }

  /** The first keyword rule the question mentions is TOP_REVENUE_CLIENT_2025's. */
  lemma CoffeePromptDetect(t: string)
    requires t == "כמה כוסות קפה זה ההכנסות שלנו?"
    ensures Detect(KeywordTable, t) == Some(TopRevenueClient2025)
  {
    CoffeePromptMissesRecaps(t);
    CoffeePromptHitsRevenue(t);
    DetectFirst(KeywordTable, t, 2);
  }

  lemma CoffeePromptResolve(t: string)
    requires t == "כמה כוסות קפה זה ההכנסות שלנו?"
    ensures Resolve(Flow, Normalize(t), 2) == Some(TopRevenueClient2025)
  {
    FlowFields();
    CoffeePromptNormal(t);
    CoffeePromptNoAffirmation(t);
    CoffeePromptDetect(t);
  }

  lemma CoffeePromptAnswer(t: string, answerFor: Topic -> string)
    requires t == "כמה כוסות קפה זה ההכנסות שלנו?"
    ensures Respond(Flow, t, 2, answerFor).intentId == Name(TopRevenueClient2025)
    ensures Respond(Flow, t, 2, answerFor).nextQuestion == QuestionAt(Questions, 3)
  {
    CoffeePromptResolve(t);
    FlowAnswered();
    FlowFields();
    ResolvedReply(Flow, t, 2, answerFor);
  }

  /**
   * Sent back at its own place in the script, the question the script asks
   * for COFFEE_TO_REVENUE is answered as TOP_REVENUE_CLIENT_2025, and the
   * cursor still moves past it.
   */
  lemma CoffeePromptAnsweredAsTopRevenue(answerFor: Topic -> string)
    ensures Questions[2].intentId == CoffeeToRevenue
    ensures Respond(Flow, Questions[2].question, 2, answerFor).intentId == Name(TopRevenueClient2025)
    ensures Respond(Flow, Questions[2].question, 2, answerFor).nextQuestion == Some(Questions[3])
  {
    CoffeePromptAnswer(Questions[2].question, answerFor);
  }
}
