/**
 * The intent catalogue: one entry per topic the free-text resolver may name,
 * with its title, trigger phrases, answer style, visual kind and the dotted
 * data-pack paths its answer draws on.
 */
module Intents {
  import opened Options
  import opened Topics
  import opened VisualTypes
  import opened Strings
  import opened Sequences

  /** The visual kind is kept as the string the table holds. */
  datatype Intent = Intent(
    id: Topic,
    title: string,
    triggers: seq<string>,
    responseStyle: string,
    visualType: string,
    dataPaths: seq<string>)

  const Catalog: seq<Intent> := [
    Intent(YearRecapHeadlines, "ראשי פרקים לסיכום שנה",
           ["ראשי פרקים", "סיכום שנה", "תן לי נושאים", "בוקר טוב"],
           "רשימה מסודרת וברורה", "VALUE_CARDS", ["topics"]),
    Intent(TopRevenueClient2025, "לקוח הכיס העמוק",
           ["לקוח הכי גדול", "הכנסות הכי גבוהות", "כיס עמוק", "לקוח גדול"],
           "מספרי עם קרדיט לצוותים", "LEADERBOARD", ["finance.top_revenue_clients"]),
    Intent(CoffeeToRevenue, "המרת הכנסות לכוסות קפה",
           ["כוסות קפה", "קפה בארומה", "המרה לקפה", "קפה"],
           "הומוריסטי עם מספרים", "KPI_BIG_NUMBER", ["finance.total_revenue_2025", "finance.coffee_calculation", "company.employees_count"]),
    Intent(StrongestQuarter, "הרבעון החזק ביותר",
           ["רבעון הכי חזק", "רבעון הכי טוב", "איזה רבעון", "רבעון חזק"],
           "עובדתי עם סיפור העסקה", "TIMELINE_CARD", ["finance.strongest_quarter", "finance.strongest_quarter_deal"]),
    Intent(TotalRevenue2025, "סך הכנסות 2025",
           ["כמה הכנסנו", "סך הכנסות", "הכנסות השנה", "הכנסות 2025"],
           "מספר גדול עם הקשר", "KPI_BIG_NUMBER", ["finance.total_revenue_2025", "finance.total_revenue_2024"]),
    Intent(RoiBest, "ה-ROI הכי מרשים",
           ["ROI", "החזר השקעה", "תשואה", "נתון מרשים"],
           "מספר מרשים עם הסבר", "KPI_BIG_NUMBER", ["finance.roi_best"]),
    Intent(ViralCampaign2025, "הקמפיין הוויראלי",
           ["קמפיין וויראלי", "שבר את הרשת", "הכי הרבה צפיות", "ויראלי", "טראפיק"],
           "סיפורי עם מספרים", "VIDEO_EMBED", ["campaigns.viral_campaign_2025"]),
    Intent(ClientFeedbackKeywords, "מילות פידבק נפוצות",
           ["פידבק מלקוחות", "מילים נפוצות", "מה לקוחות אמרו", "פידבק", "3 מילים"],
           "קצר וחד עם ציטוטים", "LEADERBOARD", ["campaigns.client_feedback_keywords"]),
    Intent(EnzoSodastream, "פרויקט האנזו - סודה סטרים",
           ["אנזו", "סודה סטרים", "פרויקט מורכב", "מורכב טכנולוגית", "sodastream"],
           "סיפורי עם פרטים טכניים", "TIMELINE_CARD", ["campaigns.enzo_sodastream"]),
    Intent(AiTimeSavings, "חיסכון זמן עם AI",
           ["חיסכון זמן", "AI", "בינה מלאכותית", "כמה חסכנו", "ייעול"],
           "מספרי עם המחשה", "KPI_BIG_NUMBER", ["ai"]),
    Intent(CoffeeCornerJoke, "בדיחת פינת הקפה",
           ["פינת קפה", "מכונת קפה", "מי שותה הכי הרבה קפה", "מטבח", "קפאין"],
           "הומוריסטי", "QUOTE_CARD", ["culture.coffee_corner_joke"]),
    Intent(MostCommonMeetingPhrase, "משפט נפוץ בפגישות",
           ["משפט נפוץ", "פגישות וידאו", "zoom", "פגישות", "מיוט"],
           "הומוריסטי קצר", "QUOTE_CARD", ["culture.most_common_meeting_phrase"]),
    Intent(LeastProductiveTime, "זמן הכי פחות פרודוקטיבי",
           ["פרודוקטיביות", "פחות פרודוקטיבי", "אחרי חמישי שמח", "שקי תפוחי אדמה"],
           "הומוריסטי עם תובנה", "QUOTE_CARD", ["culture.least_productive_time"]),
    Intent(CultureEvents, "אירועי חברה והווי",
           ["חמישי שמח", "אירועי חברה", "גיבושים", "work life balance", "הווי"],
           "מספרי עם דוגמאות", "KPI_BIG_NUMBER", ["culture"]),
    Intent(TopPerformingTeam, "צוות שיאני הביצועים",
           ["צוות הכי טוב", "שיאני ביצועים", "KPI", "יעדים", "עמידה ביעדים"],
           "מספרי עם קרדיט", "LEADERBOARD", ["kpi.top_performing_team"]),
    Intent(CompanyDna, "DNA של לידרס",
           ["DNA", "ערכים", "זהות", "5 ערכים", "מי אנחנו"],
           "רשימה עם הסברים", "VALUE_CARDS", ["dna.values"]),
    Intent(Consultants, "היועצים שמלווים אותנו",
           ["יועצים", "מלווים", "אחיעד", "כוכבית"],
           "הצגה אישית", "VALUE_CARDS", ["consultants"]),
    Intent(Vision2026Intro, "חזון 2026",
           ["2026", "שנה הבאה", "עתיד", "חזון", "לידרס ב-2026"],
           "חזוני עם בולטים", "VALUE_CARDS", ["vision_2026"]),
    Intent(GrowthForecast, "תחזית צמיחה",
           ["צמיחה", "תחזית", "כמה עובדים", "דצמבר 2026", "קצב"],
           "תרחישים עם מספרים", "MINI_CHART", ["vision_2026.growth_scenarios"]),
    Intent(RapSummary, "שיר ראפ סיכום",
           ["שיר", "ראפ", "חרוזים", "לסיום"],
           "שיר ראפ", "QUOTE_CARD", ["rap_summary"])
  ]

  /** The position of each topic in the catalogue; the short recap has no entry. */
  function CatalogPosition(t: Topic): int
  {
    match t
    case YearRecapHeadlines => 0
    case TopRevenueClient2025 => 1
    case CoffeeToRevenue => 2
    case StrongestQuarter => 3
    case TotalRevenue2025 => 4
    case RoiBest => 5
    case ViralCampaign2025 => 6
    case ClientFeedbackKeywords => 7
    case EnzoSodastream => 8
    case AiTimeSavings => 9
    case CoffeeCornerJoke => 10
    case MostCommonMeetingPhrase => 11
    case LeastProductiveTime => 12
    case CultureEvents => 13
    case TopPerformingTeam => 14
    case CompanyDna => 15
    case Consultants => 16
    case Vision2026Intro => 17
    case GrowthForecast => 18
    case RapSummary => 19
    case YearRecapShort => -1
  }

  lemma CatalogShape()
    ensures |Catalog| == 20
    ensures forall i :: 0 <= i < |Catalog| ==> CatalogPosition(Catalog[i].id) == i
  {
  }

  /** Catalogue ids are pairwise distinct, so a lookup by id is unambiguous. */
  lemma CatalogDistinct()
    ensures forall i, j :: 0 <= i < j < |Catalog| ==> Catalog[i].id != Catalog[j].id
  {
    CatalogShape();
  }

  /** Every entry's visual kind is one of the closed set of visual kinds. */
  lemma CatalogVisualTypes()
    ensures forall i :: 0 <= i < |Catalog| ==> ParseVisualType(Catalog[i].visualType).Some?
  {
  }

  // ---------------------------------------------------------------- lookup

  /** The `find` predicate `intent => intent.id === id`. */
  function HasId(id: string): Intent -> bool
  {
    (it: Intent) => Name(it.id) == id
  }

  /** `getIntentById`: the first entry whose id is `id`, if any. */
  function GetIntentById(id: string): (r: Option<Intent>)
    ensures r.Some? ==> Name(r.value.id) == id
  {
    Find(Catalog, HasId(id))
  }

  /** Each entry of `c` sits at the catalogue position of its topic, as in `Catalog`. */
  predicate CatalogLaidOut(c: seq<Intent>)
  {
    |c| == 20 && forall i :: 0 <= i < |c| ==> CatalogPosition(c[i].id) == i
  }

  /** Where `find` stops in a laid-out catalogue. */
  function Slot(id: string): int
  {
    if Parse(id).Some? then CatalogPosition(Parse(id).value) else -1
  }

  /**
   * A lookup finds the entry at the catalogue position of the topic `id`
   * names, and nothing for a string that names no catalogued topic.
   */
  lemma IntentByIdIsPosition(id: string)
    ensures GetIntentById(id) == if Slot(id) >= 0 then Some(Catalog[Slot(id)]) else None
  {
    CatalogShape();
    FindInLaidOut(Catalog, id);
  }

  lemma FindInLaidOut(c: seq<Intent>, id: string)
    requires CatalogLaidOut(c)
    ensures FindIndex(c, HasId(id)) == Slot(id)
  {
    if Parse(id).Some? {
      var t := Parse(id).value;
      forall j | 0 <= j < |c|
        ensures HasId(id)(c[j]) <==> j == CatalogPosition(t)
      {
        HasIdAt(c[j], j, id, t);
      }
      if CatalogPosition(t) >= 0 {
        FindIndexUnique(c, HasId(id), CatalogPosition(t));
      }
    } else {
      forall j | 0 <= j < |c| ensures !HasId(id)(c[j]) {
        ParseName(c[j].id);
      }
    }
  }

  lemma HasIdAt(it: Intent, j: int, id: string, t: Topic)
    requires CatalogPosition(it.id) == j >= 0
    requires Parse(id) == Some(t)
    ensures HasId(id)(it) <==> j == CatalogPosition(t)
  {
    ParseName(it.id);
    CatalogPositionInjective(it.id, t);
  }

  lemma CatalogPositionInjective(a: Topic, b: Topic)
    ensures CatalogPosition(a) == CatalogPosition(b) >= 0 ==> a == b
  {
  }

  /** Looking up a catalogued topic's own id gives back its entry. */
  lemma IntentByIdRoundTrip(t: Topic)
    requires t != YearRecapShort
    ensures GetIntentById(Name(t)).Some? && GetIntentById(Name(t)).value.id == t
  {
    CatalogShape();
    RoundTripInLaidOut(Catalog, t);
  }

  lemma RoundTripInLaidOut(c: seq<Intent>, t: Topic)
    requires CatalogLaidOut(c) && t != YearRecapShort
    ensures 0 <= CatalogPosition(t) < |c|
    ensures Find(c, HasId(Name(t))) == Some(c[CatalogPosition(t)])
    ensures c[CatalogPosition(t)].id == t
  {
    ParseName(t);
    FindInLaidOut(c, Name(t));
    CatalogPositionInjective(c[CatalogPosition(t)].id, t);
  }

  // ----------------------------------------------------------- descriptions

  /** One catalogue line: id, title and the triggers, comma separated. */
  function Line(it: Intent): string
  {
    "- " + Name(it.id) + ": " + it.title + ". טריגרים: " + Join(it.triggers, ", ") + "..."
  }

  function Lines(c: seq<Intent>): (r: seq<string>)
    ensures |r| == |c|
    ensures forall i :: 0 <= i < |c| ==> r[i] == Line(c[i])
  {
    if c == [] then [] else [Line(c[0])] + Lines(c[1..])
  }

  /** The lines of a catalogue joined by newlines. */
  function Descriptions(c: seq<Intent>): string
  {
    Join(Lines(c), "\n")
  }

  /** `getIntentDescriptions`: the description block of the whole catalogue. */
  function GetIntentDescriptions(): string
  {
    Descriptions(Catalog)
  }

  /** Fields without line breaks give a line without line breaks. */
  lemma LineAvoidsNewline(it: Intent)
    requires '\n' !in Name(it.id) && '\n' !in it.title
    requires forall k :: 0 <= k < |it.triggers| ==> '\n' !in it.triggers[k]
    ensures '\n' !in Line(it)
  {
    JoinAvoids(it.triggers, ", ", '\n');
  }

  /**
   * When no id, title or trigger holds a line break, splitting the
   * description block at line breaks gives back exactly one line per entry,
   * in order.
   */
  lemma DescriptionsSplit(c: seq<Intent>)
    requires |c| > 0
    requires forall i :: 0 <= i < |c| ==> '\n' !in Name(c[i].id) && '\n' !in c[i].title
    requires forall i, k :: 0 <= i < |c| && 0 <= k < |c[i].triggers| ==> '\n' !in c[i].triggers[k]
    ensures Split(Descriptions(c), '\n') == Lines(c)
    ensures |Split(Descriptions(c), '\n')| == |c|
  {
    forall i | 0 <= i < |c| ensures '\n' !in Lines(c)[i] {
      LineAvoidsNewline(c[i]);
    }
    SplitJoin(Lines(c), '\n');
  }
}
