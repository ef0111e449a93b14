/**
 * Topic ("intent") identifiers. The source keys every table by these
 * strings; the model gives each one a constructor and keeps the string
 * the source uses in `Name`, so that caller-supplied strings (a history, a
 * last intent, an id to look up) are compared exactly as the source does.
 * The sentinel 'UNKNOWN' is not a topic.
 */
module Topics {
  import opened Options

  datatype Topic =
    | YearRecapHeadlines
    | YearRecapShort
    | TopRevenueClient2025
    | CoffeeToRevenue
    | StrongestQuarter
    | CoffeeCornerJoke
    | ViralCampaign2025
    | ClientFeedbackKeywords
    | AiTimeSavings
    | EnzoSodastream
    | RoiBest
    | MostCommonMeetingPhrase
    | CultureEvents
    | TopPerformingTeam
    | CompanyDna
    | LeastProductiveTime
    | GrowthForecast
    | Consultants
    | Vision2026Intro
    | RapSummary
    | TotalRevenue2025

  /** The sentinel id the engine and the chat route answer with when nothing resolved. */
  const UnknownName: string := "UNKNOWN"

  function Name(t: Topic): string
  {
    match t
    case YearRecapHeadlines => "YEAR_RECAP_HEADLINES"
    case YearRecapShort => "YEAR_RECAP_SHORT"
    case TopRevenueClient2025 => "TOP_REVENUE_CLIENT_2025"
    case CoffeeToRevenue => "COFFEE_TO_REVENUE"
    case StrongestQuarter => "STRONGEST_QUARTER"
    case CoffeeCornerJoke => "COFFEE_CORNER_JOKE"
    case ViralCampaign2025 => "VIRAL_CAMPAIGN_2025"
    case ClientFeedbackKeywords => "CLIENT_FEEDBACK_KEYWORDS"
    case AiTimeSavings => "AI_TIME_SAVINGS"
    case EnzoSodastream => "ENZO_SODASTREAM"
    case RoiBest => "ROI_BEST"
    case MostCommonMeetingPhrase => "MOST_COMMON_MEETING_PHRASE"
    case CultureEvents => "CULTURE_EVENTS"
    case TopPerformingTeam => "TOP_PERFORMING_TEAM"
    case CompanyDna => "COMPANY_DNA"
    case LeastProductiveTime => "LEAST_PRODUCTIVE_TIME"
    case GrowthForecast => "GROWTH_FORECAST"
    case Consultants => "CONSULTANTS"
    case Vision2026Intro => "VISION_2026_INTRO"
    case RapSummary => "RAP_SUMMARY"
    case TotalRevenue2025 => "TOTAL_REVENUE_2025"
  }

  /**
   * Reads an id string back; any other string (including 'UNKNOWN') names no
   * topic. The candidates are grouped by their first letter.
   */
  function Parse(s: string): (r: Option<Topic>)
    ensures r.Some? ==> Name(r.value) == s
  {
    if s == [] then None
    else match s[0]
      case 'Y' =>
        if s == "YEAR_RECAP_HEADLINES" then Some(YearRecapHeadlines)
        else if s == "YEAR_RECAP_SHORT" then Some(YearRecapShort)
        else None
      case 'T' =>
        if s == "TOP_REVENUE_CLIENT_2025" then Some(TopRevenueClient2025)
        else if s == "TOP_PERFORMING_TEAM" then Some(TopPerformingTeam)
        else if s == "TOTAL_REVENUE_2025" then Some(TotalRevenue2025)
        else None
      case 'C' =>
        if s == "COFFEE_TO_REVENUE" then Some(CoffeeToRevenue)
        else if s == "COFFEE_CORNER_JOKE" then Some(CoffeeCornerJoke)
        else if s == "CLIENT_FEEDBACK_KEYWORDS" then Some(ClientFeedbackKeywords)
        else if s == "CULTURE_EVENTS" then Some(CultureEvents)
        else if s == "COMPANY_DNA" then Some(CompanyDna)
        else if s == "CONSULTANTS" then Some(Consultants)
        else None
      case 'S' => if s == "STRONGEST_QUARTER" then Some(StrongestQuarter) else None
      case 'V' =>
        if s == "VIRAL_CAMPAIGN_2025" then Some(ViralCampaign2025)
        else if s == "VISION_2026_INTRO" then Some(Vision2026Intro)
        else None
      case 'A' => if s == "AI_TIME_SAVINGS" then Some(AiTimeSavings) else None
      case 'E' => if s == "ENZO_SODASTREAM" then Some(EnzoSodastream) else None
      case 'R' =>
        if s == "ROI_BEST" then Some(RoiBest)
        else if s == "RAP_SUMMARY" then Some(RapSummary)
        else None
      case 'M' => if s == "MOST_COMMON_MEETING_PHRASE" then Some(MostCommonMeetingPhrase) else None
      case 'L' => if s == "LEAST_PRODUCTIVE_TIME" then Some(LeastProductiveTime) else None
      case 'G' => if s == "GROWTH_FORECAST" then Some(GrowthForecast) else None
      case _ => None
  }

  lemma ParseName(t: Topic)
    ensures Parse(Name(t)) == Some(t)
  {
  }

  /** Different topics have different id strings, none of them the sentinel or empty. */
  lemma NameInjective(a: Topic, b: Topic)
    ensures Name(a) == Name(b) <==> a == b
    ensures Name(a) != UnknownName && Name(a) != ""
  {
    ParseName(a);
    ParseName(b);
  }
}

/** The closed set of visual payload kinds a renderer switches on. */
module VisualTypes {
  import opened Options

  datatype VisualType =
    | KpiBigNumber
    | MiniChart
    | VideoEmbed
    | Leaderboard
    | QuoteCard
    | ValueCards
    | TimelineCard
    | AnimatedList
    | FormattedText

  function VisualTypeName(v: VisualType): string
  {
    match v
    case KpiBigNumber => "KPI_BIG_NUMBER"
    case MiniChart => "MINI_CHART"
    case VideoEmbed => "VIDEO_EMBED"
    case Leaderboard => "LEADERBOARD"
    case QuoteCard => "QUOTE_CARD"
    case ValueCards => "VALUE_CARDS"
    case TimelineCard => "TIMELINE_CARD"
    case AnimatedList => "ANIMATED_LIST"
    case FormattedText => "FORMATTED_TEXT"
  }

  /** The enumeration's membership test: which strings are visual kinds. */
  function ParseVisualType(s: string): (r: Option<VisualType>)
    ensures r.Some? ==> VisualTypeName(r.value) == s
  {
    if s == "KPI_BIG_NUMBER" then Some(KpiBigNumber)
    else if s == "MINI_CHART" then Some(MiniChart)
    else if s == "VIDEO_EMBED" then Some(VideoEmbed)
    else if s == "LEADERBOARD" then Some(Leaderboard)
    else if s == "QUOTE_CARD" then Some(QuoteCard)
    else if s == "VALUE_CARDS" then Some(ValueCards)
    else if s == "TIMELINE_CARD" then Some(TimelineCard)
    else if s == "ANIMATED_LIST" then Some(AnimatedList)
    else if s == "FORMATTED_TEXT" then Some(FormattedText)
    else None
  }

  lemma ParseVisualTypeName(v: VisualType)
    ensures ParseVisualType(VisualTypeName(v)) == Some(v)
  {
  }
}
