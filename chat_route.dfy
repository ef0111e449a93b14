/**
 * The POST handler of the chat route (src/app/api/chat/route.ts): validate
 * the body, gate on the resolver's verdict, ask for missing details, or
 * collect the facts the catalogue entry names and hand them to the composer.
 * The resolver, the data pack loader and the composer are inputs.
 */
module ChatRoute {
  import opened Options
  import opened Topics
  import opened Strings
  import opened JsonValues
  import opened Intents

  /** What the resolver says about a message. */
  datatype Resolution = Resolution(intentId: string, confidence: real, missingFields: seq<string>)

  /** What the composer returns for an intent and its facts. */
  datatype Composition = Composition(answerText: string, visual: Json, factsUsed: seq<string>)

  /** The `visual_payload` member: a quote card, or what the composer built. */
  datatype ChatVisual = Quote(quote: string, author: string) | Payload(payload: Json)

  /** The `internal_debug` member: absent, a rationale, or the admin trace of an answer. */
  datatype Debug = NoDebug | Rationale(rationale: string) | Trace(rationale: string, factsUsed: seq<string>, dataPaths: Option<seq<string>>)

  datatype ChatResponse =
    | Failure(status: nat, error: string)
    | Reply(status: nat, answerText: string, intentId: string, confidence: real,
            visual: ChatVisual, missingFields: seq<string>, debug: Debug)

  const UnknownResponses: seq<string> := [
    "תן לי שניה, אני רוצה לענות מדויק. זה שייך לכסף, קמפיינים, אנשים או 2026?",
    "לא בטוח שהבנתי. אפשר לנסח אחרת?",
    "הנושא הזה עדיין לא מחובר לדאטה שלי."
  ]

  const BadRequest: ChatResponse := Failure(400, "Message is required")

  /** The reply of the handler's `catch`. */
  const ServerError: ChatResponse :=
    Reply(500, "משהו השתבש. תנסו שוב?", "ERROR", 0.0, Quote("שגיאה במערכת", "LEADERS AI"), [], NoDebug)

  // ------------------------------------------------------------ the body

  /** A destructured member of the body; `undefined` when the body is no object or lacks it. */
  function Member(body: Json, key: string): Option<Json>
  {
    if body.JObject? && key in body.fields then Some(body.fields[key]) else None
  }

  /** The message, when it is a string and truthy (not empty). */
  function Message(body: Json): (r: Option<string>)
    ensures r.Some? <==> exists s :: Member(body, "message") == Some(JString(s)) && s != ""
    ensures r.Some? ==> Member(body, "message") == Some(JString(r.value))
  {
    match Member(body, "message")
    case Some(JString(s)) => if s != "" then Some(s) else None
    case _ => None
  }

  /** `mode === 'admin'`; an absent mode defaults to 'show'. */
  predicate IsAdmin(body: Json)
  {
    Member(body, "mode") == Some(JString("admin"))
  }

  // ------------------------------------------------------------ the gate

  /** The resolver's verdict is 'UNKNOWN' or not confident enough. */
  predicate Unresolved(res: Resolution)
  {
    res.intentId == UnknownName || res.confidence < 0.5
  }

  /** `Math.floor(roll * 3)` for the draw `roll` of `Math.random()`. */
  function DrawIndex(roll: real): (i: nat)
    requires 0.0 <= roll < 1.0
    ensures i < |UnknownResponses|
    ensures i as real <= roll * 3.0 < i as real + 1.0
  {
    (roll * 3.0).Floor
  }

  /** The canned answer: the first in admin mode, otherwise the one drawn. */
  function UnknownAnswer(admin: bool, roll: real): (a: string)
    requires 0.0 <= roll < 1.0
    ensures exists i :: 0 <= i < |UnknownResponses| && a == UnknownResponses[i]
    ensures admin ==> a == UnknownResponses[0]
  {
    if admin then UnknownResponses[0] else UnknownResponses[DrawIndex(roll)]
  }

  /** The reply under the gate: 'UNKNOWN', a canned answer, the hint card, and the rationale in admin mode. */
  function UnknownIntentReply(confidence: real, admin: bool, roll: real): ChatResponse
    requires 0.0 <= roll < 1.0
  {
    Reply(200, UnknownAnswer(admin, roll), UnknownName, confidence,
          Quote("נסו לשאול על לקוחות, קמפיינים, AI או 2026", "LEADERS AI"), [],
          if admin then Rationale("Low confidence or unknown intent") else NoDebug)
  }

  /** The reply that asks for the fields the resolver found missing. */
  function MissingReply(res: Resolution): ChatResponse
  {
    var listed := Join(res.missingFields, ", ");
    Reply(200, "צריך עוד פרט קטן: " + listed + "?", res.intentId, res.confidence,
          Quote("חסר: " + listed, "המערכת"), res.missingFields, NoDebug)
  }

  // ------------------------------------------------------- relevant data

  /** `intent?.data_paths` for the catalogue entry of an id. */
  function DataPaths(intent: Option<Intent>): Option<seq<string>>
  {
    if intent.Some? then Some(intent.value.dataPaths) else None
  }

  /** The `relevantData` record: a value per key, `None` standing for `undefined`. */
  type Facts = map<string, Option<Json>>

  /** The pack's `company` member, `undefined` when the pack has none. */
  function CompanyEntry(dataPack: Json): Facts
  {
    map["company" := Member(dataPack, "company")]
  }

  /**
   * `entries` with one entry added per data path, keyed by the dotted path
   * itself and holding what the walk reaches; a later path overwrites an
   * equal earlier one or an entry already present.
   */
  function Collected(entries: Facts, dataPack: Json, paths: seq<string>): Facts
    decreases |paths|
  {
    if paths == [] then entries
    else
      var last := paths[|paths| - 1];
      Collected(entries, dataPack, paths[..|paths| - 1])[last := Some(Walk(dataPack, Split(last, '.')))]
  }

  lemma CollectedSnoc(entries: Facts, dataPack: Json, paths: seq<string>, n: nat)
    requires n < |paths|
    ensures Collected(entries, dataPack, paths[..n + 1])
         == Collected(entries, dataPack, paths[..n])[paths[n] := Some(Walk(dataPack, Split(paths[n], '.')))]
  {
    assert paths[..n + 1][..n] == paths[..n];
  }

  /** The facts handed to the composer: the company entry, then the data paths. */
  function RelevantData(dataPack: Json, dataPaths: Option<seq<string>>): Facts
  {
    Collected(CompanyEntry(dataPack), dataPack, if dataPaths.Some? then dataPaths.value else [])
  }

  /**
   * The collection loop: the company entry, then for each path a walk over
   * its keys that stops, with `null`, at the first missing step.
   */
  method ExtractRelevantData(dataPack: Json, dataPaths: Option<seq<string>>) returns (relevantData: Facts)
    ensures relevantData == RelevantData(dataPack, dataPaths)
  {
    relevantData := map[];
    relevantData := relevantData["company" := Member(dataPack, "company")];
    ghost var base := relevantData;
    if dataPaths.Some? {
      var paths := dataPaths.value;
      for n := 0 to |paths|
        invariant relevantData == Collected(base, dataPack, paths[..n])
      {
        var path := paths[n];
        var keys := Split(path, '.');
        var value := dataPack;
        var k := 0;
        while k < |keys|
          invariant 0 <= k <= |keys|
          invariant Walk(dataPack, keys) == Walk(value, keys[k..])
          decreases |keys| - k
        {
          var key := keys[k];
          if Steps(value, key) {
            value := Child(value, key);
          } else {
            assert keys[k..][0] == key;
            value := JNull;
            break;
          }
          k := k + 1;
        }
        assert value == Walk(dataPack, keys);
        CollectedSnoc(base, dataPack, paths, n);
        relevantData := relevantData[path := Some(value)];
      }
      assert paths[..|paths|] == paths;
    }
  }

  // ----------------------------------------------------------- the route

  /** The answer built from the composer's text and visual; admin mode adds the trace. */
  function AnswerReply(res: Resolution, admin: bool, dataPaths: Option<seq<string>>, c: Composition): ChatResponse
  {
    Reply(200, c.answerText, res.intentId, res.confidence, Payload(c.visual), [],
          if admin then Trace("Intent: " + res.intentId, c.factsUsed, dataPaths) else NoDebug)
  }

  /**
   * The handler. `body` is what `req.json()` yields (None when it rejects),
   * `resolve` the resolver, `roll` the draw of `Math.random()`, `dataPack`
   * what the loader returns and `compose` the composer.
   */
  method Post(body: Option<Json>, resolve: string -> Resolution, roll: real, dataPack: Json,
              compose: (string, Facts) -> Composition) returns (r: ChatResponse)
    requires 0.0 <= roll < 1.0
    ensures body.None? || body == Some(JNull) ==> r == ServerError
    ensures body.Some? && body.value != JNull && Message(body.value).None? ==> r == BadRequest
    ensures body.Some? && body.value != JNull && Message(body.value).Some? ==>
      var res := resolve(Message(body.value).value);
      var admin := IsAdmin(body.value);
      if Unresolved(res) then r == UnknownIntentReply(res.confidence, admin, roll)
      else if |res.missingFields| > 0 then r == MissingReply(res)
      else if dataPack == JNull then r == ServerError
      else
        var paths := DataPaths(GetIntentById(res.intentId));
        r == AnswerReply(res, admin, paths, compose(res.intentId, RelevantData(dataPack, paths)))
  {
    if body.None? || body == Some(JNull) {
      // `req.json()` rejected, or destructuring `null` threw
      return ServerError;
    }
    var message := Message(body.value);
    if message.None? {
      return BadRequest;
    }
    var admin := IsAdmin(body.value);
    var res := resolve(message.value);
    if Unresolved(res) {
      return UnknownIntentReply(res.confidence, admin, roll);
    }
    if |res.missingFields| > 0 {
      return MissingReply(res);
    }
    if dataPack == JNull {
      // reading `company` of `null` threw
      return ServerError;
    }
    var paths := DataPaths(GetIntentById(res.intentId));
    var relevantData := ExtractRelevantData(dataPack, paths);
    var c := compose(res.intentId, relevantData);
    r := AnswerReply(res, admin, paths, c);
  }

  // ---------------------------------------------------------- properties

  /**
   * The entries collected are those given plus exactly the data paths, each
   * path holding what the walk along its keys reaches; the entries given
   * that no path names are kept.
   */
  lemma {:induction false} CollectedEntries(entries: Facts, dataPack: Json, paths: seq<string>)
    ensures Collected(entries, dataPack, paths).Keys == entries.Keys + set p | p in paths
    ensures forall p :: p in paths ==> Collected(entries, dataPack, paths)[p] == Some(Walk(dataPack, Split(p, '.')))
    ensures forall p :: p in entries && p !in paths ==> Collected(entries, dataPack, paths)[p] == entries[p]
    decreases |paths|
  {
    if paths != [] {
      var init := paths[..|paths| - 1];
      CollectedEntries(entries, dataPack, init);
      assert paths == init + [paths[|paths| - 1]];
    }
  }

  /** Every data path has its entry, holding what the walk along its keys reaches. */
  lemma RelevantDataPaths(dataPack: Json, paths: seq<string>, p: string)
    requires p in paths
    ensures p in RelevantData(dataPack, Some(paths))
    ensures RelevantData(dataPack, Some(paths))[p] == Some(Walk(dataPack, Split(p, '.')))
  {
    CollectedEntries(CompanyEntry(dataPack), dataPack, paths);
  }

  /**
   * The entries are the company entry and one per data path; an intent the
   * catalogue does not know adds nothing but the company entry.
   */
  lemma RelevantDataKeys(dataPack: Json, dataPaths: Option<seq<string>>)
    ensures var paths := if dataPaths.Some? then dataPaths.value else [];
      RelevantData(dataPack, dataPaths).Keys
        == {"company"} + set p | p in paths
    ensures dataPaths.None? ==> RelevantData(dataPack, dataPaths) == CompanyEntry(dataPack)
  {
    CollectedEntries(CompanyEntry(dataPack), dataPack, if dataPaths.Some? then dataPaths.value else []);
  }

  /** The company entry is the pack's own unless a data path is literally "company". */
  lemma RelevantDataCompany(dataPack: Json, dataPaths: Option<seq<string>>)
    requires dataPaths.None? || "company" !in dataPaths.value
    ensures "company" in RelevantData(dataPack, dataPaths)
    ensures RelevantData(dataPack, dataPaths)["company"] == Member(dataPack, "company")
  {
    CollectedEntries(CompanyEntry(dataPack), dataPack, if dataPaths.Some? then dataPaths.value else []);
  }

  /** A path whose walk misses a step gets `null`. */
  lemma MissingPathIsNull(dataPack: Json, paths: seq<string>, p: string)
    requires p in paths && !Defined(dataPack, Split(p, '.'))
    ensures p in RelevantData(dataPack, Some(paths))
    ensures RelevantData(dataPack, Some(paths))[p] == Some(JNull)
  {
    RelevantDataPaths(dataPack, paths, p);
    WalkMissing(dataPack, Split(p, '.'));
  }

  /** A dotted path descends one key per segment: "a.rest" is the key "a", then "rest". */
  lemma PathDescends(dataPack: Json, first: string, rest: string)
    requires '.' !in first
    ensures Walk(dataPack, Split(first + "." + rest, '.'))
      == if Steps(dataPack, first) then Walk(Child(dataPack, first), Split(rest, '.')) else JNull
  {
    SplitCons(first, '.', rest);
    var keys := [first] + Split(rest, '.');
    assert keys[0] == first && keys[1..] == Split(rest, '.');
  }

  /** Unresolved verdicts get 'UNKNOWN', a canned answer (the first in admin mode), and no fields. */
  lemma UnknownReplyShape(confidence: real, admin: bool, roll: real)
    requires 0.0 <= roll < 1.0
    ensures var r := UnknownIntentReply(confidence, admin, roll);
      && r.Reply? && r.status == 200 && r.intentId == UnknownName && r.confidence == confidence
      && (exists i :: 0 <= i < |UnknownResponses| && r.answerText == UnknownResponses[i])
      && (admin ==> r.answerText == UnknownResponses[0])
      && r.missingFields == []
  {
  }

  /** In admin mode the reply to an unresolved verdict does not depend on the draw. */
  lemma AdminIgnoresDraw(confidence: real, roll1: real, roll2: real)
    requires 0.0 <= roll1 < 1.0 && 0.0 <= roll2 < 1.0
    ensures UnknownIntentReply(confidence, true, roll1) == UnknownIntentReply(confidence, true, roll2)
    ensures UnknownIntentReply(confidence, true, roll1).debug == Rationale("Low confidence or unknown intent")
    ensures UnknownIntentReply(confidence, false, roll1).debug == NoDebug
  {
  }

  /** The answer keeps the resolved intent and confidence, asks for nothing, and traces only in admin mode. */
  lemma AnswerReplyShape(res: Resolution, admin: bool, dataPaths: Option<seq<string>>, c: Composition)
    ensures var r := AnswerReply(res, admin, dataPaths, c);
      && r.Reply? && r.status == 200 && r.intentId == res.intentId && r.confidence == res.confidence
      && r.answerText == c.answerText && r.visual == Payload(c.visual) && r.missingFields == []
      && (r.debug.NoDebug? <==> !admin)
      && (admin ==> r.debug.dataPaths == dataPaths && r.debug.factsUsed == c.factsUsed)
  {
  }

  /** The missing-fields reply keeps the intent, echoes the fields and names each of them in its text. */
  lemma MissingReplyShape(res: Resolution)
    ensures var r := MissingReply(res);
      && r.Reply? && r.intentId == res.intentId && r.missingFields == res.missingFields
      && (|res.missingFields| == 1 ==> r.answerText == "צריך עוד פרט קטן: " + res.missingFields[0] + "?")
      && (forall f :: f in res.missingFields ==> Contains(r.answerText, f))
  {
    var listed := Join(res.missingFields, ", ");
    forall f | f in res.missingFields
      ensures Contains("צריך עוד פרט קטן: " + listed + "?", f)
    {
      var i :| 0 <= i < |res.missingFields| && res.missingFields[i] == f;
      JoinContains(res.missingFields, ", ", i);
      ContainsInfix("צריך עוד פרט קטן: ", listed, "?", f);
    }
  }
}
