# A scripted year-in-review chat, modelled in Dafny

The system is a presentation chatbot for a company's year-end event. It has
two ways to answer:

- **The flow engine** answers without a language model. It normalizes the
  message (trim, lower-case). An affirmation phrase ("כן", "יאלה", "ok", ...)
  takes the topic of the script question at the cursor. Otherwise the first
  row of an ordered keyword table that the message mentions decides.
  Otherwise the topic at the cursor is taken anyway. Only past the end of
  the nineteen-question script, with no keyword, is the answer 'UNKNOWN'.
  The cursor moves on whenever a topic was chosen.
- **The chat route** (`POST /api/chat`) answers with a model behind it. It
  validates the body and asks a resolver for an intent. It then does one of
  three things:
  - answers 'UNKNOWN' when the intent is unknown or the confidence is below
    0.5;
  - asks for the missing details, when the resolver lists any;
  - collects the data-pack facts that the intent's catalogue entry names by
    dotted paths, and hands them to a composer.

Next to these sit the script of questions, with the rule for which questions
to suggest next, and the intent catalogue, with lookup by id and the
description block.

The modules mirror the source files:

| module | file | form |
|---|---|---|
| `Topics`, `VisualTypes` | the intent ids, and the visual kinds of `src/lib/responseComposer.ts` | datatypes with name/parse round trips |
| `Strings`, `Sequences` | the JavaScript built-ins used (`includes`, `trim`, `toLowerCase`, `join`, `split`, `findIndex`, `find`, `filter`, `slice`) | functions and lemmas |
| `FlowQuestions` | `src/lib/flowQuestions.ts` | pure |
| `Intents` | `src/lib/intents.ts` | pure |
| `FlowEngine` | `src/lib/flowEngine.ts` | `processMessage` and `detectIntentFromText` are methods, each proved against a specification function; the cursor is a function |
| `JsonValues` | the JSON values the route reads | datatype with the path walk |
| `ChatRoute` | `src/app/api/chat/route.ts` | the nested collection loop and the handler are methods; the reply builders are functions |

Some notes on how the model reads the source:

- **Ids.** Ids are strings in the source. The model has a `Topic` datatype
  with `Name`/`Parse`, and callers' strings (histories, `lastIntentId`, the
  id given to `getIntentById`) stay strings that are compared with
  `Name(topic)`.
- **No target.** In the engine, "no target" is `None` and is answered with
  'UNKNOWN'.
- **Engine tables.** The engine is written over a `Tables` value (script,
  affirmations, keyword rules). `FlowEngine.Flow` is the source's own
  tables. `FlowEngine.FlowAnswered` discharges, for those tables, the one
  premise the general lemmas need.
- **Two places where behaviour might be expected to differ.**
  - The cursor (`getCurrentQuestionIndex`) looks only at the last asked
    topic. It does not skip topics already asked, and
    `FlowEngine.CursorRevisitsAskedTopic` shows a history where it points
    back at one.
  - A message with no affirmation and no keyword still takes the cursor's
    topic while the script lasts, so 'UNKNOWN' needs an exhausted script.
- **The script's own third prompt.** The prompt "כמה כוסות קפה זה ההכנסות
  שלנו?" belongs to COFFEE_TO_REVENUE. When it is sent back at its own
  position it is answered as TOP_REVENUE_CLIENT_2025, because it contains
  "הכנסות" and that keyword row comes earlier in the table
  (`FlowEngine.CoffeePromptAnsweredAsTopRevenue`).

## Model

| member | source | states |
|---|---|---|
| Topics.Parse | src/lib/intents.ts:10-171 | a string parses to a topic only if it is that topic's id |
| Topics.ParseName | src/lib/intents.ts:10-171 | every topic's id parses back to that topic |
| Topics.NameInjective | src/lib/flowEngine.ts:375-396 | distinct topics have distinct ids, and none is 'UNKNOWN' or empty |
| VisualTypes.ParseVisualType | src/lib/responseComposer.ts:4-13 | a string parses to a visual kind only if it is that kind's name |
| VisualTypes.ParseVisualTypeName | src/lib/responseComposer.ts:4-13 | every visual kind's name parses back to it |
| Strings.ContainsChar | src/lib/flowEngine.ts:399 | a text that includes `k` holds every character of `k` |
| Strings.ContainsTrans | src/lib/flowEngine.ts:399 | including a phrase means including every part of it |
| Strings.ContainsEmpty | src/lib/flowEngine.ts:331 | every text includes the empty phrase, and the empty text includes only that |
| Strings.TrimStart | src/lib/flowEngine.ts:327 | removes exactly the leading whitespace |
| Strings.TrimEnd | src/lib/flowEngine.ts:327 | removes exactly the trailing whitespace |
| Strings.Trim | src/lib/flowEngine.ts:327 | the result is a middle slice of the text, with whitespace only around it, and neither starts nor ends with whitespace |
| Strings.TrimUnchanged | src/lib/flowEngine.ts:327 | a text with no whitespace at either end is left as it is |
| Strings.TrimIdempotent | src/lib/flowEngine.ts:327 | trimming twice is trimming once |
| Strings.LowerChar | src/lib/flowEngine.ts:327 | lower-casing keeps whitespace as it is, leaves no capital, and changes nothing else |
| Strings.Lower | src/lib/flowEngine.ts:327 | lower-cases character by character and keeps the length |
| Strings.LowerUnchanged | src/lib/flowEngine.ts:327 | a text without capitals is left as it is |
| Strings.LowerIdempotent | src/lib/flowEngine.ts:327 | lower-casing twice is lower-casing once |
| Strings.Join | src/lib/intents.ts:179 | joining a single part gives that part |
| Strings.Split | src/app/api/chat/route.ts:78 | at least one part, none holding the separator |
| Strings.FirstIndex | src/app/api/chat/route.ts:78 | the first occurrence of the separator |
| Strings.FirstIndexOf | src/app/api/chat/route.ts:78 | a separator with none before it is the first occurrence |
| Strings.SplitJoin | src/app/api/chat/route.ts:78 | splitting the join of separator-free parts gives the parts back |
| Strings.SplitCons | src/app/api/chat/route.ts:78 | a path "head.rest" splits to its head, then the parts of the rest |
| Strings.JoinSplit | src/app/api/chat/route.ts:78 | joining the parts of a split gives the text back |
| Strings.ContainsInfix | src/app/api/chat/route.ts:52 | a text includes itself, and text around a part keeps what the part includes |
| Strings.JoinContains | src/app/api/chat/route.ts:52 | a join includes each of its parts |
| Strings.JoinAvoids | src/lib/intents.ts:179 | a join of parts and a separator that avoid a character avoids it too |
| Sequences.FindIndex | src/lib/flowQuestions.ts:112 | the first index satisfying the predicate, -1 exactly when none does |
| Sequences.FindIndexUnique | src/lib/flowEngine.ts:412 | when only position `k` satisfies the predicate, `findIndex` gives `k` |
| Sequences.Find | src/lib/intents.ts:174 | the first element satisfying the predicate, none exactly when no element does |
| Sequences.Filter | src/lib/flowQuestions.ts:121 | no longer than the input, and every element kept satisfies the predicate |
| Sequences.FilterSound | src/lib/flowQuestions.ts:121 | everything kept comes from the input |
| Sequences.FilterComplete | src/lib/flowQuestions.ts:121 | nothing satisfying the predicate is dropped |
| Sequences.FilterAll | src/lib/flowQuestions.ts:121 | a filter every element passes changes nothing |
| Sequences.FilterIncreasing | src/lib/flowQuestions.ts:119-121 | filtering keeps the input order |
| Sequences.IncreasingCons | src/lib/flowQuestions.ts:119-121 | an element below an ordered sequence extends the order |
| Sequences.FilterAround | src/lib/flowQuestions.ts:121 | the filter of a sequence around an element that passes |
| Sequences.FilteredBefore | src/lib/flowQuestions.ts:119-121 | what passes the filter before a position comes earlier in the order |
| Sequences.TakeFilterSkipsNothing | src/lib/flowQuestions.ts:119-123 | taking the first `n` filtered elements skips no eligible element unless `n` earlier ones were taken |
| Sequences.Take | src/lib/flowQuestions.ts:123 | `slice(0, n)`: a prefix of length min(n, length) |
| FlowQuestions.QuestionsShape | src/lib/flowQuestions.ts:8-104 | nineteen entries, each at its topic's script position; each id has the length and last character of "q1" to "q19" in turn, which is what tells them apart |
| FlowQuestions.QuestionIdsHead | src/lib/flowQuestions.ts:8-53 | the first nine ids are "q1" to "q9", in order |
| FlowQuestions.QuestionIdsTail | src/lib/flowQuestions.ts:54-104 | the last ten ids are "q10" to "q19", in order |
| FlowQuestions.QuestionsDistinct | src/lib/flowQuestions.ts:8-104 | script ids are pairwise distinct, and so are the topics asked |
| FlowQuestions.IndexOfIntent | src/lib/flowQuestions.ts:112 | the lookup is -1 or a script position |
| FlowQuestions.IndexOfIntentIsPosition | src/lib/flowQuestions.ts:112 | looking up a string gives its topic's script position, and -1 when it names no scripted topic |
| FlowQuestions.IndexOfTopicName | src/lib/flowQuestions.ts:112 | a topic's id is found at its script position |
| FlowQuestions.FindByPosition | src/lib/flowQuestions.ts:112 | in any script laid out by position, `findIndex` by topic id finds the topic's position |
| FlowQuestions.AsksForAt | src/lib/flowQuestions.ts:112 | the entry at position `j` asks for `t` exactly when `t`'s position is `j` |
| FlowQuestions.PositionInjective | src/lib/flowQuestions.ts:8-104 | each script position belongs to one topic |
| FlowQuestions.IndexOfNonTopic | src/lib/flowQuestions.ts:112 | a string naming no topic is not found |
| FlowQuestions.ScriptPositionUnique | src/lib/flowQuestions.ts:8-104 | only the entry at a topic's position asks for it |
| FlowQuestions.StartIndex | src/lib/flowQuestions.ts:109-116 | the start position lies within the script |
| FlowQuestions.StartIndexIsPosition | src/lib/flowQuestions.ts:109-116 | the start is one past the last topic's script position, and 0 when there is no last topic, it is empty, or the script does not ask it |
| FlowQuestions.GetNextQuestions | src/lib/flowQuestions.ts:107-124 | at most three suggestions, none for an asked topic |
| FlowQuestions.Suggest | src/lib/flowQuestions.ts:119-123 | the same two bounds for the rule over any script |
| FlowQuestions.SuffixPositions | src/lib/flowQuestions.ts:120 | a suffix of a laid-out script is ordered by position |
| FlowQuestions.SuggestInOrder | src/lib/flowQuestions.ts:119-123 | suggestions are script entries from the start on, in script order |
| FlowQuestions.SuggestIncreasing | src/lib/flowQuestions.ts:119-123 | suggestions strictly increase in script position |
| FlowQuestions.SuggestEntries | src/lib/flowQuestions.ts:119-123 | each suggestion is the script entry at its position, at or after the start |
| FlowQuestions.SuggestSkipsNothing | src/lib/flowQuestions.ts:119-123 | an eligible entry is suggested, or three earlier ones were |
| FlowQuestions.SuggestNothingAsked | src/lib/flowQuestions.ts:119-123 | with nothing asked, the suggestion from the top is the first three entries |
| FlowQuestions.NextQuestionsInOrder | src/lib/flowQuestions.ts:107-124 | every suggestion is the script entry at its position, at or after the start, in script order |
| FlowQuestions.NextQuestionsSkipNothing | src/lib/flowQuestions.ts:119-123 | no unasked question at or after the start is skipped unless three earlier ones fill the list |
| FlowQuestions.OpeningIsFirstSuggestion | src/lib/flowQuestions.ts:107-129 | when the suggestions start at the top and nothing was asked, they are the opening questions |
| FlowQuestions.GetOpeningQuestions | src/lib/flowQuestions.ts:127-129 | the first three script entries |
| Intents.CatalogShape | src/lib/intents.ts:10-171 | twenty entries, each at its topic's catalogue position |
| Intents.CatalogDistinct | src/lib/intents.ts:10-171 | catalogue ids are pairwise distinct |
| Intents.CatalogVisualTypes | src/lib/intents.ts:16-168 | every entry's visual type is one of the visual kinds |
| Intents.GetIntentById | src/lib/intents.ts:173-175 | a found entry carries the id looked up |
| Intents.IntentByIdIsPosition | src/lib/intents.ts:173-175 | the lookup gives the entry at the id's catalogue position, and nothing for an uncatalogued id |
| Intents.FindInLaidOut | src/lib/intents.ts:174 | in any catalogue laid out by position, `findIndex` by id stops at the id's position |
| Intents.HasIdAt | src/lib/intents.ts:174 | the entry at position `j` has id `t` exactly when `t`'s position is `j` |
| Intents.CatalogPositionInjective | src/lib/intents.ts:10-171 | each catalogue position belongs to one topic |
| Intents.IntentByIdRoundTrip | src/lib/intents.ts:173-175 | looking up a catalogued topic's id gives back its own entry |
| Intents.RoundTripInLaidOut | src/lib/intents.ts:174 | the same for any catalogue laid out by position |
| Intents.Line | src/lib/intents.ts:179 | "- " + id + ": " + title + ". טריגרים: " + the triggers joined by ", " + "..."; `LineAvoidsNewline` and `DescriptionsSplit` are its partners |
| Intents.Lines | src/lib/intents.ts:178-180 | one line per entry, in catalogue order |
| Intents.LineAvoidsNewline | src/lib/intents.ts:179 | fields without line breaks give a line without one |
| Intents.Descriptions | src/lib/intents.ts:178-180 | the lines of a catalogue joined by line breaks; `DescriptionsSplit` splits it back into the lines |
| Intents.GetIntentDescriptions | src/lib/intents.ts:177-181 | the description block of the source's catalogue, `Descriptions(Catalog)`; `Lines` and `DescriptionsSplit` state its shape |
| Intents.DescriptionsSplit | src/lib/intents.ts:177-181 | splitting the description block at line breaks gives exactly the lines, one per entry |
| FlowEngine.VisualOf | src/lib/flowEngine.ts:126-320 | a topic has a visual generator exactly when it has an answer generator |
| FlowEngine.Normalize | src/lib/flowEngine.ts:327 | the normalized text has no whitespace at either end and no capital letter |
| FlowEngine.IsAffirmation | src/lib/flowEngine.ts:330-332 | some affirmation phrase, lower-cased, occurs in the text; `AffirmationFollowsScript` states its effect |
| FlowEngine.MentionsAny | src/lib/flowEngine.ts:399 | some keyword of a rule occurs in the text; `Detect` and `DetectFirst` state its use |
| FlowEngine.Detect | src/lib/flowEngine.ts:373-405 | the topic of the first rule the text mentions, and none exactly when no rule is mentioned |
| FlowEngine.DetectIntentFromText | src/lib/flowEngine.ts:374-405 | the loop with early return computes `Detect` |
| FlowEngine.QuestionAt | src/lib/flowEngine.ts:354 | the script entry at `i`, none past the end |
| FlowEngine.Resolve | src/lib/flowEngine.ts:334-349 | the target: the cursor's topic on an affirmation inside the script, else the keyword hit, else the cursor's topic, else none; `AffirmationFollowsScript`, `KeywordBeatsScript`, `ScriptFallback` and `UnknownExactly` state each case |
| FlowEngine.UnknownReply | src/lib/flowEngine.ts:356-363 | the fixed 'UNKNOWN' reply with the '?' quote card; `UnknownExactly` states when it is given |
| FlowEngine.Reply | src/lib/flowEngine.ts:351-370 | the reply for a target; `ResolvedReply` states it for every resolved target |
| FlowEngine.Respond | src/lib/flowEngine.ts:323-371 | the whole reply to a message at a cursor; `ResolvedReply`, `UnknownExactly` and `RespondNormalized` state what it is |
| FlowEngine.ProcessMessage | src/lib/flowEngine.ts:323-371 | the step-by-step method computes `Respond` |
| FlowEngine.NormalizeIdempotent | src/lib/flowEngine.ts:327 | normalizing twice is normalizing once |
| FlowEngine.RespondNormalized | src/lib/flowEngine.ts:327-345 | the reply depends on the message only through its normalized form |
| FlowEngine.FlowAnswered | src/lib/flowEngine.ts:25-123 | every script topic and keyword-rule topic has an answer generator |
| FlowEngine.FlowFields | src/lib/flowEngine.ts:337-345 | the engine consults the source's script, affirmations and keyword table |
| FlowEngine.ResolvedIsAnswered | src/lib/flowEngine.ts:356-363 | a resolved topic has an answer generator, so the missing-generator branch needs no target |
| FlowEngine.ResolvedReply | src/lib/flowEngine.ts:351-370 | a resolved message gets its topic's id, answer and generated visual, and the question after the cursor |
| FlowEngine.UnknownExactly | src/lib/flowEngine.ts:343-363 | 'UNKNOWN' exactly when the script is exhausted and no keyword matches; then the fixed reply, a '?' quote card and no next question |
| FlowEngine.AffirmationFollowsScript | src/lib/flowEngine.ts:337-340 | an affirmation inside the script takes the cursor's topic whatever keywords appear, and moves on |
| FlowEngine.KeywordBeatsScript | src/lib/flowEngine.ts:341-348 | otherwise a keyword hit decides, and the next question is still the one after the cursor |
| FlowEngine.ScriptFallback | src/lib/flowEngine.ts:343-348 | with no keyword, the cursor's topic is taken while the script lasts, even for an empty message |
| FlowEngine.GetCurrentQuestionIndex | src/lib/flowEngine.ts:408-415 | empty history gives 0; otherwise one past the script position of the last topic asked, or the history's length when the script does not ask it |
| FlowEngine.CursorAfterScriptTopic | src/lib/flowEngine.ts:408-415 | after a scripted topic the cursor is one past its position |
| FlowEngine.CursorAfterOther | src/lib/flowEngine.ts:408-415 | after anything not in the script the cursor is the history's length |
| FlowEngine.CursorRevisitsAskedTopic | src/lib/flowEngine.ts:408-415 | the cursor can point back at a topic already asked |
| FlowEngine.LowerAbsent | src/lib/flowEngine.ts:330-332 | a text missing a character of a phrase does not include the phrase lower-cased |
| FlowEngine.DetectFirst | src/lib/flowEngine.ts:398-402 | the first rule mentioned decides |
| FlowEngine.DetectNoLater | src/lib/flowEngine.ts:398-402 | the decision is no later in the table than any rule mentioned |
| FlowEngine.MachineMentionsCoffee | src/lib/flowEngine.ts:379-381 | "מכונת קפה" mentions the COFFEE_TO_REVENUE rule |
| FlowEngine.CoffeeMachineNeverCornerJoke | src/lib/flowEngine.ts:379-381 | a text with "מכונת קפה" is never classified COFFEE_CORNER_JOKE |
| FlowEngine.MachineLacks | src/lib/flowEngine.ts:381 | the phrase "מכונת קפה" lacks six characters |
| FlowEngine.MachineMissesEarlierRules | src/lib/flowEngine.ts:376-378 | "מכונת קפה" mentions none of the three rules above COFFEE_TO_REVENUE |
| FlowEngine.MachineDetectedAsCoffeeToRevenue | src/lib/flowEngine.ts:379-381 | "מכונת קפה", a COFFEE_CORNER_JOKE keyword, sent on its own is detected as COFFEE_TO_REVENUE |
| FlowEngine.KeywordTableHead | src/lib/flowEngine.ts:375-396 | twenty rules, the first four in source order |
| FlowEngine.CoffeePromptLacks | src/lib/flowQuestions.ts:21 | the prompt lacks each of eleven characters |
| FlowEngine.CoffeePromptTrimmed | src/lib/flowQuestions.ts:21 | the prompt is unchanged by trimming |
| FlowEngine.CoffeePromptLowered | src/lib/flowQuestions.ts:21 | the prompt is unchanged by lower-casing |
| FlowEngine.CoffeePromptNormal | src/lib/flowQuestions.ts:21 | the prompt is in normal form |
| FlowEngine.CoffeePromptNoEarlyAffirmation | src/lib/flowEngine.ts:16-19 | the prompt includes none of the first seventeen affirmations |
| FlowEngine.CoffeePromptNoLateAffirmation | src/lib/flowEngine.ts:19-22 | the prompt includes none of the remaining affirmations |
| FlowEngine.CoffeePromptNoAffirmation | src/lib/flowEngine.ts:16-22 | the prompt is no affirmation |
| FlowEngine.CoffeePromptMissesRecaps | src/lib/flowEngine.ts:376-377 | the prompt mentions neither recap rule |
| FlowEngine.CoffeePromptHitsRevenue | src/lib/flowEngine.ts:378 | the prompt mentions "הכנסות" |
| FlowEngine.CoffeePromptDetect | src/lib/flowEngine.ts:375-402 | the prompt is detected as TOP_REVENUE_CLIENT_2025 |
| FlowEngine.CoffeePromptResolve | src/lib/flowEngine.ts:337-345 | at cursor 2 the prompt resolves to TOP_REVENUE_CLIENT_2025 |
| FlowEngine.CoffeePromptAnswer | src/lib/flowEngine.ts:323-371 | at cursor 2 the reply is TOP_REVENUE_CLIENT_2025's, with the question after it next |
| FlowEngine.CoffeePromptAnsweredAsTopRevenue | src/lib/flowQuestions.ts:19-23 | the script's COFFEE_TO_REVENUE question, sent back at its place, is answered as TOP_REVENUE_CLIENT_2025 and the script moves on to question 4 |
| JsonValues.Canonical | src/app/api/chat/route.ts:82 | the keys an array has for its positions: digits only, no leading zero except "0" itself; `ArrayIndex` and `CanonicalNumeral` state what they denote |
| JsonValues.ArrayIndex | src/app/api/chat/route.ts:82 | a key names an array position exactly when it is canonical, and then it is that position's numeral |
| JsonValues.CanonicalNumeral | src/app/api/chat/route.ts:82 | a canonical numeral is the numeral of the number it denotes |
| JsonValues.Numeral | src/app/api/chat/route.ts:82 | a position's key is a non-empty run of digits |
| JsonValues.NumeralLead | src/app/api/chat/route.ts:82 | a position's key has no leading zero |
| JsonValues.NumeralValue | src/app/api/chat/route.ts:82 | a position's key denotes that position |
| JsonValues.ArrayIndexNumeral | src/app/api/chat/route.ts:82 | every position's key is read back as that position |
| JsonValues.Steps | src/app/api/chat/route.ts:82 | `value && typeof value === 'object' && key in value`, for own keys; `WalkStep` and `WalkMissing` state its use |
| JsonValues.Child | src/app/api/chat/route.ts:83 | `value[key]` for a key that is present; `WalkStep` states it for objects |
| JsonValues.Walk | src/app/api/chat/route.ts:78-88 | the value the key-by-key descent reaches, `null` at the first missing step; its properties are `WalkMissing`, `WalkAppend` and `WalkStep` |
| JsonValues.Defined | src/app/api/chat/route.ts:81-84 | every step of the descent finds its key; `WalkMissing` and `WalkAppend` relate it to `Walk` |
| JsonValues.WalkMissing | src/app/api/chat/route.ts:81-88 | a walk with a missing step yields `null` |
| JsonValues.WalkAppend | src/app/api/chat/route.ts:81-88 | walking two key lists in turn is walking their concatenation, defined exactly when both parts are |
| JsonValues.WalkStep | src/app/api/chat/route.ts:82-83 | over an object a step reads the field, or yields `null` when it is absent |
| ChatRoute.Message | src/app/api/chat/route.ts:9-16 | a message exists exactly when the body's `message` is a non-empty string |
| ChatRoute.Member | src/app/api/chat/route.ts:9 | a destructured member of the body, `undefined` when absent; `Message` states its use |
| ChatRoute.IsAdmin | src/app/api/chat/route.ts:9 | `mode === 'admin'`, an absent mode being 'show'; `AdminIgnoresDraw` and `AnswerReplyShape` state its effect |
| ChatRoute.Unresolved | src/app/api/chat/route.ts:22 | the intent is 'UNKNOWN' or the confidence is below 0.5; `Post` states the branch it selects |
| ChatRoute.DrawIndex | src/app/api/chat/route.ts:31 | the floor of three times the draw, a valid index of the three answers |
| ChatRoute.UnknownAnswer | src/app/api/chat/route.ts:23-31 | one of the three canned answers, the first in admin mode |
| ChatRoute.UnknownIntentReply | src/app/api/chat/route.ts:22-47 | the reply under the gate; `UnknownReplyShape` and `AdminIgnoresDraw` state it |
| ChatRoute.MissingReply | src/app/api/chat/route.ts:50-63 | the reply asking for missing fields; `MissingReplyShape` states it |
| ChatRoute.DataPaths | src/app/api/chat/route.ts:76 | `intent?.data_paths`; `RelevantDataKeys` states what no entry contributes |
| ChatRoute.CompanyEntry | src/app/api/chat/route.ts:74 | the `company` entry, `undefined` when the pack has none; `RelevantDataCompany` states it |
| ChatRoute.Collected | src/app/api/chat/route.ts:77-91 | one entry per data path added to the given ones; `CollectedEntries` and `CollectedSnoc` state it |
| ChatRoute.RelevantData | src/app/api/chat/route.ts:71-92 | the record handed to the composer; `RelevantDataKeys`, `RelevantDataPaths`, `RelevantDataCompany` and `MissingPathIsNull` state it |
| ChatRoute.AnswerReply | src/app/api/chat/route.ts:104-117 | the composed reply; `AnswerReplyShape` states it |
| ChatRoute.CollectedSnoc | src/app/api/chat/route.ts:77-91 | collecting one more path adds its walk to what was collected |
| ChatRoute.ExtractRelevantData | src/app/api/chat/route.ts:71-92 | the nested loop with its `break` computes `RelevantData` |
| ChatRoute.Post | src/app/api/chat/route.ts:7-136 | each branch of the handler: 500 for an unreadable or `null` body, 400 without a valid message, the 'UNKNOWN' reply under the gate, the missing-fields reply, 500 for a `null` data pack, and otherwise the composed answer over `RelevantData` |
| ChatRoute.CollectedEntries | src/app/api/chat/route.ts:76-91 | the entries are those given plus exactly the paths, each path holding its walk, the others kept |
| ChatRoute.RelevantDataPaths | src/app/api/chat/route.ts:77-90 | every data path has an entry holding the walk along its keys |
| ChatRoute.RelevantDataKeys | src/app/api/chat/route.ts:71-92 | the keys are 'company' and exactly the data paths; no catalogue entry gives only the company entry |
| ChatRoute.RelevantDataCompany | src/app/api/chat/route.ts:74 | the company entry is the pack's `company` member unless a path is literally "company" |
| ChatRoute.MissingPathIsNull | src/app/api/chat/route.ts:81-88 | a path with a missing step gets `null` |
| ChatRoute.PathDescends | src/app/api/chat/route.ts:78-88 | "a.rest" walks key "a", then the keys of "rest", or yields `null` when "a" is missing |
| ChatRoute.UnknownReplyShape | src/app/api/chat/route.ts:22-47 | unresolved verdicts get status 200, 'UNKNOWN', the confidence, a canned answer (the first in admin mode) and no fields |
| ChatRoute.AdminIgnoresDraw | src/app/api/chat/route.ts:29-45 | in admin mode the reply does not depend on the draw and carries the rationale; otherwise it carries no debug member |
| ChatRoute.AnswerReplyShape | src/app/api/chat/route.ts:104-117 | the answer keeps intent and confidence, uses the composer's text and visual, asks for nothing, and traces only in admin mode |
| ChatRoute.MissingReplyShape | src/app/api/chat/route.ts:50-63 | the missing-fields reply keeps the intent, echoes the fields, names every one of them in its text, and a single field on its own |

## Left out

- The bodies of the answer and visual generators in `src/lib/flowEngine.ts`. They read a data pack that is not part of this model and format numbers. Answers are the parameter `answerFor`; a visual is its kind plus the topic whose data it shows.
- `src/lib/intentResolver.ts` and `src/lib/responseComposer.ts` (apart from the visual kinds) call a hosted language model. They become the parameters `resolve` and `compose` of `ChatRoute.Post`, and their own error handling is not modelled.
- `src/lib/dataPack.ts` reads a file and caches it. The pack is the parameter `dataPack` of `ChatRoute.Post`.
- `Math.random()` is the parameter `roll`, with 0 <= roll < 1.
- The handler's logging, `current_scene`, the HTTP framework and the persona string sent to the composer.
- The React components and the client store, UI code outside the logic modelled here.
- Strings.Lower: maps only A to Z to a to z, while `toLowerCase` lower-cases all of Unicode. The tables hold only Hebrew and ASCII, so they are unaffected, but a message is lower-cased in full by the source: "\u212API" (KELVIN SIGN) mentions "kpi", "O\u212A" is the affirmation "ok", and "Aİ" mentions "ai" there, and not in the model.
- `key in value` also sees inherited properties, such as "toString" of every object. The model only sees a value's own keys, plus "length" and index keys for arrays.
- Objects are maps, so key order, duplicate keys and the JSON serialization of `relevantData` are not modelled. An `undefined` company member is `None`.
- A request body that is not JSON is modelled as `None`. A `null` body is modelled as 500 because destructuring it throws.
- `FlowEngine.ProcessMessage` takes the cursor as a `nat`. A negative cursor, which the source would dereference at `flowQuestions[-1]`, is outside the model.
- `Intents.DescriptionsSplit` is proved for any catalogue without line breaks in ids, titles and triggers. That the source's catalogue has none is not proved, because checking every literal character is too costly.
- Among the concrete consequences of the table order, only the third prompt (`FlowEngine.CoffeePromptAnsweredAsTopRevenue`) and "מכונת קפה" (`FlowEngine.CoffeeMachineNeverCornerJoke`) are worked out. The other prompts are governed by the general lemmas only.
