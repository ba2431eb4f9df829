# mesproc in Dafny

mesproc runs a story ("quest") as a Telegram bot. A story is a list of
ordered steps, each of which expects an answer (an exact or case-insensitive
text, a position near a point, or anything a save collaborator accepts) and
replies with one or more lines or with a fail message. Beside the ordered
steps the story has slash commands, unordered steps answered at any time, and
a translation table with a language switch ("/ru", "/en"). The Telegram
handler keeps one session per chat (its step, its language, its last batch of
responses), sends undelayed responses at once, queues delayed ones behind
timers, and re-sends the last batch translated when the chat changes
language.

The model covers the three generations of the engine found in the
repository:

- `pkg/` (modules `Steps`, `Responses`, `I18n`, `Stories`, `JsonLoad`,
  `Telegram`): the current engine. `Stories.Resolve` is the resolution of a
  position, a language and an input into a batch of responses;
  `Stories.Story` is the builder and the loop that fills the batch.
  `JsonLoad.Load` turns decoded story records into a story. `Telegram.Handle`
  is what one update does to the handler's state (sessions, timer queue,
  armed timers, the log of what was sent); `Telegram.Fired` is what one timer
  expiry does; `Telegram.Handler` is the class whose methods follow the Go
  code step by step and are proved equal to those functions.
- `story/` (module `LegacyStory`): a story holding its own current step index
  and language, one response per step.
- the root package (module `Mesproc`): a story whose step counter wraps when
  it runs past the last step, and a handler that answers the last chat heard
  from.

Support modules: `Wrappers` (Option), `GoStrings` (`strings.HasPrefix`,
`strings.EqualFold` over ASCII and basic Cyrillic), `Modulo` (facts about
`%` used by the rotating step index).

Objects that the Go code changes through setters (`Step`, `Story`,
`Handler`, the payload structs of the root package) are classes; each has a
`Value()`, `View()` or `State()` function that reads it as a plain value, and
every method's contract states the new value in terms of the old one. The
properties are lemmas about those values.

Where the Go code and its documentation disagree the model follows the code:

- `story/story.go` and `story/i18n.go` both declare `I18nLanguageChanged` and
  `I18nMap` in the same package; the model declares each once
  (`LegacyStory.LanguageChanged`, and the map type shared with `I18n`).
- In the root package a miss does not always leave `curStep` unchanged: when
  the counter has run past the last step, `checkCurrentStep` has already set
  it to 0 before the miss (story.go:41, 50-54). `Mesproc.AnswerMovesPosition`
  states that the wrapped position is kept.
- A language switch is also recognised on input without a slash in the
  current engine (pkg/story/story.go:141-150).

## Model

| member | source | states |
|---|---|---|
| GoStrings.EqualFoldIsEquivalence | pkg/story/story.go:133-134 | case-insensitive comparison is reflexive, symmetric and transitive |
| GoStrings.FoldChar | pkg/story/story.go:133-134 | folding maps ASCII and basic Cyrillic upper case (А..Я) to lower case by +32, Ё to ё, leaves ASCII lower case alone, and changes no other character |
| Modulo.ModShift | pkg/story/story.go:113-115 | adding the number of steps to a position does not change its remainder |
| Modulo.ModSucc | story/story.go:49-52 | wrapping then incrementing equals incrementing then wrapping |
| Steps.Step.constructor | pkg/story/step.go:24-26 | a new step has an empty expectation, no responses, no geo flag, no store and no metadata |
| Steps.Step.Response | pkg/story/step.go:34-36 | the first response; defined only when there is one |
| Steps.Step.Expect | pkg/story/step.go:49-52 | only the expectation changes, and the same step is returned |
| Steps.Step.Respond | pkg/story/step.go:55-58 | the whole response list is replaced by the arguments, in order |
| Steps.Step.Fail | pkg/story/step.go:61-64 | only the fail message changes |
| Steps.Step.ExpectGeo | pkg/story/step.go:67-71 | the geo flag is set and (lat, lon, precision) stored, nothing else changes |
| Steps.Step.ExpectSave | pkg/story/step.go:74-77 | only the save collaborator changes |
| Steps.Step.Additional | pkg/story/step.go:79-89 | additional[i][field] becomes the value, a missing inner map is created, every other (index, field) entry is kept |
| Responses.Originals | pkg/story/story.go:8-13 | the untranslated lines of a batch, one per response, in order |
| I18n.Line | pkg/story/i18n.go:25-32 | the stored translation when language and line exist, the line itself otherwise |
| I18n.Translated | pkg/story/i18n.go:34-46 | same length as the input; each response's text is the translation of its original, lang is the target, the advance flag is kept, metadata is dropped |
| I18n.Translate | pkg/story/i18n.go:34-46 | the loop builds exactly the translated batch |
| I18n.TranslatedForgetsEarlierLanguage | pkg/story/i18n.go:39-40 | translating twice equals translating once into the last language, as only originals are read |
| I18n.TranslatedIntoUntranslatedLanguage | pkg/story/i18n.go:26-31 | into a language without a table every text falls back to its original |
| Stories.Key | pkg/story/story.go:141-145 | a slash input is looked up without its slash, any other input as it is |
| Stories.RotateStep | pkg/story/story.go:113-115 | the rotated position addresses a step and leaves in-range positions alone |
| Stories.DefaultLang | pkg/story/story.go:88-90 | the resolution language is never empty |
| Stories.Story.constructor | pkg/story/story.go:44-49 | a new story is empty |
| Stories.Story.Add | pkg/story/story.go:52-55 | the step is appended to the ordered flow; the tables are unchanged |
| Stories.Story.AddCommand | pkg/story/story.go:58-61 | the step is bound in the command table under its current expectation |
| Stories.Story.AddUnordered | pkg/story/story.go:63-66 | the step is bound in the unordered table under its current expectation |
| Stories.Story.I18n | pkg/story/story.go:104-107 | the translation table is replaced |
| Stories.Story.ResponsesWithLangStepTo | pkg/story/story.go:69-85 | the loop returns the resolved batch, one response per resolved line with the current step's metadata |
| Stories.ExpectationKinds | pkg/story/story.go:127-138 | the store decides first, then the case-insensitive translated text, then the geo check |
| Stories.ResolvedBatchIsUniform | pkg/story/story.go:71-79 | every text is the translation of its original; all responses share one language and one advance flag |
| Stories.LanguageSwitchAnswers | pkg/story/story.go:141-165 | "/X" and "X" for a known language X answer one "Language changed" line in X without advancing |
| Stories.EmptyLanguageIsEnglish | pkg/story/story.go:88-90 | with an empty language and no switch every response is in "en" |
| Stories.CommandAnswers | pkg/story/story.go:140-157 | "/c" for a command answers its responses in order, without advancing, in the caller's language |
| Stories.UnorderedAnswers | pkg/story/story.go:140-157 | an unordered key answers that step's responses and never advances |
| Stories.OrderedAnswers | pkg/story/story.go:99-125 | the step at stp mod len decides: all its responses advancing on a match, its fail message alone otherwise |
| Stories.ResolvePeriodic | pkg/story/story.go:113-115 | positions that differ by the number of steps resolve identically |
| Stories.TextMatchIgnoresCase | pkg/story/story_test.go:159-163 | "lOl ThIs GoOd" matches the expectation "LOL this GOOD" |
| JsonLoad.BuildStep | pkg/story/json.go:64-87 | the step built from one record is the record's step value |
| JsonLoad.AttachLater | pkg/story/json.go:83-87 | every later entry i -> t becomes metadata "time" = t seconds on response i |
| JsonLoad.Load | pkg/story/json.go:56-97 | a decoding error gives the error and an empty story; otherwise the story built from the records in file order |
| JsonLoad.RecordPrecedence | pkg/story/json.go:65-87 | the fail message is always set; "response" wins over "responses"; only the first of expect, expectGeo, expectSave applies |
| JsonLoad.RecordSteps | pkg/story/json.go:64-93 | one step per record, in order |
| JsonLoad.LoadedSteps | pkg/story/json.go:89-93 | the ordered flow is the non-command records, in file order |
| JsonLoad.LoadedCommands | pkg/story/json.go:89-91 | the command table holds exactly the command records' keys, each bound to the last record with that key |
| JsonLoad.LoadedSideTablesEmpty | pkg/story/json.go:56-97 | loading never fills the unordered table or the translations |
| JsonLoad.LoadedThenResolved | pkg/story/json.go:89-93 | after loading, a plain input at position p is answered from the (p mod n)-th non-command record |
| Telegram.FigureSenderType | pkg/tg/handler.go:209-223 | "audio:" gives an audio payload, else "photo:" a photo payload, each with the prefix stripped; anything else a message of the whole text |
| Telegram.WithChatID | pkg/tg/handler.go:143-144 | the payload gets the chat and keeps its content and endpoint |
| Telegram.Handler.constructor | pkg/tg/handler.go:49-56 | no sessions, no timers, nothing sent |
| Telegram.Handler.PrepareUserConfig | pkg/tg/handler.go:105-119 | the chat's session is created, seeded and reset as Prepared says and stored |
| Telegram.Handler.RunTimedResponses | pkg/tg/handler.go:132-140 | with a queued timer the head is re-armed to fire now and true is returned; otherwise nothing changes |
| Telegram.Handler.AddTimedResponse | pkg/tg/handler.go:121-130 | a new timer is made, appended to the queue and armed for now + delay |
| Telegram.Handler.SendResponse | pkg/tg/handler.go:142-185 | the chat action (for audio and photo) and then the payload are appended to what was sent |
| Telegram.Handler.TranslateLastResponses | pkg/tg/handler.go:163-168 | after a change of language the previous batch translated, otherwise the new batch |
| Telegram.Handler.UpdateUsrCfg | pkg/tg/handler.go:187-192 | the step advances iff the response says so and there was no re-translation; the language is the response's |
| Telegram.Handler.Deliver | pkg/tg/handler.go:92-99 | the send loop leaves the state the batch dispatch gives, response by response in batch order |
| Telegram.Handler.SendBatch | pkg/tg/handler.go:89-102 | the reply to a resolved batch, including the panics on an empty batch |
| Telegram.Handler.ResolveAndReply | pkg/tg/handler.go:88-102 | resolution against the story as it stands, then the reply |
| Telegram.Handler.Send | pkg/tg/handler.go:81-103 | one update does to the handler exactly what Handle says |
| Telegram.Handler.Fire | pkg/tg/handler.go:122-128 | a due timer's response is sent and the timer leaves the armed set and the queue (corrected form) |
| Telegram.SentPayload | pkg/tg/handler.go:170-223 | what one response puts on the wire, for audio, photo and plain text |
| Telegram.AudioResponseEndpoints | pkg/tg/handler_test.go:95-125 | an audio response goes out as /sendChatAction "upload_document", then /sendAudio with the file name, to its chat |
| Telegram.PreparedSession | pkg/tg/handler.go:105-119 | a first update makes a session at step 0 in the sender's language; later ones keep it, seed only an empty language, and "/start" resets the step |
| Telegram.PendingPreempts | pkg/tg/handler.go:83-87 | while a timer is queued an update only re-arms the oldest timer: nothing is resolved, sent or queued |
| Telegram.DispatchSends | pkg/tg/handler.go:92-99 | the send loop sends exactly the undelayed responses, in batch order |
| Telegram.DispatchQueues | pkg/tg/handler.go:92-130 | the send loop queues one timer per delayed response, in order, with consecutive ids, and touches no session |
| Telegram.DispatchArms | pkg/tg/handler.go:121-130 | each new timer is armed for now + its response's delay; older timers keep their deadlines |
| Telegram.DispatchPartition | pkg/tg/handler.go:92-99 | the three facts above together |
| Telegram.ResolvedLanguageIsSet | pkg/story/story.go:88-90 | every resolved response has a non-empty language |
| Telegram.ReplyAdvances | pkg/tg/handler.go:89-102 | without a change of language the batch is delivered, becomes lastRs, sets the language and advances the step iff its first response says so |
| Telegram.ReplyRetranslates | pkg/tg/handler.go:163-168 | after a change of language the previous batch is re-sent translated, all at once, and the step stays |
| Telegram.ReplyTouchesOwnChat | pkg/tg/handler.go:89-102 | a reply changes only its own chat's session and only adds to what was sent and to the timers |
| Telegram.ReplyKeepsQueue | pkg/tg/handler.go:92-130 | a reply keeps the queue in step with the armed timers |
| Telegram.AnswerAdvances | pkg/tg/handler.go:81-103 | the same as ReplyAdvances, for a whole update |
| Telegram.Retranslation | pkg/tg/handler.go:89-102 | the same as ReplyRetranslates, for a whole update |
| Telegram.UntimedBatch | pkg/tg/handler.go:92-99 | a batch without delays is sent in full and queues nothing |
| Telegram.AnsweredLanguageIsSet | pkg/tg/handler.go:187-192 | after an answered update the session has a non-empty language |
| Telegram.HandleTouchesOwnChat | pkg/tg/handler.go:81-119 | an update changes only its own chat's session and only adds to what was sent and to the timers |
| Telegram.WithoutKeepsNoDup | pkg/tg/handler.go:122-128 | removing a timer from a queue without duplicates leaves one without duplicates |
| Telegram.DispatchKeepsQueue | pkg/tg/handler.go:92-130 | the send loop keeps every queued timer armed and every armed timer queued, once |
| Telegram.HandleKeepsQueue | pkg/tg/handler.go:81-103 | an update keeps the queue in step with the armed timers |
| Telegram.FiredKeepsQueue | pkg/tg/handler.go:122-128 | with the corrected expiry the timer's response is sent, the timer leaves queue and armed set, and the queue stays in step |
| Telegram.InOrderExpiryAgrees | pkg/tg/handler.go:122-128 | when the expiring timer is the head of the queue the code as written and the corrected form agree |
| Telegram.SlowQuickDispatch | pkg/tg/handler.go:92-130 | sending [200 ms, 100 ms] queues both timers in batch order |
| Telegram.OutOfOrderExpiryDeliversTwice | pkg/tg/handler.go:122-140 | as written, out-of-order expiry sends the quicker response twice and leaves the slower one armed but unqueued |
| Telegram.OutOfOrderExpiryDeliversOnce | pkg/tg/handler.go:122-140 | corrected, the same run sends each response once and ends with nothing queued or armed |
| LegacyStory.LineAgainstCurrent | story/i18n.go:23-25 | Line gives m[lang][line] when present and "" for a missing line or language, where the current Line gives the line back |
| LegacyStory.I18nLine | story/story.go:110-119 | with no language the line is kept; with one, it is looked up with fallback to the line |
| LegacyStory.Step.constructor | story/step.go:16-18 | a new step has empty fields and no geo flag |
| LegacyStory.Step.Expect | story/step.go:32-35 | only the expectation changes |
| LegacyStory.Step.Respond | story/step.go:37-40 | only the single response changes |
| LegacyStory.Step.Fail | story/step.go:42-45 | only the fail message changes |
| LegacyStory.Step.ExpectGeo | story/step.go:47-51 | the geo flag is set and the triple stored |
| LegacyStory.RotateStep | story/story.go:83-85 | the rotated index addresses a step |
| LegacyStory.Answer | story/story.go:44-55 | answering keeps the index in range and leaves steps and translations alone |
| LegacyStory.Story.constructor | story/story.go:26-28 | a new story is empty |
| LegacyStory.Story.Add | story/story.go:31-34 | the step is appended |
| LegacyStory.Story.CurrentStep | story/story.go:37-39 | the step at the current index |
| LegacyStory.Story.I18n | story/story.go:64-67 | the translation table is replaced |
| LegacyStory.Story.Language | story/story.go:70-72 | the stored language |
| LegacyStory.Story.SetLanguage | story/story.go:75-78 | only the language changes |
| LegacyStory.Story.ParseI18nCommand | story/story.go:121-137 | recognises exactly the language commands and switches the language only for a language of the table |
| LegacyStory.Story.StepResponseOrFail | story/story.go:87-108 | the method computes StepAnswer, whose meaning (translated response on a match, translated fail message on a miss, the geo flag read from the current step) LegacyStory.StepAnswers states |
| LegacyStory.Story.RespondTo | story/story.go:44-55 | one input does to the story what Answer says |
| LegacyStory.Story.RespondWithStepTo | story/story.go:58-61 | the answer of the step at stp mod len, with the story unchanged |
| LegacyStory.LanguageCommands | story/story.go:121-137 | "/en" answers "Language changed" and keeps the language; "/c" for a language of the table switches to c and answers c's confirmation line or "" |
| LegacyStory.AnswerAgreesWithStep | story/story.go:44-85 | a non-command input is answered as RespondWithStepTo at the current index answers it; a match answers the step's translated response and moves the index on by one, wrapping; a miss answers the translated fail message and changes nothing; with no language set and a text step, a match is exactly m == expectation |
| LegacyStory.StepAnswers | story/story.go:87-108 | a step is matched by its translated expectation typed exactly, or by the geo check when the current step is a geo step; a match answers its translated response, a miss its translated fail message, both kept as they are while no language is set |
| LegacyStory.AnswerWithStepPeriodic | story/story.go:58-85 | positions that differ by the number of steps answer alike |
| LegacyStory.Run | story/story.go:44-55 | a sequence of answers keeps the index in range and the steps and translations as they are |
| LegacyStory.MatchingRunRotates | story/story.go:49-85 | after k matched inputs the index is k further on, modulo the number of steps, and the language is unchanged |
| LegacyStory.FullRoundReturns | story/story.go:49-85 | matching every step once brings the story back to the step it started from |
| LegacyStory.GeoFlagFromCurrentStep | story/story.go:102-108 | with a geo step current, a text step asked by index is judged by the geo check, so its own expectation fails |
| Mesproc.Step.constructor | story.go:87-89 | a new step has empty fields |
| Mesproc.Step.Expect | story.go:91-94 | only the expectation changes |
| Mesproc.Step.Respond | story.go:96-99 | only the response changes |
| Mesproc.Step.Fail | story.go:109-112 | only the fail message changes |
| Mesproc.Position | story.go:50-54 | the wrapped counter addresses a step and is the counter itself while in range |
| Mesproc.Answer | story.go:36-64 | answering keeps 0 <= curStep <= len(steps) and leaves steps and translations alone |
| Mesproc.Story.constructor | story.go:23-25 | a new story is empty |
| Mesproc.Story.Add | story.go:27-30 | the step is appended |
| Mesproc.Story.CurrentStep | story.go:32-34 | the step the counter points at |
| Mesproc.Story.I18n | story.go:45-48 | the translation table is replaced |
| Mesproc.Story.CheckCurrentStep | story.go:50-54 | a counter equal to len(steps) becomes 0, any other is kept |
| Mesproc.Story.StepResponseOrFail | story.go:56-64 | an exact match answers the response and increments the counter; a miss answers the fail message |
| Mesproc.Story.ParseI18nCommand | story.go:66-85 | recognises exactly the language commands and their answers |
| Mesproc.Story.RespondTo | story.go:36-43 | one input does to the story what Answer says |
| Mesproc.LanguageCommands | story.go:66-85 | "/en" answers "Language changed to English"; "/c" for a language of the table answers c's confirmation line or ""; neither moves the story |
| Mesproc.AnswerMovesPosition | story.go:41-64 | a match answers the step's response and moves the position on by one, wrapping; a miss answers the fail message and keeps the position |
| Mesproc.Run | story.go:36-64 | a sequence of answers keeps the counter within 0..len(steps) |
| Mesproc.MatchingRunRotates | story.go:41-61 | after k matched inputs the position is k further on, modulo the number of steps |
| Mesproc.TwoStepConversation | story_test.go:20-38 | the package's two-step example answers fail, response, fail, response |
| Mesproc.TgSendMessage.constructor | tg.go:66 | a new message payload is empty |
| Mesproc.TgSendMessage.SetChatID | tg.go:89-91 | only the chat id changes |
| Mesproc.TgSendMessage.SetContent | tg.go:93-95 | only the text changes |
| Mesproc.TgSendMessage.URL | tg.go:97-99 | the endpoint is "/sendMessage" |
| Mesproc.TgSendAudio.constructor | tg.go:68 | a new audio payload is empty |
| Mesproc.TgSendAudio.SetChatID | tg.go:77-79 | only the chat id changes |
| Mesproc.TgSendAudio.SetContent | tg.go:81-83 | only the audio reference changes |
| Mesproc.TgSendAudio.URL | tg.go:85-87 | the endpoint is "/sendAudio" |
| Mesproc.SenderFor | tg.go:65-75 | text with the "audio:" prefix is an audio payload of the rest (prefix + content == text), any other text a message of the whole text |
| Mesproc.FigureSenderType | tg.go:65-75 | a fresh payload object holding SenderFor's payload, with the matching endpoint |
| Mesproc.TgHandler.constructor | tg.go:45-47 | the handler keeps the target and the story and has posted nothing |
| Mesproc.TgHandler.Receive | tg.go:49-54 | the update's chat becomes the last chat and its text is returned |
| Mesproc.TgHandler.Send | tg.go:56-63 | the story answers, the answer is classified, addressed to the last chat and posted to target + endpoint |
| Mesproc.AudioEndpoint | tg.go:65-99 | "audio:track.mp3" posts "track.mp3" to /sendAudio; other text posts itself to /sendMessage |
| Mesproc.AgreesWithCurrentClassification | tg.go:65-75 | on text without "photo:" this classification and the current one agree on kind, content and endpoint; "photo:" text is a plain message here |

## Left out

- HTTP: decoding of incoming updates (`receive`, `ServeHTTP`, the root `Receive`), the posts to the Telegram API and the unbounded retry loop of `sendResponse` are not modelled; what is sent is an append to a log (`HState.sent`, `TgHandler.posts`).
- Timers: `time.AfterFunc` and `Timer.Reset` run concurrently in Go; the model keeps a deadline per armed timer and an explicit `Fire` step for the due timer with the earliest deadline. Races between a callback and `send` are not modelled.
- Telegram.Handler.Fire: models the corrected expiry (the fired timer leaves the queue); the code as written, which pops the head of the queue, is `Telegram.FiredAsWritten` (see Findings).
- Floating point: the geo check (parsing "<lat>,<lon>" and the haversine distance) and the `%f` rendering of a location are parameters (`Stories.Oracles.geoMatches`, `LegacyStory.GeoCheck`, `formatLocation`).
- The save collaborator (pkg/store) is the oracle `Stories.Oracles.save`; file I/O, its lack of idempotence and its errors' text are not modelled.
- JSON decoding of story files and of translation files (`LoadI18n` in both generations) is not modelled: the loader receives the decoded records or the decoder's error.
- Metadata values are durations only, the one kind the loader and the handler use; `Second * t` is unbounded (Go's int64 overflow for huge delays is not modelled).
- Positions and step counters are naturals: Go's `%` on a negative position (which would make an index panic) is not modelled; RespondWithStepTo and ResponsesWithLangStepTo take `nat`.
- GoStrings.FoldChar: case folding covers ASCII and the basic Cyrillic alphabet with YO; other scripts (and Unicode's special folds such as K and the Kelvin sign) compare exactly, where Go's strings.EqualFold folds them.
- Go's distinction between nil and empty slices and maps is not modelled; both read as empty.
- Telegram.Handler: the `Additional` map of a response is a value here, so aliasing between a queued response and the story's step is not modelled.
- LegacyStory.Answer: Go's RespondTo indexes `s.steps[s.curStepIndex]` and panics with index out of range on a story without steps when the input is not a language command; the model requires a step there instead of modelling the panic. The same holds for `LegacyStory.Story.RespondTo` and for `LegacyStory.Story.RespondWithStepTo`, whose `rotateStep` computes `stp % len(s.steps)`, an integer division by zero on an empty story.
- Mesproc.Answer: the root RespondTo runs `checkCurrentStep` and then indexes `s.steps[s.curStep]`, which panics on a story without steps for any input that is not a language command; the model requires a step there instead of modelling the panic, and so do `Mesproc.Story.RespondTo` and `Mesproc.TgHandler.Send`, which answers through it.
- Telegram.Handler: the panics of `send` (rotating over an empty story, indexing an empty batch) are the outcome `Panicked`, keeping the effects made before the panic, as net/http recovers from a panicking handler.
- Logging (`logIncoming`, `logSending`) is not modelled.
- The getters that only return a field (`Expectation`, `Response`, `FailMessage` of the legacy steps, `Response.Text` and friends, `I18nMap()`) are read directly from the values.
- The empty `rotateCurrentStep` of story/story.go does nothing and is not modelled.
- Mesproc.TgHandler.Send: the error of the post is ignored by the code and not modelled; the update is passed decoded (`TgUpdate` flattens message, chat and text).

## Findings

| source | as written | input that shows it | evidently intended | confidence | as-written member | corrected member |
|---|---|---|---|---|---|---|
| pkg/tg/handler.go:122-128 | a timer's callback removes the head of the handler-wide queue, whichever timer fired | a batch [Slow 200 ms, Quick 100 ms] to one chat: Quick fires at 100 ms and pops Slow's id; a message at 150 ms re-arms Quick, which then sends its response again, while Slow stays armed but unqueued | the timer that fires leaves the queue, so each delayed response is sent once | not executed | Telegram.OutOfOrderExpiryDeliversTwice | Telegram.OutOfOrderExpiryDeliversOnce |
