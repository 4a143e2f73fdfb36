# Healthcare agents demo: a verified model of the turn engine

This is a Dafny model of the in-memory engine inside the multi-agent healthcare chat
service. An orchestrator agent receives each user turn. It reads the user's intent through
a conversation-analysis tool and dispatches to an FAQ agent or an admin agent. The FAQ
agent answers from document search; the admin agent sends confirmation emails. Around the
language models sits plain state, and that state is what this project models and proves
things about:

- the agent registry and dispatcher, with one transcript per (chat, agent) pair
  (`Dispatch`, `agent_plugin.dfy`);
- the orchestrator's "agents used" and "document references" bags, which are drained by
  get-and-clear (`Orchestration`);
- the per-chat intent tracker and the last-search tracker (`IntentTracking`,
  `SearchTracking`);
- the controller's turn bookkeeping (`ChatApi`): the per-chat transcript seeded with the
  system prompt, the response it builds, the fallback that reads a `References:` line
  from the reply, and the transcript text sent to tracing;
- the intent tool's reading of the analysis response, a fold over the intents and
  entities arrays, and its fixed fallback decision (`IntentRecognition`);
- the search tool's result loop: sources, then de-duplicated titles in first-seen order
  (`DocumentSearch`);
- the decisions of the GenAI tracer (`Tracing`): activity kind by operation-name prefix,
  name recovery by deleting the prefix, the agent-to-tool map, and which tags a completion
  carries;
- the email tool's outbox (`Email`).

Static C# state becomes fields of one object that is passed explicitly. Objects that
change in place are classes with `modifies` clauses. The parsing, folding and formatting
are functions, each with lemmas about what it computes. Text is `seq<char>`, and the
.NET string operations used (`Trim`, `IsNullOrWhiteSpace`, `Split`, `Join`,
`Replace(p, "")`, `StartsWith`) are defined in `strings.dfy`.

Oracles stand in for what the engine cannot see:

- a language-model run is `AgentRun`: a stream of items, or an exception message;
- the conversation-analysis call is `ServiceCall`: an HTTP failure, or a body with its
  JSON reading;
- the search call is `SearchOutcome`;
- `Guid.NewGuid()` values and `DateTime.Now` are parameters;
- whether a listener samples an activity is the `listened` flag.

Serialised JSON is modelled as the record that would be serialised.

Where the code and its description differ, the model follows the code:

- the unknown-agent reply is `Agent '<name>' not found.`;
- the aggregator keeps duplicate references;
- a failed turn leaves the user message in the chat transcript and leaves both bags
  undrained;
- only a null chat id gets a fresh GUID, so an empty chat id is used as it is;
- in the reference fallback, a piece made only of spaces is not dropped. Empty pieces are
  removed before trimming, so such a piece becomes an empty reference.

## Model

| member | source | states |
|---|---|---|
| Orchestration.Cited | src/Agents/OrchestratorAgent.cs:60-66 | A name adds nothing exactly when it is null, empty or whitespace only; otherwise it adds exactly one entry, its trimmed form, which is non-empty and trimmed |
| Orchestration.CitedAllTrimmed | src/Agents/OrchestratorAgent.cs:60-77 | Every reference the aggregator ever stores is non-empty and already trimmed |
| Orchestration.CitedTwice | src/Agents/OrchestratorAgent.cs:60-66 | Duplicates are not removed: citing the same non-blank name twice stores its trimmed form twice |
| Orchestration.LastMessageFound | src/Agents/OrchestratorAgent.cs:117-127 | A reply is picked from a stream exactly when the stream holds a chat message |
| Orchestration.LastMessageIsLast | src/Agents/OrchestratorAgent.cs:117-127 | The reply picked from a stream is a chat message of the stream after which no chat message follows |
| Orchestration.OrchestratorAgent.constructor | src/Agents/OrchestratorAgent.cs:21-22 | Both bags start empty |
| Orchestration.OrchestratorAgent.AddUsedAgent | src/Agents/OrchestratorAgent.cs:45-48 | Adds exactly one occurrence of the name, keeping duplicates; the reference bag is unchanged |
| Orchestration.OrchestratorAgent.GetAndClearUsedAgents | src/Agents/OrchestratorAgent.cs:50-58 | Returns every recorded name with its multiplicity, in some order, and leaves the bag empty; the reference bag is unchanged |
| Orchestration.OrchestratorAgent.AddDocumentReference | src/Agents/OrchestratorAgent.cs:60-66 | Adds the trimmed name unless it is null or blank; the agent bag is unchanged |
| Orchestration.OrchestratorAgent.AddDocumentReferences | src/Agents/OrchestratorAgent.cs:68-77 | A null list changes nothing; otherwise the effect is that of adding each element in turn |
| Orchestration.OrchestratorAgent.GetAndClearDocumentReferences | src/Agents/OrchestratorAgent.cs:79-87 | Returns all stored references, duplicates included, and empties the bag |
| Orchestration.OrchestratorAgent.InvokeAsync | src/Agents/OrchestratorAgent.cs:109-128 | A null history is rejected with the argument-null message; otherwise the reply is the stream's last chat message, or the assistant message "No response generated" when there is none |
| Dispatch.StreamedTextAppend | src/Agents/AgentPlugin.cs:84-93 | The reply text is built in stream order: the text of a concatenated stream is the concatenation of the texts |
| Dispatch.AfterDispatchHistories | src/Agents/AgentPlugin.cs:68-96 | A dispatch extends only its own (chat, agent) transcript, with the question and then the reply unless the agent threw; every other transcript is unchanged |
| Dispatch.CollectResponse | src/Agents/AgentPlugin.cs:84-93 | The collecting loop yields the in-order concatenation of the contents of every chat message streamed |
| Dispatch.AgentPlugin.constructor | src/Agents/AgentPlugin.cs:17-26 | The registry and the transcript map start empty and the chat id is "" |
| Dispatch.AgentPlugin.SetChatId | src/Agents/AgentPlugin.cs:28-31 | Sets the chat of later dispatches and leaves the registry and the transcripts alone |
| Dispatch.AgentPlugin.RegisterAgent | src/Agents/AgentPlugin.cs:34-38 | A null agent is rejected and nothing changes; otherwise the agent replaces any earlier agent of the same name |
| Dispatch.AgentPlugin.InvokeAgentAsync | src/Agents/AgentPlugin.cs:52-109 | An unknown name gets exactly "Agent '<name>' not found." and records nothing; a known name is recorded as used even when the agent throws, the reply is the streamed text or "Error: " + message, and only that pair's transcript changes |
| Dispatch.AgentPlugin.AskFAQAgent | src/Agents/AgentPlugin.cs:40-44 | Behaves as a dispatch to "FAQAgent" |
| Dispatch.AgentPlugin.AskAdminAgent | src/Agents/AgentPlugin.cs:46-50 | Behaves as a dispatch to "AdminAgent" |
| IntentTracking.IntentTracker.constructor | src/Tracing/IntentTracker.cs:11-21 | All five maps are empty and the last-* fields are null and 0 |
| IntentTracking.InfoAfterSet | src/Tracing/IntentTracker.cs:23-82 | Writing the five dictionaries for one chat makes the getter report the new query, intent and confidence, the new scores and entities when given or the old ones otherwise, and changes no other chat |
| IntentTracking.InfoAfterRemove | src/Tracing/IntentTracker.cs:64-95 | Removing one chat from the five dictionaries makes the getter report "", "", 0, {} and [] for it and changes no other chat |
| IntentTracking.IntentTracker.SetIntentInfo | src/Tracing/IntentTracker.cs:23-51 | Query, intent and confidence are overwritten; the score map and the entity list only when given; every other chat reads as before; the chat becomes the one the chat-less getter reads |
| IntentTracking.IntentTracker.SetDefaultIntentInfo | src/Tracing/IntentTracker.cs:53-62 | Stores under "default" with the same overwrite rules and touches no other chat |
| IntentTracking.IntentTracker.Clear | src/Tracing/IntentTracker.cs:89-105 | The chat is removed from all five maps and then reads as empty ("", "", 0, {}, []); the last-* fields are reset only when they belong to that chat; other chats are unchanged |
| IntentTracking.IntentTracker.ClearAll | src/Tracing/IntentTracker.cs:84-119 | Everything is emptied, so every chat, and the chat-less getter that falls back to "default", read as empty |
| SearchTracking.SearchTracker.constructor | src/Tracing/SearchTracker.cs:8-26 | Before any search the getter reports an empty query and no documents |
| SearchTracking.SearchTracker.SetSearchInfo | src/Tracing/SearchTracker.cs:11-26 | After a set, the getter returns exactly that query and those documents; the last set wins |
| Tracing.KindFor | src/Tracing/GenAITracer.cs:122-134 | An activity is a server activity exactly when its operation name starts with one of the five server prefixes |
| Tracing.InternalByEighthChar | src/Tracing/GenAITracer.cs:125-134 | A name whose eighth character differs from that of every server prefix is internal |
| Tracing.ServerEventKinds | src/Tracing/GenAITracer.cs:122-134 | The user, choice, system, evaluation and conversation operation names are server activities |
| Tracing.InternalSpanKinds | src/Tracing/GenAITracer.cs:153-162 | Agent spans, tool spans and intent detection are internal for every agent or tool name |
| Tracing.EventsAreServerActivities | src/Tracing/GenAITracer.cs:42-134 | Every one-shot message, evaluation and conversation event is traced as a server activity |
| Tracing.TraceEvaluation | src/Tracing/GenAITracer.cs:249-264 | The comment is tagged exactly when it is non-empty |
| Tracing.AgentNameRoundTrip | src/Tracing/GenAITracer.cs:153-198 | Deleting "gen_ai.agent." from an agent's operation name gives back the agent name, for names that do not themselves contain that prefix |
| Tracing.ToolNameRoundTrip | src/Tracing/GenAITracer.cs:269-294 | Deleting "gen_ai.tool." from a tool's operation name gives back the tool name, for names that do not themselves contain that prefix |
| Tracing.ToolActivityReadsBack | src/Tracing/GenAITracer.cs:269-294 | A sampled tool activity reads back the tool's name from its operation name and carries every tag it was started with |
| Tracing.RegisteredTwice | src/Tracing/GenAITracer.cs:184-191 | Registering the same agent-tool pair again leaves the map as it is |
| Tracing.GenAITracer.constructor | src/Tracing/GenAITracer.cs:17 | The agent-to-tool map starts empty |
| Tracing.GenAITracer.RegisterAgentTool | src/Tracing/GenAITracer.cs:184-191 | Only a pair of non-empty names is stored, and it replaces the agent's earlier tool |
| Tracing.GenAITracer.CompleteAgentInvocation | src/Tracing/GenAITracer.cs:193-247 | Nothing for a null activity; otherwise the tool is tagged exactly when the recovered agent is mapped, the intent info of the activity's chat exactly for the orchestrator mapped to the intent tool, the search info exactly for the operation "gen_ai.agent.FAQAgent", and the status is Ok exactly on success |
| Tracing.GenAITracer.StartToolInvocation | src/Tracing/GenAITracer.cs:269-287 | The activity is named after the tool and tagged with agent, tool and input; the pair is registered |
| Tracing.GenAITracer.CompleteToolInvocation | src/Tracing/GenAITracer.cs:289-318 | Nothing for a null activity; otherwise the pair of the agent tag and the recovered tool name is registered and the status is Ok exactly on success |
| Tracing.GenAITracer.TraceIntentDetection | src/Tracing/GenAITracer.cs:321-375 | The decision is written to the tracker before it is read back for the tags, and the tracker's last chat, query, intent and score become the ones passed; the score and entity tags appear exactly when those collections are given and non-empty |
| Tracing.OrchestratorCompletionCarriesIntent | src/Tracing/GenAITracer.cs:213-235 | Completing the orchestrator's own activity, with the orchestrator mapped to the intent tool, tags that chat's intent info and no search info |
| Tracing.FaqCompletionCarriesSearch | src/Tracing/GenAITracer.cs:239-243 | Completing the FAQ agent's activity tags the current search info |
| IntentRecognition.IntentEntry | src/Tools/IntentTool.cs:113-128 | An intents element yields a pair exactly when it has both a category and a score; a null category reads "unknown"; wrong kinds raise |
| IntentRecognition.FoldIntentsMeaning | src/Tools/IntentTool.cs:111-130 | The intents loop keeps, for every category, the score of its last element, takes as confidence the last score of the top intent, and stops exactly when an element raises |
| IntentRecognition.FoldIntentsCoherent | src/Tools/IntentTool.cs:105-127 | After every step, the confidence is the top intent's score if it has one, and 0 otherwise |
| IntentRecognition.EntityEntryFails | src/Tools/IntentTool.cs:135-155 | An entity element raises exactly when it is not an object or its category, text or confidence is present with the wrong kind |
| IntentRecognition.EntityEntryFields | src/Tools/IntentTool.cs:137-153 | An entity element read without error yields one dictionary holding exactly the category, text and confidence fields the element has, with "" for a null string |
| IntentRecognition.EntityEntriesAt | src/Tools/IntentTool.cs:133-156 | When an entities array reads without error, it yields one dictionary per element, each that element's own reading, in order |
| IntentRecognition.EntityEntriesFail | src/Tools/IntentTool.cs:133-156 | Reading an entities array fails exactly when one of its elements raises |
| IntentRecognition.FoldEntitiesMeaning | src/Tools/IntentTool.cs:133-156 | The entities loop stops early exactly when reading the array fails, and otherwise appends the array's dictionaries, in order, to those already collected |
| IntentRecognition.FoldEntitiesKeepsIntents | src/Tools/IntentTool.cs:133-156 | The entities loop leaves the top intent, the confidence and the score map unchanged |
| IntentRecognition.FoldEntitiesCoherent | src/Tools/IntentTool.cs:133-156 | The entities loop keeps the confidence equal to the top intent's score |
| IntentRecognition.ReadResponseCoherent | src/Tools/IntentTool.cs:93-171 | Whatever the response, the confidence read is the top intent's score if it has one, and 0 otherwise |
| IntentRecognition.PredictedScores | src/Tools/IntentTool.cs:105-130 | When a prediction is stored, its score map is exactly the last score per category and its confidence the top intent's last score or 0 |
| IntentRecognition.ReadIntents | src/Tools/IntentTool.cs:111-130 | The `foreach` over the intents array stops where the intents fold stops and reports the same scores, confidence and early stop |
| IntentRecognition.ReadEntities | src/Tools/IntentTool.cs:133-156 | The `foreach` over the entities array stops where the entities fold stops and reports the same entities and early stop |
| IntentRecognition.ParseResponse | src/Tools/IntentTool.cs:93-171 | The statement-by-statement reading with its two loops agrees with the reading function on every response |
| IntentRecognition.FallbackReadsBack | src/Tools/IntentTool.cs:211-248 | Reading the fallback response gives back exactly the stored fallback decision: "informatieVergoedingen", 0.5, that one score, no entities |
| IntentRecognition.AnalyzeConversation | src/Tools/IntentTool.cs:252-299 | The call succeeds exactly when the service answers with a non-blank body; a blank body raises "Empty response received from the API" |
| IntentRecognition.TagsOf | src/Tools/IntentTool.cs:173-190 | The score and entity tags are set exactly when those collections are non-empty |
| IntentRecognition.IntentActivityNames | src/Tools/IntentTool.cs:73-80 | The tool activity names the orchestrator and the intent tool, so completing it registers that pair |
| IntentRecognition.IntentTool.constructor | src/Tools/IntentTool.cs:30-34 | The chat id and last intent start empty and the last confidence 0 |
| IntentRecognition.IntentTool.SetContext | src/Tools/IntentTool.cs:60-63 | Sets the chat id only |
| IntentRecognition.IntentTool.StoreReading | src/Tools/IntentTool.cs:158-163 | The static fields and the tracker are updated only when a prediction was read, and then with exactly the values read, the tracker's last chat, query, intent and score becoming this chat and those values; without a prediction the tracker's last-* fields are unchanged; other chats are unchanged |
| IntentRecognition.IntentTool.StoreFallback | src/Tools/IntentTool.cs:211-226 | Stores "informatieVergoedingen" with 0.5, the one-entry score map and no entities, in the static fields and the tracker, whose last chat, query, intent and score become this chat, the query, "informatieVergoedingen" and 0.5 |
| IntentRecognition.IntentTool.CompleteIntentActivity | src/Tools/IntentTool.cs:192-209 | Completing the intent activity re-registers the orchestrator with the intent tool and reports the intent tool's name and status |
| IntentRecognition.IntentTool.RecognizeIntent | src/Tools/IntentTool.cs:66-250 | Traced only with a tracer and a chat; on failure the fallback decision is stored and returned and the activity completes with "Error: " + message; on success the raw body is returned and a prediction in it is stored; the tracker's last-* fields record each store and are unchanged otherwise; the tracer's agent-tool map gains the orchestrator-intent pair when traced and is unchanged when not |
| DocumentSearch.SourceOf | src/Tools/SearchTool.cs:114-124 | A hit contributes exactly when it has both a title and a chunk field; a null title reads "Untitled" and a null chunk "" |
| DocumentSearch.SourcesAreHitsWithBothFields | src/Tools/SearchTool.cs:112-134 | The sources are exactly the contributions of the hits that carry both fields, and there are no more sources than hits |
| DocumentSearch.SourcesAppend | src/Tools/SearchTool.cs:112-126 | The sources of two consecutive runs of hits are the first run's sources followed by the second's, so every source sits in the order of the hit it came from |
| DocumentSearch.FirstSeenMembers | src/Tools/SearchTool.cs:128-132 | The used documents are exactly the non-empty titles, each listed once |
| DocumentSearch.FirstSeenOrder | src/Tools/SearchTool.cs:128-132 | The used documents are listed in the order their titles first appear |
| DocumentSearch.CollectSources | src/Tools/SearchTool.cs:109-134 | The result loop builds exactly the sources and used documents the specification functions describe |
| DocumentSearch.SearchActivityNames | src/Tools/SearchTool.cs:71-80 | A sampled search activity carries the agent's name and reads back as "SearchTool", so completing it re-registers the same pair |
| DocumentSearch.SearchTool.constructor | src/Tools/SearchTool.cs:24-27 | The chat id and agent name start empty |
| DocumentSearch.SearchTool.SetContext | src/Tools/SearchTool.cs:55-59 | Sets the chat id and agent name |
| DocumentSearch.SearchTool.CompleteSearchActivity | src/Tools/SearchTool.cs:157-185 | Completing the search activity leaves an already registered pair as it is and reports the search tool's name and status |
| DocumentSearch.SearchTool.SearchDocuments | src/Tools/SearchTool.cs:63-197 | On success exactly the used documents go to the aggregator and the search tracker and the sources are returned; on failure an error answer with no references is returned and nothing is recorded; the tracer's agent-tool map gains the agent-search pair when traced and is unchanged when not |
| Email.FormatDateShape | src/Tools/EmailTool.cs:29 | A valid clock reading formats as 19 characters with "-", " " and ":" in fixed places |
| Email.Layout | src/Tools/EmailTool.cs:29 | Fields of widths 4, 2, 2, 2, 2 and 2 joined by "-", "-", " ", ":" and ":" give 19 characters with the separators at positions 4, 7, 10, 13 and 16 |
| Email.EmailContent | src/Tools/EmailTool.cs:30-37 | The text starts with the greeting, action, details and date and ends with the fixed closing; it is only those two parts exactly when there is no feedback |
| Email.FeedbackQuoted | src/Tools/EmailTool.cs:32-35 | Non-empty feedback appears verbatim right after the date paragraph |
| Email.EmailTool.constructor | src/Tools/EmailTool.cs:16 | The outbox starts empty |
| Email.EmailTool.SendConfirmationEmail | src/Tools/EmailTool.cs:22-60 | Appends exactly one record with the recipient and "Confirmation: " + action; the result always reports success and its id is the new outbox length, so ids run 1, 2, 3, … |
| ChatApi.FindLabel | src/Controllers/ChatController.cs:213-214 | Finds the leftmost case-insensitive "References:" at or after a position, or reports that there is none |
| ChatApi.SkipWhiteSpace | src/Controllers/ChatController.cs:213 | Skips exactly the whitespace run after the label, which may include line breaks |
| ChatApi.LineEnd | src/Controllers/ChatController.cs:213 | Stops at the first line break or the end of the text |
| ChatApi.CapturedText | src/Controllers/ChatController.cs:213-218 | A capture exists exactly when the label occurs, and it holds no line break |
| ChatApi.NonEmpty | src/Controllers/ChatController.cs:219 | Removing empty entries keeps exactly the non-empty pieces of the split, and all of them when none is empty |
| ChatApi.NonEmptyCons | src/Controllers/ChatController.cs:219 | A leading piece is kept exactly when it is non-empty, ahead of what the rest keeps |
| ChatApi.NonEmptyAppend | src/Controllers/ChatController.cs:219 | Removing empty entries from two runs of pieces keeps each run's non-empty pieces, in their order |
| ChatApi.ExtractReferences | src/Controllers/ChatController.cs:203-228 | Empty content and content without the label give no references; every reference is trimmed and free of separators and line breaks |
| ChatApi.ReferencesAfterText | src/Controllers/ChatController.cs:203-224 | Wherever the first label stands, the references are the text from after the whitespace following it up to the next line break, split on ',' and ';', empty pieces dropped, trimmed; a later label is ordinary text |
| ChatApi.ReferencesLine | src/Controllers/ChatController.cs:213-224 | After a leading label, one line is split on ',' and ';', empty pieces are dropped and the rest trimmed |
| ChatApi.ExtractJoinedReferences | src/Controllers/ChatController.cs:203-228 | Comma-joined trimmed names without separators or line breaks, written after the label, read back exactly |
| ChatApi.LabelledLine | src/Controllers/ChatController.cs:213-224 | After a label in any case and one space, a single line that does not start with whitespace is read whole, split on ',' and ';', emptied pieces dropped and the rest trimmed |
| ChatApi.UpperCaseLabel | src/Controllers/ChatController.cs:213 | The label is matched whatever its case: "REFERENCES: " before a line reads that line's references |
| ChatApi.BlankPieceBecomesEmptyReference | src/Controllers/ChatController.cs:219-224 | A whitespace-only piece between two references is kept and becomes the empty reference "" |
| ChatApi.FormattedHistorySplitsBack | src/Controllers/ChatController.cs:230-247 | The tracing text has one "role: content" line per message, in order: splitting it on line breaks gives the lines back when no message holds a line break |
| ChatApi.DefaultPairsRegistered | src/Controllers/ChatController.cs:98-100 | The three fixed pairs, registered in turn, map "FAQAgent" to "SearchTool", "AdminAgent" to "EmailTool" and "OrchestratorAgent" to "IntentTool" |
| ChatApi.ChatController.constructor | src/Controllers/ChatController.cs:25-37 | There are no transcripts yet, so every transcript is trivially seeded |
| ChatApi.ChatController.BeginTurn | src/Controllers/ChatController.cs:56-118 | Only a null chat id gets the fresh GUID; a transcript is created once per chat, seeded with exactly the system prompt, and the user message is appended; the chat's intent is cleared, with the tracker's last-* fields reset exactly when they belong to that chat and otherwise unchanged; the three agent-tool pairs are registered and the tools and plugin pointed at the chat |
| ChatApi.ChatController.PointToolsAt | src/Controllers/ChatController.cs:90-109 | The search tool is pointed at the chat and "FAQAgent", the intent tool at the chat; only that chat's intent is cleared, and the tracker's last-* fields are reset when they belong to it and kept otherwise; the three pairs are registered; a present plugin gets the chat id and nothing else |
| ChatApi.ChatController.FinishTurn | src/Controllers/ChatController.cs:121-198 | If the orchestrator throws: a 500 reply "An error occurred: " + message echoing the chat id, the user message kept and nothing drained. Otherwise: the reply appended, both bags drained into the response, references parsed from the reply only when none were tracked, and an evaluation traced only when agents were used |
| ChatApi.ChatController.DrainAggregator | src/Controllers/ChatController.cs:135-145 | Both bags are emptied into the response lists with their multiplicities; the reply is searched for references exactly when no reference was tracked |

## Left out

- Logging, `Stopwatch`, HTTP plumbing, and the `ActivitySource` machinery (`SetTag`, `Stop`, disposal). Only the tag and status decisions are kept.
- JSON serialisation and deserialisation. The intent tool works on a parsed `Json` tree, and "invalid JSON" is a missing tree. The trackers, search results and tool outputs are the records that would be serialised.
- The `language` argument of the intent tool and the `kNearestNeighbors` and `topResults` arguments of the search tool. They only shape the requests sent to external services.
- Concurrency. `ConcurrentBag` and `ConcurrentDictionary` are modelled sequentially, and the bag drain order is left unspecified (multisets). `GetOrAdd` is modelled as a single step.
- Aliasing of `ChatHistory` objects. Transcripts are values in maps and are written back after each append, which gives the same result under sequential execution.
- The language-model agents and `CreateChatAgent`. A turn is split at the orchestrator's await point (`BeginTurn` and `FinishTurn`); the tool calls the model makes in between are the separate methods of the agents and tools.
- `OrchestratorAgent.InvokeAsync(ChatMessageContent)`. The controller never calls it. It applies the same last-message rule as the modelled history overload.
- The agents, not the controller, call the email tool. The controller only registers "AdminAgent" with "EmailTool".
- Floating point. Confidence scores are `real` values that are only copied and compared. The token estimates are `length / 4` as reals.
- Text length. It is the number of `char` values, and `char` is a Unicode scalar value rather than a UTF-16 code unit.
- ChatApi.LabelAt: `RegexOptions.IgnoreCase` is modelled for ASCII letters only, which is enough for the label "References:".
- The regex class `\s` is modelled by `Char.IsWhiteSpace`. In .NET both cover the Unicode separators plus U+0009 to U+000D and U+0085.
- The clock. `DateTime.Now` is a parameter. Its formatting assumes a culture whose time separator is ':'.
- Tracing.AgentNameRoundTrip: proved only for agent names that do not contain "gen_ai.agent.". `Replace` also deletes an occurrence inside the name; the model computes that case but no lemma is stated about it.
- Tracing.KindFor: `StartsWith` is modelled as an ordinal prefix test. The source calls the culture-sensitive `string.StartsWith(string)`. The two agree on every operation name the tracer builds, because those names start with one of the fixed ASCII prefixes. For arbitrary names they can differ, for example on characters that a culture's collation ignores.
