/**
 * The decisions of the GenAI tracer: which activity kind an operation gets, how agent
 * and tool names are recovered from operation names, the agent-to-tool map, and which
 * extra tags a completed agent invocation or an intent detection carries.
 */
module Tracing {
  import opened Wrappers
  import opened Strings
  import opened IntentTracking
  import opened SearchTracking

  datatype ActivityKind = Internal | Server

  datatype StatusCode = Ok | Error

  /** The operation-name prefixes that make an activity a server activity. */
  const ServerPrefixes: seq<string> :=
    ["gen_ai.user.", "gen_ai.choice", "gen_ai.system.", "gen_ai.evaluation.", "gen_ai.conversation."]

  const AgentPrefix: string := "gen_ai.agent."
  const ToolPrefix: string := "gen_ai.tool."

  const SystemTag: string := "gen_ai.system"
  const ThreadIdTag: string := "gen_ai.thread.id"
  const AgentNameTag: string := "gen_ai.agent.name"
  const ToolNameTag: string := "gen_ai.tool.name"
  const ToolInputTag: string := "gen_ai.tool.input"
  const PromptTag: string := "gen_ai.prompt"

  /** A started activity: its operation name, kind and string-valued tags. */
  datatype Activity = Activity(operationName: string, kind: ActivityKind, tags: map<string, string>)

  /** The activity kind `StartActivity` picks for an operation name. */
  function KindFor(operationName: string): (k: ActivityKind)
    ensures k == Server <==> exists p :: p in ServerPrefixes && StartsWith(operationName, p)
  {
    if StartsWith(operationName, "gen_ai.user.") || StartsWith(operationName, "gen_ai.choice")
      || StartsWith(operationName, "gen_ai.system.") || StartsWith(operationName, "gen_ai.evaluation.")
      || StartsWith(operationName, "gen_ai.conversation.")
    then Server
    else Internal
  }

  /** An operation name whose eighth character is not that of any server prefix is internal. */
  lemma InternalByEighthChar(operationName: string)
    requires |operationName| > 7
    requires operationName[7] == 'a' || operationName[7] == 't' || operationName[7] == 'i'
    ensures KindFor(operationName) == Internal
  {
    forall p | p in ServerPrefixes ensures !StartsWith(operationName, p) {
      assert |p| > 7 && p[7] != operationName[7];
      if |p| <= |operationName| {
        assert operationName[..|p|][7] != p[7];
      }
    }
  }

  /** The message, choice, system, evaluation and conversation events are server activities. */
  lemma ServerEventKinds()
    ensures KindFor("gen_ai.user.message") == Server
    ensures KindFor("gen_ai.choice") == Server
    ensures KindFor("gen_ai.system.message") == Server
    ensures KindFor("gen_ai.evaluation.score") == Server
    ensures KindFor("gen_ai.conversation.history") == Server
  {
    assert StartsWith("gen_ai.user.message", "gen_ai.user.");
    assert StartsWith("gen_ai.choice", "gen_ai.choice");
    assert StartsWith("gen_ai.system.message", "gen_ai.system.");
    assert StartsWith("gen_ai.evaluation.score", "gen_ai.evaluation.");
    assert StartsWith("gen_ai.conversation.history", "gen_ai.conversation.");
  }

  /** Agent, tool and intent-detection spans are internal activities, whatever the agent or tool name. */
  lemma InternalSpanKinds(name: string)
    ensures KindFor(AgentOperationName(name)) == Internal
    ensures KindFor(ToolOperationName(name)) == Internal
    ensures KindFor("gen_ai.intent.detection") == Internal
  {
    InternalByEighthChar(AgentOperationName(name));
    InternalByEighthChar(ToolOperationName(name));
    InternalByEighthChar("gen_ai.intent.detection");
  }

  /** The one-shot events the tracer emits; each is an activity started and disposed at once. */
  datatype TraceEvent =
    | UserMessageEvent(chatId: string, message: string, userId: string)
    | AssistantMessageEvent(chatId: string, responseId: string, message: string, inputTokens: real, outputTokens: real)
    | SystemMessageEvent(chatId: string, message: string)
    | EvaluationEvent(chatId: string, responseId: string, evaluatorName: string, score: real, comment: Option<string>)
    | ConversationHistoryEvent(chatId: string, text: string)

  /** The operation name each event is started under. */
  function EventOperation(e: TraceEvent): string {
    match e
    case UserMessageEvent(_, _, _) => "gen_ai.user.message"
    case AssistantMessageEvent(_, _, _, _, _) => "gen_ai.choice"
    case SystemMessageEvent(_, _) => "gen_ai.system.message"
    case EvaluationEvent(_, _, _, _, _) => "gen_ai.evaluation.score"
    case ConversationHistoryEvent(_, _) => "gen_ai.conversation.history"
  }

  /** Every event is traced as a server activity. */
  lemma EventsAreServerActivities(e: TraceEvent)
    ensures KindFor(EventOperation(e)) == Server
  {
    ServerEventKinds();
  }

  /** `TraceEvaluation`: the comment is tagged only when it is non-empty. */
  function TraceEvaluation(chatId: string, responseId: string, evaluatorName: string, score: real, comment: string): (e: TraceEvent)
    ensures e.EvaluationEvent? && e.chatId == chatId && e.score == score
    ensures e.comment.Some? <==> comment != ""
    ensures e.comment.Some? ==> e.comment.value == comment
  {
    EvaluationEvent(chatId, responseId, evaluatorName, score, if comment != "" then Some(comment) else None)
  }

  /** `StartActivity`: `None` when no listener samples the operation; otherwise the system and thread tags, then the extra ones. */
  function StartActivity(operationName: string, chatId: string, extraTags: map<string, string>, listened: bool): Option<Activity> {
    if listened then
      Some(Activity(operationName, KindFor(operationName),
        map[SystemTag := "AgentsDemoSK", ThreadIdTag := chatId] + extraTags))
    else None
  }

  function AgentOperationName(agentName: string): string { AgentPrefix + agentName }

  function ToolOperationName(toolName: string): string { ToolPrefix + toolName }

  /** `operationName.Replace("gen_ai.agent.", "")`. */
  function ExtractAgentName(operationName: string): string { RemoveAll(operationName, AgentPrefix) }

  /** `operationName.Replace("gen_ai.tool.", "")`. */
  function ExtractToolName(operationName: string): string { RemoveAll(operationName, ToolPrefix) }

  /** The agent name is recovered from an agent operation name, for names that do not contain the prefix themselves. */
  lemma AgentNameRoundTrip(agentName: string)
    requires !Contains(agentName, AgentPrefix)
    ensures ExtractAgentName(AgentOperationName(agentName)) == agentName
  {
    RemovePrefixInverse(AgentPrefix, agentName);
  }

  /** The tool name is recovered from a tool operation name, for names that do not contain the prefix themselves. */
  lemma ToolNameRoundTrip(toolName: string)
    requires !Contains(toolName, ToolPrefix)
    ensures ExtractToolName(ToolOperationName(toolName)) == toolName
  {
    RemovePrefixInverse(ToolPrefix, toolName);
  }

  /** A started tool activity reads back as its tool and carries every extra tag it was given. */
  lemma ToolActivityReadsBack(toolName: string, chatId: string, extraTags: map<string, string>, listened: bool)
    requires !Contains(toolName, ToolPrefix)
    ensures var a := StartActivity(ToolOperationName(toolName), chatId, extraTags, listened);
      a.Some? ==> ExtractToolName(a.value.operationName) == toolName
                  && forall k :: k in extraTags ==> k in a.value.tags && a.value.tags[k] == extraTags[k]
  {
    ToolNameRoundTrip(toolName);
  }

  /** `StartAgentInvocation`: an activity named after the agent, tagged with the agent name and the prompt. */
  function StartAgentInvocation(chatId: string, agentName: string, prompt: string, listened: bool): Option<Activity> {
    StartActivity(AgentOperationName(agentName), chatId, map[AgentNameTag := agentName, PromptTag := prompt], listened)
  }

  /** The chat id `CompleteAgentInvocation` reads back from the thread tag, "default" without one. */
  function ChatIdOf(activity: Activity): string {
    if ThreadIdTag in activity.tags then activity.tags[ThreadIdTag] else "default"
  }

  /** The agent-to-tool map after `RegisterAgentTool`: only a pair of non-empty names is stored, and it replaces the agent's earlier tool. */
  function Registered(agentToolMap: map<string, string>, agentName: string, toolName: string): map<string, string> {
    if agentName != "" && toolName != "" then agentToolMap[agentName := toolName] else agentToolMap
  }

  /** Registering the same pair again changes nothing. */
  lemma RegisteredTwice(agentToolMap: map<string, string>, agentName: string, toolName: string)
    ensures var once := Registered(agentToolMap, agentName, toolName);
      Registered(once, agentName, toolName) == once
  {
  }

  /** The tags and status a completed agent invocation carries. */
  datatype AgentCompletion = AgentCompletion(
    response: string,
    success: bool,
    status: StatusCode,
    agentName: string,
    toolName: Option<string>,
    intentInfo: Option<IntentInfo>,
    searchInfo: Option<SearchInfo>)

  /** A tool's output as tagged on its activity: plain text, or the search summary that the search tool serialises. */
  datatype ToolOutput =
    | Text(text: string)
    | SearchSummary(query: string, documentsFound: nat, documentTitles: seq<string>)

  /** The tags and status a completed tool invocation carries. */
  datatype ToolCompletion = ToolCompletion(output: ToolOutput, success: bool, status: StatusCode, toolName: string)

  /** The tags `TraceIntentDetection` puts on its activity, with the intent info it read back. */
  datatype IntentDetectionTags = IntentDetectionTags(
    query: string,
    intent: string,
    confidence: real,
    intentInfo: IntentInfo,
    allIntentsTag: Option<map<string, real>>,
    entitiesTag: Option<seq<Entity>>)

  class GenAITracer {
    /** `_agentToolMap`: the tool last registered for each agent. */
    var agentToolMap: map<string, string>

    constructor ()
      ensures agentToolMap == map[]
    {
      agentToolMap := map[];
    }

    method RegisterAgentTool(agentName: string, toolName: string)
      modifies this
      ensures agentToolMap == Registered(old(agentToolMap), agentName, toolName)
    {
      if agentName != "" && toolName != "" {
        agentToolMap := agentToolMap[agentName := toolName];
      }
    }

    /**
     * The decisions of `CompleteAgentInvocation`: nothing for a null activity; otherwise the
     * agent name recovered from the operation name, its tool if one is registered, the intent
     * info of the activity's chat only for the orchestrator using the intent tool, the search
     * info only for the FAQ agent's operation, and an Ok status exactly on success.
     */
    function CompleteAgentInvocation(activity: Option<Activity>, response: string, success: bool,
                                     intentTracker: IntentTracker, searchTracker: SearchTracker): (r: Option<AgentCompletion>)
      reads this, intentTracker, searchTracker
      ensures r.None? <==> activity.None?
      ensures r.Some? ==>
        var name := ExtractAgentName(activity.value.operationName);
        && r.value.agentName == name
        && r.value.response == response
        && (r.value.toolName.Some? <==> name in agentToolMap)
        && (r.value.toolName.Some? ==> r.value.toolName.value == agentToolMap[name])
        && (r.value.intentInfo.Some? <==>
              name == "OrchestratorAgent" && name in agentToolMap && agentToolMap[name] == "IntentTool")
        && (r.value.intentInfo.Some? ==> r.value.intentInfo.value == intentTracker.GetIntentInfo(ChatIdOf(activity.value)))
        && (r.value.searchInfo.Some? <==> activity.value.operationName == "gen_ai.agent.FAQAgent")
        && (r.value.searchInfo.Some? ==> r.value.searchInfo.value == searchTracker.GetSearchInfo())
        && (r.value.status == Ok <==> success)
    {
      match activity
      case None => None
      case Some(a) =>
        var name := ExtractAgentName(a.operationName);
        var tool := if name in agentToolMap then Some(agentToolMap[name]) else None;
        var intentInfo :=
          if tool.Some? && name == "OrchestratorAgent" && tool.value == "IntentTool"
          then Some(intentTracker.GetIntentInfo(ChatIdOf(a))) else None;
        var searchInfo := if a.operationName == "gen_ai.agent.FAQAgent" then Some(searchTracker.GetSearchInfo()) else None;
        Some(AgentCompletion(response, success, if success then Ok else Error, name, tool, intentInfo, searchInfo))
    }

    /** `StartToolInvocation`: starts a tool activity and registers the (agent, tool) pair. */
    method StartToolInvocation(chatId: string, agentName: string, toolName: string, input: string, listened: bool)
      returns (activity: Option<Activity>)
      modifies this
      ensures activity == StartActivity(ToolOperationName(toolName), chatId,
        map[AgentNameTag := agentName, ToolNameTag := toolName, ToolInputTag := input], listened)
      ensures agentToolMap == Registered(old(agentToolMap), agentName, toolName)
    {
      activity := StartActivity(ToolOperationName(toolName), chatId,
        map[AgentNameTag := agentName, ToolNameTag := toolName, ToolInputTag := input], listened);
      RegisterAgentTool(agentName, toolName);
    }

    /**
     * `CompleteToolInvocation`: nothing for a null activity; otherwise registers the pair
     * made of the activity's agent tag and the tool name recovered from its operation name.
     */
    method CompleteToolInvocation(activity: Option<Activity>, output: ToolOutput, success: bool)
      returns (completion: Option<ToolCompletion>)
      modifies this
      ensures activity.None? ==> completion.None? && agentToolMap == old(agentToolMap)
      ensures activity.Some? ==>
        var toolName := ExtractToolName(activity.value.operationName);
        && completion == Some(ToolCompletion(output, success, if success then Ok else Error, toolName))
        && agentToolMap == if AgentNameTag in activity.value.tags
                           then Registered(old(agentToolMap), activity.value.tags[AgentNameTag], toolName)
                           else old(agentToolMap)
    {
      if activity.None? {
        return None;
      }
      var a := activity.value;
      var toolName := ExtractToolName(a.operationName);
      if AgentNameTag in a.tags {
        var agentName := a.tags[AgentNameTag];
        if agentName != "" && toolName != "" {
          RegisterAgentTool(agentName, toolName);
        }
      }
      completion := Some(ToolCompletion(output, success, if success then Ok else Error, toolName));
    }

    /**
     * `TraceIntentDetection`: writes the decision to the intent tracker, reads it back, and
     * tags the scores and the entities only when they are given and non-empty.
     */
    method TraceIntentDetection(chatId: string, query: string, intent: string, confidenceScore: real,
                                allIntents: Option<map<string, real>>, entities: Option<seq<Entity>>,
                                intentTracker: IntentTracker)
      returns (tags: IntentDetectionTags)
      modifies intentTracker
      ensures intentTracker.GetIntentInfo(chatId) == IntentInfo(query, intent, confidenceScore,
        allIntents.GetOr(old(intentTracker.GetIntentInfo(chatId)).allIntents),
        entities.GetOr(old(intentTracker.GetIntentInfo(chatId)).entities))
      ensures forall other :: other != chatId ==> intentTracker.GetIntentInfo(other) == old(intentTracker.GetIntentInfo(other))
      ensures intentTracker.LastWriteWas(chatId, query, intent, confidenceScore)
      ensures tags.query == query && tags.intent == intent && tags.confidence == confidenceScore
      ensures tags.intentInfo == intentTracker.GetIntentInfo(chatId)
      ensures tags.allIntentsTag.Some? <==> allIntents.Some? && |allIntents.value| > 0
      ensures tags.allIntentsTag.Some? ==> tags.allIntentsTag == allIntents
      ensures tags.entitiesTag.Some? <==> entities.Some? && |entities.value| > 0
      ensures tags.entitiesTag.Some? ==> tags.entitiesTag == entities
    {
      intentTracker.SetIntentInfo(chatId, query, intent, confidenceScore, allIntents, entities);
      var intentInfo := intentTracker.GetIntentInfo(chatId);
      var allIntentsTag := if allIntents.Some? && |allIntents.value| > 0 then allIntents else None;
      var entitiesTag := if entities.Some? && |entities.value| > 0 then entities else None;
      tags := IntentDetectionTags(query, intent, confidenceScore, intentInfo, allIntentsTag, entitiesTag);
    }
  }

  /** An agent activity started for a chat is completed with that chat's intent info when the orchestrator is mapped to the intent tool. */
  lemma OrchestratorCompletionCarriesIntent(tracer: GenAITracer, chatId: string, prompt: string, response: string, success: bool,
                                            intentTracker: IntentTracker, searchTracker: SearchTracker)
    requires "OrchestratorAgent" in tracer.agentToolMap && tracer.agentToolMap["OrchestratorAgent"] == "IntentTool"
    ensures
      var r := tracer.CompleteAgentInvocation(StartAgentInvocation(chatId, "OrchestratorAgent", prompt, true), response, success,
                                              intentTracker, searchTracker);
      r.Some? && r.value.agentName == "OrchestratorAgent" && r.value.toolName == Some("IntentTool")
      && r.value.intentInfo == Some(intentTracker.GetIntentInfo(chatId)) && r.value.searchInfo.None?
  {
    assert !Contains("OrchestratorAgent", AgentPrefix) by {
      forall i | 0 <= i <= |"OrchestratorAgent"| ensures !StartsWith("OrchestratorAgent"[i..], AgentPrefix) {
        if |AgentPrefix| <= |"OrchestratorAgent"[i..]| {
          assert "OrchestratorAgent"[i..][..|AgentPrefix|][12] != '.';
        }
      }
    }
    AgentNameRoundTrip("OrchestratorAgent");
    var a := StartAgentInvocation(chatId, "OrchestratorAgent", prompt, true).value;
    assert a.tags[ThreadIdTag] == chatId;
    assert a.operationName != "gen_ai.agent.FAQAgent";
  }

  /** The FAQ agent's invocation is completed with the current search info. */
  lemma FaqCompletionCarriesSearch(tracer: GenAITracer, chatId: string, prompt: string, response: string, success: bool,
                                   intentTracker: IntentTracker, searchTracker: SearchTracker)
    ensures
      var r := tracer.CompleteAgentInvocation(StartAgentInvocation(chatId, "FAQAgent", prompt, true), response, success,
                                              intentTracker, searchTracker);
      r.Some? && r.value.searchInfo == Some(searchTracker.GetSearchInfo())
  {
  }
}
