/**
 * The agent plugin: a registry of named agents and the dispatcher the orchestrator
 * calls as a tool. Each dispatch keeps one transcript per (chat, agent) pair.
 */
module Dispatch {
  import opened Wrappers
  import opened ChatModel
  import opened Orchestration

  /** An `IAgent`: its name and an opaque handle for the Semantic Kernel agent behind it. */
  datatype AgentHandle = AgentHandle(name: string, handle: nat)

  /** `_agentChatHistories`: chat id, then agent name, to that agent's transcript in that chat. */
  type AgentHistories = map<string, map<string, ChatHistory>>

  /** The message of the `ArgumentNullException` thrown for a null agent. */
  const NullAgentError: string := "Value cannot be null. (Parameter 'agent')"

  /** The transcript of `agentName` in `chatId`; empty when none was created yet. */
  function History(histories: AgentHistories, chatId: string, agentName: string): ChatHistory {
    if chatId in histories && agentName in histories[chatId] then histories[chatId][agentName] else []
  }

  /** The reply text for a name that is not registered. */
  function NotFoundReply(agentName: string): string {
    "Agent '" + agentName + "' not found."
  }

  /** The reply text for an agent invocation that threw. */
  function ErrorReply(message: string): string {
    "Error: " + message
  }

  /** The text a `StringBuilder` holds after appending the content of every chat message of the stream. */
  function StreamedText(items: seq<StreamItem>): string
    decreases |items|
  {
    if items == [] then ""
    else
      var last := items[|items| - 1];
      StreamedText(items[..|items| - 1]) + (if last.Some? then last.value.content.GetOr("") else "")
  }

  /** The reply is built in stream order: the text of a concatenated stream is the concatenation of the texts. */
  lemma {:induction false} StreamedTextAppend(a: seq<StreamItem>, b: seq<StreamItem>)
    ensures StreamedText(a + b) == StreamedText(a) + StreamedText(b)
    decreases |b|
  {
    if b == [] {
      assert a + b == a;
    } else {
      var b' := b[..|b| - 1];
      assert (a + b)[|a + b| - 1] == b[|b| - 1];
      assert (a + b)[..|a + b| - 1] == a + b';
      StreamedTextAppend(a, b');
    }
  }

  /** The transcripts after a dispatch to a registered agent: the pair's transcript gains the question and, unless the agent threw, the reply. */
  function AfterDispatch(histories: AgentHistories, chatId: string, agentName: string, question: string, run: AgentRun): AgentHistories {
    var turn := [UserMessage(question)] + (if run.Streamed? then [AssistantMessage(StreamedText(run.items))] else []);
    var perAgent := if chatId in histories then histories[chatId] else map[];
    histories[chatId := perAgent[agentName := History(histories, chatId, agentName) + turn]]
  }

  /** A dispatch touches only its own (chat, agent) transcript, and extends it rather than replacing it. */
  lemma AfterDispatchHistories(histories: AgentHistories, chatId: string, agentName: string, question: string, run: AgentRun, c: string, n: string)
    ensures History(AfterDispatch(histories, chatId, agentName, question, run), c, n) ==
      if c == chatId && n == agentName then
        History(histories, c, n) + [UserMessage(question)] +
          (if run.Streamed? then [AssistantMessage(StreamedText(run.items))] else [])
      else History(histories, c, n)
  {
  }

  /** Reads the whole response stream, appending each chat message's content in order. */
  method CollectResponse(items: seq<StreamItem>) returns (response: string)
    ensures response == StreamedText(items)
  {
    response := "";
    var i := 0;
    while i < |items|
      invariant 0 <= i <= |items|
      invariant response == StreamedText(items[..i])
    {
      assert items[..i + 1][..i] == items[..i];
      if items[i].Some? {
        response := response + items[i].value.content.GetOr("");
      }
      i := i + 1;
    }
    assert items[..|items|] == items;
  }

  class AgentPlugin {
    /** `_agents`: the registry, by agent name. */
    var agents: map<string, AgentHandle>
    /** `_agentChatHistories`. */
    var agentChatHistories: AgentHistories
    /** `_currentChatId`: the chat the next dispatches belong to. */
    var currentChatId: string

    constructor ()
      ensures agents == map[] && agentChatHistories == map[] && currentChatId == ""
    {
      agents := map[];
      agentChatHistories := map[];
      currentChatId := "";
    }

    method SetChatId(chatId: string)
      modifies this
      ensures currentChatId == chatId
      ensures agents == old(agents) && agentChatHistories == old(agentChatHistories)
    {
      currentChatId := chatId;
    }

    /** Registers an agent under its name, replacing any earlier agent of that name; a null agent is rejected. */
    method RegisterAgent(agent: Option<AgentHandle>) returns (outcome: Result<()>)
      modifies this
      ensures agent.None? ==> outcome == Failure(NullAgentError) && agents == old(agents)
      ensures agent.Some? ==> outcome == Success(()) && agents == old(agents)[agent.value.name := agent.value]
      ensures agentChatHistories == old(agentChatHistories) && currentChatId == old(currentChatId)
    {
      if agent.None? {
        return Failure(NullAgentError);
      }
      agents := agents[agent.value.name := agent.value];
      outcome := Success(());
    }

    /**
     * `InvokeAgentAsync`: an unknown name gets a fixed reply and changes nothing. A
     * registered name is recorded as used before the agent runs, its transcript for
     * the current chat is fetched or created, the question is appended, and then the
     * streamed reply is appended and returned; if the agent throws, the reply is the
     * error text and the transcript keeps the question only.
     */
    method InvokeAgentAsync(agentName: string, question: string, run: AgentRun, orchestrator: OrchestratorAgent) returns (reply: string)
      modifies this, orchestrator
      ensures agentName !in old(agents) ==>
        && reply == NotFoundReply(agentName)
        && agentChatHistories == old(agentChatHistories)
        && orchestrator.usedAgents == old(orchestrator.usedAgents)
      ensures agentName in old(agents) ==>
        && reply == (if run.Streamed? then StreamedText(run.items) else ErrorReply(run.message))
        && agentChatHistories == AfterDispatch(old(agentChatHistories), currentChatId, agentName, question, run)
        && orchestrator.usedAgents == old(orchestrator.usedAgents) + multiset{agentName}
      ensures orchestrator.documentReferences == old(orchestrator.documentReferences)
      ensures agents == old(agents) && currentChatId == old(currentChatId)
    {
      if agentName !in agents {
        return NotFoundReply(agentName);
      }
      orchestrator.AddUsedAgent(agentName);

      // Get or create the per-chat map and the per-agent transcript. The transcript is a
      // value here, so the in-place appends below are written back to the map once.
      var agentHistories := if currentChatId in agentChatHistories then agentChatHistories[currentChatId] else map[];
      var chatHistory := if agentName in agentHistories then agentHistories[agentName] else [];

      ghost var prior := chatHistory;
      assert prior == History(agentChatHistories, currentChatId, agentName);
      chatHistory := chatHistory + [UserMessage(question)];
      match run {
        case Threw(message) =>
          reply := ErrorReply(message);
          assert chatHistory == prior + ([UserMessage(question)] + []);
        case Streamed(items) =>
          var response := CollectResponse(items);
          chatHistory := chatHistory + [AssistantMessage(response)];
          reply := response;
          assert chatHistory == prior + ([UserMessage(question)] + [AssistantMessage(StreamedText(run.items))]);
      }
      agentChatHistories := agentChatHistories[currentChatId := agentHistories[agentName := chatHistory]];
      assert agentChatHistories == AfterDispatch(old(agentChatHistories), currentChatId, agentName, question, run);
    }

    /** Dispatches to the agent named "FAQAgent". */
    method AskFAQAgent(question: string, run: AgentRun, orchestrator: OrchestratorAgent) returns (reply: string)
      modifies this, orchestrator
      ensures "FAQAgent" !in old(agents) ==>
        reply == NotFoundReply("FAQAgent") && agentChatHistories == old(agentChatHistories) &&
        orchestrator.usedAgents == old(orchestrator.usedAgents)
      ensures "FAQAgent" in old(agents) ==>
        && reply == (if run.Streamed? then StreamedText(run.items) else ErrorReply(run.message))
        && agentChatHistories == AfterDispatch(old(agentChatHistories), currentChatId, "FAQAgent", question, run)
        && orchestrator.usedAgents == old(orchestrator.usedAgents) + multiset{"FAQAgent"}
      ensures orchestrator.documentReferences == old(orchestrator.documentReferences)
      ensures agents == old(agents) && currentChatId == old(currentChatId)
    {
      reply := InvokeAgentAsync("FAQAgent", question, run, orchestrator);
    }

    /** Dispatches to the agent named "AdminAgent". */
    method AskAdminAgent(question: string, run: AgentRun, orchestrator: OrchestratorAgent) returns (reply: string)
      modifies this, orchestrator
      ensures "AdminAgent" !in old(agents) ==>
        reply == NotFoundReply("AdminAgent") && agentChatHistories == old(agentChatHistories) &&
        orchestrator.usedAgents == old(orchestrator.usedAgents)
      ensures "AdminAgent" in old(agents) ==>
        && reply == (if run.Streamed? then StreamedText(run.items) else ErrorReply(run.message))
        && agentChatHistories == AfterDispatch(old(agentChatHistories), currentChatId, "AdminAgent", question, run)
        && orchestrator.usedAgents == old(orchestrator.usedAgents) + multiset{"AdminAgent"}
      ensures orchestrator.documentReferences == old(orchestrator.documentReferences)
      ensures agents == old(agents) && currentChatId == old(currentChatId)
    {
      reply := InvokeAgentAsync("AdminAgent", question, run, orchestrator);
    }
  }
}
