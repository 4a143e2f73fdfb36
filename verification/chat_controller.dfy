/**
 * The chat controller's turn bookkeeping: the per-chat transcript, the context it hands
 * to the tools, the reply and the agents and references it reports, and the fallback that
 * extracts references from the reply text.
 *
 * A turn is split at the point where the orchestrator runs: `BeginTurn` does everything
 * up to the call, the agents and tools then act on the shared objects, and `FinishTurn`
 * takes the orchestrator's stream and does the rest.
 */
module ChatApi {
  import opened Wrappers
  import opened Strings
  import opened ChatModel
  import opened Orchestration
  import opened Dispatch
  import opened IntentTracking
  import opened SearchTracking
  import opened Tracing
  import opened IntentRecognition
  import opened DocumentSearch

  const SystemPrompt: string := "You are a helpful healthcare insurance assistant."
  const ReferencesLabel: string := "References:"
  const ReferenceSeparators: set<char> := {',', ';'}

  /** The label matches at `i`, ignoring ASCII case. */
  predicate LabelAt(s: string, i: nat) {
    i + |ReferencesLabel| <= |s| &&
    forall k :: 0 <= k < |ReferencesLabel| ==> LowerAscii(s[i + k]) == LowerAscii(ReferencesLabel[k])
  }

  /** The leftmost match of the label at or after `from`. */
  function FindLabel(s: string, from: nat): (r: Option<nat>)
    requires from <= |s|
    ensures r.Some? ==> from <= r.value <= |s| && LabelAt(s, r.value) && forall j :: from <= j < r.value ==> !LabelAt(s, j)
    ensures r.None? ==> forall j :: from <= j <= |s| ==> !LabelAt(s, j)
    decreases |s| - from
  {
    if LabelAt(s, from) then Some(from)
    else if from == |s| then None
    else FindLabel(s, from + 1)
  }

  /** `\s*`, taken greedily: the end of the whitespace run starting at `i`. */
  function SkipWhiteSpace(s: string, i: nat): (k: nat)
    requires i <= |s|
    ensures i <= k <= |s|
    ensures forall j :: i <= j < k ==> IsWhiteSpace(s[j])
    ensures k < |s| ==> !IsWhiteSpace(s[k])
    decreases |s| - i
  {
    if i < |s| && IsWhiteSpace(s[i]) then SkipWhiteSpace(s, i + 1) else i
  }

  /** `(.*?)(?:\n|$)`: the first line break at or after `k`, or the end. */
  function LineEnd(s: string, k: nat): (e: nat)
    requires k <= |s|
    ensures k <= e <= |s|
    ensures forall j :: k <= j < e ==> s[j] != '\n'
    ensures e < |s| ==> s[e] == '\n'
    decreases |s| - k
  {
    if k < |s| && s[k] != '\n' then LineEnd(s, k + 1) else k
  }

  /**
   * The text the pattern `References:\s*(.*?)(?:\n|$)` captures, case-insensitively:
   * after the first label and the whitespace following it, up to the next line break.
   */
  function CapturedText(content: string): (r: Option<string>)
    ensures r.None? <==> forall j :: 0 <= j <= |content| ==> !LabelAt(content, j)
    ensures r.Some? ==> NoneOf(r.value, {'\n'})
  {
    match FindLabel(content, 0)
    case None => None
    case Some(i) =>
      var k := SkipWhiteSpace(content, i + |ReferencesLabel|);
      var e := LineEnd(content, k);
      assert forall c :: c in content[k..e] ==> c != '\n';
      Some(content[k..e])
  }

  /** `StringSplitOptions.RemoveEmptyEntries`: drops the empty pieces and keeps the rest in order. */
  function NonEmpty(xs: seq<string>): (r: seq<string>)
    ensures forall k :: 0 <= k < |r| ==> r[k] != "" && r[k] in xs
    ensures forall x :: x in r <==> x in xs && x != ""
    ensures (forall k :: 0 <= k < |xs| ==> xs[k] != "") ==> r == xs
    decreases |xs|
  {
    if xs == [] then []
    else (if xs[0] != "" then [xs[0]] else []) + NonEmpty(xs[1..])
  }

  /** Dropping the empty pieces of two runs one after the other keeps what each run keeps, in order. */
  lemma {:induction false} NonEmptyAppend(a: seq<string>, b: seq<string>)
    ensures NonEmpty(a + b) == NonEmpty(a) + NonEmpty(b)
    decreases |a|
  {
    if a != [] {
      var t := a[1..];
      var head := if a[0] != "" then [a[0]] else [];
      assert a == [a[0]] + t;
      assert a + b == [a[0]] + (t + b);
      calc {
        NonEmpty(a + b);
        { NonEmptyCons(a[0], t + b); }
        head + NonEmpty(t + b);
        { NonEmptyAppend(t, b); }
        head + (NonEmpty(t) + NonEmpty(b));
        (head + NonEmpty(t)) + NonEmpty(b);
        { NonEmptyCons(a[0], t); }
        NonEmpty(a) + NonEmpty(b);
      }
    } else {
      assert a + b == b && NonEmpty(a) == [];
    }
  }

  /** A piece in front is kept exactly when it is not empty, ahead of what the rest keeps. */
  lemma NonEmptyCons(x: string, t: seq<string>)
    ensures NonEmpty([x] + t) == (if x != "" then [x] else []) + NonEmpty(t)
  {
    assert ([x] + t)[1..] == t;
  }

  function TrimAll(xs: seq<string>): (r: seq<string>)
    ensures |r| == |xs| && forall k :: 0 <= k < |xs| ==> r[k] == Trim(xs[k])
  {
    seq(|xs|, k requires 0 <= k < |xs| => Trim(xs[k]))
  }

  /**
   * `ExtractReferences`: nothing for empty content or content without the label; otherwise
   * the captured line split on commas and semicolons, empty pieces dropped, each trimmed.
   */
  function ExtractReferences(content: string): (r: seq<string>)
    ensures content == "" ==> r == []
    ensures (forall j :: 0 <= j <= |content| ==> !LabelAt(content, j)) ==> r == []
    ensures forall k :: 0 <= k < |r| ==> IsTrimmed(r[k]) && NoneOf(r[k], ReferenceSeparators + {'\n'})
  {
    if content == "" then []
    else
      match CapturedText(content)
      case None => []
      case Some(text) =>
        var pieces := SplitOn(text, ReferenceSeparators);
        SplitOnKeepsAbsent(text, ReferenceSeparators, {'\n'});
        var kept := NonEmpty(pieces);
        var r := TrimAll(kept);
        forall k | 0 <= k < |r| ensures IsTrimmed(r[k]) && NoneOf(r[k], ReferenceSeparators + {'\n'}) {
          TrimIdempotent(kept[k]);
          var i :| 0 <= i < |pieces| && pieces[i] == kept[k];
          TrimKeepsAbsent(kept[k], ReferenceSeparators + {'\n'});
        }
        r
  }

  /** Joining with a character none of the pieces holds gives text without a line break. */
  lemma {:induction false} JoinKeepsAbsent(xs: seq<string>, sep: string, absent: set<char>)
    requires NoneOf(sep, absent) && forall k :: 0 <= k < |xs| ==> NoneOf(xs[k], absent)
    ensures NoneOf(Join(xs, sep), absent)
    decreases |xs|
  {
    if |xs| > 1 {
      JoinKeepsAbsent(xs[1..], sep, absent);
    }
  }

  lemma {:induction false} SkipWhiteSpaceTo(s: string, i: nat, k: nat)
    requires i <= k <= |s|
    requires forall j :: i <= j < k ==> IsWhiteSpace(s[j])
    requires k < |s| ==> !IsWhiteSpace(s[k])
    ensures SkipWhiteSpace(s, i) == k
    decreases k - i
  {
    if i < k {
      SkipWhiteSpaceTo(s, i + 1, k);
    }
  }

  lemma {:induction false} LineEndAtEnd(s: string, k: nat)
    requires k <= |s|
    requires forall j :: k <= j < |s| ==> s[j] != '\n'
    ensures LineEnd(s, k) == |s|
    decreases |s| - k
  {
    if k < |s| {
      LineEndAtEnd(s, k + 1);
    }
  }

  lemma {:induction false} FindLabelIs(s: string, from: nat, i: nat)
    requires from <= i && LabelAt(s, i)
    requires forall j :: from <= j < i ==> !LabelAt(s, j)
    ensures FindLabel(s, from) == Some(i)
    decreases i - from
  {
    if from < i {
      FindLabelIs(s, from + 1, i);
    }
  }

  lemma {:induction false} LineEndIs(s: string, k: nat, e: nat)
    requires k <= e <= |s|
    requires forall j :: k <= j < e ==> s[j] != '\n'
    requires e < |s| ==> s[e] == '\n'
    ensures LineEnd(s, k) == e
    decreases e - k
  {
    if k < e {
      LineEndIs(s, k + 1, e);
    }
  }

  /**
   * Wherever the first label stands, the references are the pieces of the text from the end of
   * the whitespace after it up to the next line break; a later label is ordinary text.
   */
  lemma ReferencesAfterText(content: string, i: nat, k: nat, e: nat)
    requires LabelAt(content, i)
    requires forall j :: 0 <= j < i ==> !LabelAt(content, j)
    requires i + |ReferencesLabel| <= k <= e <= |content|
    requires forall j :: i + |ReferencesLabel| <= j < k ==> IsWhiteSpace(content[j])
    requires k < |content| ==> !IsWhiteSpace(content[k])
    requires forall j :: k <= j < e ==> content[j] != '\n'
    requires e < |content| ==> content[e] == '\n'
    ensures ExtractReferences(content) == TrimAll(NonEmpty(SplitOn(content[k..e], ReferenceSeparators)))
  {
    CaptureAfterText(content, i, k, e);
  }

  lemma CaptureAfterText(content: string, i: nat, k: nat, e: nat)
    requires LabelAt(content, i)
    requires forall j :: 0 <= j < i ==> !LabelAt(content, j)
    requires i + |ReferencesLabel| <= k <= e <= |content|
    requires forall j :: i + |ReferencesLabel| <= j < k ==> IsWhiteSpace(content[j])
    requires k < |content| ==> !IsWhiteSpace(content[k])
    requires forall j :: k <= j < e ==> content[j] != '\n'
    requires e < |content| ==> content[e] == '\n'
    ensures content != "" && CapturedText(content) == Some(content[k..e])
  {
    FindLabelIs(content, 0, i);
    SkipWhiteSpaceTo(content, i + |ReferencesLabel|, k);
    LineEndIs(content, k, e);
    assert CapturedText(content) == Some(content[SkipWhiteSpace(content, i + |ReferencesLabel|)..LineEnd(content, k)]);
  }

  /** With the label at the start, the capture is the rest of the text after the whitespace that follows it, up to a line break. */
  lemma CaptureAfterLeadingLabel(content: string, k: nat)
    requires LabelAt(content, 0)
    requires |ReferencesLabel| <= k <= |content|
    requires forall j :: |ReferencesLabel| <= j < k ==> IsWhiteSpace(content[j])
    requires k < |content| ==> !IsWhiteSpace(content[k])
    requires forall j :: k <= j < |content| ==> content[j] != '\n'
    ensures CapturedText(content) == Some(content[k..])
  {
    assert FindLabel(content, 0) == Some(0);
    SkipWhiteSpaceTo(content, |ReferencesLabel|, k);
    LineEndAtEnd(content, k);
    assert CapturedText(content) == Some(content[k..LineEnd(content, k)]);
    assert content[k..|content|] == content[k..];
  }

  /** The references after a leading label are the captured text's pieces, non-empty, trimmed. */
  lemma ReferencesAfterLeadingLabel(content: string, k: nat)
    requires LabelAt(content, 0)
    requires |ReferencesLabel| <= k <= |content|
    requires forall j :: |ReferencesLabel| <= j < k ==> IsWhiteSpace(content[j])
    requires k < |content| ==> !IsWhiteSpace(content[k])
    requires forall j :: k <= j < |content| ==> content[j] != '\n'
    ensures ExtractReferences(content) == TrimAll(NonEmpty(SplitOn(content[k..], ReferenceSeparators)))
  {
    CaptureAfterLeadingLabel(content, k);
  }

  lemma NothingAfterLabelReadsBack()
    ensures TrimAll(NonEmpty(SplitOn("", ReferenceSeparators))) == []
  {
    assert SplitOn("", ReferenceSeparators) == [""];
    assert NonEmpty([""]) == [] + NonEmpty([""][1..]);
  }

  lemma TrimAllTrimmed(names: seq<string>)
    requires forall k :: 0 <= k < |names| ==> IsTrimmed(names[k])
    ensures TrimAll(names) == names
  {
    forall i | 0 <= i < |names| ensures TrimAll(names)[i] == names[i] {
      TrimOfTrimmed(names[i]);
    }
  }

  /** Splitting comma-joined names, dropping empty pieces and trimming gives the names back. */
  lemma JoinedNamesReadBack(names: seq<string>)
    requires forall k :: 0 <= k < |names| ==> names[k] != "" && IsTrimmed(names[k]) && NoneOf(names[k], ReferenceSeparators)
    ensures TrimAll(NonEmpty(SplitOn(Join(names, ","), ReferenceSeparators))) == names
  {
    if names == [] {
      NothingAfterLabelReadsBack();
    } else {
      SplitJoin(names, ',', ReferenceSeparators);
      TrimAllTrimmed(names);
    }
  }

  /**
   * After a matching label and one space, a line that does not start with whitespace is read
   * as a whole, split and trimmed.
   */
  lemma LabelledLine(head: string, rest: string)
    requires |head| == |ReferencesLabel| + 1 && LabelAt(head, 0) && head[|ReferencesLabel|] == ' '
    requires rest == [] || !IsWhiteSpace(rest[0])
    requires NoneOf(rest, {'\n'})
    ensures ExtractReferences(head + rest) == TrimAll(NonEmpty(SplitOn(rest, ReferenceSeparators)))
  {
    var content := head + rest;
    var k := |head|;
    assert LabelAt(content, 0) by {
      forall j | 0 <= j < |ReferencesLabel| ensures content[j] == head[j] {}
    }
    assert content[k..] == rest;
    assert forall j :: k <= j < |content| ==> content[j] != '\n' by {
      forall j | k <= j < |content| ensures content[j] != '\n' {
        assert content[j] == rest[j - k];
        assert rest[j - k] in rest;
      }
    }
    assert k < |content| ==> !IsWhiteSpace(content[k]) by {
      if k < |content| {
        assert content[k] == rest[0];
      }
    }
    assert forall j :: |ReferencesLabel| <= j < k ==> IsWhiteSpace(content[j]) by {
      forall j | |ReferencesLabel| <= j < k ensures IsWhiteSpace(content[j]) {
        assert j == |ReferencesLabel| && content[j] == head[j];
      }
    }
    ReferencesAfterLeadingLabel(content, k);
  }

  /** After "References: ", a line without a leading space is read as a whole, split and trimmed. */
  lemma ReferencesLine(rest: string)
    requires rest == [] || !IsWhiteSpace(rest[0])
    requires NoneOf(rest, {'\n'})
    ensures ExtractReferences("References: " + rest) == TrimAll(NonEmpty(SplitOn(rest, ReferenceSeparators)))
  {
    var head := "References: ";
    assert |head| == |ReferencesLabel| + 1 && head[|ReferencesLabel|] == ' ';
    assert forall j :: 0 <= j < |ReferencesLabel| ==> head[j] == ReferencesLabel[j];
    LabelledLine(head, rest);
  }

  /** The case of the label does not matter: after "REFERENCES: " a line is read just as after "References: ". */
  lemma UpperCaseLabel(rest: string)
    requires rest == [] || !IsWhiteSpace(rest[0])
    requires NoneOf(rest, {'\n'})
    ensures ExtractReferences("REFERENCES: " + rest) == TrimAll(NonEmpty(SplitOn(rest, ReferenceSeparators)))
  {
    var head := "REFERENCES: ";
    assert |head| == |ReferencesLabel| + 1 && head[|ReferencesLabel|] == ' ';
    assert forall j :: 0 <= j < |ReferencesLabel| ==> LowerAscii(head[j]) == LowerAscii(ReferencesLabel[j]);
    LabelledLine(head, rest);
  }

  /** Comma-joined names free of separators and line breaks, not starting with whitespace, form a single line. */
  lemma JoinedLine(names: seq<string>)
    requires forall k :: 0 <= k < |names| ==> names[k] != "" && IsTrimmed(names[k]) && NoneOf(names[k], ReferenceSeparators + {'\n'})
    ensures forall k :: 0 <= k < |names| ==> NoneOf(names[k], ReferenceSeparators)
    ensures NoneOf(Join(names, ","), {'\n'})
    ensures Join(names, ",") == [] || !IsWhiteSpace(Join(names, ",")[0])
  {
    forall k | 0 <= k < |names| ensures NoneOf(names[k], ReferenceSeparators) && NoneOf(names[k], {'\n'}) {
      assert NoneOf(names[k], ReferenceSeparators + {'\n'});
    }
    JoinKeepsAbsent(names, ",", {'\n'});
    if |names| > 1 {
      assert Join(names, ",") == names[0] + "," + Join(names[1..], ",");
    }
  }

  /**
   * Reference names written after the label, comma-separated, are read back exactly, for
   * names that are non-empty, trimmed and free of separators and line breaks.
   */
  lemma ExtractJoinedReferences(names: seq<string>)
    requires forall k :: 0 <= k < |names| ==> names[k] != "" && IsTrimmed(names[k]) && NoneOf(names[k], ReferenceSeparators + {'\n'})
    ensures ExtractReferences("References: " + Join(names, ",")) == names
  {
    JoinedLine(names);
    ReferencesLine(Join(names, ","));
    JoinedNamesReadBack(names);
  }

  /** Splitting "x, ,y" gives x, a single space, and y. */
  lemma SplitBlankPiece(x: string, y: string)
    requires NoneOf(x, ReferenceSeparators) && NoneOf(y, ReferenceSeparators)
    ensures SplitOn(x + ", ," + y, ReferenceSeparators) == [x, " ", y]
  {
    assert x + ", ," + y == x + [','] + (" " + [','] + y);
    assert NoneOf(" ", ReferenceSeparators);
    SplitWithoutSeparator(y, ReferenceSeparators);
    SplitAtSeparator(" ", ',', y, ReferenceSeparators);
    SplitAtSeparator(x, ',', " " + [','] + y, ReferenceSeparators);
  }

  /** "x, ,y" is one line that does not start with whitespace. */
  lemma BlankPieceLine(x: string, y: string)
    requires x != "" && IsTrimmed(x) && NoneOf(x, {'\n'}) && NoneOf(y, {'\n'})
    ensures NoneOf(x + ", ," + y, {'\n'})
    ensures !IsWhiteSpace((x + ", ," + y)[0])
  {
    var rest := x + ", ," + y;
    forall c | c in rest ensures c != '\n' {
      var i :| 0 <= i < |rest| && rest[i] == c;
      if i < |x| {
        assert x[i] in x;
      } else if i >= |x| + 3 {
        assert y[i - |x| - 3] in y;
      }
    }
  }

  /**
   * A piece made only of spaces is not dropped: between two references it becomes an
   * empty reference after trimming.
   */
  lemma BlankPieceBecomesEmptyReference(x: string, y: string)
    requires x != "" && IsTrimmed(x) && NoneOf(x, ReferenceSeparators + {'\n'})
    requires y != "" && IsTrimmed(y) && NoneOf(y, ReferenceSeparators + {'\n'})
    ensures ExtractReferences("References: " + (x + ", ," + y)) == [x, "", y]
  {
    assert NoneOf(x, ReferenceSeparators) && NoneOf(x, {'\n'});
    assert NoneOf(y, ReferenceSeparators) && NoneOf(y, {'\n'});
    BlankPieceLine(x, y);
    ReferencesLine(x + ", ," + y);
    SplitBlankPiece(x, y);
    BlankPieceTrimmed(x, y);
  }

  lemma BlankPieceTrimmed(x: string, y: string)
    requires x != "" && IsTrimmed(x) && y != "" && IsTrimmed(y)
    ensures TrimAll(NonEmpty([x, " ", y])) == [x, "", y]
  {
    var pieces := [x, " ", y];
    assert forall k :: 0 <= k < |pieces| ==> pieces[k] != "";
    TrimOfTrimmed(x);
    TrimOfTrimmed(y);
    BlankTrimmedAway(" ");
    assert TrimAll(pieces) == [Trim(x), Trim(" "), Trim(y)];
  }

  lemma BlankTrimmedAway(s: string)
    requires IsBlank(s)
    ensures Trim(s) == ""
  {
  }

  /** One transcript line: the role's label, a colon, and the content ("" for none). */
  function MessageLine(m: ChatMessage): string {
    RoleLabel(m.role) + ": " + m.content.GetOr("")
  }

  function HistoryLines(history: ChatHistory): (r: seq<string>)
    ensures |r| == |history| && forall k :: 0 <= k < |history| ==> r[k] == MessageLine(history[k])
  {
    seq(|history|, k requires 0 <= k < |history| => MessageLine(history[k]))
  }

  /** `FormatChatHistoryForTracing`: one line per message, joined with line breaks; "" for an empty history. */
  function FormatChatHistoryForTracing(history: ChatHistory): string {
    if |history| == 0 then "" else Join(HistoryLines(history), "\n")
  }

  /** When no message holds a line break, the trace text splits back into exactly one line per message. */
  lemma FormattedHistorySplitsBack(history: ChatHistory)
    requires |history| >= 1
    requires forall k :: 0 <= k < |history| ==> NoneOf(history[k].content.GetOr(""), {'\n'})
    ensures SplitOn(FormatChatHistoryForTracing(history), {'\n'}) == HistoryLines(history)
  {
    var lines := HistoryLines(history);
    forall k | 0 <= k < |lines| ensures NoneOf(lines[k], {'\n'}) {
      var m := history[k];
      assert NoneOf(RoleLabel(m.role), {'\n'});
    }
    SplitJoin(lines, '\n', {'\n'});
  }

  /** The request body: the message, the chat id (absent when the client sent null) and the user. */
  datatype ChatRequest = ChatRequest(message: string, chatId: Option<string>, userId: string)

  /** The response body with its HTTP status. */
  datatype ChatResponse = ChatResponse(status: nat, message: string, agentsUsed: seq<string>, references: seq<string>, chatId: string)

  /** What the first half of a turn hands to the second. */
  datatype Turn = Turn(chatId: string, responseId: string, message: string, activity: Option<Activity>)

  /** The chat's transcript, or a new one holding only the system prompt. */
  function Seeded(histories: map<string, ChatHistory>, chatId: string): ChatHistory {
    if chatId in histories then histories[chatId] else [SystemMessage(SystemPrompt)]
  }

  /** The text of the orchestrator's reply to a stream: its last message's content, "" for none. */
  function ReplyText(items: seq<StreamItem>): string {
    LastMessage(items).GetOr(NoResponse).content.GetOr("")
  }

  /** The evaluation comment: how many agents were used, and which. */
  function AgentUsageComment(agentsUsed: seq<string>): string {
    "Used " + Decimal(|agentsUsed|) + " agents: " + Join(agentsUsed, ", ")
  }

  /** The trace events of a completed turn: the assistant message, then the agent-usage evaluation when agents were used. */
  function ReplyEvents(turn: Turn, reply: string, agentsUsed: seq<string>): seq<TraceEvent> {
    [AssistantMessageEvent(turn.chatId, turn.responseId, reply, |turn.message| as real / 4.0, |reply| as real / 4.0)]
    + (if |agentsUsed| > 0
       then [TraceEvaluation(turn.chatId, turn.responseId, "AgentUsage", |agentsUsed| as real, AgentUsageComment(agentsUsed))]
       else [])
  }

  /** The three fixed agent-tool pairs a turn registers, registered in turn, update the map in that order. */
  lemma DefaultPairsRegistered(agentToolMap: map<string, string>)
    ensures Registered(Registered(Registered(agentToolMap, "FAQAgent", "SearchTool"), "AdminAgent", "EmailTool"),
                       "OrchestratorAgent", "IntentTool")
      == agentToolMap["FAQAgent" := "SearchTool"]["AdminAgent" := "EmailTool"]["OrchestratorAgent" := "IntentTool"]
  {
  }

  class ChatController {
    /** `_chatHistories`: the transcript of each chat. */
    var chatHistories: map<string, ChatHistory>
    const orchestrator: OrchestratorAgent
    const tracer: GenAITracer

    /** Every transcript opens with the system prompt. */
    predicate HistoriesSeeded()
      reads this
    {
      forall chatId :: chatId in chatHistories ==>
        |chatHistories[chatId]| >= 1 && chatHistories[chatId][0] == SystemMessage(SystemPrompt)
    }

    constructor (orchestrator: OrchestratorAgent, tracer: GenAITracer)
      ensures this.orchestrator == orchestrator && this.tracer == tracer
      ensures chatHistories == map[] && HistoriesSeeded()
    {
      this.orchestrator := orchestrator;
      this.tracer := tracer;
      chatHistories := map[];
    }

    /**
     * The first half of `PostAsync`: picks the chat id, seeds a new transcript with the system
     * prompt, appends the user message, points the tools at the chat, clears the chat's
     * intent, registers the agent-tool pairs and tells the plugin the chat id.
     */
    method BeginTurn(request: ChatRequest, chatGuid: string, responseGuid: string, plugin: AgentPlugin?,
                     intentTracker: IntentTracker, intentTool: IntentTool, searchTool: SearchTool, listened: bool)
      returns (turn: Turn, events: seq<TraceEvent>)
      modifies this, tracer, intentTracker, intentTool, searchTool, plugin
      ensures turn.chatId == request.chatId.GetOr(chatGuid)
      ensures turn.responseId == turn.chatId + "/" + responseGuid
      ensures turn.message == request.message
      ensures chatHistories ==
        old(chatHistories)[turn.chatId := Seeded(old(chatHistories), turn.chatId) + [UserMessage(request.message)]]
      ensures old(HistoriesSeeded()) ==> HistoriesSeeded()
      ensures searchTool.currentChatId == turn.chatId && searchTool.currentAgentName == "FAQAgent"
      ensures intentTool.currentChatId == turn.chatId
      ensures intentTool.lastDetectedIntent == old(intentTool.lastDetectedIntent)
      ensures intentTool.lastConfidenceScore == old(intentTool.lastConfidenceScore)
      ensures intentTracker.GetIntentInfo(turn.chatId) == EmptyIntentInfo
      ensures forall other :: other != turn.chatId ==> intentTracker.GetIntentInfo(other) == old(intentTracker.GetIntentInfo(other))
      ensures old(intentTracker.lastChatId) == Some(turn.chatId) ==> intentTracker.LastFieldsReset()
      ensures old(intentTracker.lastChatId) != Some(turn.chatId) ==>
        intentTracker.lastChatId == old(intentTracker.lastChatId) && intentTracker.lastQuery == old(intentTracker.lastQuery)
        && intentTracker.lastIntent == old(intentTracker.lastIntent)
        && intentTracker.lastConfidenceScore == old(intentTracker.lastConfidenceScore)
      ensures tracer.agentToolMap ==
        old(tracer.agentToolMap)["FAQAgent" := "SearchTool"]["AdminAgent" := "EmailTool"]["OrchestratorAgent" := "IntentTool"]
      ensures plugin != null ==>
        plugin.currentChatId == turn.chatId && plugin.agents == old(plugin.agents)
        && plugin.agentChatHistories == old(plugin.agentChatHistories)
      ensures events ==
        [UserMessageEvent(turn.chatId, request.message, request.userId)]
        + (if turn.chatId in old(chatHistories) then [] else [SystemMessageEvent(turn.chatId, SystemPrompt)])
        + [ConversationHistoryEvent(turn.chatId, FormatChatHistoryForTracing(chatHistories[turn.chatId]))]
      ensures turn.activity == StartAgentInvocation(turn.chatId, "OrchestratorAgent", request.message, listened)
    {
      var chatId := request.chatId.GetOr(chatGuid);
      var responseId := chatId + "/" + responseGuid;
      events := [UserMessageEvent(chatId, request.message, request.userId)];
      var chatHistory: ChatHistory;
      if chatId in chatHistories {
        chatHistory := chatHistories[chatId];
      } else {
        chatHistory := [SystemMessage(SystemPrompt)];
        events := events + [SystemMessageEvent(chatId, SystemPrompt)];
      }
      chatHistory := chatHistory + [UserMessage(request.message)];
      chatHistories := chatHistories[chatId := chatHistory];
      PointToolsAt(chatId, plugin, intentTracker, intentTool, searchTool);
      events := events + [ConversationHistoryEvent(chatId, FormatChatHistoryForTracing(chatHistory))];
      var activity := StartAgentInvocation(chatId, "OrchestratorAgent", request.message, listened);
      turn := Turn(chatId, responseId, request.message, activity);
    }

    /**
     * Points the search and intent tools at the chat, clears the chat's intent, registers
     * the three agent-tool pairs and tells the plugin the chat id.
     */
    method PointToolsAt(chatId: string, plugin: AgentPlugin?, intentTracker: IntentTracker, intentTool: IntentTool,
                        searchTool: SearchTool)
      modifies tracer, intentTracker, intentTool, searchTool, plugin
      ensures searchTool.currentChatId == chatId && searchTool.currentAgentName == "FAQAgent"
      ensures intentTool.currentChatId == chatId
      ensures intentTool.lastDetectedIntent == old(intentTool.lastDetectedIntent)
      ensures intentTool.lastConfidenceScore == old(intentTool.lastConfidenceScore)
      ensures intentTracker.GetIntentInfo(chatId) == EmptyIntentInfo
      ensures forall other :: other != chatId ==> intentTracker.GetIntentInfo(other) == old(intentTracker.GetIntentInfo(other))
      ensures old(intentTracker.lastChatId) == Some(chatId) ==> intentTracker.LastFieldsReset()
      ensures old(intentTracker.lastChatId) != Some(chatId) ==>
        intentTracker.lastChatId == old(intentTracker.lastChatId) && intentTracker.lastQuery == old(intentTracker.lastQuery)
        && intentTracker.lastIntent == old(intentTracker.lastIntent)
        && intentTracker.lastConfidenceScore == old(intentTracker.lastConfidenceScore)
      ensures tracer.agentToolMap ==
        old(tracer.agentToolMap)["FAQAgent" := "SearchTool"]["AdminAgent" := "EmailTool"]["OrchestratorAgent" := "IntentTool"]
      ensures plugin != null ==>
        plugin.currentChatId == chatId && plugin.agents == old(plugin.agents)
        && plugin.agentChatHistories == old(plugin.agentChatHistories)
    {
      searchTool.SetContext(chatId, "FAQAgent");
      intentTool.SetContext(chatId);
      intentTracker.Clear(chatId);
      DefaultPairsRegistered(tracer.agentToolMap);
      tracer.RegisterAgentTool("FAQAgent", "SearchTool");
      tracer.RegisterAgentTool("AdminAgent", "EmailTool");
      tracer.RegisterAgentTool("OrchestratorAgent", "IntentTool");
      if plugin != null {
        plugin.SetChatId(chatId);
      }
    }

    /**
     * The second half of `PostAsync`: when the orchestrator throws, a 500 reply with the
     * message, the transcript left with the user message only and the aggregator untouched;
     * otherwise the reply is appended to the transcript, both bags are drained into the
     * response, and with no tracked references the reply text is searched for them.
     */
    method FinishTurn(turn: Turn, run: AgentRun, intentTracker: IntentTracker, searchTracker: SearchTracker)
      returns (response: ChatResponse, events: seq<TraceEvent>, completion: Option<AgentCompletion>)
      requires turn.chatId in chatHistories
      modifies this, orchestrator
      ensures run.Threw? ==>
        && response == ChatResponse(500, "An error occurred: " + run.message, [], [], turn.chatId)
        && chatHistories == old(chatHistories)
        && orchestrator.usedAgents == old(orchestrator.usedAgents)
        && orchestrator.documentReferences == old(orchestrator.documentReferences)
        && events == [] && completion.None?
      ensures run.Streamed? ==>
        var reply := ReplyText(run.items);
        && chatHistories == old(chatHistories)[turn.chatId := old(chatHistories)[turn.chatId] + [AssistantMessage(reply)]]
        && response.status == 200 && response.message == reply && response.chatId == turn.chatId
        && multiset(response.agentsUsed) == old(orchestrator.usedAgents)
        && (old(orchestrator.documentReferences) != multiset{} ==>
              multiset(response.references) == old(orchestrator.documentReferences))
        && (old(orchestrator.documentReferences) == multiset{} ==> response.references == ExtractReferences(reply))
        && orchestrator.usedAgents == multiset{} && orchestrator.documentReferences == multiset{}
        && completion == tracer.CompleteAgentInvocation(turn.activity, reply, true, intentTracker, searchTracker)
        && events == ReplyEvents(turn, reply, response.agentsUsed)
      ensures old(HistoriesSeeded()) ==> HistoriesSeeded()
    {
      match run {
        case Threw(message) =>
          response := ChatResponse(500, "An error occurred: " + message, [], [], turn.chatId);
          events, completion := [], None;
        case Streamed(items) =>
          var chatHistory := chatHistories[turn.chatId];
          var invoked := orchestrator.InvokeAsync(Some(chatHistory), items);
          var reply := invoked.value.content.GetOr("");
          completion := tracer.CompleteAgentInvocation(turn.activity, reply, true, intentTracker, searchTracker);
          chatHistories := chatHistories[turn.chatId := chatHistory + [AssistantMessage(reply)]];
          var agentsUsed, references := DrainAggregator(reply);
          response := ChatResponse(200, reply, agentsUsed, references, turn.chatId);
          events := ReplyEvents(turn, reply, agentsUsed);
      }
    }

    /**
     * Drains both bags of the orchestrator into the response lists; with no tracked
     * references the reply text is searched for them instead.
     */
    method DrainAggregator(reply: string) returns (agentsUsed: seq<string>, references: seq<string>)
      modifies orchestrator
      ensures multiset(agentsUsed) == old(orchestrator.usedAgents)
      ensures old(orchestrator.documentReferences) != multiset{} ==>
        multiset(references) == old(orchestrator.documentReferences)
      ensures old(orchestrator.documentReferences) == multiset{} ==> references == ExtractReferences(reply)
      ensures orchestrator.usedAgents == multiset{} && orchestrator.documentReferences == multiset{}
    {
      agentsUsed := orchestrator.GetAndClearUsedAgents();
      references := orchestrator.GetAndClearDocumentReferences();
      if |references| == 0 {
        references := ExtractReferences(reply);
      }
    }
  }
}
