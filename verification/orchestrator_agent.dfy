/**
 * The orchestrator agent's process-wide turn aggregator (the "agents used" and
 * "document references" bags) and the last-message rule of its `InvokeAsync`.
 */
module Orchestration {
  import opened Wrappers
  import opened Strings
  import opened ChatModel

  /** The reply `InvokeAsync` falls back to when the stream holds no chat message. */
  const NoResponse: ChatMessage := AssistantMessage("No response generated")

  /** The message of the `ArgumentNullException` thrown for a null history. */
  const NullHistoryError: string := "Value cannot be null. (Parameter 'chatHistory')"

  /** What `AddDocumentReference` stores for one name: its trimmed form, unless it is null or blank. */
  function Cited(name: Option<string>): (r: multiset<string>)
    ensures r == multiset{} <==> (name.None? || IsBlank(name.value))
    ensures forall x :: x in r ==> x == Trim(name.value) && x != "" && IsTrimmed(x)
    ensures name.Some? && !IsBlank(name.value) ==> r == multiset{Trim(name.value)}
  {
    if name.Some? && !IsBlank(name.value) then
      TrimIdempotent(name.value);
      multiset{Trim(name.value)}
    else multiset{}
  }

  /** What adding each of `names` in turn stores. */
  function CitedAll(names: seq<Option<string>>): (r: multiset<string>)
    ensures |r| <= |names|
    decreases |names|
  {
    if names == [] then multiset{}
    else CitedAll(names[..|names| - 1]) + Cited(names[|names| - 1])
  }

  /** Citing one more name adds exactly what that name contributes. */
  lemma CitedAllSnoc(names: seq<Option<string>>, i: nat)
    requires i < |names|
    ensures CitedAll(names[..i + 1]) == CitedAll(names[..i]) + Cited(names[i])
  {
    assert names[..i + 1][..i] == names[..i];
  }

  /** Every reference the aggregator stores is a non-empty trimmed string. */
  lemma {:induction false} CitedAllTrimmed(names: seq<Option<string>>)
    ensures forall x :: x in CitedAll(names) ==> x != "" && IsTrimmed(x)
    decreases |names|
  {
    if names != [] {
      CitedAllTrimmed(names[..|names| - 1]);
    }
  }

  /** Duplicates are kept: citing the same non-blank name twice stores it twice. */
  lemma CitedTwice(name: string)
    requires !IsBlank(name)
    ensures CitedAll([Some(name), Some(name)])[Trim(name)] == 2
  {
    assert [Some(name), Some(name)][..1] == [Some(name)];
    assert [Some(name)][..0] == [];
  }

  /** The last chat message in the stream, if there is one. */
  function LastMessage(items: seq<StreamItem>): Option<ChatMessage>
    decreases |items|
  {
    if items == [] then None
    else if items[|items| - 1].Some? then items[|items| - 1]
    else LastMessage(items[..|items| - 1])
  }

  /** `LastMessage` finds a chat message exactly when the stream holds one. */
  lemma {:induction false} LastMessageFound(items: seq<StreamItem>)
    ensures LastMessage(items).Some? <==> exists i :: 0 <= i < |items| && items[i].Some?
    decreases |items|
  {
    if items != [] {
      var n := |items| - 1;
      if items[n].None? {
        var prefix := items[..n];
        LastMessageFound(prefix);
        if exists i :: 0 <= i < |items| && items[i].Some? {
          var i :| 0 <= i < |items| && items[i].Some?;
          assert prefix[i] == items[i];
        }
      }
    }
  }

  /** What `LastMessage` picks is a chat message of the stream after which no chat message follows. */
  lemma {:induction false} LastMessageIsLast(items: seq<StreamItem>)
    ensures LastMessage(items).Some? ==>
      exists i :: 0 <= i < |items| && items[i] == LastMessage(items) &&
        forall j :: i < j < |items| ==> items[j].None?
    decreases |items|
  {
    if items != [] {
      var n := |items| - 1;
      if items[n].None? && LastMessage(items).Some? {
        var prefix := items[..n];
        LastMessageIsLast(prefix);
        var i :| 0 <= i < n && prefix[i] == LastMessage(prefix) &&
          forall j :: i < j < n ==> prefix[j].None?;
        forall j | i < j < |items| ensures items[j].None? {
          if j < n {
            assert prefix[j] == items[j];
          }
        }
        assert items[i] == LastMessage(items);
      }
    }
  }

  class OrchestratorAgent {
    /** `_usedAgents`: the names of the agents dispatched to since the last drain. */
    var usedAgents: multiset<string>
    /** `_documentReferences`: the document titles cited since the last drain. */
    var documentReferences: multiset<string>

    constructor ()
      ensures usedAgents == multiset{} && documentReferences == multiset{}
    {
      usedAgents := multiset{};
      documentReferences := multiset{};
    }

    /** Records one more use of `agentName`, duplicates included. */
    method AddUsedAgent(agentName: string)
      modifies this
      ensures usedAgents == old(usedAgents) + multiset{agentName}
      ensures documentReferences == old(documentReferences)
    {
      usedAgents := usedAgents + multiset{agentName};
    }

    /** Takes every recorded agent name out of the bag, in no particular order. */
    method GetAndClearUsedAgents() returns (names: seq<string>)
      modifies this
      ensures multiset(names) == old(usedAgents)
      ensures usedAgents == multiset{}
      ensures documentReferences == old(documentReferences)
    {
      names := [];
      while usedAgents != multiset{}
        invariant multiset(names) + usedAgents == old(usedAgents)
        invariant documentReferences == old(documentReferences)
        decreases |usedAgents|
      {
        var name :| name in usedAgents;
        usedAgents := usedAgents - multiset{name};
        names := names + [name];
      }
    }

    /** Stores the trimmed name unless it is null, empty or whitespace only. */
    method AddDocumentReference(documentName: Option<string>)
      modifies this
      ensures documentReferences == old(documentReferences) + Cited(documentName)
      ensures usedAgents == old(usedAgents)
    {
      if documentName.Some? && !IsBlank(documentName.value) {
        documentReferences := documentReferences + multiset{Trim(documentName.value)};
      }
    }

    /** A null sequence is ignored; otherwise each name is added in turn. */
    method AddDocumentReferences(documentNames: Option<seq<Option<string>>>)
      modifies this
      ensures documentReferences == old(documentReferences) +
        (if documentNames.Some? then CitedAll(documentNames.value) else multiset{})
      ensures usedAgents == old(usedAgents)
    {
      if documentNames.Some? {
        var names := documentNames.value;
        var i := 0;
        while i < |names|
          invariant 0 <= i <= |names|
          invariant documentReferences == old(documentReferences) + CitedAll(names[..i])
          invariant usedAgents == old(usedAgents)
        {
          AddDocumentReference(names[i]);
          CitedAllSnoc(names, i);
          i := i + 1;
        }
        assert names[..|names|] == names;
      }
    }

    /** Takes every stored reference out of the bag, duplicates included, in no particular order. */
    method GetAndClearDocumentReferences() returns (references: seq<string>)
      modifies this
      ensures multiset(references) == old(documentReferences)
      ensures documentReferences == multiset{}
      ensures usedAgents == old(usedAgents)
    {
      references := [];
      while documentReferences != multiset{}
        invariant multiset(references) + documentReferences == old(documentReferences)
        invariant usedAgents == old(usedAgents)
        decreases |documentReferences|
      {
        var reference :| reference in documentReferences;
        documentReferences := documentReferences - multiset{reference};
        references := references + [reference];
      }
    }

    /**
     * `InvokeAsync(ChatHistory)`: a null history is rejected; otherwise the agent's
     * stream (`stream`, supplied from outside) is read to the end and its last chat
     * message is the reply, or "No response generated" when there is none.
     */
    method InvokeAsync(chatHistory: Option<ChatHistory>, stream: seq<StreamItem>) returns (r: Result<ChatMessage>)
      ensures chatHistory.None? ==> r == Failure(NullHistoryError)
      ensures chatHistory.Some? ==> r == Success(LastMessage(stream).GetOr(NoResponse))
    {
      if chatHistory.None? {
        return Failure(NullHistoryError);
      }
      var response: Option<ChatMessage> := None;
      var i := 0;
      while i < |stream|
        invariant 0 <= i <= |stream|
        invariant response == LastMessage(stream[..i])
      {
        assert stream[..i + 1][..i] == stream[..i];
        if stream[i].Some? {
          response := stream[i];
        }
        i := i + 1;
      }
      assert stream[..|stream|] == stream;
      r := Success(response.GetOr(NoResponse));
    }
  }
}
