/**
 * The search tool's result loop: which search hits become sources, which titles are
 * reported as references (first-seen order, no repeats, no empty titles), and what a
 * search leaves in the orchestrator's aggregator and the search tracker.
 */
module DocumentSearch {
  import opened Wrappers
  import opened Strings
  import opened Orchestration
  import opened SearchTracking
  import opened Tracing

  /** A search hit's document: selected fields, each possibly null. */
  type SearchDocument = map<string, Option<string>>

  /** One formatted source: a title and its content. */
  datatype Source = Source(title: string, content: string)

  /** The outcome of the search service call: the hits in rank order, or the exception's message. */
  datatype SearchOutcome = SearchFailed(message: string) | Hits(documents: seq<SearchDocument>)

  /** What `SearchDocuments` returns, before serialisation. */
  datatype SearchResult =
    | Found(query: string, references: seq<Source>, sourceReferences: seq<string>)
    | SearchError(query: string, answer: string)

  const SearchErrorPrefix: string := "An error occurred while searching: "

  /** A hit with both a title and a chunk field becomes a source; a null title reads "Untitled" and a null chunk "". */
  function SourceOf(document: SearchDocument): (r: Option<Source>)
    ensures r.Some? <==> "title" in document && "chunk" in document
    ensures r.Some? ==>
      && (document["title"].Some? ==> r.value.title == document["title"].value)
      && (document["title"].None? ==> r.value.title == "Untitled")
      && r.value.content == document["chunk"].GetOr("")
  {
    if "title" in document && "chunk" in document then
      Some(Source(document["title"].GetOr("Untitled"), document["chunk"].GetOr("")))
    else None
  }

  /** The sources of the hits, in order. */
  function Sources(documents: seq<SearchDocument>): seq<Source>
    decreases |documents|
  {
    if documents == [] then []
    else
      var last := SourceOf(documents[|documents| - 1]);
      Sources(documents[..|documents| - 1]) + (if last.Some? then [last.value] else [])
  }

  /** The sources of consecutive runs of hits are those of each run, in hit order. */
  lemma {:induction false} SourcesAppend(a: seq<SearchDocument>, b: seq<SearchDocument>)
    ensures Sources(a + b) == Sources(a) + Sources(b)
    decreases |b|
  {
    if b != [] {
      var init := b[..|b| - 1];
      SourcesAppend(a, init);
      assert (a + b)[..|a + b| - 1] == a + init;
      assert (a + b)[|a + b| - 1] == b[|b| - 1];
    } else {
      assert a + b == a;
    }
  }

  /** The sources are exactly the contributions of the hits that carry both fields; each hit gives at most one. */
  lemma {:induction false} SourcesAreHitsWithBothFields(documents: seq<SearchDocument>)
    ensures |Sources(documents)| <= |documents|
    ensures forall s :: s in Sources(documents) <==> exists i :: 0 <= i < |documents| && SourceOf(documents[i]) == Some(s)
    decreases |documents|
  {
    if documents != [] {
      var init := documents[..|documents| - 1];
      SourcesAreHitsWithBothFields(init);
      forall s ensures (exists i :: 0 <= i < |documents| && SourceOf(documents[i]) == Some(s)) <==>
                       (exists i :: 0 <= i < |init| && SourceOf(init[i]) == Some(s)) || SourceOf(documents[|documents| - 1]) == Some(s)
      {
        if exists i :: 0 <= i < |documents| && SourceOf(documents[i]) == Some(s) {
          var i :| 0 <= i < |documents| && SourceOf(documents[i]) == Some(s);
          if i < |init| {
            assert init[i] == documents[i];
          }
        }
        if exists i :: 0 <= i < |init| && SourceOf(init[i]) == Some(s) {
          var i :| 0 <= i < |init| && SourceOf(init[i]) == Some(s);
          assert documents[i] == init[i];
        }
      }
    }
  }

  function Titles(sources: seq<Source>): (r: seq<string>)
    ensures |r| == |sources| && forall i :: 0 <= i < |sources| ==> r[i] == sources[i].title
  {
    seq(|sources|, i requires 0 <= i < |sources| => sources[i].title)
  }

  /** The titles kept as references: each non-empty title the first time it appears. */
  function FirstSeen(titles: seq<string>): seq<string>
    decreases |titles|
  {
    if titles == [] then []
    else
      var kept := FirstSeen(titles[..|titles| - 1]);
      var t := titles[|titles| - 1];
      if t != "" && t !in kept then kept + [t] else kept
  }

  /** A reference is exactly a non-empty title, and none is reported twice. */
  lemma {:induction false} FirstSeenMembers(titles: seq<string>)
    ensures forall t :: t in FirstSeen(titles) <==> t in titles && t != ""
    ensures forall i, j :: 0 <= i < j < |FirstSeen(titles)| ==> FirstSeen(titles)[i] != FirstSeen(titles)[j]
    decreases |titles|
  {
    if titles != [] {
      var init := titles[..|titles| - 1];
      FirstSeenMembers(init);
      assert titles == init + [titles[|titles| - 1]];
    }
  }

  /** The index of the first occurrence of `x` in `s`. */
  function FirstIndex(s: seq<string>, x: string): (i: nat)
    requires x in s
    ensures i < |s| && s[i] == x && x !in s[..i]
    decreases |s|
  {
    if s[0] == x then 0
    else
      var i := 1 + FirstIndex(s[1..], x);
      assert s[..i] == [s[0]] + s[1..][..i - 1];
      i
  }

  lemma {:induction false} FirstIndexExtend(s: seq<string>, y: string, x: string)
    requires x in s
    ensures FirstIndex(s + [y], x) == FirstIndex(s, x)
    decreases |s|
  {
    if s[0] != x {
      assert (s + [y])[1..] == s[1..] + [y];
      FirstIndexExtend(s[1..], y, x);
    }
  }

  /** References are listed in the order their titles first appear among the sources. */
  lemma {:induction false} FirstSeenOrder(titles: seq<string>)
    ensures forall t :: t in FirstSeen(titles) ==> t in titles
    ensures forall i, j :: 0 <= i < j < |FirstSeen(titles)| ==>
      FirstIndex(titles, FirstSeen(titles)[i]) < FirstIndex(titles, FirstSeen(titles)[j])
    decreases |titles|
  {
    FirstSeenMembers(titles);
    if titles != [] {
      var init := titles[..|titles| - 1];
      var t := titles[|titles| - 1];
      assert titles == init + [t];
      FirstSeenOrder(init);
      FirstSeenMembers(init);
      var kept := FirstSeen(init);
      forall x | x in kept ensures FirstIndex(titles, x) == FirstIndex(init, x) {
        FirstIndexExtend(init, t, x);
      }
      var seen := FirstSeen(titles);
      if t != "" && t !in kept {
        assert t !in init;
        assert FirstIndex(titles, t) == |init|;
        assert seen == kept + [t];
        forall i, j | 0 <= i < j < |seen| ensures FirstIndex(titles, seen[i]) < FirstIndex(titles, seen[j]) {
          assert seen[i] == kept[i];
          if j < |kept| {
            assert seen[j] == kept[j];
          } else {
            assert FirstIndex(titles, seen[i]) == FirstIndex(init, kept[i]) < |init|;
          }
        }
      } else {
        assert seen == kept;
      }
    }
  }

  /** The references recorded for the hits. */
  function UsedDocuments(documents: seq<SearchDocument>): seq<string> {
    FirstSeen(Titles(Sources(documents)))
  }

  /** The used documents passed to the aggregator as a list of non-null names. */
  function AsNames(used: seq<string>): (r: seq<Option<string>>)
    ensures |r| == |used| && forall i :: 0 <= i < |used| ==> r[i] == Some(used[i])
  {
    seq(|used|, i requires 0 <= i < |used| => Some(used[i]))
  }

  /** The `foreach` over the hits: builds the sources and the used-document list. */
  method CollectSources(documents: seq<SearchDocument>) returns (sources: seq<Source>, used: seq<string>)
    ensures sources == Sources(documents)
    ensures used == UsedDocuments(documents)
  {
    sources, used := [], [];
    var i := 0;
    while i < |documents|
      invariant 0 <= i <= |documents|
      invariant sources == Sources(documents[..i])
      invariant used == FirstSeen(Titles(sources))
    {
      assert documents[..i + 1][..i] == documents[..i];
      var document := documents[i];
      if "title" in document && "chunk" in document {
        var title := document["title"].GetOr("Untitled");
        var content := document["chunk"].GetOr("");
        ghost var before := sources;
        sources := sources + [Source(title, content)];
        assert Titles(sources)[..|before|] == Titles(before);
        if title != "" && title !in used {
          used := used + [title];
        }
      }
      i := i + 1;
    }
    assert documents[..i] == documents;
  }

  /** What a traced search records: the activity and its completion. */
  datatype SearchTrace = SearchTrace(activity: Option<Activity>, completion: Option<ToolCompletion>)

  /** The tags a search activity is started with. */
  function SearchToolTags(agentName: string, query: string): map<string, string> {
    map[AgentNameTag := agentName, ToolNameTag := "SearchTool", ToolInputTag := query]
  }

  /** A started search activity carries the agent's name and reads back as the search tool. */
  lemma SearchActivityNames(chatId: string, agentName: string, query: string, listened: bool)
    ensures var a := StartActivity(ToolOperationName("SearchTool"), chatId, SearchToolTags(agentName, query), listened);
      a.Some? ==> AgentNameTag in a.value.tags && a.value.tags[AgentNameTag] == agentName
                  && ExtractToolName(a.value.operationName) == "SearchTool"
  {
    ShorterNotContains("SearchTool", ToolPrefix);
    ToolActivityReadsBack("SearchTool", chatId, SearchToolTags(agentName, query), listened);
    assert AgentNameTag != ToolNameTag by { assert |AgentNameTag| != |ToolNameTag|; }
    assert AgentNameTag != ToolInputTag by { assert AgentNameTag[7] != ToolInputTag[7]; }
    assert SearchToolTags(agentName, query)[AgentNameTag] == agentName;
  }

  class SearchTool {
    /** `_currentChatId`. */
    var currentChatId: string
    /** `_currentAgentName`. */
    var currentAgentName: string
    /** `_genAITracer`, absent when none is given. */
    const tracer: GenAITracer?

    constructor (tracer: GenAITracer?)
      ensures this.tracer == tracer && currentChatId == "" && currentAgentName == ""
    {
      this.tracer := tracer;
      currentChatId, currentAgentName := "", "";
    }

    method SetContext(chatId: string, agentName: string)
      modifies this
      ensures currentChatId == chatId && currentAgentName == agentName
    {
      currentChatId, currentAgentName := chatId, agentName;
    }

    /** The search is traced only with a tracer, a chat and an agent name. */
    predicate Traced()
      reads this
    {
      tracer != null && currentChatId != "" && currentAgentName != ""
    }

    /** Completes the sampled search activity, which registers the agent with the search tool once more. */
    method CompleteSearchActivity(activity: Option<Activity>, query: string, output: ToolOutput, success: bool)
      returns (completion: Option<ToolCompletion>)
      requires Traced() && activity.Some?
      requires activity == StartActivity(ToolOperationName("SearchTool"), currentChatId, SearchToolTags(currentAgentName, query), true)
      requires tracer.agentToolMap == Registered(tracer.agentToolMap, currentAgentName, "SearchTool")
      modifies tracer
      ensures tracer.agentToolMap == old(tracer.agentToolMap)
      ensures completion == Some(ToolCompletion(output, success, if success then Ok else Error, "SearchTool"))
    {
      SearchActivityNames(currentChatId, currentAgentName, query, true);
      completion := tracer.CompleteToolInvocation(activity, output, success);
    }

    /**
     * `SearchDocuments`: on success the hits with a title and a chunk become sources, the
     * distinct non-empty titles are added to the aggregator and recorded in the search
     * tracker; on failure an error answer with no references is returned and nothing is recorded.
     */
    method SearchDocuments(query: string, outcome: SearchOutcome, orchestrator: OrchestratorAgent,
                           searchTracker: SearchTracker, listened: bool)
      returns (result: SearchResult, trace: Option<SearchTrace>)
      modifies orchestrator, searchTracker, tracer
      ensures Traced() ==> tracer.agentToolMap == Registered(old(tracer.agentToolMap), currentAgentName, "SearchTool")
      ensures tracer != null && !Traced() ==> tracer.agentToolMap == old(tracer.agentToolMap)
      ensures trace.Some? <==> Traced()
      ensures trace.Some? ==>
        && trace.value.activity == StartActivity(ToolOperationName("SearchTool"), currentChatId,
                                                 SearchToolTags(currentAgentName, query), listened)
        && (trace.value.completion.Some? <==> trace.value.activity.Some?)
      ensures orchestrator.usedAgents == old(orchestrator.usedAgents)
      ensures outcome.SearchFailed? ==>
        && result == SearchError(query, SearchErrorPrefix + outcome.message)
        && orchestrator.documentReferences == old(orchestrator.documentReferences)
        && searchTracker.GetSearchInfo() == old(searchTracker.GetSearchInfo())
        && (trace.Some? && trace.value.completion.Some? ==>
              trace.value.completion.value == ToolCompletion(Text("Error: " + outcome.message), false, Error, "SearchTool"))
      ensures outcome.Hits? ==>
        var used := UsedDocuments(outcome.documents);
        && result == Found(query, Sources(outcome.documents), used)
        && orchestrator.documentReferences == old(orchestrator.documentReferences) + CitedAll(AsNames(used))
        && searchTracker.GetSearchInfo() == SearchInfo(query, used)
        && (trace.Some? && trace.value.completion.Some? ==>
              trace.value.completion.value == ToolCompletion(SearchSummary(query, |used|, used), true, Ok, "SearchTool"))
    {
      var activity: Option<Activity> := None;
      if Traced() {
        activity := tracer.StartToolInvocation(currentChatId, currentAgentName, "SearchTool", query, listened);
        RegisteredTwice(old(tracer.agentToolMap), currentAgentName, "SearchTool");
      }
      var completion: Option<ToolCompletion> := None;
      match outcome {
        case Hits(documents) =>
          var sources, used := CollectSources(documents);
          orchestrator.AddDocumentReferences(Some(AsNames(used)));
          searchTracker.SetSearchInfo(query, used);
          result := Found(query, sources, used);
          if activity.Some? {
            completion := CompleteSearchActivity(activity, query, SearchSummary(query, |used|, used), true);
          }
        case SearchFailed(message) =>
          if activity.Some? {
            completion := CompleteSearchActivity(activity, query, Text("Error: " + message), false);
          }
          result := SearchError(query, SearchErrorPrefix + message);
      }
      trace := if Traced() then Some(SearchTrace(activity, completion)) else None;
    }
  }
}
