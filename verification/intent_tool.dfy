/**
 * The intent tool: how the conversation-analysis response is read (top intent, the score
 * of every intent, the entities), what is stored when the reading succeeds, and the
 * fixed fallback decision used when the service call fails.
 */
module IntentRecognition {
  import opened Wrappers
  import opened Strings
  import opened IntentTracking
  import opened Tracing

  /** A parsed JSON document, as `JsonElement` sees it. */
  datatype Json =
    | JNull
    | JBool(b: bool)
    | JNumber(n: real)
    | JString(s: string)
    | JArray(items: seq<Json>)
    | JObject(props: map<string, Json>)

  const NotAnObject: string := "The requested operation requires an element of type 'Object'."
  const NotAString: string := "The requested operation requires an element of type 'String'."
  const NotANumber: string := "The requested operation requires an element of type 'Number'."
  const NotAnArray: string := "The requested operation requires an element of type 'Array'."

  /** `GetString()`: the text of a string, nothing for null, an exception for anything else. */
  function GetString(e: Json): Result<Option<string>> {
    match e
    case JString(s) => Success(Some(s))
    case JNull => Success(None)
    case _ => Failure(NotAString)
  }

  /** `GetDouble()`: the value of a number, an exception for anything else. */
  function GetDouble(e: Json): Result<real> {
    if e.JNumber? then Success(e.n) else Failure(NotANumber)
  }

  /** `EnumerateArray()`: the items of an array, an exception for anything else. */
  function EnumerateArray(e: Json): Result<seq<Json>> {
    if e.JArray? then Success(e.items) else Failure(NotAnArray)
  }

  const UnknownIntent: string := "unknown"
  const FallbackIntent: string := "informatieVergoedingen"
  const FallbackScore: real := 0.5
  const EmptyResponseError: string := "Empty response received from the API"

  /** The local variables the reading fills in: top intent, its confidence, all scores, the entities. */
  datatype Progress = Progress(topIntent: string, confidence: real, allIntents: map<string, real>, entities: seq<Entity>)

  /** Their values before the response is read. */
  const Initial: Progress := Progress(UnknownIntent, 0.0, map[], [])

  /** The confidence is the top intent's score when it has one, and 0 otherwise. */
  predicate Coherent(p: Progress) {
    && (p.topIntent in p.allIntents ==> p.confidence == p.allIntents[p.topIntent])
    && (p.topIntent !in p.allIntents ==> p.confidence == 0.0)
  }

  /**
   * One element of the intents array: its (category, score) pair, with "unknown" for a null
   * category; nothing when either property is absent; an exception when the element is not
   * an object or a property has the wrong type.
   */
  function IntentEntry(item: Json): (r: Result<Option<(string, real)>>)
    ensures r.Failure? <==>
      !item.JObject? ||
      ("category" in item.props && "confidenceScore" in item.props &&
       (!(item.props["category"].JString? || item.props["category"].JNull?) || !item.props["confidenceScore"].JNumber?))
    ensures r.Success? && r.value.Some? ==>
      && item.JObject? && "category" in item.props && "confidenceScore" in item.props
      && item.props["confidenceScore"] == JNumber(r.value.value.1)
      && (item.props["category"].JString? ==> r.value.value.0 == item.props["category"].s)
      && (item.props["category"].JNull? ==> r.value.value.0 == UnknownIntent)
  {
    if !item.JObject? then Failure(NotAnObject)
    else if "category" !in item.props || "confidenceScore" !in item.props then Success(None)
    else
      match (GetString(item.props["category"]), GetDouble(item.props["confidenceScore"]))
      case (Success(name), Success(score)) => Success(Some((name.GetOr(UnknownIntent), score)))
      case (Failure(e), _) => Failure(e)
      case (_, Failure(e)) => Failure(e)
  }

  /** The body of the intents loop: record the score, and take it as the confidence when it is the top intent's. */
  function IntentStep(p: Progress, entry: Option<(string, real)>): Progress {
    match entry
    case None => p
    case Some((name, score)) =>
      p.(allIntents := p.allIntents[name := score],
         confidence := if name == p.topIntent then score else p.confidence)
  }

  /** Where a loop stopped: the progress made, and whether an exception ended it. */
  datatype Fold = Fold(progress: Progress, aborted: bool)

  /** The intents loop, stopping at the first element that raises. */
  function FoldIntents(items: seq<Json>, p: Progress): Fold
    decreases |items|
  {
    if items == [] then Fold(p, false)
    else
      match IntentEntry(items[0])
      case Failure(_) => Fold(p, true)
      case Success(entry) => FoldIntents(items[1..], IntentStep(p, entry))
  }

  /** The (category, score) pairs of an intents array in order, or the first exception. */
  function IntentPairs(items: seq<Json>): Result<seq<(string, real)>>
    decreases |items|
  {
    if items == [] then Success([])
    else
      match IntentEntry(items[0])
      case Failure(e) => Failure(e)
      case Success(entry) =>
        match IntentPairs(items[1..])
        case Failure(e) => Failure(e)
        case Success(rest) => Success((if entry.Some? then [entry.value] else []) + rest)
  }

  /** The score of the last pair for category `k`, if any. */
  function LastScore(pairs: seq<(string, real)>, k: string): Option<real>
    decreases |pairs|
  {
    if pairs == [] then None
    else if pairs[|pairs| - 1].0 == k then Some(pairs[|pairs| - 1].1)
    else LastScore(pairs[..|pairs| - 1], k)
  }

  lemma {:induction false} LastScoreAppend(a: seq<(string, real)>, b: seq<(string, real)>, k: string)
    ensures LastScore(a + b, k) == if LastScore(b, k).Some? then LastScore(b, k) else LastScore(a, k)
    decreases |b|
  {
    if b == [] {
      assert a + b == a;
    } else {
      assert (a + b)[..|a + b| - 1] == a + b[..|b| - 1];
      assert (a + b)[|a + b| - 1] == b[|b| - 1];
      LastScoreAppend(a, b[..|b| - 1], k);
    }
  }

  /**
   * The intents loop keeps, for every category, the score of its last element, and takes
   * as confidence the last score of the top intent; it stops exactly when an element raises.
   */
  lemma {:induction false} FoldIntentsMeaning(items: seq<Json>, p: Progress)
    ensures FoldIntents(items, p).aborted <==> IntentPairs(items).Failure?
    ensures FoldIntents(items, p).progress.topIntent == p.topIntent
    ensures FoldIntents(items, p).progress.entities == p.entities
    ensures !FoldIntents(items, p).aborted ==>
      var q := FoldIntents(items, p).progress;
      var pairs := IntentPairs(items).value;
      && q.confidence == LastScore(pairs, p.topIntent).GetOr(p.confidence)
      && (forall k :: k in q.allIntents <==> k in p.allIntents || LastScore(pairs, k).Some?)
      && (forall k :: k in q.allIntents ==>
            q.allIntents[k] == if LastScore(pairs, k).Some? then LastScore(pairs, k).value else p.allIntents[k])
    decreases |items|
  {
    if items != [] {
      match IntentEntry(items[0])
      case Failure(_) =>
      case Success(entry) =>
        var p' := IntentStep(p, entry);
        FoldIntentsMeaning(items[1..], p');
        if !FoldIntents(items, p).aborted {
          var pre: seq<(string, real)> := if entry.Some? then [entry.value] else [];
          var rest := IntentPairs(items[1..]).value;
          var q := FoldIntents(items, p).progress;
          assert IntentPairs(items).value == pre + rest;
          forall k | true
            ensures LastScore(pre + rest, k) == if LastScore(rest, k).Some? then LastScore(rest, k) else LastScore(pre, k)
            ensures LastScore(pre, k).Some? <==> entry.Some? && entry.value.0 == k
            ensures LastScore(pre, k).Some? ==> LastScore(pre, k).value == entry.value.1
          {
            LastScoreAppend(pre, rest, k);
            if entry.Some? {
              assert pre[..0] == [];
            }
          }
          forall k | true
            ensures k in p'.allIntents <==> k in p.allIntents || LastScore(pre, k).Some?
            ensures k in p'.allIntents ==>
              p'.allIntents[k] == if LastScore(pre, k).Some? then LastScore(pre, k).value else p.allIntents[k]
          {
          }
          assert p'.confidence == LastScore(pre, p.topIntent).GetOr(p.confidence);
        }
    }
  }

  /** Every step of the intents loop keeps the confidence equal to the top intent's score. */
  lemma {:induction false} FoldIntentsCoherent(items: seq<Json>, p: Progress)
    requires Coherent(p)
    ensures Coherent(FoldIntents(items, p).progress)
    decreases |items|
  {
    if items != [] {
      match IntentEntry(items[0])
      case Failure(_) =>
      case Success(entry) =>
        FoldIntentsCoherent(items[1..], IntentStep(p, entry));
    }
  }

  /** Reads an optional string field of an entity: absent, its text with "" for null, or an exception. */
  function EntityText(props: map<string, Json>, key: string): Result<Option<EntityValue>> {
    if key !in props then Success(None)
    else match GetString(props[key])
      case Success(s) => Success(Some(EntityValue.EntityText(s.GetOr(""))))
      case Failure(e) => Failure(e)
  }

  /** Reads the optional confidence of an entity: absent, its value, or an exception. */
  function EntityScore(props: map<string, Json>, key: string): Result<Option<EntityValue>> {
    if key !in props then Success(None)
    else match GetDouble(props[key])
      case Success(d) => Success(Some(EntityValue.EntityScore(d)))
      case Failure(e) => Failure(e)
  }

  function Field(key: string, v: Option<EntityValue>): Entity {
    if v.Some? then map[key := v.value] else map[]
  }

  /** Three single-field dictionaries with distinct keys merge into one holding exactly the given fields. */
  lemma MergedFields(k1: string, k2: string, k3: string, v1: Option<EntityValue>, v2: Option<EntityValue>, v3: Option<EntityValue>)
    requires k1 != k2 && k1 != k3 && k2 != k3
    ensures var m := Field(k1, v1) + Field(k2, v2) + Field(k3, v3);
      && (forall k :: k in m ==> k == k1 || k == k2 || k == k3)
      && (k1 in m <==> v1.Some?) && (v1.Some? ==> m[k1] == v1.value)
      && (k2 in m <==> v2.Some?) && (v2.Some? ==> m[k2] == v2.value)
      && (k3 in m <==> v3.Some?) && (v3.Some? ==> m[k3] == v3.value)
  {
  }

  /**
   * One element of the entities array: a dictionary of the category, text and confidence
   * the element has, or an exception when the element is not an object or one of them has
   * the wrong type.
   */
  function EntityEntry(item: Json): Result<Entity> {
    if !item.JObject? then Failure(NotAnObject)
    else
      match (EntityText(item.props, "category"), EntityText(item.props, "text"), EntityScore(item.props, "confidenceScore"))
      case (Success(c), Success(t), Success(s)) =>
        Success(Field("category", c) + Field("text", t) + Field("confidenceScore", s))
      case (Failure(e), _, _) => Failure(e)
      case (_, Failure(e), _) => Failure(e)
      case (_, _, Failure(e)) => Failure(e)
  }

  /** An entity element raises exactly when it is not an object or one of its three fields has the wrong kind. */
  lemma EntityEntryFails(item: Json)
    ensures EntityEntry(item).Failure? <==>
      || !item.JObject?
      || ("category" in item.props && !(item.props["category"].JString? || item.props["category"].JNull?))
      || ("text" in item.props && !(item.props["text"].JString? || item.props["text"].JNull?))
      || ("confidenceScore" in item.props && !item.props["confidenceScore"].JNumber?)
  {
  }

  /** A read entity holds exactly the category, text and confidence fields the element has, with "" for a null string. */
  lemma EntityEntryFields(item: Json)
    requires EntityEntry(item).Success?
    ensures var r := EntityEntry(item).value;
      && item.JObject?
      && (forall k :: k in r ==> k == "category" || k == "text" || k == "confidenceScore")
      && ("category" in r <==> "category" in item.props)
      && ("text" in r <==> "text" in item.props)
      && ("confidenceScore" in r <==> "confidenceScore" in item.props)
      && ("confidenceScore" in r ==>
            r["confidenceScore"].EntityScore? &&
            item.props["confidenceScore"] == JNumber(r["confidenceScore"].score))
      && ("text" in r ==>
            r["text"].EntityText? &&
            r["text"].text == if item.props["text"].JString? then item.props["text"].s else "")
      && ("category" in r ==>
            r["category"].EntityText? &&
            r["category"].text == if item.props["category"].JString? then item.props["category"].s else "")
  {
    var c := EntityText(item.props, "category");
    var t := EntityText(item.props, "text");
    var s := EntityScore(item.props, "confidenceScore");
    assert |"category"| != |"text"| && |"category"| != |"confidenceScore"| && |"text"| != |"confidenceScore"|;
    MergedFields("category", "text", "confidenceScore", c.value, t.value, s.value);
  }

  /** The entities loop, stopping at the first element that raises; a failing element adds nothing. */
  function FoldEntities(items: seq<Json>, p: Progress): Fold
    decreases |items|
  {
    if items == [] then Fold(p, false)
    else
      match EntityEntry(items[0])
      case Failure(_) => Fold(p, true)
      case Success(entity) => FoldEntities(items[1..], p.(entities := p.entities + [entity]))
  }

  /** The entities loop touches nothing but the entities. */
  lemma {:induction false} FoldEntitiesKeepsIntents(items: seq<Json>, p: Progress)
    ensures var q := FoldEntities(items, p).progress;
      q.topIntent == p.topIntent && q.confidence == p.confidence && q.allIntents == p.allIntents
    decreases |items|
  {
    if items != [] {
      match EntityEntry(items[0])
      case Failure(_) =>
      case Success(entity) => FoldEntitiesKeepsIntents(items[1..], p.(entities := p.entities + [entity]));
    }
  }

  /** The dictionaries of an entities array in order, or the first exception. */
  function EntityEntries(items: seq<Json>): Result<seq<Entity>>
    decreases |items|
  {
    if items == [] then Success([])
    else
      match EntityEntry(items[0])
      case Failure(e) => Failure(e)
      case Success(entity) =>
        match EntityEntries(items[1..])
        case Failure(e) => Failure(e)
        case Success(rest) => Success([entity] + rest)
  }

  /** The entities read are one per element, each the element's own reading. */
  lemma {:induction false} EntityEntriesAt(items: seq<Json>)
    requires EntityEntries(items).Success?
    ensures var es := EntityEntries(items).value;
      |es| == |items| && forall i :: 0 <= i < |items| ==> EntityEntry(items[i]) == Success(es[i])
    decreases |items|
  {
    if items != [] {
      var es := EntityEntries(items).value;
      var rest := items[1..];
      EntityEntriesAt(rest);
      forall i | 1 <= i < |items| ensures EntityEntry(items[i]) == Success(es[i]) {
        assert items[i] == rest[i - 1];
      }
    }
  }

  /** Reading an entities array fails exactly when some element raises. */
  lemma {:induction false} EntityEntriesFail(items: seq<Json>)
    ensures EntityEntries(items).Failure? <==> exists i :: 0 <= i < |items| && EntityEntry(items[i]).Failure?
    decreases |items|
  {
    if items != [] && EntityEntry(items[0]).Success? {
      var rest := items[1..];
      EntityEntriesFail(rest);
      if exists i :: 0 <= i < |rest| && EntityEntry(rest[i]).Failure? {
        var i :| 0 <= i < |rest| && EntityEntry(rest[i]).Failure?;
        assert EntityEntry(items[i + 1]).Failure?;
      } else {
        forall i | 1 <= i < |items| ensures EntityEntry(items[i]).Success? {
          assert items[i] == rest[i - 1];
        }
      }
    }
  }

  /** The entities loop appends the array's dictionaries in order, and stops early exactly when reading them fails. */
  lemma {:induction false} FoldEntitiesMeaning(items: seq<Json>, p: Progress)
    ensures FoldEntities(items, p).aborted <==> EntityEntries(items).Failure?
    ensures !FoldEntities(items, p).aborted ==>
      FoldEntities(items, p).progress.entities == p.entities + EntityEntries(items).value
    decreases |items|
  {
    if items != [] {
      match EntityEntry(items[0])
      case Failure(_) =>
      case Success(entity) =>
        var p' := p.(entities := p.entities + [entity]);
        FoldEntitiesMeaning(items[1..], p');
        if !FoldEntities(items, p).aborted {
          assert p'.entities + EntityEntries(items[1..]).value == p.entities + ([entity] + EntityEntries(items[1..]).value);
        }
    }
  }

  /** Entity steps leave the intents alone, so they keep the confidence coherent. */
  lemma FoldEntitiesCoherent(items: seq<Json>, p: Progress)
    requires Coherent(p)
    ensures Coherent(FoldEntities(items, p).progress)
  {
    FoldEntitiesKeepsIntents(items, p);
  }

  /** How reading the response ended: no prediction in it, a prediction stored, or an exception. */
  datatype Outcome = NoPrediction | Predicted | Aborted

  datatype Parse = Parse(progress: Progress, outcome: Outcome)

  /** Reading the prediction object: top intent, then the intents loop, then the entities loop. */
  function ReadPrediction(prediction: Json): Parse {
    if !prediction.JObject? then Parse(Initial, Aborted)
    else
      var props := prediction.props;
      var top: Result<Option<string>> := if "topIntent" in props then GetString(props["topIntent"]) else Success(Some(UnknownIntent));
      match top
      case Failure(_) => Parse(Initial, Aborted)
      case Success(name) =>
        var p0 := Initial.(topIntent := name.GetOr(UnknownIntent));
        var f1 :=
          if "intents" !in props then Fold(p0, false)
          else match EnumerateArray(props["intents"])
            case Failure(_) => Fold(p0, true)
            case Success(items) => FoldIntents(items, p0);
        if f1.aborted then Parse(f1.progress, Aborted)
        else
          var f2 :=
            if "entities" !in props then Fold(f1.progress, false)
            else match EnumerateArray(props["entities"])
              case Failure(_) => Fold(f1.progress, true)
              case Success(items) => FoldEntities(items, f1.progress);
          Parse(f2.progress, if f2.aborted then Aborted else Predicted)
  }

  /**
   * Reading the whole response: nothing stored unless it holds `result.prediction`; an
   * exception (invalid JSON, an element of the wrong kind) abandons the reading with
   * whatever was read so far.
   */
  function ReadResponse(document: Option<Json>): Parse {
    if document.None? || !document.value.JObject? then Parse(Initial, Aborted)
    else if "result" !in document.value.props then Parse(Initial, NoPrediction)
    else
      var result := document.value.props["result"];
      if !result.JObject? then Parse(Initial, Aborted)
      else if "prediction" !in result.props then Parse(Initial, NoPrediction)
      else ReadPrediction(result.props["prediction"])
  }

  /** Whatever the response, the confidence read is the top intent's score if it has one, and 0 otherwise. */
  lemma ReadResponseCoherent(document: Option<Json>)
    ensures Coherent(ReadResponse(document).progress)
  {
    if document.Some? && document.value.JObject? && "result" in document.value.props {
      var result := document.value.props["result"];
      if result.JObject? && "prediction" in result.props {
        var prediction := result.props["prediction"];
        if prediction.JObject? {
          var props := prediction.props;
          var top: Result<Option<string>> := if "topIntent" in props then GetString(props["topIntent"]) else Success(Some(UnknownIntent));
          if top.Success? {
            var p0 := Initial.(topIntent := top.value.GetOr(UnknownIntent));
            if "intents" in props && props["intents"].JArray? {
              FoldIntentsCoherent(props["intents"].items, p0);
              var f1 := FoldIntents(props["intents"].items, p0);
              if !f1.aborted && "entities" in props && props["entities"].JArray? {
                FoldEntitiesCoherent(props["entities"].items, f1.progress);
              }
            } else if "intents" !in props && "entities" in props && props["entities"].JArray? {
              FoldEntitiesCoherent(props["entities"].items, p0);
            }
          }
        }
      }
    }
  }

  /** A prediction with an intents array: every category read is scored by its last element, and nothing else is. */
  lemma PredictedScores(prediction: Json)
    requires prediction.JObject? && "intents" in prediction.props && prediction.props["intents"].JArray?
    requires ReadPrediction(prediction).outcome == Predicted
    ensures IntentPairs(prediction.props["intents"].items).Success?
    ensures var q := ReadPrediction(prediction).progress;
      var pairs := IntentPairs(prediction.props["intents"].items).value;
      && (forall k :: k in q.allIntents <==> LastScore(pairs, k).Some?)
      && (forall k :: k in q.allIntents ==> q.allIntents[k] == LastScore(pairs, k).value)
      && q.confidence == LastScore(pairs, q.topIntent).GetOr(0.0)
  {
    var props := prediction.props;
    var top: Result<Option<string>> := if "topIntent" in props then GetString(props["topIntent"]) else Success(Some(UnknownIntent));
    var p0 := Initial.(topIntent := top.value.GetOr(UnknownIntent));
    FoldIntentsMeaning(props["intents"].items, p0);
    var f1 := FoldIntents(props["intents"].items, p0);
    if "entities" in props && props["entities"].JArray? {
      FoldEntitiesKeepsIntents(props["entities"].items, f1.progress);
    }
  }

  /** The intents loop, run over the array's elements until one raises. */
  method ReadIntents(items: seq<Json>, start: Progress) returns (f: Fold)
    ensures f == FoldIntents(items, start)
  {
    var p := start;
    var i := 0;
    while i < |items|
      invariant 0 <= i <= |items|
      invariant FoldIntents(items[i..], p) == FoldIntents(items, start)
    {
      var entry := IntentEntry(items[i]);
      assert items[i..][0] == items[i] && items[i..][1..] == items[i + 1..];
      if entry.Failure? {
        return Fold(p, true);
      }
      p := IntentStep(p, entry.value);
      i := i + 1;
    }
    assert items[i..] == [];
    return Fold(p, false);
  }

  /** The entities loop, run over the array's elements until one raises. */
  method ReadEntities(items: seq<Json>, start: Progress) returns (f: Fold)
    ensures f == FoldEntities(items, start)
  {
    var p := start;
    var i := 0;
    while i < |items|
      invariant 0 <= i <= |items|
      invariant FoldEntities(items[i..], p) == FoldEntities(items, start)
    {
      var entity := EntityEntry(items[i]);
      assert items[i..][0] == items[i] && items[i..][1..] == items[i + 1..];
      if entity.Failure? {
        return Fold(p, true);
      }
      p := p.(entities := p.entities + [entity.value]);
      i := i + 1;
    }
    assert items[i..] == [];
    return Fold(p, false);
  }

  /** The statement-by-statement reading with its two loops agrees with `ReadResponse`. */
  method ParseResponse(document: Option<Json>) returns (parse: Parse)
    ensures parse == ReadResponse(document)
  {
    if document.None? || !document.value.JObject? {
      return Parse(Initial, Aborted);
    }
    var root := document.value.props;
    if "result" !in root {
      return Parse(Initial, NoPrediction);
    }
    var result := root["result"];
    if !result.JObject? {
      return Parse(Initial, Aborted);
    }
    if "prediction" !in result.props {
      return Parse(Initial, NoPrediction);
    }
    var prediction := result.props["prediction"];
    if !prediction.JObject? {
      return Parse(Initial, Aborted);
    }
    var props := prediction.props;
    var p := Initial;
    if "topIntent" in props {
      var name := GetString(props["topIntent"]);
      if name.Failure? {
        return Parse(Initial, Aborted);
      }
      p := p.(topIntent := name.value.GetOr(UnknownIntent));
    }
    if "intents" in props {
      if !props["intents"].JArray? {
        return Parse(p, Aborted);
      }
      var f := ReadIntents(props["intents"].items, p);
      if f.aborted {
        return Parse(f.progress, Aborted);
      }
      p := f.progress;
    }
    if "entities" in props {
      if !props["entities"].JArray? {
        return Parse(p, Aborted);
      }
      var f := ReadEntities(props["entities"].items, p);
      if f.aborted {
        return Parse(f.progress, Aborted);
      }
      p := f.progress;
    }
    return Parse(p, Predicted);
  }

  /** The fixed response the tool answers with when the service call fails. */
  function FallbackDocument(query: string): Json {
    JObject(map[
      "kind" := JString("ConversationResult"),
      "result" := JObject(map[
        "query" := JString(query),
        "prediction" := JObject(map[
          "topIntent" := JString(FallbackIntent),
          "projectKind" := JString("Conversation"),
          "intents" := JArray([JObject(map["category" := JString(FallbackIntent), "confidenceScore" := JNumber(FallbackScore)])]),
          "entities" := JArray([])])])])
  }

  /** Reading the fallback response gives back exactly the fallback decision that is stored. */
  lemma FallbackReadsBack(query: string)
    ensures ReadResponse(Some(FallbackDocument(query)))
         == Parse(Progress(FallbackIntent, FallbackScore, map[FallbackIntent := FallbackScore], []), Predicted)
  {
    var item := JObject(map["category" := JString(FallbackIntent), "confidenceScore" := JNumber(FallbackScore)]);
    var prediction := FallbackDocument(query).props["result"].props["prediction"];
    assert ReadResponse(Some(FallbackDocument(query))) == ReadPrediction(prediction);
    assert prediction.props["topIntent"] == JString(FallbackIntent);
    assert prediction.props["intents"] == JArray([item]);
    assert prediction.props["entities"] == JArray([]);
    var p0 := Initial.(topIntent := FallbackIntent);
    var p1 := Progress(FallbackIntent, FallbackScore, map[FallbackIntent := FallbackScore], []);
    assert IntentEntry(item) == Success(Some((FallbackIntent, FallbackScore)));
    assert [item][1..] == [];
    assert FoldIntents([item], p0) == Fold(p1, false);
    assert FoldEntities([], p1) == Fold(p1, false);
  }

  /** The outcome of the service call: an HTTP failure, or a body with its JSON reading (none when it is not JSON). */
  datatype ServiceCall = HttpFailed(message: string) | Responded(body: string, document: Option<Json>)

  /** `AnalyzeConversation`: the body and its reading, or the exception raised for a failure or a blank body. */
  function AnalyzeConversation(call: ServiceCall): (r: Result<(string, Option<Json>)>)
    ensures r.Success? <==> call.Responded? && !IsBlank(call.body)
    ensures r.Failure? && call.Responded? ==> r.error == EmptyResponseError
  {
    match call
    case HttpFailed(message) => Failure(message)
    case Responded(body, document) =>
      if IsBlank(body) then Failure(EmptyResponseError) else Success((body, document))
  }

  /** What the tool returns: the service's own body, or the serialised fallback response. */
  datatype IntentResponse = Raw(body: string) | Fallback(document: Json)

  /** The intent tags put on the tool activity after a reading: scores and entities only when non-empty. */
  datatype IntentTags = IntentTags(intent: string, confidence: real,
                                   allIntents: Option<map<string, real>>, entities: Option<seq<Entity>>)

  function TagsOf(p: Progress): (t: IntentTags)
    ensures t.allIntents.Some? <==> |p.allIntents| > 0
    ensures t.entities.Some? <==> |p.entities| > 0
  {
    IntentTags(p.topIntent, p.confidence,
      if |p.allIntents| > 0 then Some(p.allIntents) else None,
      if |p.entities| > 0 then Some(p.entities) else None)
  }

  /** What a traced call records: the activity, the intent tags set on it, and its completion. */
  datatype IntentTrace = IntentTrace(activity: Option<Activity>, tags: Option<IntentTags>, completion: Option<ToolCompletion>)

  /** The tags the tool activity is started with. */
  function IntentToolTags(query: string): map<string, string> {
    map[AgentNameTag := "OrchestratorAgent", ToolNameTag := "IntentTool", ToolInputTag := query]
  }

  /** The tool activity, if sampled, names the orchestrator and the intent tool so that completing it registers them. */
  lemma IntentActivityNames(chatId: string, query: string, listened: bool)
    ensures var a := StartActivity(ToolOperationName("IntentTool"), chatId, IntentToolTags(query), listened);
      a.Some? ==> AgentNameTag in a.value.tags && a.value.tags[AgentNameTag] == "OrchestratorAgent"
                  && ExtractToolName(a.value.operationName) == "IntentTool"
  {
    ShorterNotContains("IntentTool", ToolPrefix);
    ToolActivityReadsBack("IntentTool", chatId, IntentToolTags(query), listened);
  }

  class IntentTool {
    /** `_currentChatId`. */
    var currentChatId: string
    /** `_lastDetectedIntent`. */
    var lastDetectedIntent: string
    /** `_lastConfidenceScore`. */
    var lastConfidenceScore: real
    /** `_genAITracer`, absent when no tracer is registered. */
    const tracer: GenAITracer?

    constructor (tracer: GenAITracer?)
      ensures this.tracer == tracer
      ensures currentChatId == "" && lastDetectedIntent == "" && lastConfidenceScore == 0.0
    {
      this.tracer := tracer;
      currentChatId, lastDetectedIntent, lastConfidenceScore := "", "", 0.0;
    }

    method SetContext(chatId: string)
      modifies this
      ensures currentChatId == chatId
      ensures lastDetectedIntent == old(lastDetectedIntent) && lastConfidenceScore == old(lastConfidenceScore)
    {
      currentChatId := chatId;
    }

    /** The body was read: a prediction in it is stored in the static fields and the tracker for the current chat. */
    method StoreReading(query: string, parse: Parse, intentTracker: IntentTracker)
      modifies this, intentTracker
      ensures currentChatId == old(currentChatId)
      ensures forall other :: other != currentChatId ==> intentTracker.GetIntentInfo(other) == old(intentTracker.GetIntentInfo(other))
      ensures parse.outcome == Predicted ==>
        && lastDetectedIntent == parse.progress.topIntent
        && lastConfidenceScore == parse.progress.confidence
        && intentTracker.GetIntentInfo(currentChatId)
             == IntentInfo(query, parse.progress.topIntent, parse.progress.confidence,
                           parse.progress.allIntents, parse.progress.entities)
        && intentTracker.LastWriteWas(currentChatId, query, parse.progress.topIntent, parse.progress.confidence)
      ensures parse.outcome != Predicted ==>
        && lastDetectedIntent == old(lastDetectedIntent) && lastConfidenceScore == old(lastConfidenceScore)
        && intentTracker.GetIntentInfo(currentChatId) == old(intentTracker.GetIntentInfo(currentChatId))
        && intentTracker.LastFields() == old(intentTracker.LastFields())
    {
      if parse.outcome == Predicted {
        lastDetectedIntent := parse.progress.topIntent;
        lastConfidenceScore := parse.progress.confidence;
        intentTracker.SetIntentInfo(currentChatId, query, parse.progress.topIntent, parse.progress.confidence,
          Some(parse.progress.allIntents), Some(parse.progress.entities));
      }
    }

    /** The call failed: the fallback decision is stored in the static fields and the tracker for the current chat. */
    method StoreFallback(query: string, intentTracker: IntentTracker)
      modifies this, intentTracker
      ensures currentChatId == old(currentChatId)
      ensures lastDetectedIntent == FallbackIntent && lastConfidenceScore == FallbackScore
      ensures intentTracker.GetIntentInfo(currentChatId)
                == IntentInfo(query, FallbackIntent, FallbackScore, map[FallbackIntent := FallbackScore], [])
      ensures intentTracker.LastWriteWas(currentChatId, query, FallbackIntent, FallbackScore)
      ensures forall other :: other != currentChatId ==> intentTracker.GetIntentInfo(other) == old(intentTracker.GetIntentInfo(other))
    {
      lastDetectedIntent := FallbackIntent;
      lastConfidenceScore := FallbackScore;
      intentTracker.SetIntentInfo(currentChatId, query, FallbackIntent, FallbackScore,
        Some(map[FallbackIntent := FallbackScore]), Some([]));
    }

    /** Completes the sampled tool activity, which registers the orchestrator with the intent tool once more. */
    method CompleteIntentActivity(activity: Option<Activity>, chatId: string, query: string, output: ToolOutput, success: bool)
      returns (completion: Option<ToolCompletion>)
      requires tracer != null && activity.Some?
      requires activity == StartActivity(ToolOperationName("IntentTool"), chatId, IntentToolTags(query), true)
      requires tracer.agentToolMap == Registered(tracer.agentToolMap, "OrchestratorAgent", "IntentTool")
      modifies tracer
      ensures tracer.agentToolMap == old(tracer.agentToolMap)
      ensures completion == Some(ToolCompletion(output, success, if success then Ok else Error, "IntentTool"))
    {
      IntentActivityNames(chatId, query, true);
      completion := tracer.CompleteToolInvocation(activity, output, success);
    }

    /**
     * `RecognizeIntent`: calls the service; when the body holds a prediction, stores the
     * reading in the static fields and the intent tracker and returns the body; when the call
     * fails, stores and returns the fallback decision. The call is traced only when a tracer
     * exists and a chat is set.
     */
    method RecognizeIntent(query: string, call: ServiceCall, intentTracker: IntentTracker, listened: bool)
      returns (response: IntentResponse, trace: Option<IntentTrace>)
      modifies this, intentTracker, tracer
      ensures currentChatId == old(currentChatId)
      ensures tracer != null && currentChatId != "" ==>
        tracer.agentToolMap == Registered(old(tracer.agentToolMap), "OrchestratorAgent", "IntentTool")
      ensures tracer != null && currentChatId == "" ==> tracer.agentToolMap == old(tracer.agentToolMap)
      ensures trace.Some? <==> tracer != null && currentChatId != ""
      ensures trace.Some? ==>
        && trace.value.activity == StartActivity(ToolOperationName("IntentTool"), currentChatId, IntentToolTags(query), listened)
        && (trace.value.completion.Some? <==> trace.value.activity.Some?)
      ensures forall other :: other != currentChatId ==> intentTracker.GetIntentInfo(other) == old(intentTracker.GetIntentInfo(other))
      // the service call fails: the fallback decision is stored and returned
      ensures AnalyzeConversation(call).Failure? ==>
        && response == Fallback(FallbackDocument(query))
        && lastDetectedIntent == FallbackIntent && lastConfidenceScore == FallbackScore
        && intentTracker.GetIntentInfo(currentChatId)
             == IntentInfo(query, FallbackIntent, FallbackScore, map[FallbackIntent := FallbackScore], [])
        && intentTracker.LastWriteWas(currentChatId, query, FallbackIntent, FallbackScore)
        && (trace.Some? ==> trace.value.tags.None?)
        && (trace.Some? && trace.value.completion.Some? ==>
              trace.value.completion.value == ToolCompletion(Text("Error: " + AnalyzeConversation(call).error), false, Error, "IntentTool"))
      // the call succeeds: the body is returned, and a prediction in it is stored
      ensures AnalyzeConversation(call).Success? ==>
        var parse := ReadResponse(call.document);
        && response == Raw(call.body)
        && (parse.outcome == Predicted ==>
              && lastDetectedIntent == parse.progress.topIntent
              && lastConfidenceScore == parse.progress.confidence
              && intentTracker.GetIntentInfo(currentChatId)
                   == IntentInfo(query, parse.progress.topIntent, parse.progress.confidence,
                                 parse.progress.allIntents, parse.progress.entities)
              && intentTracker.LastWriteWas(currentChatId, query, parse.progress.topIntent, parse.progress.confidence))
        && (parse.outcome != Predicted ==>
              && lastDetectedIntent == old(lastDetectedIntent) && lastConfidenceScore == old(lastConfidenceScore)
              && intentTracker.GetIntentInfo(currentChatId) == old(intentTracker.GetIntentInfo(currentChatId))
              && intentTracker.LastFields() == old(intentTracker.LastFields()))
        && (trace.Some? && trace.value.activity.Some? ==>
              && trace.value.tags == Some(TagsOf(parse.progress))
              && trace.value.completion.value == ToolCompletion(Text(call.body), true, Ok, "IntentTool"))
    {
      var activity: Option<Activity> := None;
      var traced := tracer != null && currentChatId != "";
      if traced {
        activity := tracer.StartToolInvocation(currentChatId, "OrchestratorAgent", "IntentTool", query, listened);
        RegisteredTwice(old(tracer.agentToolMap), "OrchestratorAgent", "IntentTool");
      }
      var analyzed := AnalyzeConversation(call);
      var completion: Option<ToolCompletion> := None;
      var tags: Option<IntentTags> := None;
      if analyzed.Success? {
        var parse := ParseResponse(analyzed.value.1);
        StoreReading(query, parse, intentTracker);
        if activity.Some? {
          tags := Some(TagsOf(parse.progress));
          completion := CompleteIntentActivity(activity, currentChatId, query, Text(analyzed.value.0), true);
        }
        response := Raw(analyzed.value.0);
      } else {
        if activity.Some? {
          completion := CompleteIntentActivity(activity, currentChatId, query, Text("Error: " + analyzed.error), false);
        }
        StoreFallback(query, intentTracker);
        response := Fallback(FallbackDocument(query));
      }
      trace := if traced then Some(IntentTrace(activity, tags, completion)) else None;
    }
  }
}
