/**
 * The intent tracker: the last intent decision per chat (query, intent, confidence,
 * all intent scores, entities), plus the "last" fields of the most recent write.
 */
module IntentTracking {
  import opened Wrappers

  /** A value of an entity's dictionary: a string (category, text) or a number (confidence). */
  datatype EntityValue = EntityText(text: string) | EntityScore(score: real)

  /** One detected entity: a `Dictionary<string, object>` holding only the fields it was given. */
  type Entity = map<string, EntityValue>

  /** What `GetIntentInfoJson` serialises, kept as a record. */
  datatype IntentInfo = IntentInfo(
    query: string,
    intent: string,
    confidence: real,
    allIntents: map<string, real>,
    entities: seq<Entity>)

  /** The key the chat-less overloads use. */
  const DefaultChatId: string := "default"

  /** What the getter reports for a chat with no entries. */
  const EmptyIntentInfo: IntentInfo := IntentInfo("", "", 0.0, map[], [])

  /** The tracker's five per-chat dictionaries, keyed by chat id. */
  datatype Store = Store(
    queries: map<string, string>,
    intents: map<string, string>,
    confidenceScores: map<string, real>,
    allIntents: map<string, map<string, real>>,
    entities: map<string, seq<Entity>>)
  {
    /** The entry the dictionaries hold for `chatId`, with "", "", 0, {} and [] for what is missing. */
    function Info(chatId: string): IntentInfo {
      IntentInfo(
        if chatId in queries then queries[chatId] else "",
        if chatId in intents then intents[chatId] else "",
        if chatId in confidenceScores then confidenceScores[chatId] else 0.0,
        if chatId in allIntents then allIntents[chatId] else map[],
        if chatId in entities then entities[chatId] else [])
    }
  }

  const EmptyStore: Store := Store(map[], map[], map[], map[], map[])

  /** Writing one chat's entry sets that entry, keeping the old scores and entities where none are given, and leaves every other chat's entry alone. */
  lemma InfoAfterSet(s: Store, s': Store, chatId: string, query: string, intent: string, confidenceScore: real,
                     allIntentsArg: Option<map<string, real>>, entitiesArg: Option<seq<Entity>>)
    requires s'.queries == s.queries[chatId := query] && s'.intents == s.intents[chatId := intent]
    requires s'.confidenceScores == s.confidenceScores[chatId := confidenceScore]
    requires s'.allIntents == if allIntentsArg.Some? then s.allIntents[chatId := allIntentsArg.value] else s.allIntents
    requires s'.entities == if entitiesArg.Some? then s.entities[chatId := entitiesArg.value] else s.entities
    ensures s'.Info(chatId) == IntentInfo(query, intent, confidenceScore,
      allIntentsArg.GetOr(s.Info(chatId).allIntents), entitiesArg.GetOr(s.Info(chatId).entities))
    ensures forall other :: other != chatId ==> s'.Info(other) == s.Info(other)
  {
  }

  /** Removing one chat from every dictionary empties its entry and leaves every other chat's entry alone. */
  lemma InfoAfterRemove(s: Store, s': Store, chatId: string)
    requires s'.queries == s.queries - {chatId} && s'.intents == s.intents - {chatId}
    requires s'.confidenceScores == s.confidenceScores - {chatId}
    requires s'.allIntents == s.allIntents - {chatId} && s'.entities == s.entities - {chatId}
    ensures s'.Info(chatId) == EmptyIntentInfo
    ensures forall other :: other != chatId ==> s'.Info(other) == s.Info(other)
  {
  }

  class IntentTracker {
    /** `_queries`, `_intents`, `_confidenceScores`, `_allIntents` and `_entities`. */
    var store: Store
    var lastChatId: Option<string>
    var lastQuery: Option<string>
    var lastIntent: Option<string>
    var lastConfidenceScore: real

    /** No chat has entries and the last-* fields are in their reset state. */
    predicate IsEmpty()
      reads this
    {
      store == EmptyStore && LastFieldsReset()
    }

    /** `_lastChatId`, `_lastQuery` and `_lastIntent` are null and `_lastConfidenceScore` is 0. */
    predicate LastFieldsReset()
      reads this
    {
      lastChatId.None? && lastQuery.None? && lastIntent.None? && lastConfidenceScore == 0.0
    }

    /** The last-* fields record a write of `query`, `intent` and `confidenceScore` for `chatId`. */
    predicate LastWriteWas(chatId: string, query: string, intent: string, confidenceScore: real)
      reads this
    {
      lastChatId == Some(chatId) && lastQuery == Some(query) && lastIntent == Some(intent)
      && lastConfidenceScore == confidenceScore
    }

    /** The four last-* fields together, to say that an operation leaves them alone. */
    function LastFields(): (Option<string>, Option<string>, Option<string>, real)
      reads this
    {
      (lastChatId, lastQuery, lastIntent, lastConfidenceScore)
    }

    constructor ()
      ensures IsEmpty()
    {
      store := EmptyStore;
      lastChatId, lastQuery, lastIntent, lastConfidenceScore := None, None, None, 0.0;
    }

    /** `GetIntentInfoJson(chatId)`: what is stored for the chat, with "", "", 0, {} and [] for what is missing. */
    function GetIntentInfo(chatId: string): IntentInfo
      reads this
    {
      store.Info(chatId)
    }

    /** `GetIntentInfoJson()`: the entry of the last chat written, or of "default" when there is none. */
    function GetLastIntentInfo(): IntentInfo
      reads this
    {
      GetIntentInfo(lastChatId.GetOr(DefaultChatId))
    }

    /**
     * Overwrites query, intent and confidence for the chat; overwrites the intent scores
     * and the entities only when they are given; records the chat as the last one.
     * The stored collections are values, so later changes to the caller's copies cannot reach them.
     */
    method SetIntentInfo(chatId: string, query: string, intent: string, confidenceScore: real,
                         allIntentsArg: Option<map<string, real>>, entitiesArg: Option<seq<Entity>>)
      modifies this
      ensures store.queries == old(store.queries)[chatId := query]
      ensures store.intents == old(store.intents)[chatId := intent]
      ensures store.confidenceScores == old(store.confidenceScores)[chatId := confidenceScore]
      ensures store.allIntents ==
        if allIntentsArg.Some? then old(store.allIntents)[chatId := allIntentsArg.value] else old(store.allIntents)
      ensures store.entities ==
        if entitiesArg.Some? then old(store.entities)[chatId := entitiesArg.value] else old(store.entities)
      ensures lastChatId == Some(chatId) && lastQuery == Some(query) && lastIntent == Some(intent)
      ensures lastConfidenceScore == confidenceScore
      ensures GetIntentInfo(chatId) == IntentInfo(query, intent, confidenceScore,
        allIntentsArg.GetOr(old(GetIntentInfo(chatId)).allIntents),
        entitiesArg.GetOr(old(GetIntentInfo(chatId)).entities))
      ensures forall other :: other != chatId ==> GetIntentInfo(other) == old(GetIntentInfo(other))
      ensures GetLastIntentInfo() == GetIntentInfo(chatId)
    {
      var scores := if allIntentsArg.Some? then store.allIntents[chatId := allIntentsArg.value] else store.allIntents;
      var found := if entitiesArg.Some? then store.entities[chatId := entitiesArg.value] else store.entities;
      var next := Store(store.queries[chatId := query], store.intents[chatId := intent],
                        store.confidenceScores[chatId := confidenceScore], scores, found);
      InfoAfterSet(store, next, chatId, query, intent, confidenceScore, allIntentsArg, entitiesArg);
      store := next;
      lastChatId, lastQuery, lastIntent, lastConfidenceScore := Some(chatId), Some(query), Some(intent), confidenceScore;
    }

    /** The chat-less overload: stores under "default". */
    method SetDefaultIntentInfo(query: string, intent: string, confidenceScore: real,
                                allIntentsArg: Option<map<string, real>>, entitiesArg: Option<seq<Entity>>)
      modifies this
      ensures GetIntentInfo(DefaultChatId) == IntentInfo(query, intent, confidenceScore,
        allIntentsArg.GetOr(old(GetIntentInfo(DefaultChatId)).allIntents),
        entitiesArg.GetOr(old(GetIntentInfo(DefaultChatId)).entities))
      ensures forall other :: other != DefaultChatId ==> GetIntentInfo(other) == old(GetIntentInfo(other))
      ensures lastChatId == Some(DefaultChatId) && GetLastIntentInfo() == GetIntentInfo(DefaultChatId)
    {
      SetIntentInfo(DefaultChatId, query, intent, confidenceScore, allIntentsArg, entitiesArg);
    }

    /** Removes the chat from all five dictionaries; resets the last-* fields only if they belong to that chat. */
    method Clear(chatId: string)
      modifies this
      ensures store.queries == old(store.queries) - {chatId} && store.intents == old(store.intents) - {chatId}
      ensures store.confidenceScores == old(store.confidenceScores) - {chatId}
      ensures store.allIntents == old(store.allIntents) - {chatId} && store.entities == old(store.entities) - {chatId}
      ensures old(lastChatId) == Some(chatId) ==> LastFieldsReset()
      ensures old(lastChatId) != Some(chatId) ==>
        lastChatId == old(lastChatId) && lastQuery == old(lastQuery) &&
        lastIntent == old(lastIntent) && lastConfidenceScore == old(lastConfidenceScore)
      ensures GetIntentInfo(chatId) == EmptyIntentInfo
      ensures forall other :: other != chatId ==> GetIntentInfo(other) == old(GetIntentInfo(other))
    {
      var next := Store(store.queries - {chatId}, store.intents - {chatId}, store.confidenceScores - {chatId},
                        store.allIntents - {chatId}, store.entities - {chatId});
      InfoAfterRemove(store, next, chatId);
      store := next;
      if lastChatId == Some(chatId) {
        lastChatId, lastQuery, lastIntent, lastConfidenceScore := None, None, None, 0.0;
      }
    }

    /** `Clear()`: empties every dictionary and resets the last-* fields. */
    method ClearAll()
      modifies this
      ensures IsEmpty()
      ensures forall chatId :: GetIntentInfo(chatId) == EmptyIntentInfo
      ensures GetLastIntentInfo() == EmptyIntentInfo
    {
      store := EmptyStore;
      lastChatId, lastQuery, lastIntent, lastConfidenceScore := None, None, None, 0.0;
    }
  }
}
