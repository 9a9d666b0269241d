/**
 * `chat_processor.py`, the processor behind `app.py`: it turns session
 * data into a prompt record, saves that record as the user's last prompt
 * when it has a store and a user id, and then asks the language model.
 * "More" replays a saved record with one of two templates, chosen only by
 * whether the record has a `draft` key.
 */
module ChatProcessor {
  import opened Wrappers
  import opened Generation
  import opened SessionStore

  /** The placeholder for a missing conversation history. */
  const NoPastConversation := "無"
  /** The key that marks a polish (draft refinement) record. */
  const DraftField := "draft"
  /** `generate_more`'s answer to a falsy record. */
  const NoRecordReply := "沒有找到之前的對話記錄"

  /** The four captured fields every prompt record carries. */
  const RecordFields: set<string> := {UserIdentityField, TargetIdentityField, ContextField, PastConversationField}

  /**
   * `last_prompt` of `generate_conversation`: the captured fields of the
   * session, `''` for a missing identity or context, `'無'` for a missing
   * history. The session's `state` is not carried over.
   */
  function GenerateRecord(session: Dict): (p: Dict)
    ensures p.Keys == RecordFields
    ensures forall k :: k in p && k in session ==> p[k] == session[k]
    ensures UserIdentityField !in session ==> p[UserIdentityField] == ""
    ensures TargetIdentityField !in session ==> p[TargetIdentityField] == ""
    ensures ContextField !in session ==> p[ContextField] == ""
    ensures PastConversationField !in session ==> p[PastConversationField] == NoPastConversation
  {
    map[
      UserIdentityField := Get(session, UserIdentityField, ""),
      TargetIdentityField := Get(session, TargetIdentityField, ""),
      ContextField := Get(session, ContextField, ""),
      PastConversationField := Get(session, PastConversationField, NoPastConversation)
    ]
  }

  /** `last_prompt` of `polish_conversation`: the generate record plus the draft. */
  function PolishRecord(session: Dict, draft: string): (p: Dict)
    ensures p.Keys == RecordFields + {DraftField}
    ensures p[DraftField] == draft
    ensures p - {DraftField} == GenerateRecord(session)
  {
    var q := GenerateRecord(session);
    assert DraftField !in q;
    q[DraftField := draft]
  }

  /** The template `generate_more` picks: the draft one exactly when the record has a `draft` key. */
  function MoreTemplate(lastPrompt: Dict): (t: Template)
    ensures t == ConversationMoreDraft <==> DraftField in lastPrompt
    ensures t == ConversationMoreDraft || t == ConversationMoreFresh
  {
    if DraftField in lastPrompt then ConversationMoreDraft else ConversationMoreFresh
  }

  /** `if self.session_manager and user_id: save_last_prompt(...)`, on the keyspace. */
  function SavedFor(s: Store, uid: string, p: Dict, now: int): Store {
    if uid != "" then SavePromptIn(s, uid, p, now) else s
  }

  /**
   * `generate_more`: a falsy record (none, or empty) gives the fixed reply
   * without a model call; otherwise the record is replayed.
   */
  function GenerateMore(lastPrompt: Option<Dict>, llm: Llm): (r: Option<string>)
    ensures !IsTruthy(lastPrompt) ==> r == Some(NoRecordReply)
  {
    if !IsTruthy(lastPrompt) then Some(NoRecordReply)
    else StrippedContent(llm(MoreTemplate(lastPrompt.value), lastPrompt.value))
  }

  /**
   * "More" after a generation replays a generation; after a polish it
   * replays a polish with the same draft.
   */
  lemma MoreFollowsRecordKind(session: Dict, draft: string)
    ensures MoreTemplate(GenerateRecord(session)) == ConversationMoreFresh
    ensures MoreTemplate(PolishRecord(session, draft)) == ConversationMoreDraft
    ensures PolishRecord(session, draft)[DraftField] == draft
  {
    assert DraftField !in GenerateRecord(session);
    assert DraftField in PolishRecord(session, draft);
  }

  /** Saving is the only effect on the store, and it happens before, and whatever the outcome of, the model call. */
  method GenerateConversation(sm: SessionManager?, session: Dict, userId: string, now: int, llm: Llm)
    returns (reply: Option<string>)
    modifies sm
    ensures sm != null ==> sm.records == SavedFor(old(sm.records), userId, GenerateRecord(session), now)
    ensures reply == StrippedContent(llm(ConversationGenerate, GenerateRecord(session)))
  {
    var lastPrompt := GenerateRecord(session);
    if sm != null && userId != "" {
      sm.SaveLastPrompt(userId, lastPrompt, now);
    }
    var result := llm(ConversationGenerate, lastPrompt);
    reply := StrippedContent(result);
  }

  method PolishConversation(sm: SessionManager?, session: Dict, draft: string, userId: string, now: int, llm: Llm)
    returns (reply: Option<string>)
    modifies sm
    ensures sm != null ==> sm.records == SavedFor(old(sm.records), userId, PolishRecord(session, draft), now)
    ensures reply == StrippedContent(llm(ConversationPolish, PolishRecord(session, draft)))
  {
    var lastPrompt := PolishRecord(session, draft);
    if sm != null && userId != "" {
      sm.SaveLastPrompt(userId, lastPrompt, now);
    }
    var result := llm(ConversationPolish, lastPrompt);
    reply := StrippedContent(result);
  }
}
