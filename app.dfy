/**
 * `app.py`: the LINE webhook's text handler, a per-user state machine kept
 * in the Redis session. `/new` restarts the capture, `/more` replays the
 * last prompt, and any other text is handled by the user's current state:
 * four capture steps, a mode choice, a draft, and a finished conversation.
 * The handler's effect is the new keyspace and the reply text, `None` when
 * a model call raised and nothing was sent.
 */
module LineApp {
  import opened Wrappers
  import opened Generation
  import opened SessionStore
  import Text
  import ChatProcessor

  const NewCommand := "/new"
  const MoreCommand := "/more"

  const AwaitingUserIdentity := "awaiting_user_identity"
  const AwaitingTargetIdentity := "awaiting_target_identity"
  const AwaitingContext := "awaiting_context"
  const AwaitingPastConversation := "awaiting_past_conversation"
  const AwaitingModeSelection := "awaiting_mode_selection"
  const AwaitingDraft := "awaiting_draft"
  const ConversationComplete := "conversation_complete"

  /** The mode words, compared with the stripped message. */
  const GenerateMode := "生成"
  const PolishMode := "潤飾"

  const NewReply := "開始新的對話！請告訴我：\n1. 你是誰？（例如：我是一個大學生）"
  const NoPromptReply := "沒有找到之前的對話內容。請先開始一個新的對話（輸入 /new）"
  const WelcomeReply := "歡迎使用聊天優化機器人！\n\n請輸入 /new 開始新對話\n或輸入 /more 生成更多內容"
  const CollectedReply := "資料收集完成！\n\n請選擇模式：\n1. 輸入「生成」- 我會直接為你生成對話內容\n2. 輸入「潤飾」- 請提供你的對話草稿，我會幫你優化"
  const DraftRequest := "請提供你的對話草稿："
  const ModeHint := "請輸入「生成」或「潤飾」來選擇模式"
  const CompleteReply := "對話已完成！\n\n你可以：\n- 輸入 /more 生成更多內容\n- 輸入 /new 開始新對話"
  const ErrorReply := "系統錯誤，請輸入 /new 重新開始"

  function IdentityAck(message: string): string {
    "了解，你是：" + message + "\n\n2. 請告訴我對話對象是誰？（例如：我的教授）"
  }

  function TargetAck(message: string): string {
    "了解，對象是：" + message + "\n\n3. 請描述對話情境（例如：請教課業問題）"
  }

  function ContextAck(message: string): string {
    "了解，情境是：" + message + "\n\n4. 請提供過去的對話紀錄（如果沒有，請輸入「無」）"
  }

  /** A capture step: the message stored in `field`, then the state moved to `next`. */
  function Capture(s: Store, uid: string, field: string, next: string, message: string, now: int): Store {
    SetFieldIn(SetFieldIn(s, uid, field, message, now), uid, StateField, next, now)
  }

  /**
   * A generation or polish from the current session: the record is saved
   * first; when the model answers, the state becomes `conversation_complete`;
   * when it raises, the handler stops with the record saved and no reply.
   */
  function Produce(s: Store, uid: string, record: Dict, template: Template, now: int, llm: Llm): (Store, Option<string>) {
    var saved := ChatProcessor.SavedFor(s, uid, record, now);
    match StrippedContent(llm(template, record))
    case None => (saved, None)
    case Some(reply) => (SetFieldIn(saved, uid, StateField, ConversationComplete, now), Some(reply))
  }

  /** The mode choice, on the stripped message. */
  function ChooseMode(s: Store, uid: string, message: string, now: int, llm: Llm): (Store, Option<string>) {
    var choice := Text.Strip(message);
    if choice == GenerateMode then
      Produce(s, uid, ChatProcessor.GenerateRecord(ReadSession(s, uid, now)), ConversationGenerate, now, llm)
    else if choice == PolishMode then
      (SetFieldIn(s, uid, StateField, AwaitingDraft, now), Some(DraftRequest))
    else (s, Some(ModeHint))
  }

  /** Ordinary text in a given state. */
  function Step(s: Store, uid: string, state: string, message: string, now: int, llm: Llm): (Store, Option<string>) {
    if state == AwaitingUserIdentity then
      (Capture(s, uid, UserIdentityField, AwaitingTargetIdentity, message, now), Some(IdentityAck(message)))
    else if state == AwaitingTargetIdentity then
      (Capture(s, uid, TargetIdentityField, AwaitingContext, message, now), Some(TargetAck(message)))
    else if state == AwaitingContext then
      (Capture(s, uid, ContextField, AwaitingPastConversation, message, now), Some(ContextAck(message)))
    else if state == AwaitingPastConversation then
      (Capture(s, uid, PastConversationField, AwaitingModeSelection, message, now), Some(CollectedReply))
    else if state == AwaitingModeSelection then ChooseMode(s, uid, message, now, llm)
    else if state == AwaitingDraft then
      Produce(s, uid, ChatProcessor.PolishRecord(ReadSession(s, uid, now), message), ConversationPolish, now, llm)
    else if state == ConversationComplete then (s, Some(CompleteReply))
    else (s, Some(ErrorReply))
  }

  /** `handle_message`: the keyspace afterwards and the reply. */
  function Handle(s: Store, uid: string, message: string, now: int, llm: Llm): (Store, Option<string>) {
    if message == NewCommand then
      (SetFieldIn(ClearIn(s, uid), uid, StateField, AwaitingUserIdentity, now), Some(NewReply))
    else if message == MoreCommand then
      var lastPrompt := LastPromptIn(s, uid, now);
      (s, if IsTruthy(lastPrompt) then ChatProcessor.GenerateMore(lastPrompt, llm) else Some(NoPromptReply))
    else
      match StateIn(s, uid, now)
      case None => (s, Some(WelcomeReply))
      case Some(state) => Step(s, uid, state, message, now, llm)
  }

  /** `handle_message` over the shared session manager; sending the reply is left to the caller. */
  method HandleMessage(sm: SessionManager, uid: string, message: string, now: int, llm: Llm)
    returns (reply: Option<string>)
    modifies sm
    ensures (sm.records, reply) == Handle(old(sm.records), uid, message, now, llm)
  {
    if message == NewCommand {
      sm.ClearSession(uid);
      reply := Some(NewReply);
      sm.SetState(uid, AwaitingUserIdentity, now);
    } else if message == MoreCommand {
      var lastPrompt := sm.GetLastPrompt(uid, now);
      if IsTruthy(lastPrompt) {
        reply := ChatProcessor.GenerateMore(lastPrompt, llm);
      } else {
        reply := Some(NoPromptReply);
      }
    } else {
      var currentState := sm.GetState(uid, now);
      if currentState.None? {
        reply := Some(WelcomeReply);
      } else if currentState.value == AwaitingUserIdentity {
        sm.SetUserIdentity(uid, message, now);
        sm.SetState(uid, AwaitingTargetIdentity, now);
        reply := Some(IdentityAck(message));
      } else if currentState.value == AwaitingTargetIdentity {
        sm.SetTargetIdentity(uid, message, now);
        sm.SetState(uid, AwaitingContext, now);
        reply := Some(TargetAck(message));
      } else if currentState.value == AwaitingContext {
        sm.SetContext(uid, message, now);
        sm.SetState(uid, AwaitingPastConversation, now);
        reply := Some(ContextAck(message));
      } else if currentState.value == AwaitingPastConversation {
        sm.SetPastConversation(uid, message, now);
        sm.SetState(uid, AwaitingModeSelection, now);
        reply := Some(CollectedReply);
      } else if currentState.value == AwaitingModeSelection {
        var choice := Text.Strip(message);
        if choice == GenerateMode {
          var sessionData := sm.GetSessionData(uid, now);
          reply := ChatProcessor.GenerateConversation(sm, sessionData, uid, now, llm);
          if reply.None? {
            return;
          }
          sm.SetState(uid, ConversationComplete, now);
        } else if choice == PolishMode {
          sm.SetState(uid, AwaitingDraft, now);
          reply := Some(DraftRequest);
        } else {
          reply := Some(ModeHint);
        }
      } else if currentState.value == AwaitingDraft {
        var sessionData := sm.GetSessionData(uid, now);
        reply := ChatProcessor.PolishConversation(sm, sessionData, message, uid, now, llm);
        if reply.None? {
          return;
        }
        sm.SetState(uid, ConversationComplete, now);
      } else if currentState.value == ConversationComplete {
        reply := Some(CompleteReply);
      } else {
        reply := Some(ErrorReply);
      }
    }
  }

  // ---------------------------------------------------------------------------
  // Properties of the state machine
  // ---------------------------------------------------------------------------

  /**
   * `/new` forgets the user's last prompt and leaves a session holding only
   * the first capture state, for the session's whole lifetime.
   */
  lemma NewRestarts(s: Store, uid: string, now: int, later: int, llm: Llm)
    requires now <= later < now + SessionTtl
    ensures var r := Handle(s, uid, NewCommand, now, llm);
      ReadSession(r.0, uid, later) == map[StateField := AwaitingUserIdentity]
      && StateIn(r.0, uid, later) == Some(AwaitingUserIdentity)
      && LastPromptIn(r.0, uid, later) == None
      && r.1 == Some(NewReply)
  {
    var cleared := ClearIn(s, uid);
    ClearForgetsUser(s, uid, now);
    SetFieldReadBack(cleared, uid, StateField, AwaitingUserIdentity, now, later);
    KeysNeverCollide(uid, uid);
  }

  /** `/more` never changes the store; it answers the fixed text exactly when there is no live, non-empty prompt. */
  lemma MoreKeepsStore(s: Store, uid: string, now: int, llm: Llm)
    ensures Handle(s, uid, MoreCommand, now, llm).0 == s
    ensures !IsTruthy(LastPromptIn(s, uid, now)) ==> Handle(s, uid, MoreCommand, now, llm).1 == Some(NoPromptReply)
    ensures IsTruthy(LastPromptIn(s, uid, now)) ==>
      Handle(s, uid, MoreCommand, now, llm).1 == ChatProcessor.GenerateMore(LastPromptIn(s, uid, now), llm)
  {
  }

  /**
   * Each capture step stores the message in its field, keeps every other
   * field, advances the state, and echoes the message.
   */
  lemma CaptureStoresMessage(s: Store, uid: string, field: string, next: string, message: string, now: int, later: int)
    requires field != StateField
    requires now <= later < now + SessionTtl
    ensures var t := Capture(s, uid, field, next, message, now);
      ReadSession(t, uid, later) == ReadSession(s, uid, now)[field := message][StateField := next]
      && StateIn(t, uid, later) == Some(next)
      && LastPromptIn(t, uid, later) == LastPromptIn(s, uid, later)
  {
    var mid := SetFieldIn(s, uid, field, message, now);
    SetFieldReadBack(s, uid, field, message, now, now);
    SetFieldReadBack(mid, uid, StateField, next, now, later);
    SessionLifetime(s, uid, ReadSession(s, uid, now)[field := message], now, later);
    SessionLifetime(mid, uid, ReadSession(mid, uid, now)[StateField := next], now, later);
  }

  /** The four capture states, in order, with the field each fills and the state it leads to. */
  lemma CaptureOrder(s: Store, uid: string, message: string, now: int, llm: Llm)
    requires message != NewCommand && message != MoreCommand
    ensures StateIn(s, uid, now) == Some(AwaitingUserIdentity) ==>
      Handle(s, uid, message, now, llm) == (Capture(s, uid, UserIdentityField, AwaitingTargetIdentity, message, now), Some(IdentityAck(message)))
    ensures StateIn(s, uid, now) == Some(AwaitingTargetIdentity) ==>
      Handle(s, uid, message, now, llm) == (Capture(s, uid, TargetIdentityField, AwaitingContext, message, now), Some(TargetAck(message)))
    ensures StateIn(s, uid, now) == Some(AwaitingContext) ==>
      Handle(s, uid, message, now, llm) == (Capture(s, uid, ContextField, AwaitingPastConversation, message, now), Some(ContextAck(message)))
    ensures StateIn(s, uid, now) == Some(AwaitingPastConversation) ==>
      Handle(s, uid, message, now, llm) == (Capture(s, uid, PastConversationField, AwaitingModeSelection, message, now), Some(CollectedReply))
  {
  }

  /**
   * In the mode choice, only the stripped message counts: whitespace around
   * `生成` or `潤飾` is ignored, and any other text leaves everything as it was.
   */
  lemma ModeChoiceOnStrippedText(s: Store, uid: string, message: string, now: int, llm: Llm)
    requires message != NewCommand && message != MoreCommand
    requires StateIn(s, uid, now) == Some(AwaitingModeSelection)
    ensures Text.Strip(message) == PolishMode ==>
      Handle(s, uid, message, now, llm) == (SetFieldIn(s, uid, StateField, AwaitingDraft, now), Some(DraftRequest))
    ensures Text.Strip(message) == GenerateMode ==>
      Handle(s, uid, message, now, llm)
      == Produce(s, uid, ChatProcessor.GenerateRecord(ReadSession(s, uid, now)), ConversationGenerate, now, llm)
    ensures Text.Strip(message) != GenerateMode && Text.Strip(message) != PolishMode ==>
      Handle(s, uid, message, now, llm) == (s, Some(ModeHint))
  {
  }

  /**
   * A generation or polish saves its record as the last prompt before the
   * model is called, so the record is there for the session's lifetime
   * whatever the model does; a model answer finishes the conversation, a
   * raised call leaves the state as it was.
   */
  lemma ProduceOutcome(s: Store, uid: string, record: Dict, template: Template, now: int, later: int, llm: Llm)
    requires now <= later < now + SessionTtl
    ensures var r := Produce(s, uid, record, template, now, llm);
      (r.1.Some? <==> llm(template, record).Some?)
      && (uid != "" ==> LastPromptIn(r.0, uid, later) == Some(record))
      && (r.1.Some? ==> StateIn(r.0, uid, later) == Some(ConversationComplete))
      && (r.1.None? ==> StateIn(r.0, uid, now) == StateIn(s, uid, now))
  {
    var saved := ChatProcessor.SavedFor(s, uid, record, now);
    if uid != "" {
      SavedPromptLifetime(s, uid, record, now, later);
      SavedPromptLifetime(s, uid, record, now, now);
    }
    SetFieldReadBack(saved, uid, StateField, ConversationComplete, now, later);
    SessionLifetime(saved, uid, ReadSession(saved, uid, now)[StateField := ConversationComplete], now, later);
  }

  /** `生成` in the mode choice produces from the generation record of the current session. */
  lemma GenerateChoice(s: Store, uid: string, now: int, llm: Llm)
    requires StateIn(s, uid, now) == Some(AwaitingModeSelection)
    ensures Handle(s, uid, GenerateMode, now, llm)
         == Produce(s, uid, ChatProcessor.GenerateRecord(ReadSession(s, uid, now)), ConversationGenerate, now, llm)
  {
    var g := GenerateMode;
    assert Text.StrippedOf(g, Text.Whitespace) by {
      assert g[0] == '生' && g[|g| - 1] == '成';
    }
    assert Text.Strip(g) == g;
    ModeChoiceOnStrippedText(s, uid, g, now, llm);
  }

  /**
   * In the draft state the whole message is the draft: it is polished from
   * the current session, saved with the record as the last prompt, and a
   * model answer finishes the conversation.
   */
  lemma DraftPolishes(s: Store, uid: string, message: string, now: int, later: int, llm: Llm)
    requires message != NewCommand && message != MoreCommand
    requires StateIn(s, uid, now) == Some(AwaitingDraft)
    requires now <= later < now + SessionTtl
    ensures var record := ChatProcessor.PolishRecord(ReadSession(s, uid, now), message);
      var r := Handle(s, uid, message, now, llm);
      r == Produce(s, uid, record, ConversationPolish, now, llm)
      && record[ChatProcessor.DraftField] == message
      && (r.1.Some? <==> llm(ConversationPolish, record).Some?)
      && (uid != "" ==> LastPromptIn(r.0, uid, later) == Some(record))
      && (r.1.Some? ==> StateIn(r.0, uid, later) == Some(ConversationComplete))
  {
    var record := ChatProcessor.PolishRecord(ReadSession(s, uid, now), message);
    ProduceOutcome(s, uid, record, ConversationPolish, now, later, llm);
  }

  /**
   * After a successful generation, `/more` at any time within the record's
   * lifetime replays exactly the generated record with the fresh template.
   */
  lemma GenerateThenMore(s: Store, uid: string, now: int, later: int, llm: Llm)
    requires uid != "" && now <= later < now + SessionTtl
    requires StateIn(s, uid, now) == Some(AwaitingModeSelection)
    ensures var t := Handle(s, uid, GenerateMode, now, llm).0;
      var record := ChatProcessor.GenerateRecord(ReadSession(s, uid, now));
      Handle(t, uid, MoreCommand, later, llm).1 == StrippedContent(llm(ConversationMoreFresh, record))
  {
    var record := ChatProcessor.GenerateRecord(ReadSession(s, uid, now));
    GenerateChoice(s, uid, now, llm);
    ProduceOutcome(s, uid, record, ConversationGenerate, now, later, llm);
    ChatProcessor.MoreFollowsRecordKind(ReadSession(s, uid, now), "");
    assert UserIdentityField in record;
  }

  /** With no state, in the finished state, or in an unknown state, ordinary text changes nothing. */
  lemma IdleStatesKeepStore(s: Store, uid: string, message: string, now: int, llm: Llm)
    requires message != NewCommand && message != MoreCommand
    requires StateIn(s, uid, now).None? || StateIn(s, uid, now).value !in
      {AwaitingUserIdentity, AwaitingTargetIdentity, AwaitingContext, AwaitingPastConversation, AwaitingModeSelection, AwaitingDraft}
    ensures Handle(s, uid, message, now, llm).0 == s
    ensures StateIn(s, uid, now).None? ==> Handle(s, uid, message, now, llm).1 == Some(WelcomeReply)
    ensures StateIn(s, uid, now) == Some(ConversationComplete) ==> Handle(s, uid, message, now, llm).1 == Some(CompleteReply)
  {
  }

  /** When the model never raises, every message gets a reply. */
  lemma AlwaysReplies(s: Store, uid: string, message: string, now: int, llm: Llm)
    requires forall t, d :: llm(t, d).Some?
    ensures Handle(s, uid, message, now, llm).1.Some?
  {
    if message != NewCommand && message != MoreCommand && StateIn(s, uid, now).Some? {
      var state := StateIn(s, uid, now).value;
      var session := ReadSession(s, uid, now);
      if state == AwaitingModeSelection {
        assert llm(ConversationGenerate, ChatProcessor.GenerateRecord(session)).Some?;
      } else if state == AwaitingDraft {
        assert llm(ConversationPolish, ChatProcessor.PolishRecord(session, message)).Some?;
      }
    }
  }

  /** The conversation becomes finished only through a model answer in the mode choice or the draft state. */
  lemma CompleteOnlyAfterModel(s: Store, uid: string, message: string, now: int, llm: Llm)
    requires message != NewCommand
    requires StateIn(s, uid, now) != Some(ConversationComplete)
    requires StateIn(Handle(s, uid, message, now, llm).0, uid, now) == Some(ConversationComplete)
    ensures StateIn(s, uid, now) == Some(AwaitingModeSelection) || StateIn(s, uid, now) == Some(AwaitingDraft)
    ensures Handle(s, uid, message, now, llm).1.Some?
  {
    if message != MoreCommand && StateIn(s, uid, now).Some? {
      StepCompletes(s, uid, StateIn(s, uid, now).value, message, now, llm);
    }
  }

  /** A step finishes the conversation only from the mode choice or the draft, and only with a reply. */
  lemma StepCompletes(s: Store, uid: string, state: string, message: string, now: int, llm: Llm)
    requires StateIn(s, uid, now) == Some(state) && state != ConversationComplete
    requires StateIn(Step(s, uid, state, message, now, llm).0, uid, now) == Some(ConversationComplete)
    ensures state == AwaitingModeSelection || state == AwaitingDraft
    ensures Step(s, uid, state, message, now, llm).1.Some?
  {
    var session := ReadSession(s, uid, now);
    if state == AwaitingUserIdentity {
      CaptureStoresMessage(s, uid, UserIdentityField, AwaitingTargetIdentity, message, now, now);
    } else if state == AwaitingTargetIdentity {
      CaptureStoresMessage(s, uid, TargetIdentityField, AwaitingContext, message, now, now);
    } else if state == AwaitingContext {
      CaptureStoresMessage(s, uid, ContextField, AwaitingPastConversation, message, now, now);
    } else if state == AwaitingPastConversation {
      CaptureStoresMessage(s, uid, PastConversationField, AwaitingModeSelection, message, now, now);
    } else if state == AwaitingModeSelection {
      var choice := Text.Strip(message);
      if choice == GenerateMode {
        ProduceOutcome(s, uid, ChatProcessor.GenerateRecord(session), ConversationGenerate, now, now, llm);
      } else if choice == PolishMode {
        SetFieldReadBack(s, uid, StateField, AwaitingDraft, now, now);
      }
    } else if state == AwaitingDraft {
      ProduceOutcome(s, uid, ChatProcessor.PolishRecord(session, message), ConversationPolish, now, now, llm);
    }
  }

  /** Handling one user's message leaves every other user's records as they were. */
  lemma OtherUsersUntouched(s: Store, uid: string, u: string, message: string, now: int, llm: Llm)
    requires u != uid
    ensures UserUntouched(s, Handle(s, uid, message, now, llm).0, u)
  {
    var cleared := ClearIn(s, uid);
    WritesIsolated(cleared, uid, u, StateField, AwaitingUserIdentity, map[], now);
    match StateIn(s, uid, now)
    case None =>
    case Some(state) =>
      StepIsolated(s, uid, u, state, message, now, llm);
  }

  /** A step for one user leaves every other user's records as they were. */
  lemma StepIsolated(s: Store, uid: string, u: string, state: string, message: string, now: int, llm: Llm)
    requires u != uid
    ensures UserUntouched(s, Step(s, uid, state, message, now, llm).0, u)
  {
    var session := ReadSession(s, uid, now);
    if state == AwaitingUserIdentity {
      CaptureIsolated(s, uid, u, UserIdentityField, AwaitingTargetIdentity, message, now);
    } else if state == AwaitingTargetIdentity {
      CaptureIsolated(s, uid, u, TargetIdentityField, AwaitingContext, message, now);
    } else if state == AwaitingContext {
      CaptureIsolated(s, uid, u, ContextField, AwaitingPastConversation, message, now);
    } else if state == AwaitingPastConversation {
      CaptureIsolated(s, uid, u, PastConversationField, AwaitingModeSelection, message, now);
    } else if state == AwaitingModeSelection {
      WritesIsolated(s, uid, u, StateField, AwaitingDraft, map[], now);
      ProduceIsolated(s, uid, u, ChatProcessor.GenerateRecord(session), ConversationGenerate, now, llm);
    } else if state == AwaitingDraft {
      ProduceIsolated(s, uid, u, ChatProcessor.PolishRecord(session, message), ConversationPolish, now, llm);
    }
  }

  /** A capture step for one user leaves every other user's records as they were. */
  lemma CaptureIsolated(s: Store, uid: string, u: string, field: string, next: string, message: string, now: int)
    requires u != uid
    ensures UserUntouched(s, Capture(s, uid, field, next, message, now), u)
  {
    var mid := SetFieldIn(s, uid, field, message, now);
    WritesIsolated(s, uid, u, field, message, map[], now);
    WritesIsolated(mid, uid, u, StateField, next, map[], now);
    UntouchedTransitive(s, mid, Capture(s, uid, field, next, message, now), u);
  }

  /** Producing for one user leaves every other user's records as they were. */
  lemma ProduceIsolated(s: Store, uid: string, u: string, record: Dict, template: Template, now: int, llm: Llm)
    requires u != uid
    ensures UserUntouched(s, Produce(s, uid, record, template, now, llm).0, u)
  {
    var saved := ChatProcessor.SavedFor(s, uid, record, now);
    WritesIsolated(s, uid, u, StateField, ConversationComplete, record, now);
    WritesIsolated(saved, uid, u, StateField, ConversationComplete, record, now);
    UntouchedTransitive(s, saved, SetFieldIn(saved, uid, StateField, ConversationComplete, now), u);
  }
}
