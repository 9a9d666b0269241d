/**
 * `chat_processor_final.py`: the same three operations as `ChatProcessor`,
 * but every answer is wrapped in a fixed header, a 40-character `=` rule
 * above and below the model's stripped text, and a fixed footer. The
 * generate record carries one more field, an instruction that is set
 * exactly when the history asks a question.
 */
module ChatProcessorFinal {
  import opened Wrappers
  import opened Generation
  import opened SessionStore
  import Text
  import ChatProcessor

  const ContextInstructionField := "context_instruction"
  const TaskDescriptionField := "task_description"

  /** The full-width question mark the history is searched for. */
  const QuestionMark: char := '？'

  /** The instruction sent when the history contains a question. */
  const QuestionInstruction: string :=
    "\n            特別注意：對方提出了問題，你的回覆必須直接回答這個問題。\n            從過去對話中找出對方的疑問，並在回覆中給予具體答案。\n            "

  /** `context_instruction`: set only for a real history (not `'無'`) that contains `？`. */
  function ContextInstruction(past: string): (r: string)
    ensures r != "" <==> past != ChatProcessor.NoPastConversation && QuestionMark in past
    ensures r == "" || r == QuestionInstruction
  {
    if past != ChatProcessor.NoPastConversation && QuestionMark in past then QuestionInstruction else ""
  }

  /** `last_prompt` of `generate_conversation`: the common record plus the instruction. */
  function GenerateRecord(session: Dict): (p: Dict)
    ensures p.Keys == ChatProcessor.RecordFields + {ContextInstructionField}
    ensures p - {ContextInstructionField} == ChatProcessor.GenerateRecord(session)
    ensures ChatProcessor.DraftField !in p
    ensures p[ContextInstructionField] != "" <==>
      PastConversationField in session && session[PastConversationField] != ChatProcessor.NoPastConversation
      && QuestionMark in session[PastConversationField]
  {
    var q := ChatProcessor.GenerateRecord(session);
    assert ContextInstructionField !in q;
    q[ContextInstructionField := ContextInstruction(q[PastConversationField])]
  }

  // ---------------------------------------------------------------------------
  // The framing of every answer
  // ---------------------------------------------------------------------------

  /** `"=" * 40`. */
  function Rule(): (r: string)
    ensures |r| == 40
    ensures forall i | 0 <= i < 40 :: r[i] == '='
  {
    Text.Repeat('=', 40)
  }

  /** `header + rule + "\n" + body + "\n" + rule + footer`. */
  function Framed(header: string, body: string, footer: string): string {
    header + Rule() + "\n" + body + "\n" + Rule() + footer
  }

  /** The model's text sits at a fixed place in the framed answer, so it can always be read back. */
  lemma FramedBodyRecoverable(header: string, body: string, footer: string)
    ensures |Framed(header, body, footer)| == |header| + |body| + |footer| + 82
    ensures Framed(header, body, footer)[..|header|] == header
    ensures Framed(header, body, footer)[|header| + 41..|header| + 41 + |body|] == body
    ensures Framed(header, body, footer)[|header| + |body| + 82..] == footer
  {
    var out := Framed(header, body, footer);
    var prefix := header + Rule() + "\n";
    assert out == prefix + (body + ("\n" + Rule() + footer));
    assert |prefix| == |header| + 41;
    assert out[|header| + 41..] == body + ("\n" + Rule() + footer);
    assert out[..|header|] == prefix[..|header|];
    assert out[|header| + 41..|header| + 41 + |body|] == (body + ("\n" + Rule() + footer))[..|body|];
    assert out == (prefix + body + "\n" + Rule()) + footer;
  }

  /** Different model texts give different answers under the same header and footer. */
  lemma FramedInjective(header: string, footer: string, b1: string, b2: string)
    ensures Framed(header, b1, footer) == Framed(header, b2, footer) ==> b1 == b2
  {
    FramedBodyRecoverable(header, b1, footer);
    FramedBodyRecoverable(header, b2, footer);
  }

  const GenerateHeader := "📝 以下是3個回覆選項，請選擇適合的複製使用：\n\n"
  const GenerateFooter := "\n\n💡 小提示：直接長按訊息即可複製\n輸入 /more 可獲得更多版本"
  const PolishHeader := "✨ 以下是優化後的3個版本：\n\n"
  const PolishFooter := "\n\n💡 小提示：直接長按訊息即可複製"
  const MoreHeader := "🔄 更多回覆選項：\n\n"
  const MoreFooter := "\n\n💡 還需要更多？再輸入 /more"

  /** The answer for a model call, passing a raised call through. */
  function FramedReply(header: string, out: Option<string>, footer: string): (r: Option<string>)
    ensures r.Some? <==> out.Some?
    ensures r.Some? ==> r.value == Framed(header, Text.Strip(out.value), footer)
  {
    match out
    case None => None
    case Some(c) => Some(Framed(header, Text.Strip(c), footer))
  }

  // ---------------------------------------------------------------------------
  // "More"
  // ---------------------------------------------------------------------------

  const PolishTask := "優化草稿"
  const ReplyTask := "回覆對話"

  /** `task_description`: a draft refinement when the record has a `draft` key. */
  function TaskDescription(lastPrompt: Dict): (t: string)
    ensures t == PolishTask <==> ChatProcessor.DraftField in lastPrompt
    ensures t == PolishTask || t == ReplyTask
  {
    if ChatProcessor.DraftField in lastPrompt then PolishTask else ReplyTask
  }

  /** `last_prompt['task_description'] = ...`: the record the model sees, which the caller's dict also becomes. */
  function MoreRequest(lastPrompt: Dict): (q: Dict)
    ensures q.Keys == lastPrompt.Keys + {TaskDescriptionField}
    ensures q[TaskDescriptionField] == TaskDescription(lastPrompt)
    ensures forall k :: k in lastPrompt && k != TaskDescriptionField ==> q[k] == lastPrompt[k]
  {
    lastPrompt[TaskDescriptionField := TaskDescription(lastPrompt)]
  }

  /**
   * `generate_more`: the reply, and the caller's record afterwards. A falsy
   * record gives the fixed reply, no model call, and is left as it was.
   */
  function GenerateMore(lastPrompt: Option<Dict>, llm: Llm): (r: (Option<string>, Option<Dict>))
    ensures !IsTruthy(lastPrompt) ==> r == (Some(ChatProcessor.NoRecordReply), lastPrompt)
    ensures IsTruthy(lastPrompt) ==> r.1 == Some(MoreRequest(lastPrompt.value))
  {
    if !IsTruthy(lastPrompt) then (Some(ChatProcessor.NoRecordReply), lastPrompt)
    else
      var q := MoreRequest(lastPrompt.value);
      (FramedReply(MoreHeader, llm(FinalMore, q), MoreFooter), Some(q))
  }

  /** Asking for more twice from the same record sends the model the same request both times. */
  lemma MoreRequestStable(lastPrompt: Dict)
    ensures MoreRequest(MoreRequest(lastPrompt)) == MoreRequest(lastPrompt)
  {
    assert TaskDescription(MoreRequest(lastPrompt)) == TaskDescription(lastPrompt);
  }

  /** After a generation the "more" task is a reply; after a polish it is a draft refinement. */
  lemma MoreFollowsRecordKind(session: Dict, draft: string)
    ensures MoreRequest(GenerateRecord(session))[TaskDescriptionField] == ReplyTask
    ensures MoreRequest(ChatProcessor.PolishRecord(session, draft))[TaskDescriptionField] == PolishTask
  {
    assert ChatProcessor.DraftField in ChatProcessor.PolishRecord(session, draft);
  }

  // ---------------------------------------------------------------------------
  // The two operations that save a record
  // ---------------------------------------------------------------------------

  method GenerateConversation(sm: SessionManager?, session: Dict, userId: string, now: int, llm: Llm)
    returns (reply: Option<string>)
    modifies sm
    ensures sm != null ==> sm.records == ChatProcessor.SavedFor(old(sm.records), userId, GenerateRecord(session), now)
    ensures reply == FramedReply(GenerateHeader, llm(FinalGenerate, GenerateRecord(session)), GenerateFooter)
  {
    var pastConv := Get(session, PastConversationField, ChatProcessor.NoPastConversation);
    var contextInstruction := ContextInstruction(pastConv);
    var lastPrompt := ChatProcessor.GenerateRecord(session)[ContextInstructionField := contextInstruction];
    if sm != null && userId != "" {
      sm.SaveLastPrompt(userId, lastPrompt, now);
    }
    var result := llm(FinalGenerate, lastPrompt);
    if result.Some? {
      var content := Text.Strip(result.value);
      var formatted := GenerateHeader;
      formatted := formatted + Rule() + "\n";
      formatted := formatted + content;
      formatted := formatted + "\n" + Rule();
      formatted := formatted + GenerateFooter;
      reply := Some(formatted);
    } else {
      reply := None;
    }
  }

  method PolishConversation(sm: SessionManager?, session: Dict, draft: string, userId: string, now: int, llm: Llm)
    returns (reply: Option<string>)
    modifies sm
    ensures sm != null ==> sm.records == ChatProcessor.SavedFor(old(sm.records), userId, ChatProcessor.PolishRecord(session, draft), now)
    ensures reply == FramedReply(PolishHeader, llm(FinalPolish, ChatProcessor.PolishRecord(session, draft)), PolishFooter)
  {
    var lastPrompt := ChatProcessor.PolishRecord(session, draft);
    if sm != null && userId != "" {
      sm.SaveLastPrompt(userId, lastPrompt, now);
    }
    var result := llm(FinalPolish, lastPrompt);
    if result.Some? {
      var formatted := PolishHeader;
      formatted := formatted + Rule() + "\n";
      formatted := formatted + Text.Strip(result.value);
      formatted := formatted + "\n" + Rule();
      formatted := formatted + PolishFooter;
      reply := Some(formatted);
    } else {
      reply := None;
    }
  }
}
