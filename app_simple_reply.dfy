/**
 * The in-memory session store of `app_simple_reply.py`: a process-wide
 * dictionary from user id to a per-user dictionary, of which only the
 * `last_prompt` entry is ever written.
 */
module SimpleSessionStore {
  import opened Wrappers
  import opened Generation

  const LastPromptKey := "last_prompt"

  /** `user_sessions`: user id to that user's entries. */
  type UserSessions = map<string, map<string, Dict>>

  /** `user_sessions.get(user_id, {})`. */
  function SessionOf(s: UserSessions, uid: string): map<string, Dict> {
    if uid in s then s[uid] else map[]
  }

  /** `save_last_prompt`: creates the user's entry if needed and sets `last_prompt`. */
  function SaveIn(s: UserSessions, uid: string, p: Dict): UserSessions {
    s[uid := SessionOf(s, uid)[LastPromptKey := p]]
  }

  /** `get_last_prompt`: `user_sessions.get(user_id, {}).get('last_prompt')`. */
  function LastPromptOf(s: UserSessions, uid: string): Option<Dict> {
    var d := SessionOf(s, uid);
    if LastPromptKey in d then Some(d[LastPromptKey]) else None
  }

  /** A saved prompt reads back unchanged, and the user's other entries are kept. */
  lemma SaveReadBack(s: UserSessions, uid: string, p: Dict)
    ensures LastPromptOf(SaveIn(s, uid, p), uid) == Some(p)
    ensures forall k :: k != LastPromptKey ==>
      (k in SessionOf(SaveIn(s, uid, p), uid) <==> k in SessionOf(s, uid))
    ensures forall k :: k != LastPromptKey && k in SessionOf(s, uid) ==>
      SessionOf(SaveIn(s, uid, p), uid)[k] == SessionOf(s, uid)[k]
  {
  }

  /** Saving for one user leaves every other user's entries as they were. */
  lemma SaveIsolated(s: UserSessions, uid: string, u: string, p: Dict)
    requires u != uid
    ensures SessionOf(SaveIn(s, uid, p), u) == SessionOf(s, u)
    ensures LastPromptOf(SaveIn(s, uid, p), u) == LastPromptOf(s, u)
  {
  }

  /** A fresh process knows no user. */
  lemma FreshHasNoPrompt(uid: string)
    ensures SessionOf(map[], uid) == map[]
    ensures LastPromptOf(map[], uid) == None
  {
  }

  /**
   * `SimpleSessionManager`. Its state is the module-level `user_sessions`
   * dictionary, held here as the field `userSessions`.
   */
  class SimpleSessionManager {
    var userSessions: UserSessions

    /** A process starts with `user_sessions = {}`. */
    constructor()
      ensures userSessions == map[]
    {
      userSessions := map[];
    }

    method GetSessionData(uid: string) returns (data: map<string, Dict>)
      ensures data == SessionOf(userSessions, uid)
      ensures uid !in userSessions ==> data == map[]
    {
      if uid in userSessions {
        data := userSessions[uid];
      } else {
        data := map[];
      }
    }

    method SaveLastPrompt(uid: string, prompt: Dict)
      modifies this
      ensures userSessions == SaveIn(old(userSessions), uid, prompt)
    {
      if uid !in userSessions {
        userSessions := userSessions[uid := map[]];
      }
      userSessions := userSessions[uid := userSessions[uid][LastPromptKey := prompt]];
    }

    method GetLastPrompt(uid: string) returns (prompt: Option<Dict>)
      ensures prompt == LastPromptOf(userSessions, uid)
      ensures prompt.Some? ==> uid in userSessions
    {
      var data := GetSessionData(uid);
      if LastPromptKey in data {
        prompt := Some(data[LastPromptKey]);
      } else {
        prompt := None;
      }
    }
  }
}

/**
 * `app_simple_reply.py`: a one-shot bot. `/help` answers with the usage
 * text, `/more` replays the last record, and any other message is parsed
 * into a conversation record by keyword rules and answered at once.
 */
module SimpleReplyApp {
  import opened Wrappers
  import opened Generation
  import opened SessionStore
  import Text
  import ChatProcessor
  import ChatProcessorFixed
  import opened SimpleSessionStore

  const HelpCommand := "/help"
  const MoreCommand := "/more"

  const HelpText :=
    "💡 使用說明：\n\n直接告訴我你的情況，我會提供3個可以直接使用的回覆版本。\n\n範例：\n「我是滑板教練，要跟學生說學費要調漲」\n「幫我拒絕加班」\n「怎麼跟老闆請假」\n\n輸入 /more 可以獲得更多版本"

  /** The answer to `/more` before any situation was described. */
  const NoSituationReply := "請先告訴我你的情況"

  // ---------------------------------------------------------------------------
  // `parse_user_input`
  // ---------------------------------------------------------------------------

  const IAm := "我是"
  const Comma := "，"
  const Say := "說"

  /** The words that introduce the person spoken to, in the order they are tried. */
  const TargetKeywords: seq<string> := ["跟", "向", "對"]

  /**
   * The identity stated after the first `我是`, cut at the first `，`, then
   * stripped; `""` when there is no `我是`.
   */
  function StatedIdentity(message: string): string {
    if Text.Contains(message, IAm) then
      var parts := Text.Split(message, IAm);
      Text.Strip(Text.Split(Text.Split(parts[1], Comma)[0], Comma)[0])
    else ""
  }

  /** The first of `keywords[from..]` that occurs in the message. */
  function FirstKeywordFrom(message: string, keywords: seq<string>, from: nat): (r: Option<nat>)
    decreases |keywords| - from
    ensures r.Some? ==> from <= r.value < |keywords| && Text.Contains(message, keywords[r.value])
    ensures r.Some? ==> forall j :: from <= j < r.value ==> !Text.Contains(message, keywords[j])
    ensures r.None? ==> forall j :: from <= j < |keywords| ==> !Text.Contains(message, keywords[j])
  {
    if from >= |keywords| then None
    else if Text.Contains(message, keywords[from]) then Some(from)
    else FirstKeywordFrom(message, keywords, from + 1)
  }

  /** The piece after a keyword, cut at the first space, `說` and `，`, then stripped. */
  function CutTarget(piece: string): string {
    Text.Strip(Text.Split(Text.Split(Text.Split(piece, " ")[0], Say)[0], Comma)[0])
  }

  /** The person stated after the first keyword the message contains; `""` when it has none. */
  function StatedTarget(message: string): string {
    match FirstKeywordFrom(message, TargetKeywords, 0)
    case None => ""
    case Some(i) =>
      var parts := Text.Split(message, TargetKeywords[i]);
      CutTarget(parts[1])
  }

  /** The identity guessed from the situation: `教練`, then `老師`, then `員工` or `請假`, else `我`. */
  function GuessedIdentity(message: string): (r: string)
    ensures r in {"教練", "老師", "員工", "我"}
    ensures r == "教練" <==> Text.Contains(message, "教練")
    ensures r == "老師" <==> !Text.Contains(message, "教練") && Text.Contains(message, "老師")
    ensures r == "員工" <==>
      !Text.Contains(message, "教練") && !Text.Contains(message, "老師")
      && (Text.Contains(message, "員工") || Text.Contains(message, "請假"))
  {
    if Text.Contains(message, "教練") then "教練"
    else if Text.Contains(message, "老師") then "老師"
    else if Text.Contains(message, "員工") || Text.Contains(message, "請假") then "員工"
    else "我"
  }

  /** The person spoken to, guessed from the situation: `學生`, then `老闆` or `主管`, then `同事`, then `客戶`, else `對方`. */
  function GuessedTarget(message: string): (r: string)
    ensures r in {"學生", "主管", "同事", "客戶", "對方"}
    ensures r == "學生" <==> Text.Contains(message, "學生")
    ensures r == "主管" <==>
      !Text.Contains(message, "學生")
      && (Text.Contains(message, "老闆") || Text.Contains(message, "主管"))
    ensures r == "同事" <==>
      !Text.Contains(message, "學生") && !Text.Contains(message, "老闆")
      && !Text.Contains(message, "主管") && Text.Contains(message, "同事")
    ensures r == "客戶" <==>
      !Text.Contains(message, "學生") && !Text.Contains(message, "老闆")
      && !Text.Contains(message, "主管") && !Text.Contains(message, "同事") && Text.Contains(message, "客戶")
  {
    if Text.Contains(message, "學生") then "學生"
    else if Text.Contains(message, "老闆") || Text.Contains(message, "主管") then "主管"
    else if Text.Contains(message, "同事") then "同事"
    else if Text.Contains(message, "客戶") then "客戶"
    else "對方"
  }

  /** The identity `parse_user_input` settles on: the stated one, else the guess. */
  function ChosenIdentity(message: string): (r: string)
    ensures r != ""
    ensures StatedIdentity(message) != "" ==> r == StatedIdentity(message)
    ensures StatedIdentity(message) == "" ==> r == GuessedIdentity(message)
  {
    var identity := StatedIdentity(message);
    if identity != "" then identity else GuessedIdentity(message)
  }

  /** The person spoken to that `parse_user_input` settles on: the stated one, else the guess. */
  function ChosenTarget(message: string): (r: string)
    ensures r != ""
    ensures StatedTarget(message) != "" ==> r == StatedTarget(message)
    ensures StatedTarget(message) == "" ==> r == GuessedTarget(message)
  {
    var target := StatedTarget(message);
    if target != "" then target else GuessedTarget(message)
  }

  /** A conversation record with the given identities and situation and no history. */
  function FreshRecord(identity: string, target: string, message: string): (d: Dict)
    ensures d.Keys == ChatProcessor.RecordFields
    ensures d[UserIdentityField] == identity && d[TargetIdentityField] == target
    ensures d[ContextField] == message
    ensures d[PastConversationField] == ChatProcessor.NoPastConversation
  {
    map[
      UserIdentityField := identity,
      TargetIdentityField := target,
      ContextField := message,
      PastConversationField := ChatProcessor.NoPastConversation
    ]
  }

  /**
   * What `parse_user_input` returns: the message as the situation, no
   * history, and both identities, stated ones taking precedence over
   * guesses, so that neither is ever empty.
   */
  function ParsedInput(message: string): (d: Dict)
    ensures d.Keys == ChatProcessor.RecordFields
    ensures d[ContextField] == message
    ensures d[PastConversationField] == ChatProcessor.NoPastConversation
    ensures d[UserIdentityField] != "" && d[TargetIdentityField] != ""
  {
    FreshRecord(ChosenIdentity(message), ChosenTarget(message), message)
  }

  /** Setting one identity of a fresh record. */
  lemma FreshRecordUpdate(identity: string, target: string, message: string, v: string)
    ensures FreshRecord(identity, target, message)[UserIdentityField := v] == FreshRecord(v, target, message)
    ensures FreshRecord(identity, target, message)[TargetIdentityField := v] == FreshRecord(identity, v, message)
  {
  }

  /** `parse_user_input`, with its loop over the target keywords. */
  method ParseUserInput(message: string) returns (data: Dict)
    ensures data == ParsedInput(message)
  {
    data := FreshRecord("", "", message);
    if Text.Contains(message, IAm) {
      var parts := Text.Split(message, IAm);
      if |parts| > 1 {
        var identityPart := Text.Split(Text.Split(parts[1], Comma)[0], Comma)[0];
        FreshRecordUpdate("", "", message, Text.Strip(identityPart));
        data := data[UserIdentityField := Text.Strip(identityPart)];
      }
    }
    assert data == FreshRecord(StatedIdentity(message), "", message);
    if Text.Contains(message, "跟") || Text.Contains(message, "向") || Text.Contains(message, "對") {
      var k := 0;
      while k < |TargetKeywords|
        invariant 0 <= k <= |TargetKeywords|
        invariant forall j :: 0 <= j < k ==> !Text.Contains(message, TargetKeywords[j])
        invariant data == FreshRecord(StatedIdentity(message), "", message)
      {
        var keyword := TargetKeywords[k];
        if Text.Contains(message, keyword) {
          var parts := Text.Split(message, keyword);
          if |parts| > 1 {
            FreshRecordUpdate(StatedIdentity(message), "", message, CutTarget(parts[1]));
            data := data[TargetIdentityField := CutTarget(parts[1])];
          }
          assert FirstKeywordFrom(message, TargetKeywords, 0) == Some(k);
          break;
        }
        k := k + 1;
      }
    }
    assert data == FreshRecord(StatedIdentity(message), StatedTarget(message), message);
    if data[UserIdentityField] == "" {
      FreshRecordUpdate(StatedIdentity(message), StatedTarget(message), message, GuessedIdentity(message));
      data := data[UserIdentityField := GuessedIdentity(message)];
    }
    assert data == FreshRecord(ChosenIdentity(message), StatedTarget(message), message);
    if data[TargetIdentityField] == "" {
      FreshRecordUpdate(ChosenIdentity(message), StatedTarget(message), message, GuessedTarget(message));
      data := data[TargetIdentityField := GuessedTarget(message)];
    }
  }

  /** The record the processor builds and saves from a parse is the parse itself. */
  lemma ParsedIsRecord(message: string)
    ensures ChatProcessor.GenerateRecord(ParsedInput(message)) == ParsedInput(message)
  {
  }

  /**
   * An identity written as `我是<id>，...` is taken as stated, when nothing
   * before it starts with `我` and the identity has no `我` or `，` and no
   * surrounding whitespace.
   */
  lemma {:induction false} StatedIdentityTaken(prefix: string, id: string, rest: string)
    requires '我' !in prefix && '我' !in id && '，' !in id
    requires id != "" && Text.Strip(id) == id
    ensures ParsedInput(prefix + IAm + id + Comma + rest)[UserIdentityField] == id
  {
    var message := prefix + IAm + id + Comma + rest;
    var tail := id + Comma + rest;
    assert message == prefix + IAm + tail;
    Text.ContainsMiddle(prefix, IAm, tail);
    Text.SplitAtFirst(prefix, IAm, tail);
    var parts := Text.Split(message, IAm);
    assert parts[1] == Text.Split(tail, IAm)[0];
    assert tail == (id + Comma) + rest;
    Text.FirstPieceShift(id + Comma, rest, IAm);
    var piece := Text.Split(rest, IAm)[0];
    assert parts[1] == id + Comma + piece;
    Text.SplitAtFirst(id, Comma, piece);
    Text.ContainsChar(id, '，');
    assert StatedIdentity(message) == id;
  }

  /**
   * The person written as `<keyword><target>說...` is taken as stated,
   * when no keyword tried earlier occurs in the message, nothing before
   * the keyword starts like it, and the target has no keyword or cut
   * character and no surrounding whitespace.
   */
  lemma {:induction false} StatedTargetTaken(i: nat, prefix: string, target: string, rest: string)
    requires i < |TargetKeywords|
    requires forall j :: 0 <= j < i ==>
      !Text.Contains(prefix + TargetKeywords[i] + target + Say + rest, TargetKeywords[j])
    requires TargetKeywords[i][0] !in prefix && TargetKeywords[i][0] !in target
    requires ' ' !in target && '說' !in target && '，' !in target
    requires target != "" && Text.Strip(target) == target
    ensures ParsedInput(prefix + TargetKeywords[i] + target + Say + rest)[TargetIdentityField] == target
  {
    var keyword := TargetKeywords[i];
    var message := prefix + keyword + target + Say + rest;
    var head := target + Say;
    assert message == prefix + keyword + head + rest;
    PieceAfterKeyword(prefix, keyword, head, rest);
    FirstKeywordAt(message, TargetKeywords, 0, i);
    CutStatedTarget(target, Text.Split(rest, keyword)[0]);
    assert StatedTarget(message) == target;
  }

  /** The first keyword found is the one at `i` when it occurs and none from `from` up to it does. */
  lemma {:induction false} FirstKeywordAt(message: string, keywords: seq<string>, from: nat, i: nat)
    requires from <= i < |keywords| && Text.Contains(message, keywords[i])
    requires forall j :: from <= j < i ==> !Text.Contains(message, keywords[j])
    decreases i - from
    ensures FirstKeywordFrom(message, keywords, from) == Some(i)
  {
    if from < i {
      FirstKeywordAt(message, keywords, from + 1, i);
    }
  }

  /** The piece after the first occurrence of a keyword, when the text right after it is free of the keyword's first character. */
  lemma PieceAfterKeyword(prefix: string, keyword: string, head: string, rest: string)
    requires keyword != "" && keyword[0] !in prefix && keyword[0] !in head
    ensures Text.Contains(prefix + keyword + head + rest, keyword)
    ensures |Text.Split(prefix + keyword + head + rest, keyword)| >= 2
    ensures Text.Split(prefix + keyword + head + rest, keyword)[1] == head + Text.Split(rest, keyword)[0]
  {
    var tail := head + rest;
    assert prefix + keyword + head + rest == prefix + keyword + tail;
    Text.ContainsMiddle(prefix, keyword, tail);
    Text.SplitAtFirst(prefix, keyword, tail);
    Text.FirstPieceShift(head, rest, keyword);
  }

  /** A stated person followed by `說` is cut back to exactly that person. */
  lemma CutStatedTarget(target: string, x: string)
    requires ' ' !in target && '說' !in target && '，' !in target
    requires target != "" && Text.Strip(target) == target
    ensures CutTarget((target + Say) + x) == target
  {
    Text.FirstPieceShift(target + Say, x, " ");
    var y := Text.Split(x, " ")[0];
    assert Text.Split((target + Say) + x, " ")[0] == target + Say + y;
    Text.SplitAtFirst(target, Say, y);
    Text.ContainsChar(target, '，');
  }

  /** The first example of the usage text, `我是滑板教練，要跟學生說學費要調漲`: the identity is read as stated. */
  lemma UsageExampleIdentity(message: string, identity: string)
    requires message == "我是滑板教練，要跟學生說學費要調漲" && identity == "滑板教練"
    ensures ParsedInput(message)[UserIdentityField] == identity
  {
    var rest := "要跟學生說學費要調漲";
    assert message == "" + IAm + identity + Comma + rest;
    assert Text.StrippedOf(identity, Text.Whitespace);
    StatedIdentityTaken("", identity, rest);
  }

  /** The same example: the person spoken to is read as stated. */
  lemma UsageExampleTarget(message: string, target: string)
    requires message == "我是滑板教練，要跟學生說學費要調漲" && target == "學生"
    ensures ParsedInput(message)[TargetIdentityField] == target
  {
    var prefix := "我是滑板教練，要";
    var rest := "學費要調漲";
    assert message == prefix + TargetKeywords[0] + target + Say + rest;
    assert Text.StrippedOf(target, Text.Whitespace);
    StatedTargetTaken(0, prefix, target, rest);
  }

  // ---------------------------------------------------------------------------
  // `handle_message`
  // ---------------------------------------------------------------------------

  /** What `handle_message` does: the sessions afterwards and the reply (`None`: the model call raised). */
  function Handle(s: UserSessions, uid: string, message: string, llm: Llm): (UserSessions, Option<string>) {
    if message == HelpCommand then (s, Some(HelpText))
    else if message == MoreCommand then
      var lastPrompt := LastPromptOf(s, uid);
      if IsTruthy(lastPrompt) then (s, ChatProcessorFixed.GenerateMore(lastPrompt, llm))
      else (s, Some(NoSituationReply))
    else
      var record := ChatProcessor.GenerateRecord(ParsedInput(message));
      (ChatProcessorFixed.SavedFor(s, uid, record), ChatProcessorFixed.GenerateReply(llm(VersionsGenerate, record)))
  }

  method HandleMessage(sm: SimpleSessionManager, uid: string, message: string, llm: Llm)
    returns (reply: Option<string>)
    modifies sm
    ensures (sm.userSessions, reply) == Handle(old(sm.userSessions), uid, message, llm)
  {
    if message == HelpCommand {
      reply := Some(HelpText);
    } else if message == MoreCommand {
      var lastPrompt := sm.GetLastPrompt(uid);
      if IsTruthy(lastPrompt) {
        reply := ChatProcessorFixed.GenerateMore(lastPrompt, llm);
      } else {
        reply := Some(NoSituationReply);
      }
    } else {
      var contextData := ParseUserInput(message);
      reply := ChatProcessorFixed.GenerateConversation(sm, contextData, uid, llm);
    }
  }

  // ---------------------------------------------------------------------------
  // Properties of the bot
  // ---------------------------------------------------------------------------

  /** The commands never change the sessions; `/more` with nothing saved asks for a situation. */
  lemma CommandsKeepSessions(s: UserSessions, uid: string, llm: Llm)
    ensures Handle(s, uid, HelpCommand, llm) == (s, Some(HelpText))
    ensures Handle(s, uid, MoreCommand, llm).0 == s
    ensures LastPromptOf(s, uid).None? ==> Handle(s, uid, MoreCommand, llm).1 == Some(NoSituationReply)
  {
  }

  /**
   * A described situation is saved as the user's record, and the reply
   * (when the model answers) always carries the version-1 header.
   */
  lemma SituationSaved(s: UserSessions, uid: string, message: string, llm: Llm)
    requires message != HelpCommand && message != MoreCommand && uid != ""
    ensures LastPromptOf(Handle(s, uid, message, llm).0, uid) == Some(ParsedInput(message))
    ensures Handle(s, uid, message, llm).1.Some? <==> llm(VersionsGenerate, ParsedInput(message)).Some?
    ensures Handle(s, uid, message, llm).1.Some? ==>
      Text.Contains(Handle(s, uid, message, llm).1.value, ChatProcessorFixed.VersionMarker)
  {
    ParsedIsRecord(message);
    SaveReadBack(s, uid, ParsedInput(message));
  }

  /** `/more` after a described situation asks the model again with that situation's record. */
  lemma MoreReplaysSituation(s: UserSessions, uid: string, message: string, llm: Llm)
    requires message != HelpCommand && message != MoreCommand && uid != ""
    ensures Handle(Handle(s, uid, message, llm).0, uid, MoreCommand, llm).1
         == StrippedContent(llm(VersionsMore, ParsedInput(message)))
  {
    SituationSaved(s, uid, message, llm);
    assert UserIdentityField in ParsedInput(message);
  }

  /** One user's messages never change another user's entries. */
  lemma OtherUsersUntouched(s: UserSessions, uid: string, u: string, message: string, llm: Llm)
    requires u != uid
    ensures SessionOf(Handle(s, uid, message, llm).0, u) == SessionOf(s, u)
  {
    if message != HelpCommand && message != MoreCommand && uid != "" {
      SaveIsolated(s, uid, u, ChatProcessor.GenerateRecord(ParsedInput(message)));
    }
  }
}
