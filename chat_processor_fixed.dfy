/**
 * `chat_processor_fixed.py`, the processor behind `app_simple_reply.py`.
 * Generation returns the model's stripped text when it already carries the
 * version-1 header; otherwise it rebuilds a three-version layout from the
 * first three lines of that text, with a placeholder for each missing
 * line. Polish and "more" return the stripped text as it is.
 */
module ChatProcessorFixed {
  import opened Wrappers
  import opened Generation
  import Text
  import ChatProcessor
  import SimpleSessionStore

  /** The marker whose absence triggers the rebuild. */
  const VersionMarker := "【版本1"
  const Intro := "以下是3個回覆選項，請選擇最適合的使用："
  const FormalHeader := "【版本1-正式禮貌】"
  const FriendlyHeader := "【版本2-中等友善】"
  const CasualHeader := "【版本3-輕鬆直接】"
  /** The placeholder for a line the model did not produce. */
  const Failed := "（生成失敗）"

  /** `lines[i] if len(lines) > i else "（生成失敗）"`. */
  function Slot(lines: seq<string>, i: nat): (r: string)
    ensures i < |lines| ==> r == lines[i]
    ensures i >= |lines| ==> r == Failed
  {
    if |lines| > i then lines[i] else Failed
  }

  /** The answer layout: the introduction, then each header over its line, blocks separated by a blank line. */
  function Layout(lines: seq<string>): seq<string> {
    [Intro, "", FormalHeader, Slot(lines, 0), "", FriendlyHeader, Slot(lines, 1), "", CasualHeader, Slot(lines, 2)]
  }

  /** The formatting step of `generate_conversation`, on already stripped text. */
  function Reformat(content: string): (r: string)
    ensures Text.Contains(content, VersionMarker) ==> r == content
  {
    if Text.Contains(content, VersionMarker) then content
    else
      var lines := Text.Split(content, "\n");
      Intro + "\n\n" + FormalHeader + "\n" + Slot(lines, 0)
        + "\n\n" + FriendlyHeader + "\n" + Slot(lines, 1)
        + "\n\n" + CasualHeader + "\n" + Slot(lines, 2)
  }

  /**
   * A rebuilt answer, read line by line, is exactly the layout over the
   * model's lines: its first line kept, the second and third kept or
   * replaced by the placeholder.
   */
  lemma ReformatLayout(content: string)
    requires !Text.Contains(content, VersionMarker)
    ensures Text.Split(Reformat(content), "\n") == Layout(Text.Split(content, "\n"))
  {
    var lines := Text.Split(content, "\n");
    SlotsHaveNoBreak(lines);
    FilledLayoutLines(Slot(lines, 0), Slot(lines, 1), Slot(lines, 2));
  }

  /** The rebuilt text over three single lines splits back into the ten layout lines. */
  lemma FilledLayoutLines(s0: string, s1: string, s2: string)
    requires '\n' !in s0 && '\n' !in s1 && '\n' !in s2
    ensures Text.Split(Intro + "\n\n" + FormalHeader + "\n" + s0
        + "\n\n" + FriendlyHeader + "\n" + s1
        + "\n\n" + CasualHeader + "\n" + s2, "\n")
      == [Intro, "", FormalHeader, s0, "", FriendlyHeader, s1, "", CasualHeader, s2]
  {
    var a4 := Intro + "\n\n" + FormalHeader + "\n" + s0;
    HeadersHaveNoBreak();
    FirstBlockLines(Intro, FormalHeader, s0);
    var a3 := a4 + "\n\n" + FriendlyHeader;
    var a2 := a3 + "\n" + s1;
    var a1 := a2 + "\n\n" + CasualHeader;
    BlankThenLine(a4, FriendlyHeader);
    var p3 := [Intro, "", FormalHeader, s0, "", FriendlyHeader];
    assert [Intro, "", FormalHeader, s0] + ["", FriendlyHeader] == p3;
    NextLine(a3, s1);
    var p2 := [Intro, "", FormalHeader, s0, "", FriendlyHeader, s1];
    assert p3 + [s1] == p2;
    BlankThenLine(a2, CasualHeader);
    var p1 := [Intro, "", FormalHeader, s0, "", FriendlyHeader, s1, "", CasualHeader];
    assert p2 + ["", CasualHeader] == p1;
    NextLine(a1, s2);
    assert p1 + [s2] == [Intro, "", FormalHeader, s0, "", FriendlyHeader, s1, "", CasualHeader, s2];
  }

  /** An introduction and a first version, all single lines, split into their four lines. */
  lemma FirstBlockLines(intro: string, header: string, s0: string)
    requires '\n' !in intro && '\n' !in header && '\n' !in s0
    ensures Text.Split(intro + "\n\n" + header + "\n" + s0, "\n") == [intro, "", header, s0]
  {
    var nl := "\n";
    var a5 := intro + "\n\n" + header;
    BlankThenLine(intro, header);
    SinglePiece(intro);
    var p5 := [intro, "", header];
    assert Text.Split(a5, nl) == p5;
    NextLine(a5, s0);
    assert p5 + [s0] == [intro, "", header, s0];
  }

  /** Appending a line break and a line adds that one line. */
  lemma NextLine(x: string, line: string)
    requires '\n' !in line
    ensures Text.Split(x + "\n" + line, "\n") == Text.Split(x, "\n") + [line]
  {
    Text.SplitAppend(x, '\n', line);
    Text.NoLineBreak(line);
  }

  /** Appending a blank line and a line adds both. */
  lemma BlankThenLine(x: string, line: string)
    requires '\n' !in line
    ensures Text.Split(x + "\n\n" + line, "\n") == Text.Split(x, "\n") + ["", line]
  {
    Text.SplitAppendTwice(x, '\n', line);
    Text.NoLineBreak(line);
  }

  /** A string without a line break is one line. */
  lemma SinglePiece(s: string)
    requires '\n' !in s
    ensures Text.Split(s, "\n") == [s]
  {
    Text.NoLineBreak(s);
  }

  /** Each slot of the layout is a single line. */
  lemma SlotsHaveNoBreak(lines: seq<string>)
    requires forall i :: 0 <= i < |lines| ==> !Text.Contains(lines[i], "\n")
    ensures forall i :: 0 <= i < 3 ==> '\n' !in Slot(lines, i)
  {
    forall i | 0 <= i < |lines|
      ensures '\n' !in lines[i]
    {
      Text.ContainsChar(lines[i], '\n');
    }
  }

  /** Each fixed line of the layout is a single line. */
  lemma HeadersHaveNoBreak()
    ensures '\n' !in Intro && '\n' !in FormalHeader && '\n' !in FriendlyHeader && '\n' !in CasualHeader
  {
  }

  /** The rebuilt answer always keeps the model's first line. */
  lemma FirstLineKept(content: string)
    ensures Layout(Text.Split(content, "\n"))[3] == Text.Split(content, "\n")[0]
  {
  }

  /** Every generated answer carries the version-1 header, and formatting an answer again changes nothing. */
  lemma ReformatIdempotent(content: string)
    ensures Text.Contains(Reformat(content), VersionMarker)
    ensures Reformat(Reformat(content)) == Reformat(content)
  {
    if !Text.Contains(content, VersionMarker) {
      var lines := Text.Split(content, "\n");
      var s0, s1, s2 := Slot(lines, 0), Slot(lines, 1), Slot(lines, 2);
      HeaderHasMarker();
      var a6 := Intro + "\n\n";
      Text.ContainsRight(a6, FormalHeader, VersionMarker);
      var r := a6 + FormalHeader;
      Text.ContainsLeft(r, "\n", VersionMarker);
      r := r + "\n";
      Text.ContainsLeft(r, s0, VersionMarker);
      r := r + s0;
      Text.ContainsLeft(r, "\n\n", VersionMarker);
      r := r + "\n\n";
      Text.ContainsLeft(r, FriendlyHeader, VersionMarker);
      r := r + FriendlyHeader;
      Text.ContainsLeft(r, "\n", VersionMarker);
      r := r + "\n";
      Text.ContainsLeft(r, s1, VersionMarker);
      r := r + s1;
      Text.ContainsLeft(r, "\n\n", VersionMarker);
      r := r + "\n\n";
      Text.ContainsLeft(r, CasualHeader, VersionMarker);
      r := r + CasualHeader;
      Text.ContainsLeft(r, "\n", VersionMarker);
      r := r + "\n";
      Text.ContainsLeft(r, s2, VersionMarker);
      r := r + s2;
      assert r == Reformat(content);
    }
  }

  /** The version-1 header starts with the marker. */
  lemma HeaderHasMarker()
    ensures Text.Contains(FormalHeader, VersionMarker)
  {
    assert FormalHeader == VersionMarker + "-正式禮貌】";
    Text.ContainsMiddle("", VersionMarker, "-正式禮貌】");
  }

  /** `if self.session_manager and user_id: save_last_prompt(...)`, on the in-memory sessions. */
  function SavedFor(s: SimpleSessionStore.UserSessions, uid: string, p: Dict): SimpleSessionStore.UserSessions {
    if uid != "" then SimpleSessionStore.SaveIn(s, uid, p) else s
  }

  /** The reply of `generate_conversation` for a model outcome. */
  function GenerateReply(out: Option<string>): (r: Option<string>)
    ensures r.Some? <==> out.Some?
    ensures r.Some? ==> Text.Contains(r.value, VersionMarker)
  {
    match out
    case None => None
    case Some(c) =>
      ReformatIdempotent(Text.Strip(c));
      Some(Reformat(Text.Strip(c)))
  }

  /** `generate_more`: a falsy record gives the fixed reply without a model call. */
  function GenerateMore(lastPrompt: Option<Dict>, llm: Llm): (r: Option<string>)
    ensures !IsTruthy(lastPrompt) ==> r == Some(ChatProcessor.NoRecordReply)
  {
    if !IsTruthy(lastPrompt) then Some(ChatProcessor.NoRecordReply)
    else StrippedContent(llm(VersionsMore, lastPrompt.value))
  }

  method GenerateConversation(sm: SimpleSessionStore.SimpleSessionManager?, session: Dict, userId: string, llm: Llm)
    returns (reply: Option<string>)
    modifies sm
    ensures sm != null ==> sm.userSessions == SavedFor(old(sm.userSessions), userId, ChatProcessor.GenerateRecord(session))
    ensures reply == GenerateReply(llm(VersionsGenerate, ChatProcessor.GenerateRecord(session)))
  {
    var lastPrompt := ChatProcessor.GenerateRecord(session);
    if sm != null && userId != "" {
      sm.SaveLastPrompt(userId, lastPrompt);
    }
    var result := llm(VersionsGenerate, lastPrompt);
    if result.Some? {
      var content := Text.Strip(result.value);
      reply := Some(Reformat(content));
    } else {
      reply := None;
    }
  }

  method PolishConversation(sm: SimpleSessionStore.SimpleSessionManager?, session: Dict, draft: string, userId: string, llm: Llm)
    returns (reply: Option<string>)
    modifies sm
    ensures sm != null ==> sm.userSessions == SavedFor(old(sm.userSessions), userId, ChatProcessor.PolishRecord(session, draft))
    ensures reply == StrippedContent(llm(VersionsPolish, ChatProcessor.PolishRecord(session, draft)))
  {
    var lastPrompt := ChatProcessor.PolishRecord(session, draft);
    if sm != null && userId != "" {
      sm.SaveLastPrompt(userId, lastPrompt);
    }
    var result := llm(VersionsPolish, lastPrompt);
    reply := StrippedContent(result);
  }
}
