/**
 * `reply_generator.py`: reply options parsed out of the model's text, the
 * quick-scenario table, the parameters of the option prompt, and the tone
 * map of tone adjustment.
 */
module ReplyGenerator {
  import opened Wrappers
  import opened Generation
  import Text

  // ---------------------------------------------------------------------------
  // Reply options
  // ---------------------------------------------------------------------------

  /** The three styles an option can have (`'formal'`, `'balanced'`, `'casual'`). */
  datatype Style = Formal | Balanced | Casual

  /** One option dict: `style`, `emoji`, `title` and `text`. */
  datatype ReplyOption = ReplyOption(style: Style, emoji: string, title: string, text: string)

  /** The marker that opens an option section in the model's text. */
  const OptionMarker := "【選項"
  /** The character that closes an option's title. */
  const TitleEnd: char := '】'

  /** The emoji paired with each style. */
  function EmojiOf(style: Style): string {
    match style
    case Formal => "👔"
    case Balanced => "🤝"
    case Casual => "😊"
  }

  /** The pairing of styles and emojis is one to one. */
  lemma EmojiDeterminesStyle(a: Style, b: Style)
    ensures EmojiOf(a) == EmojiOf(b) <==> a == b
  {
    if a != b {
      assert EmojiOf(a)[0] != EmojiOf(b)[0];
    }
  }

  /** The style of a title: formal words win over balanced words, and anything else is casual. */
  function StyleOf(title: string): (s: Style)
    ensures s == Formal <==> Text.Contains(title, "正式") || Text.Contains(title, "委婉")
    ensures s == Balanced <==>
      !(Text.Contains(title, "正式") || Text.Contains(title, "委婉"))
      && (Text.Contains(title, "平衡") || Text.Contains(title, "適中"))
  {
    if Text.Contains(title, "正式") || Text.Contains(title, "委婉") then Formal
    else if Text.Contains(title, "平衡") || Text.Contains(title, "適中") then Balanced
    else Casual
  }

  /**
   * The text of an option from what follows its title: stripped, brackets
   * removed, cut to its first line, stripped again.
   */
  function CleanText(rest: string): string {
    var unbracketed := Text.RemoveChar(Text.RemoveChar(Text.Strip(rest), '['), ']');
    Text.Strip(Text.Split(unbracketed, "\n")[0])
  }

  /** An option's text has no bracket, no line break, and no whitespace at either end. */
  lemma CleanTextIsClean(rest: string)
    ensures var t := CleanText(rest);
      '[' !in t && ']' !in t && '\n' !in t && Text.StrippedOf(t, Text.Whitespace)
  {
    var unbracketed := Text.RemoveChar(Text.RemoveChar(Text.Strip(rest), '['), ']');
    var firstLine := Text.Split(unbracketed, "\n")[0];
    Text.ContainsChar(firstLine, '\n');
    var t := Text.Strip(firstLine);
    Text.SubstringChars(t, firstLine, '[');
    Text.SubstringChars(t, firstLine, ']');
    Text.SubstringChars(t, firstLine, '\n');
  }

  /** The numbered start of every option title, `選項{n}：`. */
  function NumberPrefix(n: nat): string {
    "選項" + Text.NatToString(n) + "："
  }

  /** `f"選項{n}：{title.strip('-')}"`. */
  function OptionTitle(n: nat, title: string): (t: string)
    ensures NumberPrefix(n) <= t
  {
    NumberPrefix(n) + Text.StripChars(title, {'-'})
  }

  /** What precedes the first title end of a section (the whole section when it has none). */
  function TitleOf(section: string): string {
    if TitleEnd in section then section[..Text.IndexOfChar(section, TitleEnd)] else section
  }

  /** What follows the first title end of a section (nothing when it has none). */
  function BodyOf(section: string): string {
    if TitleEnd in section then section[Text.IndexOfChar(section, TitleEnd) + 1..] else ""
  }

  /** The option for a section, numbered `n`; the parser builds it only for sections with a title end. */
  function OptionFor(section: string, n: nat): ReplyOption {
    var style := StyleOf(TitleOf(section));
    ReplyOption(style, EmojiOf(style), OptionTitle(n, TitleOf(section)), CleanText(BodyOf(section)))
  }

  /** The option numbered `n` is titled `選項{n}：`, has its style's emoji and a clean single-line text. */
  lemma OptionForWellFormed(section: string, n: nat)
    ensures var o := OptionFor(section, n);
      NumberPrefix(n) <= o.title && o.emoji == EmojiOf(o.style)
      && '[' !in o.text && ']' !in o.text && '\n' !in o.text
  {
    CleanTextIsClean(BodyOf(section));
  }

  /** The sections that have a title end, in order: the ones that become options. */
  function Labelled(sections: seq<string>): (r: seq<string>)
    decreases |sections|
    ensures |r| <= |sections|
    ensures forall i :: 0 <= i < |r| ==> TitleEnd in r[i]
  {
    if |sections| == 0 then []
    else
      var previous := Labelled(sections[..|sections| - 1]);
      if TitleEnd in sections[|sections| - 1] then previous + [sections[|sections| - 1]] else previous
  }

  /** `f(xs[i], i + 1)` for every `i`: each item with its number, counting from 1. */
  function Numbered<T>(xs: seq<string>, f: (string, nat) -> T): (r: seq<T>)
    ensures |r| == |xs| && forall i :: 0 <= i < |xs| ==> r[i] == f(xs[i], i + 1)
  {
    seq(|xs|, i requires 0 <= i < |xs| => f(xs[i], i + 1))
  }

  /** Numbering one more item appends it with the next number. */
  lemma NumberedAppend<T>(xs: seq<string>, x: string, f: (string, nat) -> T)
    ensures Numbered(xs + [x], f) == Numbered(xs, f) + [f(x, |xs| + 1)]
  {
  }

  /** The options for a run of sections: option `i` comes from the `i`-th labelled section and is numbered `i + 1`. */
  function Parsed(sections: seq<string>): seq<ReplyOption> {
    Numbered(Labelled(sections), OptionFor)
  }

  /** The fallback when no section parses: one formal option holding the first 100 characters. */
  function Fallback(content: string): seq<ReplyOption> {
    [ReplyOption(Formal, EmojiOf(Formal), "選項1：正式版", Text.Take(Text.Strip(content), 100))]
  }

  /** What `_parse_reply_options` returns. */
  function ReplyOptionsOf(content: string): seq<ReplyOption> {
    var options := Parsed(Text.Split(content, OptionMarker)[1..]);
    if |options| == 0 then Fallback(content) else options
  }

  /** `_parse_reply_options`: the options of the sections after the first marker, or the fallback. */
  method ParseReplyOptions(content: string) returns (options: seq<ReplyOption>)
    ensures options == ReplyOptionsOf(content)
  {
    var sections := Text.Split(content, OptionMarker);
    options := CollectOptions(sections[1..]);
    if |options| == 0 {
      options := Fallback(content);
    }
  }

  /** The loop of `_parse_reply_options` over the sections, numbering each option by the count so far. */
  method CollectOptions(sections: seq<string>) returns (options: seq<ReplyOption>)
    ensures options == Parsed(sections)
  {
    options := [];
    var k := 0;
    while k < |sections|
      invariant 0 <= k <= |sections|
      invariant options == Parsed(sections[..k])
    {
      var section := sections[k];
      if TitleEnd in section {
        options := options + [OptionFor(section, |options| + 1)];
      }
      ParsedStep(sections, k);
      k := k + 1;
    }
    assert sections[..k] == sections;
  }

  /** Taking one more section adds its option, numbered after the ones before, if it has a title end. */
  lemma ParsedStep(sections: seq<string>, k: nat)
    requires k < |sections|
    ensures Parsed(sections[..k + 1]) ==
      if TitleEnd in sections[k] then Parsed(sections[..k]) + [OptionFor(sections[k], |Parsed(sections[..k])| + 1)]
      else Parsed(sections[..k])
  {
    LabelledStep(sections, k);
    NumberedAppend(Labelled(sections[..k]), sections[k], OptionFor);
  }

  /** Taking one more section adds it to the labelled ones if it has a title end. */
  lemma LabelledStep(sections: seq<string>, k: nat)
    requires k < |sections|
    ensures Labelled(sections[..k + 1]) ==
      Labelled(sections[..k]) + (if TitleEnd in sections[k] then [sections[k]] else [])
  {
    assert sections[..k + 1][..k] == sections[..k];
  }

  // ---------------------------------------------------------------------------
  // Properties of the parser
  // ---------------------------------------------------------------------------

  /** A section is labelled exactly when it is one of the sections and has a title end; order is kept. */
  lemma {:induction false} LabelledFilters(sections: seq<string>)
    decreases |sections|
    ensures forall s :: s in Labelled(sections) <==> s in sections && TitleEnd in s
    ensures Labelled(sections) == [] <==> forall s :: s in sections ==> TitleEnd !in s
  {
    if |sections| > 0 {
      var init := sections[..|sections| - 1];
      LabelledFilters(init);
      assert sections == init + [sections[|sections| - 1]];
    }
  }

  /** Option `i` (from 0) is titled `選項{i+1}：`, has its style's emoji and a clean single-line text. */
  lemma ParsedWellFormed(sections: seq<string>)
    ensures forall i :: 0 <= i < |Parsed(sections)| ==> NumberPrefix(i + 1) <= Parsed(sections)[i].title
    ensures forall o :: o in Parsed(sections) ==> o.emoji == EmojiOf(o.style)
    ensures forall o :: o in Parsed(sections) ==> '[' !in o.text && ']' !in o.text && '\n' !in o.text
  {
    var labelled := Labelled(sections);
    forall i | 0 <= i < |labelled|
      ensures var o := Parsed(sections)[i];
        NumberPrefix(i + 1) <= o.title && o.emoji == EmojiOf(o.style)
        && '[' !in o.text && ']' !in o.text && '\n' !in o.text
    {
      OptionForWellFormed(labelled[i], i + 1);
    }
  }

  /**
   * The parser never returns an empty list: it returns one option per
   * labelled section when there is one, and otherwise exactly the fallback.
   */
  lemma ReplyOptionsShape(content: string)
    ensures |ReplyOptionsOf(content)| >= 1
    ensures var sections := Text.Split(content, OptionMarker)[1..];
      if forall s :: s in sections ==> TitleEnd !in s then ReplyOptionsOf(content) == Fallback(content)
      else ReplyOptionsOf(content) == Parsed(sections) && |ReplyOptionsOf(content)| == |Labelled(sections)|
    ensures forall o :: o in ReplyOptionsOf(content) ==> o.emoji == EmojiOf(o.style)
  {
    var sections := Text.Split(content, OptionMarker)[1..];
    LabelledFilters(sections);
    ParsedWellFormed(sections);
  }


  /** The fallback is one formal option whose text is the first 100 characters of the stripped content. */
  lemma FallbackShape(content: string)
    ensures |Fallback(content)| == 1
    ensures Fallback(content)[0].style == Formal && Fallback(content)[0].emoji == EmojiOf(Formal)
    ensures Fallback(content)[0].title == "選項1：正式版"
    ensures var stripped := Text.Strip(content);
      Fallback(content)[0].text == stripped[..if |stripped| <= 100 then |stripped| else 100]
  {
  }

  // ---------------------------------------------------------------------------
  // Option generation and its parameters
  // ---------------------------------------------------------------------------

  const MediumField := "medium"
  const CultureField := "culture"
  const EmojiHintField := "emoji_hint"
  const LineMedium := "LINE"
  /** The hint added to the casual option for LINE. */
  const LineEmojiHint := "，可適度使用表情符號"

  /** `emoji_hint`: set exactly when the input names the medium `LINE`. */
  function EmojiHint(contextData: Dict): (h: string)
    ensures h != "" <==> MediumField in contextData && contextData[MediumField] == LineMedium
  {
    if MediumField in contextData && contextData[MediumField] == LineMedium then LineEmojiHint else ""
  }

  /** The parameters of the option prompt, with their defaults. */
  function ReplyParams(contextData: Dict): (p: Dict)
    ensures p.Keys == {"user_identity", "target_identity", "context", MediumField, CultureField, EmojiHintField}
    ensures p["user_identity"] == Get(contextData, "user_identity", "一般員工")
    ensures p["target_identity"] == Get(contextData, "target_identity", "主管")
    ensures p["context"] == Get(contextData, "context", "")
    ensures p[MediumField] == Get(contextData, MediumField, LineMedium)
    ensures p[CultureField] == Get(contextData, CultureField, "一般")
    ensures p[EmojiHintField] == EmojiHint(contextData)
  {
    map[
      "user_identity" := Get(contextData, "user_identity", "一般員工"),
      "target_identity" := Get(contextData, "target_identity", "主管"),
      "context" := Get(contextData, "context", ""),
      MediumField := Get(contextData, MediumField, LineMedium),
      CultureField := Get(contextData, CultureField, "一般"),
      EmojiHintField := EmojiHint(contextData)
    ]
  }

  /** Without a medium the prompt says LINE but carries no emoji hint. */
  lemma AbsentMediumHasNoHint(contextData: Dict)
    requires MediumField !in contextData
    ensures ReplyParams(contextData)[MediumField] == LineMedium
    ensures ReplyParams(contextData)[EmojiHintField] == ""
  {
  }

  /** What `generate_reply_options` returns (`None`: the model call raised). */
  function ReplyOptionsFor(contextData: Dict, llm: Llm): Option<seq<ReplyOption>> {
    match llm(ReplyOptions, ReplyParams(contextData))
    case None => None
    case Some(content) => Some(ReplyOptionsOf(content))
  }

  method GenerateReplyOptions(contextData: Dict, llm: Llm) returns (options: Option<seq<ReplyOption>>)
    ensures options == ReplyOptionsFor(contextData, llm)
    ensures options.Some? ==> |options.value| >= 1
  {
    var params := ReplyParams(contextData);
    var result := llm(ReplyOptions, params);
    if result.Some? {
      var parsed := ParseReplyOptions(result.value);
      ReplyOptionsShape(result.value);
      options := Some(parsed);
    } else {
      options := None;
    }
  }

  // ---------------------------------------------------------------------------
  // Quick scenarios
  // ---------------------------------------------------------------------------

  /** One quick scenario: its situation and three ready replies. */
  datatype Scenario = Scenario(context: string, examples: seq<string>)

  /** The table of quick scenarios. */
  const QuickScenarios: map<string, Scenario> := map[
    "請假" := Scenario("需要請假", [
      "老闆早安，明天需要請假一天，家裡有急事要處理",
      "不好意思，明天想請個假，有些私事需要處理",
      "老闆，明天有事想請假，會先把工作安排好"
    ]),
    "拒絕加班" := Scenario("婉拒加班要求", [
      "不好意思，今晚已有安排，明天一早我會優先處理",
      "抱歉，晚上有事走不開，這個我明天第一件處理可以嗎",
      "今天真的不行，家裡有事😅 明天我早點來趕"
    ]),
    "催進度" := Scenario("禮貌催促進度", [
      "請問之前提到的資料準備好了嗎？需要的話我可以協助",
      "不好意思提醒一下，那份文件今天需要用到，方便了嗎",
      "Hi，上次說的東西好了嗎？老闆在問😅"
    ]),
    "道歉" := Scenario("工作失誤道歉", [
      "很抱歉這次的疏失，我會立即修正並避免再次發生",
      "不好意思，是我的失誤，馬上處理，以後會更注意",
      "抱歉抱歉，我的錯💦 現在就改"
    ])
  ]

  /** The situation record for a scenario the table does not know. */
  function ScenarioRequest(scenario: string): (d: Dict)
    ensures d.Keys == {"context", MediumField, CultureField}
    ensures d["context"] == scenario && d[MediumField] == LineMedium && d[CultureField] == "一般"
  {
    map["context" := scenario, MediumField := LineMedium, CultureField := "一般"]
  }

  /** `[opt['text'] for opt in options]`. */
  function Texts(options: seq<ReplyOption>): (r: seq<string>)
    ensures |r| == |options| && forall i :: 0 <= i < |r| ==> r[i] == options[i].text
  {
    seq(|options|, i requires 0 <= i < |options| => options[i].text)
  }

  /** What `generate_quick_scenario_reply` returns. */
  function QuickScenarioReply(scenario: string, llm: Llm): Option<seq<string>> {
    if scenario in QuickScenarios then Some(QuickScenarios[scenario].examples)
    else
      match ReplyOptionsFor(ScenarioRequest(scenario), llm)
      case None => None
      case Some(options) => Some(Texts(options))
  }

  method GenerateQuickScenarioReply(scenario: string, llm: Llm) returns (replies: Option<seq<string>>)
    ensures replies == QuickScenarioReply(scenario, llm)
  {
    if scenario in QuickScenarios {
      replies := Some(QuickScenarios[scenario].examples);
    } else {
      var contextData := ScenarioRequest(scenario);
      var options := GenerateReplyOptions(contextData, llm);
      if options.Some? {
        replies := Some(Texts(options.value));
      } else {
        replies := None;
      }
    }
  }

  /** The four known scenarios answer with their three fixed replies whatever the model would say. */
  lemma KnownScenariosAreFixed(scenario: string, llm: Llm, other: Llm)
    requires scenario in {"請假", "拒絕加班", "催進度", "道歉"}
    ensures QuickScenarios.Keys == {"請假", "拒絕加班", "催進度", "道歉"}
    ensures QuickScenarioReply(scenario, llm) == QuickScenarioReply(scenario, other)
    ensures QuickScenarioReply(scenario, llm).Some? && |QuickScenarioReply(scenario, llm).value| == 3
  {
  }

  /** Any other scenario always asks the model, for a LINE message, and gets at least one reply. */
  lemma OtherScenariosAskModel(scenario: string, llm: Llm)
    requires scenario !in QuickScenarios
    ensures QuickScenarioReply(scenario, llm).Some? <==> llm(ReplyOptions, ReplyParams(ScenarioRequest(scenario))).Some?
    ensures ReplyParams(ScenarioRequest(scenario))[EmojiHintField] == LineEmojiHint
    ensures QuickScenarioReply(scenario, llm).Some? ==> |QuickScenarioReply(scenario, llm).value| >= 1
  {
    var out := llm(ReplyOptions, ReplyParams(ScenarioRequest(scenario)));
    if out.Some? {
      ReplyOptionsShape(out.value);
    }
  }

  // ---------------------------------------------------------------------------
  // Tone adjustment
  // ---------------------------------------------------------------------------

  /** `tone_map.get(new_tone, '更平衡')`. */
  function ToneLabel(newTone: string): (tone: string)
    ensures tone == "更平衡" <==> newTone !in {"formal", "casual", "polite", "direct"}
  {
    if newTone == "formal" then "更正式"
    else if newTone == "casual" then "更輕鬆"
    else if newTone == "polite" then "更委婉"
    else if newTone == "direct" then "更直接"
    else "更平衡"
  }

  /** Different tones give different labels; every unknown tone shares the default. */
  lemma ToneLabelsDistinct(a: string, b: string)
    ensures ToneLabel(a) == ToneLabel(b) <==>
      a == b || (a !in {"formal", "casual", "polite", "direct"} && b !in {"formal", "casual", "polite", "direct"})
  {
    if ToneLabel(a) == ToneLabel(b) && a != b {
      assert ToneLabel(a)[1] == ToneLabel(b)[1];
    }
  }

  /** `adjust_tone`: the model's rewrite in the mapped tone, stripped. */
  function AdjustTone(original: string, newTone: string, llm: Llm): (r: Option<string>)
    ensures r.Some? <==> llm(ToneAdjustment, map["original" := original, "tone" := ToneLabel(newTone)]).Some?
    ensures r.Some? ==> Text.StrippedOf(r.value, Text.Whitespace)
  {
    StrippedContent(llm(ToneAdjustment, map["original" := original, "tone" := ToneLabel(newTone)]))
  }
}
