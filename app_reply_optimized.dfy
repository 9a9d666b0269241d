/**
 * `app_reply_optimized.py`: the card-based front end. Free text is turned
 * into a situation record by keyword tables; postback data `k1=v1&k2=v2`
 * is parsed into a dictionary; a quick-scenario postback becomes up to
 * three option cards, styled by position.
 */
module OptimizedApp {
  import opened Wrappers
  import opened Generation
  import Text
  import opened ReplyGenerator

  // ---------------------------------------------------------------------------
  // `_extract_context_from_message`
  // ---------------------------------------------------------------------------

  const BossWords := ["老闆", "主管", "經理", "boss"]
  const ColleagueWords := ["同事", "同仁", "小王", "小李"]
  const ClientWords := ["客戶", "客人", "廠商"]

  const LeaveWords := ["請假", "休假", "請病假", "請事假"]
  const DeclineWords := ["拒絕", "婉拒", "不想", "不要"]
  const UrgeWords := ["催", "提醒", "進度", "期限"]
  const ApologyWords := ["道歉", "抱歉", "對不起", "失誤"]
  const ThanksWords := ["感謝", "謝謝", "感恩"]

  const EmailWords := ["email", "mail", "郵件", "信件"]
  const PhoneWords := ["電話", "打給", "call"]
  const FaceWords := ["面對面", "當面", "見面"]

  /** The (target, user) identities: boss words first, then colleague words, then client words. */
  function Identities(message: string): (r: (string, string))
    ensures r.0 == "主管" <==> Text.ContainsAny(message, BossWords)
    ensures r.0 == "同事" <==> !Text.ContainsAny(message, BossWords) && Text.ContainsAny(message, ColleagueWords)
    ensures r.0 == "客戶" <==>
      !Text.ContainsAny(message, BossWords) && !Text.ContainsAny(message, ColleagueWords)
      && Text.ContainsAny(message, ClientWords)
    ensures r == ("主管", "員工") || r == ("同事", "同事") || r == ("客戶", "業務/客服") || r == ("對方", "我")
  {
    if Text.ContainsAny(message, BossWords) then ("主管", "員工")
    else if Text.ContainsAny(message, ColleagueWords) then ("同事", "同事")
    else if Text.ContainsAny(message, ClientWords) then ("客戶", "業務/客服")
    else ("對方", "我")
  }

  /** Whether some situation keyword occurs. */
  predicate NamesSituation(message: string) {
    Text.ContainsAny(message, LeaveWords) || Text.ContainsAny(message, DeclineWords)
    || Text.ContainsAny(message, UrgeWords) || Text.ContainsAny(message, ApologyWords)
    || Text.ContainsAny(message, ThanksWords)
  }

  /** The situation: the first keyword table that matches names it; otherwise the message itself. */
  function SituationOf(message: string): (r: string)
    ensures !NamesSituation(message) ==> r == message
    ensures Text.ContainsAny(message, LeaveWords) ==> r == "請假"
    ensures !Text.ContainsAny(message, LeaveWords) && Text.ContainsAny(message, DeclineWords) ==> r == "婉拒邀請或要求"
    ensures (!Text.ContainsAny(message, LeaveWords) && !Text.ContainsAny(message, DeclineWords)
      && Text.ContainsAny(message, UrgeWords)) ==> r == "催促進度"
    ensures (!Text.ContainsAny(message, LeaveWords) && !Text.ContainsAny(message, DeclineWords)
      && !Text.ContainsAny(message, UrgeWords) && Text.ContainsAny(message, ApologyWords)) ==> r == "道歉"
    ensures (!Text.ContainsAny(message, LeaveWords) && !Text.ContainsAny(message, DeclineWords)
      && !Text.ContainsAny(message, UrgeWords) && !Text.ContainsAny(message, ApologyWords)
      && Text.ContainsAny(message, ThanksWords)) ==> r == "表達感謝"
  {
    if Text.ContainsAny(message, LeaveWords) then "請假"
    else if Text.ContainsAny(message, DeclineWords) then "婉拒邀請或要求"
    else if Text.ContainsAny(message, UrgeWords) then "催促進度"
    else if Text.ContainsAny(message, ApologyWords) then "道歉"
    else if Text.ContainsAny(message, ThanksWords) then "表達感謝"
    else message
  }

  /** The medium: LINE unless an email, then a phone, then a face-to-face keyword occurs. */
  function MediumOf(message: string): (r: string)
    ensures r == LineMedium <==>
      !Text.ContainsAny(message, EmailWords) && !Text.ContainsAny(message, PhoneWords) && !Text.ContainsAny(message, FaceWords)
    ensures Text.ContainsAny(message, EmailWords) ==> r == "Email"
    ensures !Text.ContainsAny(message, EmailWords) && Text.ContainsAny(message, PhoneWords) ==> r == "電話"
    ensures (!Text.ContainsAny(message, EmailWords) && !Text.ContainsAny(message, PhoneWords)
      && Text.ContainsAny(message, FaceWords)) ==> r == "面對面"
  {
    if Text.ContainsAny(message, EmailWords) then "Email"
    else if Text.ContainsAny(message, PhoneWords) then "電話"
    else if Text.ContainsAny(message, FaceWords) then "面對面"
    else LineMedium
  }

  /** The situation record with its five keys. */
  function ContextRecord(medium: string, identities: (string, string), situation: string): Dict {
    map[
      MediumField := medium, CultureField := "一般",
      "target_identity" := identities.0, "user_identity" := identities.1,
      "context" := situation
    ]
  }

  /** `_extract_context_from_message`. */
  function ExtractContext(message: string): (d: Dict)
    ensures d.Keys == {MediumField, CultureField, "target_identity", "user_identity", "context"}
    ensures d[CultureField] == "一般"
    ensures d[MediumField] == MediumOf(message)
    ensures (d["target_identity"], d["user_identity"]) == Identities(message)
    ensures d["context"] == SituationOf(message)
  {
    ContextRecord(MediumOf(message), Identities(message), SituationOf(message))
  }

  /**
   * An extracted record overrides every default of the option prompt, and
   * the prompt asks for emojis exactly when no medium keyword occurs.
   */
  lemma ExtractedPromptParams(message: string)
    ensures var p := ReplyParams(ExtractContext(message));
      p["user_identity"] == Identities(message).1 && p["target_identity"] == Identities(message).0
      && p["context"] == SituationOf(message) && p[MediumField] == MediumOf(message)
    ensures ReplyParams(ExtractContext(message))[EmojiHintField] != "" <==>
      !Text.ContainsAny(message, EmailWords) && !Text.ContainsAny(message, PhoneWords) && !Text.ContainsAny(message, FaceWords)
  {
  }

  // ---------------------------------------------------------------------------
  // Postback data: `dict(param.split('=') for param in data.split('&'))`
  // ---------------------------------------------------------------------------

  /** A piece `dict` accepts: it splits on `=` into exactly a key and a value. */
  predicate IsPair(piece: string) {
    |Text.Split(piece, "=")| == 2
  }

  /** Every piece is one `k=v`. */
  predicate AllPairs(pieces: seq<string>) {
    forall i :: 0 <= i < |pieces| ==> IsPair(pieces[i])
  }

  /** The dictionary of a run of pairs, a later key overwriting an earlier one. */
  function PiecesDict(pieces: seq<string>): Dict
    requires AllPairs(pieces)
    decreases |pieces|
  {
    if |pieces| == 0 then map[]
    else
      var lastPiece := pieces[|pieces| - 1];
      assert IsPair(lastPiece);
      var last := Text.Split(lastPiece, "=");
      PiecesDict(pieces[..|pieces| - 1])[last[0] := last[1]]
  }

  /** The postback dictionary; `None` when `dict` raises because some piece is not one `k=v`. */
  function ParsePostback(data: string): (r: Option<Dict>)
    ensures r.Some? <==> AllPairs(Text.Split(data, "&"))
  {
    var pieces := Text.Split(data, "&");
    if AllPairs(pieces) then Some(PiecesDict(pieces)) else None
  }

  /** An empty postback, or a piece without `=` or with two, makes `dict` raise. */
  lemma MalformedPostback(data: string, i: nat)
    requires i < |Text.Split(data, "&")|
    requires !Text.Contains(Text.Split(data, "&")[i], "=") || |Text.Split(Text.Split(data, "&")[i], "=")| >= 3
    ensures ParsePostback(data).None?
  {
  }

  /** The postback data for a run of pairs, `k1=v1&k2=v2...`. */
  function EncodePostback(pairs: seq<(string, string)>): string {
    Text.Join(PairPieces(pairs), "&")
  }

  function PairPieces(pairs: seq<(string, string)>): (r: seq<string>)
    ensures |r| == |pairs| && forall i :: 0 <= i < |pairs| ==> r[i] == pairs[i].0 + "=" + pairs[i].1
  {
    seq(|pairs|, i requires 0 <= i < |pairs| => pairs[i].0 + "=" + pairs[i].1)
  }

  /** The dictionary a run of pairs means: a later key overwrites an earlier one. */
  function DictOf(pairs: seq<(string, string)>): Dict
    decreases |pairs|
  {
    if |pairs| == 0 then map[] else DictOf(pairs[..|pairs| - 1])[pairs[|pairs| - 1].0 := pairs[|pairs| - 1].1]
  }

  /** Keys and values free of `&` and `=`. */
  predicate PlainPairs(pairs: seq<(string, string)>) {
    forall i :: 0 <= i < |pairs| ==>
      '&' !in pairs[i].0 && '&' !in pairs[i].1 && '=' !in pairs[i].0 && '=' !in pairs[i].1
  }

  /** Data encoded from plain pairs parses back to the dictionary of those pairs. */
  lemma PostbackRoundTrip(pairs: seq<(string, string)>)
    requires |pairs| >= 1 && PlainPairs(pairs)
    ensures ParsePostback(EncodePostback(pairs)) == Some(DictOf(pairs))
  {
    var pieces := PairPieces(pairs);
    forall i | 0 <= i < |pieces|
      ensures '&' !in pieces[i]
    {
      assert pieces[i] == pairs[i].0 + "=" + pairs[i].1;
    }
    Text.SplitJoin(pieces, '&');
    forall i | 0 <= i < |pieces|
      ensures Text.Split(pieces[i], "=") == [pairs[i].0, pairs[i].1]
    {
      PairSplits(pairs[i].0, pairs[i].1);
    }
    PiecesDictOfPairs(pairs);
  }

  /** `k=v` with plain `k` and `v` splits into `[k, v]`. */
  lemma PairSplits(k: string, v: string)
    requires '=' !in k && '=' !in v
    ensures Text.Split(k + "=" + v, "=") == [k, v]
  {
    Text.SplitAtFirst(k, "=", v);
    Text.ContainsChar(v, '=');
  }

  /** Folding the encoded pieces gives the dictionary of the pairs. */
  lemma {:induction false} PiecesDictOfPairs(pairs: seq<(string, string)>)
    requires forall i :: 0 <= i < |pairs| ==> Text.Split(PairPieces(pairs)[i], "=") == [pairs[i].0, pairs[i].1]
    decreases |pairs|
    ensures forall i :: 0 <= i < |pairs| ==> IsPair(PairPieces(pairs)[i])
    ensures PiecesDict(PairPieces(pairs)) == DictOf(pairs)
  {
    if |pairs| > 0 {
      var init := pairs[..|pairs| - 1];
      var pieces := PairPieces(pairs);
      assert PairPieces(init) == pieces[..|pieces| - 1];
      PiecesDictOfPairs(init);
    }
  }

  /** In the dictionary of pairs, a key holds the value of its last pair. */
  lemma {:induction false} DictOfLastWins(pairs: seq<(string, string)>, j: nat)
    requires j < |pairs|
    requires forall i :: j < i < |pairs| ==> pairs[i].0 != pairs[j].0
    decreases |pairs|
    ensures pairs[j].0 in DictOf(pairs) && DictOf(pairs)[pairs[j].0] == pairs[j].1
  {
    if j < |pairs| - 1 {
      DictOfLastWins(pairs[..|pairs| - 1], j);
    }
  }

  /** The dictionary of pairs has exactly the keys of the pairs. */
  lemma {:induction false} DictOfKeys(pairs: seq<(string, string)>)
    decreases |pairs|
    ensures forall k :: k in DictOf(pairs) <==> exists i :: 0 <= i < |pairs| && pairs[i].0 == k
  {
    if |pairs| > 0 {
      var init := pairs[..|pairs| - 1];
      DictOfKeys(init);
      forall k | k in DictOf(pairs)
        ensures exists i :: 0 <= i < |pairs| && pairs[i].0 == k
      {
        if k != pairs[|pairs| - 1].0 {
          assert k in DictOf(init);
          var i :| 0 <= i < |init| && init[i].0 == k;
          assert pairs[i].0 == k;
        }
      }
      forall k | exists i :: 0 <= i < |pairs| && pairs[i].0 == k
        ensures k in DictOf(pairs)
      {
        var i :| 0 <= i < |pairs| && pairs[i].0 == k;
        if i < |init| {
          assert init[i].0 == k;
        }
      }
    }
  }

  // ---------------------------------------------------------------------------
  // Scenario cards
  // ---------------------------------------------------------------------------

  const CardStyles := [Formal, Balanced, Casual]
  const CardEmojis := ["👔", "🤝", "😊"]
  const CardTitles := ["正式版", "平衡版", "輕鬆版"]

  /** The card at position `i` (from 0) for an example. */
  function Card(i: nat, example: string): ReplyOption
    requires i < 3
  {
    ReplyOption(CardStyles[i], CardEmojis[i], NumberPrefix(i + 1) + CardTitles[i], example)
  }

  /** The cards of `handle_postback`: one per example among the first three, styled by position. */
  function Cards(examples: seq<string>): (r: seq<ReplyOption>)
    ensures |r| == if |examples| < 3 then |examples| else 3
  {
    var n := if |examples| < 3 then |examples| else 3;
    seq(n, i requires 0 <= i < n => Card(i, examples[i]))
  }

  /** The loop of `handle_postback` over `enumerate(examples[:3])`. */
  method BuildCards(examples: seq<string>) returns (options: seq<ReplyOption>)
    ensures options == Cards(examples)
  {
    var first := if |examples| < 3 then examples else examples[..3];
    options := [];
    var i := 0;
    while i < |first|
      invariant 0 <= i <= |first| <= 3
      invariant |options| == i
      invariant forall j :: 0 <= j < i ==> options[j] == Card(j, examples[j])
    {
      var example := first[i];
      options := options + [ReplyOption(CardStyles[i], CardEmojis[i], NumberPrefix(i + 1) + CardTitles[i], example)];
      i := i + 1;
    }
  }

  /**
   * Card `i` carries example `i` unchanged, is numbered `i + 1`, and takes
   * the style, emoji and title word of position `i`: formal 👔 正式版,
   * balanced 🤝 平衡版, casual 😊 輕鬆版. Its emoji is the one the reply
   * parser gives its style, so both paths agree.
   */
  lemma CardsShape(examples: seq<string>)
    ensures forall i :: 0 <= i < |Cards(examples)| ==>
      Cards(examples)[i].text == examples[i]
      && Cards(examples)[i].style == CardStyles[i]
      && Cards(examples)[i].emoji == CardEmojis[i]
      && Cards(examples)[i].title == NumberPrefix(i + 1) + CardTitles[i]
      && Cards(examples)[i].emoji == EmojiOf(Cards(examples)[i].style)
    ensures |Cards(examples)| > 0 ==>
      Cards(examples)[0].style == Formal && Cards(examples)[0].emoji == "👔"
      && Cards(examples)[0].title == NumberPrefix(1) + "正式版"
    ensures |Cards(examples)| > 1 ==>
      Cards(examples)[1].style == Balanced && Cards(examples)[1].emoji == "🤝"
      && Cards(examples)[1].title == NumberPrefix(2) + "平衡版"
    ensures |Cards(examples)| > 2 ==>
      Cards(examples)[2].style == Casual && Cards(examples)[2].emoji == "😊"
      && Cards(examples)[2].title == NumberPrefix(3) + "輕鬆版"
  {
  }

  // ---------------------------------------------------------------------------
  // `handle_postback`
  // ---------------------------------------------------------------------------

  /** What a postback ends in. */
  datatype PostbackOutcome =
    | ScenarioCards(options: seq<ReplyOption>)   // the carousel of scenario cards
    | ToneMenu(original: string)                 // the tone menu for a text
    | AdjustedCard(text: string, title: string)  // the card of a tone-adjusted text
    | Raised                                     // an exception ends the handler; no reply
    | Ignored                                    // no branch applies; no reply

  /** `params.get(key) == value`. */
  predicate Is(params: Dict, key: string, value: string) {
    key in params && params[key] == value
  }

  /** `tone_labels`: the card label of each known tone. */
  const ToneTitles: map<string, string> := map[
    "formal" := "正式版", "casual" := "輕鬆版", "polite" := "委婉版", "direct" := "直接版"
  ]

  /** The title of an adjusted card: `調整後 - ` and the tone's label, `調整版` for any other tone. */
  function AdjustedTitle(tone: string): (t: string)
    ensures |t| > 6 && t[..6] == "調整後 - "
    ensures tone == "formal" ==> t == "調整後 - 正式版"
    ensures tone == "casual" ==> t == "調整後 - 輕鬆版"
    ensures tone == "polite" ==> t == "調整後 - 委婉版"
    ensures tone == "direct" ==> t == "調整後 - 直接版"
    ensures tone !in {"formal", "casual", "polite", "direct"} ==> t == "調整後 - 調整版"
  {
    "調整後 - " + Get(ToneTitles, tone, "調整版")
  }

  /** The scenario branch: the fixed or generated examples as cards. A missing scenario is formatted as `None`. */
  function ScenarioOutcome(params: Dict, llm: Llm): PostbackOutcome {
    match QuickScenarioReply(Get(params, "scenario", "None"), llm)
    case None => Raised
    case Some(examples) => ScenarioCards(Cards(examples))
  }

  /**
   * `handle_postback` as written: the tone branches first call
   * `session_manager.get_last_text`, which `SessionManager` does not
   * define, so they always raise.
   */
  function PostbackAsWritten(data: string, llm: Llm): PostbackOutcome {
    match ParsePostback(data)
    case None => Raised
    case Some(params) =>
      if Is(params, "action", "scenario") then ScenarioOutcome(params, llm)
      else if Is(params, "action", "adjust_tone") then Raised
      else if "tone" in params && params["tone"] != "" then Raised
      else Ignored
  }

  /** Every tone postback of the code as written ends without a reply. */
  lemma ToneBranchesRaise(data: string, params: Dict, llm: Llm)
    requires ParsePostback(data) == Some(params)
    requires !Is(params, "action", "scenario")
    requires Is(params, "action", "adjust_tone") || ("tone" in params && params["tone"] != "")
    ensures PostbackAsWritten(data, llm) == Raised
  {
  }

  /**
   * The postback the tone menu sends, `action=adjust_tone&text=...`, raises
   * as written, while the corrected handler shows the tone menu for its text.
   */
  lemma AdjustTonePostbackRaises(text: string, llm: Llm)
    requires '&' !in text && '=' !in text
    ensures PostbackAsWritten(EncodePostback([("action", "adjust_tone"), ("text", text)]), llm) == Raised
    ensures Postback(EncodePostback([("action", "adjust_tone"), ("text", text)]), None, llm) == ToneMenu(text)
  {
    var pairs := [("action", "adjust_tone"), ("text", text)];
    PostbackRoundTrip(pairs);
    DictOfLastWins(pairs, 0);
    DictOfLastWins(pairs, 1);
  }

  /**
   * `handle_postback` with the last text a store would hold passed in
   * (`None` when there is none): the tone menu and the adjustment fall
   * back to the text carried in the postback.
   */
  function Postback(data: string, lastText: Option<string>, llm: Llm): (r: PostbackOutcome)
    ensures ParsePostback(data).None? ==> r == Raised
  {
    match ParsePostback(data)
    case None => Raised
    case Some(params) =>
      var stored := lastText.GetOr("");
      if Is(params, "action", "scenario") then ScenarioOutcome(params, llm)
      else if Is(params, "action", "adjust_tone") then
        ToneMenu(if stored != "" then stored else Get(params, "text", ""))
      else if "tone" in params && params["tone"] != "" then
        var fullText := if stored != "" then stored else Get(params, "text", "");
        match AdjustTone(fullText, params["tone"], llm)
        case None => Raised
        case Some(adjusted) => AdjustedCard(adjusted, AdjustedTitle(params["tone"]))
      else Ignored
  }

  /** Without a stored text the tone branches answer from the postback's own text instead of raising. */
  lemma ToneBranchesAnswer(data: string, params: Dict, llm: Llm)
    requires ParsePostback(data) == Some(params)
    requires !Is(params, "action", "scenario")
    ensures Is(params, "action", "adjust_tone") ==> Postback(data, None, llm) == ToneMenu(Get(params, "text", ""))
    ensures !Is(params, "action", "adjust_tone") && "tone" in params && params["tone"] != ""
      && llm(ToneAdjustment, map["original" := Get(params, "text", ""), "tone" := ToneLabel(params["tone"])]).Some?
      ==> Postback(data, None, llm).AdjustedCard?
  {
  }

  /** The scenario branch is the same in both versions. */
  lemma ScenarioBranchUnchanged(data: string, lastText: Option<string>, llm: Llm)
    requires ParsePostback(data).Some? && Is(ParsePostback(data).value, "action", "scenario")
    ensures Postback(data, lastText, llm) == PostbackAsWritten(data, llm)
  {
  }

  /** The data a quick-scenario button of the flex menu sends: `scenario=<name>`, with no `action`. */
  function QuickButtonData(scenario: string): string {
    "scenario=" + scenario
  }

  /** The data the scenario branch of `handle_postback` expects: `action=scenario&scenario=<name>`. */
  function ScenarioData(scenario: string): string {
    EncodePostback([("action", "scenario"), ("scenario", scenario)])
  }

  /** A quick-scenario button's data parses to the scenario name alone. */
  lemma QuickButtonParams(scenario: string)
    requires scenario in QuickScenarios
    ensures ParsePostback(QuickButtonData(scenario)) == Some(map["scenario" := scenario])
  {
    var pairs := [("scenario", scenario)];
    KnownScenariosArePlain(scenario);
    assert EncodePostback(pairs) == QuickButtonData(scenario);
    PostbackRoundTrip(pairs);
    assert DictOf(pairs) == map["scenario" := scenario];
  }

  /**
   * The quick-scenario buttons as written send no `action`, so the handler,
   * as written and corrected alike, takes none of its branches and sends nothing.
   */
  lemma QuickButtonIgnored(scenario: string, lastText: Option<string>, llm: Llm)
    requires scenario in QuickScenarios
    ensures ParsePostback(QuickButtonData(scenario)) == Some(map["scenario" := scenario])
    ensures PostbackAsWritten(QuickButtonData(scenario), llm) == Ignored
    ensures Postback(QuickButtonData(scenario), lastText, llm) == Ignored
  {
    QuickButtonParams(scenario);
  }

  /** The tone button's data parses to its three keys, without `text`. */
  lemma CardToneParams(index: nat, style: string) returns (params: Dict)
    requires '&' !in style && '=' !in style
    ensures ParsePostback(EncodePostback([("action", "adjust_tone"), ("index", Text.NatToString(index)), ("style", style)]))
      == Some(params)
    ensures params == map["action" := "adjust_tone", "index" := Text.NatToString(index), "style" := style]
  {
    var digits := Text.NatToString(index);
    assert '&' !in digits && '=' !in digits by {
      assert forall i :: 0 <= i < |digits| ==> '0' <= digits[i] <= '9';
    }
    var pairs := [("action", "adjust_tone"), ("index", digits), ("style", style)];
    PostbackRoundTrip(pairs);
    assert pairs[..2][..1] == pairs[..1] && pairs[..1][..0] == [];
    assert DictOf(pairs[..1]) == map["action" := "adjust_tone"];
    assert DictOf(pairs[..2]) == map["action" := "adjust_tone", "index" := digits];
    params := DictOf(pairs);
  }

  /**
   * The tone button of an option card sends `action=adjust_tone&index=<i>&style=<s>`:
   * as written it raises, and corrected, with no stored text, it shows the
   * tone menu for an empty text, since the data carries no `text`.
   */
  lemma CardToneButton(index: nat, style: string, llm: Llm)
    requires '&' !in style && '=' !in style
    ensures var data := EncodePostback([("action", "adjust_tone"), ("index", Text.NatToString(index)), ("style", style)]);
      PostbackAsWritten(data, llm) == Raised && Postback(data, None, llm) == ToneMenu("")
  {
    var params := CardToneParams(index, style);
    assert !Is(params, "action", "scenario") && Is(params, "action", "adjust_tone");
    assert Get(params, "text", "") == "";
  }

  /**
   * A known scenario's postback, in the form the scenario branch expects,
   * becomes its three fixed examples, as formal, balanced and casual cards
   * in that order, whatever the model would say.
   */
  lemma KnownScenarioCards(scenario: string, lastText: Option<string>, llm: Llm)
    requires scenario in QuickScenarios
    ensures Postback(ScenarioData(scenario), lastText, llm) == ScenarioCards(Cards(QuickScenarios[scenario].examples))
    ensures |Cards(QuickScenarios[scenario].examples)| == 3
  {
    var params := ScenarioPostbackParams(scenario);
    KnownScenariosAreFixed(scenario, llm, llm);
    assert Get(params, "scenario", "None") == scenario;
  }

  /** A scenario postback built from a known name parses back to that action and that name. */
  lemma ScenarioPostbackParams(scenario: string) returns (params: Dict)
    requires scenario in QuickScenarios
    ensures ParsePostback(EncodePostback([("action", "scenario"), ("scenario", scenario)])) == Some(params)
    ensures Is(params, "action", "scenario")
    ensures "scenario" in params && params["scenario"] == scenario
  {
    var pairs := [("action", "scenario"), ("scenario", scenario)];
    KnownScenariosArePlain(scenario);
    PostbackRoundTrip(pairs);
    DictOfLastWins(pairs, 0);
    DictOfLastWins(pairs, 1);
    params := DictOf(pairs);
  }

  /** The scenario names hold no `&` and no `=`. */
  lemma KnownScenariosArePlain(scenario: string)
    requires scenario in QuickScenarios
    ensures '&' !in scenario && '=' !in scenario
  {
  }

  /** `handle_postback` with the corrected tone branches. */
  method HandlePostback(data: string, lastText: Option<string>, llm: Llm) returns (outcome: PostbackOutcome)
    ensures outcome == Postback(data, lastText, llm)
  {
    var parsed := ParsePostback(data);
    if parsed.None? {
      return Raised;
    }
    var params := parsed.value;
    var stored := lastText.GetOr("");
    if Is(params, "action", "scenario") {
      var scenario := Get(params, "scenario", "None");
      var examples := GenerateQuickScenarioReply(scenario, llm);
      if examples.None? {
        return Raised;
      }
      var options := BuildCards(examples.value);
      outcome := ScenarioCards(options);
    } else if Is(params, "action", "adjust_tone") {
      var originalText := stored;
      if originalText == "" {
        originalText := Get(params, "text", "");
      }
      outcome := ToneMenu(originalText);
    } else if "tone" in params && params["tone"] != "" {
      var tone := params["tone"];
      var text := Get(params, "text", "");
      var fullText := if stored != "" then stored else text;
      var adjusted := AdjustTone(fullText, tone, llm);
      if adjusted.None? {
        return Raised;
      }
      outcome := AdjustedCard(adjusted.value, AdjustedTitle(tone));
    } else {
      outcome := Ignored;
    }
  }
}
