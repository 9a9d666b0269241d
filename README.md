# ChatThinker conversation engine, modelled in Dafny

ChatThinker is a LINE chat bot. It helps a user phrase a message to someone else, such as a boss, a colleague, a client or a student. The bot works in one of two ways:

- It collects the user's identity, the other person's identity, the situation and the past conversation over several turns. The per-user state lives in a Redis session with a 24-hour lifetime.
- It reads those facts out of one free-text message.

It then calls a language model to generate some alternative replies or to polish the user's draft. `/more` asks for further versions from the last saved prompt record.

This project models the deterministic core around the model call:

- The Redis session store (`SessionStore`): key naming, the read-modify-write setters, `clear_session`, the saved prompt, and time-to-live expiry against an explicit clock.
- The `app.py` message handler (`LineApp`): `/new` and `/more` are checked first, then a chain of seven states.
- The three prompt processors: `ChatProcessor` (`chat_processor.py`), `ChatProcessorFixed` (`chat_processor_fixed.py`, with its three-version reformatter) and `ChatProcessorFinal` (`chat_processor_final.py`, with its question instruction, its framed answers and its task label for "more").
- The in-memory variant of `app_simple_reply.py` (`SimpleSessionStore`, `SimpleReplyApp`): its session manager, `parse_user_input`, and the `/help`, `/more` and free-text handler.
- The reply generator (`ReplyGenerator`): the option parser `_parse_reply_options`, the prompt parameters and emoji hint, the quick-scenario table, and the tone map.
- The optimized app (`OptimizedApp`): `_extract_context_from_message`, the postback parser, the scenario card loop and the postback dispatch.

The language model is a parameter, `Llm = (Template, Dict) -> Option<string>`. It is any function of the prompt template and the parameter record. `None` stands for a call that raises: the source never catches it, so no reply is sent and the remaining writes of that handler do not happen. Redis is a `map<string, Entry>` from the full key (`session:<uid>`, `prompt:<uid>`) to a record and its expiry time. An entry is live while `now < expiresAt`, and every write sets `expiresAt = now + 86400`. The JSON encoding is taken to round-trip exactly. A user id of `""` plays the part of a falsy `user_id`.

Files:

- `wrappers.dfy`: `Option`.
- `text.dfy`: Python's `in`, `split`, `join`, `strip`, `replace`, slicing and `str(n)`, on `seq<char>`.
- `generation.dfy`: `Dict`, `dict.get`, the truthiness of a record, the templates and `Llm`.
- One file per core source file.

Where a class updates its fields in place (`SessionManager`, `SimpleSessionManager`), the model is a Dafny `class` with a `map` field. Its methods are proved equal to pure functions of the old state, and the properties are lemmas about those functions. Each handler is both a pure function (`Handle`, `Postback`) and a method that drives the store objects. The method is proved to compute the function.

Two behaviours of the code are worth stating plainly:

- A model call that raises is never caught, so no reply is sent.
- `_parse_reply_options` gives one option per labelled section, however many there are, and a single fallback option only when there are none. Only `chat_processor_fixed.py` fills missing versions with placeholders.

## Model

| member | source | states |
|---|---|---|
| SessionStore.SessionKey | session_manager.py:15-16 | definition: `session:<uid>`; its properties are in KeysNeverCollide |
| SessionStore.PromptKey | session_manager.py:18-19 | definition: `prompt:<uid>`; its properties are in KeysNeverCollide |
| SessionStore.KeysNeverCollide | session_manager.py:15-19 | a session key is never a prompt key, and each kind of key determines the user |
| SessionStore.Live | session_manager.py:23-24 | a key reads as present exactly when it is stored and its 24-hour lifetime has not run out, and then it reads as the stored record |
| SessionStore.ReadSession | session_manager.py:21-26 | definition of `get_session_data`: the live session record, or `{}`; its properties are in MissingSessionReadsEmpty and SessionLifetime |
| SessionStore.WriteSession | session_manager.py:28-30 | definition of `set_session_data`: the session record with a fresh 24-hour lifetime; its properties are in SessionLifetime |
| SessionStore.StateIn | session_manager.py:32-34 | definition of `get_state`; its properties are in StateAbsentIff |
| SessionStore.SetFieldIn | session_manager.py:36-59 | definition of the read-modify-write setters; their properties are in SetFieldReadBack |
| SessionStore.ClearIn | session_manager.py:61-65 | definition of `clear_session`: both keys deleted; its properties are in ClearForgetsUser |
| SessionStore.SavePromptIn | session_manager.py:67-69 | definition of `save_last_prompt`; its properties are in SavedPromptLifetime |
| SessionStore.LastPromptIn | session_manager.py:71-76 | definition of `get_last_prompt`: the live prompt record, or `None`; its properties are in SavedPromptLifetime and ClearForgetsUser |
| SessionStore.MissingSessionReadsEmpty | session_manager.py:21-26 | a user with no live session reads as `{}` and has no state |
| SessionStore.StateAbsentIff | session_manager.py:32-34 | `get_state` is `None` exactly when the session has no `state` field, and otherwise is that field |
| SessionStore.SessionLifetime | session_manager.py:28-30 | a written session reads back unchanged until 86400 seconds after the write and as `{}` afterwards; the prompt key is untouched |
| SessionStore.SetFieldReadBack | session_manager.py:36-59 | after a setter the session holds the new value in that field and every other field exactly as before |
| SessionStore.ClearForgetsUser | session_manager.py:61-65 | after `clear_session` the session reads `{}`, the state is `None` and the last prompt is `None` |
| SessionStore.SavedPromptLifetime | session_manager.py:67-76 | a saved prompt reads back as the same record for 86400 seconds and then as `None`; the session is untouched |
| SessionStore.UntouchedReadsSame | session_manager.py:21-26 | a user whose two keys are unchanged reads the same session and prompt |
| SessionStore.WritesIsolated | session_manager.py:15-19 | writing, setting a field, saving a prompt or clearing for one user leaves both keys of every other user as they were |
| SessionStore.UntouchedTransitive | session_manager.py:15-19 | a user left untouched by two successive operations is left untouched by both together |
| SessionStore.SessionManager.constructor | session_manager.py:10-13 | the store starts from the given keyspace |
| SessionStore.SessionManager.GetSessionData | session_manager.py:21-26 | returns the live session record, `{}` when the key is absent |
| SessionStore.SessionManager.SetSessionData | session_manager.py:28-30 | overwrites the session with a fresh 24-hour lifetime |
| SessionStore.SessionManager.GetState | session_manager.py:32-34 | returns the session's `state` field, present only when the session is live |
| SessionStore.SessionManager.SetState | session_manager.py:36-39 | read-modify-write of the `state` field |
| SessionStore.SessionManager.SetUserIdentity | session_manager.py:41-44 | read-modify-write of the `user_identity` field |
| SessionStore.SessionManager.SetTargetIdentity | session_manager.py:46-49 | read-modify-write of the `target_identity` field |
| SessionStore.SessionManager.SetContext | session_manager.py:51-54 | read-modify-write of the `context` field |
| SessionStore.SessionManager.SetPastConversation | session_manager.py:56-59 | read-modify-write of the `past_conversation` field |
| SessionStore.SessionManager.ClearSession | session_manager.py:61-65 | deletes both of the user's keys |
| SessionStore.SessionManager.SaveLastPrompt | session_manager.py:67-69 | stores the prompt record with a fresh 24-hour lifetime |
| SessionStore.SessionManager.GetLastPrompt | session_manager.py:71-76 | returns the live prompt record, `None` when the key is absent |
| Generation.Get | session_manager.py:34 | `dict.get`: the stored value when the key is present, the default otherwise |
| Generation.StrippedContent | chat_processor.py:47-48 | an answer exists exactly when the model answered, and it is that answer stripped, with no whitespace at either end |
| ChatProcessor.GenerateRecord | chat_processor.py:37-42 | the record has exactly the four session keys, copies those present, and defaults the missing ones to `''`, or `'無'` for the past conversation |
| ChatProcessor.PolishRecord | chat_processor.py:74-80 | the polish record is the generate record plus `draft` set to the argument |
| ChatProcessor.MoreTemplate | chat_processor.py:92-117 | the draft template is chosen exactly when the record has a `draft` key |
| ChatProcessor.GenerateMore | chat_processor.py:88-90 | a falsy record gives `沒有找到之前的對話記錄` without a model call |
| ChatProcessor.MoreFollowsRecordKind | chat_processor.py:92-117 | "more" on a generate record uses the fresh template, on a polish record the draft template |
| ChatProcessor.GenerateConversation | chat_processor.py:37-48 | saves the record only when a store and a user id are given, then returns the stripped model answer for that record |
| ChatProcessor.PolishConversation | chat_processor.py:74-86 | saves the polish record on the same condition, then returns the stripped model answer |
| ChatProcessorFixed.Slot | chat_processor_fixed.py:71-75 | slot `i` is the `i`-th line when it exists and `（生成失敗）` otherwise |
| ChatProcessorFixed.Layout | chat_processor_fixed.py:69-75 | definition of the rebuilt answer's lines; its properties are in ReformatLayout and FirstLineKept |
| ChatProcessorFixed.Reformat | chat_processor_fixed.py:66-78 | an answer already holding `【版本1` is returned unchanged |
| ChatProcessorFixed.ReformatLayout | chat_processor_fixed.py:66-76 | a rebuilt answer, split into lines, is exactly the introduction, a blank line, and the three headers in order, each over its slot |
| ChatProcessorFixed.FirstLineKept | chat_processor_fixed.py:68-71 | the first slot of a rebuilt answer is always the model's first line |
| ChatProcessorFixed.ReformatIdempotent | chat_processor_fixed.py:63-78 | every formatted answer holds `【版本1`, so formatting twice equals formatting once |
| ChatProcessorFixed.GenerateReply | chat_processor_fixed.py:60-78 | a reply exists exactly when the model answers, and it always holds `【版本1` |
| ChatProcessorFixed.GenerateMore | chat_processor_fixed.py:128-131 | a falsy record gives the fixed "no record" text without a model call |
| ChatProcessorFixed.GenerateConversation | chat_processor_fixed.py:50-78 | saves the record when a store and a user id are given, then returns the reformatted answer |
| ChatProcessorFixed.PolishConversation | chat_processor_fixed.py:114-126 | saves the polish record on the same condition, then returns the stripped answer |
| ChatProcessorFinal.ContextInstruction | chat_processor_final.py:21-30 | the question instruction is given exactly when the past conversation is not `無` and contains `？` |
| ChatProcessorFinal.GenerateRecord | chat_processor_final.py:66-72 | the four-field record plus `context_instruction`, with no `draft`; the instruction is non-empty exactly when a past conversation other than `無` containing `？` is present |
| ChatProcessorFinal.Rule | chat_processor_final.py:84 | the separator is 40 characters, every one of them `=` |
| ChatProcessorFinal.Framed | chat_processor_final.py:83-87 | definition of the framed answer; its properties are in FramedBodyRecoverable and FramedInjective |
| ChatProcessorFinal.FramedBodyRecoverable | chat_processor_final.py:83-89 | the framed answer has the header, the model text and the footer at fixed positions, so the model text can be read back |
| ChatProcessorFinal.FramedInjective | chat_processor_final.py:83-89 | different model texts give different framed answers |
| ChatProcessorFinal.FramedReply | chat_processor_final.py:80-89 | a reply exists exactly when the model answers, and it is the stripped answer in its frame |
| ChatProcessorFinal.TaskDescription | chat_processor_final.py:151-155 | the label is `優化草稿` exactly when the record has a `draft` key, `回覆對話` otherwise |
| ChatProcessorFinal.MoreRequest | chat_processor_final.py:180 | the record sent for "more" is the saved one plus `task_description`, with every other key unchanged |
| ChatProcessorFinal.GenerateMore | chat_processor_final.py:146-191 | a falsy record gives the fixed text and is left unchanged; otherwise the caller's record gains its task label |
| ChatProcessorFinal.MoreRequestStable | chat_processor_final.py:180 | adding the label to an already labelled record changes nothing |
| ChatProcessorFinal.MoreFollowsRecordKind | chat_processor_final.py:151-155 | "more" on a generate record asks for a reply, on a polish record for a draft |
| ChatProcessorFinal.GenerateConversation | chat_processor_final.py:66-89 | saves the record when a store and a user id are given, then returns the framed answer |
| ChatProcessorFinal.PolishConversation | chat_processor_final.py:125-144 | saves the polish record on the same condition, then returns the framed answer |
| SimpleSessionStore.SessionOf | app_simple_reply.py:20-21 | definition of `get_session_data`: the user's entries, or `{}`; its properties are in FreshHasNoPrompt |
| SimpleSessionStore.SaveIn | app_simple_reply.py:23-26 | definition of `save_last_prompt`; its properties are in SaveReadBack and SaveIsolated |
| SimpleSessionStore.LastPromptOf | app_simple_reply.py:28-29 | definition of `get_last_prompt`; its properties are in SaveReadBack and FreshHasNoPrompt |
| SimpleSessionStore.SaveReadBack | app_simple_reply.py:23-29 | a saved prompt reads back, and the user's other entries are kept |
| SimpleSessionStore.SaveIsolated | app_simple_reply.py:23-26 | saving for one user leaves every other user's entry as it was |
| SimpleSessionStore.FreshHasNoPrompt | app_simple_reply.py:17-21 | an unknown user reads as `{}` with no prompt |
| SimpleSessionStore.SimpleSessionManager.constructor | app_simple_reply.py:17 | the sessions start empty |
| SimpleSessionStore.SimpleSessionManager.GetSessionData | app_simple_reply.py:20-21 | returns the user's entry, `{}` for an unknown user |
| SimpleSessionStore.SimpleSessionManager.SaveLastPrompt | app_simple_reply.py:23-26 | creates the entry when it is absent, and sets `last_prompt` |
| SimpleSessionStore.SimpleSessionManager.GetLastPrompt | app_simple_reply.py:28-29 | returns the saved prompt, which only a known user can have |
| SimpleReplyApp.StatedIdentity | app_simple_reply.py:121-125 | definition of the `我是` rule; its properties are in StatedIdentityTaken and UsageExampleIdentity |
| SimpleReplyApp.CutTarget | app_simple_reply.py:133-134 | definition of the cut at a space, `說` and `，`; its properties are in StatedTargetTaken |
| SimpleReplyApp.StatedTarget | app_simple_reply.py:128-135 | definition of the target-keyword rule; its properties are in StatedTargetTaken, FirstKeywordAt and UsageExampleTarget |
| SimpleReplyApp.FirstKeywordFrom | app_simple_reply.py:128-135 | the first of the keywords, in order, that the message contains, or none when it contains none of them |
| SimpleReplyApp.GuessedIdentity | app_simple_reply.py:138-146 | `教練` exactly when the message has `教練`; else `老師` exactly when it has `老師`; else `員工` exactly when it has `員工` or `請假`; else `我` |
| SimpleReplyApp.GuessedTarget | app_simple_reply.py:148-158 | `學生` exactly when the message has `學生`; else `主管` exactly when it has `老闆` or `主管`; else `同事`, then `客戶`, each exactly when its word occurs; else `對方` |
| SimpleReplyApp.ChosenIdentity | app_simple_reply.py:121-146 | the stated identity when it is non-empty, the guess otherwise, and never empty |
| SimpleReplyApp.ChosenTarget | app_simple_reply.py:128-158 | the stated target when it is non-empty, the guess otherwise, and never empty |
| SimpleReplyApp.FreshRecord | app_simple_reply.py:113-118 | the four record keys, with the whole message as context and `無` as past conversation |
| SimpleReplyApp.ParsedInput | app_simple_reply.py:111-160 | the parsed record has the four keys, the message as context, `無` as past conversation and both identities non-empty |
| SimpleReplyApp.ParseUserInput | app_simple_reply.py:111-160 | the conditional filling and the keyword loop compute the parsed record |
| SimpleReplyApp.ParsedIsRecord | app_simple_reply.py:101-104 | the record the processor builds from a parsed message is the parsed record itself |
| SimpleReplyApp.StatedIdentityTaken | app_simple_reply.py:121-125 | `…我是<id>，…` yields exactly `<id>` as the user identity |
| SimpleReplyApp.StatedTargetTaken | app_simple_reply.py:128-135 | `…<keyword><target>說…` yields exactly `<target>` when no earlier keyword occurs |
| SimpleReplyApp.FirstKeywordAt | app_simple_reply.py:129-135 | the keyword used is the one at `i` when it occurs and no earlier one does |
| SimpleReplyApp.UsageExampleIdentity | app_simple_reply.py:86 | the usage example `我是滑板教練，要跟學生說學費要調漲` parses to the identity `滑板教練` |
| SimpleReplyApp.UsageExampleTarget | app_simple_reply.py:86 | the same example parses to the target `學生` |
| SimpleReplyApp.Handle | app_simple_reply.py:76-104 | definition of `handle_message` on the sessions; its properties are in CommandsKeepSessions, SituationSaved, MoreReplaysSituation and OtherUsersUntouched |
| SimpleReplyApp.HandleMessage | app_simple_reply.py:76-104 | the handler's new sessions and reply are those of the pure handler |
| SimpleReplyApp.CommandsKeepSessions | app_simple_reply.py:80-97 | `/help` and `/more` never change the sessions, and `/more` without a prompt replies `請先告訴我你的情況` |
| SimpleReplyApp.SituationSaved | app_simple_reply.py:99-104 | free text saves its parsed record as the last prompt; a reply exists exactly when the model answers, and it holds `【版本1` |
| SimpleReplyApp.MoreReplaysSituation | app_simple_reply.py:92-95 | `/more` after a situation replays exactly that situation's record |
| SimpleReplyApp.OtherUsersUntouched | app_simple_reply.py:23-26 | handling one user's message leaves every other user's entry as it was |
| ReplyGenerator.EmojiDeterminesStyle | reply_generator.py:89-97 | styles and emojis are paired one to one |
| ReplyGenerator.StyleOf | reply_generator.py:89-97 | formal exactly when the title has `正式` or `委婉`; balanced exactly when it has neither but has `平衡` or `適中` |
| ReplyGenerator.CleanText | reply_generator.py:82-86 | definition of the text cleaning; its properties are in CleanTextIsClean |
| ReplyGenerator.TitleOf | reply_generator.py:80-81 | definition of the title before the first `】`; used by OptionFor |
| ReplyGenerator.BodyOf | reply_generator.py:80-82 | definition of the text after the first `】`; used by OptionFor |
| ReplyGenerator.CleanTextIsClean | reply_generator.py:82-86 | an option's text has no `[`, no `]`, no line break and no surrounding whitespace |
| ReplyGenerator.OptionTitle | reply_generator.py:102 | the title of option `n` starts with `選項n：` |
| ReplyGenerator.OptionFor | reply_generator.py:79-104 | definition of one section's option; its properties are in OptionForWellFormed |
| ReplyGenerator.OptionForWellFormed | reply_generator.py:79-104 | each option is numbered, carries its style's emoji, and has a clean text |
| ReplyGenerator.Labelled | reply_generator.py:78-79 | only sections with a `】` are kept, never more than there are sections |
| ReplyGenerator.LabelledFilters | reply_generator.py:78-79 | a section is kept exactly when it has a `】`, and none are kept exactly when no section has one |
| ReplyGenerator.Numbered | reply_generator.py:99-104 | the options are built from the kept sections in order, numbered from 1 |
| ReplyGenerator.Parsed | reply_generator.py:78-104 | definition: the labelled sections, numbered; its properties are in ParsedStep and ParsedWellFormed |
| ReplyGenerator.Fallback | reply_generator.py:107-115 | definition of the fallback option; its properties are in FallbackShape |
| ReplyGenerator.ReplyOptionsOf | reply_generator.py:71-117 | definition of `_parse_reply_options`; its properties are in ReplyOptionsShape |
| ReplyGenerator.ParseReplyOptions | reply_generator.py:71-117 | the parser's result is the numbered options of the labelled sections after the first marker, or the single fallback |
| ReplyGenerator.CollectOptions | reply_generator.py:78-104 | the section loop appends exactly one option per labelled section, numbered by the options so far |
| ReplyGenerator.ParsedStep | reply_generator.py:99-104 | one more labelled section adds one option numbered one past the previous count; any other section adds nothing |
| ReplyGenerator.ParsedWellFormed | reply_generator.py:99-104 | option `i` is titled `選項i+1：`, and every option has its style's emoji and a clean text |
| ReplyGenerator.ReplyOptionsShape | reply_generator.py:76-117 | the result is never empty; it is the fallback exactly when no section has a `】`, and otherwise one option per labelled section |
| ReplyGenerator.FallbackShape | reply_generator.py:107-115 | the fallback is one formal option titled `選項1：正式版` whose text is the first 100 characters of the stripped content, or all of it when it is shorter |
| ReplyGenerator.EmojiHint | reply_generator.py:55 | the emoji hint is non-empty exactly when `medium` is present and is `LINE` |
| ReplyGenerator.ReplyParams | reply_generator.py:59-66 | the six parameters with their defaults `一般員工`, `主管`, `''`, `LINE` and `一般`, plus the hint |
| ReplyGenerator.AbsentMediumHasNoHint | reply_generator.py:55-63 | without `medium` the medium slot says `LINE` but the hint is empty |
| ReplyGenerator.ReplyOptionsFor | reply_generator.py:57-69 | definition of `generate_reply_options`; its properties are in GenerateReplyOptions and OtherScenariosAskModel |
| ReplyGenerator.GenerateReplyOptions | reply_generator.py:57-69 | the options of the model's answer, never empty when the model answers |
| ReplyGenerator.ScenarioRequest | reply_generator.py:161-165 | an unknown scenario becomes a request with exactly the keys `context`, `medium`, `culture`: the scenario, `LINE` and `一般` |
| ReplyGenerator.Texts | reply_generator.py:167 | the texts of the options, in order |
| ReplyGenerator.QuickScenarioReply | reply_generator.py:119-167 | definition of `generate_quick_scenario_reply`; its properties are in KnownScenariosAreFixed and OtherScenariosAskModel |
| ReplyGenerator.GenerateQuickScenarioReply | reply_generator.py:157-167 | the table's examples for a known scenario, the generated texts otherwise |
| ReplyGenerator.KnownScenariosAreFixed | reply_generator.py:122-158 | the table holds exactly the four scenarios, and each gives its three examples whatever the model would say |
| ReplyGenerator.OtherScenariosAskModel | reply_generator.py:159-167 | another scenario asks the model with the emoji hint on, and gives at least one text when the model answers |
| ReplyGenerator.ToneLabel | reply_generator.py:186-196 | the label is `更平衡` exactly for tones outside the map |
| ReplyGenerator.ToneLabelsDistinct | reply_generator.py:186-196 | two tones share a label exactly when they are equal or both unknown |
| ReplyGenerator.AdjustTone | reply_generator.py:169-199 | an answer exists exactly when the model answers the original text and the tone's label, and it is stripped |
| OptimizedApp.Identities | app_reply_optimized.py:220-231 | the boss, colleague and client words are tried in that order, and the default is `對方`/`我` |
| OptimizedApp.SituationOf | app_reply_optimized.py:234-246 | the first matching table names the situation, in the order leave `請假`, decline `婉拒邀請或要求`, urge `催促進度`, apology `道歉`, thanks `表達感謝`; with no match, the message itself |
| OptimizedApp.MediumOf | app_reply_optimized.py:248-254 | email words give `Email`; else phone words give `電話`; else face-to-face words give `面對面`; the medium stays `LINE` exactly when none occurs |
| OptimizedApp.ExtractContext | app_reply_optimized.py:212-256 | the five keys, `culture` always `一般`, with the medium, the identities and the situation above |
| OptimizedApp.ExtractedPromptParams | app_reply_optimized.py:131-134 | the extracted record reaches the prompt unchanged, and the emoji hint is on exactly when the medium is LINE |
| OptimizedApp.PiecesDict | app_reply_optimized.py:148 | definition: `dict` over the `k=v` pieces, a later key winning; its properties are in PostbackRoundTrip |
| OptimizedApp.ParsePostback | app_reply_optimized.py:148 | the data parses exactly when every `&` piece is one `k=v` |
| OptimizedApp.MalformedPostback | app_reply_optimized.py:148 | a piece without `=` or with two of them makes the parse fail |
| OptimizedApp.PairPieces | app_reply_optimized.py:148 | each pair is written as `k=v` |
| OptimizedApp.PostbackRoundTrip | app_reply_optimized.py:148 | data `k1=v1&k2=v2…` over plain keys and values parses to the dictionary of the pairs |
| OptimizedApp.DictOfLastWins | app_reply_optimized.py:148 | a key maps to its last value |
| OptimizedApp.DictOfKeys | app_reply_optimized.py:148 | the keys are exactly those of the pairs |
| OptimizedApp.Card | app_reply_optimized.py:164-169 | definition of the card at one position; its properties are in CardsShape |
| OptimizedApp.Cards | app_reply_optimized.py:163 | at most the first three examples become cards |
| OptimizedApp.BuildCards | app_reply_optimized.py:157-169 | the loop builds exactly those cards |
| OptimizedApp.CardsShape | app_reply_optimized.py:159-169 | card `i` holds example `i`; by position the cards are formal 👔 `選項1：正式版`, balanced 🤝 `選項2：平衡版`, casual 😊 `選項3：輕鬆版`; each emoji is its style's |
| OptimizedApp.AdjustedTitle | app_reply_optimized.py:198-207 | the title is `調整後 - ` and the tone's label: `正式版`, `輕鬆版`, `委婉版`, `直接版` for formal, casual, polite, direct, and `調整版` for any other tone |
| OptimizedApp.ScenarioOutcome | app_reply_optimized.py:150-173 | definition of the scenario branch, a missing scenario read as `None`; its properties are in KnownScenarioCards |
| OptimizedApp.PostbackAsWritten | app_reply_optimized.py:143-210 | definition of `handle_postback` as written; its properties are in ToneBranchesRaise, ScenarioBranchUnchanged and QuickButtonIgnored |
| OptimizedApp.ToneBranchesRaise | app_reply_optimized.py:175-192 | as written, every tone postback raises |
| OptimizedApp.AdjustTonePostbackRaises | app_reply_optimized.py:175-184 | as written, `action=adjust_tone&text=<t>` raises, while the corrected handler shows the tone menu for `<t>` |
| OptimizedApp.Postback | app_reply_optimized.py:143-210 | malformed data raises |
| OptimizedApp.ToneBranchesAnswer | app_reply_optimized.py:175-195 | corrected and with no stored text, `adjust_tone` shows the menu for the postback's text, and a tone postback gives a card when the model answers |
| OptimizedApp.ScenarioBranchUnchanged | app_reply_optimized.py:150-173 | the scenario branch is the same as written and corrected |
| OptimizedApp.KnownScenarioCards | app_reply_optimized.py:150-169 | the data `action=scenario&scenario=<s>` for a known scenario `<s>` gives its three fixed examples as formal, balanced and casual cards, whatever the model would say |
| OptimizedApp.ScenarioData | app_reply_optimized.py:150-152 | definition of the data the scenario branch reads, `action=scenario&scenario=<s>` |
| OptimizedApp.QuickButtonData | flex_message_builder.py:123 | definition of the data the quick-scenario buttons send, `scenario=<s>` |
| OptimizedApp.QuickButtonParams | app_reply_optimized.py:148 | the data `scenario=<s>` parses to exactly `{scenario: <s>}` |
| OptimizedApp.QuickButtonIgnored | app_reply_optimized.py:148-192 | the data `scenario=<s>` of a quick-scenario button parses to `{scenario: <s>}` and is ignored by both the written and the corrected handler |
| OptimizedApp.CardToneButton | app_reply_optimized.py:175-184 | the card's tone button data `action=adjust_tone&index=<i>&style=<s>` raises as written, and corrected, with no stored text, shows the tone menu for `""` |
| OptimizedApp.CardToneParams | app_reply_optimized.py:148 | the tone button's data parses to exactly `{action: adjust_tone, index: <i>, style: <s>}` |
| OptimizedApp.ScenarioPostbackParams | app_reply_optimized.py:148-152 | a known scenario's postback parses to that action and that name |
| OptimizedApp.KnownScenariosArePlain | app_reply_optimized.py:148 | the scenario names contain no `&` or `=` |
| OptimizedApp.HandlePostback | app_reply_optimized.py:143-210 | the handler computes the corrected postback outcome |
| LineApp.Capture | app.py:55-73 | definition of one capture step; its properties are in CaptureStoresMessage and CaptureIsolated |
| LineApp.Produce | app.py:75-89 | definition of a generation or polish; its properties are in ProduceOutcome and ProduceIsolated |
| LineApp.ChooseMode | app.py:75-84 | definition of the mode choice; its properties are in ModeChoiceOnStrippedText and GenerateChoice |
| LineApp.Step | app.py:49-95 | definition of ordinary text in each state; its properties are in CaptureOrder, StepCompletes and StepIsolated |
| LineApp.Handle | app.py:32-95 | definition of `handle_message`; its properties are in the lemmas below |
| LineApp.HandleMessage | app.py:32-95 | the store and the reply after a message are those of the pure handler |
| LineApp.NewRestarts | app.py:37-40 | `/new` from any state leaves exactly `{state: awaiting_user_identity}` for the session's lifetime, with no last prompt |
| LineApp.MoreKeepsStore | app.py:42-47 | `/more` never changes the store; without a live non-empty prompt it gives the fixed reply, otherwise it replays the prompt |
| LineApp.CaptureStoresMessage | app.py:55-73 | a capture step stores the message verbatim in its field, keeps every other field, advances the state and keeps the prompt |
| LineApp.CaptureOrder | app.py:55-73 | the four capture states fill user identity, target identity, context and past conversation, in that order |
| LineApp.ModeChoiceOnStrippedText | app.py:75-84 | on the stripped message, `潤飾` moves to the draft, `生成` generates, and anything else re-prompts with no change |
| LineApp.ProduceOutcome | app.py:75-89 | the record is saved before the model call and stays for the lifetime; an answer completes the conversation, while a raised call leaves the state |
| LineApp.GenerateChoice | app.py:76-79 | `生成` generates from the session's generate record |
| LineApp.DraftPolishes | app.py:86-89 | in the draft state the message is the record's `draft`; the record is saved as the last prompt for its lifetime, and a model answer completes the conversation |
| LineApp.GenerateThenMore | app.py:42-47 | after `生成`, `/more` within the lifetime replays that record with the fresh template |
| LineApp.IdleStatesKeepStore | app.py:50-53 | with no state, when complete or in an unknown state, the store is unchanged and the fixed reply is given |
| LineApp.AlwaysReplies | app.py:37-95 | when the model never raises, every message gets a reply |
| LineApp.CompleteOnlyAfterModel | app.py:75-89 | the conversation becomes complete only from the mode choice or the draft, and only with a model answer |
| LineApp.StepCompletes | app.py:55-95 | a state step completes only from the mode choice or the draft, with a reply |
| LineApp.OtherUsersUntouched | app.py:32-95 | one user's message leaves every other user's keys as they were |
| LineApp.StepIsolated | app.py:55-95 | a state step for one user leaves every other user's keys as they were |
| LineApp.CaptureIsolated | app.py:55-73 | a capture step for one user leaves every other user's keys as they were |
| LineApp.ProduceIsolated | app.py:75-89 | a generation or polish for one user leaves every other user's keys as they were |
| Text.Find | app_simple_reply.py:121 | the first occurrence of the needle, with none before it; `None` exactly when it occurs nowhere |
| Text.Contains | app_simple_reply.py:121 | definition of `sub in s` from Find; ContainsIff states it as some occurrence |
| Text.ContainsAny | app_reply_optimized.py:220 | definition of `any(w in s for w in words)` |
| Text.IndexOfChar | reply_generator.py:80 | `s.index(c)`: an index holding `c` with no `c` before it |
| Text.Join | app_reply_optimized.py:148 | definition of `sep.join(parts)`; its properties are in JoinSplit and SplitJoin |
| Text.TrimStart | reply_generator.py:102 | `lstrip`: a suffix of the input whose removed characters are all dropped ones and which starts with a kept character |
| Text.TrimEnd | reply_generator.py:102 | `rstrip`: a prefix of the input whose removed characters are all dropped ones and which ends with a kept character |
| Text.Split | reply_generator.py:76 | `str.split`: at least one piece, and two or more exactly when the separator occurs; no piece contains it |
| Text.JoinSplit | app_reply_optimized.py:148 | joining the pieces with the separator gives the string back |
| Text.SplitJoin | app_reply_optimized.py:148 | splitting a join of separator-free pieces gives the pieces back |
| Text.Strip | chat_processor.py:48 | `str.strip()`: a piece of the input with no whitespace at either end |
| Text.StripRemovesOnlyWhitespace | chat_processor.py:48 | `str.strip()` is the input less a prefix and a suffix made only of whitespace, the longest such |
| Text.StripIdempotent | chat_processor.py:48 | stripping twice equals stripping once |
| Text.StripChars | reply_generator.py:102 | `str.strip(chars)`: a piece of the input with no dropped character at either end, unchanged when already clean |
| Text.StripCharsRemovesOnlyDropped | reply_generator.py:102 | `str.strip(chars)` is the input less a prefix and a suffix made only of dropped characters; with StripChars' ends, these are the longest such |
| Text.RemoveChar | reply_generator.py:85 | `str.replace(c, '')`: no `c` is left, and every other character is kept as often as it occurs |
| Text.RemoveCharAppend | reply_generator.py:85 | removing a character distributes over concatenation, so the kept characters stay in their order |
| Text.Repeat | chat_processor_final.py:84 | `c * n`: `n` characters, each `c` |
| Text.Take | reply_generator.py:113 | `s[:n]`: the prefix of length `n`, or the whole string when it is shorter |
| Text.NatToString | reply_generator.py:102 | `str(n)`: a non-empty run of digits without a leading zero |
| Text.DecimalRoundTrip | reply_generator.py:102 | the number written by `str(n)` reads back as `n` |
| Text.NatToStringInjective | reply_generator.py:102 | different option numbers are written differently |

## Left out

- The Flask routes, the `callback` webhook, LINE signature checking and the `reply_message` calls are out. They are HTTP and SDK I/O. A handler's reply is a returned `Option<string>`.
- The language model, the prompt template texts and the temperature are out. The model is the parameter `llm`, and each template is a constructor of `Template`.
- The Redis client and Redis's own expiry are not modelled. The keyspace is a map with an expiry time per key, and the clock is the parameter `now`. JSON encoding is stored as is, because each stored record is a flat `dict` of strings.
- `flex_message_builder.py` is not part of this model: it is UI card construction over the LINE SDK. Only the postback data of its buttons is taken, to state what `handle_postback` does with it (`QuickButtonData`, `CardToneButton`). `test_setup.py` is not part of this model either: it holds import and connectivity checks.
- The HTML index page of `app_simple_reply.py` is left out. So are the help texts, the quick-reply menus and the fixed-reply commands of `app_reply_optimized.py`'s `handle_message` (`/start`, `開始`, `/help`, `說明`, `看範例`, `我要自訂情境`, which also sets the unused state `custom_scenario`), because they are fixed display texts. Its free-text branch is modelled as `ExtractContext` followed by `GenerateReplyOptions` (`ExtractedPromptParams`).
- ChatProcessorFinal.GenerateMore: `generate_more` adds `task_description` to the caller's dict in place. The model returns the updated record next to the reply, so it does not capture aliasing: any other holder of that dict seeing the change.
- Concurrency between users' messages is not modelled. Each message is handled atomically.
- Time passing during a handler is not modelled. One `now` serves all the reads and writes of a message, although the model call runs between saving the prompt and setting the state, so the two writes may get expiry times a few seconds apart.
- Strip: its contract states the stripped ends and that the result is a piece of the input. That only surrounding whitespace is removed is the lemma StripRemovesOnlyWhitespace, kept out of the contract because every caller of `strip` would then carry an extra quantified fact.
- StripChars: likewise, that only characters of `chars` are removed is the lemma StripCharsRemovesOnlyDropped.
- A missing or empty LINE user id is modelled as the uid `""`, the falsy `user_id` for which the processors skip the save.

## Findings

| source | as written | input that shows it | evidently intended | confidence | as-written member | corrected member |
|---|---|---|---|---|---|---|
| app_reply_optimized.py:177, app_reply_optimized.py:192 | the `adjust_tone` and `tone` postback branches call `session_manager.get_last_text`, which `SessionManager` (session_manager.py:9-76) does not define, so both branches raise `AttributeError` and no menu or card is ever sent | postback data `action=adjust_tone&text=<t>` for any `<t>` without `&` or `=` | with no stored text, fall back to the postback's `text` parameter, showing the tone menu for `<t>` or the adjusted card | not executed | OptimizedApp.AdjustTonePostbackRaises | OptimizedApp.HandlePostback |
| flex_message_builder.py:123-178, app_reply_optimized.py:150 | the quick-scenario buttons send `scenario=<name>` with no `action`, while `handle_postback` enters the scenario branch only for `action=scenario`, so the buttons get no reply; likewise the card's tone button sends `action=adjust_tone&index=<i>&style=<s>`, which carries no `text` for the fallback | postback data `scenario=請假` | the buttons send `action=scenario&scenario=<name>`, for which the handler shows the scenario's three cards | not executed | OptimizedApp.QuickButtonIgnored | OptimizedApp.KnownScenarioCards |
