/**
 * The flat string-to-string records the engine passes around (session
 * data, prompt records, template parameters) and the text-generation
 * service, which is opaque here.
 */
module Generation {
  import opened Wrappers
  import Text

  /** A Python `dict` whose keys and values are all `str`. */
  type Dict = map<string, string>

  /** Python's `d.get(k, default)`. */
  function Get(d: Dict, k: string, default: string): (v: string)
    ensures k in d ==> v == d[k]
    ensures k !in d ==> v == default
  {
    if k in d then d[k] else default
  }

  /** Python truthiness of an optional record: present and non-empty. */
  predicate IsTruthy(d: Option<Dict>) {
    d.Some? && |d.value| > 0
  }

  /**
   * Every prompt template the repository sends to the language model.
   * The model sees the template together with its parameter record; the
   * template text itself is not modelled.
   */
  datatype Template =
    // chat_processor.py
    | ConversationGenerate | ConversationPolish | ConversationMoreDraft | ConversationMoreFresh
    // chat_processor_fixed.py
    | VersionsGenerate | VersionsPolish | VersionsMore
    // chat_processor_final.py
    | FinalGenerate | FinalPolish | FinalMore
    // reply_generator.py
    | ReplyOptions | ToneAdjustment

  /**
   * `(prompt_template | llm).invoke(params).content`: any function of the
   * template and the parameters. `None` stands for a call that raises, an
   * exception the source never catches.
   */
  type Llm = (Template, Dict) -> Option<string>

  /** `result.content.strip()`, passing a raised call through. */
  function StrippedContent(out: Option<string>): (r: Option<string>)
    ensures r.Some? <==> out.Some?
    ensures r.Some? ==> Text.StrippedOf(r.value, Text.Whitespace)
    ensures r.Some? ==> r.value == Text.Strip(out.value)
  {
    match out
    case None => None
    case Some(c) => Some(Text.Strip(c))
  }
}
