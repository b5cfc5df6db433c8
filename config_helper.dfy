/**
 * The configuration layer of the question-answering backend: the JSON-shaped
 * document kept as `active.json` in the `config` container, the typed sections
 * built from it (prompts, messages, chunking, logging), the built-in default,
 * and the rule that loads the active configuration or falls back to that
 * default.
 *
 * Construction only subscripts dictionaries and coerces one enum, so every
 * member here is a function: a constructor that would raise returns None.
 */
module ConfigHelper {
  import opened Wrappers

  /** The document splitting methods the pipeline knows; there are no others. */
  datatype ChunkingStrategy = Layout | Page | FixedSizeOverlap | Paragraph

  /** The value of each enum member, which is also its token on the wire. */
  function Token(s: ChunkingStrategy): string {
    match s
    case Layout => "layout"
    case Page => "page"
    case FixedSizeOverlap => "fixed_size_overlap"
    case Paragraph => "paragraph"
  }

  /** Every token the enum recognises. */
  const StrategyTokens: set<string> := {"layout", "page", "fixed_size_overlap", "paragraph"}

  /**
   * A value the constructors can be handed: anything JSON decoding produces,
   * plus an enum member, which the built-in default document stores where a
   * decoded document has a token. JSON numbers are modelled as integers.
   */
  datatype Value =
    | JNull
    | JBool(b: bool)
    | JInt(i: int)
    | JString(s: string)
    | JArray(items: seq<Value>)
    | JObject(fields: map<string, Value>)
    | EnumMember(member: ChunkingStrategy)

  /** `v[key]`: defined only when `v` is a dictionary holding `key`; anything else raises. */
  function Get(v: Value, key: string): Option<Value> {
    if v.JObject? && key in v.fields then Some(v.fields[key]) else None
  }

  /** `v` is a dictionary that holds at least `keys`. */
  ghost predicate HasKeys(v: Value, keys: set<string>) {
    v.JObject? && keys <= v.fields.Keys
  }

  /**
   * `ChunkingStrategy(v)`: a member is returned unchanged, a string is looked
   * up among the members' values, and anything else is rejected.
   */
  function ParseStrategy(v: Value): (r: Option<ChunkingStrategy>)
    ensures r.Some? <==> v.EnumMember? || (v.JString? && v.s in StrategyTokens)
    ensures r.Some? ==> v == EnumMember(r.value) || v == JString(Token(r.value))
  {
    match v
    case EnumMember(m) => Some(m)
    case JString(t) =>
      if t == "layout" then Some(Layout)
      else if t == "page" then Some(Page)
      else if t == "fixed_size_overlap" then Some(FixedSizeOverlap)
      else if t == "paragraph" then Some(Paragraph)
      else None
    case _ => None
  }

  /** The three prompt templates, each kept exactly as the document gives it. */
  datatype Prompts = Prompts(condenseQuestionPrompt: Value, answeringPrompt: Value, postAnsweringPrompt: Value)

  /** The message shown when the post-answering check rejects an answer. */
  datatype Messages = Messages(postAnsweringFilter: Value)

  /** One chunking entry; size and overlap are not checked against each other. */
  datatype Chunking = Chunking(strategy: ChunkingStrategy, size: Value, overlap: Value)

  /** The two logging switches. */
  datatype Logging = Logging(logUserInteractions: Value, logTokens: Value)

  /** The whole configuration, owning its sections by value. */
  datatype Config = Config(prompts: Prompts, messages: Messages, chunking: seq<Chunking>, logging: Logging)

  /** `Prompts(v)`: all three templates must be present; they are copied as they are. */
  function ParsePrompts(v: Value): (r: Option<Prompts>)
    ensures r.Some? <==> HasKeys(v, {"condense_question_prompt", "answering_prompt", "post_answering_prompt"})
    ensures r.Some? ==>
      && r.value.condenseQuestionPrompt == v.fields["condense_question_prompt"]
      && r.value.answeringPrompt == v.fields["answering_prompt"]
      && r.value.postAnsweringPrompt == v.fields["post_answering_prompt"]
  {
    var condense :- Get(v, "condense_question_prompt");
    var answering :- Get(v, "answering_prompt");
    var postAnswering :- Get(v, "post_answering_prompt");
    Some(Prompts(condense, answering, postAnswering))
  }

  /** `Messages(v)`: the filter message must be present and is copied as it is. */
  function ParseMessages(v: Value): (r: Option<Messages>)
    ensures r.Some? <==> HasKeys(v, {"post_answering_filter"})
    ensures r.Some? ==> r.value.postAnsweringFilter == v.fields["post_answering_filter"]
  {
    var filter :- Get(v, "post_answering_filter");
    Some(Messages(filter))
  }

  /**
   * `Chunking(v)`: the strategy must be present and recognised, size and
   * overlap must be present; the last two are copied with no check at all.
   */
  function ParseChunking(v: Value): (r: Option<Chunking>)
    ensures r.Some? <==> HasKeys(v, {"strategy", "size", "overlap"}) && ParseStrategy(v.fields["strategy"]).Some?
    ensures r.Some? ==>
      && ParseStrategy(v.fields["strategy"]) == Some(r.value.strategy)
      && r.value.size == v.fields["size"]
      && r.value.overlap == v.fields["overlap"]
  {
    var token :- Get(v, "strategy");
    var strategy :- ParseStrategy(token);
    var size :- Get(v, "size");
    var overlap :- Get(v, "overlap");
    Some(Chunking(strategy, size, overlap))
  }

  /**
   * `[Chunking(x) for x in items]`: the first entry that fails makes the whole
   * list fail; otherwise entry i of the result is built from item i.
   */
  function ParseEntries(items: seq<Value>): (r: Option<seq<Chunking>>)
    ensures r.Some? <==> forall i :: 0 <= i < |items| ==> ParseChunking(items[i]).Some?
    ensures r.Some? ==>
      && |r.value| == |items|
      && forall i :: 0 <= i < |items| ==> ParseChunking(items[i]) == Some(r.value[i])
  {
    if items == [] then Some([])
    else
      var first :- ParseChunking(items[0]);
      var rest :- ParseEntries(items[1..]);
      Some([first] + rest)
  }

  /** `v` is a chunking entry that `ParseChunking` accepts, stated on the document. */
  ghost predicate WellFormedEntry(v: Value) {
    HasKeys(v, {"strategy", "size", "overlap"}) && ParseStrategy(v.fields["strategy"]).Some?
  }

  /**
   * What the comprehension over `chunking` accepts. Iterating a dictionary
   * yields its keys and iterating a string its characters, all strings, and
   * subscripting a string with 'strategy' raises: so those two succeed exactly
   * when empty. Other scalars are not iterable.
   */
  ghost predicate WellFormedChunkingList(v: Value) {
    match v
    case JArray(items) => forall i :: 0 <= i < |items| ==> WellFormedEntry(items[i])
    case JObject(fields) => fields == map[]
    case JString(s) => s == ""
    case _ => false
  }

  /** The comprehension applied to whatever `chunking` holds. */
  function ParseChunkingList(v: Value): (r: Option<seq<Chunking>>)
    ensures r.Some? <==> WellFormedChunkingList(v)
    ensures r.Some? && v.JArray? ==>
      && |r.value| == |v.items|
      && forall i :: 0 <= i < |v.items| ==> ParseChunking(v.items[i]) == Some(r.value[i])
    ensures r.Some? && !v.JArray? ==> r.value == []
  {
    match v
    case JArray(items) => ParseEntries(items)
    case JObject(fields) => if fields == map[] then Some([]) else None
    case JString(s) => if s == "" then Some([]) else None
    case _ => None
  }

  /** The document schema: every key the constructors subscript is there, every strategy is recognised. */
  ghost predicate WellFormed(v: Value) {
    && HasKeys(v, {"prompts", "messages", "chunking", "logging"})
    && HasKeys(v.fields["prompts"], {"condense_question_prompt", "answering_prompt", "post_answering_prompt"})
    && HasKeys(v.fields["messages"], {"post_answering_filter"})
    && WellFormedChunkingList(v.fields["chunking"])
    && HasKeys(v.fields["logging"], {"log_user_interactions", "log_tokens"})
  }

  /** `Logging(v)`: both switches must be present; they are copied as they are. */
  function ParseLogging(v: Value): (r: Option<Logging>)
    ensures r.Some? <==> HasKeys(v, {"log_user_interactions", "log_tokens"})
    ensures r.Some? ==>
      && r.value.logUserInteractions == v.fields["log_user_interactions"]
      && r.value.logTokens == v.fields["log_tokens"]
  {
    var interactions :- Get(v, "log_user_interactions");
    var tokens :- Get(v, "log_tokens");
    Some(Logging(interactions, tokens))
  }

  /**
   * `Config(v)`: all or nothing. It succeeds exactly on well-formed documents,
   * and then each section is the one its own constructor builds from the
   * document's section.
   */
  function ParseConfig(v: Value): (r: Option<Config>)
    ensures r.Some? <==> WellFormed(v)
    ensures r.Some? ==>
      && ParsePrompts(v.fields["prompts"]) == Some(r.value.prompts)
      && ParseMessages(v.fields["messages"]) == Some(r.value.messages)
      && ParseChunkingList(v.fields["chunking"]) == Some(r.value.chunking)
      && ParseLogging(v.fields["logging"]) == Some(r.value.logging)
  {
    var promptsSection :- Get(v, "prompts");
    var prompts :- ParsePrompts(promptsSection);
    var messagesSection :- Get(v, "messages");
    var messages :- ParseMessages(messagesSection);
    var chunkingSection :- Get(v, "chunking");
    var chunking :- ParseChunkingList(chunkingSection);
    var loggingSection :- Get(v, "logging");
    var logging :- ParseLogging(loggingSection);
    Some(Config(prompts, messages, chunking, logging))
  }

  const CondenseQuestionTemplate: string :=
    "Given the following conversation and a follow up question, rephrase the follow up question to be a standalone question.\n\nChat History:\n{chat_history}\nFollow Up Input: {question}\nStandalone question:"

  const AnsweringTemplate: string :=
    "Context:\n{summaries}\n\nPlease reply to the question using only the information Context section above. If you can't answer a question using the context, reply politely that the information is not in the knowledge base. DO NOT make up your own answers. You detect the language of the question and answer in the same language.  If asked for enumerations list all of them and do not invent any.\n\nThe context is structured like this:\n\nContent:  <information>\nSource: [url/to/file.pdf](url/to/file.pdf_SAS_TOKEN_PLACEHOLDER_)\n<and more of them>\n\nWhen you give your answer, you ALWAYS MUST include the source in your response in the following format: <answer> [[file.pdf]]\nAlways use double square brackets to reference the filename source, e.g. [[file.pdf]]. When using multiple sources, list each source separately, e.g. [[file1.pdf]][[file2.pdf]].\n\nQuestion: {question}\nAnswer:"

  const PostAnsweringTemplate: string :=
    "You help fact checking if the given answer for the question below is aligned to the sources. If the answer is correct, then reply with \"True\", if the answer is not correct, then reply with \"False\". DO NOT ANSWER with anything else.\n\nSources:\n{summaries}\n\nQuestion: {question}\nAnswer: {answer}"

  const PostAnsweringFilterMessage: string :=
    "I'm sorry, but I can't answer this question correctly. Please try again by altering or rephrasing your question."

  /**
   * The shape of the built-in default document around its four texts. Its
   * strategy is an enum member, not a token.
   */
  function DefaultShapedDocument(condense: Value, answering: Value, postAnswering: Value, filter: Value): Value {
    JObject(map[
      "prompts" := JObject(map[
        "condense_question_prompt" := condense,
        "answering_prompt" := answering,
        "post_answering_prompt" := postAnswering]),
      "messages" := JObject(map["post_answering_filter" := filter]),
      "chunking" := JArray([JObject(map[
        "strategy" := EnumMember(FixedSizeOverlap),
        "size" := JInt(500),
        "overlap" := JInt(100)])]),
      "logging" := JObject(map[
        "log_user_interactions" := JBool(true),
        "log_tokens" := JBool(true)])])
  }

  /** The built-in default document. */
  const DefaultDocument: Value :=
    DefaultShapedDocument(
      JString(CondenseQuestionTemplate), JString(AnsweringTemplate),
      JString(PostAnsweringTemplate), JString(PostAnsweringFilterMessage))

  /** Whatever its texts, a document of the default's shape constructs, section by section. */
  lemma DefaultShapeConstructs(condense: Value, answering: Value, postAnswering: Value, filter: Value)
    ensures ParseConfig(DefaultShapedDocument(condense, answering, postAnswering, filter)) == Some(Config(
      Prompts(condense, answering, postAnswering),
      Messages(filter),
      [Chunking(FixedSizeOverlap, JInt(500), JInt(100))],
      Logging(JBool(true), JBool(true))))
  {
    var document := DefaultShapedDocument(condense, answering, postAnswering, filter);
    var entries := document.fields["chunking"].items;
    assert ParseChunking(entries[0]) == Some(Chunking(FixedSizeOverlap, JInt(500), JInt(100)));
    var parsed := ParseEntries(entries);
    assert parsed.Some? && |parsed.value| == 1;
    assert parsed.value == [Chunking(FixedSizeOverlap, JInt(500), JInt(100))];
    assert Get(document, "prompts") == Some(document.fields["prompts"]);
    assert ParsePrompts(document.fields["prompts"]) == Some(Prompts(condense, answering, postAnswering));
    assert ParseMessages(document.fields["messages"]) == Some(Messages(filter));
    assert ParseLogging(document.fields["logging"]) == Some(Logging(JBool(true), JBool(true)));
  }

  /**
   * `get_default_config`: the default document always constructs, giving one
   * fixed-size-overlap entry of size 500 and overlap 100 and both logging
   * switches on.
   */
  function DefaultConfig(): (c: Config)
    ensures c.prompts == Prompts(JString(CondenseQuestionTemplate), JString(AnsweringTemplate), JString(PostAnsweringTemplate))
    ensures c.messages == Messages(JString(PostAnsweringFilterMessage))
    ensures c.chunking == [Chunking(FixedSizeOverlap, JInt(500), JInt(100))]
    ensures c.logging == Logging(JBool(true), JBool(true))
  {
    DefaultShapeConstructs(
      JString(CondenseQuestionTemplate), JString(AnsweringTemplate),
      JString(PostAnsweringTemplate), JString(PostAnsweringFilterMessage));
    ParseConfig(DefaultDocument).value
  }

  /**
   * `get_active_config_or_default`. `fetched` is the decoded `active.json`, or
   * None when the blob client or JSON decoding raised. Never fails: a document
   * that does not construct gives the default, one that does is returned whole.
   */
  function LoadActiveOrDefault(fetched: Option<Value>): (c: Config)
    ensures fetched.None? ==> c == DefaultConfig()
    ensures fetched.Some? && !WellFormed(fetched.value) ==> c == DefaultConfig()
    ensures fetched.Some? && WellFormed(fetched.value) ==> ParseConfig(fetched.value) == Some(c)
  {
    match fetched
    case None => DefaultConfig()
    case Some(document) =>
      match ParseConfig(document)
      case Some(config) => config
      case None => DefaultConfig()
  }
}
