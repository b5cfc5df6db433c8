/**
 * What the configuration constructors and the load rule promise, stated over
 * all documents: which tokens the strategy coercion takes, that construction
 * is all-or-nothing, that leaves and list order are kept, that every Config
 * comes back from its own schema-exact document, and that loading never
 * fails and never returns a partial configuration.
 */
module ConfigProperties {
  import opened Wrappers
  import opened ConfigHelper

  /** The keys `Config` subscripts on the document itself. */
  const TopLevelKeys: set<string> := {"prompts", "messages", "chunking", "logging"}

  /** The (section, key) pairs the section constructors subscript. */
  const SectionKeys: set<(string, string)> := {
    ("prompts", "condense_question_prompt"),
    ("prompts", "answering_prompt"),
    ("prompts", "post_answering_prompt"),
    ("messages", "post_answering_filter"),
    ("logging", "log_user_interactions"),
    ("logging", "log_tokens")
  }

  // ---------------------------------------------------------------------
  // The schema-exact document of a Config, with strategies as wire tokens.
  // ---------------------------------------------------------------------

  /** The stored form of one entry. */
  function ChunkingDocument(c: Chunking): Value {
    JObject(map["strategy" := JString(Token(c.strategy)), "size" := c.size, "overlap" := c.overlap])
  }

  /** The stored form of a whole Config, keys exactly as the constructors read them. */
  function ConfigDocument(c: Config): Value {
    JObject(map[
      "prompts" := JObject(map[
        "condense_question_prompt" := c.prompts.condenseQuestionPrompt,
        "answering_prompt" := c.prompts.answeringPrompt,
        "post_answering_prompt" := c.prompts.postAnsweringPrompt]),
      "messages" := JObject(map["post_answering_filter" := c.messages.postAnsweringFilter]),
      "chunking" := JArray(seq(|c.chunking|, i requires 0 <= i < |c.chunking| => ChunkingDocument(c.chunking[i]))),
      "logging" := JObject(map[
        "log_user_interactions" := c.logging.logUserInteractions,
        "log_tokens" := c.logging.logTokens])])
  }

  // ---------------------------------------------------------------------
  // Strategy coercion
  // ---------------------------------------------------------------------

  /** A string coerces exactly when it is one of the four tokens. */
  lemma StrategyTokensExactly(t: string)
    ensures ParseStrategy(JString(t)).Some? <==> t == "layout" || t == "page" || t == "fixed_size_overlap" || t == "paragraph"
  {
  }

  /** Each token coerces to its own member, and each member to itself. */
  lemma StrategyRoundTrip(s: ChunkingStrategy)
    ensures ParseStrategy(JString(Token(s))) == Some(s)
    ensures ParseStrategy(EnumMember(s)) == Some(s)
  {
  }

  /** Coercion gives `s` exactly for the token of `s` and for the member `s`. */
  lemma StrategyInverse(v: Value, s: ChunkingStrategy)
    ensures ParseStrategy(v) == Some(s) <==> v == JString(Token(s)) || v == EnumMember(s)
  {
  }

  // ---------------------------------------------------------------------
  // All-or-nothing construction
  // ---------------------------------------------------------------------

  /** A missing top-level key, or a document that is not a dictionary, fails the whole construction. */
  lemma MissingTopLevelKeyFails(v: Value, key: string)
    requires key in TopLevelKeys
    requires !(v.JObject? && key in v.fields)
    ensures ParseConfig(v) == None
  {
  }

  /** A missing key inside prompts, messages or logging fails the whole construction. */
  lemma MissingSectionKeyFails(v: Value, section: string, key: string)
    requires (section, key) in SectionKeys
    requires v.JObject? && section in v.fields
    requires !(v.fields[section].JObject? && key in v.fields[section].fields)
    ensures ParseConfig(v) == None
  {
  }

  /**
   * One bad chunking entry (a missing key or an unrecognised strategy) fails
   * the whole construction: it is never dropped while the others are kept.
   */
  lemma BadEntryFailsWhole(v: Value, i: nat)
    requires v.JObject? && "chunking" in v.fields && v.fields["chunking"].JArray?
    requires i < |v.fields["chunking"].items|
    requires ParseChunking(v.fields["chunking"].items[i]) == None
    ensures ParseConfig(v) == None
    ensures LoadActiveOrDefault(Some(v)) == DefaultConfig()
  {
    assert !WellFormedEntry(v.fields["chunking"].items[i]);
  }

  /** Unknown keys beside the four sections are ignored. */
  lemma UnknownTopLevelKeyIgnored(fields: map<string, Value>, key: string, extra: Value)
    requires key !in TopLevelKeys
    ensures ParseConfig(JObject(fields[key := extra])) == ParseConfig(JObject(fields))
  {
    var v, w := JObject(fields[key := extra]), JObject(fields);
    forall k | k in TopLevelKeys ensures Get(v, k) == Get(w, k) {
    }
  }

  // ---------------------------------------------------------------------
  // What a successful construction holds
  // ---------------------------------------------------------------------

  /**
   * Every leaf of a constructed Config is the document's value, unchanged:
   * the templates, the filter message, each entry's size and overlap (with no
   * relation between them) and both logging switches. The chunking list has
   * the array's length and order.
   */
  lemma LeavesCopied(v: Value, c: Config)
    requires ParseConfig(v) == Some(c)
    ensures c.prompts.condenseQuestionPrompt == v.fields["prompts"].fields["condense_question_prompt"]
    ensures c.prompts.answeringPrompt == v.fields["prompts"].fields["answering_prompt"]
    ensures c.prompts.postAnsweringPrompt == v.fields["prompts"].fields["post_answering_prompt"]
    ensures c.messages.postAnsweringFilter == v.fields["messages"].fields["post_answering_filter"]
    ensures c.logging.logUserInteractions == v.fields["logging"].fields["log_user_interactions"]
    ensures c.logging.logTokens == v.fields["logging"].fields["log_tokens"]
    ensures v.fields["chunking"].JArray? ==>
      var items := v.fields["chunking"].items;
      && |c.chunking| == |items|
      && forall i :: 0 <= i < |items| ==>
        && ParseStrategy(items[i].fields["strategy"]) == Some(c.chunking[i].strategy)
        && c.chunking[i].size == items[i].fields["size"]
        && c.chunking[i].overlap == items[i].fields["overlap"]
    ensures !v.fields["chunking"].JArray? ==> c.chunking == []
  {
    var items := v.fields["chunking"];
    if items.JArray? {
      forall i | 0 <= i < |items.items|
        ensures items.items[i].JObject?
        ensures ParseStrategy(items.items[i].fields["strategy"]) == Some(c.chunking[i].strategy)
        ensures c.chunking[i].size == items.items[i].fields["size"]
        ensures c.chunking[i].overlap == items.items[i].fields["overlap"]
      {
        assert ParseChunking(items.items[i]) == Some(c.chunking[i]);
      }
    }
  }

  // ---------------------------------------------------------------------
  // Every Config is constructible from its own document
  // ---------------------------------------------------------------------

  /** Any strategy, size and overlap make an entry, overlap >= size included. */
  lemma ChunkingRoundTrip(c: Chunking)
    ensures ParseChunking(ChunkingDocument(c)) == Some(c)
  {
    StrategyRoundTrip(c.strategy);
  }

  /** The schema-exact document of a Config constructs back to that Config. */
  lemma {:induction false} ConfigRoundTrip(c: Config)
    ensures WellFormed(ConfigDocument(c))
    ensures ParseConfig(ConfigDocument(c)) == Some(c)
  {
    var items := ConfigDocument(c).fields["chunking"].items;
    forall i | 0 <= i < |items| ensures ParseChunking(items[i]) == Some(c.chunking[i]) {
      ChunkingRoundTrip(c.chunking[i]);
    }
    var r := ParseConfig(ConfigDocument(c));
    assert r.Some?;
    assert r.value.chunking == c.chunking;
  }

  // ---------------------------------------------------------------------
  // The load rule
  // ---------------------------------------------------------------------

  /** Loading never yields a partial configuration: the result is the default or a whole construction. */
  lemma LoadNeverPartial(fetched: Option<Value>)
    ensures var c := LoadActiveOrDefault(fetched);
      c == DefaultConfig() || (fetched.Some? && ParseConfig(fetched.value) == Some(c))
  {
  }

  /** A well-formed document is loaded exactly as its own Config. */
  lemma LoadRoundTrip(c: Config)
    ensures LoadActiveOrDefault(Some(ConfigDocument(c))) == c
  {
    ConfigRoundTrip(c);
  }

  /** A stored document naming an unknown strategy loads as the default, not as a shorter list. */
  lemma UnknownStrategyLoadsDefault(v: Value, i: nat, token: string)
    requires v.JObject? && "chunking" in v.fields && v.fields["chunking"].JArray?
    requires i < |v.fields["chunking"].items|
    requires Get(v.fields["chunking"].items[i], "strategy") == Some(JString(token))
    requires token !in StrategyTokens
    ensures LoadActiveOrDefault(Some(v)) == DefaultConfig()
  {
    BadEntryFailsWhole(v, i);
  }

  /** With no stored document the default comes back, with its single 500/100 entry. */
  lemma MissingBlobLoadsDefault()
    ensures LoadActiveOrDefault(None) == DefaultConfig()
    ensures LoadActiveOrDefault(None).chunking == [Chunking(FixedSizeOverlap, JInt(500), JInt(100))]
  {
  }

  /** A stored document with filter "X", one page entry of size 1000 and overlap 0, and logging off. */
  function StoredPageDocument(prompts: Value): Value {
    JObject(map[
      "prompts" := prompts,
      "messages" := JObject(map["post_answering_filter" := JString("X")]),
      "chunking" := JArray([JObject(map["strategy" := JString("page"), "size" := JInt(1000), "overlap" := JInt(0)])]),
      "logging" := JObject(map["log_user_interactions" := JBool(false), "log_tokens" := JBool(false)])])
  }

  /** That document loads as written. */
  lemma StoredPageConfigLoads(prompts: Value)
    requires HasKeys(prompts, {"condense_question_prompt", "answering_prompt", "post_answering_prompt"})
    ensures var c := LoadActiveOrDefault(Some(StoredPageDocument(prompts)));
      && c.messages.postAnsweringFilter == JString("X")
      && c.chunking == [Chunking(Page, JInt(1000), JInt(0))]
      && c.logging == Logging(JBool(false), JBool(false))
  {
    var document := StoredPageDocument(prompts);
    var entries := document.fields["chunking"].items;
    assert ParseChunking(entries[0]) == Some(Chunking(Page, JInt(1000), JInt(0)));
    assert WellFormed(document);
    LeavesCopied(document, ParseConfig(document).value);
  }
}
