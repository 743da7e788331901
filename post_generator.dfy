/** AIBW_Post_Generator: the staged pipeline that turns a topic into a blog
    post. An optional research stage asks Perplexity for background, a
    required writing stage produces the content, and two OpenRouter
    requests propose an SEO title and an excerpt, each cleaned up and cut
    to a fixed length, with a fallback when the provider fails. Each
    provider call is an input giving a `Result<string>`; the methods bind
    them to the API handler, except the two handler methods that
    AIBW_API_Handler does not define (write_blog_post,
    generate_with_perplexity) and PHP's strip_tags. */
module PostGenerator {
  import opened Wrappers
  import opened Strings
  import opened PhpArrays
  import opened Settings
  import opened Api

  /** The calls the generator makes that are not part of this model. */
  datatype Tools = Tools(
    writeBlogPost: (string, string) -> Result<string>,
    generateWithPerplexity: string -> Result<string>,
    stripTags: string -> string)

  /** Every provider call the generator makes: generate_with_openrouter
      with its two arguments, research_with_perplexity on a topic, and the
      tools. */
  datatype Providers = Providers(
    openRouter: (string, string) -> Result<string>,
    research: string -> Result<string>,
    tools: Tools)

  /** The providers as the API handler answers them under these settings
      and this network. generate_seo_title and generate_excerpt pass their
      system prompt as generate_with_openrouter's second argument, the
      model. */
  function HandlerProviders(settings: map<string, Value>, net: Network, tools: Tools): Providers {
    Providers((prompt, model) => GenerateWithOpenRouter(settings, prompt, Some(model), net),
              topic => ResearchWithPerplexity(settings, topic, None, net),
              tools)
  }

  /** What generate_post hands to create_wordpress_post: the topic, the
      written content, the SEO title and the excerpt. */
  datatype Draft = Draft(topic: string, content: string, seoTitle: string, excerpt: string)

  const EmptyTopic := Err("empty_topic", "Topic cannot be empty")

  /** The cleanup both the title and the excerpt go through: trim, remove
      one enclosing pair of double quotes, keep the first `n` characters. */
  function Clean(s: string, n: nat): (r: string)
    ensures |r| <= n && |r| <= |StripQuotes(Trim(s))|
    ensures r == StripQuotes(Trim(s))[..|r|]
  {
    Prefix(StripQuotes(Trim(s)), n)
  }

  /** Cleaning already-trimmed, quoted text removes exactly the quotes;
      unquoted text is only cut. */
  lemma CleanQuoted(s: string, n: nat)
    ensures var t := Trim(s);
            |t| >= 2 && t[0] == '"' && t[|t| - 1] == '"' ==> Clean(s, n) == Prefix(t[1..|t| - 1], n)
    ensures var t := Trim(s);
            !(|t| >= 2 && t[0] == '"' && t[|t| - 1] == '"') ==> Clean(s, n) == Prefix(t, n)
  {
    var t := Trim(s);
    TrimIdempotent(s);
    StripQuotesOfTrimmed(t);
    assert Clean(s, n) == Prefix(StripQuotes(t), n);
  }

  // ------------------------------------------------------------------ title

  // Long prompt texts are written as short literal pieces: the verifier
  // reasons about a concatenation of short literals much more cheaply than
  // about one long literal.
  /** The system prompt of the title request. */
  function TitleSystemPrompt(): string {
    "Generate a compelling, " + "SEO-friendly title " + "for a blog post. "
    + "Keep it under " + "60 characters. " + "Make it catchy and " + "include keywords."
  }

  function TitlePrompt(topic: string): (p: string)
    ensures p == "Create a title for " + "a blog post about: " + topic
  {
    "Create a title for " + "a blog post about: " + topic
  }

  /** generate_seo_title given the provider's answer: the first 60
      characters of the topic on failure, the cleaned answer otherwise;
      never longer than 60. */
  function SeoTitleOf(topic: string, answer: Result<string>): (title: string)
    ensures |title| <= 60
    ensures answer.Err? ==> title == Prefix(topic, 60)
    ensures answer.Ok? ==> title == Clean(answer.value, 60)
  {
    match answer
    case Err(_, _) => Prefix(topic, 60)
    case Ok(text) => Clean(text, 60)
  }

  function SeoTitle(p: Providers, topic: string): (title: string)
    ensures |title| <= 60
    ensures title == SeoTitleOf(topic, p.openRouter(TitlePrompt(topic), TitleSystemPrompt()))
  {
    SeoTitleOf(topic, p.openRouter(TitlePrompt(topic), TitleSystemPrompt()))
  }

  /** With a key configured, the handler sends the title request with the
      system prompt as its model name. */
  lemma TitleSystemPromptIsModel(settings: map<string, Value>, net: Network, tools: Tools, topic: string)
    requires !IsEmptyAt(settings, "openrouter_api_key")
    ensures HandlerProviders(settings, net, tools).openRouter(TitlePrompt(topic), TitleSystemPrompt())
            == Classify(OpenRouter, net(Request(OpenRouter, settings["openrouter_api_key"],
                                                Some(Text(TitleSystemPrompt())), TitlePrompt(topic))))
  {
    assert TitleSystemPrompt()[0] == 'G';
  }

  // ---------------------------------------------------------------- excerpt

  /** The system prompt of the excerpt request. */
  function ExcerptSystemPrompt(): string {
    "Create a compelling " + "150-160 character excerpt " + "that summarizes the main points "
    + "and entices readers " + "to click."
  }

  /** The excerpt request carries at most the first 1000 characters of the
      content. */
  function ExcerptPrompt(content: string): (p: string)
    ensures |p| == 46 + if |content| <= 1000 then |content| else 1000
    ensures p[46..] == content[..|p| - 46]
  {
    "Summarize this content " + "into a short excerpt:\n\n" + Prefix(content, 1000)
  }

  /** generate_excerpt given the provider's answer: on failure, the first
      155 characters of the stripped content followed by '...'; either way
      the text is then cleaned and cut to 160. */
  function ExcerptOf(content: string, answer: Result<string>, stripTags: string -> string): (excerpt: string)
    ensures |excerpt| <= 160
    ensures answer.Ok? ==> excerpt == Clean(answer.value, 160)
    ensures answer.Err? ==> excerpt == Clean(Prefix(stripTags(content), 155) + "...", 160)
  {
    var text := if answer.Err? then Prefix(stripTags(content), 155) + "..." else answer.value;
    Clean(text, 160)
  }

  function Excerpt(p: Providers, content: string): (excerpt: string)
    ensures |excerpt| <= 160
    ensures excerpt == ExcerptOf(content, p.openRouter(ExcerptPrompt(content), ExcerptSystemPrompt()), p.tools.stripTags)
  {
    ExcerptOf(content, p.openRouter(ExcerptPrompt(content), ExcerptSystemPrompt()), p.tools.stripTags)
  }

  // --------------------------------------------------------------- pipeline

  /** The research generate_post works from: the Perplexity answer when
      research is wanted and succeeds, nothing otherwise. */
  function ResearchFor(p: Providers, topic: string, useResearch: bool): (research: string)
    ensures !useResearch ==> research == ""
    ensures useResearch && p.research(topic).Err? ==> research == ""
    ensures useResearch && p.research(topic).Ok? ==> research == p.research(topic).value
  {
    if !useResearch then ""
    else
      match p.research(topic)
      case Ok(text) => text
      case Err(_, _) => ""
  }

  /** The title and excerpt stages on written content. */
  function Finish(p: Providers, topic: string, content: string): (d: Draft)
    ensures d.topic == topic && d.content == content
    ensures |d.seoTitle| <= 60 && |d.excerpt| <= 160
  {
    Draft(topic, content, SeoTitle(p, topic), Excerpt(p, content))
  }

  /** What generate_post produces: 'empty_topic' for a topic that is empty
      after trimming; the writing stage's error unchanged when it fails;
      otherwise the written content with its title and excerpt. */
  function GeneratedPost(p: Providers, topic: string, useResearch: bool): (r: Result<Draft>)
    ensures IsEmpty(Trim(topic)) ==> r == EmptyTopic
    ensures !IsEmpty(Trim(topic)) ==> var written := p.tools.writeBlogPost(topic, ResearchFor(p, topic, useResearch));
              (written.Err? ==> r == Err(written.code, written.message)) &&
              (written.Ok? ==> r == Ok(Finish(p, topic, written.value)))
  {
    if IsEmpty(Trim(topic)) then EmptyTopic
    else
      var written := p.tools.writeBlogPost(topic, ResearchFor(p, topic, useResearch));
      match written
      case Err(code, message) => Err(code, message)
      case Ok(content) => Ok(Finish(p, topic, content))
  }

  /** An empty topic is rejected before any provider is asked: the result
      is the same whatever the providers would answer. */
  lemma EmptyTopicAsksNoProvider(p1: Providers, p2: Providers, topic: string, useResearch: bool)
    requires IsEmpty(Trim(topic))
    ensures GeneratedPost(p1, topic, useResearch) == GeneratedPost(p2, topic, useResearch)
  {
  }

  /** Without research the Perplexity answer plays no part: the writer is
      given empty research. */
  lemma NoResearchWhenNotWanted(p: Providers, topic: string)
    requires !IsEmpty(Trim(topic))
    ensures GeneratedPost(p, topic, false)
            == match p.tools.writeBlogPost(topic, "")
               case Err(code, message) => Err(code, message)
               case Ok(content) => Ok(Finish(p, topic, content))
  {
  }

  /** A failed research stage is the same as no research. */
  lemma FailedResearchIsNoResearch(p: Providers, topic: string)
    requires p.research(topic).Err?
    ensures GeneratedPost(p, topic, true) == GeneratedPost(p, topic, false)
  {
  }

  /** generate_post, stage by stage. */
  method GeneratePost(api: Handler, tools: Tools, net: Network, topic: string, useResearch: bool)
    returns (r: Result<Draft>)
    ensures r == GeneratedPost(HandlerProviders(api.settings, net, tools), topic, useResearch)
  {
    var p := HandlerProviders(api.settings, net, tools);
    if IsEmpty(Trim(topic)) {
      return EmptyTopic;
    }
    var researchData := "";
    if useResearch {
      var research := p.research(topic);
      if research.Ok? {
        researchData := research.value;
      }
    }
    var written := tools.writeBlogPost(topic, researchData);
    if written.Err? {
      return Err(written.code, written.message);
    }
    var seoTitle := SeoTitle(p, topic);
    var excerpt := Excerpt(p, written.value);
    r := Ok(Draft(topic, written.value, seoTitle, excerpt));
  }

  // ------------------------------------------------------------------ batch

  /** One entry of generate_batch's result. */
  datatype BatchEntry = BatchEntry(topic: string, result: Result<Draft>, success: bool)

  /** The entry generate_batch records for one topic: the topic, what
      generate_post gave, and whether that was not an error. */
  function EntryFor(p: Providers, useResearch: bool, topic: string): (e: BatchEntry)
    ensures e.topic == topic && e.result == GeneratedPost(p, topic, useResearch)
    ensures e.success <==> e.result.Ok?
  {
    var result := GeneratedPost(p, topic, useResearch);
    BatchEntry(topic, result, result.Ok?)
  }

  /** generate_batch's result: one entry per topic, in order. */
  function Batch(p: Providers, topics: seq<string>, useResearch: bool): (r: seq<BatchEntry>)
    ensures |r| == |topics|
  {
    MapSeq(topics, t => EntryFor(p, useResearch, t))
  }

  /** Each entry echoes its topic and is flagged a success exactly when
      generating that topic succeeded. */
  lemma BatchEntries(p: Providers, topics: seq<string>, useResearch: bool, i: nat)
    requires i < |topics|
    ensures Batch(p, topics, useResearch)[i].topic == topics[i]
    ensures Batch(p, topics, useResearch)[i].result == GeneratedPost(p, topics[i], useResearch)
    ensures Batch(p, topics, useResearch)[i].success <==> GeneratedPost(p, topics[i], useResearch).Ok?
  {
    var f := t => EntryFor(p, useResearch, t);
    assert Batch(p, topics, useResearch)[i] == f(topics[i]);
  }

  /** generate_batch. */
  method GenerateBatch(api: Handler, tools: Tools, net: Network, topics: seq<string>, useResearch: bool)
    returns (results: seq<BatchEntry>)
    ensures results == Batch(HandlerProviders(api.settings, net, tools), topics, useResearch)
  {
    ghost var p := HandlerProviders(api.settings, net, tools);
    results := [];
    for i := 0 to |topics|
      invariant results == MapSeq(topics[..i], t => EntryFor(p, useResearch, t))
    {
      MapSeqStep(topics, i, t => EntryFor(p, useResearch, t));
      var result := GeneratePost(api, tools, net, topics[i], useResearch);
      results := results + [BatchEntry(topics[i], result, result.Ok?)];
    }
    assert topics[..|topics|] == topics;
  }

  // --------------------------------------------------------- API preference

  /** The prompt the Perplexity-only path writes from: with the research
      when it succeeded, the plain 'comprehensive' prompt otherwise. */
  function PerplexityPrompt(topic: string, research: Result<string>): (p: string)
    ensures research.Ok? ==> p == "Write a blog post about: " + topic + "\n\nUse this research: " + research.value
    ensures research.Err? ==> p == "Write a comprehensive " + "blog post about: " + topic
  {
    match research
    case Ok(text) => "Write a blog post about: " + topic + "\n\nUse this research: " + text
    case Err(_, _) => "Write a comprehensive " + "blog post about: " + topic
  }

  /** generate_with_api: 'perplexity' researches and writes with Perplexity
      (no empty-topic check on this path), propagating a writing error; any
      other choice is generate_post with research. */
  function GeneratedWithApi(p: Providers, topic: string, api: string): (r: Result<Draft>)
    ensures api != "perplexity" ==> r == GeneratedPost(p, topic, true)
    ensures api == "perplexity" ==>
              var content := p.tools.generateWithPerplexity(PerplexityPrompt(topic, p.research(topic)));
              (content.Err? ==> r == Err(content.code, content.message)) &&
              (content.Ok? ==> r == Ok(Finish(p, topic, content.value)))
  {
    if api != "perplexity" then GeneratedPost(p, topic, true)
    else
      var research := p.research(topic);
      var content := p.tools.generateWithPerplexity(PerplexityPrompt(topic, research));
      match content
      case Err(code, message) => Err(code, message)
      case Ok(text) => Ok(Finish(p, topic, text))
  }
}
