/** AIBW_API_Handler: builds the requests sent to OpenRouter and Perplexity,
    classifies their decoded responses, and parses the free text that comes
    back (a comprehensiveness score, a list of related topics). The network
    and the JSON decoder are abstract: a `Network` maps a request to a
    decoded body or to a transport error. */
module Api {
  import opened Wrappers
  import opened Strings
  import opened PhpArrays
  import opened Settings

  /** The two provider endpoints the handler talks to. */
  datatype Provider = OpenRouter | Perplexity

  /** A request: which endpoint, the API key and model taken from the
      settings, and the prompt (OpenRouter) or query (Perplexity). */
  datatype Request = Request(provider: Provider, apiKey: Value, model: Option<Value>, text: string)

  /** What json_decode makes of a response body, as far as the handler looks
      at it: `$body['error']['message']` when `$body['error']` is set,
      `$body['choices'][0]['text']` and `$body['choices'][0]['message']['content']`.
      A body that does not decode has none of them. */
  datatype ResponseBody = ResponseBody(error: Option<string>, choiceText: Option<string>, messageContent: Option<string>)

  /** wp_remote_post followed by json_decode: a decoded body, or the
      transport's own error. */
  type Network = Request -> Result<ResponseBody>

  /** The result of analyze_comprehensiveness. */
  /** A score out of 100. */
  type Percent = n: int | 0 <= n <= 100

  datatype Assessment = Assessment(score: Percent, explanation: string)

  /** The outcome of validate_api_keys: `true`, or the list of problems. */
  datatype KeyCheck = KeysPresent | KeysMissing(errors: seq<string>)

  const OpenRouterKeyMissing := "OpenRouter API key is missing"
  const PerplexityKeyMissing := "Perplexity API key is missing"

  /** The text a provider's body carries for the caller. */
  function Content(provider: Provider, body: ResponseBody): Option<string> {
    match provider
    case OpenRouter => body.choiceText
    case Perplexity => body.messageContent
  }

  /** How generate_with_openrouter and research_with_perplexity read a
      response: a transport error is passed on, a body with an error becomes
      'api_error' with the body's message, otherwise the provider's text is
      returned, and a body without it is a 'parse_error'. */
  function Classify(provider: Provider, response: Result<ResponseBody>): (r: Result<string>)
    ensures r.Ok? <==> response.Ok? && response.value.error.None? && Content(provider, response.value).Some?
    ensures r.Ok? ==> r.value == Content(provider, response.value).value
    ensures response.Err? ==> r == Err(response.code, response.message)
    ensures response.Ok? && response.value.error.Some? ==> r == Err("api_error", response.value.error.value)
    ensures r.Err? && response.Ok? ==> r.code == "api_error" || r.code == "parse_error"
  {
    match response
    case Err(code, message) => Err(code, message)
    case Ok(body) =>
      if body.error.Some? then Err("api_error", body.error.value)
      else match Content(provider, body)
        case Some(text) => Ok(text)
        case None => Err("parse_error", "Could not parse API response")
  }

  /** The prompt analyze_comprehensiveness sends: fixed instructions followed
      by at most the first 2000 characters of the content. */
  function ComprehensivenessPrompt(content: string): (p: string)
    ensures |p| == |ComprehensivenessInstructions()| + if |content| <= 2000 then |content| else 2000
    ensures p == ComprehensivenessInstructions() + p[|ComprehensivenessInstructions()|..]
    ensures p[|ComprehensivenessInstructions()|..] == content[..|p| - |ComprehensivenessInstructions()|]
  {
    ComprehensivenessInstructions() + Prefix(content, 2000)
  }

  // Long prompt texts are written as short literal pieces: the verifier
  // reasons about a concatenation of short literals much more cheaply than
  // about one long literal.
  function ComprehensivenessInstructions(): string {
    "Analyze the following " + "content for comprehensiveness. "
    + "Rate it on a " + "scale of 0-100 " + "based on depth, " + "coverage, and detail. "
    + "Provide a brief " + "explanation.\n\nContent: "
  }

  /** The score read from the provider's answer: the first run of digits as
      a number, 50 when the answer has no digit, and never more than 100. */
  function ParseScore(answer: string): (score: int)
    ensures 0 <= score <= 100
    ensures (forall k :: 0 <= k < |answer| ==> !IsDigit(answer[k])) ==> score == 50
  {
    var run := FirstDigitRun(answer);
    if run == "" then 50
    else if DecimalValue(run) > 100 then 100
    else DecimalValue(run)
  }

  /** The first number in the answer is the score, whatever follows it:
      "Score: 85 out of 100" gives 85, and so does "85 ... 10". */
  lemma ParseScoreFirstNumber(prefix: string, n: nat, suffix: string)
    requires forall k :: 0 <= k < |prefix| ==> !IsDigit(prefix[k])
    requires suffix == [] || !IsDigit(suffix[0])
    ensures ParseScore(prefix + Decimal(n) + suffix) == if n > 100 then 100 else n
  {
    FirstDigitRunOf(prefix, Decimal(n), suffix);
    DecimalRoundTrip(n);
  }

  /** PCRE `\s`: space, tab, newline, vertical tab, form feed, carriage return. */
  predicate IsPcreSpace(c: char) {
    c == ' ' || c == '\t' || c == '\n' || c == '\r' || c as int == 11 || c as int == 12
  }

  function DropSpaces(s: string): (r: string)
    ensures |r| <= |s| && r == s[|s| - |r|..]
    ensures r == [] || !IsPcreSpace(r[0])
  {
    if |s| > 0 && IsPcreSpace(s[0]) then DropSpaces(s[1..]) else s
  }

  /** preg_replace('/^\d+[\.\)]\s*\/', '', $line): a leading number followed
      by '.' or ')' and any white space is removed; other lines are kept. */
  function StripNumbering(line: string): (r: string)
    ensures |r| <= |line| && r == line[|line| - |r|..]
    ensures r != line ==> IsDigit(line[0])
  {
    var digits := DigitPrefix(line);
    if |digits| > 0 && |digits| < |line| && (line[|digits|] == '.' || line[|digits|] == ')')
    then DropSpaces(line[|digits| + 1..])
    else line
  }

  /** A response line generate_related_topics keeps: longer than 5
      characters once trimmed (the length is checked before the numbering
      is removed). */
  predicate KeepsLine(line: string) {
    !IsEmpty(Trim(line)) && |Trim(line)| > 5
  }

  /** The topics read from the response's lines, in order: every kept line,
      trimmed and without its numbering. */
  function TopicLines(lines: seq<string>): seq<string> {
    FlatMap(lines, TopicOf)
  }

  /** The topic one line contributes: none, or the line trimmed and without
      its numbering. */
  function TopicOf(line: string): seq<string> {
    if KeepsLine(line) then [StripNumbering(Trim(line))] else []
  }

  /** Reading topics respects the order of the lines: it distributes over
      concatenation. */
  lemma TopicLinesAppend(a: seq<string>, b: seq<string>)
    ensures TopicLines(a + b) == TopicLines(a) + TopicLines(b)
  {
    FlatMapAppend(a, b, TopicOf);
  }

  /** There is at most one topic per line, and every topic comes from a
      kept line. */
  lemma {:induction false} TopicLinesFromLines(lines: seq<string>)
    ensures |TopicLines(lines)| <= |lines|
    ensures forall t :: t in TopicLines(lines) ==>
              exists k :: 0 <= k < |lines| && KeepsLine(lines[k]) && t == StripNumbering(Trim(lines[k]))
  {
    if lines != [] {
      var init := lines[..|lines| - 1];
      TopicLinesFromLines(init);
      forall t | t in TopicLines(lines)
        ensures exists k :: 0 <= k < |lines| && KeepsLine(lines[k]) && t == StripNumbering(Trim(lines[k]))
      {
        if t in TopicLines(init) {
          var k :| 0 <= k < |init| && KeepsLine(init[k]) && t == StripNumbering(Trim(init[k]));
          assert lines[k] == init[k];
        } else {
          assert t in TopicOf(lines[|lines| - 1]);
        }
      }
    }
  }

  /** The prompt generate_related_topics sends: a header naming the main
      topic, the clause listing existing titles when there are any, and the
      formatting instructions. */
  function RelatedTopicsPrompt(mainTopic: string, existing: seq<string>): (p: string)
    ensures StartsWith(p, RelatedTopicsHeader(mainTopic))
    ensures |RelatedTopicsInstructions| <= |p| && p[|p| - |RelatedTopicsInstructions|..] == RelatedTopicsInstructions
    ensures existing == [] ==> p == RelatedTopicsHeader(mainTopic) + RelatedTopicsInstructions
  {
    RelatedTopicsHeader(mainTopic)
    + (if existing != [] then AvoidClause + Implode(existing, ", ") + "\n" else "")
    + RelatedTopicsInstructions
  }

  function RelatedTopicsHeader(mainTopic: string): string {
    "Generate 5-8 related " + "blog post topics " + "that would complement " + "the main topic: '" + mainTopic + "'.\n"
  }

  const AvoidClause := "Avoid these existing topics: "
  const RelatedTopicsInstructions := "Format each topic " + "as a single line. "
    + "Focus on subtopics, " + "related concepts, " + "and complementary angles."

  /** Right after the header the prompt lists the titles to avoid exactly
      when there are existing titles. */
  lemma AvoidClauseIffExisting(mainTopic: string, existing: seq<string>)
    ensures var rest := RelatedTopicsPrompt(mainTopic, existing)[|RelatedTopicsHeader(mainTopic)|..];
            StartsWith(rest, AvoidClause) <==> existing != []
  {
    var h := RelatedTopicsHeader(mainTopic);
    var p := RelatedTopicsPrompt(mainTopic, existing);
    if existing == [] {
      assert p[|h|..] == RelatedTopicsInstructions;
      assert RelatedTopicsInstructions[0] != AvoidClause[0];
    } else {
      var tail := Implode(existing, ", ") + "\n" + RelatedTopicsInstructions;
      assert p == h + (AvoidClause + Implode(existing, ", ") + "\n") + RelatedTopicsInstructions;
      assert p[|h|..] == AvoidClause + tail;
    }
  }

  /** How analyze_comprehensiveness reads the provider's answer: a failed
      request gives score 0 with 'Analysis failed'; otherwise the score parsed
      from the answer, which is kept whole as the explanation. */
  function AssessmentOf(answer: Result<string>): (a: Assessment)
    ensures 0 <= a.score <= 100
    ensures answer.Err? ==> a == Assessment(0, "Analysis failed")
    ensures answer.Ok? ==> a.explanation == answer.value && a.score == ParseScore(answer.value)
  {
    match answer
    case Err(_, _) => Assessment(0, "Analysis failed")
    case Ok(text) => Assessment(ParseScore(text), text)
  }

  /** The answer to the related-topics prompt, read as generate_related_topics
      reads it: nothing on a provider error, otherwise at most 8 topics. */
  function RelatedTopicsOf(answer: Result<string>): (topics: seq<string>)
    ensures |topics| <= 8
    ensures answer.Err? ==> topics == []
    ensures answer.Ok? ==> topics == Slice(TopicLines(Split(answer.value, '\n')), 8)
  {
    if answer.Err? then [] else Slice(TopicLines(Split(answer.value, '\n')), 8)
  }

  /** The loop of generate_related_topics over the response's lines. */
  method ReadTopicLines(response: string) returns (found: seq<string>)
    ensures found == TopicLines(Split(response, '\n'))
  {
    var lines := Split(response, '\n');
    found := [];
    for i := 0 to |lines|
      invariant found == TopicLines(lines[..i])
    {
      FlatMapStep(lines, i, TopicOf);
      var line := Trim(lines[i]);
      if !IsEmpty(line) && |line| > 5 {
        line := StripNumbering(line);
        found := found + [line];
      }
    }
    assert lines[..|lines|] == lines;
  }

  // The handler's operations that only read `$this->settings` are functions
  // of the settings map; the class below holds the map and the operations
  // that loop or change it.

  /** `$model ?: $this->settings[...]`: the caller's model unless it is
      missing or empty, else the configured one (if any). */
  function ModelFor(settings: map<string, Value>, model: Option<string>, settingKey: string): (m: Option<Value>)
    ensures model.Some? && !IsEmpty(model.value) ==> m == Some(Text(model.value))
    ensures (model.None? || IsEmpty(model.value)) && settingKey in settings ==> m == Some(settings[settingKey])
    ensures (model.None? || IsEmpty(model.value)) && settingKey !in settings ==> m.None?
  {
    if model.Some? && !IsEmpty(model.value) then Some(Text(model.value))
    else if settingKey in settings then Some(settings[settingKey])
    else None
  }

  /** generate_with_openrouter: without a key nothing is sent and the result
      is 'no_api_key', whatever the network would have answered; otherwise
      the completion request's response is classified. */
  function GenerateWithOpenRouter(settings: map<string, Value>, prompt: string, model: Option<string>, net: Network): (r: Result<string>)
    ensures IsEmptyAt(settings, "openrouter_api_key") ==> r == Err("no_api_key", "OpenRouter API key not configured")
    ensures !IsEmptyAt(settings, "openrouter_api_key") ==>
              r == Classify(OpenRouter, net(Request(OpenRouter, settings["openrouter_api_key"], ModelFor(settings, model, "default_model"), prompt)))
  {
    if IsEmptyAt(settings, "openrouter_api_key") then Err("no_api_key", "OpenRouter API key not configured")
    else
      var request := Request(OpenRouter, settings["openrouter_api_key"], ModelFor(settings, model, "default_model"), prompt);
      Classify(OpenRouter, net(request))
  }

  /** Without an OpenRouter key the network is never consulted: any two
      networks give the same result. */
  lemma NoKeyNoRequest(settings: map<string, Value>, prompt: string, model: Option<string>, net1: Network, net2: Network)
    requires IsEmptyAt(settings, "openrouter_api_key")
    ensures GenerateWithOpenRouter(settings, prompt, model, net1) == GenerateWithOpenRouter(settings, prompt, model, net2)
  {
  }

  /** research_with_perplexity: the same shape against Perplexity's chat
      endpoint, reading choices[0].message.content. */
  function ResearchWithPerplexity(settings: map<string, Value>, query: string, model: Option<string>, net: Network): (r: Result<string>)
    ensures IsEmptyAt(settings, "perplexity_api_key") ==> r == Err("no_api_key", "Perplexity API key not configured")
    ensures !IsEmptyAt(settings, "perplexity_api_key") ==>
              r == Classify(Perplexity, net(Request(Perplexity, settings["perplexity_api_key"], ModelFor(settings, model, "perplexity_model"), query)))
  {
    if IsEmptyAt(settings, "perplexity_api_key") then Err("no_api_key", "Perplexity API key not configured")
    else
      var request := Request(Perplexity, settings["perplexity_api_key"], ModelFor(settings, model, "perplexity_model"), query);
      Classify(Perplexity, net(request))
  }

  /** analyze_comprehensiveness: the assessment of the answer to the
      comprehensiveness prompt, always scored within 0..100. */
  function AnalyzeComprehensiveness(settings: map<string, Value>, content: string, net: Network): (a: Assessment)
    ensures var answer := GenerateWithOpenRouter(settings, ComprehensivenessPrompt(content), None, net);
            (answer.Err? ==> a == Assessment(0, "Analysis failed")) &&
            (answer.Ok? ==> a.score == ParseScore(answer.value) && a.explanation == answer.value)
  {
    AssessmentOf(GenerateWithOpenRouter(settings, ComprehensivenessPrompt(content), None, net))
  }

  /** The topics generate_related_topics returns for these arguments. */
  function RelatedTopicsFor(settings: map<string, Value>, mainTopic: string, existing: seq<string>, net: Network): (topics: seq<string>)
    ensures |topics| <= 8
    ensures GenerateWithOpenRouter(settings, RelatedTopicsPrompt(mainTopic, existing), None, net).Err? ==> topics == []
    ensures var answer := GenerateWithOpenRouter(settings, RelatedTopicsPrompt(mainTopic, existing), None, net);
            answer.Ok? ==> topics == Slice(TopicLines(Split(answer.value, '\n')), 8)
  {
    RelatedTopicsOf(GenerateWithOpenRouter(settings, RelatedTopicsPrompt(mainTopic, existing), None, net))
  }

  /** validate_api_keys: `true` exactly when both keys are set; otherwise
      one message per missing key, OpenRouter's first. */
  function ValidateApiKeys(settings: map<string, Value>): (r: KeyCheck)
    ensures r.KeysPresent? <==> !IsEmptyAt(settings, "openrouter_api_key") && !IsEmptyAt(settings, "perplexity_api_key")
    ensures r.KeysMissing? ==> 1 <= |r.errors| <= 2
    ensures r.KeysMissing? ==> |r.errors| == (if IsEmptyAt(settings, "openrouter_api_key") then 1 else 0)
                                            + (if IsEmptyAt(settings, "perplexity_api_key") then 1 else 0)
    ensures r.KeysMissing? ==> (OpenRouterKeyMissing in r.errors <==> IsEmptyAt(settings, "openrouter_api_key"))
    ensures r.KeysMissing? ==> (PerplexityKeyMissing in r.errors <==> IsEmptyAt(settings, "perplexity_api_key"))
    ensures r.KeysMissing? && IsEmptyAt(settings, "openrouter_api_key") ==> r.errors[0] == OpenRouterKeyMissing
  {
    var errors := (if IsEmptyAt(settings, "openrouter_api_key") then [OpenRouterKeyMissing] else [])
                + (if IsEmptyAt(settings, "perplexity_api_key") then [PerplexityKeyMissing] else []);
    if errors == [] then KeysPresent else KeysMissing(errors)
  }

  /** The API handler and the settings it was loaded with. */
  class Handler {
    var settings: map<string, Value>

    /** `stored` is the 'aibw_settings' option the constructor reads. */
    constructor (stored: map<string, Value>)
      ensures settings == stored
    {
      settings := stored;
    }

    /** generate_related_topics: asks for related topics and keeps the
        response's qualifying lines, in order, at most 8 of them. */
    method GenerateRelatedTopics(mainTopic: string, existing: seq<string>, net: Network)
      returns (topics: seq<string>)
      ensures topics == RelatedTopicsFor(settings, mainTopic, existing, net)
    {
      var result := GenerateWithOpenRouter(settings, RelatedTopicsPrompt(mainTopic, existing), None, net);
      if result.Err? {
        return [];
      }
      var found := ReadTopicLines(result.value);
      topics := Slice(found, 8);
    }

    /** update_settings: the new values are merged over the current ones;
        it always reports success. */
    method UpdateSettings(newSettings: map<string, Value>) returns (ok: bool)
      modifies this
      ensures settings == Merge(old(settings), newSettings)
      ensures ok
    {
      settings := Merge(settings, newSettings);
      ok := true;
    }
  }
}
