/** AIBW_Admin's AJAX handlers, reduced to what they decide: how each reads
    its request parameters, which requests it turns away before doing any
    work, and what it hands to the generator, the handler or the analyzer.
    A handler's JSON reply is its result (`Response`); sending it ends the
    request, so a failure returns at once. The nonce and capability
    checks, and PHP's sanitize_text_field, intval and floatval, are not
    part of this model: the latter three are inputs. */
module Admin {
  import opened Wrappers
  import opened Strings
  import opened PhpArrays
  import opened Settings
  import opened Api
  import PillarAnalyzer
  import PostGenerator

  /** The request parameters ($_POST). */
  type Params = map<string, string>

  /** sanitize_text_field, intval and floatval on request text. */
  datatype Builtins = Builtins(textField: string -> string, intval: string -> int, floatval: string -> real)

  /** wp_send_json_success($data) or wp_send_json_error($message). */
  datatype Response<T> = Success(data: T) | Failure(message: string)

  /** A text parameter; a missing one reads as PHP's null, which every
      built-in here turns into "" (resp. 0, 0.0). */
  function TextParam(params: Params, b: Builtins, key: string): string {
    if key in params then b.textField(params[key]) else ""
  }

  function IntParam(params: Params, b: Builtins, key: string): int {
    if key in params then b.intval(params[key]) else 0
  }

  function FloatParam(params: Params, b: Builtins, key: string): real {
    if key in params then b.floatval(params[key]) else 0.0
  }

  // ------------------------------------------------------------ generate post

  /** What ajax_generate_post reads from the request. */
  datatype GenerateParams = GenerateParams(topic: string, keywords: seq<string>, tone: string, status: string)

  /** The keywords: the comma-separated parts, each trimmed. There is always
      at least one, so the list, which is passed where generate_post
      expects its use-research flag, is always truthy. */
  function Keywords(text: string): (keywords: seq<string>)
    ensures |keywords| == |Split(text, ',')| >= 1
    ensures forall i :: 0 <= i < |keywords| ==> keywords[i] == Trim(Split(text, ',')[i])
  {
    MapSeq(Split(text, ','), Trim)
  }

  /** The request ajax_generate_post accepts: 'Topic is required' when the
      sanitised topic is empty (PHP's `empty`, so "0" too). */
  function ParseGenerateRequest(params: Params, b: Builtins): (r: Response<GenerateParams>)
    ensures r.Failure? <==> IsEmpty(TextParam(params, b, "topic"))
    ensures r.Failure? ==> r.message == "Topic is required"
    ensures r.Success? ==> r.data.topic == TextParam(params, b, "topic") && !IsEmpty(r.data.topic)
    ensures r.Success? ==> r.data.keywords == Keywords(TextParam(params, b, "keywords"))
    ensures r.Success? ==> r.data.status == TextParam(params, b, "status")
  {
    var topic := TextParam(params, b, "topic");
    var keywords := Keywords(TextParam(params, b, "keywords"));
    var tone := TextParam(params, b, "tone");
    var status := TextParam(params, b, "status");
    if IsEmpty(topic) then Failure("Topic is required")
    else Success(GenerateParams(topic, keywords, tone, status))
  }

  /** The preview in the reply: the first 200 characters of the content
      without its tags, followed by '...'. */
  function Preview(content: string, stripTags: string -> string): (preview: string)
    ensures |preview| == 3 + if |stripTags(content)| <= 200 then |stripTags(content)| else 200
    ensures preview[..|preview| - 3] == stripTags(content)[..|preview| - 3]
    ensures preview[|preview| - 3..] == "..."
  {
    Prefix(stripTags(content), 200) + "..."
  }

  /** What ajax_generate_post gets from the generator: the request's error,
      or generate_post's result for the topic. The keyword list stands in
      for the use-research flag and is never empty, so research is always
      asked for. */
  function GenerateReply(p: PostGenerator.Providers, params: Params, b: Builtins): (resp: Response<PostGenerator.Draft>)
    ensures ParseGenerateRequest(params, b).Failure? ==> resp == Failure("Topic is required")
    ensures ParseGenerateRequest(params, b).Success? ==>
              resp == Reply(PostGenerator.GeneratedPost(p, TextParam(params, b, "topic"), true))
  {
    match ParseGenerateRequest(params, b)
    case Failure(message) => Failure(message)
    case Success(request) => Reply(PostGenerator.GeneratedPost(p, request.topic, request.keywords != []))
  }

  /** ajax_generate_post up to the generator's answer. */
  method AjaxGeneratePost(api: Handler, tools: PostGenerator.Tools, net: Network, params: Params, b: Builtins)
    returns (resp: Response<PostGenerator.Draft>)
    ensures resp == GenerateReply(PostGenerator.HandlerProviders(api.settings, net, tools), params, b)
  {
    var request := ParseGenerateRequest(params, b);
    if request.Failure? {
      return Failure(request.message);
    }
    var result := PostGenerator.GeneratePost(api, tools, net, request.data.topic, request.data.keywords != []);
    resp := Reply(result);
  }

  // ------------------------------------------------------------ save settings

  /** The settings ajax_save_settings hands to update_settings: seven keys,
      sanitised field by field but not through sanitize_settings, so
      max_tokens and the temperature are stored unclamped and
      perplexity_model and default_author are kept. */
  function SavedSettings(params: Params, b: Builtins): (s: map<string, Value>)
    ensures s.Keys == {"openrouter_api_key", "perplexity_api_key", "default_model", "perplexity_model",
                       "max_tokens", "temperature", "default_author"}
    ensures s["max_tokens"] == Int(IntParam(params, b, "max_tokens"))
    ensures s["temperature"] == Float(FloatParam(params, b, "temperature"))
    ensures s["openrouter_api_key"] == Text(TextParam(params, b, "openrouter_api_key"))
    ensures s["perplexity_api_key"] == Text(TextParam(params, b, "perplexity_api_key"))
    ensures s["default_model"] == Text(TextParam(params, b, "default_model"))
    ensures s["perplexity_model"] == Text(TextParam(params, b, "perplexity_model"))
    ensures s["default_author"] == Int(IntParam(params, b, "default_author"))
    ensures "post_status" !in s && "post_category" !in s
  {
    map[
      "openrouter_api_key" := Text(TextParam(params, b, "openrouter_api_key")),
      "perplexity_api_key" := Text(TextParam(params, b, "perplexity_api_key")),
      "default_model" := Text(TextParam(params, b, "default_model")),
      "perplexity_model" := Text(TextParam(params, b, "perplexity_model")),
      "max_tokens" := Int(IntParam(params, b, "max_tokens")),
      "temperature" := Float(FloatParam(params, b, "temperature")),
      "default_author" := Int(IntParam(params, b, "default_author"))
    ]
  }

  /** A saved max_tokens outside [100, 4000] stays outside it. */
  lemma SavedMaxTokensUnclamped(params: Params, b: Builtins)
    requires "max_tokens" in params && b.intval(params["max_tokens"]) > 4000
    ensures SavedSettings(params, b)["max_tokens"].n > 4000
    ensures SavedSettings(params, b)["max_tokens"] != Int(ClampMaxTokens(b.intval(params["max_tokens"])))
  {
  }

  /** ajax_save_settings: merges the request's settings into the handler's;
      update_settings always reports success. */
  method AjaxSaveSettings(api: Handler, params: Params, b: Builtins) returns (resp: Response<string>)
    modifies api
    ensures api.settings == Merge(old(api.settings), SavedSettings(params, b))
    ensures resp == Success("Settings saved successfully!")
  {
    var ok := api.UpdateSettings(SavedSettings(params, b));
    if ok {
      resp := Success("Settings saved successfully!");
    } else {
      resp := Failure("Failed to save settings");
    }
  }

  // ------------------------------------------------------------ post id guards

  /** The post id of ajax_analyze_pillar and ajax_get_suggestions: 'Post ID
      is required' when it reads as 0 (missing, or not a number). */
  function PostIdRequest(params: Params, b: Builtins): (r: Response<int>)
    ensures r.Failure? <==> IntParam(params, b, "post_id") == 0
    ensures r.Failure? ==> r.message == "Post ID is required"
    ensures r.Success? ==> r.data == IntParam(params, b, "post_id") && r.data != 0
  {
    var postId := IntParam(params, b, "post_id");
    if postId == 0 then Failure("Post ID is required") else Success(postId)
  }

  /** The limit of ajax_get_suggestions: 5 unless the request gives one. */
  function SuggestionsLimit(params: Params, b: Builtins): (limit: int)
    ensures "limit" !in params ==> limit == 5
    ensures "limit" in params ==> limit == b.intval(params["limit"])
  {
    if "limit" in params then b.intval(params["limit"]) else 5
  }

  /** An error from the analyzer becomes a failure with its message. */
  function Reply<T>(r: Result<T>): (resp: Response<T>)
    ensures r.Ok? <==> resp.Success?
    ensures r.Ok? ==> resp.data == r.value
    ensures r.Err? ==> resp.message == r.message
  {
    match r
    case Ok(v) => Success(v)
    case Err(_, message) => Failure(message)
  }

  /** What ajax_analyze_pillar replies. */
  function AnalyzePillarReply(assess: string -> Assessment, site: PillarAnalyzer.Site, params: Params, b: Builtins)
    : (resp: Response<PillarAnalyzer.Analysis>)
    ensures IntParam(params, b, "post_id") == 0 ==> resp == Failure("Post ID is required")
    ensures IntParam(params, b, "post_id") != 0 ==>
              resp == Reply(PillarAnalyzer.Analyzed(assess, site, IntParam(params, b, "post_id")))
  {
    match PostIdRequest(params, b)
    case Failure(message) => Failure(message)
    case Success(postId) => Reply(PillarAnalyzer.Analyzed(assess, site, postId))
  }

  /** ajax_analyze_pillar. */
  method AjaxAnalyzePillar(api: Handler, site: PillarAnalyzer.Site, net: Network, params: Params, b: Builtins)
    returns (resp: Response<PillarAnalyzer.Analysis>)
    ensures resp == AnalyzePillarReply(PillarAnalyzer.Assessor(api.settings, net), site, params, b)
  {
    var postId := IntParam(params, b, "post_id");
    if postId == 0 {
      return Failure("Post ID is required");
    }
    var analysis := PillarAnalyzer.AnalyzePillarPotential(api, site, net, postId);
    resp := Reply(analysis);
  }

  /** What ajax_get_suggestions replies. */
  function SuggestionsReply(settings: map<string, Value>, site: PillarAnalyzer.Site, net: Network, params: Params, b: Builtins)
    : (resp: Response<PillarAnalyzer.Suggestions>)
    ensures IntParam(params, b, "post_id") == 0 ==> resp == Failure("Post ID is required")
    ensures IntParam(params, b, "post_id") != 0 ==>
              resp == Reply(PillarAnalyzer.SuggestionsOf(settings, site, net, IntParam(params, b, "post_id"),
                                                         SuggestionsLimit(params, b)))
  {
    var limit := SuggestionsLimit(params, b);
    match PostIdRequest(params, b)
    case Failure(message) => Failure(message)
    case Success(postId) => Reply(PillarAnalyzer.SuggestionsOf(settings, site, net, postId, limit))
  }

  /** ajax_get_suggestions. */
  method AjaxGetSuggestions(api: Handler, site: PillarAnalyzer.Site, net: Network, params: Params, b: Builtins)
    returns (resp: Response<PillarAnalyzer.Suggestions>)
    ensures resp == SuggestionsReply(api.settings, site, net, params, b)
  {
    var postId := IntParam(params, b, "post_id");
    var limit := if "limit" in params then b.intval(params["limit"]) else 5;
    if postId == 0 {
      return Failure("Post ID is required");
    }
    var suggestions := PillarAnalyzer.GetRelatedSuggestions(api, site, net, postId, limit);
    resp := Reply(suggestions);
  }

  // ------------------------------------------------------------ find pillars

  /** ajax_find_pillars always asks for at most 10 pillars. */
  const FindPillarsLimit := 10

  method AjaxFindPillars(api: Handler, site: PillarAnalyzer.Site, net: Network)
    returns (resp: Response<seq<PillarAnalyzer.PillarEntry>>)
    ensures resp.Success? && |resp.data| <= FindPillarsLimit
    ensures resp.data == Slice(SortDesc(PillarAnalyzer.PillarEntries(PillarAnalyzer.Assessor(api.settings, net), site,
                                                                    site.publishedIds),
                                        PillarAnalyzer.EntryScore), FindPillarsLimit)
  {
    var pillars := PillarAnalyzer.FindPillarPosts(api, site, net, FindPillarsLimit);
    resp := Success(pillars);
  }

  // ------------------------------------------------------------ bulk analysis

  function NonZero(id: int): bool {
    id != 0
  }

  /** The ids of ajax_bulk_analyze: the comma-separated parts through
      intval, zeros removed, in order. */
  function BulkIds(text: string, intval: string -> int): (ids: seq<int>)
    ensures forall i :: 0 <= i < |ids| ==> ids[i] != 0
  {
    var ids := Filter(MapSeq(Split(text, ','), intval), NonZero);
    FilterSatisfies(MapSeq(Split(text, ','), intval), NonZero);
    ids
  }

  /** An id is kept exactly when it is non-zero and some part reads as it. */
  lemma BulkIdsMember(text: string, intval: string -> int, id: int)
    ensures id in BulkIds(text, intval) <==>
            id != 0 && exists k :: 0 <= k < |Split(text, ',')| && intval(Split(text, ',')[k]) == id
  {
    var parsed := MapSeq(Split(text, ','), intval);
    FilterMember(parsed, NonZero, id);
    if id in parsed {
      var k :| 0 <= k < |parsed| && parsed[k] == id;
      assert intval(Split(text, ',')[k]) == id;
    }
  }

  /** The bulk request: 'No valid Post IDs provided' when no id is left. */
  function BulkRequest(params: Params, b: Builtins): (r: Response<seq<int>>)
    ensures r.Failure? <==> BulkIds(TextParam(params, b, "post_ids"), b.intval) == []
    ensures r.Failure? ==> r.message == "No valid Post IDs provided"
    ensures r.Success? ==> r.data == BulkIds(TextParam(params, b, "post_ids"), b.intval)
  {
    var ids := BulkIds(TextParam(params, b, "post_ids"), b.intval);
    if ids == [] then Failure("No valid Post IDs provided") else Success(ids)
  }

  /** ajax_bulk_analyze. */
  method AjaxBulkAnalyze(api: Handler, site: PillarAnalyzer.Site, net: Network, params: Params, b: Builtins)
    returns (resp: Response<seq<PillarAnalyzer.Analysis>>)
    ensures BulkRequest(params, b).Failure? ==> resp == Failure("No valid Post IDs provided")
    ensures BulkRequest(params, b).Success? ==>
              resp == Success(PillarAnalyzer.BulkOf(PillarAnalyzer.Assessor(api.settings, net), site,
                                                   BulkRequest(params, b).data))
  {
    var ids := BulkIds(TextParam(params, b, "post_ids"), b.intval);
    if ids == [] {
      return Failure("No valid Post IDs provided");
    }
    var results := PillarAnalyzer.BulkAnalyze(api, site, net, ids);
    resp := Success(results);
  }
}
