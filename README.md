# AI Blog Writer: a Dafny model of the plugin's core

AI Blog Writer is a WordPress plugin. It writes blog posts with the
OpenRouter and Perplexity APIs and rates published posts as "pillar"
content. This project models its core in Dafny and proves properties of
that model:

- **Api** (`api_handler.dfy`) models `AIBW_API_Handler`. It covers:
  - the two provider calls, with the network as a parameter;
  - how a response is classified;
  - the comprehensiveness score read from the answer;
  - the parsing of related-topic lines;
  - API-key validation;
  - the handler's settings, which `update_settings` merges into.
- **PillarAnalyzer** (`pillar_analyzer.dfy`) models `AIBW_Pillar_Analyzer`. It covers:
  - the five factor scores and their weights;
  - the recommendations;
  - the analysis of one post;
  - finding pillar posts, sorted by score;
  - bulk analysis;
  - related-post suggestions with their template fallback.
- **PostGenerator** (`post_generator.dfy`) models `AIBW_Post_Generator`. It covers:
  - the generate-post pipeline (topic check, research, writing, SEO title, excerpt);
  - batch generation;
  - generation with an API preference.
- **Settings** (`settings.dfy`) models `AIBW_Settings`. It covers:
  - the option store (get, update, merge, reset);
  - API-key validation;
  - `sanitize_settings`;
  - the defaults.
- **Admin** (`admin.dfy`) models the AJAX handlers of `AIBW_Admin`. It covers:
  - how each handler reads its request;
  - which requests each handler rejects;
  - what each handler passes on.
- **Strings**, **PhpArrays** and **Wrappers** hold the PHP built-ins the core relies on:
  - `trim`, `substr`, `strpos`, `substr_count`, `explode`/`implode`, `strtolower`;
  - the quote and digit regular expressions;
  - `array_count_values`, `array_slice`, `array_filter`, stable descending sort;
  - `WP_Error`, modelled as `Result.Err(code, message)`.

Design of the model:

- **Network.** The network is a function from the request the handler builds
  (provider, API key, model, prompt) to the decoded response body, or to a
  transport error.
- **Helpers outside the core.** The post generator calls the handler
  methods `write_blog_post` and `generate_with_perplexity`, which
  `AIBW_API_Handler` does not define (it has no `__call` either), and the
  PHP built-in `strip_tags`. All three
  are parameters (`PostGenerator.Tools`).
- **WordPress reads.** `get_post`, `home_url` and the `get_posts` queries
  are the fields of `PillarAnalyzer.Site`.
- **Objects.** The handler and the option store are classes, because
  their state is updated in place.
- **Loops.** Each loop of the source is a method proved against a function
  that states its result.

How the code behaves, where this is easy to miss:

- When the comprehensiveness request fails, `analyze_comprehensiveness`
  returns score 0 with 'Analysis failed'. It never returns an error, so the
  analyzer's fallback of 50 with 'AI analysis unavailable' is dead code.
  `ComprehensivenessFactor` still models that branch.
- The score is never below 2200, so every analysed post is a pillar
  (`EveryAnalyzedPostIsPillar`). The cause: the weighted sum of 0–100
  factor scores is multiplied by 100 and then compared with 70.
- The template fallback of `get_related_suggestions` groups the four
  templates per topic.
- `generate_seo_title` and `generate_excerpt` pass their system prompt
  where `generate_with_openrouter` expects the model name.
- `ajax_generate_post` passes the keyword array as `generate_post`'s
  `use_research` flag. The array is never empty, so research is always
  requested.
- As written, no AJAX handler can run. ai-blog-writer.php:34 calls
  `new AIBW_Admin($settings, $post_generator)`, but the constructor
  (class-aibw-admin.php:17) takes three parameters, so PHP 8 throws an
  ArgumentCountError. The bootstrap also never loads
  class-aibw-pillar-analyzer.php, and no file registers a `wp_ajax_*`
  action. `Admin` models each handler as if it were wired up, with one
  `Api.Handler` standing for both the admin's and the analyzer's API
  handler.
- A factor's "good" recommendation ('Good structure', 'Good linking
  strategy') is reported when that factor still scores below 80.

## Model

| member | source | states |
|---|---|---|
| Strings.Trim | includes/class-aibw-post-generator.php:78 | the result is a contiguous piece of the text with only trim characters cut before and after it, and it neither starts nor ends with a trim character |
| Strings.StripQuotes | includes/class-aibw-post-generator.php:79 | text enclosed in double quotes loses exactly those two quotes; text that does not start with a quote is unchanged; never longer than the text |
| Strings.TrimIdempotent | includes/class-aibw-post-generator.php:78 | trimming trimmed text changes nothing |
| Strings.Prefix | includes/class-aibw-post-generator.php:74 | substr($s, 0, n) is the first min(n, length) characters |
| Strings.StripQuotesOfTrimmed | includes/class-aibw-post-generator.php:79 | on trimmed text the quote regex strips one enclosing pair of quotes and otherwise leaves the text alone |
| Strings.ContainsIsInfix | includes/class-aibw-pillar-analyzer.php:117 | strpos finds the needle exactly when it occurs as a contiguous piece |
| Strings.SubstrCount | includes/class-aibw-pillar-analyzer.php:107 | the non-overlapping occurrences of a non-empty needle fit in the text (count times needle length at most the text length) |
| Strings.SubstrCountPositive | includes/class-aibw-pillar-analyzer.php:107 | substr_count is positive exactly when strpos finds the needle |
| Strings.Split | includes/class-aibw-api-handler.php:149 | explode yields at least one part, and no part contains the separator |
| Strings.ImplodeSplit | includes/class-aibw-api-handler.php:149 | gluing the parts of explode back with the separator gives the text back |
| Strings.ToLowerIsLower | includes/class-aibw-pillar-analyzer.php:191 | strtolower output has no upper-case letter, and lower-case text is unchanged |
| Strings.FirstDigitRun | includes/class-aibw-api-handler.php:120 | the `(\d+)` match is all digits, and it is empty exactly when the text has no digit |
| Strings.FirstDigitRunOf | includes/class-aibw-api-handler.php:120 | the match is the first maximal run of digits |
| Strings.DecimalRoundTrip | includes/class-aibw-api-handler.php:121 | intval of a number's decimal spelling is the number |
| PhpArrays.Slice | includes/class-aibw-pillar-analyzer.php:296 | array_slice($a, 0, n) is a prefix of length min(n, count), or count+n for a negative n |
| PhpArrays.OccurrencesPositive | includes/class-aibw-pillar-analyzer.php:191 | a value is counted exactly when it occurs |
| PhpArrays.Tally | includes/class-aibw-pillar-analyzer.php:191 | array_count_values lists the distinct values in order of first occurrence, each with its positive count |
| PhpArrays.Distinct | includes/class-aibw-pillar-analyzer.php:191 | the keys hold every value once, with no duplicates |
| PhpArrays.FilterMember | includes/class-aibw-admin.php:506 | array_filter keeps exactly the elements that pass the test |
| PhpArrays.KeysOfFilteredTally | includes/class-aibw-pillar-analyzer.php:196-201 | the keys of a filtered count table are the distinct values whose count passes, in first-occurrence order |
| PhpArrays.FilteredTallyMember | includes/class-aibw-pillar-analyzer.php:196-201 | a word is a kept key exactly when it occurs and its entry passes the test |
| PhpArrays.SortDesc | includes/class-aibw-pillar-analyzer.php:292-294 | the sort by descending score is a permutation and is sorted |
| PhpArrays.SortDescStable | includes/class-aibw-pillar-analyzer.php:323 | elements with equal keys keep their relative order (arsort, usort in PHP 8) |
| PhpArrays.TopOfSorted | includes/class-aibw-pillar-analyzer.php:296 | no element outside the top slice scores higher than one inside it |
| PhpArrays.FlatMapMember | includes/class-aibw-pillar-analyzer.php:279-289 | an item is collected exactly when one input element contributes it |
| PhpArrays.FlatMapAppend | includes/class-aibw-pillar-analyzer.php:381-390 | collecting over two lists in turn gives the two collections one after the other |
| PhpArrays.FlatMapOfSingles | includes/class-aibw-pillar-analyzer.php:279-289 | with at most one contribution each, the collection holds exactly the contributions of the listed elements |
| Settings.Merge | includes/class-aibw-settings.php:40-45 | array_merge: updates win, and every other key keeps its value |
| Settings.ValidateApiKey | includes/class-aibw-settings.php:57-68 | a key is valid exactly when it is at least 10 characters long and does not trim to "" or "0" |
| Settings.ClampMaxTokens | includes/class-aibw-settings.php:95-100 | max_tokens lands in [100, 4000]: values inside are kept, values outside go to the nearer end |
| Settings.ClampMaxTokensIdempotent | includes/class-aibw-settings.php:95-100 | clamping twice is clamping once |
| Settings.ClampTemperature | includes/class-aibw-settings.php:88-93 | the temperature lands in [0, 2]: values inside are kept, a negative value becomes 0 and one above 2 becomes 2 |
| Settings.SanitizedValue | includes/class-aibw-settings.php:76-108 | per key: the two API keys and default_model through sanitize_text_field; max_tokens and the temperature clamped; post_category through intval; an allowed status (draft, publish, pending) kept as given, and any other status becomes draft |
| Settings.SanitizeSettings | includes/class-aibw-settings.php:73-111 | the result has exactly the input's keys among the seven handled ones, each sanitised; perplexity_model and default_author are dropped |
| Settings.Defaults | includes/class-aibw-settings.php:116-126 | the defaults cover exactly the sanitised keys; max_tokens and the temperature are fixed points of their clamps and the status is an allowed one; both API keys are empty |
| Settings.Store.GetOption | includes/class-aibw-settings.php:17-25 | the stored value when the key is set, the default otherwise |
| Settings.Store.Save | includes/class-aibw-settings.php:34 | WordPress's update_option: the map is stored when the write succeeds, and the answer is true exactly when a write happened and changed the stored map |
| Settings.Store.UpdateOption | includes/class-aibw-settings.php:30-35 | after a successful write this key holds the value; every other key reads as before; the answer is update_option's, so false when the key already held that value |
| Settings.Store.UpdateOptions | includes/class-aibw-settings.php:40-45 | after a successful write the options are the merge of the old options and the updates; the answer is true exactly when a write happened and the merge changed something |
| Settings.Store.ResetToDefaults | includes/class-aibw-settings.php:131-134 | after a successful write the options are the defaults; the answer is true exactly when a write happened and the options were not the defaults already |
| Api.Classify | includes/class-aibw-api-handler.php:48-62 | a transport error is passed on, an error body becomes api_error with its message, a missing text becomes parse_error, otherwise the provider's text is returned |
| Api.GenerateWithOpenRouter | includes/class-aibw-api-handler.php:22-63 | with no key the result is no_api_key and nothing is sent; otherwise it is the classified response to the request with the key and the given or default model |
| Api.NoKeyNoRequest | includes/class-aibw-api-handler.php:23-25 | without a key the result does not depend on the network |
| Api.ResearchWithPerplexity | includes/class-aibw-api-handler.php:68-105 | the same for Perplexity, with perplexity_model as the default model |
| Api.ModelFor | includes/class-aibw-api-handler.php:28 | a non-empty model argument wins; otherwise the stored setting when there is one |
| Api.ComprehensivenessPrompt | includes/class-aibw-api-handler.php:111 | the instructions followed by the first 2000 characters of the content |
| Api.ParseScore | includes/class-aibw-api-handler.php:120-124 | the score lies in 0..100, and it is 50 when the answer has no digit |
| Api.ParseScoreFirstNumber | includes/class-aibw-api-handler.php:120-124 | the score is the first number in the answer, capped at 100 |
| Api.AnalyzeComprehensiveness | includes/class-aibw-api-handler.php:110-127 | the request's failure gives 0 with 'Analysis failed'; otherwise the parsed score of the answer with the answer as explanation |
| Api.AssessmentOf | includes/class-aibw-api-handler.php:113-126 | a failed request gives 0 with 'Analysis failed'; otherwise the parsed score and the answer as explanation |
| Api.RelatedTopicsPrompt | includes/class-aibw-api-handler.php:133-139 | the prompt opens with the main-topic header and ends with the line instructions; without existing titles it is just those two |
| Api.AvoidClauseIffExisting | includes/class-aibw-api-handler.php:133-139 | the prompt lists the titles to avoid exactly when there are existing titles |
| Api.StripNumbering | includes/class-aibw-api-handler.php:155 | removing the numbering removes only a prefix, and only a prefix that starts with a digit |
| Api.TopicLinesAppend | includes/class-aibw-api-handler.php:151-158 | topics are read line by line, in order |
| Api.TopicLinesFromLines | includes/class-aibw-api-handler.php:151-158 | every topic is a kept line (non-empty, longer than 5 after trim) without its numbering, at most one per line |
| Api.ReadTopicLines | includes/class-aibw-api-handler.php:148-158 | the loop collects exactly the topics of the response's lines |
| Api.RelatedTopicsOf | includes/class-aibw-api-handler.php:143-160 | none when the request failed; otherwise the first 8 topics read from the answer's lines |
| Api.RelatedTopicsFor | includes/class-aibw-api-handler.php:132-161 | none when the request failed; otherwise the first 8 topics read from the lines of the answer to the related-topics prompt |
| Api.ValidateApiKeys | includes/class-aibw-api-handler.php:166-178 | true exactly when both keys are set; otherwise one message per missing key, OpenRouter first |
| Api.Handler.constructor | includes/class-aibw-api-handler.php:15-17 | the handler starts with the stored settings |
| Api.Handler.GenerateRelatedTopics | includes/class-aibw-api-handler.php:132-161 | the topics are those of the model function |
| Api.Handler.UpdateSettings | includes/class-aibw-api-handler.php:183-187 | the settings become the merge of the old settings and the new ones, and the result is true |
| PillarAnalyzer.WordCountScore | includes/class-aibw-pillar-analyzer.php:78-89 | 100/85/70/50/20 from 2000/1500/1000/500 words up |
| PillarAnalyzer.WordCountScoreMonotone | includes/class-aibw-pillar-analyzer.php:78-89 | more words never score less, and the score lies in 20..100 |
| PillarAnalyzer.AnalyzeWordCount | includes/class-aibw-pillar-analyzer.php:75-97 | the score, the word count with its target, and 'Expand content' below 1500 words, 'Good word count' otherwise |
| PillarAnalyzer.StructureScore | includes/class-aibw-pillar-analyzer.php:119-128 | 100/80/60/30 by the h2, h3 and paragraph thresholds |
| PillarAnalyzer.StructureScoreMonotone | includes/class-aibw-pillar-analyzer.php:119-128 | more headings or paragraphs never score less |
| PillarAnalyzer.AnalyzeStructure | includes/class-aibw-pillar-analyzer.php:102-138 | the substr_count tallies, the list check, the score, and 'Good structure' with 3+ h2 and 5+ h3, 'Add more subheadings' otherwise |
| PillarAnalyzer.GoodStructureBelow80 | includes/class-aibw-pillar-analyzer.php:120-136 | content with 3 h2, 5 h3 and no paragraph tags gets 'Good structure' with a score of 60 |
| PillarAnalyzer.LinkCountsBounded | includes/class-aibw-pillar-analyzer.php:154-163 | no href is counted both as internal and as external |
| PillarAnalyzer.LinksScore | includes/class-aibw-pillar-analyzer.php:166-174 | 100/80/60/30 by the total and internal link thresholds |
| PillarAnalyzer.LinksScoreMonotone | includes/class-aibw-pillar-analyzer.php:166-174 | more links never score less |
| PillarAnalyzer.LinksFactor | includes/class-aibw-pillar-analyzer.php:143-183 | internal means containing the home URL; external means starting with http otherwise; the total is at most the href count; 'Good linking strategy' with 3+ internal links, 'Add more internal links' otherwise |
| PillarAnalyzer.AnalyzeLinks | includes/class-aibw-pillar-analyzer.php:154-161 | the counting loop gives the factor of the model function |
| PillarAnalyzer.GoodLinkingBelow80 | includes/class-aibw-pillar-analyzer.php:166-181 | 'Good linking strategy' can come with a score of 60 |
| PillarAnalyzer.Lowered | includes/class-aibw-pillar-analyzer.php:191 | each word is lower-cased |
| PillarAnalyzer.TopicsScore | includes/class-aibw-pillar-analyzer.php:206-214 | 100/80/60/40 from 10/7/5 topic words up |
| PillarAnalyzer.TopicsScoreMonotone | includes/class-aibw-pillar-analyzer.php:206-214 | more topic words never score less |
| PillarAnalyzer.TopicsFactor | includes/class-aibw-pillar-analyzer.php:188-222 | the topic count, at most five main topics (the first five topic words), and 'Expand topic coverage' below 7 topic words, 'Good topic diversity' otherwise |
| PillarAnalyzer.KeepEntries | includes/class-aibw-pillar-analyzer.php:197-201 | the loop keeps exactly the filtered entries, in order |
| PillarAnalyzer.AnalyzeTopics | includes/class-aibw-pillar-analyzer.php:188-222 | the method gives the factor of the model function |
| PillarAnalyzer.TopicsInFirstOccurrenceOrder | includes/class-aibw-pillar-analyzer.php:191-201 | the topic words are the distinct lower-cased words that pass the test, in order of first occurrence |
| PillarAnalyzer.TopicWordIff | includes/class-aibw-pillar-analyzer.php:198 | a word is a topic word exactly when it occurs at least 3 times, is not a common word, and is longer than 3 |
| PillarAnalyzer.ComprehensivenessFactor | includes/class-aibw-pillar-analyzer.php:227-249 | an error gives 50 with 'AI analysis unavailable'; otherwise the handler's score and explanation, with 'Excellent' from 80 and 'Add more examples' below |
| PillarAnalyzer.RecommendationsExactly | includes/class-aibw-pillar-analyzer.php:254-264 | the recommendations are exactly those of factors scoring below 80, at most one per factor |
| PillarAnalyzer.GenerateRecommendations | includes/class-aibw-pillar-analyzer.php:254-264 | the loop collects exactly those recommendations, in factor order |
| PillarAnalyzer.FactorsOf | includes/class-aibw-pillar-analyzer.php:46-50 | the five factors, each tagged with its name |
| PillarAnalyzer.AnalysisOf | includes/class-aibw-pillar-analyzer.php:36-64 | id and title of the post, the score as the weighted sum, pillar exactly from 70, the recommendations of the factors |
| PillarAnalyzer.Analyzed | includes/class-aibw-pillar-analyzer.php:29-70 | invalid_post exactly for a missing or unpublished post; otherwise the analysis with the handler's assessment of the content |
| PillarAnalyzer.Weight | includes/class-aibw-pillar-analyzer.php:13-19 | every factor weighs between 1 and 25 hundredths |
| PillarAnalyzer.WeightsTotal | includes/class-aibw-pillar-analyzer.php:13-19 | the weights are 25, 10, 20, 20 and 25 hundredths and add up to 1 |
| PillarAnalyzer.WeightedTotal | includes/class-aibw-pillar-analyzer.php:53-58 | the total is the five scores times their weights (0.25/0.10/0.20/0.20/0.25, in hundredths) |
| PillarAnalyzer.FactorBounds | includes/class-aibw-pillar-analyzer.php:75-249 | each factor's score stays within its range |
| PillarAnalyzer.WeightedBounds | includes/class-aibw-pillar-analyzer.php:53-60 | with scores in those ranges, the weighted score lies in 2200..10000 |
| PillarAnalyzer.ScoreBounds | includes/class-aibw-pillar-analyzer.php:53-61 | every analysis scores 2200..10000, so it is a pillar |
| PillarAnalyzer.EveryAnalyzedPostIsPillar | includes/class-aibw-pillar-analyzer.php:60-61 | every successful analysis is a pillar |
| PillarAnalyzer.TotalScore | includes/class-aibw-pillar-analyzer.php:53-58 | the loop computes the weighted sum |
| PillarAnalyzer.AnalyzePillarPotential | includes/class-aibw-pillar-analyzer.php:29-70 | the method returns the model function's result for the handler's settings |
| PillarAnalyzer.PillarEntryFor | includes/class-aibw-pillar-analyzer.php:280-288 | one entry (id, title, score) exactly when the analysis succeeds and is a pillar |
| PillarAnalyzer.PillarEntriesAreAnalyses | includes/class-aibw-pillar-analyzer.php:279-289 | every entry belongs to a listed id and is that id's entry, with at most one entry per id |
| PillarAnalyzer.CollectPillars | includes/class-aibw-pillar-analyzer.php:277-289 | the loop collects exactly the pillar entries, in id order |
| PillarAnalyzer.FindPillarPosts | includes/class-aibw-pillar-analyzer.php:269-297 | the top `limit` pillar entries by descending score, each one a pillar entry |
| PillarAnalyzer.BulkItem | includes/class-aibw-pillar-analyzer.php:382-386 | a successful analysis is kept, and an error is skipped |
| PillarAnalyzer.BulkOfAppend | includes/class-aibw-pillar-analyzer.php:381-390 | results keep the order of the ids |
| PillarAnalyzer.BulkOfSingle | includes/class-aibw-pillar-analyzer.php:381-390 | one id gives its own result |
| PillarAnalyzer.BulkAnalyze | includes/class-aibw-pillar-analyzer.php:378-393 | the loop gives the bulk results of the model function |
| PillarAnalyzer.MainTopics | includes/class-aibw-pillar-analyzer.php:322-324 | three main topics, or every ranked word when there are fewer than three |
| PillarAnalyzer.MainTopicsAreTop | includes/class-aibw-pillar-analyzer.php:315-324 | the main topics are significant words, and no other significant word is more frequent |
| PillarAnalyzer.TemplatesFor | includes/class-aibw-pillar-analyzer.php:344-347 | four templates per topic |
| PillarAnalyzer.TemplatesGrouped | includes/class-aibw-pillar-analyzer.php:343-348 | the fallback holds four templates per topic, grouped topic by topic |
| PillarAnalyzer.BuildTemplates | includes/class-aibw-pillar-analyzer.php:342-348 | the loop builds exactly the templates |
| PillarAnalyzer.SuggestionsOf | includes/class-aibw-pillar-analyzer.php:302-373 | invalid_post exactly for a missing or unpublished post; otherwise the post's id and title, its main topics, the provider's topics sliced to `limit` when there are any, and the search for the topics as related posts (none without topics) |
| PillarAnalyzer.FallbackToTemplates | includes/class-aibw-pillar-analyzer.php:340-349 | when the handler suggests nothing, the new suggestions are the templates, sliced to the limit |
| PillarAnalyzer.GetRelatedSuggestions | includes/class-aibw-pillar-analyzer.php:302-373 | the method returns the model function's result |
| PostGenerator.Clean | includes/class-aibw-post-generator.php:78-80 | the cleaned text is a prefix of at most n characters of the trimmed, unquoted text |
| PostGenerator.CleanQuoted | includes/class-aibw-post-generator.php:78-80 | a quoted answer loses exactly its enclosing quotes before the cut |
| PostGenerator.TitlePrompt | includes/class-aibw-post-generator.php:68 | the title request names the topic |
| PostGenerator.SeoTitleOf | includes/class-aibw-post-generator.php:65-83 | at most 60 characters; on failure the topic cut to 60, otherwise the cleaned answer |
| PostGenerator.SeoTitle | includes/class-aibw-post-generator.php:65-83 | the title of the provider's answer to the title prompt |
| PostGenerator.TitleSystemPromptIsModel | includes/class-aibw-post-generator.php:70 | the system prompt is sent as the request's model |
| PostGenerator.ExcerptPrompt | includes/class-aibw-post-generator.php:91 | the excerpt request carries the first 1000 characters of the content after its header |
| PostGenerator.ExcerptOf | includes/class-aibw-post-generator.php:88-106 | at most 160 characters; on failure the first 155 characters of the stripped content plus '...', cleaned; otherwise the cleaned answer |
| PostGenerator.Excerpt | includes/class-aibw-post-generator.php:88-106 | the excerpt of the provider's answer to the excerpt prompt |
| PostGenerator.ResearchFor | includes/class-aibw-post-generator.php:29-41 | the research text when research is wanted and succeeds, otherwise "" |
| PostGenerator.Finish | includes/class-aibw-post-generator.php:50-57 | the draft keeps topic and content, with a title of at most 60 and an excerpt of at most 160 characters |
| PostGenerator.GeneratedPost | includes/class-aibw-post-generator.php:23-60 | empty_topic for a topic that trims to empty; a writer error is passed on; otherwise the finished draft |
| PostGenerator.EmptyTopicAsksNoProvider | includes/class-aibw-post-generator.php:25-27 | an empty topic gives the same result whatever the providers do |
| PostGenerator.NoResearchWhenNotWanted | includes/class-aibw-post-generator.php:32-44 | without research the writer gets "" |
| PostGenerator.FailedResearchIsNoResearch | includes/class-aibw-post-generator.php:35-40 | a failed research request gives the same result as asking for no research |
| PostGenerator.GeneratePost | includes/class-aibw-post-generator.php:23-60 | the method returns the model function's result for the handler's providers |
| PostGenerator.EntryFor | includes/class-aibw-post-generator.php:170-175 | the entry holds the topic and its result, and success exactly when the result is not an error |
| PostGenerator.BatchEntries | includes/class-aibw-post-generator.php:169-179 | entry i belongs to topic i |
| PostGenerator.Batch | includes/class-aibw-post-generator.php:166-182 | one entry per topic (what each entry holds is stated by BatchEntries) |
| PostGenerator.GenerateBatch | includes/class-aibw-post-generator.php:166-182 | the loop gives one entry per topic, in order |
| PostGenerator.PerplexityPrompt | includes/class-aibw-post-generator.php:190-199 | the research is used in the prompt when it succeeds; otherwise the prompt asks for a comprehensive post |
| PostGenerator.GeneratedWithApi | includes/class-aibw-post-generator.php:187-213 | any API other than perplexity is generate_post with research; perplexity writes from the research prompt and finishes the same way |
| Admin.Keywords | includes/class-aibw-admin.php:366 | one trimmed keyword per comma-separated part, and at least one |
| Admin.ParseGenerateRequest | includes/class-aibw-admin.php:365-372 | 'Topic is required' exactly when the topic is empty; otherwise the sanitised fields |
| Admin.GenerateReply | includes/class-aibw-admin.php:370-379 | the request's error, or generate_post's result with research always asked for |
| Admin.AjaxGeneratePost | includes/class-aibw-admin.php:365-379 | the method returns the reply of the model function |
| Admin.Preview | includes/class-aibw-admin.php:395 | the first 200 characters of the stripped content followed by '...' |
| Admin.SavedSettings | includes/class-aibw-admin.php:409-417 | exactly the seven keys the handler writes, each the sanitised request field: the four texts through sanitize_text_field, max_tokens and default_author through intval and the temperature through floatval, none of them clamped |
| Admin.SavedMaxTokensUnclamped | includes/class-aibw-admin.php:414 | a max_tokens over 4000 is stored as given, unlike under sanitize_settings |
| Admin.AjaxSaveSettings | includes/class-aibw-admin.php:409-425 | the handler's settings are merged with the request's, and the reply is success |
| Admin.PostIdRequest | includes/class-aibw-admin.php:438-442 | 'Post ID is required' exactly when the id reads as 0 |
| Admin.SuggestionsLimit | includes/class-aibw-admin.php:464 | the limit is 5 unless the request gives one |
| Admin.Reply | includes/class-aibw-admin.php:446-450 | an error becomes a failure with its message, and a value a success |
| Admin.AnalyzePillarReply | includes/class-aibw-admin.php:438-450 | the post-id guard, then the analysis or its error message |
| Admin.AjaxAnalyzePillar | includes/class-aibw-admin.php:431-451 | the method returns the reply of the model function |
| Admin.SuggestionsReply | includes/class-aibw-admin.php:463-476 | the post-id guard, then the suggestions for the limit, or their error message |
| Admin.AjaxGetSuggestions | includes/class-aibw-admin.php:456-477 | the method returns the reply of the model function |
| Admin.AjaxFindPillars | includes/class-aibw-admin.php:482-492 | success with at most 10 pillars, the top ten by score |
| Admin.BulkIds | includes/class-aibw-admin.php:504-506 | no id is zero |
| Admin.BulkIdsMember | includes/class-aibw-admin.php:504-506 | an id is kept exactly when it is non-zero and some comma-separated part reads as it |
| Admin.BulkRequest | includes/class-aibw-admin.php:504-510 | 'No valid Post IDs provided' exactly when no id is left |
| Admin.AjaxBulkAnalyze | includes/class-aibw-admin.php:497-515 | the guard, then the bulk results for the ids in order |

## Left out

- Network access, JSON encoding and decoding, HTTP headers, the endpoint URLs and the 60-second timeout. The network is a parameter that sees the provider, key, model and prompt.
- Api.GenerateWithOpenRouter: the payload's max_tokens and temperature (`intval(... ?: 2000)`, `floatval(... ?: 0.7)`) are not part of the modelled request, because no property of the plugin depends on them.
- `write_blog_post`, `generate_with_perplexity`, `strip_tags`, `str_word_count`, `sanitize_text_field`, `intval` and `floatval` are parameters. The first two are called on the `AIBW_API_Handler` that ai-blog-writer.php:32 passes in, and that class does not define them; the others are WordPress or PHP built-ins whose behaviour the model does not fix.
- The `href` regular expression of `analyze_links` is not modelled: a post's hrefs are given as a list (`Post.hrefs`).
- `create_wordpress_post` (class-aibw-post-generator.php:111-145) is left out. It only writes to the WordPress database. The pipeline ends with the `Draft` it would be given.
- `generate_from_research` (class-aibw-post-generator.php:150-161) is not modelled on its own, because it is the tail of `generate_post` without the topic check and the research step.
- `update_post_meta` in `analyze_pillar_potential`, and `get_cached_analysis`, are left out. They are storage side effects.
- Api.Handler.UpdateSettings: the `update_option('aibw_settings', ...)` write in `update_settings` (class-aibw-api-handler.php:185) is not passed on to a `Settings.Store`; the method only updates the handler's own copy of the settings.
- PillarAnalyzer.SuggestionsOf: the model takes `get_posts(... 'fields' => 'titles')` (class-aibw-pillar-analyzer.php:327-332) to give a list of title strings. WordPress has no 'titles' value for 'fields' and returns post objects. The list also holds the pillar post itself, so for a pillar of type 'post' it is never empty, and `implode` over post objects (class-aibw-api-handler.php:136) throws in PHP 8. As written, `get_related_suggestions` therefore never returns for a published post of type 'post'; the model describes the evident intent.
- `error_log`, `sleep(1)` and `usleep(100000)` are left out, because they do not change any result.
- Nonce checks, capability checks, and the admin pages, menus, scripts and forms are left out.
- Admin.AjaxGeneratePost: the calls after generation are left out. They are `create_wordpress_post($result, $status)`, `get_permalink`, and the reply built from `$result['title']` and `$result['content']`. They call a private method with the wrong arguments and index an id as an array, so their outcome is not a value to model; the preview is modelled on its own as `Admin.Preview`.
- PHP strings are byte strings; the model counts characters, so `substr` and `strlen` agree with PHP for single-byte text only.
- PillarAnalyzer.AnalysisOf: the score is exact integer arithmetic. The weights are in hundredths, so the sum equals PHP's `round($total_score * 100, 2)` without its floating-point rounding.
- Settings.Store.Save: whether WordPress's database write succeeds is the parameter `written`. The model compares maps of values where update_option compares the serialised old and new values.
- Settings.SanitizedValue: a clamped temperature is stored as the float 0.0 or 2.0, where PHP stores the integers 0 or 2.
