/** AIBW_Pillar_Analyzer: scores a published post on five factors (length,
    heading structure, links, topic coverage and an AI assessment of its
    comprehensiveness), combines them with a fixed weight table into a
    pillar score, and suggests related posts for a pillar. The WordPress
    site is an input (`Site`), as is the network the API handler uses. */
module PillarAnalyzer {
  import opened Wrappers
  import opened Strings
  import opened PhpArrays
  import opened Settings
  import opened Api

  /** A post as get_post returns it. `words` is what str_word_count makes of
      the content once its tags are stripped, and `hrefs` are the link
      targets of the content's anchor tags. */
  datatype Post = Post(title: string, status: string, content: string, words: seq<string>, hrefs: seq<string>)

  /** The site the analyzer queries: get_post, home_url, and the get_posts
      queries it makes (every published post id, the existing post titles,
      and a search by text with a result limit and one excluded id). */
  datatype Site = Site(
    posts: int -> Option<Post>,
    homeUrl: string,
    publishedIds: seq<int>,
    publishedTitles: seq<string>,
    search: (string, int, int) -> seq<int>)

  /** The five factors, in the order the analysis records them. */
  datatype Factor = WordCount | Structure | Links | Topics | Comprehensiveness

  /** The criteria weights, in hundredths (0.25, 0.10, 0.20, 0.20, 0.25). */
  function Weight(f: Factor): (w: nat)
    ensures 0 < w <= 25
  {
    match f
    case WordCount => 25
    case Structure => 10
    case Links => 20
    case Topics => 20
    case Comprehensiveness => 25
  }

  /** The weights are 0.25, 0.10, 0.20, 0.20 and 0.25, and they add up to 1. */
  lemma WeightsTotal()
    ensures Weight(WordCount) == 25 && Weight(Structure) == 10 && Weight(Links) == 20
    ensures Weight(Topics) == 20 && Weight(Comprehensiveness) == 25
    ensures Weight(WordCount) + Weight(Structure) + Weight(Links) + Weight(Topics) + Weight(Comprehensiveness) == 100
  {
  }

  /** The measurements each factor reports beside its score. */
  datatype Detail =
    | WordCountDetail(value: nat, target: string)
    | StructureDetail(h2Count: nat, h3Count: nat, paragraphCount: nat, hasLists: bool)
    | LinksDetail(internal: nat, external: nat, total: nat)
    | TopicsDetail(topicCount: nat, mainTopics: seq<string>)
    | ComprehensivenessDetail(explanation: string)

  datatype FactorScore = FactorScore(factor: Factor, score: int, recommendation: Advice, detail: Detail)

  /** The fixed recommendation texts, by name. */
  datatype Advice =
    | ExpandContent | GoodWordCount | GoodStructure | AddSubheadings | AddInternalLinks | GoodLinking
    | ExpandTopics | GoodTopics | AddDepth | Excellent | AddExamples

  /** The text each recommendation stands for. */
  function AdviceText(a: Advice): string {
    match a
    case ExpandContent => "Expand content to 1500+ words for better authority"
    case GoodWordCount => "Good word count"
    case GoodStructure => "Good structure"
    case AddSubheadings => "Add more subheadings (H2, H3) for better organization"
    case AddInternalLinks => "Add more internal links to connect related content"
    case GoodLinking => "Good linking strategy"
    case ExpandTopics => "Expand topic coverage with more related concepts"
    case GoodTopics => "Good topic diversity"
    case AddDepth => "Consider adding more depth and examples"
    case Excellent => "Excellent comprehensiveness"
    case AddExamples => "Add more examples, data, and detailed explanations"
  }

  // ---------------------------------------------------------------- word count

  /** 100, 85, 70, 50 or 20 from 2000, 1500, 1000 and 500 words up. */
  function WordCountScore(n: nat): (score: int)
    ensures n >= 2000 ==> score == 100
    ensures 1500 <= n < 2000 ==> score == 85
    ensures 1000 <= n < 1500 ==> score == 70
    ensures 500 <= n < 1000 ==> score == 50
    ensures n < 500 ==> score == 20
  {
    if n >= 2000 then 100 else if n >= 1500 then 85 else if n >= 1000 then 70 else if n >= 500 then 50 else 20
  }

  lemma WordCountScoreMonotone(a: nat, b: nat)
    requires a <= b
    ensures 20 <= WordCountScore(a) <= WordCountScore(b) <= 100
  {
  }

  /** analyze_word_count: the score of the word count, and the advice to
      expand exactly when there are fewer than 1500 words. */
  function AnalyzeWordCount(post: Post): (f: FactorScore)
    ensures f.factor == WordCount && f.score == WordCountScore(|post.words|)
    ensures f.detail == WordCountDetail(|post.words|, "1500+ words")
    ensures f.recommendation == (if |post.words| < 1500 then ExpandContent else GoodWordCount)
  {
    var n := |post.words|;
    FactorScore(WordCount, WordCountScore(n), if n < 1500 then ExpandContent else GoodWordCount,
                WordCountDetail(n, "1500+ words"))
  }

  // ----------------------------------------------------------------- structure

  /** 100 with 3+ H2, 5+ H3 and 5+ paragraphs; 80 with the H2s and the
      paragraphs only; 60 with one of those two; 30 otherwise. */
  function StructureScore(h2: nat, h3: nat, paragraphs: nat): (score: int)
    ensures h2 >= 3 && h3 >= 5 && paragraphs >= 5 ==> score == 100
    ensures h2 >= 3 && h3 < 5 && paragraphs >= 5 ==> score == 80
    ensures (h2 >= 3) != (paragraphs >= 5) ==> score == 60
    ensures h2 < 3 && paragraphs < 5 ==> score == 30
  {
    var hasH2, hasH3, hasParagraphs := h2 >= 3, h3 >= 5, paragraphs >= 5;
    if hasH2 && hasH3 && hasParagraphs then 100
    else if hasH2 && hasParagraphs then 80
    else if hasH2 || hasParagraphs then 60
    else 30
  }

  /** More headings or paragraphs never lower the structure score. */
  lemma StructureScoreMonotone(h2: nat, h3: nat, p: nat, h2': nat, h3': nat, p': nat)
    requires h2 <= h2' && h3 <= h3' && p <= p'
    ensures 30 <= StructureScore(h2, h3, p) <= StructureScore(h2', h3', p') <= 100
  {
  }

  /** analyze_structure: counts of '<h2', '<h3' and '<p' (non-overlapping),
      whether a list occurs (reported, never scored), the score of the
      counts, and 'Good structure' exactly when there are 3+ H2 and 5+ H3. */
  function AnalyzeStructure(content: string): (f: FactorScore)
    ensures f.factor == Structure
    ensures f.detail == StructureDetail(SubstrCount(content, "<h2"), SubstrCount(content, "<h3"),
                                        SubstrCount(content, "<p"), Contains(content, "<ul>") || Contains(content, "<ol>"))
    ensures f.score == StructureScore(f.detail.h2Count, f.detail.h3Count, f.detail.paragraphCount)
    ensures f.recommendation == (if f.detail.h2Count >= 3 && f.detail.h3Count >= 5 then GoodStructure else AddSubheadings)
  {
    var h2, h3 := SubstrCount(content, "<h2"), SubstrCount(content, "<h3");
    var paragraphs := SubstrCount(content, "<p");
    var hasLists := Contains(content, "<ul>") || Contains(content, "<ol>");
    FactorScore(Structure, StructureScore(h2, h3, paragraphs),
                if h2 >= 3 && h3 >= 5 then GoodStructure else AddSubheadings,
                StructureDetail(h2, h3, paragraphs, hasLists))
  }

  /** 'Good structure' can be given with a score below 80, so it can end up
      among the recommendations. */
  lemma GoodStructureBelow80(content: string)
    requires SubstrCount(content, "<h2") == 3 && SubstrCount(content, "<h3") == 5 && SubstrCount(content, "<p") == 0
    ensures AnalyzeStructure(content).recommendation == GoodStructure
    ensures AnalyzeStructure(content).score == 60
  {
  }

  // --------------------------------------------------------------------- links

  /** An href containing the home URL is internal. */
  predicate IsInternal(url: string, home: string) {
    Contains(url, home)
  }

  /** Otherwise an href starting with 'http' is external; anything else
      (relative links, anchors, mailto:) is not counted. */
  predicate IsExternal(url: string, home: string) {
    !Contains(url, home) && StartsWith(url, "http")
  }

  function InternalCount(hrefs: seq<string>, home: string): nat {
    if hrefs == [] then 0
    else InternalCount(hrefs[..|hrefs| - 1], home) + (if IsInternal(hrefs[|hrefs| - 1], home) then 1 else 0)
  }

  function ExternalCount(hrefs: seq<string>, home: string): nat {
    if hrefs == [] then 0
    else ExternalCount(hrefs[..|hrefs| - 1], home) + (if IsExternal(hrefs[|hrefs| - 1], home) then 1 else 0)
  }

  /** No href is counted twice. */
  lemma {:induction false} LinkCountsBounded(hrefs: seq<string>, home: string)
    ensures InternalCount(hrefs, home) + ExternalCount(hrefs, home) <= |hrefs|
  {
    if hrefs != [] {
      LinkCountsBounded(hrefs[..|hrefs| - 1], home);
    }
  }

  /** 100 with 10+ links of which 3+ internal; 80 with 5+ links of which 2+
      internal; 60 with 3+ links; 30 otherwise. */
  function LinksScore(total: nat, internal: nat): (score: int)
    ensures total >= 10 && internal >= 3 ==> score == 100
    ensures !(total >= 10 && internal >= 3) && total >= 5 && internal >= 2 ==> score == 80
    ensures !(total >= 5 && internal >= 2) && total >= 3 ==> score == 60
    ensures total < 3 ==> score == 30
  {
    if total >= 10 && internal >= 3 then 100
    else if total >= 5 && internal >= 2 then 80
    else if total >= 3 then 60
    else 30
  }

  lemma LinksScoreMonotone(total: nat, internal: nat, total': nat, internal': nat)
    requires total <= total' && internal <= internal'
    ensures 30 <= LinksScore(total, internal) <= LinksScore(total', internal') <= 100
  {
  }

  /** What analyze_links reports for these hrefs. */
  function LinksFactor(hrefs: seq<string>, home: string): (f: FactorScore)
    ensures f.factor == Links
    ensures f.detail == LinksDetail(InternalCount(hrefs, home), ExternalCount(hrefs, home),
                                    InternalCount(hrefs, home) + ExternalCount(hrefs, home))
    ensures f.detail.total <= |hrefs|
    ensures f.score == LinksScore(f.detail.total, f.detail.internal)
    ensures f.recommendation == (if f.detail.internal >= 3 then GoodLinking else AddInternalLinks)
  {
    var internal, external := InternalCount(hrefs, home), ExternalCount(hrefs, home);
    LinkCountsBounded(hrefs, home);
    FactorScore(Links, LinksScore(internal + external, internal),
                if internal < 3 then AddInternalLinks else GoodLinking,
                LinksDetail(internal, external, internal + external))
  }

  /** analyze_links: classifies the hrefs one by one. */
  method AnalyzeLinks(hrefs: seq<string>, home: string) returns (f: FactorScore)
    ensures f == LinksFactor(hrefs, home)
  {
    var internal, external := 0, 0;
    for i := 0 to |hrefs|
      invariant internal == InternalCount(hrefs[..i], home)
      invariant external == ExternalCount(hrefs[..i], home)
    {
      assert hrefs[..i + 1][..i] == hrefs[..i];
      if Contains(hrefs[i], home) {
        internal := internal + 1;
      } else if StartsWith(hrefs[i], "http") {
        external := external + 1;
      }
    }
    assert hrefs[..|hrefs|] == hrefs;
    var total := internal + external;
    var score := if total >= 10 && internal >= 3 then 100
                 else if total >= 5 && internal >= 2 then 80
                 else if total >= 3 then 60
                 else 30;
    f := FactorScore(Links, score, if internal < 3 then AddInternalLinks else GoodLinking,
                     LinksDetail(internal, external, total));
  }

  /** 'Good linking strategy' can be given with a score below 80: three
      internal links and nothing else score 60. */
  lemma GoodLinkingBelow80(home: string)
    ensures var f := LinksFactor([home, home, home], home);
            f.recommendation == GoodLinking && f.score == 60
  {
    var hrefs := [home, home, home];
    assert StartsWith(home, home);
    assert hrefs[..2][..1] == [home] && [home][..0] == [];
    assert InternalCount(hrefs[..1], home) == 1;
    assert InternalCount(hrefs[..2], home) == 2;
    assert Contains(home, home);
    assert ExternalCount(hrefs[..1], home) == 0;
    assert ExternalCount(hrefs[..2], home) == 0;
  }

  // -------------------------------------------------------------------- topics

  /** The words analyze_topics never counts as topics (verbatim: the
      capitalised 'I' can never match a lower-cased word). */
  const CommonWords: seq<string> := [
    "the", "and", "to", "of", "a", "in", "is", "it", "you", "that", "was", "for", "on", "are", "with",
    "as", "I", "his", "they", "at", "be", "this", "have", "from", "or", "one", "had", "by", "word",
    "but", "not", "what", "all", "were", "we", "when", "your", "can", "said", "there", "use", "an",
    "each", "which", "she", "do", "how", "their", "if", "will", "up", "other", "about", "out", "many",
    "then", "them", "these", "so", "some", "her", "would", "make", "like", "him", "into", "time", "has",
    "look", "two", "more", "write", "go", "see", "number", "no", "way", "could", "people", "my", "than",
    "first", "water", "been", "call", "who", "oil", "its", "now", "find", "long", "down", "day", "did",
    "get", "come", "made", "may", "part"]

  /** array_map('strtolower', $words). */
  function Lowered(words: seq<string>): (r: seq<string>)
    ensures |r| == |words|
    ensures forall i :: 0 <= i < |r| ==> r[i] == ToLower(words[i]) && IsLower(r[i])
  {
    seq(|words|, i requires 0 <= i < |words| => ToLower(words[i]))
  }

  /** A counted word that is a topic: 3+ occurrences, not a common word,
      more than 3 characters. */
  predicate IsTopicEntry(e: (string, nat)) {
    e.1 >= 3 && e.0 !in CommonWords && |e.0| > 3
  }

  /** The topic words with their counts, in order of first occurrence. */
  function TopicWords(words: seq<string>): seq<(string, nat)> {
    Filter(Tally(Lowered(words)), IsTopicEntry)
  }

  /** 100, 80, 60 or 40 from 10, 7 and 5 topic words up. */
  function TopicsScore(count: nat): (score: int)
    ensures count >= 10 ==> score == 100
    ensures 7 <= count < 10 ==> score == 80
    ensures 5 <= count < 7 ==> score == 60
    ensures count < 5 ==> score == 40
  {
    if count >= 10 then 100 else if count >= 7 then 80 else if count >= 5 then 60 else 40
  }

  lemma TopicsScoreMonotone(a: nat, b: nat)
    requires a <= b
    ensures 40 <= TopicsScore(a) <= TopicsScore(b) <= 100
  {
  }

  /** What analyze_topics reports: the number of topic words, the first
      five of them (first-occurrence order, not frequency order), the score
      of the number, and the advice to expand exactly below 7 topics. */
  function TopicsFactor(words: seq<string>): (f: FactorScore)
    ensures f.factor == Topics
    ensures f.detail == TopicsDetail(|TopicWords(words)|, Slice(Keys(TopicWords(words)), 5))
    ensures |f.detail.mainTopics| <= 5
    ensures f.score == TopicsScore(|TopicWords(words)|)
    ensures f.recommendation == (if |TopicWords(words)| < 7 then ExpandTopics else GoodTopics)
  {
    var topics := TopicWords(words);
    FactorScore(Topics, TopicsScore(|topics|), if |topics| < 7 then ExpandTopics else GoodTopics,
                TopicsDetail(|topics|, Slice(Keys(topics), 5)))
  }

  /** The loop over array_count_values that keeps the entries `keep`
      accepts. */
  method KeepEntries(counts: seq<(string, nat)>, keep: ((string, nat)) -> bool)
    returns (kept: seq<(string, nat)>)
    ensures kept == Filter(counts, keep)
  {
    kept := [];
    for i := 0 to |counts|
      invariant kept == Filter(counts[..i], keep)
    {
      FilterStep(counts, i, keep);
      if keep(counts[i]) {
        kept := kept + [counts[i]];
      }
    }
    assert counts[..|counts|] == counts;
  }

  /** analyze_topics. */
  method AnalyzeTopics(words: seq<string>) returns (f: FactorScore)
    ensures f == TopicsFactor(words)
  {
    var topics := KeepEntries(Tally(Lowered(words)), IsTopicEntry);
    var count := |topics|;
    var score := if count >= 10 then 100 else if count >= 7 then 80 else if count >= 5 then 60 else 40;
    f := FactorScore(Topics, score, if count < 7 then ExpandTopics else GoodTopics,
                     TopicsDetail(count, Slice(Keys(topics), 5)));
  }

  /** The topic words are the distinct lower-cased words, in order of first
      occurrence, whose count passes the topic test. */
  lemma TopicsInFirstOccurrenceOrder(words: seq<string>)
    ensures Keys(TopicWords(words)) == Filter(Distinct(Lowered(words)), CountTest(Lowered(words), IsTopicEntry))
  {
    KeysOfFilteredTally(Lowered(words), IsTopicEntry);
  }

  /** A word is a topic exactly when its lower-cased form occurs 3+ times,
      is not a common word and is longer than 3 characters. */
  lemma TopicWordIff(words: seq<string>, w: string)
    ensures w in Keys(TopicWords(words)) <==>
            Occurrences(Lowered(words), w) >= 3 && w !in CommonWords && |w| > 3
  {
    var lw := Lowered(words);
    FilteredTallyMember(lw, IsTopicEntry, w);
    OccurrencesPositive(lw, w);
  }

  // --------------------------------------------------------- comprehensiveness

  /** analyze_comprehensiveness: the handler's assessment, or 50 when it
      reports an error (which the handler modelled here never does). */
  function ComprehensivenessFactor(result: Result<Assessment>): (f: FactorScore)
    ensures f.factor == Comprehensiveness
    ensures result.Err? ==> f == FactorScore(Comprehensiveness, 50, AddDepth, ComprehensivenessDetail("AI analysis unavailable"))
    ensures result.Ok? ==> f.score == result.value.score && f.detail == ComprehensivenessDetail(result.value.explanation)
    ensures result.Ok? ==> f.recommendation == (if f.score >= 80 then Excellent else AddExamples)
  {
    match result
    case Err(_, _) => FactorScore(Comprehensiveness, 50, AddDepth, ComprehensivenessDetail("AI analysis unavailable"))
    case Ok(a) => FactorScore(Comprehensiveness, a.score, if a.score >= 80 then Excellent else AddExamples,
                              ComprehensivenessDetail(a.explanation))
  }

  // --------------------------------------------------------------- aggregation

  /** Σ score × weight over the factors: the PHP total times 100, which
      round(..., 2) leaves exact. */
  function WeightedSum(factors: seq<FactorScore>): int {
    if factors == [] then 0
    else
      var last := factors[|factors| - 1];
      WeightedSum(factors[..|factors| - 1]) + last.score * Weight(last.factor)
  }

  /** The advice a factor contributes: its recommendation when it scores
      below 80. */
  function AdviceOf(f: FactorScore): seq<Advice> {
    if f.score < 80 then [f.recommendation] else []
  }

  function Recommendations(factors: seq<FactorScore>): seq<Advice> {
    FlatMap(factors, AdviceOf)
  }

  /** The recommendations are exactly the texts of the factors scoring
      below 80, at most one per factor, in the factors' order. */
  lemma {:induction false} RecommendationsExactly(factors: seq<FactorScore>, r: Advice)
    ensures |Recommendations(factors)| <= |factors|
    ensures r in Recommendations(factors) <==>
            exists i :: 0 <= i < |factors| && factors[i].score < 80 && factors[i].recommendation == r
  {
    if factors != [] {
      var init := factors[..|factors| - 1];
      RecommendationsExactly(init, r);
      assert forall i :: 0 <= i < |init| ==> init[i] == factors[i];
      if r in Recommendations(factors) && r !in Recommendations(init) {
        assert factors[|factors| - 1].score < 80 && factors[|factors| - 1].recommendation == r;
      }
    }
  }

  /** generate_recommendations. */
  method GenerateRecommendations(factors: seq<FactorScore>) returns (recs: seq<Advice>)
    ensures recs == Recommendations(factors)
  {
    recs := [];
    for i := 0 to |factors|
      invariant recs == Recommendations(factors[..i])
    {
      assert factors[..i + 1][..i] == factors[..i];
      if factors[i].score < 80 {
        recs := recs + [factors[i].recommendation];
      }
    }
    assert factors[..|factors|] == factors;
  }

  /** The five factor results of one post, under the names the analysis
      records them by. */
  datatype Factors = Factors(wordCount: FactorScore, structure: FactorScore, links: FactorScore,
                             topics: FactorScore, comprehensiveness: FactorScore)

  /** The factors in the order they are recorded and iterated. */
  function FactorList(fs: Factors): seq<FactorScore> {
    [fs.wordCount, fs.structure, fs.links, fs.topics, fs.comprehensiveness]
  }

  /** The analysis analyze_pillar_potential returns. */
  datatype Analysis = Analysis(postId: int, postTitle: string, isPillar: bool, score: int,
                               factors: Factors, recommendations: seq<Advice>)

  /** The five factor results of a post. */
  function FactorsOf(post: Post, home: string, assessment: Result<Assessment>): (fs: Factors)
    ensures fs.wordCount.factor == WordCount && fs.structure.factor == Structure && fs.links.factor == Links
    ensures fs.topics.factor == Topics && fs.comprehensiveness.factor == Comprehensiveness
  {
    Factors(AnalyzeWordCount(post), AnalyzeStructure(post.content), LinksFactor(post.hrefs, home),
            TopicsFactor(post.words), ComprehensivenessFactor(assessment))
  }

  /** The analysis of a published post given the handler's assessment. */
  function AnalysisOf(postId: int, post: Post, home: string, assessment: Result<Assessment>): (a: Analysis)
    ensures a.postId == postId && a.postTitle == post.title
    ensures a.factors == FactorsOf(post, home, assessment)
    ensures a.score == WeightedSum(FactorList(a.factors)) && (a.isPillar <==> a.score >= 70)
    ensures a.recommendations == Recommendations(FactorList(a.factors))
  {
    var factors := FactorsOf(post, home, assessment);
    var score := WeightedSum(FactorList(factors));
    Analysis(postId, post.title, score >= 70, score, factors, Recommendations(FactorList(factors)))
  }

  /** The handler's comprehensiveness assessment of a post's content under
      these settings and this network. */
  function Assessor(settings: map<string, Value>, net: Network): string -> Assessment {
    content => AnalyzeComprehensiveness(settings, content, net)
  }

  /** What analyze_pillar_potential returns for a post id, with `assess` the
      handler's assessment: 'invalid_post' for a missing or unpublished
      post, the analysis otherwise. */
  function Analyzed(assess: string -> Assessment, site: Site, postId: int): (r: Result<Analysis>)
    ensures r.Err? <==> site.posts(postId).None? || site.posts(postId).value.status != "publish"
    ensures r.Err? ==> r == Err("invalid_post", "Post not found or not published")
    ensures r.Ok? ==> r.value == AnalysisOf(postId, site.posts(postId).value, site.homeUrl,
                                            Ok(assess(site.posts(postId).value.content)))
  {
    match site.posts(postId)
    case None => Err("invalid_post", "Post not found or not published")
    case Some(post) =>
      if post.status != "publish" then Err("invalid_post", "Post not found or not published")
      else Ok(AnalysisOf(postId, post, site.homeUrl, Ok(assess(post.content))))
  }

  /** The weighted sum over the listed factors, written out. */
  lemma WeightedTotal(fs: Factors)
    ensures WeightedSum(FactorList(fs)) ==
              fs.wordCount.score * Weight(fs.wordCount.factor) + fs.structure.score * Weight(fs.structure.factor)
              + fs.links.score * Weight(fs.links.factor) + fs.topics.score * Weight(fs.topics.factor)
              + fs.comprehensiveness.score * Weight(fs.comprehensiveness.factor)
  {
    var l := FactorList(fs);
    var a, b, c, d := fs.wordCount, fs.structure, fs.links, fs.topics;
    assert [a][..0] == [];
    assert WeightedSum([a]) == a.score * Weight(a.factor);
    assert [a, b][..1] == [a];
    assert WeightedSum([a, b]) == WeightedSum([a]) + b.score * Weight(b.factor);
    assert [a, b, c][..2] == [a, b];
    assert WeightedSum([a, b, c]) == WeightedSum([a, b]) + c.score * Weight(c.factor);
    assert [a, b, c, d][..3] == [a, b, c];
    assert WeightedSum([a, b, c, d]) == WeightedSum([a, b, c]) + d.score * Weight(d.factor);
    assert l[..4] == [a, b, c, d];
  }

  /** Each factor's score lies between its minimum (20, 30, 30, 40 and 0) and
      100. */
  lemma FactorBounds(post: Post, home: string, assessment: Result<Assessment>)
    ensures var fs := FactorsOf(post, home, assessment);
            20 <= fs.wordCount.score <= 100 && 30 <= fs.structure.score <= 100 &&
            30 <= fs.links.score <= 100 && 40 <= fs.topics.score <= 100 &&
            0 <= fs.comprehensiveness.score <= 100
  {
    var fs := FactorsOf(post, home, assessment);
    WordCountScoreMonotone(0, |post.words|);
    var st := fs.structure.detail;
    StructureScoreMonotone(0, 0, 0, st.h2Count, st.h3Count, st.paragraphCount);
    var ln := fs.links.detail;
    LinksScoreMonotone(0, 0, ln.total, ln.internal);
    TopicsScoreMonotone(0, |TopicWords(post.words)|);
  }

  /** Factor scores within those bounds give a weighted score within
      [2200, 10000]. */
  lemma WeightedBounds(fs: Factors)
    requires fs.wordCount.factor == WordCount && fs.structure.factor == Structure && fs.links.factor == Links
    requires fs.topics.factor == Topics && fs.comprehensiveness.factor == Comprehensiveness
    requires 20 <= fs.wordCount.score <= 100 && 30 <= fs.structure.score <= 100
    requires 30 <= fs.links.score <= 100 && 40 <= fs.topics.score <= 100
    requires 0 <= fs.comprehensiveness.score <= 100
    ensures 2200 <= WeightedSum(FactorList(fs)) <= 10000
  {
    WeightedTotal(fs);
  }

  /** So the weighted score lies in [2200, 10000]: it always clears the
      pillar threshold of 70. */
  lemma ScoreBounds(postId: int, post: Post, home: string, assessment: Result<Assessment>)
    ensures 2200 <= AnalysisOf(postId, post, home, assessment).score <= 10000
    ensures AnalysisOf(postId, post, home, assessment).isPillar
  {
    FactorBounds(post, home, assessment);
    WeightedBounds(FactorsOf(post, home, assessment));
  }

  /** So every post analyze_pillar_potential accepts is a pillar. */
  lemma EveryAnalyzedPostIsPillar(assess: string -> Assessment, site: Site, postId: int)
    ensures Analyzed(assess, site, postId).Ok? ==>
              Analyzed(assess, site, postId).value.isPillar &&
              2200 <= Analyzed(assess, site, postId).value.score <= 10000
  {
    if Analyzed(assess, site, postId).Ok? {
      var post := site.posts(postId).value;
      ScoreBounds(postId, post, site.homeUrl, Ok(assess(post.content)));
    }
  }

  /** The loop of analyze_pillar_potential that totals the weighted scores. */
  method TotalScore(factors: seq<FactorScore>) returns (total: int)
    ensures total == WeightedSum(factors)
  {
    total := 0;
    for i := 0 to |factors|
      invariant total == WeightedSum(factors[..i])
    {
      assert factors[..i + 1][..i] == factors[..i];
      total := total + factors[i].score * Weight(factors[i].factor);
    }
    assert factors[..|factors|] == factors;
  }

  /** analyze_pillar_potential: scores each factor, totals the weighted
      scores and collects the advice. */
  method AnalyzePillarPotential(api: Handler, site: Site, net: Network, postId: int)
    returns (r: Result<Analysis>)
    ensures r == Analyzed(Assessor(api.settings, net), site, postId)
  {
    var found := site.posts(postId);
    if found.None? || found.value.status != "publish" {
      return Err("invalid_post", "Post not found or not published");
    }
    var post := found.value;
    var links := AnalyzeLinks(post.hrefs, site.homeUrl);
    var topics := AnalyzeTopics(post.words);
    var assessment := Ok(AnalyzeComprehensiveness(api.settings, post.content, net));
    var factors := Factors(AnalyzeWordCount(post), AnalyzeStructure(post.content), links, topics,
                           ComprehensivenessFactor(assessment));
    assert factors == FactorsOf(post, site.homeUrl, assessment);
    var list := FactorList(factors);
    var total := TotalScore(list);
    var recommendations := GenerateRecommendations(list);
    r := Ok(Analysis(postId, post.title, total >= 70, total, factors, recommendations));
    assert r.value == AnalysisOf(postId, post, site.homeUrl, assessment);
  }

  // ------------------------------------------------------ pillars across posts

  datatype PillarEntry = PillarEntry(postId: int, title: string, score: int)

  function EntryScore(e: PillarEntry): int {
    e.score
  }

  /** The entry find_pillar_posts records for one id: one when its analysis
      succeeds and is a pillar, none otherwise. */
  function PillarEntryFor(assess: string -> Assessment, site: Site, id: int): (r: seq<PillarEntry>)
    ensures |r| <= 1
    ensures r != [] <==> Analyzed(assess, site, id).Ok? && Analyzed(assess, site, id).value.isPillar
    ensures r != [] ==> r == [PillarEntry(id, Analyzed(assess, site, id).value.postTitle,
                                          Analyzed(assess, site, id).value.score)]
  {
    var a := Analyzed(assess, site, id);
    if a.Ok? && a.value.isPillar then [PillarEntry(id, a.value.postTitle, a.value.score)] else []
  }

  /** The pillar entries of the ids, in the order of the ids. */
  function PillarEntries(assess: string -> Assessment, site: Site, ids: seq<int>): seq<PillarEntry> {
    FlatMap(ids, id => PillarEntryFor(assess, site, id))
  }

  /** Every entry is the entry of one of the ids, each id contributing
      at most one. */
  lemma PillarEntriesAreAnalyses(assess: string -> Assessment, site: Site, ids: seq<int>)
    ensures |PillarEntries(assess, site, ids)| <= |ids|
    ensures forall e :: e in PillarEntries(assess, site, ids) <==>
              e.postId in ids && PillarEntryFor(assess, site, e.postId) == [e]
  {
    FlatMapOfSingles(ids, id => PillarEntryFor(assess, site, id), (e: PillarEntry) => e.postId);
  }

  /** The loop of find_pillar_posts over the published posts. */
  method CollectPillars(api: Handler, site: Site, net: Network, ids: seq<int>) returns (entries: seq<PillarEntry>)
    ensures entries == PillarEntries(Assessor(api.settings, net), site, ids)
  {
    ghost var assess := Assessor(api.settings, net);
    entries := [];
    for i := 0 to |ids|
      invariant entries == PillarEntries(assess, site, ids[..i])
    {
      FlatMapStep(ids, i, id => PillarEntryFor(assess, site, id));
      var a := AnalyzePillarPotential(api, site, net, ids[i]);
      if a.Ok? && a.value.isPillar {
        entries := entries + [PillarEntry(ids[i], a.value.postTitle, a.value.score)];
      }
    }
    assert ids[..|ids|] == ids;
  }

  /** find_pillar_posts: the pillar entries of all published posts, by
      descending score (ties keep post order), at most `limit` of them. */
  method FindPillarPosts(api: Handler, site: Site, net: Network, limit: int) returns (top: seq<PillarEntry>)
    ensures top == Slice(SortDesc(PillarEntries(Assessor(api.settings, net), site, site.publishedIds), EntryScore), limit)
    ensures SortedDesc(top, EntryScore)
    ensures limit >= 0 ==> |top| <= limit
    ensures forall e :: e in top ==> e in PillarEntries(Assessor(api.settings, net), site, site.publishedIds)
  {
    var entries := CollectPillars(api, site, net, site.publishedIds);
    var sorted := SortDesc(entries, EntryScore);
    top := Slice(sorted, limit);
    forall e | e in top ensures e in entries {
      assert e in multiset(sorted);
    }
  }

  // ------------------------------------------------------------- bulk analysis

  /** The result bulk_analyze keeps for one id: its analysis when it
      succeeds, nothing otherwise. */
  function BulkItem(assess: string -> Assessment, site: Site, id: int): (r: seq<Analysis>)
    ensures r == if Analyzed(assess, site, id).Ok? then [Analyzed(assess, site, id).value] else []
  {
    var a := Analyzed(assess, site, id);
    if a.Ok? then [a.value] else []
  }

  /** The successful analyses of the ids, in the order of the ids. */
  function BulkOf(assess: string -> Assessment, site: Site, ids: seq<int>): seq<Analysis> {
    FlatMap(ids, id => BulkItem(assess, site, id))
  }

  /** Bulk results keep the order of the ids: analysing two lists one after
      the other gives the two result lists one after the other. */
  lemma BulkOfAppend(assess: string -> Assessment, site: Site, a: seq<int>, b: seq<int>)
    ensures BulkOf(assess, site, a + b) == BulkOf(assess, site, a) + BulkOf(assess, site, b)
  {
    FlatMapAppend(a, b, id => BulkItem(assess, site, id));
  }

  /** Failures are dropped: an id gives one result when its analysis
      succeeds and none otherwise. */
  lemma BulkOfSingle(assess: string -> Assessment, site: Site, id: int)
    ensures BulkOf(assess, site, [id]) == BulkItem(assess, site, id)
  {
    var f := i => BulkItem(assess, site, i);
    assert [id][..0] == [];
    assert FlatMap([id], f) == FlatMap([], f) + f(id);
  }

  /** bulk_analyze. */
  method BulkAnalyze(api: Handler, site: Site, net: Network, ids: seq<int>) returns (results: seq<Analysis>)
    ensures results == BulkOf(Assessor(api.settings, net), site, ids)
  {
    ghost var assess := Assessor(api.settings, net);
    results := [];
    for i := 0 to |ids|
      invariant results == BulkOf(assess, site, ids[..i])
    {
      FlatMapStep(ids, i, id => BulkItem(assess, site, id));
      var a := AnalyzePillarPotential(api, site, net, ids[i]);
      if a.Ok? {
        results := results + [a.value];
      }
    }
    assert ids[..|ids|] == ids;
  }

  // ---------------------------------------------------------- related content

  /** A counted word worth suggesting around: 3+ occurrences and more than
      3 characters (no common-word filter here). */
  predicate IsSignificant(e: (string, nat)) {
    e.1 >= 3 && |e.0| > 3
  }

  function CountOf(e: (string, nat)): int {
    e.1
  }

  /** The significant words by descending count (ties in first-occurrence
      order, as arsort keeps them). */
  function RankedWords(words: seq<string>): seq<(string, nat)> {
    SortDesc(Filter(Tally(Lowered(words)), IsSignificant), CountOf)
  }

  /** The main topics get_related_suggestions works from: the three most
      frequent significant words. */
  function MainTopics(words: seq<string>): (topics: seq<string>)
    ensures |topics| == if |RankedWords(words)| < 3 then |RankedWords(words)| else 3
  {
    Slice(Keys(RankedWords(words)), 3)
  }

  /** Each main topic is significant, and no significant word left out is
      more frequent than any main topic. */
  lemma MainTopicsAreTop(words: seq<string>)
    ensures forall i :: 0 <= i < |MainTopics(words)| ==>
              RankedWords(words)[i].0 == MainTopics(words)[i] && IsSignificant(RankedWords(words)[i])
    ensures forall i, j :: 0 <= i < |MainTopics(words)| <= j < |RankedWords(words)| ==>
              RankedWords(words)[i].1 >= RankedWords(words)[j].1
  {
    SortedFilterTop(Tally(Lowered(words)), IsSignificant, CountOf, 3);
  }

  /** The four fallback suggestions for one topic. */
  function TemplatesFor(topic: string): (r: seq<string>)
    ensures |r| == 4
  {
    ["Advanced techniques for " + topic, topic + " best practices",
     "Common mistakes in " + topic, topic + " case studies"]
  }

  /** The fallback suggestions: four per topic, grouped by topic. */
  function Templates(topics: seq<string>): seq<string> {
    FlatMap(topics, TemplatesFor)
  }

  lemma {:induction false} TemplatesGrouped(topics: seq<string>)
    ensures |Templates(topics)| == 4 * |topics|
    ensures forall i, k :: 0 <= i < |topics| && 0 <= k < 4 ==>
              Templates(topics)[4 * i + k] == TemplatesFor(topics[i])[k]
  {
    if topics != [] {
      var init := topics[..|topics| - 1];
      TemplatesGrouped(init);
      forall i, k | 0 <= i < |topics| && 0 <= k < 4
        ensures Templates(topics)[4 * i + k] == TemplatesFor(topics[i])[k]
      {
        if i < |init| {
          assert topics[i] == init[i];
        }
      }
    }
  }

  /** The fallback loop of get_related_suggestions. */
  method BuildTemplates(topics: seq<string>) returns (suggestions: seq<string>)
    ensures suggestions == Templates(topics)
  {
    suggestions := [];
    for i := 0 to |topics|
      invariant suggestions == Templates(topics[..i])
    {
      assert topics[..i + 1][..i] == topics[..i];
      var topic := topics[i];
      suggestions := suggestions + ["Advanced techniques for " + topic];
      suggestions := suggestions + [topic + " best practices"];
      suggestions := suggestions + ["Common mistakes in " + topic];
      suggestions := suggestions + [topic + " case studies"];
    }
    assert topics[..|topics|] == topics;
  }

  /** The result of get_related_suggestions. */
  datatype Suggestions = Suggestions(pillarId: int, pillarTitle: string, topics: seq<string>,
                                     newSuggestions: seq<string>, existingRelated: seq<int>)

  /** What get_related_suggestions returns: 'invalid_post' for a missing or
      unpublished post; otherwise the main topics, the first `limit`
      generated topics (or templates when there are none), and the posts a
      search for the topics finds (no search without topics). */
  function SuggestionsOf(settings: map<string, Value>, site: Site, net: Network, postId: int, limit: int): (r: Result<Suggestions>)
    ensures r.Err? <==> site.posts(postId).None? || site.posts(postId).value.status != "publish"
    ensures r.Err? ==> r == Err("invalid_post", "Post not found or not published")
    ensures r.Ok? ==> r.value.topics == MainTopics(site.posts(postId).value.words) && r.value.pillarId == postId
    ensures r.Ok? && limit >= 0 ==> |r.value.newSuggestions| <= limit
    ensures r.Ok? ==> r.value.pillarTitle == site.posts(postId).value.title
    ensures r.Ok? ==> var related := RelatedTopicsFor(settings, Implode(r.value.topics, ", "), site.publishedTitles, net);
              related != [] ==> r.value.newSuggestions == Slice(related, limit)
    ensures r.Ok? && r.value.topics == [] ==> r.value.existingRelated == []
    ensures r.Ok? && r.value.topics != [] ==> r.value.existingRelated == site.search(Implode(r.value.topics, " "), limit, postId)
  {
    match site.posts(postId)
    case None => Err("invalid_post", "Post not found or not published")
    case Some(post) =>
      if post.status != "publish" then Err("invalid_post", "Post not found or not published")
      else
        var topics := MainTopics(post.words);
        var related := RelatedTopicsFor(settings, Implode(topics, ", "), site.publishedTitles, net);
        var related := if related == [] then Templates(topics) else related;
        var existing := if topics != [] then site.search(Implode(topics, " "), limit, postId) else [];
        Ok(Suggestions(postId, post.title, topics, Slice(related, limit), existing))
  }

  /** When the provider gives no topics, the suggestions are the templates
      for the main topics, grouped by topic. */
  lemma FallbackToTemplates(settings: map<string, Value>, site: Site, net: Network, postId: int, limit: int)
    requires SuggestionsOf(settings, site, net, postId, limit).Ok?
    requires RelatedTopicsFor(settings, Implode(MainTopics(site.posts(postId).value.words), ", "), site.publishedTitles, net) == []
    ensures SuggestionsOf(settings, site, net, postId, limit).value.newSuggestions
            == Slice(Templates(MainTopics(site.posts(postId).value.words)), limit)
  {
  }

  /** get_related_suggestions. */
  method GetRelatedSuggestions(api: Handler, site: Site, net: Network, postId: int, limit: int)
    returns (r: Result<Suggestions>)
    ensures r == SuggestionsOf(api.settings, site, net, postId, limit)
  {
    var found := site.posts(postId);
    if found.None? || found.value.status != "publish" {
      return Err("invalid_post", "Post not found or not published");
    }
    var post := found.value;
    var significant := KeepEntries(Tally(Lowered(post.words)), IsSignificant);
    var topics := Slice(Keys(SortDesc(significant, CountOf)), 3);
    var related := api.GenerateRelatedTopics(Implode(topics, ", "), site.publishedTitles, net);
    if related == [] {
      related := BuildTemplates(topics);
    }
    var existing: seq<int> := [];
    if topics != [] {
      existing := site.search(Implode(topics, " "), limit, postId);
    }
    r := Ok(Suggestions(postId, post.title, topics, Slice(related, limit), existing));
  }
}
