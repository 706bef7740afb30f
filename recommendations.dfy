/**
 * The web app's knowledge lookup and video recommendations: the search-term table
 * with its `videos`/`resources` routing, the choice of recommended videos, the single
 * extracted resource, and the numbered recommendation list.
 */
module Recommendations {
  import opened Wrappers
  import opened Text
  import opened KnowledgeBase

  /** A `KeyError` raised by a `record["key"]` lookup on a record that lacks the key. */
  datatype KeyError = MissingKey(key: string)

  /** The search-term table of the web app, in its dict order. */
  const AppSearchTerms: seq<(string, seq<string>)> := [
    ("forehand", ["strokes", "videos"]),
    ("backhand", ["strokes", "videos"]),
    ("serve", ["strokes", "videos"]),
    ("volley", ["strokes", "videos"]),
    ("strategy", ["strategy", "videos"]),
    ("fitness", ["fitness", "videos"]),
    ("equipment", ["equipment"]),
    ("racquet", ["equipment"]),
    ("string", ["equipment"]),
    ("grip", ["strokes", "equipment"]),
    ("rules", ["resources"]),
    ("drill", ["resources", "videos"]),
    ("drills", ["resources", "videos"]),
    ("coaching", ["resources", "videos"]),
    ("practice", ["resources", "videos"]),
    ("biomechanics", ["resources", "videos"]),
    ("injury", ["resources"]),
    ("conditioning", ["resources", "videos"]),
    ("tactics", ["resources", "videos"]),
    ("doubles", ["strategy", "resources", "videos"]),
    ("tournament", ["resources"]),
    ("scoring", ["resources"]),
    ("tiebreaker", ["resources"]),
    ("footwork", ["videos"]),
    ("movement", ["videos"]),
    ("video", ["videos"]),
    ("videos", ["videos"])
  ]

  /** The categories the knowledge loop never renders. */
  const Routed: seq<string> := ["resources", "videos"]

  // ---------------------------------------------------------------- videos

  /** Whether a video is recommended for a term, with the source's special cases spelled out. */
  function VideoMatches(term: string, v: Video): (m: bool)
    ensures m <==>
      Contains(Lower(v.title.GetOr("")), term) || Contains(Lower(v.category.GetOr("")), term)
      || (term == "volley" && Contains(Lower(v.category.GetOr("")), "net"))
  {
    var title := Lower(v.title.GetOr(""));
    var category := Lower(v.category.GetOr(""));
    Contains(title, term) || Contains(category, term)
    || (term == "drill" && Contains(title, "drill"))
    || (term == "serve" && Contains(title, "serve"))
    || (term == "forehand" && Contains(title, "forehand"))
    || (term == "backhand" && Contains(title, "backhand"))
    || (term == "volley" && (Contains(title, "volley") || Contains(category, "net")))
  }

  /** The videos recommended for one term, in list order. */
  function MatchingVideos(term: string, videos: seq<Video>): seq<Video> {
    if videos == [] then []
    else
      var v := videos[|videos| - 1];
      MatchingVideos(term, videos[..|videos| - 1]) + (if VideoMatches(term, v) then [v] else [])
  }

  /** A video is recommended for a term exactly when it is in the list and matches the term. */
  lemma {:induction false} MatchingVideosMembership(term: string, videos: seq<Video>, v: Video)
    ensures v in MatchingVideos(term, videos) <==> v in videos && VideoMatches(term, v)
  {
    if videos != [] {
      var init := videos[..|videos| - 1];
      MatchingVideosMembership(term, init, v);
      assert videos == init + [videos[|videos| - 1]];
    }
  }

  /** A term that can bring videos: the query holds it and it lists the `videos` category. */
  predicate VideoTerm(queryLower: string, term: (string, seq<string>)) {
    Contains(queryLower, term.0) && "videos" in term.1
  }

  /** The scan over the terms: the matches of the first video term that has any. */
  function VideoScan(queryLower: string, terms: seq<(string, seq<string>)>, videos: seq<Video>): seq<Video> {
    if terms == [] then []
    else
      var found := if VideoTerm(queryLower, terms[0]) then MatchingVideos(terms[0].0, videos) else [];
      if found != [] then found else VideoScan(queryLower, terms[1..], videos)
  }

  /** An empty scan means no video term matched anything, and conversely. */
  lemma {:induction false} VideoScanEmpty(queryLower: string, terms: seq<(string, seq<string>)>, videos: seq<Video>)
    ensures VideoScan(queryLower, terms, videos) == [] <==>
      forall k :: 0 <= k < |terms| && VideoTerm(queryLower, terms[k]) ==> MatchingVideos(terms[k].0, videos) == []
  {
    if terms != [] {
      VideoScanEmpty(queryLower, terms[1..], videos);
      assert forall k :: 1 <= k < |terms| ==> terms[k] == terms[1..][k - 1];
    }
  }

  /**
   * The scan stops at the first term that yields videos: a non-empty result is exactly the
   * matches of one video term, and every earlier video term matched nothing.
   */
  lemma {:induction false} VideoScanSpec(queryLower: string, terms: seq<(string, seq<string>)>, videos: seq<Video>)
    ensures VideoScan(queryLower, terms, videos) != [] ==>
      exists k :: 0 <= k < |terms| && VideoTerm(queryLower, terms[k])
        && VideoScan(queryLower, terms, videos) == MatchingVideos(terms[k].0, videos)
        && forall j :: 0 <= j < k && VideoTerm(queryLower, terms[j]) ==> MatchingVideos(terms[j].0, videos) == []
  {
    if terms != [] && VideoScan(queryLower, terms, videos) != [] {
      if VideoTerm(queryLower, terms[0]) && MatchingVideos(terms[0].0, videos) != [] {
        assert VideoScan(queryLower, terms, videos) == MatchingVideos(terms[0].0, videos);
      } else {
        var rest := terms[1..];
        VideoScanSpec(queryLower, rest, videos);
        assert VideoScan(queryLower, terms, videos) == VideoScan(queryLower, rest, videos);
        var k :| 0 <= k < |rest| && VideoTerm(queryLower, rest[k])
          && VideoScan(queryLower, rest, videos) == MatchingVideos(rest[k].0, videos)
          && forall j :: 0 <= j < k && VideoTerm(queryLower, rest[j]) ==> MatchingVideos(rest[j].0, videos) == [];
        assert terms[k + 1] == rest[k];
        forall j | 0 <= j < k + 1 && VideoTerm(queryLower, terms[j])
          ensures MatchingVideos(terms[j].0, videos) == []
        {
          if j > 0 {
            assert terms[j] == rest[j - 1];
          }
        }
      }
    }
  }

  /** The recommendations before the cut to three: none unless `videos` is present and is a list. */
  function VideoRecommendations(queryLower: string, kb: Kb): seq<Video> {
    match Get(kb, "videos")
    case Some(doc) =>
      (match doc.videoList
       case Some(videos) => VideoScan(queryLower, AppSearchTerms, videos)
       case None => [])
    case None => []
  }

  /** The inner loop of the video scan: the videos of the list that match one term. */
  method MatchVideosLoop(term: string, videos: seq<Video>) returns (found: seq<Video>)
    ensures found == MatchingVideos(term, videos)
  {
    found := [];
    var k := 0;
    while k < |videos|
      invariant 0 <= k <= |videos|
      invariant found == MatchingVideos(term, videos[..k])
    {
      var video := videos[k];
      assert videos[..k + 1][..k] == videos[..k];
      var videoTitle := Lower(video.title.GetOr(""));
      var videoCategory := Lower(video.category.GetOr(""));
      if Contains(videoTitle, term) || Contains(videoCategory, term)
         || (term == "drill" && Contains(videoTitle, "drill"))
         || (term == "serve" && Contains(videoTitle, "serve"))
         || (term == "forehand" && Contains(videoTitle, "forehand"))
         || (term == "backhand" && Contains(videoTitle, "backhand"))
         || (term == "volley" && (Contains(videoTitle, "volley") || Contains(videoCategory, "net")))
      {
        found := found + [video];
      } else {
        assert found + [] == found;
      }
      k := k + 1;
    }
    assert videos[..|videos|] == videos;
  }

  /** The outer loop of the video scan: stops after the first term whose inner loop found videos. */
  method VideoScanLoop(queryLower: string, terms: seq<(string, seq<string>)>, videos: seq<Video>)
    returns (videoRecommendations: seq<Video>)
    ensures videoRecommendations == VideoScan(queryLower, terms, videos)
  {
    videoRecommendations := [];
    var t := 0;
    while t < |terms|
      invariant 0 <= t <= |terms|
      invariant videoRecommendations == []
      invariant VideoScan(queryLower, terms[t..], videos) == VideoScan(queryLower, terms, videos)
    {
      var term, categories := terms[t].0, terms[t].1;
      assert terms[t..][1..] == terms[t + 1..];
      if Contains(queryLower, term) && "videos" in categories {
        videoRecommendations := MatchVideosLoop(term, videos);
        if videoRecommendations != [] {
          break;
        }
      }
      t := t + 1;
    }
  }

  // ---------------------------------------------------------------- resources

  /** `resource.get('extracted_content')` is truthy. */
  predicate HasExtract(r: Resource) {
    r.extractedContent.Some? && r.extractedContent.value != ""
  }

  /** The lower-cased text a resource is matched against: title, key topics and extract. */
  function ResourceContent(r: Resource): string {
    Lower(r.title.GetOr("") + " " + r.keyTopics.GetOr("") + " " + r.extractedContent.GetOr(""))
  }

  /** `any(term in content for term in words)`. */
  predicate AnyWordIn(words: seq<string>, content: string) {
    exists w | w in words :: Contains(content, w)
  }

  /** A resource is picked when it has an extract and its content holds one of the query's words. */
  predicate ResourceMatches(queryLower: string, r: Resource) {
    HasExtract(r) && AnyWordIn(Words(queryLower), ResourceContent(r))
  }

  /** The first resource that has an extract and shares a word with the query. */
  function FirstResource(queryLower: string, resources: seq<Resource>): (r: Option<nat>)
    ensures r.Some? ==> r.value < |resources| && ResourceMatches(queryLower, resources[r.value])
    ensures forall j :: 0 <= j < |resources| && (r.None? || j < r.value) ==> !ResourceMatches(queryLower, resources[j])
  {
    if resources == [] then None
    else if ResourceMatches(queryLower, resources[0]) then Some(0)
    else
      var r := FirstResource(queryLower, resources[1..]);
      assert forall j :: 1 <= j < |resources| ==> resources[j] == resources[1..][j - 1];
      if r.Some? then Some(r.value + 1) else None
  }

  /** The lines one resource adds: its upper-cased title as a header, then its extract. */
  function ResourceBlock(r: Resource): (lines: Result<seq<string>, KeyError>)
    requires HasExtract(r)
  {
    match r.title
    case None => Err(MissingKey("Title"))
    case Some(title) => Ok(["\n--- " + Upper(title) + " ---", r.extractedContent.value])
  }

  /** The resource part of `relevant_info`: at most one block, and a `KeyError` for a matched resource without a title. */
  function ResourceLines(queryLower: string, kb: Kb): (lines: Result<seq<string>, KeyError>)
    ensures lines.Ok? ==> |lines.value| <= 2
  {
    match Get(kb, "resources")
    case Some(doc) =>
      (match doc.tennisResources
       case Some(resources) =>
         (match FirstResource(queryLower, resources)
          case Some(i) => ResourceBlock(resources[i])
          case None => Ok([]))
       case None => Ok([]))
    case None => Ok([])
  }

  /** The resource loop: the first matching resource's block, then stop. */
  method ResourceLoop(queryLower: string, resources: seq<Resource>) returns (lines: Result<seq<string>, KeyError>)
    ensures lines == (match FirstResource(queryLower, resources)
                      case Some(i) => ResourceBlock(resources[i])
                      case None => Ok([]))
  {
    var words := Words(queryLower);
    var k := 0;
    while k < |resources|
      invariant 0 <= k <= |resources|
      invariant forall j :: 0 <= j < k ==> !ResourceMatches(queryLower, resources[j])
    {
      var resource := resources[k];
      if resource.extractedContent.Some? && resource.extractedContent.value != "" {
        var resourceContent := Lower(resource.title.GetOr("") + " " + resource.keyTopics.GetOr("") + " "
                                     + resource.extractedContent.GetOr(""));
        if exists w | w in words :: Contains(resourceContent, w) {
          assert ResourceMatches(queryLower, resource);
          FirstResourceIs(queryLower, resources, k);
          if resource.title.None? {
            return Err(MissingKey("Title"));
          }
          return Ok(["\n--- " + Upper(resource.title.value) + " ---", resource.extractedContent.value]);
        }
      }
      assert !ResourceMatches(queryLower, resource);
      k := k + 1;
    }
    FirstResourceNone(queryLower, resources);
    lines := Ok([]);
  }

  lemma FirstResourceIs(queryLower: string, resources: seq<Resource>, k: nat)
    requires k < |resources| && ResourceMatches(queryLower, resources[k])
    requires forall j :: 0 <= j < k ==> !ResourceMatches(queryLower, resources[j])
    ensures FirstResource(queryLower, resources) == Some(k)
  {
  }

  lemma FirstResourceNone(queryLower: string, resources: seq<Resource>)
    requires forall j :: 0 <= j < |resources| ==> !ResourceMatches(queryLower, resources[j])
    ensures FirstResource(queryLower, resources) == None
  {
  }

  // ---------------------------------------------------------------- the whole lookup

  /**
   * `get_relevant_knowledge` of the web app: the knowledge text (the first 3000 list
   * entries joined by newlines) and at most three recommended videos, or the `KeyError`
   * of a matched resource without a title.
   */
  function AppKnowledge(query: string, kb: Kb): (r: Result<(string, seq<Video>), KeyError>)
    ensures r.Ok? ==> |r.value.1| <= 3
  {
    var queryLower := Lower(query);
    var info := Render(TermSections(queryLower, AppSearchTerms, kb, Routed));
    var videos := VideoRecommendations(queryLower, kb);
    match ResourceLines(queryLower, kb)
    case Err(e) => Err(e)
    case Ok(lines) => Ok((Join("\n", Take(info + lines, 3000)), Take(videos, 3)))
  }

  /** The three loops of the web app's `get_relevant_knowledge`, then the two cuts. */
  method GetRelevantKnowledge(query: string, kb: Kb) returns (r: Result<(string, seq<Video>), KeyError>)
    ensures r == AppKnowledge(query, kb)
  {
    var queryLower := Lower(query);
    var relevantInfo := SearchTermLoop(queryLower, AppSearchTerms, kb, Routed);
    var videoRecommendations: seq<Video> := [];
    var videosData := Get(kb, "videos");
    if videosData.Some? && videosData.value.videoList.Some? {
      videoRecommendations := VideoScanLoop(queryLower, AppSearchTerms, videosData.value.videoList.value);
    }
    var resourcesData := Get(kb, "resources");
    if resourcesData.Some? && resourcesData.value.tennisResources.Some? {
      var lines := ResourceLoop(queryLower, resourcesData.value.tennisResources.value);
      if lines.Err? {
        return Err(lines.error);
      }
      relevantInfo := relevantInfo + lines.value;
    } else {
      assert relevantInfo + [] == relevantInfo;
    }
    r := Ok((Join("\n", Take(relevantInfo, 3000)), Take(videoRecommendations, 3)));
  }

  /** The knowledge list never holds more than 56 entries, so cutting it at 3000 changes nothing. */
  lemma KnowledgeCutIsNoOp(queryLower: string, kb: Kb)
    ensures var info := Render(TermSections(queryLower, AppSearchTerms, kb, Routed));
      ResourceLines(queryLower, kb).Ok? ==>
        |info + ResourceLines(queryLower, kb).value| <= 56
        && Take(info + ResourceLines(queryLower, kb).value, 3000) == info + ResourceLines(queryLower, kb).value
  {
    TermSectionsSpec(queryLower, AppSearchTerms, kb, Routed);
  }

  /** The knowledge loop never renders the `resources` or `videos` category, and adds at most one category per term. */
  lemma KnowledgeSkipsRouted(queryLower: string, kb: Kb)
    ensures |TermSections(queryLower, AppSearchTerms, kb, Routed)| <= |AppSearchTerms|
    ensures forall s :: s in TermSections(queryLower, AppSearchTerms, kb, Routed) ==>
      s.category != "resources" && s.category != "videos" && HasCategory(kb, s.category)
  {
    TermSectionsSpec(queryLower, AppSearchTerms, kb, Routed);
  }

  // ---------------------------------------------------------------- formatting

  /** One recommendation line: number, camera emoji, bold stripped title, link. */
  function RecommendationLine(number: nat, title: string, url: string): string {
    NatToString(number) + ". \U{1F4F9} **" + Strip(title) + "** - [Watch Here](" + url + ")"
  }

  /** The numbered lines, from 1 (used only once every video is known to have a title and a url). */
  function RecommendationLines(videos: seq<Video>): seq<string> {
    if videos == [] then []
    else
      var v := videos[|videos| - 1];
      RecommendationLines(videos[..|videos| - 1]) + [RecommendationLine(|videos|, v.title.GetOr(""), v.url.GetOr(""))]
  }

  /** The first video lacking `title` or `url` raises, `title` being read first. */
  function FirstMissingKey(videos: seq<Video>): (r: Option<KeyError>)
    ensures r.None? <==> forall k :: 0 <= k < |videos| ==> videos[k].title.Some? && videos[k].url.Some?
  {
    if videos == [] then None
    else if videos[0].title.None? then Some(MissingKey("title"))
    else if videos[0].url.None? then Some(MissingKey("url"))
    else
      var r := FirstMissingKey(videos[1..]);
      assert forall k :: 1 <= k < |videos| ==> videos[k] == videos[1..][k - 1];
      r
  }

  /** `format_video_recommendations`: the lines joined by blank lines. */
  function FormattedRecommendations(videos: seq<Video>): Result<string, KeyError> {
    match FirstMissingKey(videos)
    case Some(e) => Err(e)
    case None => Ok(Join("\n\n", RecommendationLines(videos)))
  }

  /** A recommendation line opens with its number and holds its link in parentheses. */
  lemma RecommendationLineShape(number: nat, title: string, url: string)
    ensures StartsWith(RecommendationLine(number, title, url), NatToString(number) + ". ")
    ensures Contains(RecommendationLine(number, title, url), "(" + url + ")")
  {
    var middle := "\U{1F4F9} **" + Strip(title) + "** - [Watch Here]";
    assert RecommendationLine(number, title, url) == (NatToString(number) + ". ") + middle + ("(" + url + ")");
    ThreePartShape(NatToString(number) + ". ", middle, "(" + url + ")");
  }

  /** There is one line per video. */
  lemma {:induction false} RecommendationLinesLength(videos: seq<Video>)
    ensures |RecommendationLines(videos)| == |videos|
  {
    if videos != [] {
      RecommendationLinesLength(videos[..|videos| - 1]);
    }
  }

  /** Line k is numbered k + 1 and is made of the k-th video's title and url. */
  lemma {:induction false} RecommendationLinesNumbered(videos: seq<Video>, k: nat)
    requires k < |videos|
    ensures k < |RecommendationLines(videos)|
    ensures RecommendationLines(videos)[k] == RecommendationLine(k + 1, videos[k].title.GetOr(""), videos[k].url.GetOr(""))
  {
    var init := videos[..|videos| - 1];
    RecommendationLinesLength(init);
    if k < |videos| - 1 {
      RecommendationLinesNumbered(init, k);
    }
  }

  /** The first video lacking a key decides which `KeyError` is raised. */
  lemma {:induction false} FirstMissingKeyAt(videos: seq<Video>, i: nat)
    requires i < |videos| && (videos[i].title.None? || videos[i].url.None?)
    requires forall k :: 0 <= k < i ==> videos[k].title.Some? && videos[k].url.Some?
    ensures FirstMissingKey(videos) == Some(MissingKey(if videos[i].title.None? then "title" else "url"))
  {
    if i > 0 {
      assert forall k :: 0 <= k < i - 1 ==> videos[1..][k] == videos[k + 1];
      FirstMissingKeyAt(videos[1..], i - 1);
    }
  }

  /** The loop of `format_video_recommendations`, numbering from 1. */
  method FormatVideoRecommendations(videos: seq<Video>) returns (r: Result<string, KeyError>)
    ensures r == FormattedRecommendations(videos)
  {
    var lines: seq<string> := [];
    var i := 0;
    while i < |videos|
      invariant 0 <= i <= |videos|
      invariant forall k :: 0 <= k < i ==> videos[k].title.Some? && videos[k].url.Some?
      invariant lines == RecommendationLines(videos[..i])
    {
      var v := videos[i];
      if v.title.None? {
        FirstMissingKeyAt(videos, i);
        return Err(MissingKey("title"));
      }
      if v.url.None? {
        FirstMissingKeyAt(videos, i);
        return Err(MissingKey("url"));
      }
      assert videos[..i + 1][..i] == videos[..i];
      lines := lines + [RecommendationLine(i + 1, v.title.value, v.url.value)];
      i := i + 1;
    }
    assert videos[..|videos|] == videos;
    r := Ok(Join("\n\n", lines));
  }
}
