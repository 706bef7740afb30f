/**
 * The in-memory knowledge base both chat front ends search: a Python dict from
 * category name (the JSON file's stem) to that file's parsed JSON value, kept in
 * insertion order. A JSON value is seen only through what the lookups take of it:
 * the text `json.dumps(value, indent=2)` produces, the list of video records when
 * the value is a list, and the `tennis_resources` list when the value has that key.
 */
module KnowledgeBase {
  import opened Wrappers
  import opened Text

  /** A video record; a key missing from the JSON object is `None`. */
  datatype Video = Video(title: Option<string>, url: Option<string>, category: Option<string>)

  /** A resource record of `resources["tennis_resources"]`; a missing key is `None`. */
  datatype Resource = Resource(title: Option<string>, keyTopics: Option<string>, extractedContent: Option<string>)

  datatype Doc = Doc(dump: string, videoList: Option<seq<Video>>, tennisResources: Option<seq<Resource>>)

  datatype Entry = Entry(category: string, doc: Doc)

  /** The dict's items in iteration order. */
  type Kb = seq<Entry>

  /** `category in knowledge_base`. */
  predicate HasCategory(kb: Kb, category: string) {
    exists i | 0 <= i < |kb| :: kb[i].category == category
  }

  /** `knowledge_base[category]` when present: the document stored under that key. */
  function Get(kb: Kb, category: string): (r: Option<Doc>)
    ensures r.Some? <==> HasCategory(kb, category)
    ensures r.Some? ==> exists i | 0 <= i < |kb| :: kb[i].category == category && kb[i].doc == r.value
  {
    if kb == [] then None
    else if kb[0].category == category then Some(kb[0].doc)
    else
      var r := Get(kb[1..], category);
      assert forall i | 1 <= i < |kb| :: kb[i] == kb[1..][i - 1];
      r
  }

  /** One block of found knowledge: a category and its JSON dump. */
  datatype Section = Section(category: string, dump: string)

  function SectionOf(e: Entry): Section {
    Section(e.category, e.doc.dump)
  }

  /** Neither front end's search-term loop takes a category that is missing or that it excludes. */
  predicate Usable(kb: Kb, excluded: seq<string>, category: string) {
    HasCategory(kb, category) && category !in excluded
  }

  function Header(category: string): string {
    "\n--- " + Upper(category) + " KNOWLEDGE ---"
  }

  /** The `relevant_info` list the sections amount to: a header line, then the dump, per section. */
  function Render(ss: seq<Section>): (lines: seq<string>)
    ensures |lines| == 2 * |ss|
  {
    if ss == [] then []
    else Render(ss[..|ss| - 1]) + [Header(ss[|ss| - 1].category), ss[|ss| - 1].dump]
  }

  /** The first of `categories` that is a key of the knowledge base and not excluded. */
  function FirstPresent(categories: seq<string>, kb: Kb, excluded: seq<string>): (r: Option<string>)
    ensures r.None? <==> forall j :: 0 <= j < |categories| ==> !Usable(kb, excluded, categories[j])
    ensures r.Some? ==> exists j :: 0 <= j < |categories| && categories[j] == r.value && Usable(kb, excluded, r.value)
                                   && forall k :: 0 <= k < j ==> !Usable(kb, excluded, categories[k])
  {
    if categories == [] then None
    else if Usable(kb, excluded, categories[0]) then Some(categories[0])
    else
      var r := FirstPresent(categories[1..], kb, excluded);
      assert forall j :: 1 <= j < |categories| ==> categories[j] == categories[1..][j - 1];
      r
  }

  /** What one search term contributes: the section of its first category present, if the query holds the term. */
  function TermSection(queryLower: string, term: (string, seq<string>), kb: Kb, excluded: seq<string>): (ss: seq<Section>)
    ensures |ss| <= 1
  {
    if !Contains(queryLower, term.0) then []
    else match FirstPresent(term.1, kb, excluded)
      case None => []
      case Some(c) => [Section(c, Get(kb, c).value.dump)]
  }

  /** The second loop: the term sections, in the table's order. */
  function TermSections(queryLower: string, terms: seq<(string, seq<string>)>, kb: Kb, excluded: seq<string>): (ss: seq<Section>)
    ensures |ss| <= |terms|
  {
    if terms == [] then []
    else TermSections(queryLower, terms[..|terms| - 1], kb, excluded) + TermSection(queryLower, terms[|terms| - 1], kb, excluded)
  }

  lemma RenderSnoc(ss: seq<Section>, s: Section)
    ensures Render(ss + [s]) == Render(ss) + [Header(s.category), s.dump]
  {
    assert (ss + [s])[..|ss|] == ss;
  }

  lemma {:induction false} RenderAppend(a: seq<Section>, b: seq<Section>)
    ensures Render(a + b) == Render(a) + Render(b)
    decreases |b|
  {
    if b == [] {
      assert a + b == a;
    } else {
      var b' := b[..|b| - 1];
      RenderAppend(a, b');
      assert a + b == (a + b') + [b[|b| - 1]];
      RenderSnoc(a + b', b[|b| - 1]);
    }
  }

  /**
   * The search-term loop of `get_relevant_knowledge`: for each term the query holds, the
   * first of its categories that is present and not excluded, header then dump.
   */
  method SearchTermLoop(queryLower: string, terms: seq<(string, seq<string>)>, kb: Kb, excluded: seq<string>)
    returns (relevantInfo: seq<string>)
    ensures relevantInfo == Render(TermSections(queryLower, terms, kb, excluded))
  {
    relevantInfo := [];
    var t := 0;
    while t < |terms|
      invariant 0 <= t <= |terms|
      invariant relevantInfo == Render(TermSections(queryLower, terms[..t], kb, excluded))
    {
      assert terms[..t + 1][..t] == terms[..t];
      var added := TermLoopBody(queryLower, terms[t].0, terms[t].1, kb, excluded);
      RenderAppend(TermSections(queryLower, terms[..t], kb, excluded), TermSection(queryLower, terms[t], kb, excluded));
      relevantInfo := relevantInfo + added;
      t := t + 1;
    }
    assert terms[..|terms|] == terms;
  }

  /** One pass of the search-term loop: if the query holds the term, the first usable category, then stop. */
  method TermLoopBody(queryLower: string, term: string, categories: seq<string>, kb: Kb, excluded: seq<string>)
    returns (added: seq<string>)
    ensures added == Render(TermSection(queryLower, (term, categories), kb, excluded))
  {
    added := [];
    if Contains(queryLower, term) {
      var j := 0;
      while j < |categories|
        invariant 0 <= j <= |categories|
        invariant FirstPresent(categories[j..], kb, excluded) == FirstPresent(categories, kb, excluded)
      {
        var cat := categories[j];
        if HasCategory(kb, cat) && cat !in excluded {
          added := added + ["\n--- " + Upper(cat) + " KNOWLEDGE ---", Get(kb, cat).value.dump];
          break;
        }
        assert categories[j..][1..] == categories[j + 1..];
        j := j + 1;
      }
    }
  }

  /**
   * The search-term loop adds at most one section per term, and each section comes from a
   * term the query holds and is the first usable category of that term, with its dump.
   */
  lemma {:induction false} TermSectionsSpec(queryLower: string, terms: seq<(string, seq<string>)>, kb: Kb, excluded: seq<string>)
    ensures forall s :: s in TermSections(queryLower, terms, kb, excluded) ==>
      && Usable(kb, excluded, s.category)
      && Get(kb, s.category).Some? && s.dump == Get(kb, s.category).value.dump
      && exists k :: 0 <= k < |terms| && Contains(queryLower, terms[k].0)
           && FirstPresent(terms[k].1, kb, excluded) == Some(s.category)
  {
    if terms != [] {
      var init := terms[..|terms| - 1];
      TermSectionsSpec(queryLower, init, kb, excluded);
      assert forall k :: 0 <= k < |init| ==> init[k] == terms[k];
    }
  }

  /** A term the query holds that has a usable category contributes that category's section. */
  lemma {:induction false} TermSectionPresent(queryLower: string, terms: seq<(string, seq<string>)>, kb: Kb, excluded: seq<string>, k: nat)
    requires k < |terms| && Contains(queryLower, terms[k].0) && FirstPresent(terms[k].1, kb, excluded).Some?
    ensures var c := FirstPresent(terms[k].1, kb, excluded).value;
      Section(c, Get(kb, c).value.dump) in TermSections(queryLower, terms, kb, excluded)
  {
    if k < |terms| - 1 {
      TermSectionPresent(queryLower, terms[..|terms| - 1], kb, excluded, k);
    }
  }

  /** With an empty knowledge base the search-term loop finds nothing. */
  lemma {:induction false} NoTermSectionsWithoutKb(queryLower: string, terms: seq<(string, seq<string>)>, excluded: seq<string>)
    ensures TermSections(queryLower, terms, [], excluded) == []
  {
    if terms != [] {
      NoTermSectionsWithoutKb(queryLower, terms[..|terms| - 1], excluded);
    }
  }
}
