/**
 * The console tennis coach: the keyword search over the knowledge base and the
 * conversation history kept across turns. The language-model call is a parameter:
 * a function from the messages sent to either the reply text or the text of the
 * exception it raised.
 */
module CoachChat {
  import opened Wrappers
  import opened Text
  import opened KnowledgeBase

  /** The words that pull in every category, whatever it is called. */
  predicate Mentions(queryLower: string, category: string) {
    Contains(queryLower, category) || Contains(queryLower, "help") || Contains(queryLower, "how")
    || Contains(queryLower, "what") || Contains(queryLower, "technique")
  }

  /** The first loop: one section per knowledge-base entry the query mentions, in dict order. */
  function CategorySections(queryLower: string, kb: Kb): seq<Section> {
    if kb == [] then []
    else
      var e := kb[|kb| - 1];
      CategorySections(queryLower, kb[..|kb| - 1]) + (if Mentions(queryLower, e.category) then [SectionOf(e)] else [])
  }

  /** The search-term table of the console coach, in its dict order. */
  const SearchTerms: seq<(string, seq<string>)> := [
    ("forehand", ["strokes"]),
    ("backhand", ["strokes"]),
    ("serve", ["strokes"]),
    ("volley", ["strokes"]),
    ("strategy", ["strategy"]),
    ("fitness", ["fitness"]),
    ("equipment", ["equipment"]),
    ("racquet", ["equipment"]),
    ("string", ["equipment"]),
    ("grip", ["strokes", "equipment"])
  ]

  function RelevantSections(queryLower: string, kb: Kb): seq<Section> {
    CategorySections(queryLower, kb) + TermSections(queryLower, SearchTerms, kb, [])
  }

  /** The text `get_relevant_knowledge` returns: the first 2000 list entries joined by newlines. */
  function RelevantKnowledge(query: string, kb: Kb): (r: string)
    ensures r == "" <==> RelevantSections(Lower(query), kb) == []
  {
    Join("\n", Take(Render(RelevantSections(Lower(query), kb)), 2000))
  }

  /** `get_relevant_knowledge` of the console coach: two loops appending to `relevant_info`, then the join. */
  method GetRelevantKnowledge(query: string, kb: Kb) returns (r: string)
    ensures r == RelevantKnowledge(query, kb)
  {
    var queryLower := Lower(query);
    var relevantInfo := CategoryLoop(queryLower, kb);
    var termInfo := SearchTermLoop(queryLower, SearchTerms, kb, []);
    RenderAppend(CategorySections(queryLower, kb), TermSections(queryLower, SearchTerms, kb, []));
    relevantInfo := relevantInfo + termInfo;
    r := Join("\n", Take(relevantInfo, 2000));
  }

  /** The first loop of `get_relevant_knowledge`: every entry the query mentions, header then dump. */
  method CategoryLoop(queryLower: string, kb: Kb) returns (relevantInfo: seq<string>)
    ensures relevantInfo == Render(CategorySections(queryLower, kb))
  {
    relevantInfo := [];
    var i := 0;
    while i < |kb|
      invariant 0 <= i <= |kb|
      invariant relevantInfo == Render(CategorySections(queryLower, kb[..i]))
    {
      var category, data := kb[i].category, kb[i].doc;
      assert kb[..i + 1][..i] == kb[..i];
      assert CategorySections(queryLower, kb[..i + 1]) == CategorySections(queryLower, kb[..i])
        + (if Mentions(queryLower, kb[i].category) then [SectionOf(kb[i])] else []);
      if Contains(queryLower, category) || Contains(queryLower, "help") || Contains(queryLower, "how")
         || Contains(queryLower, "what") || Contains(queryLower, "technique")
      {
        RenderSnoc(CategorySections(queryLower, kb[..i]), SectionOf(kb[i]));
        assert Mentions(queryLower, kb[i].category);
        assert Header(category) == "\n--- " + Upper(category) + " KNOWLEDGE ---";
        relevantInfo := relevantInfo + ["\n--- " + Upper(category) + " KNOWLEDGE ---", data.dump];
        assert relevantInfo == Render(CategorySections(queryLower, kb[..i + 1]));
      } else {
        ghost var done := CategorySections(queryLower, kb[..i]);
        assert done + [] == done;
        assert CategorySections(queryLower, kb[..i + 1]) == done;
      }
      i := i + 1;
    }
    assert kb[..|kb|] == kb;
  }

  /** A category's section is found by the first loop exactly when the query mentions it. */
  lemma {:induction false} CategorySectionsMembership(queryLower: string, kb: Kb, s: Section)
    ensures s in CategorySections(queryLower, kb)
        <==> exists i :: 0 <= i < |kb| && Mentions(queryLower, kb[i].category) && s == SectionOf(kb[i])
  {
    if kb != [] {
      var init := kb[..|kb| - 1];
      CategorySectionsMembership(queryLower, init, s);
      assert forall i :: 0 <= i < |init| ==> init[i] == kb[i];
      if s in CategorySections(queryLower, kb) && s !in CategorySections(queryLower, init) {
        assert Mentions(queryLower, kb[|kb| - 1].category) && s == SectionOf(kb[|kb| - 1]);
      }
    }
  }

  /** A query holding "help", "how", "what" or "technique" brings in every category, in dict order. */
  lemma {:induction false} GeneralWordIncludesAll(queryLower: string, kb: Kb)
    requires Contains(queryLower, "help") || Contains(queryLower, "how")
             || Contains(queryLower, "what") || Contains(queryLower, "technique")
    ensures |CategorySections(queryLower, kb)| == |kb|
    ensures forall i :: 0 <= i < |kb| ==> CategorySections(queryLower, kb)[i] == SectionOf(kb[i])
  {
    if kb != [] {
      GeneralWordIncludesAll(queryLower, kb[..|kb| - 1]);
    }
  }

  /** With an empty knowledge base there is nothing to find: the result is "". */
  lemma {:induction false} EmptyKnowledgeBase(query: string)
    ensures RelevantKnowledge(query, []) == ""
  {
    var queryLower := Lower(query);
    NoTermSectionsWithoutKb(queryLower, SearchTerms, []);
  }

  /** Matching is case-insensitive in the query: the query and its lower-cased form find the same knowledge. */
  lemma QueryCaseIgnored(query: string, kb: Kb)
    ensures RelevantKnowledge(Lower(query), kb) == RelevantKnowledge(query, kb)
  {
    LowerIdempotent(query);
  }

  /**
   * There is no de-duplication: a query naming the "strokes" category and the term "forehand"
   * gets the strokes section twice, once from each loop.
   */
  lemma StrokesFoundTwice(queryLower: string, kb: Kb, i: nat)
    requires i < |kb| && kb[i].category == "strokes" && Get(kb, "strokes") == Some(kb[i].doc)
    requires Contains(queryLower, "strokes") && Contains(queryLower, "forehand")
    ensures multiset(RelevantSections(queryLower, kb))[SectionOf(kb[i])] >= 2
  {
    CategorySectionsMembership(queryLower, kb, SectionOf(kb[i]));
    assert FirstPresent(SearchTerms[0].1, kb, []) == Some("strokes");
    TermSectionPresent(queryLower, SearchTerms, kb, [], 0);
    var a := CategorySections(queryLower, kb);
    var b := TermSections(queryLower, SearchTerms, kb, []);
    assert multiset(a)[SectionOf(kb[i])] >= 1 && multiset(b)[SectionOf(kb[i])] >= 1;
    assert multiset(a + b) == multiset(a) + multiset(b);
  }

  datatype Role = System | User | Assistant

  datatype Message = Message(role: Role, content: string)

  /** The coach persona the history starts with. */
  const SystemPrompt: string :=
      "You are an experienced tennis coach with over 15 years of coaching experience. \n"
    + "        You specialize in helping players of all skill levels improve their game. You provide:\n"
    + "        \n"
    + "        - Technical advice on strokes (forehand, backhand, serve, volley)\n"
    + "        - Strategy and tactics for singles and doubles play\n"
    + "        - Mental game coaching and confidence building\n"
    + "        - Fitness and conditioning tips specific to tennis\n"
    + "        - Equipment recommendations\n"
    + "        - Match preparation and analysis\n"
    + "        \n"
    + "        Keep your responses encouraging, practical, and tailored to the player's skill level. \n"
    + "        Ask follow-up questions to better understand their needs and current abilities.\n"
    + "        \n"
    + "        When relevant knowledge base information is provided, use it to give detailed, accurate answers.\n"
    + "        Always cite specific techniques, drills, or recommendations from the knowledge base when available."

  /** The extra system message carrying the found knowledge for one turn. */
  function KnowledgeMessage(knowledge: string): Message {
    Message(System, "Here is relevant knowledge base information to help answer the user's question:\n" + knowledge)
  }

  /** The messages one turn sends: the history with the user's message, plus the knowledge message when there is any. */
  function TurnRequest(history: seq<Message>, prompt: string, kb: Kb): (sent: seq<Message>)
    ensures |sent| == |history| + 1 + (if RelevantKnowledge(prompt, kb) == "" then 0 else 1)
    ensures sent[..|history| + 1] == history + [Message(User, prompt)]
    ensures RelevantKnowledge(prompt, kb) != "" ==> sent[|history| + 1] == KnowledgeMessage(RelevantKnowledge(prompt, kb))
  {
    var knowledge := RelevantKnowledge(prompt, kb);
    var withUser := history + [Message(User, prompt)];
    if knowledge != "" then withUser + [KnowledgeMessage(knowledge)] else withUser
  }

  /** The module-level `conversation_history` and the turn that extends it. */
  class CoachSession {
    var conversationHistory: seq<Message>

    constructor ()
      ensures conversationHistory == [Message(System, SystemPrompt)]
    {
      conversationHistory := [Message(System, SystemPrompt)];
    }

    /**
     * `chat_with_tennis_coach`: the user's message is stored before the call; a reply that
     * comes back is stripped and stored after it; the knowledge message is sent but never stored.
     * When the call raises, the user's message stays in the history without a reply.
     */
    method ChatWithTennisCoach(prompt: string, kb: Kb, llm: seq<Message> -> Result<string, string>)
      returns (reply: Result<string, string>, sent: seq<Message>)
      modifies this
      ensures sent == TurnRequest(old(conversationHistory), prompt, kb)
      ensures llm(sent).Ok? ==> reply == Ok(Strip(llm(sent).value))
      ensures llm(sent).Err? ==> reply == llm(sent)
      ensures conversationHistory == old(conversationHistory) + [Message(User, prompt)]
                                     + (if reply.Ok? then [Message(Assistant, reply.value)] else [])
    {
      sent := StorePrompt(prompt, kb);
      reply := StoreReply(llm(sent));
    }

    /** The part of a turn before the call: the user's message is stored, and the messages to send are built. */
    method StorePrompt(prompt: string, kb: Kb) returns (sent: seq<Message>)
      modifies this
      ensures sent == TurnRequest(old(conversationHistory), prompt, kb)
      ensures conversationHistory == old(conversationHistory) + [Message(User, prompt)]
    {
      var relevantKnowledge := GetRelevantKnowledge(prompt, kb);
      conversationHistory := conversationHistory + [Message(User, prompt)];
      if relevantKnowledge != "" {
        sent := conversationHistory + [KnowledgeMessage(relevantKnowledge)];
      } else {
        sent := conversationHistory;
      }
    }

    /** The part of a turn after the call: a reply is stripped and stored; a failed call stores nothing. */
    method StoreReply(response: Result<string, string>) returns (reply: Result<string, string>)
      modifies this
      ensures response.Ok? ==> reply == Ok(Strip(response.value))
      ensures response.Err? ==> reply == response
      ensures conversationHistory == old(conversationHistory)
                                     + (if reply.Ok? then [Message(Assistant, reply.value)] else [])
    {
      if response.Err? {
        reply := response;
        return;
      }
      var assistantMessage := Strip(response.value);
      conversationHistory := conversationHistory + [Message(Assistant, assistantMessage)];
      reply := Ok(assistantMessage);
    }
  }
}
