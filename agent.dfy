/**
 * The medical question-answering agent: a record of five fields threaded
 * through four stages in a fixed order, plan -> retrieve -> answer ->
 * reflect. Each stage writes exactly one field.
 *
 * The outside services (the vector store, the chat model and the JSON
 * parser) are parameters: the model says what the agent does with whatever
 * they return, not what they return.
 */
module Agent {
  import opened Wrappers
  import opened Words
  import opened Text
  import opened Json

  /** Retrieval is planned when the question has more tokens than this. */
  const WordThreshold: nat := 2
  /** Each retrieved document keeps at most this many characters. */
  const MaxContent: nat := 300
  /** The vector store is configured to return at most this many documents. */
  const TopK: nat := 3
  /** Relevance recorded when the reviewer's reply is not JSON (Python's float 0.7). */
  const FallbackRelevance: real := 0.7

  const AnswerSystem: string :=
    "You are a helpful medical assistant. Answer clearly using only provided context."
  const ReflectSystem: string :=
    "You are a strict evaluator. Score answer relevance (0\U{2013}1)."

  datatype Plan = Plan(needRetrieval: bool, query: string)

  datatype Doc = Doc(content: string)

  /**
   * The shared record. `plan` is `None` while it is still the empty dict
   * the run starts with.
   */
  datatype State = State(
    question: string,
    plan: Option<Plan>,
    retrievedDocs: seq<Doc>,
    answer: string,
    reflection: Json)

  /** What the outside world answers. */
  datatype Services = Services(
    // similarity search over the vector store: page contents, nearest first
    search: string -> seq<string>,
    // chat completion on (system prompt, user prompt), reply already stripped
    llm: (string, string) -> string,
    // `json.loads`: None when it raises
    parse: string -> Option<Json>)

  // -----------------------------------------------------------------------
  // Planner

  function MakePlan(question: string): (p: Plan)
    ensures p.needRetrieval <==> WordCount(question) > WordThreshold
    ensures p.query == question
  {
    MoreThanTwoTokens(question);
    Plan(|Split(question)| > WordThreshold, question)
  }

  // -----------------------------------------------------------------------
  // Retriever

  /** One document per search result, in order, each cut to `MaxContent` characters. */
  function Snippets(texts: seq<string>): (docs: seq<Doc>)
    ensures |docs| == |texts|
    ensures forall i :: 0 <= i < |texts| ==>
      docs[i].content <= texts[i] && |docs[i].content| == Min(|texts[i]|, MaxContent)
  {
    seq(|texts|, i requires 0 <= i < |texts| => Doc(Truncate(texts[i], MaxContent)))
  }

  // -----------------------------------------------------------------------
  // Answerer

  function Contents(docs: seq<Doc>): (r: seq<string>)
    ensures |r| == |docs|
    ensures forall i :: 0 <= i < |docs| ==> r[i] == docs[i].content
  {
    seq(|docs|, i requires 0 <= i < |docs| => docs[i].content)
  }

  /** The context block: the contents, in retrieval order, one per line. */
  function Context(docs: seq<Doc>): (r: string)
    ensures docs == [] ==> r == ""
    ensures |docs| == 1 ==> r == docs[0].content
    ensures docs != [] ==> |r| + 1 == TotalLength(Contents(docs)) + |docs|
  {
    if docs != [] then JoinLength(Contents(docs), "\n"); Join(Contents(docs), "\n")
    else Join(Contents(docs), "\n")
  }

  /** The answerer's user prompt: it opens with the question and is 30 characters longer than its parts. */
  function AnswerPrompt(question: string, context: string): (u: string)
    ensures |u| == |question| + |context| + 30
    ensures "Question: " + question <= u
  {
    "Question: " + question + "\n\nContext:\n" + context + "\n\nAnswer:"
  }

  // -----------------------------------------------------------------------
  // Reflector

  /** The reflector's user prompt: it opens with the question and is 67 characters longer than its parts. */
  function ReflectPrompt(question: string, answer: string): (u: string)
    ensures |u| == |question| + |answer| + 67
    ensures "Question: " + question <= u
  {
    "Question: " + question + "\nAnswer: " + answer
    + "\nReturn JSON: {'relevance':score,'comment':text}"
  }

  /** The parsed reply, or, when it does not parse, a default score with the raw reply. */
  function ReflectionOf(parsed: Option<Json>, review: string): (r: Json)
    ensures parsed.Some? ==> r == parsed.value
    ensures parsed.None? ==>
      r.JObject? && r.fields.Keys == {"relevance", "comment"}
      && r.fields["relevance"] == JFloat(FallbackRelevance)
      && r.fields["comment"] == JString(review)
  {
    match parsed
    case Some(value) => value
    case None => JObject(map["relevance" := JFloat(FallbackRelevance), "comment" := JString(review)])
  }

  // -----------------------------------------------------------------------
  // The stages on values

  /** The record a run starts from: only the question is set. */
  function Initial(question: string): (s: State)
    ensures s.question == question && s.plan == None
    ensures s.retrievedDocs == [] && s.answer == "" && s.reflection == EmptyObject
  {
    State(question, None, [], "", EmptyObject)
  }

  function PlanStep(s: State): (t: State)
    ensures t.plan.Some? && t.plan.value.query == s.question
    ensures t.plan.value.needRetrieval <==> WordCount(s.question) > WordThreshold
    ensures t.question == s.question && t.retrievedDocs == s.retrievedDocs
    ensures t.answer == s.answer && t.reflection == s.reflection
  {
    s.(plan := Some(MakePlan(s.question)))
  }

  function RetrieveStep(s: State, search: string -> seq<string>): (t: State)
    requires s.plan.Some?
    ensures !s.plan.value.needRetrieval ==> t.retrievedDocs == []
    ensures s.plan.value.needRetrieval ==>
      var found := search(s.plan.value.query);
      |t.retrievedDocs| == |found|
      && forall i :: 0 <= i < |found| ==>
        t.retrievedDocs[i].content <= found[i]
        && |t.retrievedDocs[i].content| == Min(|found[i]|, MaxContent)
    ensures t.question == s.question && t.plan == s.plan
    ensures t.answer == s.answer && t.reflection == s.reflection
  {
    if !s.plan.value.needRetrieval then s.(retrievedDocs := [])
    else s.(retrievedDocs := Snippets(search(s.plan.value.query)))
  }

  function AnswerStep(s: State, llm: (string, string) -> string): (t: State)
    ensures t.answer == llm(AnswerSystem, AnswerPrompt(s.question, Context(s.retrievedDocs)))
    ensures t.question == s.question && t.plan == s.plan
    ensures t.retrievedDocs == s.retrievedDocs && t.reflection == s.reflection
  {
    var context := Context(s.retrievedDocs);
    s.(answer := llm(AnswerSystem, AnswerPrompt(s.question, context)))
  }

  function ReflectStep(s: State, llm: (string, string) -> string, parse: string -> Option<Json>): (t: State)
    ensures
      var review := llm(ReflectSystem, ReflectPrompt(s.question, s.answer));
      t.reflection == ReflectionOf(parse(review), review)
    ensures t.question == s.question && t.plan == s.plan
    ensures t.retrievedDocs == s.retrievedDocs && t.answer == s.answer
  {
    var review := llm(ReflectSystem, ReflectPrompt(s.question, s.answer));
    s.(reflection := ReflectionOf(parse(review), review))
  }

  /** The whole run: the initial record through the four stages, in order. */
  function Run(question: string, env: Services): (final: State)
    ensures final.question == question
    ensures final.plan == Some(Plan(WordCount(question) > WordThreshold, question))
    ensures final.retrievedDocs ==
      if WordCount(question) > WordThreshold then Snippets(env.search(question)) else []
    ensures final.answer == env.llm(AnswerSystem, AnswerPrompt(question, Context(final.retrievedDocs)))
    ensures
      var review := env.llm(ReflectSystem, ReflectPrompt(question, final.answer));
      final.reflection == ReflectionOf(env.parse(review), review)
  {
    var planned := PlanStep(Initial(question));
    var retrieved := RetrieveStep(planned, env.search);
    var answered := AnswerStep(retrieved, env.llm);
    ReflectStep(answered, env.llm, env.parse)
  }

  // -----------------------------------------------------------------------
  // The record updated in place, one method per stage

  class AgentState {
    var question: string
    var plan: Option<Plan>
    var retrievedDocs: seq<Doc>
    var answer: string
    var reflection: Json

    function Snapshot(): State
      reads this
    {
      State(question, plan, retrievedDocs, answer, reflection)
    }

    constructor (question: string)
      ensures Snapshot() == Initial(question)
    {
      this.question := question;
      plan := None;
      retrievedDocs := [];
      answer := "";
      reflection := EmptyObject;
    }

    method PlanNode()
      modifies this`plan
      ensures Snapshot() == PlanStep(old(Snapshot()))
    {
      plan := Some(MakePlan(question));
    }

    method RetrieveNode(search: string -> seq<string>)
      requires plan.Some?
      modifies this`retrievedDocs
      ensures Snapshot() == RetrieveStep(old(Snapshot()), search)
    {
      if !plan.value.needRetrieval {
        retrievedDocs := [];
        return;
      }
      var docs := search(plan.value.query);
      retrievedDocs := Snippets(docs);
    }

    method AnswerNode(llm: (string, string) -> string)
      modifies this`answer
      ensures Snapshot() == AnswerStep(old(Snapshot()), llm)
    {
      var context := Context(retrievedDocs);
      var user := AnswerPrompt(question, context);
      answer := llm(AnswerSystem, user);
    }

    method ReflectNode(llm: (string, string) -> string, parse: string -> Option<Json>)
      modifies this`reflection
      ensures Snapshot() == ReflectStep(old(Snapshot()), llm, parse)
    {
      var user := ReflectPrompt(question, answer);
      var review := llm(ReflectSystem, user);
      reflection := ReflectionOf(parse(review), review);
    }
  }

  /** Builds the record for `question` and runs the stages on it in order. */
  method RunAgent(question: string, env: Services) returns (final: State)
    ensures final == Run(question, env)
  {
    var state := new AgentState(question);
    state.PlanNode();
    state.RetrieveNode(env.search);
    state.AnswerNode(env.llm);
    state.ReflectNode(env.llm, env.parse);
    final := state.Snapshot();
  }

  /** With the same services, two runs on the same question end in the same record. */
  method RunTwice(question: string, env: Services) returns (first: State, second: State)
    ensures first == second
  {
    first := RunAgent(question, env);
    second := RunAgent(question, env);
  }

  // -----------------------------------------------------------------------
  // Properties of a run

  /** With at most two tokens the search is never consulted: any search gives the same run. */
  lemma ShortQuestionSkipsSearch(question: string, search1: string -> seq<string>,
                                 search2: string -> seq<string>,
                                 llm: (string, string) -> string, parse: string -> Option<Json>)
    requires WordCount(question) <= WordThreshold
    ensures Run(question, Services(search1, llm, parse)).retrievedDocs == []
    ensures Run(question, Services(search1, llm, parse)) == Run(question, Services(search2, llm, parse))
  {
  }

  /** Given the store's cap on results, at most `TopK` documents of at most `MaxContent` characters. */
  lemma RetrievedBounded(question: string, env: Services)
    requires |env.search(question)| <= TopK
    ensures |Run(question, env).retrievedDocs| <= TopK
    ensures forall d :: d in Run(question, env).retrievedDocs ==> |d.content| <= MaxContent
  {
  }

  /** No retrieved document leaves an empty context block. */
  lemma EmptyContext()
    ensures Context([]) == ""
  {
  }

  /**
   * When no content holds a line break, the context block's lines are the
   * contents, in retrieval order; in every case the lines rejoined give the block.
   */
  lemma ContextLines(docs: seq<Doc>)
    ensures Join(SplitOn(Context(docs), '\n'), "\n") == Context(docs)
    ensures docs != [] && (forall i :: 0 <= i < |docs| ==> '\n' !in docs[i].content) ==>
      SplitOn(Context(docs), '\n') == Contents(docs)
  {
    JoinSplitOn(Context(docs), '\n');
    if docs != [] && (forall i :: 0 <= i < |docs| ==> '\n' !in docs[i].content) {
      SplitOnJoin(Contents(docs), '\n');
    }
  }

  /** The question and the context sit at fixed places in the answerer's prompt. */
  lemma AnswerPromptFields(question: string, context: string)
    ensures var u := AnswerPrompt(question, context);
      |u| == |question| + |context| + 30
      && u[..10] == "Question: "
      && u[10..10 + |question|] == question
      && u[10 + |question|..21 + |question|] == "\n\nContext:\n"
      && u[21 + |question|..21 + |question| + |context|] == context
      && u[21 + |question| + |context|..] == "\n\nAnswer:"
  {
  }

  /** The question and the answer sit at fixed places in the reflector's prompt. */
  lemma ReflectPromptFields(question: string, answer: string)
    ensures var u := ReflectPrompt(question, answer);
      |u| == |question| + |answer| + 67
      && u[..10] == "Question: "
      && u[10..10 + |question|] == question
      && u[10 + |question|..19 + |question|] == "\nAnswer: "
      && u[19 + |question|..19 + |question| + |answer|] == answer
      && u[19 + |question| + |answer|..] == "\nReturn JSON: {'relevance':score,'comment':text}"
  {
  }

  // -----------------------------------------------------------------------
  // Scenarios

  lemma OneWordFacts()
    ensures WordCount("flu") == 1
    ensures AnswerPrompt("flu", Context([])) == "Question: flu\n\nContext:\n\n\nAnswer:"
  {
    OneWord();
    SplitCount("flu");
    EmptyContext();
  }

  /** A one-word question: no retrieval, empty context. */
  lemma OneWordQuestion(env: Services)
    ensures var final := Run("flu", env);
      final.plan == Some(Plan(false, "flu"))
      && final.retrievedDocs == []
      && final.answer == env.llm(AnswerSystem, "Question: flu\n\nContext:\n\n\nAnswer:")
  {
    OneWordFacts();
  }

  /**
   * A question written as words separated by single spaces (such as
   * "What are the causes of hypertension?") plans retrieval exactly when it
   * has more than two words, and then keeps the search result in order.
   */
  lemma SpacedWordsQuestion(words: seq<string>, env: Services)
    requires forall i :: 0 <= i < |words| ==> IsWord(words[i])
    ensures var q := Join(words, " ");
      var final := Run(q, env);
      final.plan == Some(Plan(|words| > WordThreshold, q))
      && (|words| > WordThreshold ==> final.retrievedDocs == Snippets(env.search(q)))
      && (|words| <= WordThreshold ==> final.retrievedDocs == [])
  {
    var q := Join(words, " ");
    assert WordCount(q) == |words| by {
      SplitJoinWords(words);
      SplitCount(q);
    }
    var final := Run(q, env);
    assert final.plan == Some(Plan(WordCount(q) > WordThreshold, q));
  }

  /** The six words of "What are the causes of hypertension?", joined by single spaces. */
  lemma HypertensionJoin()
    ensures Join(["What", "are", "the", "causes", "of", "hypertension?"], " ")
      == "What are the causes of hypertension?"
  {
    calc {
      Join(["What", "are", "the", "causes", "of", "hypertension?"], " ");
      { JoinSix("What", "are", "the", "causes", "of", "hypertension?", " "); }
      "What" + " " + "are" + " " + "the" + " " + "causes" + " " + "of" + " " + "hypertension?";
      "What are the causes of hypertension?";
    }
  }

  /** A join of six parts, written out. */
  lemma JoinSix(a: string, b: string, c: string, d: string, e: string, f: string, sep: string)
    ensures Join([a, b, c, d, e, f], sep) == a + sep + b + sep + c + sep + d + sep + e + sep + f
  {
    var ws := [a, b, c, d, e, f];
    assert ws[1..] == [b, c, d, e, f] && ws[2..] == [c, d, e, f];
    assert ws[3..] == [d, e, f] && ws[4..] == [e, f] && ws[5..] == [f];
    assert Join(ws[4..], sep) == e + sep + f by {
      assert ws[4..][1..] == ws[5..];
    }
    assert Join(ws[3..], sep) == d + sep + (e + sep + f) by {
      assert ws[3..][1..] == ws[4..];
    }
    assert Join(ws[2..], sep) == c + sep + (d + sep + (e + sep + f)) by {
      assert ws[2..][1..] == ws[3..];
    }
    assert Join(ws[1..], sep) == b + sep + (c + sep + (d + sep + (e + sep + f))) by {
      assert ws[1..][1..] == ws[2..];
    }
  }

  /** Each of the six is non-empty and free of whitespace. */
  lemma HypertensionWords()
    ensures var words := ["What", "are", "the", "causes", "of", "hypertension?"];
      forall i :: 0 <= i < |words| ==> IsWord(words[i])
  {
    assert IsWord("What") && IsWord("are") && IsWord("the");
    assert IsWord("causes") && IsWord("of") && IsWord("hypertension?");
  }

  /**
   * The six-word question "What are the causes of hypertension?": retrieval
   * is planned and the documents are the search result for the question.
   */
  lemma HypertensionQuestion(env: Services)
    ensures var q := "What are the causes of hypertension?";
      var final := Run(q, env);
      final.plan == Some(Plan(true, q))
      && final.retrievedDocs == Snippets(env.search(q))
  {
    HypertensionJoin();
    HypertensionWords();
    SpacedWordsQuestion(["What", "are", "the", "causes", "of", "hypertension?"], env);
  }

  /** A well-formed review is stored without change. */
  lemma WellFormedReview(question: string, env: Services)
    requires
      var review := env.llm(ReflectSystem, ReflectPrompt(question, Run(question, env).answer));
      env.parse(review) == Some(JObject(map["relevance" := JFloat(0.9), "comment" := JString("ok")]))
    ensures Run(question, env).reflection
      == JObject(map["relevance" := JFloat(0.9), "comment" := JString("ok")])
  {
  }

  /** A review that parses to a list is stored as that list: the shape is not checked. */
  lemma ListReviewStored(question: string, env: Services)
    requires
      var review := env.llm(ReflectSystem, ReflectPrompt(question, Run(question, env).answer));
      env.parse(review) == Some(JArray([]))
    ensures Run(question, env).reflection == JArray([])
    ensures !Run(question, env).reflection.JObject?
  {
  }

  /** A review whose relevance is out of range and that has no comment is stored as it is. */
  lemma OutOfRangeReviewStored(question: string, env: Services)
    requires
      var review := env.llm(ReflectSystem, ReflectPrompt(question, Run(question, env).answer));
      env.parse(review) == Some(JObject(map["relevance" := JFloat(5.0)]))
    ensures var r := Run(question, env).reflection;
      r.JObject? && "comment" !in r.fields && r.fields["relevance"] == JFloat(5.0)
  {
  }
}
