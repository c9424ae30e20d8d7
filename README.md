# Medical RAG agent: the plan → retrieve → answer → reflect pipeline

This project models the agent in `main.py` of a small retrieval-augmented medical
question-answering system. One record, the agent state, has five fields: `question`,
`plan`, `retrieved_docs`, `answer` and `reflection`. Four stages run on it in a fixed
order, and each stage writes exactly one field:

- **plan** splits the question on whitespace the way Python's `str.split()` does.
  Retrieval is needed when there are more than 2 tokens. The query is the question,
  unchanged.
- **retrieve** leaves an empty list when retrieval is not needed, and does not consult
  the vector store. Otherwise it keeps, for each search result in order, the first
  300 characters of its text.
- **answer** joins the retrieved contents with `"\n"` into a context block and builds
  the prompt `"Question: " + q + "\n\nContext:\n" + context + "\n\nAnswer:"`. The
  chat model's reply becomes the answer.
- **reflect** asks the chat model to grade the answer and parses the reply as JSON.
  When the reply does not parse, the reflection is `{relevance: 0.7, comment: <raw reply>}`.

The three outside services are parameters of the model, bundled in `Agent.Services`:

- the vector-store search, `string -> seq<string>`;
- the chat completion, `(system, user) -> string`;
- the JSON parser, `string -> Option<Json>`.

The model states what the agent does with whatever these services return.

Files:

- `words.dfy` (module `Words`): the whitespace tokeniser. It also holds an independent
  word-start count, and proofs that the two agree, that the tokens are exactly the
  non-whitespace text, and that splitting undoes a single-space join.
- `text.dfy` (module `Text`): prefix truncation, `sep.join`, and splitting on a
  character as the inverse of join.
- `json.dfy` (module `Json`): the values a successful `json.loads` hands to the
  reflector, including Python's separate ints and floats and the floats `nan`, `inf`
  and `-inf`.
- `wrappers.dfy` (module `Wrappers`): `Option`.
- `agent.dfy` (module `Agent`): the state record and the four stages on values
  (`PlanStep` … `ReflectStep`, composed in `Run`). It also holds the class `AgentState`,
  whose fields are updated in place by one method per node. Each method is framed to
  its own field (`modifies this`plan` and so on) and is proved equal to its stage
  function. `RunAgent` builds the record and runs the four methods in order.

## Model

| member | source | states |
|---|---|---|
| `Words.WhitespaceSet` | main.py:41 | the characters `str.split()` cuts on: below 0x80 exactly tab, line feed, vertical tab, form feed, carriage return, the separators 0x1C-0x1F and space; none above U+3000 (the full set is `Words.IsSpace`) |
| `Words.Split` | main.py:41 | every token of `q.split()` is non-empty and contains no whitespace character |
| `Words.SplitCount` | main.py:41 | the number of tokens equals an independent count of word starts (a non-whitespace character that is first or follows whitespace) |
| `Words.MoreThanTwoTokens` | main.py:41 | `len(q.split()) > 2` holds exactly when the question has more than two word starts |
| `Words.SplitKeepsText` | main.py:41 | the tokens, concatenated in order, are exactly the question's non-whitespace characters: splitting drops whitespace and nothing else |
| `Words.SplitJoinWords` | main.py:41 | splitting words joined by single spaces gives back exactly those words, when each is non-empty and whitespace-free |
| `Words.SplitAfterWord` | main.py:41 | a word followed by whitespace or by nothing is the first token, and splitting goes on with the rest: `Split` cuts exactly at whitespace |
| `Words.OneWord` | main.py:41 | the question "flu" is the single token "flu" |
| `Text.Truncate` | main.py:54 | `text[:300]` is a prefix of the text of length min(len, 300), and the whole text when it is no longer than 300 |
| `Text.Join` | main.py:59 | `sep.join([])` is empty and the join of one part is that part |
| `Text.JoinLength` | main.py:59 | a join of n parts is as long as the parts plus n - 1 separators |
| `Text.JoinSplitOn` | main.py:59 | splitting the joined context on newlines and joining again with `"\n"` gives back the context |
| `Text.SplitOnJoin` | main.py:59 | when no part contains the separator, splitting the join on it gives back the parts, in order |
| `Agent.MakePlan` | main.py:41 | `need_retrieval` holds exactly when the question has more than 2 words, and `query` is the question unchanged |
| `Agent.Snippets` | main.py:54 | one document per search result, in the same order; each content is a prefix of its result's text of length min(len, 300) |
| `Agent.Contents` | main.py:59 | the list `[d["content"] for d in docs]`: one entry per document, in order |
| `Agent.Context` | main.py:59 | no documents give an empty context, one document gives its content, and for n documents the context's length is the contents' total length plus n - 1 newlines |
| `Agent.AnswerPrompt` | main.py:63 | the answer prompt starts with "Question: " and the question, and is 30 characters longer than the question and the context together |
| `Agent.ReflectPrompt` | main.py:72 | the reflection prompt starts with "Question: " and the question, and is 67 characters longer than the question and the answer together |
| `Agent.ReflectionOf` | main.py:74-77 | a reply that parses is stored exactly as parsed; one that does not becomes an object with exactly the keys relevance (0.7) and comment (the raw reply) |
| `Agent.Initial` | main.py:100 | a run starts with only the question set: plan `{}`, no documents, answer "" and reflection `{}` |
| `Agent.PlanStep` | main.py:39-44 | the plan is set as `MakePlan` says; question, retrieved_docs, answer and reflection are unchanged |
| `Agent.RetrieveStep` | main.py:46-56 | without retrieval the documents are the empty list; with it they match the search result for the query in length and order, each cut to 300 characters; nothing else changes |
| `Agent.AnswerStep` | main.py:58-67 | the answer is the model's reply to the fixed system prompt and the question/context prompt; nothing else changes |
| `Agent.ReflectStep` | main.py:69-80 | the reflection is the parsed review or its fallback, for the review of the question/answer prompt; nothing else changes |
| `Agent.Run` | main.py:90-102 | from the initial record, plan → retrieve → answer → reflect yields: the question unchanged, the plan from the word count, documents only when more than 2 words (searched with the question itself), the answer from the context of exactly those documents, and the reflection of that answer |
| `Agent.AgentState.constructor` | main.py:100 | the record starts as `{question, plan: {}, retrieved_docs: [], answer: "", reflection: {}}` |
| `Agent.AgentState.PlanNode` | main.py:39-44 | may write only `plan`, and leaves the record equal to `PlanStep` of the old record |
| `Agent.AgentState.RetrieveNode` | main.py:46-56 | may write only `retrieved_docs`, and leaves the record equal to `RetrieveStep` of the old record; requires a plan, without which the source fails with a missing key |
| `Agent.AgentState.AnswerNode` | main.py:58-67 | may write only `answer`, and leaves the record equal to `AnswerStep` of the old record |
| `Agent.AgentState.ReflectNode` | main.py:69-80 | may write only `reflection`; it has no precondition, so it succeeds on any reply, and it leaves the record equal to `ReflectStep` of the old record |
| `Agent.RunAgent` | main.py:98-102 | running the four node methods in order on a fresh record ends in `Run(question, services)` |
| `Agent.RunTwice` | main.py:98-102 | with the same services, two runs on the same question end in identical records |
| `Agent.ShortQuestionSkipsSearch` | main.py:46-50 | with at most 2 words the documents are empty, and the run is the same whatever the search would return |
| `Agent.RetrievedBounded` | main.py:53-54 | when the search returns at most 3 results, the run keeps at most 3 documents, each of at most 300 characters |
| `Agent.EmptyContext` | main.py:59 | no documents give an empty context block |
| `Agent.ContextLines` | main.py:59 | the context's lines rejoined give the context; for at least one document, when no content holds a newline, those lines are the contents in retrieval order |
| `Agent.AnswerPromptFields` | main.py:63 | the answer prompt is "Question: ", the question, "\n\nContext:\n", the context and "\n\nAnswer:", at fixed positions |
| `Agent.ReflectPromptFields` | main.py:72 | the reflection prompt is "Question: ", the question, "\nAnswer: ", the answer and the JSON instruction, at fixed positions |
| `Agent.OneWordFacts` | main.py:41-63 | "flu" has one word, and with no documents its answer prompt is "Question: flu\n\nContext:\n\n\nAnswer:" |
| `Agent.OneWordQuestion` | main.py:39-67 | for "flu": plan `{need_retrieval: false, query: "flu"}`, no documents, and the answer is the reply to "Question: flu\n\nContext:\n\n\nAnswer:" |
| `Agent.SpacedWordsQuestion` | main.py:39-56 | a question of single-space-separated words (such as "What are the causes of hypertension?") plans retrieval exactly when it has more than 2 words, and then keeps the search result for the question |
| `Agent.HypertensionJoin` | main.py:41 | the question "What are the causes of hypertension?" is its six words joined by single spaces |
| `Agent.HypertensionQuestion` | main.py:39-56 | for "What are the causes of hypertension?" retrieval is planned with the question as query, and the documents are the truncated search results for it, in order |
| `Agent.WellFormedReview` | main.py:73-79 | a review that parses to `{"relevance": 0.9, "comment": "ok"}` is stored as exactly that object |
| `Agent.ListReviewStored` | main.py:74-79 | a review that parses to the list `[]` is stored as that list, not as an object |
| `Agent.OutOfRangeReviewStored` | main.py:74-79 | a review that parses to `{"relevance": 5.0}` is stored as it is: relevance 5.0 and no comment |

## Left out

- `groq_call` (main.py:20-30) is a network call to a hosted chat model. Its reply,
  already stripped of surrounding whitespace, is the `llm` parameter. The model name,
  temperature 0.2, the 512-token cap and the API key are not modelled.
- `get_retriever` (main.py:33-36) builds embeddings and a Chroma store. Its search is
  the `search` parameter. The store enforces the cap of `k=3` results, so
  `Agent.RetrievedBounded` takes that cap as a precondition.
- `build_agent` (main.py:83-96) compiles a LangGraph graph. Its fixed linear order is
  modelled directly, as sequential composition in `Agent.Run` and `Agent.RunAgent`.
  The graph library hands back a new record, so `RunAgent` returns a value.
- `json.loads` (main.py:75) is the `parse` parameter. It returns `None` where the
  source's bare `except` catches an exception. The JSON grammar (RFC 8259) is not
  modelled.
- Failures of the search or the chat model propagate uncaught in the source. The
  services are total functions here, so those failures are not modelled.
- The services are mathematical functions, so the chat model gives the same reply to
  the same prompts. The real service samples at temperature 0.2 and may not;
  `Agent.RunTwice` is a statement about fixed (stubbed) services.
- Json: the stored JSON value keeps Python's int/float split (`JInt`, `JFloat`) and the
  special floats `nan`, `inf` and `-inf` (`JNaN`, `JInfinity`), but a float is an exact
  real number, so binary64 rounding is not modelled.
- Logging with `print` is not modelled. This includes the 120-character answer preview
  (main.py:42, 48, 55, 65, 78).
- `ingest.py` (PDF loading, chunking, embedding, persistence) is not part of this
  model. Neither is `app.py` (a Streamlit page that only displays the record's fields).
- The relevance 0.7 is the real number 7/10, while the source stores a binary float
  close to it. No arithmetic is done on it.
- Strings are sequences of Unicode scalar values. Python's strings of code points
  also admit lone surrogates, which the model cannot express.
- Agent.ReflectionOf: a reply that parses is stored whatever its shape: a list, a
  number, or an object without `comment` or with `relevance` outside 0..1. main.py:74-79
  does not check the shape, so the model does not claim that the reflection is a
  `{relevance, comment}` object with relevance in [0, 1]. `Agent.ListReviewStored` and
  `Agent.OutOfRangeReviewStored` state two such cases.
- `answer_node` (main.py:64-66) stores whatever the chat model replies, which may be
  empty; the model does not assume a non-empty answer.
- `state.get("retrieved_docs", [])` (main.py:59) has a default that is never used,
  because the record always holds that key. The model reads the field directly.
