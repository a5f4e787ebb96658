/** A single-shot question: system prompt, question text, retrieval context
    and model, rendered into one prompt string. Setters take the value and
    return the updated value. */
module Question {
  import opened Wrappers
  import opened Strings
  import opened OllamaApi

  datatype Question = Question(systemPrompt: string, question: string, context: seq<string>, model: string)

  const DefaultModel: string := "phi4"
  /** System prompt set by `From<String>`. */
  const OwnedSystemPrompt: string := "You are a helpful assistant. Answer users question based on provided context."
  /** System prompt set by `From<&str>`; its spelling differs from the one above. */
  const BorrowedSystemPrompt: string := "You are a helpful assistant. Answer users question baased on provided context."
  const Newline: string := "\n"

  /** `Question::from(String)`. */
  function FromString(value: string): (q: Question)
    ensures q.question == value && q.context == []
    ensures q.model == DefaultModel && q.systemPrompt == OwnedSystemPrompt
  {
    Question(OwnedSystemPrompt, value, [], DefaultModel)
  }

  /** `Question::from(&str)`. */
  function FromStr(value: string): (q: Question)
    ensures q.question == value && q.context == []
    ensures q.model == DefaultModel && q.systemPrompt == BorrowedSystemPrompt
  {
    Question(BorrowedSystemPrompt, value, [], DefaultModel)
  }

  /** The two conversions agree on everything but the system prompt, which
      differs for every text. */
  lemma FromStringAndFromStrDiffer(value: string)
    ensures FromString(value).systemPrompt != FromStr(value).systemPrompt
    ensures FromString(value).(systemPrompt := BorrowedSystemPrompt) == FromStr(value)
  {
  }

  function SetSystemPrompt(q: Question, prompt: string): (r: Question)
    ensures r.systemPrompt == prompt
    ensures r.question == q.question && r.context == q.context && r.model == q.model
  {
    q.(systemPrompt := prompt)
  }

  function SetModel(q: Question, model: string): (r: Question)
    ensures r.model == model
    ensures r.systemPrompt == q.systemPrompt && r.question == q.question && r.context == q.context
  {
    q.(model := model)
  }

  function SetQuestion(q: Question, question: string): (r: Question)
    ensures r.question == question
    ensures r.systemPrompt == q.systemPrompt && r.context == q.context && r.model == q.model
  {
    q.(question := question)
  }

  function SetContext(q: Question, context: seq<string>): (r: Question)
    ensures r.context == context
    ensures r.systemPrompt == q.systemPrompt && r.question == q.question && r.model == q.model
  {
    q.(context := context)
  }

  function GetSystemPrompt(q: Question): string
  {
    q.systemPrompt
  }

  function GetModel(q: Question): string
  {
    q.model
  }

  /** A setter followed by the matching getter gives back what was set. */
  lemma SetThenGet(q: Question, prompt: string, model: string)
    ensures GetSystemPrompt(SetSystemPrompt(q, prompt)) == prompt
    ensures GetModel(SetModel(q, model)) == model
  {
  }

  /** Setters of different fields commute, and a second set of the same
      field overrides the first. */
  lemma SettersCommute(q: Question, p1: string, p2: string, m1: string, m2: string,
                        t1: string, t2: string, c1: seq<string>, c2: seq<string>)
    ensures SetModel(SetSystemPrompt(q, p1), m1) == SetSystemPrompt(SetModel(q, m1), p1)
    ensures SetQuestion(SetSystemPrompt(q, p1), t1) == SetSystemPrompt(SetQuestion(q, t1), p1)
    ensures SetContext(SetSystemPrompt(q, p1), c1) == SetSystemPrompt(SetContext(q, c1), p1)
    ensures SetQuestion(SetModel(q, m1), t1) == SetModel(SetQuestion(q, t1), m1)
    ensures SetContext(SetModel(q, m1), c1) == SetModel(SetContext(q, c1), m1)
    ensures SetContext(SetQuestion(q, t1), c1) == SetQuestion(SetContext(q, c1), t1)
    ensures SetSystemPrompt(SetSystemPrompt(q, p1), p2) == SetSystemPrompt(q, p2)
    ensures SetModel(SetModel(q, m1), m2) == SetModel(q, m2)
    ensures SetQuestion(SetQuestion(q, t1), t2) == SetQuestion(q, t2)
    ensures SetContext(SetContext(q, c1), c2) == SetContext(q, c2)
  {
  }

  /** `get_prompt`: system prompt, question and the context lines, each on
      its own line; an empty context contributes an empty last line. */
  function GetPrompt(q: Question): (r: string)
    ensures q.systemPrompt + Newline + q.question + Newline <= r
    ensures |r| == |q.systemPrompt| + |q.question| + 2 + |Join(q.context, Newline)|
    ensures q.context == [] ==> r[|r| - 1] == '\n'
  {
    var context := if q.context == [] then "" else Join(q.context, Newline);
    q.systemPrompt + Newline + q.question + Newline + context
  }

  /** The empty-context branch of `get_prompt` is the join of no lines: the
      prompt is the three-line format for every context. */
  lemma GetPromptIsJoin(q: Question)
    ensures GetPrompt(q) == q.systemPrompt + Newline + q.question + Newline + Join(q.context, Newline)
    ensures GetPrompt(q) == Join([q.systemPrompt, q.question] + (if q.context == [] then [""] else q.context), Newline)
  {
    var tail := if q.context == [] then [""] else q.context;
    var lines := [q.systemPrompt, q.question] + tail;
    assert lines[1..] == [q.question] + tail;
    assert lines[1..][1..] == tail;
    assert Join(lines[1..], Newline) == q.question + Newline + Join(tail, Newline);
  }

  /** The rendering reads back: when no field holds a line break, splitting
      the prompt at line breaks yields system prompt, question and context. */
  lemma {:induction false} GetPromptLines(q: Question)
    requires '\n' !in q.systemPrompt && '\n' !in q.question && FreeOf(q.context, '\n')
    ensures Split(GetPrompt(q), '\n') == [q.systemPrompt, q.question] + (if q.context == [] then [""] else q.context)
  {
    GetPromptIsJoin(q);
    SplitJoin([q.systemPrompt, q.question] + (if q.context == [] then [""] else q.context), '\n');
  }

  /** So two questions free of line breaks in their fields, with a non-empty
      context, render the same prompt only if they hold the same text. */
  lemma {:induction false} GetPromptInjective(q1: Question, q2: Question)
    requires '\n' !in q1.systemPrompt && '\n' !in q1.question && FreeOf(q1.context, '\n') && q1.context != []
    requires '\n' !in q2.systemPrompt && '\n' !in q2.question && FreeOf(q2.context, '\n') && q2.context != []
    requires GetPrompt(q1) == GetPrompt(q2)
    ensures q1.systemPrompt == q2.systemPrompt && q1.question == q2.question && q1.context == q2.context
  {
    GetPromptLines(q1);
    GetPromptLines(q2);
    var l1 := [q1.systemPrompt, q1.question] + q1.context;
    assert l1[0] == q1.systemPrompt && l1[1] == q1.question && l1[2..] == q1.context;
    var l2 := [q2.systemPrompt, q2.question] + q2.context;
    assert l2[0] == q2.systemPrompt && l2[1] == q2.question && l2[2..] == q2.context;
  }

  /** The model is not part of the prompt text. */
  lemma GetPromptIgnoresModel(q: Question, model: string)
    ensures GetPrompt(SetModel(q, model)) == GetPrompt(q)
  {
  }

  /** `Into<GenerationRequest>`: the question's model and its rendered
      prompt; the system prompt travels inside the prompt text, never in the
      request's own `system` field. */
  function IntoGenerationRequest(q: Question): (r: GenerationRequest)
    ensures r.modelName == q.model
    ensures r.prompt == GetPrompt(q)
    ensures r.system == None
  {
    GenerationRequest(q.model, GetPrompt(q), None)
  }
}
