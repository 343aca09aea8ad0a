/**
 * The request flow of the natural-language-to-OQL translator: a length
 * gate on the prompt, a first model call that says which parts of the
 * query are needed, four short-circuit paths that validate one model
 * answer, and the full path that composes a query in at most five
 * attempts, feeding each validator message back to the model, before the
 * answer is normalised, pruned and validated once more.
 *
 * The language model, the entity search endpoint and the external query
 * validator are oracles, passed in as `Collaborators`; the model's
 * answers are functions of the transcript it is shown.
 */
module QueryPipeline {
  import opened Wrappers
  import opened OqlTypes
  import opened EntityResolver
  import opened OutputNormalizer
  import opened Sublists

  /** The prompt gate: at most 1000 characters pass. */
  function CheckPromptForSafety(prompt: string): (ok: bool)
    ensures ok <==> |prompt| <= 1000
  {
    if |prompt| > 1000 then false else true
  }

  /** Who wrote a message of the transcript. */
  datatype Role = User | Assistant

  /**
   * What a message holds: text, the model's tool-call request, the
   * bindings the tool calls resolved to, or a composed query object.
   */
  datatype Content =
    | Text(text: string)
    | ToolRequest(calls: seq<ToolCall>)
    | ToolData(bindings: seq<Binding>)
    | Composed(output: ModelOutput)

  datatype Message = Message(role: Role, content: Content)

  /** An object handed to the external validator. */
  datatype Candidate = RawAnswer(output: ModelOutput) | QueryObject(query: Query)

  /**
   * The translator's collaborators. `parseIntro` and `examples` are the
   * fixed prompt texts built from the entity catalog; the other fields are
   * the model (one function per response format), the search endpoint and
   * the validator.
   */
  datatype Collaborators = Collaborators(
    parseIntro: seq<Message>,
    examples: seq<Message>,
    parsePrompt: seq<Message> -> ParsedPrompt,
    returnColumns: seq<Message> -> seq<string>,
    sortBy: seq<Message> -> SortSpec,
    sortAndReturn: seq<Message> -> (SortSpec, seq<string>),
    chooseTools: seq<Message> -> seq<ToolCall>,
    compose: seq<Message> -> ModelOutput,
    search: (EntityKind, Option<string>) -> SearchResponse,
    validate: Candidate -> Verdict)

  /** The answer: a query object, or an error message with its HTTP status. */
  datatype Response = Answer(query: Query) | Failure(status: int, error: string)

  const GateRejected: string := "The prompt did not pass the initial check. Please try again."

  /** The corrective message appended after every composing attempt. */
  function Feedback(err: string): string {
    "That was not correct. The following error message was received:\n" + err + "\n\nPlease try again."
  }

  /** The error after five failed attempts, quoting the last validator message. */
  function RetriesExhausted(err: string): string {
    "The model is having trouble generating a valid OQL JSON object. The latest error message received was '"
      + err + "'. Please try again."
  }

  /** The error when the normalised, pruned object fails validation. */
  function FinalRejected(err: string): string {
    "The model is having trouble generating a the final OQL JSON object. Getting the following message: " + err
  }

  /** The user message of each short-circuit path. */
  function ReturnColumnsRequest(prompt: string): string {
    "Give list of return columns for this text: " + prompt
  }

  function SortByRequest(prompt: string): string {
    "Give the sort by columns for this text: " + prompt
  }

  function SortAndReturnRequest(prompt: string): string {
    "Give the sort by and return columns for this text: " + prompt
  }

  /** The five ways a parsed prompt is handled. */
  datatype Route = Trivial | ReturnOnly | SortOnly | SortAndReturn | Compose

  /**
   * The dispatch on the four flags: the composing path is taken exactly
   * when filters or aggregation filters are needed; otherwise the sort and
   * return flags pick one of four short circuits.
   */
  function RouteOf(p: ParsedPrompt): (r: Route)
    ensures r == Compose <==> p.filtersNeeded || p.summarizeByFiltersNeeded
    ensures r == Trivial <==> !p.filtersNeeded && !p.summarizeByFiltersNeeded && !p.sortByNeeded && !p.returnColumnsNeeded
    ensures r == ReturnOnly <==> !p.filtersNeeded && !p.summarizeByFiltersNeeded && !p.sortByNeeded && p.returnColumnsNeeded
    ensures r == SortOnly <==> !p.filtersNeeded && !p.summarizeByFiltersNeeded && p.sortByNeeded && !p.returnColumnsNeeded
    ensures r == SortAndReturn <==> !p.filtersNeeded && !p.summarizeByFiltersNeeded && p.sortByNeeded && p.returnColumnsNeeded
  {
    if !p.filtersNeeded && !p.summarizeByFiltersNeeded && !p.sortByNeeded && !p.returnColumnsNeeded then Trivial
    else if !p.filtersNeeded && !p.summarizeByFiltersNeeded && !p.sortByNeeded && p.returnColumnsNeeded then ReturnOnly
    else if !p.filtersNeeded && !p.summarizeByFiltersNeeded && p.sortByNeeded && !p.returnColumnsNeeded then SortOnly
    else if !p.filtersNeeded && !p.summarizeByFiltersNeeded && p.sortByNeeded && p.returnColumnsNeeded then SortAndReturn
    else Compose
  }

  /** One composing attempt: the tool calls, what they resolved to, the answer and its verdict. */
  datatype Attempt = Attempt(toolCalls: seq<ToolCall>, bindings: seq<Binding>, output: ModelOutput, verdict: Verdict)

  /** The messages an attempt appends: the tool exchange when there was one, then answer and feedback. */
  function AttemptMessages(a: Attempt): (ms: seq<Message>)
    ensures |ms| == if a.toolCalls == [] then 2 else 4
    ensures ms[|ms| - 1] == Message(User, Text(Feedback(a.verdict.message)))
    ensures ms[|ms| - 2] == Message(Assistant, Composed(a.output))
  {
    (if a.toolCalls == [] then []
     else [Message(Assistant, ToolRequest(a.toolCalls)), Message(User, ToolData(a.bindings))])
    + [Message(Assistant, Composed(a.output)), Message(User, Text(Feedback(a.verdict.message)))]
  }

  /** The number of messages the attempts appended. */
  function Growth(attempts: seq<Attempt>): nat
    decreases |attempts|
  {
    if attempts == [] then 0 else |AttemptMessages(attempts[0])| + Growth(attempts[1..])
  }

  /** The number of attempts in which the model asked for tools. */
  function ToolRounds(attempts: seq<Attempt>): (n: nat)
    ensures n <= |attempts|
    decreases |attempts|
  {
    if attempts == [] then 0 else (if attempts[0].toolCalls == [] then 0 else 1) + ToolRounds(attempts[1..])
  }

  /** Each attempt appends two messages, and two more when the model asked for tools. */
  lemma {:induction false} GrowthCount(attempts: seq<Attempt>)
    ensures Growth(attempts) == 2 * |attempts| + 2 * ToolRounds(attempts)
    decreases |attempts|
  {
    if attempts != [] {
      GrowthCount(attempts[1..]);
    }
  }

  /** The composing loop has stopped with a passing answer. */
  predicate Passed(attempts: seq<Attempt>) {
    |attempts| > 0 && attempts[|attempts| - 1].verdict.ok
  }

  /** How the tool calls of an attempt are resolved to bindings. */
  type Resolver = seq<ToolCall> -> seq<Binding>

  /** The resolution the translator performs: `use_openai_output_to_get_ids` with the search oracle. */
  ghost function ResolveWith(c: Collaborators): Resolver {
    calls => Bindings(calls, c.search)
  }

  /** One attempt made on the transcript `messages`. */
  ghost function Step(messages: seq<Message>, c: Collaborators, resolve: Resolver): (a: Attempt)
    ensures a.toolCalls == c.chooseTools(messages)
  {
    var calls := c.chooseTools(messages);
    var bindings := if calls == [] then [] else resolve(calls);
    var shown := if calls == [] then messages
                 else messages + [Message(Assistant, ToolRequest(calls)), Message(User, ToolData(bindings))];
    var output := c.compose(shown);
    Attempt(calls, bindings, output, c.validate(RawAnswer(output)))
  }

  /** The composing loop's state: the transcript so far and the attempts made. */
  datatype LoopState = LoopState(messages: seq<Message>, attempts: seq<Attempt>)

  /**
   * The specification of the composing loop: from a state, attempts are
   * made, each on the transcript the earlier ones left and each appending
   * its messages, until one passes or five have been made.
   */
  ghost function Run(s: LoopState, c: Collaborators, resolve: Resolver): (r: LoopState)
    requires |s.attempts| <= 5
    decreases 5 - |s.attempts|
  {
    if Passed(s.attempts) || |s.attempts| == 5 then s
    else
      var a := Step(s.messages, c, resolve);
      Run(LoopState(s.messages + AttemptMessages(a), s.attempts + [a]), c, resolve)
  }

  /** The loop only ever adds attempts and messages, and never more than five attempts in all. */
  lemma {:induction false} RunExtends(s: LoopState, c: Collaborators, resolve: Resolver)
    requires |s.attempts| <= 5
    ensures |s.attempts| <= |Run(s, c, resolve).attempts| <= 5
    ensures Run(s, c, resolve).attempts[..|s.attempts|] == s.attempts
    ensures |s.messages| <= |Run(s, c, resolve).messages|
    ensures Run(s, c, resolve).messages[..|s.messages|] == s.messages
    decreases 5 - |s.attempts|
  {
    if !(Passed(s.attempts) || |s.attempts| == 5) {
      var a := Step(s.messages, c, resolve);
      var next := LoopState(s.messages + AttemptMessages(a), s.attempts + [a]);
      RunExtends(next, c, resolve);
      var r := Run(next, c, resolve);
      assert r.attempts[..|s.attempts|] == r.attempts[..|next.attempts|][..|s.attempts|];
      assert r.messages[..|s.messages|] == r.messages[..|next.messages|][..|s.messages|];
    }
  }

  /**
   * The loop makes between one and five attempts, stops at the first that
   * passes, and makes all five only when none passes.
   */
  lemma {:induction false} RunOutcome(s: LoopState, c: Collaborators, resolve: Resolver)
    requires |s.attempts| <= 5
    requires forall t :: 0 <= t < |s.attempts| - 1 ==> !s.attempts[t].verdict.ok
    ensures |s.attempts| == 0 ==> |Run(s, c, resolve).attempts| >= 1
    ensures forall t :: 0 <= t < |Run(s, c, resolve).attempts| - 1 ==> !Run(s, c, resolve).attempts[t].verdict.ok
    ensures !Passed(Run(s, c, resolve).attempts) ==> |Run(s, c, resolve).attempts| == 5
    decreases 5 - |s.attempts|
  {
    if !(Passed(s.attempts) || |s.attempts| == 5) {
      var a := Step(s.messages, c, resolve);
      var next := LoopState(s.messages + AttemptMessages(a), s.attempts + [a]);
      RunOutcome(next, c, resolve);
      RunExtends(next, c, resolve);
    }
  }

  /**
   * The transcript grows by exactly the messages of the new attempts:
   * answer and feedback after every validation, whatever its outcome, and
   * the tool exchange before it when there was one.
   */
  lemma {:induction false} RunMessages(s: LoopState, c: Collaborators, resolve: Resolver)
    requires |s.attempts| <= 5
    ensures |s.attempts| <= |Run(s, c, resolve).attempts|
    ensures |Run(s, c, resolve).messages| == |s.messages| + Growth(Run(s, c, resolve).attempts[|s.attempts|..])
    decreases 5 - |s.attempts|
  {
    RunExtends(s, c, resolve);
    if !(Passed(s.attempts) || |s.attempts| == 5) {
      var a := Step(s.messages, c, resolve);
      var next := LoopState(s.messages + AttemptMessages(a), s.attempts + [a]);
      RunMessages(next, c, resolve);
      RunExtends(next, c, resolve);
      var r := Run(next, c, resolve);
      assert r.attempts[|s.attempts|] == a;
      assert r.attempts[|s.attempts|..][1..] == r.attempts[|next.attempts|..];
    } else {
      assert Run(s, c, resolve).attempts[|s.attempts|..] == [];
    }
  }

  /** One more attempt, made while the loop still runs, leaves the loop's outcome unchanged. */
  lemma RunStep(s: LoopState, c: Collaborators, resolve: Resolver, a: Attempt)
    requires |s.attempts| < 5 && !Passed(s.attempts)
    requires a == Step(s.messages, c, resolve)
    ensures Run(LoopState(s.messages + AttemptMessages(a), s.attempts + [a]), c, resolve) == Run(s, c, resolve)
    ensures Passed(s.attempts + [a]) == a.verdict.ok
  {
  }

  /**
   * The composing loop: while no answer has passed and fewer than five
   * attempts were made, ask for tool calls, resolve them, ask for the
   * object, validate it, and append the answer and the feedback.
   */
  method ComposeWithRetry(start: seq<Message>, c: Collaborators)
    returns (ok: bool, messages: seq<Message>, attempts: seq<Attempt>)
    ensures LoopState(messages, attempts) == Run(LoopState(start, []), c, ResolveWith(c))
    ensures ok == Passed(attempts)
  {
    messages := start;
    attempts := [];
    ok := false;
    var i := 0;
    while !ok
      invariant i == |attempts| <= 5
      invariant ok == Passed(attempts)
      invariant Run(LoopState(messages, attempts), c, ResolveWith(c)) == Run(LoopState(start, []), c, ResolveWith(c))
      decreases 5 - i
    {
      if i == 5 {
        break;
      }
      ghost var before := messages;
      var attempt;
      ok, messages, attempt := MakeAttempt(messages, c);
      RunStep(LoopState(before, attempts), c, ResolveWith(c), attempt);
      attempts := attempts + [attempt];
      i := i + 1;
    }
  }

  /**
   * One pass of the composing loop's body: ask for tool calls and, when
   * there are some, resolve them and show the model the request and the
   * bindings; then ask for the object, validate it, and append the answer
   * and the feedback.
   */
  method MakeAttempt(before: seq<Message>, c: Collaborators)
    returns (ok: bool, messages: seq<Message>, attempt: Attempt)
    ensures attempt == Step(before, c, ResolveWith(c))
    ensures messages == before + AttemptMessages(attempt)
    ensures ok == attempt.verdict.ok
  {
    messages := before;
    var calls := c.chooseTools(messages);
    var bindings: seq<Binding> := [];
    if calls != [] {
      bindings := UseOpenaiOutputToGetIds(calls, c.search);
      messages := messages + [Message(Assistant, ToolRequest(calls)), Message(User, ToolData(bindings))];
    }
    var output := c.compose(messages);
    var verdict := c.validate(RawAnswer(output));
    ok := verdict.ok;
    messages := messages + [Message(Assistant, Composed(output)), Message(User, Text(Feedback(verdict.message)))];
    attempt := Attempt(calls, bindings, output, verdict);
  }

  /** The object the validator sees on a short-circuit path, validated once. */
  function Validated(q: Query, c: Collaborators): (r: Response)
    ensures r.Answer? <==> c.validate(QueryObject(q)).ok
    ensures r.Answer? ==> r.query == q
    ensures r.Failure? ==> r == Failure(400, c.validate(QueryObject(q)).message)
  {
    var v := c.validate(QueryObject(q));
    if v.ok then Answer(q) else Failure(400, v.message)
  }

  /**
   * The optional sections dropped after a successful composition: sort
   * order and output columns unless the prompt needs them, and the
   * aggregation target when it is null or empty.
   */
  function Prune(f: FinalObject, p: ParsedPrompt): (q: Query)
    ensures q.filters == Some(f.filters)
    ensures q.sortBy.None? <==> !p.sortByNeeded
    ensures q.sortBy.Some? ==> q.sortBy.value == f.sortBy
    ensures q.returnColumns.None? <==> !p.returnColumnsNeeded
    ensures q.returnColumns.Some? ==> q.returnColumns.value == f.returnColumns
    ensures q.summarizeBy.None? <==> f.summarizeBy.None? || f.summarizeBy == Some("")
    ensures q.summarizeBy.Some? ==> q.summarizeBy == f.summarizeBy
  {
    Query(Some(f.filters),
          if f.summarizeBy.None? || f.summarizeBy == Some("") then None else f.summarizeBy,
          if p.sortByNeeded then Some(f.sortBy) else None,
          if p.returnColumnsNeeded then Some(f.returnColumns) else None)
  }

  /** The query object with no keys at all. */
  const EmptyQuery: Query := Query(None, None, None, None)

  /** The intent the first model call gives for a prompt. */
  function Parse(prompt: string, c: Collaborators): ParsedPrompt {
    c.parsePrompt(c.parseIntro + [Message(User, Text(prompt))])
  }

  /** The response to a prompt, as the specification of `GetOpenaiResponse`. */
  ghost function Respond(prompt: string, c: Collaborators): Response {
    if !CheckPromptForSafety(prompt) then Failure(400, GateRejected)
    else
      var parsed := Parse(prompt, c);
      match RouteOf(parsed)
      case Trivial =>
        if parsed.summarizeBy == "" then Answer(EmptyQuery)
        else Validated(Query(None, Some(parsed.summarizeBy), None, None), c)
      case ReturnOnly =>
        Validated(Query(None, None, None,
          Some(c.returnColumns(c.examples + [Message(User, Text(ReturnColumnsRequest(prompt)))]))), c)
      case SortOnly =>
        Validated(Query(None, None,
          Some(c.sortBy(c.examples + [Message(User, Text(SortByRequest(prompt)))])), None), c)
      case SortAndReturn =>
        var answer := c.sortAndReturn(c.examples + [Message(User, Text(SortAndReturnRequest(prompt)))]);
        Validated(Query(None, None, Some(answer.0), Some(answer.1)), c)
      case Compose =>
        ComposedResponse(prompt, parsed, c)
  }

  /** The response of the composing path. */
  ghost function ComposedResponse(prompt: string, parsed: ParsedPrompt, c: Collaborators): Response {
    var start := LoopState(c.examples + [Message(User, Text(prompt))], []);
    RunOutcome(start, c, ResolveWith(c));
    RunExtends(start, c, ResolveWith(c));
    Conclude(Run(start, c, ResolveWith(c)).attempts, parsed, c)
  }

  /**
   * What the composing path answers once the loop has stopped: the retry
   * error quoting the last validator message, or the last answer
   * normalised, pruned and validated once more.
   */
  ghost function Conclude(attempts: seq<Attempt>, parsed: ParsedPrompt, c: Collaborators): Response
    requires |attempts| >= 1
  {
    var last := attempts[|attempts| - 1];
    if !Passed(attempts) then Failure(400, RetriesExhausted(last.verdict.message))
    else
      var q := Prune(Fixed(last.output), parsed);
      var v := c.validate(QueryObject(q));
      if v.ok then Answer(q) else Failure(400, FinalRejected(v.message))
  }

  /**
   * `get_openai_response`: the gate, the intent call, the dispatch, and
   * either one validated short-circuit answer or the composing loop
   * followed by normalisation, pruning and a final validation.
   */
  method GetOpenaiResponse(prompt: string, c: Collaborators) returns (resp: Response)
    ensures resp == Respond(prompt, c)
  {
    var promptOk := CheckPromptForSafety(prompt);
    if !promptOk {
      return Failure(400, GateRejected);
    }
    var messagesParsed := c.parseIntro;
    messagesParsed := messagesParsed + [Message(User, Text(prompt))];
    var parsed := c.parsePrompt(messagesParsed);
    var messages := c.examples;

    if !parsed.filtersNeeded && !parsed.summarizeByFiltersNeeded && !parsed.sortByNeeded && !parsed.returnColumnsNeeded {
      if parsed.summarizeBy == "" {
        return Answer(EmptyQuery);
      }
      var q := Query(None, Some(parsed.summarizeBy), None, None);
      var v := c.validate(QueryObject(q));
      if v.ok {
        return Answer(q);
      }
      return Failure(400, v.message);
    }

    if !parsed.filtersNeeded && !parsed.summarizeByFiltersNeeded && !parsed.sortByNeeded && parsed.returnColumnsNeeded {
      messages := messages + [Message(User, Text(ReturnColumnsRequest(prompt)))];
      var q := Query(None, None, None, Some(c.returnColumns(messages)));
      var v := c.validate(QueryObject(q));
      if v.ok {
        return Answer(q);
      }
      return Failure(400, v.message);
    } else if !parsed.filtersNeeded && !parsed.summarizeByFiltersNeeded && parsed.sortByNeeded && !parsed.returnColumnsNeeded {
      messages := messages + [Message(User, Text(SortByRequest(prompt)))];
      var q := Query(None, None, Some(c.sortBy(messages)), None);
      var v := c.validate(QueryObject(q));
      if v.ok {
        return Answer(q);
      }
      return Failure(400, v.message);
    } else if !parsed.filtersNeeded && !parsed.summarizeByFiltersNeeded && parsed.sortByNeeded && parsed.returnColumnsNeeded {
      messages := messages + [Message(User, Text(SortAndReturnRequest(prompt)))];
      var answer := c.sortAndReturn(messages);
      var q := Query(None, None, Some(answer.0), Some(answer.1));
      var v := c.validate(QueryObject(q));
      if v.ok {
        return Answer(q);
      }
      return Failure(400, v.message);
    }

    resp := ComposeAndFinish(prompt, parsed, c);
  }

  /**
   * The composing path of `get_openai_response`: the prompt is appended to
   * the examples, the retry loop runs, and a passing answer is normalised,
   * pruned and validated once more.
   */
  method ComposeAndFinish(prompt: string, parsed: ParsedPrompt, c: Collaborators) returns (resp: Response)
    ensures resp == ComposedResponse(prompt, parsed, c)
  {
    var messages := c.examples;
    messages := messages + [Message(User, Text(prompt))];
    var ok, transcript, attempts := ComposeWithRetry(messages, c);
    RunOutcome(LoopState(messages, []), c, ResolveWith(c));
    assert ComposedResponse(prompt, parsed, c) == Conclude(attempts, parsed, c);
    resp := Finish(ok, attempts, parsed, c);
  }

  /**
   * After the loop: the retry error when no answer passed, otherwise the
   * last answer normalised by `FixOutputForFinal`, pruned, and validated.
   */
  method Finish(ok: bool, attempts: seq<Attempt>, parsed: ParsedPrompt, c: Collaborators) returns (resp: Response)
    requires |attempts| >= 1 && ok == Passed(attempts)
    ensures resp == Conclude(attempts, parsed, c)
  {
    if !ok {
      return Failure(400, RetriesExhausted(attempts[|attempts| - 1].verdict.message));
    }
    var final := FixOutputForFinal(attempts[|attempts| - 1].output);
    var q := Prune(final, parsed);
    var v := c.validate(QueryObject(q));
    if v.ok {
      return Answer(q);
    }
    return Failure(400, FinalRejected(v.message));
  }

  /**
   * A prompt over 1000 characters is refused before any collaborator is
   * consulted: the response is the same whatever the model, the search
   * endpoint and the validator do.
   */
  lemma GateComesFirst(prompt: string, c: Collaborators, c': Collaborators)
    requires |prompt| > 1000
    ensures Respond(prompt, c) == Respond(prompt, c') == Failure(400, GateRejected)
  {
  }

  /**
   * With no flag set, an empty aggregation target gives the empty object
   * without validation; otherwise the object holding only that target is
   * validated once.
   */
  lemma TrivialPath(prompt: string, c: Collaborators)
    requires |prompt| <= 1000 && RouteOf(Parse(prompt, c)) == Trivial
    ensures Parse(prompt, c).summarizeBy == "" ==> Respond(prompt, c) == Answer(EmptyQuery)
    ensures Parse(prompt, c).summarizeBy != "" ==>
      Respond(prompt, c) == Validated(Query(None, Some(Parse(prompt, c).summarizeBy), None, None), c)
  {
  }

  /**
   * The short-circuit paths make no composing attempt: their response does
   * not depend on the tool-choosing and composing model calls nor on the
   * search endpoint.
   */
  lemma ShortCircuitSkipsComposer(prompt: string, c: Collaborators,
                                  chooseTools: seq<Message> -> seq<ToolCall>,
                                  compose: seq<Message> -> ModelOutput,
                                  search: (EntityKind, Option<string>) -> SearchResponse)
    requires RouteOf(Parse(prompt, c)) != Compose
    ensures Respond(prompt, c) == Respond(prompt, c.(chooseTools := chooseTools, compose := compose, search := search))
  {
  }

  /**
   * The composing path makes between one and five attempts and stops at
   * the first that passes; when none passes it has made five and the error
   * quotes the last validator message.
   */
  lemma ComposedFailure(prompt: string, parsed: ParsedPrompt, c: Collaborators)
    ensures var attempts := Run(LoopState(c.examples + [Message(User, Text(prompt))], []), c, ResolveWith(c)).attempts;
      1 <= |attempts| <= 5 &&
      (forall t :: 0 <= t < |attempts| - 1 ==> !attempts[t].verdict.ok) &&
      (!Passed(attempts) ==>
        |attempts| == 5 &&
        ComposedResponse(prompt, parsed, c) == Failure(400, RetriesExhausted(attempts[4].verdict.message)))
  {
    RunOutcome(LoopState(c.examples + [Message(User, Text(prompt))], []), c, ResolveWith(c));
    RunExtends(LoopState(c.examples + [Message(User, Text(prompt))], []), c, ResolveWith(c));
  }

  /**
   * A successful composition answers with the last, passing object,
   * normalised and pruned: sort order and output columns are present
   * exactly when needed, and the aggregation target exactly when the model
   * gave a non-empty one, "works" becoming "all". A final rejection quotes
   * the validator's message.
   */
  lemma ConcludeOutcome(attempts: seq<Attempt>, parsed: ParsedPrompt, c: Collaborators)
    requires |attempts| >= 1
    ensures Conclude(attempts, parsed, c).Answer? ==>
      Passed(attempts) &&
      var q := Conclude(attempts, parsed, c).query;
      var m := attempts[|attempts| - 1].output;
      q.filters == Some(FinalFilters(m.filters, m.summarizeBy == "")) &&
      (q.sortBy.None? <==> !parsed.sortByNeeded) &&
      (q.returnColumns.None? <==> !parsed.returnColumnsNeeded) &&
      (q.summarizeBy.None? <==> m.summarizeBy == "") &&
      (m.summarizeBy == "works" ==> q.summarizeBy == Some("all")) &&
      c.validate(QueryObject(q)).ok
    ensures Passed(attempts) && Conclude(attempts, parsed, c).Failure? ==>
      var q := Prune(Fixed(attempts[|attempts| - 1].output), parsed);
      Conclude(attempts, parsed, c) == Failure(400, FinalRejected(c.validate(QueryObject(q)).message))
  {
  }
}
