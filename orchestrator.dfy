/**
 * The orchestration side of orchestrator.py: the tool list put into the
 * system prompt, the text `call_tool` makes of an MCP result, the retrying
 * `call_llm`, and `handle_query`'s bounded loop of model and tool calls with
 * its update of the per-user conversation history.
 *
 * The language model and the MCP server are oracles passed in as functions:
 * `llm(messages, attempt)` is what the chat-completions endpoint does on the
 * given attempt, `tools(round, name, kwargs)` what the MCP `call_tool` does in
 * the given round.
 */
module Orchestrator {
  import opened Wrappers
  import opened Text
  import opened ToolCalls
  import Seqs

  // ------------------------------------------------------ tool discovery

  /** A discovered tool: its name, description and the property names of its input schema, if it has any. */
  datatype ToolInfo = ToolInfo(name: string, description: string, properties: Option<seq<string>>)

  /** The argument list shown for a tool: its property names joined by ", ", or "none". */
  function ArgsShown(t: ToolInfo): (r: string)
    ensures t.properties.None? || t.properties.value == [] ==> r == "none"
    ensures t.properties.Some? && t.properties.value != [] ==> r == Join(t.properties.value, ", ")
  {
    match t.properties
    case None => "none"
    case Some(props) => if props != [] then Join(props, ", ") else "none"
  }

  function DescriptionLine(t: ToolInfo): string {
    "  - " + t.name + "(" + ArgsShown(t) + "): " + t.description
  }

  /** `get_tool_descriptions`: one line per discovered tool, in discovery order. */
  function ToolDescriptions(tools: seq<ToolInfo>): string {
    Join(Seqs.Map(tools, DescriptionLine), "\n")
  }

  predicate OneLine(t: ToolInfo) {
    '\n' !in t.name && '\n' !in t.description && (t.properties.Some? ==> forall i :: 0 <= i < |t.properties.value| ==> '\n' !in t.properties.value[i])
  }

  /**
   * When no name, description or property name holds a line break, the
   * list reads back as exactly one line per tool, each starting with the
   * tool's name and its argument list.
   */
  lemma ToolDescriptionLines(tools: seq<ToolInfo>)
    requires tools != []
    requires forall i :: 0 <= i < |tools| ==> OneLine(tools[i])
    ensures Split(ToolDescriptions(tools), '\n') == Seqs.Map(tools, DescriptionLine)
    ensures forall i :: 0 <= i < |tools| ==> StartsWith(Seqs.Map(tools, DescriptionLine)[i], "  - " + tools[i].name + "(" + ArgsShown(tools[i]) + "): ")
  {
    var lines := Seqs.Map(tools, DescriptionLine);
    forall i | 0 <= i < |lines| ensures '\n' !in lines[i] {
      LineNoBreak(tools[i]);
    }
    SplitJoin(lines, '\n');
    forall i | 0 <= i < |tools|
      ensures StartsWith(lines[i], "  - " + tools[i].name + "(" + ArgsShown(tools[i]) + "): ")
    {
      var head := "  - " + tools[i].name + "(" + ArgsShown(tools[i]) + "): ";
      assert lines[i] == head + tools[i].description;
      assert lines[i][..|head|] == head;
    }
  }

  lemma LineNoBreak(t: ToolInfo)
    requires OneLine(t)
    ensures '\n' !in DescriptionLine(t)
  {
    if t.properties.Some? && t.properties.value != [] {
      JoinAvoids(t.properties.value, ", ", '\n');
    }
    var args := ArgsShown(t);
    assert '\n' !in args;
    var line := DescriptionLine(t);
    assert line == "  - " + t.name + "(" + args + "): " + t.description;
  }

  // ------------------------------------------------------------ call_tool

  /** A content block of an MCP tool result; only text blocks have a `text`. */
  datatype Block = TextBlock(text: string) | OtherBlock

  /** What the MCP `call_tool` does: raise, or return the result's content blocks. */
  datatype ToolReply = ToolRaised(error: string) | ToolContent(blocks: seq<Block>)

  predicate IsText(b: Block) {
    b.TextBlock?
  }

  function TextOf(b: Block): string {
    if b.TextBlock? then b.text else ""
  }

  /** The texts of the text blocks, in order. */
  function Texts(blocks: seq<Block>): seq<string> {
    Seqs.Map(Seqs.Filter(blocks, IsText), TextOf)
  }

  lemma TextsSnoc(blocks: seq<Block>, b: Block)
    ensures Texts(blocks + [b]) == Texts(blocks) + (if b.TextBlock? then [b.text] else [])
  {
    Seqs.FilterAppend(blocks, [b], IsText);
    assert [b][1..] == [];
    var last := Seqs.Filter([b], IsText);
    assert last == if IsText(b) then [b] else [];
    Seqs.MapAppend(Seqs.Filter(blocks, IsText), last, TextOf);
  }

  /** The loop of `call_tool` that collects the text of every text block, in order. */
  method CollectTexts(blocks: seq<Block>) returns (texts: seq<string>)
    ensures texts == Texts(blocks)
  {
    texts := [];
    var i := 0;
    while i < |blocks|
      invariant 0 <= i <= |blocks|
      invariant texts == Texts(blocks[..i])
    {
      assert blocks[..i + 1] == blocks[..i] + [blocks[i]];
      TextsSnoc(blocks[..i], blocks[i]);
      if blocks[i].TextBlock? {
        texts := texts + [blocks[i].text];
      }
      i := i + 1;
    }
    assert blocks[..i] == blocks;
  }

  /**
   * The tool result fed back to the model: the fixed message for empty
   * content, the texts of the text blocks joined by line breaks otherwise,
   * and "Tool error: ..." when the call raises.
   */
  function ResultText(reply: ToolReply): string {
    match reply
    case ToolRaised(error) => "Tool error: " + error
    case ToolContent(blocks) =>
      if blocks == [] then "No result returned." else Join(Texts(blocks), "\n")
  }

  /** `call_tool` followed by the `try`/`except` of `handle_query` around it. */
  method CallTool(reply: ToolReply) returns (text: string)
    ensures text == ResultText(reply)
  {
    match reply {
      case ToolRaised(error) =>
        text := "Tool error: " + error;
      case ToolContent(blocks) =>
        if blocks == [] {
          return "No result returned.";
        }
        var texts := CollectTexts(blocks);
        text := Join(texts, "\n");
    }
  }

  /**
   * Non-empty content without a text block gives the empty text, not the
   * "No result returned." message; one-line text blocks read back one per line.
   */
  lemma ResultTextCases(blocks: seq<Block>)
    ensures blocks != [] && Seqs.Filter(blocks, IsText) == [] ==> ResultText(ToolContent(blocks)) == ""
    ensures var texts := Texts(blocks);
      blocks != [] && texts != [] && (forall i :: 0 <= i < |texts| ==> '\n' !in texts[i]) ==>
      Split(ResultText(ToolContent(blocks)), '\n') == texts
  {
    var texts := Texts(blocks);
    if texts != [] && forall i :: 0 <= i < |texts| ==> '\n' !in texts[i] {
      SplitJoin(texts, '\n');
    }
  }

  // ------------------------------------------------------------- call_llm

  /**
   * What one attempt at the chat-completions endpoint yields: a reply whose
   * `content` is a string or JSON `null` (`None`), a reply with an `error`
   * field, or an exception.
   */
  datatype LlmAttempt = LlmAnswer(content: Option<string>) | LlmErrorField(error: string) | LlmRaised

  const MaxAttempts := 3

  /** The first answer among attempts `from` .. 2, when there is one. */
  function FirstAnswer(messages: seq<Message>, llm: (seq<Message>, nat) -> LlmAttempt, from: nat): Option<Option<string>>
    decreases MaxAttempts - from
  {
    if from >= MaxAttempts then None
    else if llm(messages, from).LlmAnswer? then Some(llm(messages, from).content)
    else FirstAnswer(messages, llm, from + 1)
  }

  /**
   * There is no answer exactly when every remaining attempt fails, and an
   * answer is the content of the earliest attempt that succeeds.
   */
  lemma {:induction false} FirstAnswerMeaning(messages: seq<Message>, llm: (seq<Message>, nat) -> LlmAttempt, from: nat)
    ensures var r := FirstAnswer(messages, llm, from);
      && (r.None? <==> forall a :: from <= a < MaxAttempts ==> !llm(messages, a).LlmAnswer?)
      && (r.Some? ==> exists a :: from <= a < MaxAttempts && llm(messages, a) == LlmAnswer(r.value)
                                  && forall b :: from <= b < a ==> !llm(messages, b).LlmAnswer?)
    decreases MaxAttempts - from
  {
    if from < MaxAttempts && !llm(messages, from).LlmAnswer? {
      FirstAnswerMeaning(messages, llm, from + 1);
    }
  }

  /**
   * `call_llm` under `@retry(stop=stop_after_attempt(3))`: an error field or
   * an exception fails the attempt; the content of the first answer within
   * three attempts is returned, `null` included, and nothing (the retry
   * error) when all three fail.
   */
  method CallLlm(messages: seq<Message>, llm: (seq<Message>, nat) -> LlmAttempt) returns (r: Option<Option<string>>, ghost attempts: nat)
    ensures r == FirstAnswer(messages, llm, 0)
    ensures 1 <= attempts <= MaxAttempts
    ensures r.None? ==> attempts == MaxAttempts
    ensures r.Some? ==> llm(messages, attempts - 1) == LlmAnswer(r.value)
    ensures forall b :: 0 <= b < attempts - 1 ==> !llm(messages, b).LlmAnswer?
  {
    var a := 0;
    while a < MaxAttempts
      invariant 0 <= a <= MaxAttempts
      invariant FirstAnswer(messages, llm, a) == FirstAnswer(messages, llm, 0)
      invariant forall b :: 0 <= b < a ==> !llm(messages, b).LlmAnswer?
    {
      var reply := llm(messages, a);
      if reply.LlmAnswer? {
        return Some(reply.content), a + 1;
      }
      a := a + 1;
    }
    return None, MaxAttempts;
  }

  // --------------------------------------------------------- handle_query

  datatype Role = System | User | Assistant

  datatype Message = Message(role: Role, content: string)

  /** The fixed text of the system prompt around the tool list, the date and the business context. */
  const PromptHead := "You are a Tally accounting BI assistant. You answer business questions using live data from Tally Prime.\n\n"
    + "You have these tools available (discovered from the MCP server):\n"
  /** The example directive the rules show the model. */
  const ExampleArgs: seq<(string, string)> := [("arg1", "value1"), ("arg2", "value2")]
  const RulesLead := "\n\nRULES:\n1. To call a tool, respond EXACTLY: "
  const RulesTail := "\n"
    + "2. Call ONE tool at a time. Wait for the result before calling another.\n"
    + "3. When you have enough data, give a clear answer with NO tool call.\n"
    + "4. NEVER invent data. If a tool returns an error, say so.\n"
    + "5. Format currency as ₹X,XX,XXX.\n"
    + "6. Keep answers concise — this is a chat interface.\n\n"
    + "Today's date: "
  const ContextHead := "\n\nBUSINESS CONTEXT (from company knowledge base):\n"
  const ContextTail := "\n\nUse this context to provide better analysis (e.g., flag overdue payments, check margins against targets)."

  /** The system prompt of `handle_query`, with the business-context section only when there is context. */
  function SystemPrompt(toolList: string, today: string, ragContext: string): string {
    PromptHead + toolList + RulesLead + Directive("tool_name", ExampleArgs) + RulesTail + today
    + (if ragContext != "" then ContextHead + ragContext + ContextTail else "")
  }

  /** The system prompt shows the model the example directive. */
  lemma PromptShowsDirective(toolList: string, today: string, ragContext: string)
    ensures Contains(SystemPrompt(toolList, today, ragContext), Directive("tool_name", ExampleArgs))
  {
    var example := Directive("tool_name", ExampleArgs);
    var upTo := PromptHead + toolList + RulesLead + example;
    ContainsAfter(PromptHead + toolList + RulesLead, example, example);
    ContainsExtend(upTo, RulesTail, example);
    ContainsExtend(upTo + RulesTail, today, example);
    ContainsExtend(upTo + RulesTail + today, if ragContext != "" then ContextHead + ragContext + ContextTail else "", example);
  }

  /**
   * The example is in the syntax that `ParseToolCall` reads: a reply that
   * begins with it is read as a call of `tool_name` with both example
   * arguments, whatever follows.
   */
  lemma ExampleParses(rest: string)
    ensures ParseToolCall(Directive("tool_name", ExampleArgs) + rest) == Some(("tool_name", map["arg1" := "value1", "arg2" := "value2"]))
  {
    ExamplePlain();
    DirectiveRoundTrip("tool_name", ExampleArgs, rest);
    ExampleMap();
  }

  lemma ExamplePlain()
    ensures WordName("tool_name") && PlainArgs(ExampleArgs)
  {
    forall i | 0 <= i < |"tool_name"| ensures IsWordChar("tool_name"[i]) { }
    forall i | 0 <= i < 4 ensures IsWordChar("arg1"[i]) && IsWordChar("arg2"[i]) { }
  }

  lemma ExampleMap()
    ensures ToMap(ExampleArgs) == map["arg1" := "value1", "arg2" := "value2"]
  {
  }

  const MaxRounds := 5
  const HistoryLimit := 20
  const OverloadedReply := "⚠️ The AI brain is currently overloaded. Please try again in a minute."
  const ExhaustedReply := "Could not complete analysis. Please try a simpler question."

  /** The two messages a tool round appends: the model's call, then the tool's result. */
  function ToolRound(messages: seq<Message>, response: string, name: string, result: string): seq<Message> {
    messages + [Message(Assistant, response), Message(User, "TOOL_RESULT for " + name + ":\n" + result)]
  }

  /** A reader of tool-call directives, `ParseToolCall` in `handle_query`. */
  type Parser = string -> Option<(string, map<string, string>)>

  /**
   * How a query ends: the model failed in round `round`, answered in round
   * `round`, answered with `null` content in round `round` (slicing it for
   * the log line raises `TypeError`), or every round called a tool.
   */
  datatype Outcome = Overloaded(round: nat) | Answered(round: nat, answer: string) | NullContent(round: nat) | Exhausted

  /** The rounds from `round` on, for the messages sent so far. */
  function Rounds(messages: seq<Message>, round: nat, llm: (seq<Message>, nat) -> LlmAttempt,
                  parse: Parser, tools: (nat, string, map<string, string>) -> ToolReply): (r: Outcome)
    ensures r.Overloaded? || r.Answered? || r.NullContent? ==> round <= r.round < MaxRounds
    decreases MaxRounds - round
  {
    if round >= MaxRounds then Exhausted
    else
      match FirstAnswer(messages, llm, 0)
      case None => Overloaded(round)
      case Some(None) => NullContent(round)
      case Some(Some(response)) =>
        match parse(response)
        case None => Answered(round, response)
        case Some((name, kwargs)) =>
          Rounds(ToolRound(messages, response, name, ResultText(tools(round, name, kwargs))), round + 1, llm, parse, tools)
  }

  /** The messages of the first round: the system prompt, the user's history, then the query. */
  function Opening(prompt: string, prior: seq<Message>, query: string): seq<Message> {
    [Message(System, prompt)] + prior + [Message(User, query)]
  }

  lemma RoundsOverloaded(messages: seq<Message>, round: nat, llm: (seq<Message>, nat) -> LlmAttempt,
                         parse: Parser, tools: (nat, string, map<string, string>) -> ToolReply)
    requires round < MaxRounds && FirstAnswer(messages, llm, 0).None?
    ensures Rounds(messages, round, llm, parse, tools) == Overloaded(round)
  {
  }

  lemma RoundsNull(messages: seq<Message>, round: nat, llm: (seq<Message>, nat) -> LlmAttempt,
                   parse: Parser, tools: (nat, string, map<string, string>) -> ToolReply)
    requires round < MaxRounds && FirstAnswer(messages, llm, 0) == Some(None)
    ensures Rounds(messages, round, llm, parse, tools) == NullContent(round)
  {
  }

  lemma RoundsAnswered(messages: seq<Message>, round: nat, llm: (seq<Message>, nat) -> LlmAttempt,
                       parse: Parser, tools: (nat, string, map<string, string>) -> ToolReply, response: string)
    requires round < MaxRounds && FirstAnswer(messages, llm, 0) == Some(Some(response)) && parse(response).None?
    ensures Rounds(messages, round, llm, parse, tools) == Answered(round, response)
  {
  }

  lemma RoundsTool(messages: seq<Message>, round: nat, llm: (seq<Message>, nat) -> LlmAttempt,
                   parse: Parser, tools: (nat, string, map<string, string>) -> ToolReply, response: string, name: string, kwargs: map<string, string>)
    requires round < MaxRounds && FirstAnswer(messages, llm, 0) == Some(Some(response)) && parse(response) == Some((name, kwargs))
    ensures Rounds(messages, round, llm, parse, tools)
         == Rounds(ToolRound(messages, response, name, ResultText(tools(round, name, kwargs))), round + 1, llm, parse, tools)
  {
  }

  /** `conversation_history[user_id][-20:]` when the list is longer than 20. */
  function Trim(h: seq<Message>): (r: seq<Message>)
    ensures |r| == if |h| > HistoryLimit then HistoryLimit else |h|
    ensures r == h[|h| - |r|..]
  {
    if |h| > HistoryLimit then h[|h| - HistoryLimit..] else h
  }

  /** The stored exchange ends with the query and the answer, the newest entries last. */
  lemma TrimKeepsExchange(prior: seq<Message>, query: string, answer: string)
    ensures var r := Trim(prior + [Message(User, query), Message(Assistant, answer)]);
      |r| >= 2 && r[|r| - 2] == Message(User, query) && r[|r| - 1] == Message(Assistant, answer)
  {
  }

  /**
   * One round of `handle_query`: the model is called; a failure or a reply
   * without a tool call ends the query, otherwise the tool is called and
   * the messages for the next round are returned.
   */
  method Turn(messages: seq<Message>, round: nat, llm: (seq<Message>, nat) -> LlmAttempt, parse: Parser,
              tools: (nat, string, map<string, string>) -> ToolReply)
    returns (done: Option<Outcome>, next: seq<Message>)
    requires round < MaxRounds
    ensures done.Some? ==> done.value == Rounds(messages, round, llm, parse, tools) && !done.value.Exhausted? && done.value.round == round
    ensures done.None? ==> Rounds(messages, round, llm, parse, tools) == Rounds(next, round + 1, llm, parse, tools)
  {
    var response, attempts := CallLlm(messages, llm);
    if response.None? {
      RoundsOverloaded(messages, round, llm, parse, tools);
      return Some(Overloaded(round)), messages;
    }
    if response.value.None? {
      RoundsNull(messages, round, llm, parse, tools);
      return Some(NullContent(round)), messages;
    }
    var text := response.value.value;
    var call := parse(text);
    if call.None? {
      RoundsAnswered(messages, round, llm, parse, tools, text);
      return Some(Answered(round, text)), messages;
    }
    var name, kwargs := call.value.0, call.value.1;
    RoundsTool(messages, round, llm, parse, tools, text, name, kwargs);
    var result := CallTool(tools(round, name, kwargs));
    return None, ToolRound(messages, text, name, result);
  }

  /**
   * The loop of `handle_query`: up to five rounds, each calling the model
   * once and, when the round does not end the query, the tool once.
   */
  method RunRounds(initial: seq<Message>, llm: (seq<Message>, nat) -> LlmAttempt, parse: Parser, tools: (nat, string, map<string, string>) -> ToolReply)
    returns (out: Outcome, ghost llmCalls: nat, ghost toolCalls: nat)
    ensures out == Rounds(initial, 0, llm, parse, tools)
    ensures out.Overloaded? ==> llmCalls == out.round + 1 && toolCalls == out.round
    ensures out.Answered? ==> llmCalls == out.round + 1 && toolCalls == out.round
    ensures out.NullContent? ==> llmCalls == out.round + 1 && toolCalls == out.round
    ensures out.Exhausted? ==> llmCalls == MaxRounds && toolCalls == MaxRounds
  {
    var messages := initial;
    llmCalls, toolCalls := 0, 0;
    var round := 0;
    while round < MaxRounds
      invariant 0 <= round <= MaxRounds
      invariant Rounds(messages, round, llm, parse, tools) == Rounds(initial, 0, llm, parse, tools)
      invariant llmCalls == round && toolCalls == round
    {
      var done, next := Turn(messages, round, llm, parse, tools);
      llmCalls := llmCalls + 1;
      if done.Some? {
        return done.value, llmCalls, toolCalls;
      }
      toolCalls := toolCalls + 1;
      messages := next;
      round := round + 1;
    }
    return Exhausted, llmCalls, toolCalls;
  }

  /** The user's stored history, or the empty list `handle_query` puts in its place. */
  function PriorOf(history: map<string, seq<Message>>, userId: string): seq<Message> {
    if userId in history then history[userId] else []
  }

  /**
   * What `handle_query` leaves behind for outcome `out`, given the
   * histories before and after: an answer is returned and stored, with the
   * query, after the user's earlier entries, keeping the newest 20; a model
   * failure or five tool rounds leave the history as it was (a missing user
   * gets an empty list); `null` content makes `handle_query` raise, with the
   * history likewise unchanged. No other user's history changes. The model
   * is called once per round and a tool once per round that does not end
   * the query.
   */
  predicate Recorded(before: map<string, seq<Message>>, after: map<string, seq<Message>>, userId: string, query: string,
                     out: Outcome, reply: Completion<string>, llmCalls: nat, toolCalls: nat)
  {
    var prior := PriorOf(before, userId);
    match out
    case Overloaded(round) =>
      reply == Returns(OverloadedReply) && after == before[userId := prior] && llmCalls == round + 1 && toolCalls == round
    case NullContent(round) =>
      reply.Raises? && after == before[userId := prior] && llmCalls == round + 1 && toolCalls == round
    case Exhausted =>
      reply == Returns(ExhaustedReply) && after == before[userId := prior] && llmCalls == MaxRounds && toolCalls == MaxRounds
    case Answered(round, answer) =>
      reply == Returns(answer) && after == before[userId := Trim(prior + [Message(User, query), Message(Assistant, answer)])]
      && llmCalls == round + 1 && toolCalls == round
  }

  /** The per-user conversation histories that `handle_query` reads and updates. */
  class Conversations {
    var history: map<string, seq<Message>>

    constructor()
      ensures history == map[]
    {
      history := map[];
    }

    /**
     * `handle_query` for `query` from `userId`. The reply and the new history
     * follow `Rounds`: an answer is returned and stored, with the query,
     * after the user's earlier entries, keeping the newest 20; a model
     * failure or five tool rounds leave the history as it was (a missing
     * user gets an empty list), and so does `null` content, which makes the
     * call raise. No other user's history changes. At most five model calls
     * (of up to three attempts each) and at most five tool calls are made.
     * The prompt lists the tools discovered from the server.
     */
    method HandleQuery(userId: string, query: string, discovered: seq<ToolInfo>, today: string, ragContext: string,
                       llm: (seq<Message>, nat) -> LlmAttempt, tools: (nat, string, map<string, string>) -> ToolReply)
      returns (reply: Completion<string>, ghost llmCalls: nat, ghost toolCalls: nat)
      modifies this
      ensures Recorded(old(history), history, userId, query,
                       Rounds(Opening(SystemPrompt(ToolDescriptions(discovered), today, ragContext), old(PriorOf(history, userId)), query),
                              0, llm, ParseToolCall, tools),
                       reply, llmCalls, toolCalls)
    {
      var toolList := ToolDescriptions(discovered);
      reply, llmCalls, toolCalls := Converse(userId, query, SystemPrompt(toolList, today, ragContext), llm, ParseToolCall, tools);
    }

    /** `handle_query` once the system prompt is built, for the directive parser `parse`. */
    method Converse(userId: string, query: string, prompt: string, llm: (seq<Message>, nat) -> LlmAttempt,
                    parse: Parser, tools: (nat, string, map<string, string>) -> ToolReply)
      returns (reply: Completion<string>, ghost llmCalls: nat, ghost toolCalls: nat)
      modifies this
      ensures Recorded(old(history), history, userId, query,
                       Rounds(Opening(prompt, old(PriorOf(history, userId)), query), 0, llm, parse, tools),
                       reply, llmCalls, toolCalls)
    {
      if userId !in history {
        history := history[userId := []];
      }
      var prior := history[userId];
      var out;
      out, llmCalls, toolCalls := RunRounds(Opening(prompt, prior, query), llm, parse, tools);
      match out {
        case Overloaded(round) =>
          reply := Returns(OverloadedReply);
        case NullContent(round) =>
          reply := Raises;
        case Exhausted =>
          reply := Returns(ExhaustedReply);
        case Answered(round, answer) =>
          var h := history[userId] + [Message(User, query), Message(Assistant, answer)];
          if |h| > HistoryLimit {
            h := h[|h| - HistoryLimit..];
          }
          history := history[userId := h];
          reply := Returns(answer);
      }
    }
  }

  /** A model that fails all three attempts ends the query in that round. */
  lemma FailureEndsLoop(messages: seq<Message>, round: nat, llm: (seq<Message>, nat) -> LlmAttempt,
                        parse: Parser, tools: (nat, string, map<string, string>) -> ToolReply)
    requires round < MaxRounds
    requires forall a :: 0 <= a < MaxAttempts ==> !llm(messages, a).LlmAnswer?
    ensures Rounds(messages, round, llm, parse, tools) == Overloaded(round)
  {
    FirstAnswerMeaning(messages, llm, 0);
  }

  /** An answer is a reply of the model in which the parser finds no tool call. */
  lemma {:induction false} AnswerHasNoCall(messages: seq<Message>, round: nat, llm: (seq<Message>, nat) -> LlmAttempt,
                                           parse: Parser, tools: (nat, string, map<string, string>) -> ToolReply)
    ensures var out := Rounds(messages, round, llm, parse, tools);
      out.Answered? ==> parse(out.answer).None?
    decreases MaxRounds - round
  {
    if round < MaxRounds {
      match FirstAnswer(messages, llm, 0)
      case None =>
      case Some(None) =>
      case Some(Some(response)) =>
        match parse(response)
        case None =>
        case Some((name, kwargs)) =>
          AnswerHasNoCall(ToolRound(messages, response, name, ResultText(tools(round, name, kwargs))), round + 1, llm, parse, tools);
    }
  }
}
