/** The tool-use exchange that both Python clients drive: a conversation history the
    client appends to, a model endpoint that answers with content blocks and a stop
    reason, and an MCP session that runs the tools the model asks for.

    The endpoint and the session are oracles (`Oracles`): the model's reply is a
    function of the tool catalog and the history it is sent, a tool call's outcome is
    a function of the tool name and arguments. Either may fail; the failure carries
    the text `str(e)` of the exception the Python code would catch. */
module Conversation {
  import opened Wrappers
  import opened Json

  /** The stop reason with which the model asks for tools to be run. */
  const ToolUseStop := "tool_use"

  /** A tool as the MCP server lists it. */
  datatype ToolDescriptor = ToolDescriptor(name: string, description: string, inputSchema: Json)

  /** A tool in the shape the model API expects: {name, description, input_schema}. */
  datatype ApiTool = ApiTool(name: string, description: string, inputSchema: Json)

  /** Translates the server's tool list for the model API, one entry per tool, in order. */
  function Catalog(tools: seq<ToolDescriptor>): (catalog: seq<ApiTool>)
    ensures |catalog| == |tools|
    ensures forall i :: 0 <= i < |tools| ==>
      && catalog[i].name == tools[i].name
      && catalog[i].description == tools[i].description
      && catalog[i].inputSchema == tools[i].inputSchema
  {
    if tools == [] then []
    else [ApiTool(tools[0].name, tools[0].description, tools[0].inputSchema)] + Catalog(tools[1..])
  }

  /** A block of a model response. `OtherBlock` stands for any block type the clients ignore. */
  datatype ContentBlock =
    | TextBlock(text: string)
    | ToolUseBlock(id: string, name: string, input: Json)
    | OtherBlock(kind: string)

  datatype ModelResponse = ModelResponse(stopReason: string, content: seq<ContentBlock>)

  /** An item of a tool result's content list: one with a `text` attribute, or one
      without, which the clients render with `str(item)`. */
  datatype ContentItem = TextItem(text: string) | OtherItem(repr: string)

  /** What `session.call_tool` returns, as far as the clients inspect it. */
  datatype CallToolResult =
    | ListContent(items: seq<ContentItem>)  // `content` is a list
    | ScalarContent(repr: string)           // `content` is not a list: `str(content)`
    | NoContent(repr: string)               // no `content` attribute: `str(tool_result)`

  datatype ToolResult = ToolResult(toolUseId: string, content: string, isError: bool)

  datatype Role = User | Assistant

  /** A turn's content: the user's message, an assistant response's blocks, or tool results. */
  datatype TurnContent =
    | PlainText(text: string)
    | Blocks(blocks: seq<ContentBlock>)
    | Results(results: seq<ToolResult>)

  datatype Turn = Turn(role: Role, content: TurnContent)

  function UserTurn(message: string): Turn
  {
    Turn(User, PlainText(message))
  }

  /** The two external services. */
  datatype Oracles = Oracles(
    model: (seq<ApiTool>, seq<Turn>) -> Result<ModelResponse, string>,
    callTool: (string, Json) -> Result<CallToolResult, string>)

  // ---------------------------------------------------------------------------
  // Tool result text

  function ItemText(item: ContentItem): string
  {
    match item
    case TextItem(t) => t
    case OtherItem(r) => r
  }

  /** The in-order concatenation of the items' texts. */
  function ItemsText(items: seq<ContentItem>): string
  {
    if items == [] then "" else ItemText(items[0]) + ItemsText(items[1..])
  }

  function ContentText(r: CallToolResult): string
  {
    match r
    case ListContent(items) => ItemsText(items)
    case ScalarContent(repr) => repr
    case NoContent(repr) => repr
  }

  lemma {:induction false} ItemsTextAppend(a: seq<ContentItem>, b: seq<ContentItem>)
    ensures ItemsText(a + b) == ItemsText(a) + ItemsText(b)
  {
    if a == [] {
      assert a + b == b;
    } else {
      assert (a + b)[1..] == a[1..] + b;
      ItemsTextAppend(a[1..], b);
    }
  }

  /** The `result_content` accumulation of both clients. */
  method ExtractResultContent(r: CallToolResult) returns (s: string)
    ensures s == ContentText(r)
  {
    match r {
      case ListContent(items) =>
        s := "";
        for i := 0 to |items|
          invariant s == ItemsText(items[..i])
        {
          ItemsTextAppend(items[..i], [items[i]]);
          assert items[..i + 1] == items[..i] + [items[i]];
          s := s + ItemText(items[i]);
        }
        assert items[..|items|] == items;
      case ScalarContent(repr) =>
        s := repr;
      case NoContent(repr) =>
        s := repr;
    }
  }

  // ---------------------------------------------------------------------------
  // Final answer text

  /** The in-order concatenation of the text blocks; other blocks contribute nothing. */
  function FinalText(blocks: seq<ContentBlock>): string
  {
    if blocks == [] then ""
    else (if blocks[0].TextBlock? then blocks[0].text else "") + FinalText(blocks[1..])
  }

  lemma {:induction false} FinalTextAppend(a: seq<ContentBlock>, b: seq<ContentBlock>)
    ensures FinalText(a + b) == FinalText(a) + FinalText(b)
  {
    if a == [] {
      assert a + b == b;
    } else {
      assert (a + b)[1..] == a[1..] + b;
      FinalTextAppend(a[1..], b);
    }
  }

  /** The `final_response += content_block.text` loop of both clients. */
  method CollectFinalText(blocks: seq<ContentBlock>) returns (text: string)
    ensures text == FinalText(blocks)
  {
    text := "";
    for i := 0 to |blocks|
      invariant text == FinalText(blocks[..i])
    {
      FinalTextAppend(blocks[..i], [blocks[i]]);
      assert blocks[..i + 1] == blocks[..i] + [blocks[i]];
      if blocks[i].TextBlock? {
        text := text + blocks[i].text;
      }
    }
    assert blocks[..|blocks|] == blocks;
  }

  // ---------------------------------------------------------------------------
  // Tool results

  /** The tool_use blocks of a response, in order. */
  function ToolUses(blocks: seq<ContentBlock>): (uses: seq<ContentBlock>)
    ensures forall i :: 0 <= i < |uses| ==> uses[i].ToolUseBlock?
  {
    if blocks == [] then []
    else (if blocks[0].ToolUseBlock? then [blocks[0]] else []) + ToolUses(blocks[1..])
  }

  /** Filtering keeps order and count: the tool_use blocks of a concatenation are those
      of each part, in turn. */
  lemma {:induction false} ToolUsesAppend(a: seq<ContentBlock>, b: seq<ContentBlock>)
    ensures ToolUses(a + b) == ToolUses(a) + ToolUses(b)
  {
    if a == [] {
      assert a + b == b;
    } else {
      assert (a + b)[1..] == a[1..] + b;
      ToolUsesAppend(a[1..], b);
    }
  }

  /** The user turn appended for one tool_use block: the tool's text on success, the
      failure rendered by `errorText(name, str(e))` with `is_error` set otherwise. */
  function ResultTurn(block: ContentBlock, o: Oracles, errorText: (string, string) -> string): Turn
    requires block.ToolUseBlock?
  {
    match o.callTool(block.name, block.input)
    case Success(r) => Turn(User, Results([ToolResult(block.id, ContentText(r), false)]))
    case Failure(e) => Turn(User, Results([ToolResult(block.id, errorText(block.name, e), true)]))
  }

  /** The turns the inner `for content_block in response.content` loop appends. */
  function ResultTurns(blocks: seq<ContentBlock>, o: Oracles, errorText: (string, string) -> string): seq<Turn>
  {
    if blocks == [] then []
    else
      (if blocks[0].ToolUseBlock? then [ResultTurn(blocks[0], o, errorText)] else [])
      + ResultTurns(blocks[1..], o, errorText)
  }

  /** `t` is a user turn holding exactly one tool_result, for the tool_use block `id`. */
  predicate Answers(t: Turn, id: string)
  {
    t.role == User && t.content.Results? && |t.content.results| == 1
    && t.content.results[0].toolUseId == id
  }

  lemma {:induction false} ResultTurnsAppend(a: seq<ContentBlock>, b: seq<ContentBlock>, o: Oracles, errorText: (string, string) -> string)
    ensures ResultTurns(a + b, o, errorText) == ResultTurns(a, o, errorText) + ResultTurns(b, o, errorText)
  {
    if a == [] {
      assert a + b == b;
    } else {
      assert (a + b)[1..] == a[1..] + b;
      ResultTurnsAppend(a[1..], b, o, errorText);
    }
  }

  /** Correlation: one result turn per tool_use block, in block order, each answering
      that block's id; it is an error result exactly when the tool call failed, and then
      its content is the rendered failure. */
  lemma {:induction false} ResultTurnsCorrelate(blocks: seq<ContentBlock>, o: Oracles, errorText: (string, string) -> string)
    ensures var turns, uses := ResultTurns(blocks, o, errorText), ToolUses(blocks);
      && |turns| == |uses|
      && forall i :: 0 <= i < |uses| ==>
        && Answers(turns[i], uses[i].id)
        && turns[i].content.results[0].isError == o.callTool(uses[i].name, uses[i].input).Failure?
        && (o.callTool(uses[i].name, uses[i].input).Failure? ==>
              turns[i].content.results[0].content
                == errorText(uses[i].name, o.callTool(uses[i].name, uses[i].input).error))
  {
    if blocks != [] {
      ResultTurnsCorrelate(blocks[1..], o, errorText);
    }
  }

  /** The `for content_block in response.content` loop: appends the result turns. */
  method AppendToolResults(messages: seq<Turn>, blocks: seq<ContentBlock>, o: Oracles, errorText: (string, string) -> string)
    returns (out: seq<Turn>)
    ensures out == messages + ResultTurns(blocks, o, errorText)
  {
    out := messages;
    for i := 0 to |blocks|
      invariant out == messages + ResultTurns(blocks[..i], o, errorText)
    {
      ResultTurnsAppend(blocks[..i], [blocks[i]], o, errorText);
      assert blocks[..i + 1] == blocks[..i] + [blocks[i]];
      var block := blocks[i];
      if block.ToolUseBlock? {
        var outcome := o.callTool(block.name, block.input);
        if outcome.Success? {
          var text := ExtractResultContent(outcome.value);
          out := out + [Turn(User, Results([ToolResult(block.id, text, false)]))];
        } else {
          out := out + [Turn(User, Results([ToolResult(block.id, errorText(block.name, outcome.error), true)]))];
        }
      }
    }
    assert blocks[..|blocks|] == blocks;
  }

  // ---------------------------------------------------------------------------
  // Rounds and the exchange

  /** One tool round: the assistant turn with the response's full content, then its results. */
  function RoundTurns(response: ModelResponse, o: Oracles, errorText: (string, string) -> string): seq<Turn>
  {
    [Turn(Assistant, Blocks(response.content))] + ResultTurns(response.content, o, errorText)
  }

  /** `turns` is exactly `n` tool rounds, each an assistant turn carrying a response's
      blocks followed by one answering result turn per tool_use block, in block order. */
  ghost predicate Rounds(turns: seq<Turn>, n: nat)
    decreases n
  {
    if n == 0 then turns == []
    else
      && |turns| > 0
      && turns[0].role == Assistant
      && turns[0].content.Blocks?
      && var uses := ToolUses(turns[0].content.blocks);
      && |turns| > |uses|
      && (forall j :: 0 <= j < |uses| ==> Answers(turns[j + 1], uses[j].id))
      && Rounds(turns[|uses| + 1..], n - 1)
  }

  lemma RoundIsWellFormed(response: ModelResponse, o: Oracles, errorText: (string, string) -> string, rest: seq<Turn>, n: nat)
    requires Rounds(rest, n)
    ensures Rounds(RoundTurns(response, o, errorText) + rest, n + 1)
  {
    var results := ResultTurns(response.content, o, errorText);
    var uses := ToolUses(response.content);
    ResultTurnsCorrelate(response.content, o, errorText);
    var turns := RoundTurns(response, o, errorText) + rest;
    assert turns == [Turn(Assistant, Blocks(response.content))] + results + rest;
    forall j | 0 <= j < |uses|
      ensures Answers(turns[j + 1], uses[j].id)
    {
      assert turns[j + 1] == results[j];
    }
    assert turns[|uses| + 1..] == rest;
  }

  /** What an exchange leaves behind: the history, the number of tool rounds run, and
      the last reply of the model (or the failure of the last model call). The model
      was called `rounds + 1` times. */
  datatype Exchange = Exchange(history: seq<Turn>, rounds: nat, last: Result<ModelResponse, string>)

  /** The tool-use loop from the reply `response`, with `rounds` rounds already run and
      at most `bound` in all: it goes on exactly while the reply asks for tools and the
      bound is not reached. */
  function Drive(o: Oracles, catalog: seq<ApiTool>, errorText: (string, string) -> string,
                 history: seq<Turn>, response: ModelResponse, rounds: nat, bound: nat): Exchange
    requires rounds <= bound
    decreases bound - rounds
  {
    if response.stopReason == ToolUseStop && rounds < bound then
      var h := history + RoundTurns(response, o, errorText);
      match o.model(catalog, h)
      case Failure(err) => Exchange(h, rounds + 1, Failure(err))
      case Success(next) => Drive(o, catalog, errorText, h, next, rounds + 1, bound)
    else
      Exchange(history, rounds, Success(response))
  }

  /** The whole exchange for one user message: the first model call, then the loop. */
  function Session(o: Oracles, catalog: seq<ApiTool>, errorText: (string, string) -> string,
                   message: string, bound: nat): Exchange
  {
    var h := [UserTurn(message)];
    match o.model(catalog, h)
    case Failure(err) => Exchange(h, 0, Failure(err))
    case Success(r) => Drive(o, catalog, errorText, h, r, 0, bound)
  }

  /** The loop both clients run: the first model call, then, while the reply asks for
      tools and fewer than `bound` rounds have run, the assistant turn, the result turns
      and the next model call. A failing model call ends it. */
  method RunToolLoop(o: Oracles, catalog: seq<ApiTool>, errorText: (string, string) -> string,
                     message: string, bound: nat) returns (e: Exchange)
    ensures e == Session(o, catalog, errorText, message, bound)
  {
    var messages := [UserTurn(message)];
    var first := o.model(catalog, messages);
    if first.Failure? {
      return Exchange(messages, 0, first);
    }
    var response := first.value;
    var iteration := 0;
    while response.stopReason == ToolUseStop && iteration < bound
      invariant iteration <= bound
      invariant Drive(o, catalog, errorText, messages, response, iteration, bound)
             == Session(o, catalog, errorText, message, bound)
      decreases bound - iteration
    {
      iteration := iteration + 1;
      var before := messages;
      messages := messages + [Turn(Assistant, Blocks(response.content))];
      messages := AppendToolResults(messages, response.content, o, errorText);
      assert messages == before + RoundTurns(response, o, errorText);
      var next := o.model(catalog, messages);
      if next.Failure? {
        return Exchange(messages, iteration, next);
      }
      response := next.value;
    }
    e := Exchange(messages, iteration, Success(response));
  }

  /** The loop never exceeds its bound, and it ends on a successful reply only when that
      reply no longer asks for tools or the bound is reached. */
  lemma {:induction false} DriveBounded(o: Oracles, catalog: seq<ApiTool>, errorText: (string, string) -> string,
                                        history: seq<Turn>, response: ModelResponse, rounds: nat, bound: nat)
    requires rounds <= bound
    ensures var e := Drive(o, catalog, errorText, history, response, rounds, bound);
      && rounds <= e.rounds <= bound
      && (e.last.Success? ==> e.last.value.stopReason != ToolUseStop || e.rounds == bound)
    decreases bound - rounds
  {
    if response.stopReason == ToolUseStop && rounds < bound {
      var h := history + RoundTurns(response, o, errorText);
      if o.model(catalog, h).Success? {
        DriveBounded(o, catalog, errorText, h, o.model(catalog, h).value, rounds + 1, bound);
      }
    }
  }

  /** `e` extends `history` by exactly the rounds it ran beyond `rounds`, each well formed. */
  ghost predicate ExtendsByRounds(e: Exchange, history: seq<Turn>, rounds: nat)
  {
    && rounds <= e.rounds
    && |history| <= |e.history|
    && e.history[..|history|] == history
    && Rounds(e.history[|history|..], e.rounds - rounds)
  }

  /** A history that extends `history + round` extends `history` by `round` and the rest. */
  lemma SplitHistory(history: seq<Turn>, round: seq<Turn>, full: seq<Turn>)
    requires |history + round| <= |full| && full[..|history + round|] == history + round
    ensures |history| <= |full| && full[..|history|] == history
    ensures full[|history|..] == round + full[|history + round|..]
  {
    assert full == history + round + full[|history + round|..];
  }

  /** An exchange that extends the history after one more round extends the history
      before it. */
  lemma ExtendsByOneMoreRound(e: Exchange, history: seq<Turn>, response: ModelResponse, o: Oracles,
                              errorText: (string, string) -> string, rounds: nat)
    requires ExtendsByRounds(e, history + RoundTurns(response, o, errorText), rounds + 1)
    ensures ExtendsByRounds(e, history, rounds)
  {
    var round := RoundTurns(response, o, errorText);
    var h := history + round;
    RoundIsWellFormed(response, o, errorText, e.history[|h|..], e.rounds - rounds - 1);
    SplitHistory(history, round, e.history);
  }

  /** The history is append-only, and what the loop appends is exactly the rounds it ran,
      each well formed. */
  lemma {:induction false} DriveAppendsRounds(o: Oracles, catalog: seq<ApiTool>, errorText: (string, string) -> string,
                                              history: seq<Turn>, response: ModelResponse, rounds: nat, bound: nat)
    requires rounds <= bound
    ensures ExtendsByRounds(Drive(o, catalog, errorText, history, response, rounds, bound), history, rounds)
    decreases bound - rounds
  {
    var e := Drive(o, catalog, errorText, history, response, rounds, bound);
    if response.stopReason == ToolUseStop && rounds < bound {
      var h := history + RoundTurns(response, o, errorText);
      var reply := o.model(catalog, h);
      if reply.Success? {
        DriveAppendsRounds(o, catalog, errorText, h, reply.value, rounds + 1, bound);
      } else {
        assert h[|h|..] == [];
      }
      ExtendsByOneMoreRound(e, history, response, o, errorText, rounds);
    } else {
      assert history[|history|..] == [];
    }
  }

  /** An exchange starts with the user's message alone, then holds only well-formed
      rounds, at most `bound` of them. */
  lemma SessionShape(o: Oracles, catalog: seq<ApiTool>, errorText: (string, string) -> string, message: string, bound: nat)
    ensures var e := Session(o, catalog, errorText, message, bound);
      && |e.history| >= 1
      && e.history[0] == UserTurn(message)
      && Rounds(e.history[1..], e.rounds)
      && e.rounds <= bound
      && (e.last.Success? ==> e.last.value.stopReason != ToolUseStop || e.rounds == bound)
  {
    var h := [UserTurn(message)];
    var e := Session(o, catalog, errorText, message, bound);
    if o.model(catalog, h).Success? {
      var r := o.model(catalog, h).value;
      DriveBounded(o, catalog, errorText, h, r, 0, bound);
      DriveAppendsRounds(o, catalog, errorText, h, r, 0, bound);
      assert e.history[0] == e.history[..1][0];
    } else {
      assert e.history[1..] == [];
    }
  }

  /** A first reply that does not ask for tools ends the exchange after that one call. */
  lemma SessionSingleCall(o: Oracles, catalog: seq<ApiTool>, errorText: (string, string) -> string, message: string, bound: nat)
    requires o.model(catalog, [UserTurn(message)]).Success?
    requires o.model(catalog, [UserTurn(message)]).value.stopReason != ToolUseStop
    ensures Session(o, catalog, errorText, message, bound)
         == Exchange([UserTurn(message)], 0, o.model(catalog, [UserTurn(message)]))
  {
  }

  /** Once the loop has finished within a bound, a larger bound changes nothing: the
      outcome of an unbounded loop is whatever any sufficient bound yields. */
  lemma {:induction false} DriveBoundIrrelevant(o: Oracles, catalog: seq<ApiTool>, errorText: (string, string) -> string,
                                                history: seq<Turn>, response: ModelResponse, rounds: nat, bound: nat, larger: nat)
    requires rounds <= bound <= larger
    requires var e := Drive(o, catalog, errorText, history, response, rounds, bound);
      e.last.Failure? || e.last.value.stopReason != ToolUseStop
    ensures Drive(o, catalog, errorText, history, response, rounds, larger)
         == Drive(o, catalog, errorText, history, response, rounds, bound)
    decreases bound - rounds
  {
    if response.stopReason == ToolUseStop && rounds < bound {
      var h := history + RoundTurns(response, o, errorText);
      if o.model(catalog, h).Success? {
        DriveBoundIrrelevant(o, catalog, errorText, h, o.model(catalog, h).value, rounds + 1, bound, larger);
      }
    }
  }

  lemma SessionBoundIrrelevant(o: Oracles, catalog: seq<ApiTool>, errorText: (string, string) -> string,
                               message: string, bound: nat, larger: nat)
    requires bound <= larger
    requires var e := Session(o, catalog, errorText, message, bound);
      e.last.Failure? || e.last.value.stopReason != ToolUseStop
    ensures Session(o, catalog, errorText, message, larger) == Session(o, catalog, errorText, message, bound)
  {
    var h := [UserTurn(message)];
    if o.model(catalog, h).Success? {
      DriveBoundIrrelevant(o, catalog, errorText, h, o.model(catalog, h).value, 0, bound, larger);
    }
  }
}
