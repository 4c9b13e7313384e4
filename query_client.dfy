/** `RemoteMCPClient` of notworking/antroptest2.py: `process_query`, whose tool-use loop
    has no bound, and the quit words of `chat_loop`.

    The loop runs as long as the model keeps asking for tools, so the model gives it
    `fuel`: at most that many tool rounds. A reply of `None` means the model was still
    asking for tools when the fuel ran out, where the source would go on looping. */
module QueryClient {
  import opened Wrappers
  import opened Conversation
  import ChatInput

  const NotConnectedReply := "\U{274C} Not connected to remote MCP server."
  const ProcessingErrorPrefix := "\U{274C} Error processing query: "

  /** The words that end `chat_loop`, compared after stripping and lower-casing. */
  const QuitWords := ["quit", "exit"]

  /** The content of the error result for a failed tool call; the tool's name is not part of it. */
  function ToolErrorText(name: string, err: string): string
  {
    "Error calling remote tool: " + err
  }

  /** The string `process_query` returns, or `None` for an exchange stopped by the fuel
      while the model still asked for tools. */
  function Reply(e: Exchange): Option<string>
  {
    match e.last
    case Failure(err) => Some(ProcessingErrorPrefix + err)
    case Success(r) => if r.stopReason == ToolUseStop then None else Some(FinalText(r.content))
  }

  /** `process_query`. `listed` is the outcome of `session.list_tools()`. */
  method ProcessQuery(connected: bool, listed: Result<seq<ToolDescriptor>, string>, query: string,
                      o: Oracles, fuel: nat)
    returns (reply: Option<string>, history: seq<Turn>, calls: nat)
    ensures !connected ==> reply == Some(NotConnectedReply) && history == [] && calls == 0
    ensures connected && listed.Failure? ==>
      reply == Some(ProcessingErrorPrefix + listed.error) && history == [UserTurn(query)] && calls == 0
    ensures connected && listed.Success? ==>
      var e := Session(o, Catalog(listed.value), ToolErrorText, query, fuel);
      reply == Reply(e) && history == e.history && calls == e.rounds + 1
    ensures connected && listed.Success? ==>
      && 1 <= calls <= fuel + 1
      && |history| >= 1
      && history[0] == UserTurn(query)
      && Rounds(history[1..], calls - 1)
    ensures reply.None? ==> calls == fuel + 1
  {
    if !connected {
      return Some(NotConnectedReply), [], 0;
    }
    history := [UserTurn(query)];
    if listed.Failure? {
      return Some(ProcessingErrorPrefix + listed.error), history, 0;
    }
    var catalog := Catalog(listed.value);
    var e := RunToolLoop(o, catalog, ToolErrorText, query, fuel);
    SessionShape(o, catalog, ToolErrorText, query, fuel);
    history, calls := e.history, e.rounds + 1;
    match e.last {
      case Failure(err) =>
        reply := Some(ProcessingErrorPrefix + err);
      case Success(response) =>
        if response.stopReason == ToolUseStop {
          reply := None;
        } else {
          var text := CollectFinalText(response.content);
          reply := Some(text);
        }
    }
  }

  /** The fuel only decides whether the reply is known yet: once an exchange has a reply,
      more fuel yields the same reply, history and number of calls. */
  lemma ReplyIndependentOfFuel(o: Oracles, tools: seq<ToolDescriptor>, query: string, fuel: nat, larger: nat)
    requires fuel <= larger
    requires Reply(Session(o, Catalog(tools), ToolErrorText, query, fuel)).Some?
    ensures Session(o, Catalog(tools), ToolErrorText, query, larger)
         == Session(o, Catalog(tools), ToolErrorText, query, fuel)
  {
    SessionBoundIrrelevant(o, Catalog(tools), ToolErrorText, query, fuel, larger);
  }

  /** Unlike `interactive_chat`, `chat_loop` hands a bare "q" (in any case, with any
      surrounding whitespace) to the chat as a query. */
  lemma LoneQIsAQuery(line: string)
    requires ChatInput.Lower(ChatInput.Strip(line)) == "q"
    ensures ChatInput.Classify(Some(line), QuitWords) == ChatInput.Ask(ChatInput.Strip(line))
  {
    assert |ChatInput.Strip(line)| == 1;
    assert "q" != "quit" && "q" != "exit";
  }
}
