/** `WorkingRemoteMCPClient` of notworking/antropicmcpremote.py: the bounded tool-use
    chat (`chat_with_claude`) and the quit words of its interactive prompt.

    The client object's `session` and `available_tools` fields are the parameters
    `connected` and `tools`; the model endpoint and the MCP session are `Oracles`. */
module RemoteClient {
  import opened Wrappers
  import opened Conversation
  import ChatInput

  /** The most tool rounds one chat runs. */
  const MaxIterations := 5

  const NotReadyReply := "\U{274C} Not connected or no tools available"
  const ConversationErrorPrefix := "\U{274C} Error in Claude conversation: "

  /** The words that end `interactive_chat`, compared after stripping and lower-casing. */
  const QuitWords := ["quit", "exit", "q"]

  /** The content of the error result for a failed tool call. */
  function ToolErrorText(name: string, err: string): string
  {
    "Error calling " + name + ": " + err
  }

  /** The `claude_tools.append(...)` loop. */
  method BuildCatalog(tools: seq<ToolDescriptor>) returns (catalog: seq<ApiTool>)
    ensures catalog == Catalog(tools)
  {
    catalog := [];
    for i := 0 to |tools|
      invariant |catalog| == i
      invariant forall j :: 0 <= j < i ==> catalog[j] == Catalog(tools)[j]
    {
      catalog := catalog + [ApiTool(tools[i].name, tools[i].description, tools[i].inputSchema)];
    }
  }

  /** The string `chat_with_claude` returns for a finished exchange. */
  function Reply(e: Exchange): string
  {
    match e.last
    case Failure(err) => ConversationErrorPrefix + err
    case Success(r) => FinalText(r.content)
  }

  /** `chat_with_claude`. Besides the reply it yields the conversation history it built
      and the number of model calls it made. */
  method ChatWithClaude(connected: bool, tools: seq<ToolDescriptor>, userMessage: string, o: Oracles)
    returns (reply: string, history: seq<Turn>, calls: nat)
    ensures !connected || tools == [] ==> reply == NotReadyReply && history == [] && calls == 0
    ensures connected && tools != [] ==>
      var e := Session(o, Catalog(tools), ToolErrorText, userMessage, MaxIterations);
      reply == Reply(e) && history == e.history && calls == e.rounds + 1
    ensures calls <= MaxIterations + 1
    ensures connected && tools != [] ==>
      && calls >= 1
      && |history| >= 1
      && history[0] == UserTurn(userMessage)
      && Rounds(history[1..], calls - 1)
  {
    if !connected || |tools| == 0 {
      return NotReadyReply, [], 0;
    }
    var catalog := BuildCatalog(tools);
    var e := RunToolLoop(o, catalog, ToolErrorText, userMessage, MaxIterations);
    SessionShape(o, catalog, ToolErrorText, userMessage, MaxIterations);
    history, calls := e.history, e.rounds + 1;
    match e.last {
      case Failure(err) =>
        reply := ConversationErrorPrefix + err;
      case Success(response) =>
        reply := CollectFinalText(response.content);
    }
  }

  /** Unlike `chat_loop`, `interactive_chat` also ends on a bare "q", in any case and
      with any surrounding whitespace. */
  lemma LoneQQuits(line: string)
    requires ChatInput.Lower(ChatInput.Strip(line)) == "q"
    ensures ChatInput.Classify(Some(line), QuitWords) == ChatInput.Quit
  {
    assert QuitWords[2] == "q";
  }
}
