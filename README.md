# MCP tool-call clients and JSON-RPC relays, modelled in Dafny

The repository is a set of small programs around a remote Model Context Protocol (MCP)
server. This project models five parts of it:

- **The tool-use loops of the two Python clients**:
  - `chat_with_claude` in `notworking/antropicmcpremote.py` stops after 5 rounds;
  - `process_query` in `notworking/antroptest2.py` has no bound.

  Each loop sends the user's message and the server's tool catalog to a model endpoint.
  While the reply's stop reason is `tool_use`, it:
  - appends the assistant turn;
  - runs every `tool_use` block through the MCP session, in order;
  - appends one `tool_result` user turn per block;
  - asks the model again.

  At the end it returns the text blocks of the last reply. The interactive prompts
  (`interactive_chat`, `chat_loop`) are modelled alongside.
- **The two Go stdin-to-HTTP JSON-RPC relays**, `proxy.go` and `proxy1.go`. They cover:
  - decoding each line;
  - forwarding it;
  - the JSON-RPC 2.0 error responses (section 5.1 of the JSON-RPC 2.0 Specification);
  - in `proxy.go`, the port label, the log file name and the choice of log directory.
- **The request payload of the Node test client**, `npxtest/test-mcp_v1.js`.
- **The `remote_address_lookup` tool handler**, in `remoteserver.go`.

External services are oracles, that is, function-typed parameters:
- the model endpoint;
- the MCP session's `call_tool` and `list_tools`;
- JSON syntax and `json.Marshal`;
- building and sending the HTTP request and reading its body;
- directory creation and file opening.

Each oracle answers with success or failure. Wall-clock time is a parameter (`Clock`).

Modules:
- `Wrappers`: `Option` and `Result`.
- `Json`: JSON values.
- `Conversation`: the tool-use exchange shared by both Python clients.
- `RemoteClient`: `antropicmcpremote.py`.
- `QueryClient`: `antroptest2.py`.
- `ChatInput`: the prompt loops.
- `Relay`: the pieces both Go relays share.
- `StdioProxy`: `proxy.go`.
- `SimpleProxy`: `proxy1.go`.
- `McpRequest`: `test-mcp_v1.js`.
- `AddressLookup`: `remoteserver.go`.

Behaviours of the code worth noting:
- `chat_loop` ends only on `quit` or `exit`; a bare `q` is sent to the model as a query. Only `interactive_chat` also quits on `q`.
- A failing model call does not propagate. Both clients catch it and return an error string.
- The Go relays accept a JSON `null` line or response body as a nil map, because `json.Unmarshal` does.
- `json.Unmarshal` can fill the map and still fail, for example on a number outside the range of float64. `proxy.go` then answers -32700 with the request's `id`, and `proxy1.go` drops the line.
- The Go relays ignore the HTTP status: any body that decodes into a map is relayed as the answer.

## Model

| member | source | states |
|---|---|---|
| Conversation.Catalog | notworking/antroptest2.py:52-59 | The catalog has one entry per listed tool, in the same order, with the same name, description and input schema. |
| RemoteClient.BuildCatalog | notworking/antropicmcpremote.py:138-144 | The append loop builds exactly that catalog. |
| Conversation.ExtractResultContent | notworking/antropicmcpremote.py:188-199 | The result text is the concatenation, in order, of each list item's `text`, or `str(item)` for an item without one. A non-list content gives `str(content)`, and a result without content gives `str(result)`. |
| Conversation.ItemsTextAppend | notworking/antroptest2.py:96-101 | The text of two item lists in a row is the text of the first followed by the text of the second. |
| Conversation.CollectFinalText | notworking/antropicmcpremote.py:237-242 | The returned text is the in-order concatenation of the text blocks of the reply. Other blocks add nothing. |
| Conversation.FinalTextAppend | notworking/antroptest2.py:139-144 | The final text of two block sequences in a row is the concatenation of their final texts. |
| Conversation.ToolUses | notworking/antropicmcpremote.py:174-175 | Every block that gets a result is a `tool_use` block. |
| Conversation.ToolUsesAppend | notworking/antropicmcpremote.py:174-175 | The `tool_use` blocks of two block sequences in a row are those of the first followed by those of the second, so the filter keeps block order and count. |
| Conversation.ResultTurnsCorrelate | notworking/antropicmcpremote.py:174-226 | There is exactly one result turn per `tool_use` block, in block order. Each is a user turn with one result whose `tool_use_id` is that block's id. `is_error` is set exactly when the tool call failed, and then the content is the rendered failure. |
| Conversation.ResultTurnsAppend | notworking/antroptest2.py:82-128 | The result turns of two block sequences in a row are the result turns of each, in order. |
| Conversation.AppendToolResults | notworking/antroptest2.py:82-128 | The inner loop appends exactly the result turns of the response's blocks to the history, and changes nothing already there. |
| Conversation.RoundIsWellFormed | notworking/antropicmcpremote.py:168-226 | A round is the assistant turn carrying the full response content, followed by its result turns. Put in front of well-formed rounds, it gives one more well-formed round. |
| Conversation.RunToolLoop | notworking/antropicmcpremote.py:147-234 | The loop the clients run leaves exactly the exchange the loop specification describes: its history, the rounds run and the last reply or model failure. |
| Conversation.DriveBounded | notworking/antropicmcpremote.py:160-163 | The loop never runs more rounds than its bound. A successful last reply still asks for tools only when the bound was reached. |
| Conversation.DriveAppendsRounds | notworking/antropicmcpremote.py:163-234 | The history is append-only. What the loop appends is exactly the rounds it ran, each well formed. |
| Conversation.SessionShape | notworking/antropicmcpremote.py:147-234 | The history starts with exactly one user turn holding the message, and is followed only by well-formed rounds, at most the bound. The exchange ends on a reply that does not ask for tools, on the bound, or on a failing model call. |
| Conversation.SessionSingleCall | notworking/antroptest2.py:66-74 | When the first reply does not ask for tools, the exchange is that one call and the history is the user's message alone. |
| Conversation.DriveBoundIrrelevant | notworking/antroptest2.py:74-136 | Once the loop has stopped within a bound, a larger bound gives the same exchange. |
| Conversation.SessionBoundIrrelevant | notworking/antroptest2.py:66-136 | The same holds for a whole exchange. |
| RemoteClient.ChatWithClaude | notworking/antropicmcpremote.py:131-245 | With no session or no tools, it returns the not-connected text, calls nothing and builds no history. Otherwise, reply, history and call count are those of the exchange bounded by 5 rounds: a failing model call gives the error text, and anything else gives the final text. There are at most 6 model calls, and the history is the user turn followed by well-formed rounds. |
| RemoteClient.LoneQQuits | notworking/antropicmcpremote.py:268-272 | In `interactive_chat`, every line whose stripped, lower-cased form is `q` ends the chat. |
| QueryClient.ProcessQuery | notworking/antroptest2.py:41-147 | With no session, it returns the not-connected text before listing tools or calling the model. A failing tool listing gives the error text. Otherwise it runs the unbounded exchange, up to the fuel: there are at least 1 and at most fuel + 1 model calls, and the history is the user turn followed by well-formed rounds. No reply means the fuel ran out while the model still asked for tools. |
| QueryClient.ReplyIndependentOfFuel | notworking/antroptest2.py:74-136 | Once an exchange has a reply, more fuel changes neither the reply, the history nor the call count. |
| QueryClient.LoneQIsAQuery | notworking/antroptest2.py:183-190 | In `chat_loop`, every line whose stripped, lower-cased form is `q` is sent to the model as its stripped form. It does not quit. |
| ChatInput.LeadingSpaces | notworking/antroptest2.py:183 | The count of leading whitespace characters: all of them are whitespace, and the next character is not. |
| ChatInput.TrimEnd | notworking/antroptest2.py:183 | It is a prefix of the input, whatever it drops is whitespace, and it does not end in whitespace. |
| ChatInput.Strip | notworking/antroptest2.py:183 | `strip()` gives the slice after the leading whitespace and before the trailing whitespace, and it neither starts nor ends with whitespace. |
| ChatInput.StripIdempotent | notworking/antropicmcpremote.py:268 | Stripping twice is stripping once. |
| ChatInput.Lower | notworking/antroptest2.py:185 | Lower-casing keeps the length and maps each character. |
| ChatInput.Classify | notworking/antroptest2.py:181-200 | One prompt: a line whose stripped, lower-cased form is a quit word quits, and an empty stripped line is skipped. Any other line is asked as its stripped form. End of input is the retry branch of `except Exception`. |
| ChatInput.AsWrittenSpinsAtEof | notworking/antropicmcpremote.py:266-284 | As written, a prompt loop at end of input never ends, however many prompts it is given. |
| ChatInput.AsWrittenNeedsQuit | notworking/antroptest2.py:181-200 | As written, an input without a quit line never ends the session. |
| ChatInput.AskIsQuery | notworking/antroptest2.py:183-193 | A line that is asked is asked as a query that is non-empty, already stripped, and not a quit word. |
| ChatInput.AskedQueries | notworking/antroptest2.py:181-193 | The queries a session asks are at most as many as the lines. Each one is non-empty, already stripped, and not a quit word. |
| ChatInput.PromptLoop | notworking/antroptest2.py:181-200 | The corrected prompt loop (end of input quits) asks exactly those queries, in order. |
| ChatInput.CorrectedAgrees | notworking/antroptest2.py:181-200 | The correction changes only what happens at end of input. When a quit line follows, and the loop as written has a prompt for every line up to it, it asks exactly the queries of the corrected loop. |
| Relay.UnmarshalMap | proxy.go:114-115 | Decoding into a map fails exactly on a syntax error, on a value that is neither an object nor `null`, or on an error reported after decoding. The map is filled exactly when the text holds an object, even if the call then fails. A syntax error is returned as it is, with the nil map. |
| Relay.ErrorResponse | proxy.go:196-207 | The error response has exactly `jsonrpc: "2.0"`, the error object with the code and message, and `id` exactly when the request's map has an `id` key, with that value. |
| Relay.Forward | proxy1.go:73-108 | Forwarding succeeds exactly when marshalling, building the request, sending, reading and decoding the body into a map all succeed, and the result is then the decoded map. The first stage that fails gives the error: its own prefix, `: `, then that stage's error. |
| StdioProxy.SendErrorResponse | proxy.go:196-210 | The map built in place is the error response: code and `message: err`, with `id` exactly when the request has one. |
| StdioProxy.LineResponse | proxy.go:113-130 | A failing `json.Unmarshal` gives -32700 `Parse error: <err>`, with the `id` of the map it filled exactly when that map has one. After a syntax error there is no `id`. A forwarding failure gives -32603 `Internal error: <err>` with the request's `id` exactly when it has one. Otherwise the answer is the server's decoded reply. |
| StdioProxy.RelayLine | proxy.go:113-130 | One pass of the loop body writes exactly that line's response. |
| StdioProxy.NonEmpty | proxy.go:104-107 | Empty lines are dropped. Every non-empty line is kept, and nothing else is. |
| StdioProxy.NonEmptyAppend | proxy.go:104-107 | The lines kept from two line sequences in a row are those of the first followed by those of the second, so order and count are kept. |
| StdioProxy.HandleStdinToHTTP | proxy.go:91-132 | The message count is the number of non-empty lines. Exactly one response is written per non-empty line, in order, and it is that line's response. |
| StdioProxy.PortNumber | proxy.go:225-241 | An explicit port is used as-is. Otherwise `http` gives 80, `https` gives 443, and another scheme gives `noport`. The label is `unknown` exactly when the URL does not parse, and it is numeric exactly when a port is known. |
| StdioProxy.Pad2 | proxy.go:252 | `%02d` of a number below 100 is two digits whose value is the number. |
| StdioProxy.Stamp | proxy.go:252-255 | `MMDDYYhhmmss` is twelve digits. |
| StdioProxy.StampRoundTrip | proxy.go:252-255 | The twelve digits give back month, day, the year's last two digits, hour, minute and second. |
| StdioProxy.LogFileName | proxy.go:251-255 | The name starts with the port label, then `_`, and ends in `.log`, 17 characters longer than the label. |
| StdioProxy.ParseLogFileName | proxy.go:252-255 | A parsed name starts with its port label and is 17 characters longer. |
| StdioProxy.LogFileNameRoundTrip | proxy.go:252-255 | The file name gives back the port label, month, day, two-digit year, hour, minute and second. |
| StdioProxy.CreateLogFile | proxy.go:257-279 | The directories are tried in order, and the log file goes in the first one that can be created and opened. When none can, the result is the error `failed to create log file in any location`. |
| SimpleProxy.AnsweredLines | proxy1.go:32-43 | No more lines get an answer than were read. |
| SimpleProxy.AnsweredLinesMembers | proxy1.go:32-43 | The lines that get an answer are exactly the non-empty ones that decode into a map without error. |
| SimpleProxy.AnsweredLinesAppend | proxy1.go:32-43 | The answered lines of two line sequences in a row are those of the first followed by those of the second, so order and count are kept. |
| SimpleProxy.Respond | proxy1.go:45-65 | A line gets the server's reply to its decoded map. On a forwarding failure it gets -32603 with the fixed message `Internal error`, and the request's `id` exactly when it has one. |
| SimpleProxy.HandleLine | proxy1.go:33-65 | One pass of the loop body answers a line exactly when it is non-empty and decodes into a map without error, and then with that line's response. |
| SimpleProxy.HandleStdio | proxy1.go:29-71 | Exactly one response is written per answered line, in order. Nothing is written for empty or undecodable lines. |
| McpRequest.Payload | npxtest/test-mcp_v1.js:7-14 | The payload is `jsonrpc: "2.0"`, then `method`, then `params` exactly when params has a key, then `id` last exactly when the id is not null (so `0` is kept). It has exactly that many members, its keys are distinct, and it is a notification exactly when the id is null. |
| McpRequest.PayloadRoundTrip | npxtest/test-mcp_v1.js:9-14 | Leaving out empty params and a null id loses nothing: the method, params and id can be read back from the payload. |
| McpRequest.ParseResponse | npxtest/test-mcp_v1.js:28-35 | The response resolves exactly when the body parses. Otherwise the rejection is `Invalid JSON response: ` followed by the whole body. |
| AddressLookup.AddressText | remoteserver.go:46-50 | The text's length is that of the fixed parts plus twice the zip code. |
| AddressLookup.AddressTextRoundTrip | remoteserver.go:46-50 | The zip code can be read back from the address text. |
| AddressLookup.AddressTextInjective | remoteserver.go:41-53 | Different zip codes give different texts. |
| AddressLookup.RemoteAddressLookup | remoteserver.go:41-53 | It fails with `zip_code is required` exactly when the zip code is empty. Otherwise the response is one text content, and that text encodes the zip code. |

## Left out

- Anthropic SDK, MCP client session, streamable HTTP client and `mcp_golang` server: these are oracles. The oracles are modelled as pure functions. A real model or tool server may answer the same request differently at different times; the model does not capture that.
- `connect_to_server`, `discover_tools`, cleanup and the test helpers of the Python clients: they are connection plumbing. The client object's `session` and `available_tools` fields are parameters of `ChatWithClaude` and `ProcessQuery`.
- QueryClient.ProcessQuery: the unbounded loop is cut off by `fuel`. When the fuel runs out while the model still asks for tools, the reply is `None`, where the source would go on looping.
- ChatInput.Lower: lower-cases ASCII letters only. Python's `str.lower` also maps other Unicode letters, which only matters for a non-ASCII line compared against the ASCII quit words.
- `KeyboardInterrupt` in the prompt loops, console output and emoji messages: these are I/O.
- JSON numbers are integers, and `Json` objects are unordered maps: Go's `map[string]interface{}` is unordered, and floating point is not modelled. A number the decoder cannot store is the decode oracle's after-decoding error, and the stored value is what the oracle returns. The top level of the JavaScript payload is an ordered member list. The key order inside `params` is not modelled.
- JSON syntax, `json.Marshal` and the HTTP exchange are oracles. Marshalling a response on stdout is not modelled, because values decoded from JSON always marshal.
- `bufio.Scanner`'s 64 KiB line limit and read errors, context cancellation, goroutines, the mutex, signal handling, log flushing and file sync in `proxy.go`: they concern concurrency, shutdown and I/O.
- `url.Parse` is an oracle. It yields the scheme and the digits of the port, or a failure.
- `time.Now()` in `createLogger` is the `Clock` parameter. The `time` tool of `remoteserver.go` reads the wall clock and is not modelled.
- `os.MkdirAll`, `os.OpenFile` and `filepath.Join` are the oracles `mkdirOk`, `openOk` and `join` of `CreateLogFile`. The logger set-up after the file is opened is logging I/O.
- The rest of `npxtest/test-mcp_v1.js` (the HTTP request, the timeout and the test driver) is I/O.
- `direct.py`, `anthroptestmcp.py`, `notworking/shorttest.py` and `servermain.go` are not part of this model. They are connectivity and debug scripts with no logic of their own.

## Findings

| source | as written | input that shows it | evidently intended | confidence | as-written member | corrected member |
|---|---|---|---|---|---|---|
| notworking/antroptest2.py:181-200 | `input()` raises `EOFError` at end of input. `except Exception` catches it, prints it and prompts again, so `chat_loop` never ends. | standard input `hello\n` with no quit line, e.g. piped from a file | end of input ends the chat, like `quit` | high; not executed | ChatInput.AsWrittenNeedsQuit | ChatInput.PromptLoop |
| notworking/antropicmcpremote.py:266-284 | The same loop in `interactive_chat` spins on `EOFError` at end of input. | standard input with no `quit`/`exit`/`q` line | end of input ends the chat | high; not executed | ChatInput.AsWrittenSpinsAtEof | ChatInput.PromptLoop |
