# Shapla agent core in Dafny

This project models the core of the Shapla agent (`shapla_agent.py`). The
agent is a reason–act–observe loop. A small language model is prompted with
a fixed system prompt, the context gathered so far and the user's query. If
its completion starts with `ACTION:`, the text is parsed into a tool name and
JSON arguments. The tool is routed to one of four MCP servers and called over
JSON-RPC 2.0. The result, or the error text, is appended to the context and
the model is asked again. The first completion that names no tool is
returned as the answer.

Modules, one per concern of the source file:

- `Wrappers`: `Option` and `Result`.
- `PyStr`: the parts of Python's `str` the parser uses:
  - `strip()`, over the characters `str.isspace` accepts
  - `rstrip(")")`
  - the first-occurrence search behind `split("(", 1)`
- `JsonValue`: JSON values as a datatype.
  - Objects keep their members in order.
  - `dict.get` returns the last duplicate, as `json.loads` keeps the last one.
  - Python's type name of a decoded value is modelled.
- `Config`: the server registry `MCP_SERVERS` and the system prompt text.
- `ToolRouter`: `determine_server`.
- `Reasoning`: the prompt that `reason` builds.
- `ActionParser`: `parse_action`.
- `RpcClient`: `call_mcp_tool`. This covers:
  - the registry lookup
  - the request body
  - the status check
  - the `result` lookup
  - the messages of the exceptions it raises
- `AgentLoop`: `agent_loop`, in two forms:
  - a function `Run` over a fuel bound, whose properties are proved
  - an imperative `AgentLoop` method with the source's `while` loop, proved equal to `Run`
- `Scenarios`: whole-loop behaviour on particular completions.

The model, the HTTP post and the JSON codec are oracles, passed as function
parameters (`Oracles`):

- `model(i, prompt)` is the completion of the `i`-th reasoning call.
- `post(i, request)` is the outcome of the `i`-th post.
- `loads` and `dumps` are `json.loads` and `json.dumps`.

The properties hold for every choice of these functions. Every exception
`call_mcp_tool` raises, or that `requests.post` and `json.loads` raise inside
it, becomes `Err(message)`, where the message is the text `str(e)` gives; the
`except Exception` of `agent_loop` turns that message into an error note. The
exceptions `parse_action` catches (no `(` to split at, undecodable arguments)
become "no action", as its bare `except` returns `None, None`.

What the code does at its edges, all modelled as written:

- Every trailing `)` is removed before decoding (`rstrip(")")`), so
  `ACTION: f({}))` decodes `{}`.
- Any JSON value is accepted as the arguments, not only an object.
- A parsed action with an empty tool name (`ACTION: ({})`) is treated as an
  answer, because `if tool:` is false for `""`.
- A 200 response without a `result` member yields JSON `null`, which the loop
  records as an observation, not as an error.
- A 200 response whose body is not a JSON object fails with the text of the
  `AttributeError` that `.get` raises.

## Model

| member | source | states |
|---|---|---|
| PyStr.Strip | shapla_agent.py:33 | the result is no longer than the input, contains only characters of the input, and is empty or starts and ends with a kept character |
| PyStr.IndexOf | shapla_agent.py:35 | `None` exactly when the character is absent; otherwise the index of its first occurrence |
| PyStr.StripIsSlice | shapla_agent.py:33 | the stripped text is a slice `s[i..j]` of the input and every character outside it is a stripped one |
| PyStr.StripIdempotent | shapla_agent.py:33 | stripping twice gives the same text as stripping once |
| PyStr.StripIgnoresTrailing | shapla_agent.py:33 | appending stripped characters does not change the result of strip |
| PyStr.StripKeeps | shapla_agent.py:33 | text that begins and ends with kept characters is unchanged by strip |
| PyStr.StripDropsFront | shapla_agent.py:33 | a leading stripped character does not affect the result |
| PyStr.TrailingAbsorbsTail | shapla_agent.py:36 | `rstrip` removes an appended run of stripped characters together with those already trailing |
| JsonValue.LastIndex | shapla_agent.py:57 | `None` exactly when no member has the key; otherwise the position of the last member with it |
| JsonValue.Get | shapla_agent.py:57 | the lookup fails exactly when the key is not among the object's keys; otherwise it gives the value of the last member with that key |
| JsonValue.PyTypeName | shapla_agent.py:57 | the Python type name is `dict` exactly for objects, `list` for arrays, `str` for strings, `NoneType` for null, `bool` for booleans, and `int` or `float` for numbers; it names the type in the `AttributeError` text of `.get` on a body that is not an object |
| ToolRouter.DetermineServer | shapla_agent.py:62-71 | the chosen server is always registered; each of the four servers is chosen exactly for its tool group, and the orchestrator takes every other name |
| Reasoning.Prompt | shapla_agent.py:26 | no contract of its own: the f-string of `reason`, whose layout PromptLayout states |
| Config.McpServers | shapla_agent.py:7-12 | the four server keys and their URLs |
| Config.SystemPrompt | shapla_agent.py:18-22 | the system prompt, character for character, with the newline after the opening quotes and before the closing ones |
| Reasoning.PromptLayout | shapla_agent.py:26 | the prompt is the system prompt, `\nContext: `, the context, `\nUser: `, the input and `\nAgent:`, in that order, and its length is their sum |
| Reasoning.PromptDeterminesContext | shapla_agent.py:26 | for a fixed user input, different contexts give different prompts |
| Reasoning.PromptSplitAmbiguous | shapla_agent.py:26 | context text containing `\nUser: ` gives the same prompt as a different context and user input, so the prompt cannot be split back |
| ActionParser.ArgumentText | shapla_agent.py:36 | the decoded text is a prefix of the text after `(`, the rest is all `)`, and it does not end in `)` |
| ActionParser.ParseAction | shapla_agent.py:30-41 | no marker gives no action; a parsed tool name contains no `(` and has no surrounding whitespace |
| ActionParser.SplitAtIndexOf | shapla_agent.py:35 | every split into name, `(` and a rest with no `(` in the name sits at the first `(` |
| ActionParser.SplitUnique | shapla_agent.py:35 | at most one such split exists |
| ActionParser.ParseViaSplit | shapla_agent.py:33-38 | given a split, the parse is exactly the decoding of the argument text, with the stripped name |
| ActionParser.ParseActionExactly | shapla_agent.py:30-41 | a completion parses to a tool and arguments if and only if it has the marker, splits at a `(`, the tool is the stripped name and the argument text decodes to the arguments |
| ActionParser.TrailingWhitespaceIgnored | shapla_agent.py:32-33 | appending whitespace to a completion does not change its parse |
| ActionParser.TrailingTextReachesDecoder | shapla_agent.py:36-38 | argument text that does not end in `)` goes to the decoder unchanged; an undecodable one gives no action |
| ActionParser.AllClosingParensRemoved | shapla_agent.py:36-37 | however many `)` follow the body, only the body reaches the decoder |
| RpcClient.Payload | shapla_agent.py:49-54 | the body is an object with the keys `jsonrpc`, `method`, `params`, `id` in that order |
| RpcClient.PayloadFields | shapla_agent.py:49-54 | the body carries `"2.0"`, the tool as method, the arguments unchanged, and id 1 |
| RpcClient.PrepareCall | shapla_agent.py:45-47 | fails with `Unknown server: <key>` exactly when the key is not registered; otherwise targets that server's URL with the JSON-RPC body |
| RpcClient.ReadResponse | shapla_agent.py:55-60 | a transport failure passes its message through; a non-200 status fails with `Error calling <tool>: <body>`; a 200 status succeeds exactly when the body decodes to an object |
| RpcClient.MissingResultIsNull | shapla_agent.py:57 | a 200 object body without `result` yields null, not an error |
| RpcClient.LastResultReturned | shapla_agent.py:57 | a 200 object body yields the value of its last `result` member |
| RpcClient.CallMcpTool | shapla_agent.py:43-60 | nothing is posted exactly when the key is unknown, and then the call fails with the unknown-server message; otherwise exactly the JSON-RPC request goes to the registered URL and the result is read from the outcome |
| AgentLoop.Note | shapla_agent.py:84-88 | the appended text starts with `\nObservation: ` exactly when the call succeeded, followed by the encoded result; otherwise `\nError: ` followed by the exception text |
| AgentLoop.RoutedRequest | shapla_agent.py:82-84 | for any non-empty tool, the request built goes to the URL of the server the router picks and names the tool as its method |
| AgentLoop.Actionable | shapla_agent.py:80 | no contract of its own: `if tool:`, true exactly when the parse gave a non-empty tool name |
| AgentLoop.UseTool | shapla_agent.py:82-88 | a tool call posts exactly one request, the JSON-RPC request for the action's tool and arguments to the URL of the server the router picks, and appends to the old context exactly the note of that post's outcome |
| AgentLoop.Iterate | shapla_agent.py:77-91 | a pass answers exactly when the completion of this call on the current context names no actionable tool, and then changes neither context nor requests; otherwise it posts the JSON-RPC request for the parsed tool and arguments to the router's server and appends the note of that post's outcome |
| AgentLoop.IterateRoutes | shapla_agent.py:80-84 | the request a pass posts is routed to its tool's server |
| AgentLoop.ChainGrows | shapla_agent.py:86-88 | in a sequence of contexts built by appending notes, each earlier context is a prefix of each later one |
| AgentLoop.ChainExtend | shapla_agent.py:86-88 | appending one note to the last context keeps the sequence a chain |
| AgentLoop.IterateKeeps | shapla_agent.py:76-91 | one pass keeps the invariant: one reasoning call per posted request, plus one for the final answer |
| AgentLoop.Run | shapla_agent.py:73-91 | the loop only appends, to the context, to the contexts reasoned on and to the requests posted, and with fuel it reasons at least once and at most `fuel` times |
| AgentLoop.RunKeeps | shapla_agent.py:76-91 | the run ends finished, or after exactly `fuel` more reasoning calls with one post for each |
| AgentLoop.RunAnswers | shapla_agent.py:77-91 | the answer is the verbatim completion of the last reasoning call on the final context, and it names no actionable tool |
| AgentLoop.RunRoutes | shapla_agent.py:80-84 | every request posted during the run is routed to its tool's server |
| AgentLoop.AgentLoopSpec | shapla_agent.py:73-91 | from an empty context, each context reasoned on extends the previous ones. An answer follows one post per earlier reasoning call and is the unparsed completion; every post is routed |
| AgentLoop.AgentLoop | shapla_agent.py:73-91 | the imperative loop returns exactly what `Run` does, and the answer's bookkeeping and fuel bounds follow |
| Scenarios.FirstTurnAnswers | shapla_agent.py:77-91 | a first completion with no actionable tool is returned after one reasoning call and no post |
| Scenarios.AnswersNow | shapla_agent.py:77-91 | whenever the next completion names no actionable tool, the run ends with that completion and posts nothing more |
| Scenarios.ToolCallTurn | shapla_agent.py:77-88 | a pass whose completion is `ACTION: name(body)` with a decodable body posts the JSON-RPC request for that tool to its server's URL and appends the note of that post's outcome |
| Scenarios.MemoryFirstTurn | shapla_agent.py:82-88 | `ACTION: create_entities({"name": "x"})` posts one request to `http://localhost:8082`, and the context becomes the note of its outcome |
| Scenarios.DirectAnswer | shapla_agent.py:32-41 | a first completion without the marker is the answer, and nothing is posted |
| Scenarios.SingleCallParses | shapla_agent.py:30-41 | `ACTION: name(body)` with a tidy name parses to that name and the decoded body, or to no action when the body does not decode |
| Scenarios.MalformedArgumentsAnswer | shapla_agent.py:37-40 | `ACTION: click(not json)` with an undecodable body is returned verbatim as the answer, and nothing is posted |
| Scenarios.EmptyToolNameAnswers | shapla_agent.py:80-91 | `ACTION: ({})` parses to the empty tool and is returned as the answer |
| Scenarios.GotoExample | shapla_agent.py:64-65 | `ACTION: goto({"url": ...})` parses to `goto` and the decoded object, routed to Playwright |
| Scenarios.MemoryCallThenAnswer | shapla_agent.py:73-91 | `create_entities` followed by `Done.` makes two reasoning calls and posts one request, to the memory server at `http://localhost:8082`; the context is the note of that call's outcome, and the answer is `Done.` |

## Left out

- Model inference (ctransformers, `max_new_tokens=512`, `temperature=0.7`, lines 3, 6, 15, 27) is the `model` oracle. Sampling, token limits and exceptions raised by the backend are not modelled.
- `requests.post` (line 55) is the `post` oracle. Connection handling, timeouts and headers are not modelled. A transport exception is a `TransportFailure` carrying its `str(e)` text.
- `json.loads` and `json.dumps` (lines 37, 57, 86) are the `loads` and `dumps` oracles. The JSON grammar and Python's float and int conversion are not modelled. JSON numbers keep their literal text.
- AgentLoop.AgentLoop: the source loop has no bound. The model takes a `fuel` bound on reasoning calls and returns `None` when it runs out. A run that never answers is therefore represented only by its first `fuel` steps.
- The `__main__` block (lines 94-97), with its console input and output, is not part of this model.
- `run_server.py` is not part of this model. It only starts a server process.
- The `\n` and other characters are `char` values. No encoding, normalisation or byte handling is modelled, because the source works on Python `str` throughout.
- Exceptions outside `Exception` (for example `KeyboardInterrupt`, which the bare `except:` in `parse_action` would also catch) are not modelled.
