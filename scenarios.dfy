/** End-to-end behaviour of the agent on particular completions: a direct
    answer, a malformed action, an empty tool name, and one tool call
    followed by an answer. */
module Scenarios {
  import opened Wrappers
  import opened PyStr
  import opened JsonValue
  import opened Config
  import opened ActionParser
  import opened ToolRouter
  import opened RpcClient
  import opened Reasoning
  import opened AgentLoop

  /** A first completion without the marker is returned unchanged after one
      reasoning call and no tool call. */
  lemma DirectAnswer(userInput: string, o: Oracles, fuel: nat)
    requires fuel > 0
    requires !(Marker <= o.model(0, Prompt("", userInput)))
    ensures Run(userInput, o, fuel, Start) == (Some(o.model(0, Prompt("", userInput))), Session("", [""], []))
  {
    FirstTurnAnswers(userInput, o, fuel);
  }

  /** When the first completion is not actionable, it is the answer. */
  lemma FirstTurnAnswers(userInput: string, o: Oracles, fuel: nat)
    requires fuel > 0
    requires !Actionable(ParseAction(o.model(0, Prompt("", userInput)), o.loads))
    ensures Run(userInput, o, fuel, Start) == (Some(o.model(0, Prompt("", userInput))), Session("", [""], []))
  {
    hide Run, Iterate, ParseAction, Prompt;
    assert NextCompletion(userInput, o, Start) == o.model(0, Prompt("", userInput));
    AnswersNow(userInput, o, fuel, Start);
    assert Start.(seen := Start.seen + [Start.context]) == Session("", [""], []);
  }

  /** Whenever the next completion is not actionable, the run ends with it. */
  lemma AnswersNow(userInput: string, o: Oracles, fuel: nat, s: Session)
    requires fuel > 0
    requires !Actionable(ParseAction(NextCompletion(userInput, o, s), o.loads))
    ensures Run(userInput, o, fuel, s) == (Some(NextCompletion(userInput, o, s)), s.(seen := s.seen + [s.context]))
  {
    hide Run, Iterate, ParseAction, Prompt;
    RunUnfold(userInput, o, fuel, s);
    IterateUnfold(userInput, o, s);
  }

  /** A completion of the form `ACTION: name(body)` with a tidy name is
      parsed into that name and whatever the body decodes to. */
  lemma SingleCallParses(name: string, body: string, loads: string -> Result<Json, string>)
    requires '(' !in name
    requires name == [] || (!IsSpace(name[0]) && !IsSpace(name[|name| - 1]))
    requires body == [] || body[|body| - 1] != ')'
    ensures ParseAction(Marker + " " + name + "(" + body + ")", loads) ==
      if loads(body).Ok? then Some(Action(name, loads(body).value)) else None
  {
    hide ParseAction, Strip, ArgumentText;
    var response := Marker + " " + name + "(" + body + ")";
    var rest := name + "(" + (body + ")");
    assert response[|Marker|..] == [' '] + rest;
    StripDropsFront(' ', rest, IsSpace);
    assert rest[0] == if name == [] then '(' else name[0];
    assert rest[|rest| - 1] == ')';
    StripKeeps(rest, IsSpace);
    assert Splits(response, name, body + ")");
    AllClosingParensRemoved(response, name, body, ")", loads);
    if name != [] {
      StripKeeps(name, IsSpace);
    }
  }

  /** `click(not json)`: the marker and the `(` are there, but the argument
      text does not decode, so the completion is the answer and nothing is posted. */
  lemma MalformedArgumentsAnswer(userInput: string, o: Oracles, fuel: nat)
    requires fuel > 0
    requires o.model(0, Prompt("", userInput)) == "ACTION: click(not json)"
    requires o.loads("not json").Err?
    ensures Run(userInput, o, fuel, Start) == (Some("ACTION: click(not json)"), Session("", [""], []))
  {
    hide ParseAction, Prompt, Run, Iterate, Strip, DetermineServer;
    SingleCallParses("click", "not json", o.loads);
    assert Marker + " " + "click" + "(" + "not json" + ")" == "ACTION: click(not json)";
    FirstTurnAnswers(userInput, o, fuel);
  }

  /** `({})` names the empty tool: it parses, yet the loop treats it as an answer. */
  lemma EmptyToolNameAnswers(userInput: string, o: Oracles, fuel: nat)
    requires fuel > 0
    requires o.model(0, Prompt("", userInput)) == "ACTION: ({})"
    requires o.loads("{}") == Ok(JObject([]))
    ensures ParseAction("ACTION: ({})", o.loads) == Some(Action("", JObject([])))
    ensures Run(userInput, o, fuel, Start) == (Some("ACTION: ({})"), Session("", [""], []))
  {
    hide ParseAction, Prompt, Run, Iterate, Strip, DetermineServer;
    SingleCallParses("", "{}", o.loads);
    assert Marker + " " + "" + "(" + "{}" + ")" == "ACTION: ({})";
    FirstTurnAnswers(userInput, o, fuel);
  }

  /** The arguments of the browser example. */
  const GotoArgs := "{\"url\": \"http://example.com\"}"

  /** The browser example `ACTION: goto({"url": "http://example.com"})`: the
      tool is `goto`, the arguments are the decoded object, and the router
      picks the Playwright server. */
  lemma GotoExample(loads: string -> Result<Json, string>, args: Json)
    requires loads(GotoArgs) == Ok(args)
    ensures ParseAction("ACTION: goto(" + GotoArgs + ")", loads) == Some(Action("goto", args))
    ensures DetermineServer("goto") == "playwright"
  {
    hide ParseAction, Strip, DetermineServer;
    assert "goto" == BrowserTools[0];
    SingleCallParses("goto", GotoArgs, loads);
    assert "ACTION: goto(" == Marker + " " + "goto" + "(";
  }

  /** The arguments of the memory example. */
  const EntityArgs := "{\"name\": \"x\"}"

  /** A pass whose completion is `ACTION: name(body)`, with a non-empty tidy
      name and a decodable body, posts the JSON-RPC request to the name's server
      and appends the note of its outcome. */
  lemma ToolCallTurn(userInput: string, o: Oracles, s: Session, name: string, body: string, args: Json)
    requires NextCompletion(userInput, o, s) == Marker + " " + name + "(" + body + ")"
    requires name != [] && '(' !in name && !IsSpace(name[0]) && !IsSpace(name[|name| - 1])
    requires body == [] || body[|body| - 1] != ')'
    requires o.loads(body) == Ok(args)
    ensures Iterate(userInput, o, s).Acted?
    ensures Iterate(userInput, o, s).after.seen == s.seen + [s.context]
    ensures Recorded(o, s, Action(name, args), Iterate(userInput, o, s).after)
  {
    hide ParseAction, Prompt, Iterate, Strip, DetermineServer, Payload, NextCompletion, Recorded;
    SingleCallParses(name, body, o.loads);
  }

  /** The first pass of the memory example posts the `create_entities`
      request to the memory server. */
  lemma MemoryFirstTurn(userInput: string, o: Oracles, args: Json)
    requires o.model(0, Prompt("", userInput)) == "ACTION: create_entities(" + EntityArgs + ")"
    requires o.loads(EntityArgs) == Ok(args)
    ensures Iterate(userInput, o, Start).Acted?
    ensures Iterate(userInput, o, Start).after.seen == [""]
    ensures Iterate(userInput, o, Start).after.requests ==
      [Request("http://localhost:8082", Payload("create_entities", args))]
    ensures Iterate(userInput, o, Start).after.context ==
      Note(ReadResponse("create_entities", o.post(0, Iterate(userInput, o, Start).after.requests[0]), o.loads), o.dumps)
  {
    hide ParseAction, Prompt, Iterate, Strip, DetermineServer, Payload, Note, ReadResponse;
    assert "create_entities" == MemoryTools[1];
    assert "ACTION: create_entities(" == Marker + " " + "create_entities" + "(";
    assert NextCompletion(userInput, o, Start) == Marker + " " + "create_entities" + "(" + EntityArgs + ")";
    ToolCallTurn(userInput, o, Start, "create_entities", EntityArgs, args);
  }

  /** `ACTION: create_entities({"name": "x"})` followed by `Done.`: two
      reasoning calls, one request to the memory server whose outcome is the
      only note in the context, and the second completion as the answer. */
  lemma MemoryCallThenAnswer(userInput: string, o: Oracles, fuel: nat, args: Json)
    requires fuel > 1
    requires o.model(0, Prompt("", userInput)) == "ACTION: create_entities(" + EntityArgs + ")"
    requires o.loads(EntityArgs) == Ok(args)
    requires forall p :: o.model(1, p) == "Done."
    ensures var (answer, s) := Run(userInput, o, fuel, Start);
      && answer == Some("Done.")
      && |s.seen| == 2
      && s.requests == [Request("http://localhost:8082", Payload("create_entities", args))]
      && s.context == Note(ReadResponse("create_entities", o.post(0, s.requests[0]), o.loads), o.dumps)
  {
    hide ParseAction, Prompt, Run, Iterate, Payload, Note, ReadResponse;
    MemoryFirstTurn(userInput, o, args);
    assert !(Marker <= "Done.");
    RunUnfold(userInput, o, fuel, Start);
    var after := Iterate(userInput, o, Start).after;
    assert NextCompletion(userInput, o, after) == "Done.";
    AnswersNow(userInput, o, fuel - 1, after);
  }
}
