/** `agent_loop`: reason, parse, route, call, observe, until a completion
    carries no actionable tool. The language model, the HTTP exchange and the
    JSON codec are oracles; the loop is given a fuel bound. */
module AgentLoop {
  import opened Wrappers
  import opened JsonValue
  import opened Config
  import opened ActionParser
  import opened ToolRouter
  import opened RpcClient
  import opened Reasoning

  /** The collaborators the loop cannot see into. `model(i, prompt)` is the
      completion of the `i`-th reasoning call (sampling may differ per call);
      `post(i, request)` is the outcome of the `i`-th HTTP post (servers keep
      state); `loads` and `dumps` are `json.loads` and `json.dumps`. */
  datatype Oracles = Oracles(
    model: (nat, string) -> string,
    post: (nat, Request) -> HttpOutcome,
    loads: string -> Result<Json, string>,
    dumps: Json -> string)

  const ObservationLabel: string := "\nObservation: "
  const ErrorLabel: string := "\nError: "

  /** One entry the loop appends to its context. */
  predicate IsNote(t: string)
  {
    ObservationLabel <= t || ErrorLabel <= t
  }

  /** `if tool:`: no parse and the empty tool name both mean "answer". */
  predicate Actionable(parsed: Option<Action>)
  {
    parsed.Some? && parsed.value.tool != ""
  }

  /** The text appended after a tool call: the encoded result, or the text of
      the exception. */
  function Note(result: Result<Json, string>, dumps: Json -> string): (note: string)
    ensures IsNote(note)
    ensures result.Ok? <==> ObservationLabel <= note
    ensures result.Ok? ==> note[|ObservationLabel|..] == dumps(result.value)
    ensures result.Err? ==> note[|ErrorLabel|..] == result.error
  {
    match result
    case Ok(observation) => ObservationLabel + dumps(observation)
    case Err(message) =>
      assert (ErrorLabel + message)[1] != ObservationLabel[1];
      ErrorLabel + message
  }

  /** The tool a request names as its JSON-RPC method. */
  function RequestedTool(r: Request): string
  {
    match r.payload
    case JObject(members) =>
      (match Get(members, "method") case Some(JString(t)) => t case _ => "")
    case _ => ""
  }

  /** A request the loop posted: a non-empty tool, sent to the URL the router
      chose for it. */
  predicate Routed(r: Request)
  {
    RequestedTool(r) != "" && r.url == McpServers[DetermineServer(RequestedTool(r))]
  }

  /** The router's choice is always registered, so a tool call always posts,
      and it posts to the server chosen for the tool. */
  lemma RoutedRequest(tool: string, args: Json)
    requires tool != ""
    ensures Routed(Request(McpServers[DetermineServer(tool)], Payload(tool, args)))
  {
    PayloadFields(tool, args);
  }

  /** The loop's state, with what it has done so far: `context` is the source's
      local string; `seen` holds the context of each reasoning call made, in
      order; `requests` holds every request posted, in order. */
  datatype Session = Session(context: string, seen: seq<string>, requests: seq<Request>)

  const Start: Session := Session("", [], [])

  datatype Turn = Answered(answer: string, after: Session) | Acted(after: Session)

  /** The `post` of the client call made after `n` earlier posts. */
  function PostAt(o: Oracles, n: nat): Request -> HttpOutcome
  {
    req => o.post(n, req)
  }

  /** The completion of the next reasoning call. */
  function NextCompletion(userInput: string, o: Oracles, s: Session): string
  {
    o.model(|s.seen|, Prompt(s.context, userInput))
  }

  /** What a tool call leaves behind: the JSON-RPC request for the action,
      posted to the URL of the server the router picks, and after the old
      context the note of that post's outcome. */
  predicate Recorded(o: Oracles, s: Session, action: Action, after: Session)
  {
    && |after.requests| == |s.requests| + 1 && s.requests <= after.requests
    && after.requests[|s.requests|] ==
         Request(McpServers[DetermineServer(action.tool)], Payload(action.tool, action.args))
    && after.context == s.context +
         Note(ReadResponse(action.tool, o.post(|s.requests|, after.requests[|s.requests|]), o.loads), o.dumps)
  }

  /** Acting and observing: route the tool, call it, append the outcome. */
  function UseTool(o: Oracles, s: Session, action: Action): (after: Session)
    requires action.tool != ""
    ensures after.seen == s.seen
    ensures Appends(s.context, after.context)
    ensures |after.requests| == |s.requests| + 1 && s.requests <= after.requests
    ensures Routed(after.requests[|s.requests|])
    ensures Recorded(o, s, action, after)
  {
    var server := DetermineServer(action.tool);
    var call := CallMcpTool(server, action.tool, action.args, PostAt(o, |s.requests|), o.loads);
    var note := Note(call.result, o.dumps);
    assert (s.context + note)[|s.context|..] == note;
    RoutedRequest(action.tool, action.args);
    s.(context := s.context + note, requests := s.requests + [call.sent.value])
  }

  /** One pass through the body of `while True`. An answer leaves context and
      requests alone and is a completion that is not actionable; a tool call
      appends one note and posts one request. */
  function Iterate(userInput: string, o: Oracles, s: Session): (t: Turn)
    ensures t.after.seen == s.seen + [s.context]
    ensures t.Answered? ==>
      t.answer == NextCompletion(userInput, o, s) && !Actionable(ParseAction(t.answer, o.loads))
      && t.after.context == s.context && t.after.requests == s.requests
    ensures t.Acted? ==>
      Appends(s.context, t.after.context)
      && |t.after.requests| == |s.requests| + 1 && s.requests <= t.after.requests
    ensures t.Acted? ==>
      Actionable(ParseAction(NextCompletion(userInput, o, s), o.loads))
      && Recorded(o, s, ParseAction(NextCompletion(userInput, o, s), o.loads).value, t.after)
  {
    var response := NextCompletion(userInput, o, s);
    var parsed := ParseAction(response, o.loads);
    var s1 := s.(seen := s.seen + [s.context]);
    if !Actionable(parsed) then Answered(response, s1)
    else Acted(UseTool(o, s1, parsed.value))
  }

  /** The request a tool call posts is routed. */
  lemma IterateRoutes(userInput: string, o: Oracles, s: Session)
    ensures Iterate(userInput, o, s).Acted? ==>
      Routed(Iterate(userInput, o, s).after.requests[|s.requests|])
  {
  }

  /** At most `fuel` passes; `None` when the fuel runs out before an answer.
      The loop only appends: to the context, to the contexts seen and to the
      requests posted, and it reasons at least once and at most `fuel` times. */
  function Run(userInput: string, o: Oracles, fuel: nat, s: Session): (r: (Option<string>, Session))
    ensures s.context <= r.1.context && s.seen <= r.1.seen && s.requests <= r.1.requests
    ensures fuel > 0 ==> |s.seen| < |r.1.seen|
    ensures |r.1.seen| <= |s.seen| + fuel
    decreases fuel
  {
    if fuel == 0 then (None, s)
    else
      match Iterate(userInput, o, s)
      case Answered(answer, after) => (Some(answer), after)
      case Acted(after) => Run(userInput, o, fuel - 1, after)
  }

  /** Run's own equation, a proof aid for proofs that `hide` Run's body. */
  lemma RunUnfold(userInput: string, o: Oracles, fuel: nat, s: Session)
    ensures Run(userInput, o, fuel, s) ==
      if fuel == 0 then (None, s)
      else
        match Iterate(userInput, o, s)
        case Answered(answer, after) => (Some(answer), after)
        case Acted(after) => Run(userInput, o, fuel - 1, after)
  {
  }

  /** Iterate's own equation, spelled out step by step: a proof aid for
      proofs that `hide` Iterate's body. */
  lemma IterateUnfold(userInput: string, o: Oracles, s: Session)
    ensures var response := NextCompletion(userInput, o, s);
      var parsed := ParseAction(response, o.loads);
      Iterate(userInput, o, s) ==
        if !Actionable(parsed) then Answered(response, s.(seen := s.seen + [s.context]))
        else
          var tool := parsed.value.tool;
          var call := CallMcpTool(DetermineServer(tool), tool, parsed.value.args, PostAt(o, |s.requests|), o.loads);
          Acted(Session(s.context + Note(call.result, o.dumps), s.seen + [s.context], s.requests + [call.sent.value]))
  {
  }

  /** `b` is `a` with one note appended. */
  ghost predicate Appends(a: string, b: string)
  {
    a <= b && IsNote(b[|a|..])
  }

  /** Successive contexts: the first is empty and each is the previous one
      with one note appended. */
  ghost predicate NoteChain(cs: seq<string>)
  {
    |cs| > 0 && cs[0] == ""
    && forall i :: 0 <= i < |cs| - 1 ==> Appends(cs[i], cs[i + 1])
  }

  ghost predicate AllRouted(requests: seq<Request>)
  {
    forall i :: 0 <= i < |requests| ==> Routed(requests[i])
  }

  /** Between two reasoning calls: every call so far made exactly one post. */
  ghost predicate Pending(s: Session)
  {
    NoteChain(s.seen + [s.context]) && |s.seen| == |s.requests|
  }

  /** After the answer: the last call made no post and left the context as it was. */
  ghost predicate Finished(s: Session)
  {
    NoteChain(s.seen) && s.context == s.seen[|s.seen| - 1] && |s.seen| == |s.requests| + 1
  }

  /** In a chain of contexts every earlier context is a prefix of every later one. */
  lemma {:induction false} ChainGrows(cs: seq<string>, i: nat, j: nat)
    requires NoteChain(cs) && i <= j < |cs|
    ensures cs[i] <= cs[j]
    decreases j - i
  {
    if i < j {
      ChainGrows(cs, i, j - 1);
      assert Appends(cs[j - 1], cs[j]);
    }
  }

  /** Appending one note keeps a chain a chain. */
  lemma ChainExtend(cs: seq<string>, c: string)
    requires NoteChain(cs) && Appends(cs[|cs| - 1], c)
    ensures NoteChain(cs + [c])
  {
    var ds := cs + [c];
    forall i | 0 <= i < |ds| - 1
      ensures Appends(ds[i], ds[i + 1])
    {
      if i < |cs| - 1 {
        assert ds[i] == cs[i] && ds[i + 1] == cs[i + 1];
      }
    }
  }

  /** One pass from a pending state leads to a pending or a finished state. */
  lemma IterateKeeps(userInput: string, o: Oracles, s: Session)
    requires Pending(s)
    ensures Iterate(userInput, o, s).Acted? ==> Pending(Iterate(userInput, o, s).after)
    ensures Iterate(userInput, o, s).Answered? ==> Finished(Iterate(userInput, o, s).after)
  {
    var cs := s.seen + [s.context];
    var t := Iterate(userInput, o, s);
    if t.Answered? {
      assert t.after.seen == cs;
    } else {
      ChainExtend(cs, t.after.context);
      assert t.after.seen + [t.after.context] == cs + [t.after.context];
    }
  }

  /** Every run from a pending state ends finished, or still pending after
      exactly `fuel` more reasoning calls: one post per non-final call. */
  lemma {:induction false} RunKeeps(userInput: string, o: Oracles, fuel: nat, s: Session)
    requires Pending(s)
    ensures var (answer, after) := Run(userInput, o, fuel, s);
      && (answer.None? ==> Pending(after) && |after.seen| == |s.seen| + fuel)
      && (answer.Some? ==> Finished(after))
    decreases fuel
  {
    hide Iterate, Recorded, ParseAction, NextCompletion, Actionable, Note;
    if fuel > 0 {
      var t := Iterate(userInput, o, s);
      IterateKeeps(userInput, o, s);
      if t.Acted? {
        RunKeeps(userInput, o, fuel - 1, t.after);
      }
    }
  }

  /** The answer is the completion of the last reasoning call, made on the
      last context, and it carries no actionable tool. */
  lemma {:induction false} RunAnswers(userInput: string, o: Oracles, fuel: nat, s: Session)
    ensures var (answer, after) := Run(userInput, o, fuel, s);
      answer.Some? ==>
        && after.seen != [] && after.context == after.seen[|after.seen| - 1]
        && answer.value == o.model(|after.seen| - 1, Prompt(after.context, userInput))
        && !Actionable(ParseAction(answer.value, o.loads))
    decreases fuel
  {
    hide Iterate, Recorded, Note, ParseAction, Actionable, Prompt;
    if fuel > 0 {
      var t := Iterate(userInput, o, s);
      if t.Acted? {
        RunAnswers(userInput, o, fuel - 1, t.after);
      }
    }
  }

  /** Every request posted goes to the server the router picks for its tool. */
  lemma {:induction false} RunRoutes(userInput: string, o: Oracles, fuel: nat, s: Session)
    requires AllRouted(s.requests)
    ensures AllRouted(Run(userInput, o, fuel, s).1.requests)
    decreases fuel
  {
    hide Iterate, Recorded, Routed, ParseAction, NextCompletion, Actionable, Note;
    if fuel > 0 {
      var t := Iterate(userInput, o, s);
      if t.Acted? {
        IterateRoutes(userInput, o, s);
        assert t.after.requests == s.requests + [t.after.requests[|s.requests|]];
        RunRoutes(userInput, o, fuel - 1, t.after);
      }
    }
  }

  /** The loop's promises from a fresh start, for every oracle and every fuel. */
  lemma AgentLoopSpec(userInput: string, o: Oracles, fuel: nat)
    ensures var (answer, s) := Run(userInput, o, fuel, Start);
      && (fuel > 0 ==> |s.seen| > 0 && s.seen[0] == "")
      && (forall i, j :: 0 <= i <= j < |s.seen| ==> s.seen[i] <= s.seen[j] <= s.context)
      && (answer.Some? ==>
            |s.seen| == |s.requests| + 1
            && answer.value == o.model(|s.seen| - 1, Prompt(s.seen[|s.seen| - 1], userInput))
            && !Actionable(ParseAction(answer.value, o.loads)))
      && (answer.None? ==> |s.seen| == |s.requests| == fuel)
      && AllRouted(s.requests)
  {
    assert Pending(Start);
    RunKeeps(userInput, o, fuel, Start);
    RunAnswers(userInput, o, fuel, Start);
    RunRoutes(userInput, o, fuel, Start);
    var (answer, s) := Run(userInput, o, fuel, Start);
    var cs := if answer.Some? then s.seen else s.seen + [s.context];
    assert NoteChain(cs);
    forall i, j | 0 <= i <= j < |s.seen| ensures s.seen[i] <= s.seen[j] <= s.context {
      ChainGrows(cs, i, j);
      ChainGrows(cs, j, |cs| - 1);
      assert cs[i] == s.seen[i] && cs[j] == s.seen[j];
    }
  }

  /** `agent_loop(user_input)`, with at most `fuel` reasoning calls. The
      session it also returns records the loop's context, the context of every
      reasoning call and every request posted. */
  method AgentLoop(userInput: string, o: Oracles, fuel: nat) returns (answer: Option<string>, session: Session)
    ensures (answer, session) == Run(userInput, o, fuel, Start)
    ensures answer.Some? ==>
      |session.seen| == |session.requests| + 1 && !Actionable(ParseAction(answer.value, o.loads))
    ensures answer.None? ==> |session.seen| == |session.requests| == fuel
  {
    hide Run, Iterate, Recorded, Prompt, ParseAction, CallMcpTool, DetermineServer;
    var context := "";
    var seen: seq<string> := [];
    var requests: seq<Request> := [];
    var steps := 0;
    while steps < fuel
      invariant steps <= fuel
      invariant Run(userInput, o, fuel - steps, Session(context, seen, requests)) == Run(userInput, o, fuel, Start)
      decreases fuel - steps
    {
      ghost var before := Session(context, seen, requests);
      RunUnfold(userInput, o, fuel - steps, before);
      IterateUnfold(userInput, o, before);
      var response := o.model(|seen|, Prompt(context, userInput));
      var parsed := ParseAction(response, o.loads);
      seen := seen + [context];
      if !Actionable(parsed) {
        answer, session := Some(response), Session(context, seen, requests);
        AgentLoopSpec(userInput, o, fuel);
        return;
      }
      var tool := parsed.value.tool;
      var server := DetermineServer(tool);
      var call := CallMcpTool(server, tool, parsed.value.args, PostAt(o, |requests|), o.loads);
      match call.result {
        case Ok(observation) =>
          context := context + ObservationLabel + o.dumps(observation);
        case Err(message) =>
          context := context + ErrorLabel + message;
      }
      if call.sent.Some? {
        requests := requests + [call.sent.value];
      }
      assert context == before.context + Note(call.result, o.dumps);
      assert Iterate(userInput, o, before) == Acted(Session(context, seen, requests));
      steps := steps + 1;
    }
    answer, session := None, Session(context, seen, requests);
    RunUnfold(userInput, o, 0, session);
    AgentLoopSpec(userInput, o, fuel);
  }
}
