/** `parse_action`: recognises a tool call in a model completion of the form
    `ACTION: name(json)`. Every failure, including a missing `(` and argument
    text the decoder rejects, gives no action. */
module ActionParser {
  import opened Wrappers
  import opened PyStr
  import opened JsonValue

  const Marker: string := "ACTION:"

  datatype Action = Action(tool: string, args: Json)

  predicate IsCloseParen(c: char)
  {
    c == ')'
  }

  /** `args_str.rstrip(")")`: every trailing `)` goes, not just the last one. */
  function ArgumentText(afterParen: string): (t: string)
    ensures t <= afterParen
    ensures forall k :: |t| <= k < |afterParen| ==> afterParen[k] == ')'
    ensures t == [] || t[|t| - 1] != ')'
  {
    RStrip(afterParen, IsCloseParen)
  }

  /** The model's completion, the decoder standing for `json.loads`. */
  function ParseAction(response: string, loads: string -> Result<Json, string>): (r: Option<Action>)
    ensures !(Marker <= response) ==> r == None
    ensures r.Some? ==> '(' !in r.value.tool
    ensures r.Some? ==>
      (r.value.tool == [] || (!IsSpace(r.value.tool[0]) && !IsSpace(r.value.tool[|r.value.tool| - 1])))
  {
    if Marker <= response then
      var actionStr := StripSpace(response[|Marker|..]);
      match IndexOf(actionStr, '(')
      case None => None
      case Some(i) =>
        match loads(ArgumentText(actionStr[i + 1..]))
        case Err(_) => None
        case Ok(args) => Some(Action(StripSpace(actionStr[..i]), args))
    else None
  }

  /** `response` is the marker followed by text that, once whitespace-stripped,
      is `name`, the first `(`, and `argText`. */
  ghost predicate Splits(response: string, name: string, argText: string)
  {
    Marker <= response
    && StripSpace(response[|Marker|..]) == name + "(" + argText
    && '(' !in name
  }

  /** A split always sits at the first `(`. */
  lemma {:induction false} SplitAtIndexOf(response: string, name: string, argText: string)
    requires Splits(response, name, argText)
    ensures IndexOf(StripSpace(response[|Marker|..]), '(') == Some(|name|)
  {
    var s := StripSpace(response[|Marker|..]);
    assert s[..|name|] == name;
    assert forall j :: 0 <= j < |name| ==> s[j] != '(';
    assert s[|name|] == '(';
    var i := IndexOf(s, '(').value;
    assert forall j :: 0 <= j < i ==> s[..i][j] != '(';
    assert forall j :: 0 <= j < i ==> s[j] != '(';
  }

  /** The split at the first `(` is unique. */
  lemma {:induction false} SplitUnique(response: string, n1: string, a1: string, n2: string, a2: string)
    requires Splits(response, n1, a1) && Splits(response, n2, a2)
    ensures n1 == n2 && a1 == a2
  {
    var s := StripSpace(response[|Marker|..]);
    SplitAtIndexOf(response, n1, a1);
    SplitAtIndexOf(response, n2, a2);
    assert n1 == s[..|n1|] && n2 == s[..|n2|];
    assert a1 == s[|n1| + 1..] && a2 == s[|n2| + 1..];
  }

  /** Whenever a split exists, the parser decodes its argument text. */
  lemma {:induction false} ParseViaSplit(response: string, name: string, argText: string,
                                         loads: string -> Result<Json, string>)
    requires Splits(response, name, argText)
    ensures ParseAction(response, loads) ==
      match loads(ArgumentText(argText))
      case Ok(a) => Some(Action(StripSpace(name), a))
      case Err(_) => None
  {
    var s := StripSpace(response[|Marker|..]);
    SplitAtIndexOf(response, name, argText);
    assert s[..|name|] == name;
    assert s[|name| + 1..] == argText;
  }

  /** A tool call is recognised exactly when the completion splits as the marker,
      a name, `(`, and argument text whose trailing `)`s removed decode; the tool
      is the stripped name and the arguments are the decoded value. */
  lemma ParseActionExactly(response: string, loads: string -> Result<Json, string>, tool: string, args: Json)
    ensures ParseAction(response, loads) == Some(Action(tool, args)) <==>
      exists name, argText :: Splits(response, name, argText)
        && tool == StripSpace(name) && loads(ArgumentText(argText)) == Ok(args)
  {
    hide StripSpace, ArgumentText;
    if ParseAction(response, loads) == Some(Action(tool, args)) {
      var s := StripSpace(response[|Marker|..]);
      var i := IndexOf(s, '(').value;
      assert s == s[..i] + "(" + s[i + 1..];
      assert Splits(response, s[..i], s[i + 1..]);
    }
    if exists name, argText :: Splits(response, name, argText)
        && tool == StripSpace(name) && loads(ArgumentText(argText)) == Ok(args) {
      var name, argText :| Splits(response, name, argText)
        && tool == StripSpace(name) && loads(ArgumentText(argText)) == Ok(args);
      ParseViaSplit(response, name, argText, loads);
    }
  }

  /** Whitespace at the end of the completion, a trailing newline included,
      does not change the outcome. */
  lemma TrailingWhitespaceIgnored(response: string, ws: string, loads: string -> Result<Json, string>)
    requires forall k :: 0 <= k < |ws| ==> IsSpace(ws[k])
    ensures ParseAction(response + ws, loads) == ParseAction(response, loads)
  {
    if Marker <= response {
      assert (response + ws)[|Marker|..] == response[|Marker|..] + ws;
      StripIgnoresTrailing(response[|Marker|..], ws, IsSpace);
    } else if |response| < |Marker| && ws != [] {
      var k := |response|;
      assert (response + ws)[k] == ws[0];
      assert IsSpace(ws[0]) && !IsSpace(Marker[k]);
    }
  }

  /** Text after the closing `)` that does not itself end in `)` reaches the
      decoder unchanged, so the call then stands or falls with the decoder. */
  lemma TrailingTextReachesDecoder(response: string, name: string, argText: string,
                                   loads: string -> Result<Json, string>)
    requires Splits(response, name, argText)
    requires argText != [] && argText[|argText| - 1] != ')'
    ensures ParseAction(response, loads) ==
      if loads(argText).Ok? then Some(Action(StripSpace(name), loads(argText).value)) else None
  {
    ParseViaSplit(response, name, argText, loads);
    assert CountTrailing(argText, IsCloseParen) == 0;
    assert ArgumentText(argText) == argText;
  }

  /** All trailing `)` are removed before decoding, however many there are. */
  lemma AllClosingParensRemoved(response: string, name: string, body: string, closers: string,
                                loads: string -> Result<Json, string>)
    requires Splits(response, name, body + closers)
    requires body == [] || body[|body| - 1] != ')'
    requires forall k :: 0 <= k < |closers| ==> closers[k] == ')'
    ensures ParseAction(response, loads) ==
      if loads(body).Ok? then Some(Action(StripSpace(name), loads(body).value)) else None
  {
    ParseViaSplit(response, name, body + closers, loads);
    if body != [] {
      assert CountTrailing(body, IsCloseParen) == 0;
    }
    assert RStrip(body, IsCloseParen) == body;
    TrailingAbsorbsTail(body, closers, IsCloseParen);
  }
}
