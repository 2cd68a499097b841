/**
 * Rendering an assistant message with tool calls, and parsing it back. JSON is a
 * parameter: `load` reads an arguments text, `quote` writes a string as JSON, and `JsonOk`
 * is what the two must satisfy together.
 */
module Dsml {
  import opened Prelude

  const Bar: char := '｜'

  function ThinkStart(): string { "<think>" }
  function ThinkEnd(): string { "</think>" }
  function Bos(): string { "<｜begin▁of▁sentence｜>" }
  function Eos(): string { "<｜end▁of▁sentence｜>" }
  function DsmlToken(): string { "｜DSML｜" }
  function CallsOpen(): string { "\n\n<｜DSML｜tool_calls" }
  function CallsEnd(): string { "</｜DSML｜tool_calls>" }
  function InvokeOpen(): string { "<｜DSML｜invoke" }
  function InvokeEnd(): string { "</｜DSML｜invoke" }
  function ParamOpen(): string { "<｜DSML｜parameter" }
  function ParamEnd(): string { "/｜DSML｜parameter" }

  // ---------------------------------------------------------------------------
  // Searching
  // ---------------------------------------------------------------------------

  predicate At(s: string, pat: string, p: nat) {
    p + |pat| <= |s| && s[p..p + |pat|] == pat
  }

  /** First occurrence at or after p, or -1. */
  function FindFrom(s: string, pat: string, p: nat): (r: int)
    requires p <= |s|
    ensures r == -1 || p <= r <= |s|
    decreases |s| - p
  {
    if At(s, pat, p) then p else if p == |s| then -1 else FindFrom(s, pat, p + 1)
  }

  lemma {:induction false} FindIsFirst(s: string, pat: string, p: nat)
    requires p <= |s|
    ensures var r := FindFrom(s, pat, p);
      && (r >= 0 ==> At(s, pat, r))
      && (forall q :: p <= q <= |s| && (r < 0 || q < r) ==> !At(s, pat, q))
    decreases |s| - p
  {
    if !At(s, pat, p) && p < |s| {
      FindIsFirst(s, pat, p + 1);
    }
  }

  predicate Contains(s: string, pat: string) { FindFrom(s, pat, 0) >= 0 }

  datatype Cut = Cut(index: nat, content: string, stop: Option<string>)

  /** Earliest stop from `index` on; the first of the list wins a tie. */
  function Earliest(s: string, index: nat, stops: seq<string>): (r: (nat, Option<string>))
    requires index <= |s|
    ensures index <= r.0 <= |s| && (r.1.None? ==> r.0 == |s|)
    ensures r.1.Some? ==> r.0 < |s| && At(s, r.1.value, r.0) && r.1.value in stops
  {
    if stops == [] then (|s|, None)
    else
      var last := stops[|stops| - 1];
      var best := Earliest(s, index, stops[..|stops| - 1]);
      var pos := FindFrom(s, last, index);
      FindIsFirst(s, last, index);
      if pos != -1 && pos < best.0 then (pos, Some(last)) else best
  }

  function ReadUntilStop(index: nat, s: string, stops: seq<string>): (r: Cut)
    requires index <= |s|
    ensures index + |r.content| <= r.index <= |s|
  {
    var (pos, stop) := Earliest(s, index, stops);
    if stop.Some? then Cut(pos + |stop.value|, s[index..pos], stop) else Cut(|s|, s[index..], None)
  }

  /** The loop over the stop strings. */
  method ReadLoop(index: nat, s: string, stops: seq<string>) returns (r: Cut)
    requires index <= |s|
    ensures r == ReadUntilStop(index, s, stops)
  {
    var minPos, matched: Option<string> := |s|, None;
    for i := 0 to |stops|
      invariant (minPos, matched) == Earliest(s, index, stops[..i])
    {
      assert stops[..i + 1][..i] == stops[..i];
      var pos := FindFrom(s, stops[i], index);
      if pos != -1 && pos < minPos {
        minPos, matched := pos, Some(stops[i]);
      }
    }
    assert stops[..|stops|] == stops;
    if matched.Some? {
      r := Cut(minPos + |matched.value|, s[index..minPos], matched);
    } else {
      r := Cut(|s|, s[index..], None);
    }
  }

  // ---------------------------------------------------------------------------
  // Patterns
  // ---------------------------------------------------------------------------

  predicate IsSpace(c: char) { c == ' ' || c == '\t' || c == '\n' || c == '\r' || c == '\U{0B}' || c == '\U{0C}' }

  function SkipSpace(s: string, p: nat): (r: nat)
    requires p <= |s|
    ensures p <= r <= |s|
    decreases |s| - p
  {
    if p < |s| && IsSpace(s[p]) then SkipSpace(s, p + 1) else p
  }

  /** The end anchor: the end of the text, or just before a newline that ends it. */
  predicate AtDollar(s: string, p: nat) { p == |s| || (p == |s| - 1 && s[p] == '\n') }

  /** Shortest name from p: the first place where the closing mark is followed by the end. */
  function NameClose(s: string, p: nat): (r: int)
    requires p <= |s|
    ensures r == -1 || p <= r <= |s|
    decreases |s| - p
  {
    if At(s, "\">\n", p) && AtDollar(s, p + 3) then p else if p == |s| then -1 else NameClose(s, p + 1)
  }

  /** Optional space, name="...">, newline, end. */
  function MatchName(s: string): Option<string> {
    var p := SkipSpace(s, 0);
    if !At(s, "name=\"", p) then None
    else
      var close := NameClose(s, p + 6);
      if close < 0 then None else Some(s[p + 6..close])
  }

  datatype Param = Param(key: string, value: string, isString: bool)

  function FlagText(isString: bool): string { if isString then "\" string=\"true\">" else "\" string=\"false\">" }

  /** Shortest value from p that is followed by the closing bracket and the end. */
  function ValueClose(s: string, p: nat): (r: int)
    requires p <= |s|
    ensures r == -1 || p <= r < |s|
    decreases |s| - p
  {
    if p < |s| && s[p] == '<' && AtDollar(s, p + 1) then p else if p == |s| then -1 else ValueClose(s, p + 1)
  }

  /** Shortest key from `start` for which the rest of the pattern matches. */
  function MatchKey(s: string, start: nat, p: nat): Option<Param>
    requires start <= p <= |s|
    decreases |s| - p
  {
    var flag := if At(s, FlagText(true), p) then Some(true) else if At(s, FlagText(false), p) then Some(false)
      else None;
    var from := if flag.Some? then p + |FlagText(flag.value)| else p;
    var close := if flag.Some? then ValueClose(s, from) else -1;
    if close >= 0 then Some(Param(s[start..p], s[from..close], flag.value))
    else if p == |s| then None
    else MatchKey(s, start, p + 1)
  }

  /** One space, name="key" string="true|false">, value, bracket, end. */
  function MatchParam(s: string): Option<Param> {
    if At(s, " name=\"", 0) then MatchKey(s, 7, 7) else None
  }

  // ---------------------------------------------------------------------------
  // Parsing
  // ---------------------------------------------------------------------------

  datatype ParseError =
    | CallFormat | MissingToken | NameFormat | ParamFormat | Duplicate
    | MissingThink | MissingEos | AfterCalls | AtEnd | SpecialToken

  datatype ToolCall = ToolCall(name: string, arguments: string)

  type Quote = string -> string

  function JoinWith(parts: seq<string>, sep: string): string {
    if parts == [] then "" else if |parts| == 1 then parts[0] else parts[0] + sep + JoinWith(parts[1..], sep)
  }

  function DecodeValue(quote: Quote, p: Param): string {
    quote(p.key) + ": " + if p.isString then quote(p.value) else p.value
  }

  /** The parameters as the text of a JSON object. */
  function DecodeArguments(quote: Quote, params: seq<Param>): string {
    "{" + JoinWith(seq(|params|, i requires 0 <= i < |params| => DecodeValue(quote, params[i])), ", ") + "}"
  }

  predicate HasKey(params: seq<Param>, key: string) {
    exists i :: 0 <= i < |params| && params[i].key == key
  }

  datatype Params = Params(index: nat, stop: Option<string>, params: seq<Param>)

  /** Parameters while the last stop opened one. */
  function ParseParams(s: string, index: nat, stop: Option<string>, params: seq<Param>): (r: Result<Params, ParseError>)
    requires index <= |s|
    ensures r.Ok? ==> index <= r.value.index <= |s|
    decreases |s| - index
  {
    if stop != Some(ParamOpen()) then Ok(Params(index, stop, params))
    else
      var body := ReadUntilStop(index, s, [ParamEnd()]);
      var p := MatchParam(body.content);
      if p.None? then Err(ParamFormat)
      else if HasKey(params, p.value.key) then Err(Duplicate)
      else
        var next := ReadUntilStop(body.index, s, [ParamOpen(), InvokeEnd()]);
        if next.content != ">\n" then Err(ParamFormat)
        else ParseParams(s, next.index, next.stop, params + [p.value])
  }

  ghost predicate Distinct(params: seq<Param>) {
    forall i, j :: 0 <= i < j < |params| ==> params[i].key != params[j].key
  }

  /** The parameters of an accepted call keep those read before and never repeat a key. */
  lemma {:induction false} KeysDistinct(s: string, index: nat, stop: Option<string>, params: seq<Param>)
    requires index <= |s| && Distinct(params)
    ensures var r := ParseParams(s, index, stop, params); r.Ok? ==> params <= r.value.params && Distinct(r.value.params)
    decreases |s| - index
  {
    hide MatchParam;
    if stop == Some(ParamOpen()) {
      var body := ReadUntilStop(index, s, [ParamEnd()]);
      var p := MatchParam(body.content);
      if p.Some? && !HasKey(params, p.value.key) {
        var next := ReadUntilStop(body.index, s, [ParamOpen(), InvokeEnd()]);
        if next.content == ">\n" { KeysDistinct(s, next.index, next.stop, params + [p.value]); }
      }
    }
  }

  datatype Calls = Calls(index: nat, stop: Option<string>, calls: seq<ToolCall>)

  function ParseCalls(quote: Quote, s: string, index: nat, stop: Option<string>): (r: Result<Calls, ParseError>)
    requires index <= |s|
    ensures r.Ok? ==> index <= r.value.index <= |s|
    decreases |s| - index
  {
    if index >= |s| then Ok(Calls(index, stop, []))
    else
      var head := ReadUntilStop(index, s, [InvokeOpen(), CallsEnd()]);
      if head.content != ">\n" then Err(CallFormat)
      else if head.stop == Some(CallsEnd()) then Ok(Calls(head.index, head.stop, []))
      else if head.stop.None? then Err(MissingToken)
      else
        var named := ReadUntilStop(head.index, s, [ParamOpen(), InvokeEnd()]);
        var name := MatchName(named.content);
        if name.None? then Err(NameFormat)
        else
          var params := ParseParams(s, named.index, named.stop, []);
          if params.Err? then Err(params.error)
          else
            var call := ToolCall(name.value, DecodeArguments(quote, params.value.params));
            var rest := ParseCalls(quote, s, params.value.index, params.value.stop);
            if rest.Err? then rest else Ok(Calls(rest.value.index, rest.value.stop, [call] + rest.value.calls))
  }

  /** The parameter loop of one call. */
  method ParamLoop(s: string, index0: nat, stop0: Option<string>) returns (r: Result<Params, ParseError>)
    requires index0 <= |s|
    ensures r == ParseParams(s, index0, stop0, [])
  {
    var index, stop := index0, stop0;
    var params: seq<Param> := [];
    while stop == Some(ParamOpen())
      invariant index <= |s| && ParseParams(s, index, stop, params) == ParseParams(s, index0, stop0, [])
      decreases |s| - index
    {
      var body := ReadLoop(index, s, [ParamEnd()]);
      var p := MatchParam(body.content);
      if p.None? { return Err(ParamFormat); }
      if HasKey(params, p.value.key) { return Err(Duplicate); }
      var next := ReadLoop(body.index, s, [ParamOpen(), InvokeEnd()]);
      if next.content != ">\n" { return Err(ParamFormat); }
      params := params + [p.value];
      index, stop := next.index, next.stop;
    }
    return Ok(Params(index, stop, params));
  }

  /** What the loop still has to add to the calls parsed so far. */
  ghost function WithCalls(calls: seq<ToolCall>, rest: Result<Calls, ParseError>): Result<Calls, ParseError> {
    if rest.Err? then rest else Ok(Calls(rest.value.index, rest.value.stop, calls + rest.value.calls))
  }

  lemma WithNone(rest: Result<Calls, ParseError>)
    ensures WithCalls([], rest) == rest
  {
    if rest.Ok? { assert [] + rest.value.calls == rest.value.calls; }
  }

  lemma WithCallsStep(calls: seq<ToolCall>, call: ToolCall, rest: Result<Calls, ParseError>)
    ensures WithCalls(calls, WithCalls([call], rest)) == WithCalls(calls + [call], rest)
  {
    if rest.Ok? { assert calls + ([call] + rest.value.calls) == (calls + [call]) + rest.value.calls; }
  }

  /** The call loop: it advances the index and collects the calls. */
  method ParseToolCalls(quote: Quote, s: string, index0: nat) returns (r: Result<Calls, ParseError>)
    requires index0 <= |s|
    ensures r == ParseCalls(quote, s, index0, None)
  {
    hide MatchName, ReadUntilStop, ParseParams, DecodeArguments;
    var index := index0;
    var stop: Option<string> := None;
    var calls: seq<ToolCall> := [];
    WithNone(ParseCalls(quote, s, index0, None));
    while index < |s|
      invariant index <= |s| &&
        WithCalls(calls, ParseCalls(quote, s, index, stop)) == ParseCalls(quote, s, index0, None)
      decreases |s| - index
    {
      var head := ReadLoop(index, s, [InvokeOpen(), CallsEnd()]);
      if head.content != ">\n" { return Err(CallFormat); }
      if head.stop == Some(CallsEnd()) {
        assert calls + [] == calls;
        return Ok(Calls(head.index, head.stop, calls));
      }
      if head.stop.None? { return Err(MissingToken); }
      var named := ReadLoop(head.index, s, [ParamOpen(), InvokeEnd()]);
      var name := MatchName(named.content);
      if name.None? { return Err(NameFormat); }
      var params := ParamLoop(s, named.index, named.stop);
      if params.Err? { return Err(params.error); }
      var call := ToolCall(name.value, DecodeArguments(quote, params.value.params));
      WithCallsStep(calls, call, ParseCalls(quote, s, params.value.index, params.value.stop));
      calls := calls + [call];
      index, stop := params.value.index, params.value.stop;
    }
    assert calls + [] == calls;
    return Ok(Calls(index, stop, calls));
  }

  datatype Message = Message(content: string, reasoning: string, calls: seq<ToolCall>)

  predicate HasSpecial(s: string) {
    Contains(s, Bos()) || Contains(s, Eos()) || Contains(s, ThinkStart()) || Contains(s, ThinkEnd()) ||
      Contains(s, DsmlToken())
  }

  /** The part after the content: tool calls, then the end of the text. */
  function ParseEnd(quote: Quote, s: string, body: Cut, reasoning: string): Result<Message, ParseError>
    requires body.index <= |s|
  {
    if body.stop == Some(CallsOpen()) then
      var calls := ParseCalls(quote, s, body.index, None);
      if calls.Err? then Err(calls.error)
      else
        var end := ReadUntilStop(calls.value.index, s, [Eos()]);
        if end.content != "" then Err(AfterCalls)
        else Finish(s, end, body.content, reasoning, calls.value.calls)
    else if body.stop != Some(Eos()) then Err(MissingEos)
    else Finish(s, body, body.content, reasoning, [])
  }

  function Finish(s: string, end: Cut, content: string, reasoning: string, calls: seq<ToolCall>)
    : (r: Result<Message, ParseError>)
    ensures r.Ok? ==> r.value == Message(content, reasoning, calls) && !HasSpecial(content) && !HasSpecial(reasoning)
  {
    if |s| != end.index || (end.stop != Some(Eos()) && end.stop != None) then Err(AtEnd)
    else if HasSpecial(content) || HasSpecial(reasoning) then Err(SpecialToken)
    else Ok(Message(content, reasoning, calls))
  }

  function ParseMessage(quote: Quote, s: string, thinking: bool): (r: Result<Message, ParseError>)
  {
    if thinking then
      var think := ReadUntilStop(0, s, [ThinkEnd(), CallsOpen()]);
      if think.stop != Some(ThinkEnd()) then Err(MissingThink)
      else ParseEnd(quote, s, ReadUntilStop(think.index, s, [Eos(), CallsOpen()]), think.content)
    else ParseEnd(quote, s, ReadUntilStop(0, s, [Eos(), CallsOpen()]), "")
  }

  // ---------------------------------------------------------------------------
  // Rendering
  // ---------------------------------------------------------------------------

  /** A JSON value: a string, or anything else as its JSON text. */
  datatype Value = Str(s: string) | Json(text: string)

  datatype Arg = Arg(key: string, value: Value)

  /** What an arguments text is: no JSON, another JSON value, or an object with these items. */
  datatype Loaded = NoJson | NotObject | Items(args: seq<Arg>)

  type Load = string -> Loaded

  /**
   * The items to render; text that is no JSON becomes one string. Another JSON value has no items,
   * and is not rendered.
   */
  function ArgsOf(load: Load, call: ToolCall): seq<Arg> {
    match load(call.arguments)
    case Items(args) => args
    case NoJson => [Arg("arguments", Str(call.arguments))]
    case NotObject => []
  }

  predicate Renderable(load: Load, calls: seq<ToolCall>) {
    forall i :: 0 <= i < |calls| ==> !load(calls[i].arguments).NotObject?
  }

  function ValueText(v: Value): string { if v.Str? then v.s else v.text }

  /** The text between the parameter's opening and closing marks, with the bracket that starts the closing tag. */
  function ParamBody(a: Arg): string {
    " name=\"" + a.key + FlagText(a.value.Str?) + ValueText(a.value) + "<"
  }

  function RenderParam(a: Arg): string { ParamOpen() + ParamBody(a) + ParamEnd() + ">" }

  function EncodeArguments(args: seq<Arg>): string {
    JoinWith(seq(|args|, i requires 0 <= i < |args| => RenderParam(args[i])), "\n")
  }

  function NameHead(name: string): string { " name=\"" + name + "\">\n" }

  function RenderCall(load: Load, call: ToolCall): string {
    InvokeOpen() + NameHead(call.name) + EncodeArguments(ArgsOf(load, call)) + "\n" + InvokeEnd() + ">"
  }

  function RenderCalls(load: Load, calls: seq<ToolCall>): string {
    CallsOpen() + ">\n" + JoinWith(seq(|calls|, i requires 0 <= i < |calls| => RenderCall(load, calls[i])), "\n") +
      "\n" + CallsEnd()
  }

  /** The assistant's turn, with its reasoning when it is kept. */
  function Render(load: Load, m: Message, thinking: bool, withoutEos: bool): string {
    (if thinking then m.reasoning + ThinkEnd() else "") + m.content
    + (if m.calls == [] then "" else RenderCalls(load, m.calls))
    + if withoutEos then "" else Eos()
  }

  /** Arguments that are JSON but no object raise, and nothing is rendered. */
  function RenderMessage(load: Load, m: Message, thinking: bool, withoutEos: bool): Option<string> {
    if Renderable(load, m.calls) then Some(Render(load, m, thinking, withoutEos)) else None
  }

  // ---------------------------------------------------------------------------
  // Where the marks are found
  // ---------------------------------------------------------------------------

  lemma AtChar(s: string, pat: string, p: nat, k: nat)
    requires At(s, pat, p) && k < |pat|
    ensures p + k < |s| && s[p + k] == pat[k]
  {
    assert s[p..p + |pat|][k] == s[p + k];
  }

  lemma NotAt(s: string, pat: string, p: nat, k: nat)
    requires k < |pat| && (p + k < |s| ==> s[p + k] != pat[k])
    ensures !At(s, pat, p)
  {
    if At(s, pat, p) { AtChar(s, pat, p, k); }
  }

  lemma AtSplit(s: string, a: string, b: string, p: nat)
    ensures At(s, a + b, p) <==> At(s, a, p) && At(s, b, p + |a|)
  {
    if p + |a + b| <= |s| {
      var whole := s[p..p + |a + b|];
      assert whole[..|a|] == s[p..p + |a|] && whole[|a|..] == s[p + |a|..p + |a| + |b|];
      assert (a + b)[..|a|] == a && (a + b)[|a|..] == b;
      assert whole == whole[..|a|] + whole[|a|..];
    }
  }

  predicate NoBar(s: string) { Bar !in s }

  ghost predicate NoneBetween(s: string, pat: string, lo: nat, hi: nat) {
    forall q :: lo <= q < hi ==> !At(s, pat, q)
  }

  lemma {:induction false} FindHit(s: string, pat: string, from: nat, p: nat)
    requires from <= p <= |s| && At(s, pat, p) && NoneBetween(s, pat, from, p)
    ensures FindFrom(s, pat, from) == p
  {
    FindIsFirst(s, pat, from);
  }

  lemma {:induction false} FindLater(s: string, pat: string, from: nat, p: nat)
    requires from <= p <= |s| && NoneBetween(s, pat, from, p + 1)
    ensures FindFrom(s, pat, from) < 0 || FindFrom(s, pat, from) > p
  {
    FindIsFirst(s, pat, from);
  }

  lemma {:induction false} ReadOne(s: string, index: nat, p: nat, stop: string)
    requires index <= p <= |s| && stop != "" && At(s, stop, p) && NoneBetween(s, stop, index, p)
    ensures ReadUntilStop(index, s, [stop]) == Cut(p + |stop|, s[index..p], Some(stop))
  {
    FindHit(s, stop, index, p);
    assert [stop][..0] == [];
  }

  /** Of two stops, the one that is found at p when neither is found before and the other not at p. */
  lemma {:induction false} ReadTwo(s: string, index: nat, p: nat, a: string, b: string, first: bool)
    requires index <= p <= |s| && a != "" && b != ""
    requires At(s, if first then a else b, p)
    requires NoneBetween(s, if first then a else b, index, p) && NoneBetween(s, if first then b else a, index, p + 1)
    ensures ReadUntilStop(index, s, [a, b]) ==
      Cut(p + |if first then a else b|, s[index..p], Some(if first then a else b))
  {
    FindHit(s, if first then a else b, index, p);
    FindLater(s, if first then b else a, index, p);
    assert [a, b][..1] == [a] && [a][..0] == [];
    assert Earliest(s, index, []) == (|s|, None);
    assert Earliest(s, index, [a]) == var pos := FindFrom(s, a, index);
      if pos != -1 && pos < |s| then (pos, Some(a)) else (|s|, None);
  }

  /** An opening mark starts with a bracket and the bar, a closing one with a bracket, a slash and the bar. */
  ghost predicate OpenMark(m: string) { |m| >= 2 && m[0] == '<' && m[1] == Bar }

  ghost predicate CloseMark(m: string) { |m| >= 3 && m[0] == '<' && m[1] == '/' && m[2] == Bar }

  lemma Marks()
    ensures OpenMark(InvokeOpen()) && OpenMark(ParamOpen()) && OpenMark(Eos())
    ensures CloseMark(InvokeEnd()) && CloseMark(CallsEnd())
    ensures |ParamEnd()| >= 2 && ParamEnd()[0] == '/' && ParamEnd()[1] == Bar
    ensures InvokeEnd() != ParamOpen()
  {
  }

  /** After a payload without the bar, the next opening or closing mark is the first one found. */
  lemma {:induction false} ReadMark(s: string, index: nat, content: string, open: string, close: string, opens: bool)
    requires OpenMark(open) && CloseMark(close) && NoBar(content)
    requires At(s, content + (if opens then open else close), index)
    ensures index <= |s|
    ensures ReadUntilStop(index, s, [open, close])
         == Cut(index + |content| + |if opens then open else close|, content, Some(if opens then open else close))
  {
    hide ReadUntilStop;
    var mark, p := if opens then open else close, index + |content|;
    AtSplit(s, content, mark, index);
    assert s[p] == '<' && s[p + 1] == (if opens then Bar else '/') by { AtChar(s, mark, p, 0); AtChar(s, mark, p, 1); }
    NoMarkBefore(s, index, content, open, 1);
    NoMarkBefore(s, index, content, close, 2);
    NotAt(s, if opens then close else open, p, 1);
    assert s[index..p] == content;
    ReadTwo(s, index, p, open, close, opens);
  }

  lemma {:induction false} PayloadNoBar(s: string, content: string, index: nat)
    requires At(s, content, index) && NoBar(content)
    ensures forall i :: index <= i < index + |content| ==> s[i] != Bar
  {
    forall i | index <= i < index + |content| ensures s[i] != Bar {
      AtChar(s, content, index, i - index);
      assert content[i - index] in content;
    }
  }

  /** A mark whose bar is at offset k cannot start inside a payload without the bar that a bracket follows. */
  lemma {:induction false} NoMarkBefore(s: string, index: nat, content: string, mark: string, k: nat)
    requires 1 <= k <= 2 && |mark| > k && mark[k] == Bar && (k == 2 ==> mark[1] == '/')
    requires At(s, content, index) && NoBar(content) && index + |content| < |s| && s[index + |content|] == '<'
    ensures NoneBetween(s, mark, index, index + |content|)
  {
    var p := index + |content|;
    PayloadNoBar(s, content, index);
    forall q | index <= q < p ensures !At(s, mark, q) {
      NotAt(s, mark, q, if q + k == p + 1 then k - 1 else k);
    }
  }

  lemma {:induction false} ReadParamEnd(s: string, index: nat, content: string)
    requires NoBar(content) && At(s, content + ParamEnd(), index)
    ensures index <= |s|
    ensures ReadUntilStop(index, s, [ParamEnd()]) == Cut(index + |content| + |ParamEnd()|, content, Some(ParamEnd()))
  {
    Marks();
    hide ParamEnd;
    var mark, p := ParamEnd(), index + |content|;
    AtSplit(s, content, mark, index);
    AtChar(s, mark, p, 0);
    PayloadNoBar(s, content, index);
    forall q | index <= q < p ensures !At(s, mark, q) {
      NotAt(s, mark, q, 1);
    }
    assert s[index..p] == content;
    ReadOne(s, index, p, mark);
  }

  // ---------------------------------------------------------------------------
  // The patterns find what was rendered
  // ---------------------------------------------------------------------------

  predicate NoQuote(s: string) { '"' !in s }

  lemma {:induction false} NameCloses(s: string, name: string, p: nat, tail: string)
    requires p <= 7 + |name| && s == NameHead(name) + tail && NoQuote(name) && (tail == "" || tail == "\n") && p >= 7
    ensures NameClose(s, p) == 7 + |name|
    decreases 7 + |name| - p
  {
    var mark := "\">\n";
    assert s == " name=\"" + name + mark + tail;
    if p < 7 + |name| {
      assert s[p] == name[p - 7] && name[p - 7] in name;
      NotAt(s, mark, p, 0);
      NameCloses(s, name, p + 1, tail);
    } else {
      assert s[p..p + 3] == mark;
    }
  }

  lemma NameMatches(name: string, tail: string)
    requires NoQuote(name) && (tail == "" || tail == "\n")
    ensures MatchName(NameHead(name) + tail) == Some(name)
  {
    var s := NameHead(name) + tail;
    var head := " name=\"";
    assert s == head + name + "\">\n" + tail;
    assert s[0] == ' ' && s[1] == 'n';
    assert SkipSpace(s, 0) == SkipSpace(s, 1) == 1;
    assert s[1..7] == head[1..] == "name=\"";
    NameCloses(s, name, 7, tail);
    assert s[7..7 + |name|] == name;
  }

  lemma {:induction false} ValueCloses(s: string, p: nat)
    requires p < |s| && s[|s| - 1] == '<'
    ensures ValueClose(s, p) == |s| - 1
    decreases |s| - p
  {
    if p < |s| - 1 { ValueCloses(s, p + 1); }
  }

  lemma BodyShape(a: Arg)
    ensures var s, flag, p := ParamBody(a), FlagText(a.value.Str?), 7 + |a.key|;
      && |s| == p + |flag| + |ValueText(a.value)| + 1 && s[|s| - 1] == '<'
      && s[7..p] == a.key && At(s, flag, p) && s[p + |flag|..|s| - 1] == ValueText(a.value)
  {
    hide FlagText;
    var s, flag, p := ParamBody(a), FlagText(a.value.Str?), 7 + |a.key|;
    assert s == " name=\"" + a.key + flag + ValueText(a.value) + "<";
    assert s[p..p + |flag|] == flag;
  }

  lemma Flags(s: string, p: nat)
    ensures |FlagText(true)| > 0 && |FlagText(false)| > 0
    ensures p < |s| && s[p] != '"' ==> !At(s, FlagText(true), p) && !At(s, FlagText(false), p)
    ensures !At(s, FlagText(true), p) || !At(s, FlagText(false), p)
  {
    if p < |s| && s[p] != '"' {
      NotAt(s, FlagText(true), p, 0);
      NotAt(s, FlagText(false), p, 0);
    }
    if At(s, FlagText(true), p) {
      AtChar(s, FlagText(true), p, 10);
      NotAt(s, FlagText(false), p, 10);
    }
  }

  lemma {:induction false} KeyMatches(a: Arg, p: nat)
    requires NoQuote(a.key) && 7 <= p <= 7 + |a.key|
    ensures p <= |ParamBody(a)|
    ensures MatchKey(ParamBody(a), 7, p) == Some(Param(a.key, ValueText(a.value), a.value.Str?))
    decreases 7 + |a.key| - p
  {
    BodyShape(a);
    hide ParamBody, FlagText, At, ValueText;
    var s := ParamBody(a);
    Flags(s, p);
    if p < 7 + |a.key| {
      assert s[p] == s[7..7 + |a.key|][p - 7] == a.key[p - 7] && a.key[p - 7] in a.key;
      KeyMatches(a, p + 1);
    } else {
      ValueCloses(s, p + |FlagText(a.value.Str?)|);
    }
  }

  lemma ParamMatches(a: Arg)
    requires NoQuote(a.key)
    ensures MatchParam(ParamBody(a)) == Some(Param(a.key, ValueText(a.value), a.value.Str?))
  {
    var s, head := ParamBody(a), " name=\"";
    assert s[0..7] == head;
    KeyMatches(a, 7);
  }

  // ---------------------------------------------------------------------------
  // Parsing what was rendered
  // ---------------------------------------------------------------------------

  /** Payloads without the bar; names and keys without quotes; keys different. */
  ghost predicate ArgOk(a: Arg) { NoQuote(a.key) && NoBar(a.key) && NoBar(ValueText(a.value)) }

  ghost predicate ArgsOk(args: seq<Arg>) {
    && (forall i :: 0 <= i < |args| ==> ArgOk(args[i]))
    && (forall i, j :: 0 <= i < j < |args| ==> args[i].key != args[j].key)
  }

  ghost predicate CallOk(load: Load, call: ToolCall) {
    NoQuote(call.name) && NoBar(call.name) && ArgsOk(ArgsOf(load, call))
  }

  function ParamOf(a: Arg): Param { Param(a.key, ValueText(a.value), a.value.Str?) }

  function ParamsOf(args: seq<Arg>): (ps: seq<Param>)
    ensures |ps| == |args|
  {
    seq(|args|, i requires 0 <= i < |args| => ParamOf(args[i]))
  }

  /** The parameters up to the call's closing mark. */
  function ParamsText(args: seq<Arg>): string {
    if args == [] then InvokeEnd()
    else ParamOpen() + (ParamBody(args[0]) + (ParamEnd() + (">\n" + ParamsText(args[1..]))))
  }

  function FirstMark(args: seq<Arg>): string { if args == [] then InvokeEnd() else ParamOpen() }

  lemma {:induction false} ParamsStart(s: string, args: seq<Arg>, at: nat)
    requires At(s, ParamsText(args), at)
    ensures At(s, FirstMark(args), at)
    ensures args == [] ==> |ParamsText(args)| == |InvokeEnd()|
  {
    if args != [] {
      AtSplit(s, ParamOpen(), ParamBody(args[0]) + (ParamEnd() + (">\n" + ParamsText(args[1..]))), at);
    }
  }

  lemma BodyNoBar(a: Arg)
    requires ArgOk(a)
    ensures NoBar(ParamBody(a))
  {
    hide FlagText;
    FlagNoBar();
  }

  lemma FlagNoBar()
    ensures NoBar(FlagText(true)) && NoBar(FlagText(false))
  {
  }

  lemma {:induction false} ParamsHead(args: seq<Arg>)
    requires args != []
    ensures ParamsText(args) == ParamOpen() + (ParamBody(args[0]) + (ParamEnd() + (">\n" + ParamsText(args[1..]))))
    ensures |ParamsText(args)| == |ParamOpen()| + |ParamBody(args[0])| + |ParamEnd()| + 2 + |ParamsText(args[1..])|
  {
    hide ParamBody, ParamOpen, ParamEnd;
  }

  /** Where the body of the first parameter starts, and where the mark after it. */
  function BodyAt(at: nat): nat { at + |ParamOpen()| }

  function AfterBody(at: nat, a: Arg): nat { BodyAt(at) + |ParamBody(a)| + |ParamEnd()| }

  lemma {:induction false} ParamPieces(s: string, at: nat, args: seq<Arg>)
    requires args != [] && At(s, ParamsText(args), at)
    ensures At(s, ParamBody(args[0]) + ParamEnd(), BodyAt(at))
    ensures At(s, ">\n" + FirstMark(args[1..]), AfterBody(at, args[0]))
    ensures At(s, ParamsText(args[1..]), AfterBody(at, args[0]) + 2)
    ensures |ParamsText(args)| == AfterBody(0, args[0]) + 2 + |ParamsText(args[1..])|
  {
    hide ParamOpen, ParamEnd, InvokeEnd, ParamBody, ParamsText, At;
    var a, rest := args[0], args[1..];
    ParamsHead(args);
    AtPieces(s, at, ParamOpen(), ParamBody(a), ParamEnd(), ">\n", ParamsText(rest));
    var j := AfterBody(at, a);
    ParamsStart(s, rest, j + 2);
    AtSplit(s, ">\n", FirstMark(rest), j);
  }

  lemma AtPieces(s: string, p: nat, o: string, b: string, e: string, n: string, rest: string)
    requires At(s, o + (b + (e + (n + rest))), p)
    ensures At(s, b + e, p + |o|)
    ensures At(s, n, p + |o| + |b| + |e|)
    ensures At(s, rest, p + |o| + |b| + |e| + |n|)
  {
    AtSplit(s, o, b + (e + (n + rest)), p);
    AtSplit(s, b, e + (n + rest), p + |o|);
    AtSplit(s, e, n + rest, p + |o| + |b|);
    AtSplit(s, n, rest, p + |o| + |b| + |e|);
    AtSplit(s, b, e, p + |o|);
  }

  /** Reading one parameter and the mark that follows it. */
  lemma {:induction false} ParamRead(s: string, at: nat, args: seq<Arg>)
    requires args != [] && ArgOk(args[0]) && At(s, ParamsText(args), at)
    ensures BodyAt(at) <= |s| && AfterBody(at, args[0]) <= |s|
    ensures ReadUntilStop(BodyAt(at), s, [ParamEnd()]) ==
      Cut(AfterBody(at, args[0]), ParamBody(args[0]), Some(ParamEnd()))
    ensures ReadUntilStop(AfterBody(at, args[0]), s, [ParamOpen(), InvokeEnd()])
         == Cut(AfterBody(at, args[0]) + 2 + |FirstMark(args[1..])|, ">\n", Some(FirstMark(args[1..])))
  {
    hide ParamOpen, ParamEnd, InvokeEnd, ParamBody, ParamsText, ReadUntilStop;
    ParamPieces(s, at, args);
    BodyNoBar(args[0]);
    ReadParamEnd(s, BodyAt(at), ParamBody(args[0]));
    Marks();
    ReadMark(s, AfterBody(at, args[0]), ">\n", ParamOpen(), InvokeEnd(), args[1..] != []);
  }

  ghost predicate FreshKeys(args: seq<Arg>, done: seq<Param>) {
    forall i :: 0 <= i < |args| ==> !HasKey(done, args[i].key)
  }

  /** One round of the parameter loop, from index i to index j. */
  lemma {:induction false} ParamStep(s: string, at: nat, i: nat, j: nat, args: seq<Arg>, done: seq<Param>)
    requires args != [] && ArgOk(args[0]) && At(s, ParamsText(args), at) && FreshKeys(args, done)
    requires i == at + |FirstMark(args)| && j == AfterBody(at, args[0]) + 2 + |FirstMark(args[1..])|
    ensures i <= |s| && j <= |s|
    ensures ParseParams(s, i, Some(FirstMark(args)), done) ==
      ParseParams(s, j, Some(FirstMark(args[1..])), done + [ParamOf(args[0])])
  {
    hide ParamOpen, ParamEnd, InvokeEnd, ParamBody, ParamsText, ReadUntilStop, MatchParam, HasKey, AfterBody;
    ParamRead(s, at, args);
    ParamMatches(args[0]);
    assert BodyAt(at) == i;
  }

  /** From the first mark of these parameters on, the loop reads all of them and stops at the call's closing mark. */
  ghost predicate ReadsParams(s: string, at: nat, args: seq<Arg>, done: seq<Param>) {
    && at + |FirstMark(args)| <= |s|
    && ParseParams(s, at + |FirstMark(args)|, Some(FirstMark(args)), done)
       == Ok(Params(at + |ParamsText(args)|, Some(InvokeEnd()), done + ParamsOf(args)))
  }

  lemma {:induction false} ReadsOneMore(s: string, at: nat, args: seq<Arg>, done: seq<Param>)
    requires args != [] && ArgOk(args[0]) && At(s, ParamsText(args), at) && FreshKeys(args, done)
    requires ReadsParams(s, AfterBody(at, args[0]) + 2, args[1..], done + [ParamOf(args[0])])
    ensures ReadsParams(s, at, args, done)
  {
    hide ParamOpen, ParamEnd, InvokeEnd, ParamBody, ParamsText, ParseParams, At, ArgOk, AfterBody,
      ParamsOf, FirstMark, BodyAt, FreshKeys;
    var rest, at' := args[1..], AfterBody(at, args[0]) + 2;
    var i, j := at + |FirstMark(args)|, at' + |FirstMark(rest)|;
    ParamStep(s, at, i, j, args, done);
    ParamPieces(s, at, args);
    AfterShifts(at, args[0]);
    ParamsOfHead(args, done);
  }

  /** The parameters of a call are read back in order. */
  lemma {:induction false} ParamsParsed(s: string, at: nat, args: seq<Arg>, done: seq<Param>)
    requires ArgsOk(args) && At(s, ParamsText(args), at) && FreshKeys(args, done)
    ensures ReadsParams(s, at, args, done)
    decreases |args|
  {
    assert args != [] ==> ArgOk(args[0]);
    hide ParamsText, ParseParams, At, ArgOk, ArgsOk, FreshKeys, AfterBody, ReadsParams;
    if args == [] {
      NoParams(s, at, args, done);
    } else {
      ParamPieces(s, at, args);
      RestOk(args, done);
      ParamsParsed(s, AfterBody(at, args[0]) + 2, args[1..], done + [ParamOf(args[0])]);
      ReadsOneMore(s, at, args, done);
    }
  }

  lemma AfterShifts(at: nat, a: Arg)
    ensures AfterBody(at, a) == at + AfterBody(0, a)
  {
  }

  lemma ParamsOfHead(args: seq<Arg>, done: seq<Param>)
    requires args != []
    ensures (done + [ParamOf(args[0])]) + ParamsOf(args[1..]) == done + ParamsOf(args)
  {
  }

  lemma {:induction false} NoParams(s: string, at: nat, args: seq<Arg>, done: seq<Param>)
    requires args == [] && At(s, ParamsText(args), at)
    ensures ReadsParams(s, at, args, done)
  {
    ParamsStart(s, args, at);
    Marks();
    assert done + ParamsOf(args) == done;
  }

  lemma {:induction false} RestOk(args: seq<Arg>, done: seq<Param>)
    requires args != [] && ArgsOk(args) && FreshKeys(args, done)
    ensures ArgsOk(args[1..]) && FreshKeys(args[1..], done + [ParamOf(args[0])])
  {
    hide ArgOk;
    var rest := args[1..];
    assert forall i :: 0 <= i < |rest| ==> rest[i] == args[i + 1];
  }

  /** A call without parameters has an empty line before its closing mark. */
  function Gap(args: seq<Arg>): string { if args == [] then "\n" else "" }

  /** The calls up to the block's closing mark. */
  function CallsText(load: Load, calls: seq<ToolCall>): string {
    if calls == [] then CallsEnd()
    else
      var args := ArgsOf(load, calls[0]);
      InvokeOpen() +
        ((NameHead(calls[0].name) + Gap(args)) + (ParamsText(args) + (">\n" + CallsText(load, calls[1..]))))
  }

  /** What parsing a rendered call returns: the same name, the arguments as the text of a JSON object. */
  function Normalized(quote: Quote, load: Load, call: ToolCall): ToolCall {
    ToolCall(call.name, DecodeArguments(quote, ParamsOf(ArgsOf(load, call))))
  }

  function NormalizedAll(quote: Quote, load: Load, calls: seq<ToolCall>): (r: seq<ToolCall>)
    ensures |r| == |calls|
  {
    seq(|calls|, i requires 0 <= i < |calls| => Normalized(quote, load, calls[i]))
  }

  lemma {:induction false} CallsHead(load: Load, calls: seq<ToolCall>)
    requires calls != []
    ensures var args := ArgsOf(load, calls[0]);
      && CallsText(load, calls) ==
        InvokeOpen() +
          ((NameHead(calls[0].name) + Gap(args)) + (ParamsText(args) + (">\n" + CallsText(load, calls[1..]))))
      && |CallsText(load, calls)| ==
        |InvokeOpen()| + |NameHead(calls[0].name) + Gap(args)| + |ParamsText(args)| + 2 + |CallsText(load, calls[1..])|
  {
    hide NameHead, Gap, ParamsText, InvokeOpen, ArgsOf;
  }

  function OpenOr(calls: seq<ToolCall>): string { if calls == [] then CallsEnd() else InvokeOpen() }

  lemma {:induction false} CallsStart(s: string, load: Load, calls: seq<ToolCall>, at: nat)
    requires At(s, CallsText(load, calls), at)
    ensures At(s, OpenOr(calls), at)
  {
    hide NameHead, Gap, ParamsText, InvokeOpen, CallsEnd, ArgsOf, At;
    if calls != [] {
      var args := ArgsOf(load, calls[0]);
      CallsHead(load, calls);
      AtSplit(s, InvokeOpen(), (NameHead(calls[0].name) + Gap(args)) +
          (ParamsText(args) + (">\n" + CallsText(load, calls[1..]))), at);
    }
  }

  lemma NameNoBar(name: string, args: seq<Arg>)
    requires NoBar(name)
    ensures NoBar(NameHead(name) + Gap(args))
  {
  }

  /** Index of a call's name, of its first mark, and of what follows its closing mark. */
  function NameAt(at: nat): nat { at + |InvokeOpen()| }

  function ArgsAt(at: nat, load: Load, call: ToolCall): nat {
    NameAt(at) + |NameHead(call.name) + Gap(ArgsOf(load, call))|
  }

  function AfterCall(at: nat, load: Load, call: ToolCall): nat {
    ArgsAt(at, load, call) + |ParamsText(ArgsOf(load, call))|
  }

  lemma {:induction false} CallPieces(s: string, at: nat, load: Load, calls: seq<ToolCall>)
    requires calls != [] && At(s, CallsText(load, calls), at)
    ensures var call := calls[0]; var args := ArgsOf(load, call);
      && At(s, (NameHead(call.name) + Gap(args)) + FirstMark(args), NameAt(at))
      && At(s, ParamsText(args), ArgsAt(at, load, call))
      && At(s, ">\n", AfterCall(at, load, call))
      && At(s, CallsText(load, calls[1..]), AfterCall(at, load, call) + 2)
  {
    hide NameHead, Gap, ParamsText, InvokeOpen, CallsEnd, ArgsOf, At, CallsText, FirstMark;
    var call := calls[0];
    var args := ArgsOf(load, call);
    CallsHead(load, calls);
    var head := NameHead(call.name) + Gap(args);
    AtPieces(s, at, InvokeOpen(), head, ParamsText(args), ">\n", CallsText(load, calls[1..]));
    AtSplit(s, head, ParamsText(args), NameAt(at));
    ParamsStart(s, args, ArgsAt(at, load, call));
    AtSplit(s, head, FirstMark(args), NameAt(at));
  }

  /** The call loop reads these calls from index i, just before the line break that precedes them. */
  ghost predicate ReadsCalls(quote: Quote, s: string, i: nat, stop: Option<string>, load: Load, calls: seq<ToolCall>) {
    && i <= |s|
    && ParseCalls(quote, s, i, stop) ==
      Ok(Calls(i + 2 + |CallsText(load, calls)|, Some(CallsEnd()), NormalizedAll(quote, load, calls)))
  }

  lemma {:induction false} NoCalls(quote: Quote, s: string, i: nat, stop: Option<string>, load: Load,
                                   calls: seq<ToolCall>)
    requires calls == [] && At(s, ">\n" + CallsText(load, calls), i)
    ensures ReadsCalls(quote, s, i, stop, load, calls)
  {
    Marks();
    NewlineNoBar();
    ReadMark(s, i, ">\n", InvokeOpen(), CallsEnd(), false);
    hide ReadUntilStop;
    assert NormalizedAll(quote, load, calls) == [];
  }

  lemma NewlineNoBar()
    ensures NoBar(">\n")
  {
  }

  /** One round of the call loop, from what its reads return. */
  lemma {:induction false} CallLoopStep(quote: Quote, s: string, i: nat, stop: Option<string>, a: nat, head: string,
                                        mark: string, b: nat,
                                        name: string, params: seq<Param>, c: nat, rest: Calls)
    requires i < |s| && a <= |s| && b <= |s| && c <= |s|
    requires ReadUntilStop(i, s, [InvokeOpen(), CallsEnd()]) == Cut(a, ">\n", Some(InvokeOpen()))
    requires ReadUntilStop(a, s, [ParamOpen(), InvokeEnd()]) == Cut(b, head, Some(mark))
    requires MatchName(head) == Some(name)
    requires ParseParams(s, b, Some(mark), []) == Ok(Params(c, Some(InvokeEnd()), params))
    requires ParseCalls(quote, s, c, Some(InvokeEnd())) == Ok(rest)
    ensures ParseCalls(quote, s, i, stop) ==
      Ok(Calls(rest.index, rest.stop, [ToolCall(name, DecodeArguments(quote, params))] + rest.calls))
  {
    Marks();
    assert InvokeOpen() != CallsEnd();
    hide ReadUntilStop, MatchName, ParseParams, DecodeArguments, InvokeOpen, CallsEnd;
  }

  lemma NormalizedHead(quote: Quote, load: Load, calls: seq<ToolCall>)
    requires calls != []
    ensures NormalizedAll(quote, load, calls) ==
      [Normalized(quote, load, calls[0])] + NormalizedAll(quote, load, calls[1..])
  {
    hide Normalized;
  }

  lemma MarkIs(args: seq<Arg>)
    ensures FirstMark(args) == if args != [] then ParamOpen() else InvokeEnd()
    ensures FreshKeys(args, [])
    ensures Gap(args) == "" || Gap(args) == "\n"
  {
  }

  /** The call's name is read from the text. */
  lemma {:induction false} NameRead(s: string, at: nat, load: Load, calls: seq<ToolCall>, args: seq<Arg>, head: string)
    requires calls != [] && CallOk(load, calls[0]) && At(s, CallsText(load, calls), at)
    requires args == ArgsOf(load, calls[0]) && head == NameHead(calls[0].name) + Gap(args)
    ensures NameAt(at) <= |s|
    ensures ReadUntilStop(NameAt(at), s, [ParamOpen(), InvokeEnd()])
         == Cut(ArgsAt(at, load, calls[0]) + |FirstMark(args)|, head, Some(FirstMark(args)))
    ensures MatchName(head) == Some(calls[0].name)
  {
    MarkIs(args);
    Marks();
    NameNoBar(calls[0].name, args);
    NameMatches(calls[0].name, Gap(args));
    CallPieces(s, at, load, calls);
    hide InvokeOpen, InvokeEnd, CallsEnd, ParamOpen, At, CallsText, ParamsText, NameHead, Gap, ArgsOf,
      FirstMark, ReadUntilStop, MatchName, ParseParams, ArgsOk, FreshKeys, ParamsOf;
    ReadMark(s, NameAt(at), head, ParamOpen(), InvokeEnd(), args != []);
  }

  /** The call's parameters are read from the text. */
  lemma {:induction false} ArgsRead(s: string, at: nat, load: Load, calls: seq<ToolCall>, args: seq<Arg>)
    requires calls != [] && CallOk(load, calls[0]) && At(s, CallsText(load, calls), at) &&
      args == ArgsOf(load, calls[0])
    ensures var b := ArgsAt(at, load, calls[0]) + |FirstMark(args)|;
      b <= |s| && ParseParams(s, b, Some(FirstMark(args)), []) ==
        Ok(Params(AfterCall(at, load, calls[0]), Some(InvokeEnd()), ParamsOf(args)))
  {
    hide InvokeOpen, InvokeEnd, CallsEnd, ParamOpen, At, CallsText, ParamsText, NameHead, Gap, ArgsOf,
      FirstMark, ParseParams, ArgsOk, FreshKeys, ParamsOf;
    MarkIs(args);
    CallPieces(s, at, load, calls);
    ParamsParsed(s, ArgsAt(at, load, calls[0]), args, []);
    assert [] + ParamsOf(args) == ParamsOf(args);
  }

  lemma {:induction false} OpenRead(s: string, i: nat, load: Load, calls: seq<ToolCall>)
    requires calls != [] && At(s, ">\n" + CallsText(load, calls), i)
    ensures i < |s| && At(s, CallsText(load, calls), i + 2)
    ensures ReadUntilStop(i, s, [InvokeOpen(), CallsEnd()]) == Cut(NameAt(i + 2), ">\n", Some(InvokeOpen()))
  {
    hide InvokeOpen, CallsEnd, At, CallsText, ReadUntilStop;
    AtSplit(s, ">\n", CallsText(load, calls), i);
    CallsStart(s, load, calls, i + 2);
    AtSplit(s, ">\n", OpenOr(calls), i);
    Marks();
    NewlineNoBar();
    ReadMark(s, i, ">\n", InvokeOpen(), CallsEnd(), true);
    AtSome(s, ">\n", i);
  }

  lemma AtSome(s: string, pat: string, p: nat)
    requires pat != "" && At(s, pat, p)
    ensures p < |s|
  {
  }

  /** One round of the call loop. */
  lemma {:induction false} ReadsOneCall(quote: Quote, s: string, i: nat, stop: Option<string>, load: Load,
                                        calls: seq<ToolCall>)
    requires calls != [] && CallOk(load, calls[0]) && At(s, ">\n" + CallsText(load, calls), i)
    requires ReadsCalls(quote, s, AfterCall(i + 2, load, calls[0]), Some(InvokeEnd()), load, calls[1..])
    ensures ReadsCalls(quote, s, i, stop, load, calls)
  {
    hide InvokeOpen, InvokeEnd, CallsEnd, ParamOpen, At, CallsText, ParamsText, NameHead, Gap, ArgsOf,
      FirstMark, ReadUntilStop, MatchName, ParseParams, ParseCalls, DecodeArguments, CallOk, NameAt,
        ArgsAt, NormalizedAll;
    var call := calls[0];
    var args := ArgsOf(load, call);
    OpenRead(s, i, load, calls);
    NameRead(s, i + 2, load, calls, args, NameHead(call.name) + Gap(args));
    ArgsRead(s, i + 2, load, calls, args);
    var c := AfterCall(i + 2, load, call);
    var rest := Calls(c + 2 + |CallsText(load, calls[1..])|, Some(CallsEnd()), NormalizedAll(quote, load, calls[1..]));
    CallLoopStep(quote, s, i, stop, NameAt(i + 2), NameHead(call.name) + Gap(args), FirstMark(args),
                 ArgsAt(i + 2, load, call) + |FirstMark(args)|, call.name, ParamsOf(args), c, rest);
    NormalizedHead(quote, load, calls);
    AfterCallLength(i + 2, load, calls);
  }

  lemma {:induction false} AfterCallLength(at: nat, load: Load, calls: seq<ToolCall>)
    requires calls != []
    ensures AfterCall(at, load, calls[0]) + 2 + |CallsText(load, calls[1..])| == at + |CallsText(load, calls)|
  {
    hide CallsText, ParamsText, NameHead, Gap, ArgsOf, InvokeOpen;
    CallsHead(load, calls);
  }

  ghost predicate CallsOk(load: Load, calls: seq<ToolCall>) {
    forall c :: 0 <= c < |calls| ==> CallOk(load, calls[c])
  }

  /** The calls of a block are read back in order. */
  lemma {:induction false} CallsParsed(quote: Quote, s: string, i: nat, stop: Option<string>, load: Load,
                                       calls: seq<ToolCall>)
    requires CallsOk(load, calls) && At(s, ">\n" + CallsText(load, calls), i)
    ensures ReadsCalls(quote, s, i, stop, load, calls)
    decreases |calls|
  {
    assert calls != [] ==> CallOk(load, calls[0]) && CallsOk(load, calls[1..]);
    hide CallOk, CallsOk, At, CallsText, ReadsCalls, AfterCall, ArgsAt, NameAt;
    if calls == [] {
      NoCalls(quote, s, i, stop, load, calls);
    } else {
      NextCalls(s, i, load, calls);
      CallsParsed(quote, s, AfterCall(i + 2, load, calls[0]), Some(InvokeEnd()), load, calls[1..]);
      ReadsOneCall(quote, s, i, stop, load, calls);
    }
  }

  lemma {:induction false} NextCalls(s: string, i: nat, load: Load, calls: seq<ToolCall>)
    requires calls != [] && At(s, ">\n" + CallsText(load, calls), i)
    ensures At(s, ">\n" + CallsText(load, calls[1..]), AfterCall(i + 2, load, calls[0]))
  {
    hide At, CallsText, AfterCall;
    OpenRead(s, i, load, calls);
    CallPieces(s, i + 2, load, calls);
    AtSplit(s, ">\n", CallsText(load, calls[1..]), AfterCall(i + 2, load, calls[0]));
  }

  // ---------------------------------------------------------------------------
  // What was rendered is this text
  // ---------------------------------------------------------------------------

  lemma ParamAssoc(o: string, b: string, e: string, rest: string)
    ensures (o + b + e + ">") + "\n" + rest == o + (b + (e + (">\n" + rest)))
  {
    assert ">" + "\n" == ">\n";
  }

  lemma {:induction false} EncodedHead(args: seq<Arg>)
    requires args != []
    ensures EncodeArguments(args) == if |args| == 1 then RenderParam(args[0])
      else RenderParam(args[0]) + "\n" + EncodeArguments(args[1..])
  {
    hide RenderParam;
    var rest := args[1..];
    var parts := seq(|args|, i requires 0 <= i < |args| => RenderParam(args[i]));
    assert parts[1..] == seq(|rest|, i requires 0 <= i < |rest| => RenderParam(rest[i]));
  }

  lemma {:induction false} EncodedIs(args: seq<Arg>)
    ensures EncodeArguments(args) + "\n" + InvokeEnd() == Gap(args) + ParamsText(args)
    decreases |args|
  {
    if args == [] {
      assert EncodeArguments(args) == "";
    } else {
      hide EncodeArguments, ParamsText, Gap;
      EncodedIs(args[1..]);
      EncodedStep(args);
    }
  }

  lemma {:induction false} EncodedStep(args: seq<Arg>)
    requires args != [] && EncodeArguments(args[1..]) + "\n" + InvokeEnd() == Gap(args[1..]) + ParamsText(args[1..])
    ensures EncodeArguments(args) + "\n" + InvokeEnd() == Gap(args) + ParamsText(args)
  {
    hide ParamOpen, ParamBody, ParamEnd, InvokeEnd, EncodeArguments, ParamsText, RenderParam;
    var rest := args[1..];
    EncodedHead(args);
    ParamAssoc(ParamOpen(), ParamBody(args[0]), ParamEnd(), ParamsText(rest));
    ParamsHead(args);
    OnlyMark(rest);
    RenderParamIs(args[0]);
    if rest != [] {
      Reassociate(RenderParam(args[0]), EncodeArguments(rest), InvokeEnd());
    }
  }

  lemma RenderParamIs(a: Arg)
    ensures RenderParam(a) == ParamOpen() + ParamBody(a) + ParamEnd() + ">"
  {
  }

  lemma Reassociate(p: string, e: string, m: string)
    ensures p + "\n" + e + "\n" + m == p + "\n" + (e + "\n" + m)
  {
  }

  lemma OnlyMark(args: seq<Arg>)
    ensures args == [] ==> ParamsText(args) == InvokeEnd()
  {
  }

  function JoinedCalls(load: Load, calls: seq<ToolCall>): string {
    JoinWith(seq(|calls|, i requires 0 <= i < |calls| => RenderCall(load, calls[i])), "\n")
  }

  lemma RenderedCallIs(load: Load, call: ToolCall, rest: string)
    ensures var args := ArgsOf(load, call);
      RenderCall(load, call) + "\n" + rest ==
        InvokeOpen() + ((NameHead(call.name) + Gap(args)) + (ParamsText(args) + (">\n" + rest)))
  {
    var args := ArgsOf(load, call);
    EncodedIs(args);
    hide ParamsText, Gap, EncodeArguments, InvokeOpen, InvokeEnd, NameHead, ArgsOf;
    var e, a, b := EncodeArguments(args) + "\n" + InvokeEnd(), InvokeOpen(), NameHead(call.name);
    assert RenderCall(load, call) == a + b + e + ">";
    assert a + b + (Gap(args) + ParamsText(args)) + ">" + "\n" + rest ==
      a + ((b + Gap(args)) + (ParamsText(args) + (">\n" + rest)));
  }

  lemma {:induction false} JoinedIs(load: Load, calls: seq<ToolCall>)
    requires calls != []
    ensures JoinedCalls(load, calls) + "\n" + CallsEnd() == CallsText(load, calls)
    decreases |calls|
  {
    hide RenderCall, CallsEnd, InvokeOpen, NameHead, Gap, ParamsText, ArgsOf;
    var rest := calls[1..];
    var parts := seq(|calls|, i requires 0 <= i < |calls| => RenderCall(load, calls[i]));
    assert parts[1..] == seq(|rest|, i requires 0 <= i < |rest| => RenderCall(load, rest[i]));
    RenderedCallIs(load, calls[0], CallsText(load, rest));
    if rest != [] {
      JoinedIs(load, rest);
      assert JoinedCalls(load, calls) == RenderCall(load, calls[0]) + "\n" + JoinedCalls(load, rest);
      assert RenderCall(load, calls[0]) + "\n" + JoinedCalls(load, rest) + "\n" + CallsEnd()
          == RenderCall(load, calls[0]) + "\n" + (JoinedCalls(load, rest) + "\n" + CallsEnd());
    }
  }

  lemma {:induction false} RenderedCallsAre(load: Load, calls: seq<ToolCall>)
    requires calls != []
    ensures RenderCalls(load, calls) == CallsOpen() + (">\n" + CallsText(load, calls))
  {
    JoinedIs(load, calls);
    hide CallsOpen, CallsEnd, CallsText, JoinWith, RenderCall;
    BlockAssoc(CallsOpen(), JoinedCalls(load, calls), CallsEnd());
  }

  /** A string is marked as one and written as it is; anything else is marked as no string. */
  lemma {:induction false} ParamTemplate(a: Arg)
    ensures RenderParam(a) == ParamOpen() + " name=\"" + a.key + "\" string=\"" +
      (match a.value case Str(s) => "true\">" + s case Json(text) => "false\">" + text) + "<" + ParamEnd() + ">"
  {
    assert FlagText(true) == "\" string=\"" + "true\">" && FlagText(false) == "\" string=\"" + "false\">";
    hide FlagText, ParamOpen, ParamEnd;
    Regroup(ParamOpen(), " name=\"" + a.key, "\" string=\"", if a.value.Str? then "true\">" else "false\">",
            ValueText(a.value), "<", ParamEnd() + ">");
  }

  lemma Regroup(a: string, b: string, c: string, d: string, e: string, f: string, g: string)
    ensures a + (b + (c + d) + e + f) + g == a + b + c + (d + e) + f + g
  {
  }

  lemma BlockAssoc(o: string, j: string, c: string)
    ensures o + ">\n" + j + "\n" + c == o + (">\n" + (j + "\n" + c))
  {
  }

  // ---------------------------------------------------------------------------
  // The message
  // ---------------------------------------------------------------------------

  lemma EosShape()
    ensures |Eos()| > 3 && Eos()[0] == '<' && Eos()[1] == Bar && Eos()[2] == 'e' && Eos()[3] == 'n'
    ensures |CallsOpen()| > 4 && CallsOpen()[0] == '\n' && CallsOpen()[1] == '\n' && CallsOpen()[2] == '<' &&
      CallsOpen()[3] == Bar && CallsOpen()[4] == 'D'
    ensures |ThinkEnd()| == 8 && ThinkEnd()[0] == '<' && NoBar(ThinkEnd()) && forall k :: 1 <= k < 8 ==>
      ThinkEnd()[k] != '<'
    ensures Eos() != CallsOpen() && ThinkEnd() != CallsOpen()
  {
  }

  /** Content that the end mark follows. */
  lemma {:induction false} ReadToEos(s: string, index: nat, content: string)
    requires NoBar(content) && At(s, content + Eos(), index)
    ensures index <= |s|
    ensures ReadUntilStop(index, s, [Eos(), CallsOpen()]) == Cut(index + |content| + |Eos()|, content, Some(Eos()))
  {
    EosShape();
    hide Eos, CallsOpen, ReadUntilStop;
    var p := index + |content|;
    AtSplit(s, content, Eos(), index);
    AtChar(s, Eos(), p, 0);
    AtChar(s, Eos(), p, 1);
    AtChar(s, Eos(), p, 2);
    AtChar(s, Eos(), p, 3);
    NoMarkBefore(s, index, content, Eos(), 1);
    PayloadNoBar(s, content, index);
    forall q | index <= q < p + 1 ensures !At(s, CallsOpen(), q) {
      NotAt(s, CallsOpen(), q, if q + 3 == p + 1 then 4 else 3);
    }
    assert s[index..p] == content;
    ReadTwo(s, index, p, Eos(), CallsOpen(), true);
  }

  /** Content that a block of calls follows. */
  lemma {:induction false} ReadToCalls(s: string, index: nat, content: string)
    requires NoBar(content) && At(s, content + CallsOpen(), index)
    ensures index <= |s|
    ensures ReadUntilStop(index, s, [Eos(), CallsOpen()]) ==
      Cut(index + |content| + |CallsOpen()|, content, Some(CallsOpen()))
  {
    EosShape();
    hide Eos, CallsOpen, ReadUntilStop;
    var p := index + |content|;
    AtSplit(s, content, CallsOpen(), index);
    AtChar(s, CallsOpen(), p, 0);
    AtChar(s, CallsOpen(), p, 1);
    AtChar(s, CallsOpen(), p, 2);
    PayloadNoBar(s, content, index);
    forall q | index <= q < p ensures !At(s, CallsOpen(), q) { NotAt(s, CallsOpen(), q, 3); }
    forall q | index <= q < p + 1 ensures !At(s, Eos(), q) { NotAt(s, Eos(), q, 1); }
    assert s[index..p] == content;
    ReadTwo(s, index, p, Eos(), CallsOpen(), false);
  }

  /** Reasoning up to the end of thinking. */
  lemma {:induction false} ReadThinking(s: string, reasoning: string)
    requires NoBar(reasoning) && !Contains(reasoning, ThinkEnd()) && At(s, reasoning + ThinkEnd(), 0)
    ensures ReadUntilStop(0, s, [ThinkEnd(), CallsOpen()]) == Cut(|reasoning| + 8, reasoning, Some(ThinkEnd()))
  {
    EosShape();
    hide ThinkEnd, CallsOpen, ReadUntilStop;
    var p := |reasoning|;
    AtSplit(s, reasoning, ThinkEnd(), 0);
    AtChar(s, ThinkEnd(), p, 0);
    PayloadNoBar(s, reasoning, 0);
    PayloadNoBar(s, ThinkEnd(), p);
    forall q | 0 <= q < p ensures !At(s, ThinkEnd(), q) {
      if q + 8 <= p {
        NotInside(s, reasoning, ThinkEnd(), q);
      } else {
        NotAt(s, ThinkEnd(), q, p - q);
      }
    }
    forall q | 0 <= q < p + 1 ensures !At(s, CallsOpen(), q) { NotAt(s, CallsOpen(), q, 3); }
    assert s[0..p] == reasoning;
    ReadTwo(s, 0, p, ThinkEnd(), CallsOpen(), true);
  }

  lemma NotInside(s: string, part: string, pat: string, q: nat)
    requires At(s, part, 0) && !Contains(part, pat) && q + |pat| <= |part|
    ensures !At(s, pat, q)
  {
    FindIsFirst(part, pat, 0);
    assert part[q..q + |pat|] == s[0..|part|][q..q + |pat|] == s[q..q + |pat|];
    assert !At(part, pat, q);
  }

  /** Content and calls, then the end. */
  function Body(load: Load, m: Message): string {
    m.content + if m.calls == [] then "" else RenderCalls(load, m.calls)
  }

  ghost predicate MessageOk(load: Load, m: Message) {
    NoBar(m.content) && NoBar(m.reasoning) && CallsOk(load, m.calls)
  }

  /** Without calls, the content and the end mark are read back. */
  lemma {:induction false} EndWithoutCalls(quote: Quote, s: string, index: nat, content: string, reasoning: string)
    requires NoBar(content) && At(s, content + Eos(), index) && |s| == index + |content| + |Eos()|
    requires !HasSpecial(content) && !HasSpecial(reasoning)
    ensures ParseEnd(quote, s, ReadUntilStop(index, s, [Eos(), CallsOpen()]), reasoning) ==
      Ok(Message(content, reasoning, []))
  {
    EosShape();
    ReadToEos(s, index, content);
    hide Eos, CallsOpen, ReadUntilStop, HasSpecial;
  }

  /** With calls, the end mark may be missing. */
  lemma {:induction false} EndWithCalls(quote: Quote, load: Load, s: string, index: nat, m: Message, withoutEos: bool)
    requires m.calls != [] && CallsOk(load, m.calls) && NoBar(m.content) && !HasSpecial(m.content) &&
      !HasSpecial(m.reasoning)
    requires At(s, Body(load, m) + (if withoutEos then "" else Eos()), index)
    requires |s| == index + |Body(load, m) + (if withoutEos then "" else Eos())|
    ensures ParseEnd(quote, s, ReadUntilStop(index, s, [Eos(), CallsOpen()]), m.reasoning)
         == Ok(Message(m.content, m.reasoning, NormalizedAll(quote, load, m.calls)))
  {
    EosShape();
    hide Eos, CallsOpen, ReadUntilStop, HasSpecial, CallsText, At, ParseCalls;
    var eos := if withoutEos then "" else Eos();
    var text := ">\n" + CallsText(load, m.calls);
    RenderedCallsAre(load, m.calls);
    AtSplit(s, Body(load, m), eos, index);
    AtSplit(s, m.content, CallsOpen() + text, index);
    var i := index + |m.content| + |CallsOpen()|;
    AtSplit(s, CallsOpen(), text, index + |m.content|);
    AtSplit(s, m.content, CallsOpen(), index);
    ReadToCalls(s, index, m.content);
    CallsParsed(quote, s, i, None, load, m.calls);
    var end := i + |text|;
    EndRead(s, end, withoutEos);
  }

  lemma {:induction false} EndRead(s: string, end: nat, withoutEos: bool)
    requires |s| == end + |if withoutEos then "" else Eos()| && At(s, if withoutEos then "" else Eos(), end)
    ensures ReadUntilStop(end, s, [Eos()]) == if withoutEos then Cut(|s|, "", None) else Cut(|s|, "", Some(Eos()))
  {
    EosShape();
    hide Eos;
    assert [Eos()][..0] == [];
    if withoutEos {
      NotAt(s, Eos(), end, 0);
      assert FindFrom(s, Eos(), end) == -1;
    } else {
      ReadOne(s, end, end, Eos());
    }
  }

  function Expected(quote: Quote, load: Load, m: Message, thinking: bool): Message {
    Message(m.content, if thinking then m.reasoning else "", NormalizedAll(quote, load, m.calls))
  }

  /** Parsing a rendered message gives back its reasoning, content and calls. */
  lemma {:induction false} RoundTrip(quote: Quote, load: Load, m: Message, thinking: bool, withoutEos: bool)
    requires MessageOk(load, m) && !HasSpecial(m.content) && (thinking ==> !HasSpecial(m.reasoning)) &&
      (withoutEos ==> m.calls != [])
    ensures ParseMessage(quote, Render(load, m, thinking, withoutEos), thinking) ==
      Ok(Expected(quote, load, m, thinking))
  {
    var s := Render(load, m, thinking, withoutEos);
    var eos := if withoutEos then "" else Eos();
    var m' := m.(reasoning := if thinking then m.reasoning else "");
    NothingSpecial();
    hide Eos, CallsOpen, ReadUntilStop, HasSpecial, At, ParseEnd, RenderCalls;
    var rest := Body(load, m) + eos;
    if thinking {
      ThinkPart(load, m, withoutEos, s, rest);
      EndParsed(quote, load, s, |m.reasoning| + 8, m', withoutEos);
    } else {
      assert s == rest;
      AtWhole(s);
      EndParsed(quote, load, s, 0, m', withoutEos);
    }
  }

  lemma NothingSpecial()
    ensures !HasSpecial("")
  {
  }

  lemma AtWhole(s: string)
    ensures At(s, s, 0)
  {
    assert s[0..|s|] == s;
  }

  lemma {:induction false} ThinkPart(load: Load, m: Message, withoutEos: bool, s: string, rest: string)
    requires s == Render(load, m, true, withoutEos) && rest == Body(load, m) + if withoutEos then "" else Eos()
    requires NoBar(m.reasoning) && !HasSpecial(m.reasoning)
    ensures ReadUntilStop(0, s, [ThinkEnd(), CallsOpen()]) == Cut(|m.reasoning| + 8, m.reasoning, Some(ThinkEnd()))
    ensures At(s, rest, |m.reasoning| + 8) && |s| == |m.reasoning| + 8 + |rest|
  {
    EosShape();
    hide Eos, CallsOpen, ReadUntilStop, Contains, At, RenderCalls, ThinkEnd;
    var head := m.reasoning + ThinkEnd();
    assert s == head + rest;
    AtWhole(s);
    AtSplit(s, head, rest, 0);
    ReadThinking(s, m.reasoning);
  }

  lemma {:induction false} EndParsed(quote: Quote, load: Load, s: string, index: nat, m: Message, withoutEos: bool)
    requires NoBar(m.content) && CallsOk(load, m.calls) && !HasSpecial(m.content) && !HasSpecial(m.reasoning) &&
      (withoutEos ==> m.calls != [])
    requires At(s, Body(load, m) + (if withoutEos then "" else Eos()), index)
    requires |s| == index + |Body(load, m) + (if withoutEos then "" else Eos())|
    ensures ParseEnd(quote, s, ReadUntilStop(index, s, [Eos(), CallsOpen()]), m.reasoning)
         == Ok(Message(m.content, m.reasoning, NormalizedAll(quote, load, m.calls)))
  {
    hide Eos, CallsOpen, ReadUntilStop, HasSpecial, At, ParseEnd, RenderCalls;
    if m.calls == [] {
      assert Body(load, m) == m.content;
      EndWithoutCalls(quote, s, index, m.content, m.reasoning);
      assert NormalizedAll(quote, load, m.calls) == [];
    } else {
      EndWithCalls(quote, load, s, index, m, withoutEos);
    }
  }

  /** A text without the bar is never accepted. */
  lemma {:induction false} NoBarFails(quote: Quote, s: string, thinking: bool)
    requires NoBar(s)
    ensures ParseMessage(quote, s, thinking).Err?
  {
    EosShape();
    hide Eos, CallsOpen, ThinkEnd;
    forall index: nat | index <= |s|
      ensures ReadUntilStop(index, s, [Eos(), CallsOpen()]).stop == None
    {
      var r := Earliest(s, index, [Eos(), CallsOpen()]);
      if r.1 == Some(Eos()) { AtChar(s, Eos(), r.0, 1); }
      else if r.1 == Some(CallsOpen()) { AtChar(s, CallsOpen(), r.0, 3); }
    }
  }

  /**
   * A message is rendered and read back exactly when all arguments that are JSON are objects,
   * neither content nor kept reasoning holds a special token, and a message without an end mark
   * has at least one call.
   */
  lemma {:induction false} RoundTripExactly(quote: Quote, load: Load, m: Message, thinking: bool, withoutEos: bool)
    requires MessageOk(load, m)
    ensures var text := RenderMessage(load, m, thinking, withoutEos);
      (text.Some? && ParseMessage(quote, text.value, thinking) == Ok(Expected(quote, load, m, thinking))) <==>
        (Renderable(load, m.calls) && !HasSpecial(m.content) && (thinking ==> !HasSpecial(m.reasoning)) &&
         (withoutEos ==> m.calls != []))
  {
    if !HasSpecial(m.content) && (thinking ==> !HasSpecial(m.reasoning)) && (withoutEos ==> m.calls != []) {
      RoundTrip(quote, load, m, thinking, withoutEos);
    } else if withoutEos && m.calls == [] {
      EosShape();
      hide ThinkEnd, HasSpecial, ParseMessage;
      var s := Render(load, m, thinking, withoutEos);
      assert s == (if thinking then m.reasoning + ThinkEnd() else "") + m.content;
      NoBarFails(quote, s, thinking);
    } else {
      hide HasSpecial, Render, NormalizedAll;
      AcceptedIsClean(quote, Render(load, m, thinking, withoutEos), thinking);
    }
  }

  // ---------------------------------------------------------------------------
  // What the parsed arguments mean
  // ---------------------------------------------------------------------------

  function ItemText(quote: Quote, a: Arg): string {
    quote(a.key) + ": " + match a.value case Str(s) => quote(s) case Json(text) => text
  }

  /** A JSON object with these items, as it is serialized. */
  function ObjectText(quote: Quote, args: seq<Arg>): string {
    "{" + JoinWith(seq(|args|, i requires 0 <= i < |args| => ItemText(quote, args[i])), ", ") + "}"
  }

  /** Loading a serialized object gives its items back, for items that were loaded and for a single string. */
  ghost predicate JsonOk(quote: Quote, load: Load) {
    && (forall text: string :: load(text).Items? ==> load(ObjectText(quote, load(text).args)) == load(text))
    && (forall key: string, s: string :: load(ObjectText(quote, [Arg(key, Str(s))])) == Items([Arg(key, Str(s))]))
  }

  /** The text that the parser writes for a call's parameters is the serialized object of the rendered items. */
  lemma DecodedIsObject(quote: Quote, args: seq<Arg>)
    ensures DecodeArguments(quote, ParamsOf(args)) == ObjectText(quote, args)
  {
    var ps := ParamsOf(args);
    assert seq(|ps|, i requires 0 <= i < |ps| => DecodeValue(quote, ps[i]))
        == seq(|args|, i requires 0 <= i < |args| => ItemText(quote, args[i]));
  }

  /** A call that was parsed back loads to the items of the call that was rendered, in order. */
  lemma NormalizedLoads(quote: Quote, load: Load, call: ToolCall)
    requires JsonOk(quote, load) && !load(call.arguments).NotObject?
    ensures load(Normalized(quote, load, call).arguments) == Items(ArgsOf(load, call))
    ensures ArgsOf(load, Normalized(quote, load, call)) == ArgsOf(load, call)
  {
    DecodedIsObject(quote, ArgsOf(load, call));
    hide ObjectText, DecodeArguments;
  }

  ghost predicate SameCalls(load: Load, back: seq<ToolCall>, calls: seq<ToolCall>) {
    |back| == |calls| && forall i :: 0 <= i < |calls| ==>
      back[i].name == calls[i].name && load(back[i].arguments) == Items(ArgsOf(load, calls[i]))
  }

  lemma {:induction false} CallsLoad(quote: Quote, load: Load, calls: seq<ToolCall>)
    requires JsonOk(quote, load) && Renderable(load, calls)
    ensures SameCalls(load, NormalizedAll(quote, load, calls), calls)
  {
    hide JsonOk, ArgsOf;
    forall i | 0 <= i < |calls|
      ensures NormalizedAll(quote, load, calls)[i].name == calls[i].name
      ensures load(NormalizedAll(quote, load, calls)[i].arguments) == Items(ArgsOf(load, calls[i]))
    {
      NormalizedLoads(quote, load, calls[i]);
    }
  }

  /** Calls with the same names and items are rendered alike. */
  lemma {:induction false} SameRender(load: Load, back: seq<ToolCall>, calls: seq<ToolCall>)
    requires SameCalls(load, back, calls)
    ensures RenderCalls(load, back) == RenderCalls(load, calls) && Renderable(load, back)
  {
    hide EncodeArguments, JoinWith;
    forall i | 0 <= i < |calls| ensures RenderCall(load, back[i]) == RenderCall(load, calls[i]) {
      assert ArgsOf(load, back[i]) == ArgsOf(load, calls[i]);
    }
    hide RenderCall;
    assert seq(|back|, i requires 0 <= i < |back| => RenderCall(load, back[i]))
        == seq(|calls|, i requires 0 <= i < |calls| => RenderCall(load, calls[i]));
  }

  /**
   * Parsing what was rendered, and rendering it again, gives the same text; each parsed call has
   * the name of the rendered one, and its arguments load to the same items in the same order.
   */
  lemma {:induction false} RenderParseRender(quote: Quote, load: Load, m: Message, thinking: bool, withoutEos: bool)
    requires JsonOk(quote, load) && MessageOk(load, m) && RenderMessage(load, m, thinking, withoutEos).Some?
    requires !HasSpecial(m.content) && (thinking ==> !HasSpecial(m.reasoning)) && (withoutEos ==> m.calls != [])
    ensures var s := RenderMessage(load, m, thinking, withoutEos).value; var back := ParseMessage(quote, s, thinking);
      && back.Ok? && back.value.content == m.content && SameCalls(load, back.value.calls, m.calls)
      && RenderMessage(load, back.value, thinking, withoutEos) == Some(s)
  {
    hide ParseMessage, HasSpecial, MessageOk, JsonOk, ThinkEnd, Eos, RenderCalls, SameCalls, NormalizedAll;
    RoundTrip(quote, load, m, thinking, withoutEos);
    CallsLoad(quote, load, m.calls);
    var back := Expected(quote, load, m, thinking);
    SameRender(load, back.calls, m.calls);
    assert back.calls == [] <==> m.calls == [] by { assert |back.calls| == |m.calls|; }
  }

  /** Whatever is accepted has no special token in its content or reasoning. */
  lemma {:induction false} AcceptedIsClean(quote: Quote, s: string, thinking: bool)
    ensures var r := ParseMessage(quote, s, thinking);
      r.Ok? ==> !HasSpecial(r.value.content) && !HasSpecial(r.value.reasoning)
  {
    hide HasSpecial, ReadUntilStop, ParseCalls;
  }

  /** A cut is the text up to its stop, then the stop. */
  lemma ReadIs(s: string, index: nat, stops: seq<string>)
    requires index <= |s|
    ensures var cut := ReadUntilStop(index, s, stops);
      && (cut.stop.Some? ==> cut.stop.value in stops) && (cut.stop.None? ==> cut.index == |s|)
      && s[..cut.index] == s[..index] + cut.content + if cut.stop.Some? then cut.stop.value else ""
  {
    hide FindFrom;
    var (pos, stop) := Earliest(s, index, stops);
    if stop.Some? { assert s[..pos + |stop.value|] == s[..index] + s[index..pos] + s[pos..pos + |stop.value|]; }
  }

  /** The end of an accepted text: its end mark, or nothing where the calls end the text. */
  ghost predicate EndsAfterCalls(quote: Quote, s: string, from: nat, calls: seq<ToolCall>) {
    from <= |s| && var r := ParseCalls(quote, s, from, None);
    r.Ok? && r.value.calls == calls && (s == s[..r.value.index] || s == s[..r.value.index] + Eos())
  }

  /** A text that reads as head, then an end mark or calls, and nothing after them. */
  ghost predicate Closes(quote: Quote, s: string, head: string, calls: seq<ToolCall>) {
    || (calls == [] && s == head + Eos())
    || (head + CallsOpen() <= s && EndsAfterCalls(quote, s, |head + CallsOpen()|, calls))
  }

  lemma {:induction false} CallsClose(quote: Quote, s: string, from: nat, content: string, reasoning: string, end: Cut,
                                      calls: seq<ToolCall>)
    requires from <= |s| && ParseCalls(quote, s, from, None).Ok? && end.content == "" && end.index <= |s|
    requires ParseCalls(quote, s, from, None).value.calls == calls
    requires s[..end.index] == s[..ParseCalls(quote, s, from, None).value.index] +
      if end.stop.Some? then end.stop.value else ""
    requires Finish(s, end, content, reasoning, calls).Ok?
    ensures EndsAfterCalls(quote, s, from, calls)
  {
    hide HasSpecial, ParseCalls, Eos;
    assert s[..|s|] == s;
  }

  lemma {:induction false} EndCloses(quote: Quote, s: string, from: nat, reasoning: string)
    requires from <= |s|
    ensures var r := ParseEnd(quote, s, ReadUntilStop(from, s, [Eos(), CallsOpen()]), reasoning);
      r.Ok? ==> r.value.reasoning == reasoning && Closes(quote, s, s[..from] + r.value.content, r.value.calls)
  {
    EosShape();
    hide HasSpecial, ReadUntilStop, ParseCalls, Eos, CallsOpen, EndsAfterCalls, Finish;
    var body := ReadUntilStop(from, s, [Eos(), CallsOpen()]);
    ReadIs(s, from, [Eos(), CallsOpen()]);
    assert s[..|s|] == s;
    if body.stop == Some(CallsOpen()) {
      var calls := ParseCalls(quote, s, body.index, None);
      if calls.Ok? {
        var end := ReadUntilStop(calls.value.index, s, [Eos()]);
        ReadIs(s, calls.value.index, [Eos()]);
        assert end.content == "" ==> s[..calls.value.index] + end.content == s[..calls.value.index];
        if end.content == "" && Finish(s, end, body.content, reasoning, calls.value.calls).Ok? {
          CallsClose(quote, s, body.index, body.content, reasoning, end, calls.value.calls);
        }
      }
    } else if body.stop == Some(Eos()) {
      FinishAtEnd(s, body, body.content, reasoning, []);
    }
  }

  lemma FinishAtEnd(s: string, end: Cut, content: string, reasoning: string, calls: seq<ToolCall>)
    ensures Finish(s, end, content, reasoning, calls).Ok? ==> end.index == |s|
  {
    hide HasSpecial;
  }

  /** An accepted text is its reasoning and content, then an end mark or the calls, and nothing after them. */
  lemma {:induction false} AcceptedText(quote: Quote, s: string, thinking: bool)
    ensures var r := ParseMessage(quote, s, thinking);
      r.Ok? ==>
        Closes(quote, s, (if thinking then r.value.reasoning + ThinkEnd() else "") + r.value.content, r.value.calls)
  {
    var think := ReadUntilStop(0, s, [ThinkEnd(), CallsOpen()]);
    ReadIs(s, 0, [ThinkEnd(), CallsOpen()]);
    hide ReadUntilStop, ParseEnd, Closes, ThinkEnd, CallsOpen, Eos;
    EndCloses(quote, s, if thinking then think.index else 0, if thinking then think.content else "");
    assert s[..0] == "" && "" + think.content == think.content;
  }

  /** Under the payload rules, only the think tags can be special. */
  lemma {:induction false} SpecialIsThink(s: string)
    requires NoBar(s)
    ensures HasSpecial(s) <==> Contains(s, ThinkStart()) || Contains(s, ThinkEnd())
  {
    FindIsFirst(s, Bos(), 0);
    FindIsFirst(s, Eos(), 0);
    FindIsFirst(s, DsmlToken(), 0);
    assert Bos()[1] == Bar && Eos()[1] == Bar && DsmlToken()[0] == Bar;
    BarMissing(s, Bos(), 1);
    BarMissing(s, Eos(), 1);
    BarMissing(s, DsmlToken(), 0);
  }

  lemma {:induction false} BarMissing(s: string, pat: string, k: nat)
    requires NoBar(s) && k < |pat| && pat[k] == Bar
    ensures !Contains(s, pat)
  {
    FindIsFirst(s, pat, 0);
    var r := FindFrom(s, pat, 0);
    if r >= 0 { AtChar(s, pat, r, k); }
  }
}
