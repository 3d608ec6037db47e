/** The plugin's half of the RPC: handlers run one request at a time, in the order of the input lines
    (dynplugin/sdk.go:27-79). */
module PluginSdk {
  // JSON texts stand for parameters and results; a plugin's own variables are one text as well.
  type Json = string

  datatype Request = Request(id: int, name: string, params: Json)

  datatype Line = ConfigLine | RequestLine(req: Request) | Garbage

  /** `error` is empty when the handler ran. */
  datatype Response = Response(id: int, result: Json, error: string)

  datatype Handshake = Handshake(name: string, version: string, hooks: seq<string>)

  /** A handler may read and change the plugin's variables. */
  type Handler = (Json, Json) -> (Json, Json)

  type Filters = map<string, Handler>

  /** What a request makes of the plugin's variables, and the reply it earns. */
  function Answer(filters: Filters, vars: Json, req: Request): (Json, Response) {
    if req.name in filters then
      var (vars', result) := filters[req.name](vars, req.params);
      (vars', Response(req.id, result, ""))
    else (vars, Response(req.id, "", "unknown method: " + req.name))
  }

  /** The variables after the lines have been served in order. */
  function VarsAfter(filters: Filters, vars: Json, lines: seq<Line>): Json {
    if lines == [] then vars
    else
      var last, before := lines[|lines| - 1], VarsAfter(filters, vars, lines[..|lines| - 1]);
      if last.RequestLine? then Answer(filters, before, last.req).0 else before
  }

  /** The replies to the lines, in order: one for every request with an id, none for a notification. */
  function Replies(filters: Filters, vars: Json, lines: seq<Line>): seq<Response> {
    if lines == [] then []
    else
      var n := |lines| - 1;
      var last := lines[n];
      Replies(filters, vars, lines[..n])
      + if last.RequestLine? && last.req.id != 0
        then [Answer(filters, VarsAfter(filters, vars, lines[..n]), last.req).1] else []
  }

  // ---------------------------------------------------------------- in terms of the handlers

  /** `resp` is what the handler registered under the request's name yields when the variables are `before`. */
  predicate ReplyTo(filters: Filters, before: Json, req: Request, resp: Response) {
    && resp.id == req.id
    && if req.name in filters
       then resp.error == "" && resp.result == filters[req.name](before, req.params).1
       else resp.error == "unknown method: " + req.name && resp.result == ""
  }

  /** `trace` holds the variables before each line and after the last: a line whose name is registered runs that
      handler, notification or not, and every other line leaves them alone. */
  ghost predicate Chain(filters: Filters, trace: seq<Json>, lines: seq<Line>) {
    && |trace| == |lines| + 1
    && forall k :: 0 <= k < |lines| ==>
         trace[k + 1] ==
         if lines[k].RequestLine? && lines[k].req.name in filters
         then filters[lines[k].req.name](trace[k], lines[k].req.params).0 else trace[k]
  }

  /** The lines that ask for a reply. */
  function Asking(lines: seq<Line>): seq<nat> {
    if lines == [] then []
    else
      var n := |lines| - 1;
      Asking(lines[..n]) + if lines[n].RequestLine? && lines[n].req.id != 0 then [n] else []
  }

  /** They are exactly the requests with an id, in the order of the lines. */
  lemma {:induction false} AskingIsExact(lines: seq<Line>)
    ensures forall k :: k in Asking(lines) <==> 0 <= k < |lines| && lines[k].RequestLine? && lines[k].req.id != 0
    ensures forall i, j :: 0 <= i < j < |Asking(lines)| ==> Asking(lines)[i] < Asking(lines)[j]
  {
    if lines != [] {
      var n := |lines| - 1;
      AskingIsExact(lines[..n]);
      assert forall i :: 0 <= i < |Asking(lines[..n])| ==> Asking(lines[..n])[i] in Asking(lines[..n]);
    }
  }

  /** The replies, one by one, answer the lines that ask for one. */
  ghost predicate Answers(filters: Filters, trace: seq<Json>, lines: seq<Line>, asking: seq<nat>,
                          output: seq<Response>)
  {
    && |output| == |asking|
    && forall j :: 0 <= j < |asking| ==>
         && asking[j] < |lines| && asking[j] < |trace|
         && lines[asking[j]].RequestLine?
         && ReplyTo(filters, trace[asking[j]], lines[asking[j]].req, output[j])
  }

  lemma ChainGrows(filters: Filters, trace: seq<Json>, lines: seq<Line>, line: Line, vars: Json)
    requires Chain(filters, trace, lines)
    requires vars == if line.RequestLine? && line.req.name in filters
                     then filters[line.req.name](trace[|lines|], line.req.params).0 else trace[|lines|]
    ensures Chain(filters, trace + [vars], lines + [line])
  {
    var trace', lines' := trace + [vars], lines + [line];
    forall k | 0 <= k < |lines'|
      ensures trace'[k + 1] == if lines'[k].RequestLine? && lines'[k].req.name in filters
                               then filters[lines'[k].req.name](trace'[k], lines'[k].req.params).0 else trace'[k]
    {
      if k < |lines| { assert trace'[k + 1] == trace[k + 1] && lines'[k] == lines[k]; }
    }
  }

  lemma AnswersGrow(filters: Filters, trace: seq<Json>, lines: seq<Line>, output: seq<Response>, line: Line,
                    vars: Json, reply: seq<Response>)
    requires |trace| == |lines| + 1 && Answers(filters, trace, lines, Asking(lines), output)
    requires if line.RequestLine? && line.req.id != 0
             then |reply| == 1 && ReplyTo(filters, trace[|lines|], line.req, reply[0]) else reply == []
    ensures Answers(filters, trace + [vars], lines + [line], Asking(lines + [line]), output + reply)
  {
    assert (lines + [line])[..|lines|] == lines;
  }

  /** The variables and the replies are those of the sequential execution, handler by handler. */
  lemma {:induction false} SequentialExecution(filters: Filters, vars: Json, lines: seq<Line>)
    returns (trace: seq<Json>)
    ensures Chain(filters, trace, lines) && trace[0] == vars && trace[|lines|] == VarsAfter(filters, vars, lines)
    ensures forall k :: 0 <= k < |trace| ==> trace[k] == VarsAfter(filters, vars, lines[..k])
    ensures Answers(filters, trace, lines, Asking(lines), Replies(filters, vars, lines))
  {
    if lines == [] {
      trace := [vars];
    } else {
      var n := |lines| - 1;
      var trace0 := SequentialExecution(filters, vars, lines[..n]);
      var reply := if lines[n].RequestLine? && lines[n].req.id != 0
                   then [Answer(filters, trace0[n], lines[n].req).1] else [];
      ChainGrows(filters, trace0, lines[..n], lines[n], VarsAfter(filters, vars, lines));
      AnswersGrow(filters, trace0, lines[..n], Replies(filters, vars, lines[..n]), lines[n],
                  VarsAfter(filters, vars, lines), reply);
      assert lines[..n] + [lines[n]] == lines;
      trace := trace0 + [VarsAfter(filters, vars, lines)];
      assert forall k :: 0 <= k <= n ==> lines[..n][..k] == lines[..k];
      assert lines[..|lines|] == lines;
    }
  }

  /** Line `i` asks for reply `resp`, and `resp` is what its handler yields after the lines before it. */
  predicate Explains(filters: Filters, vars: Json, lines: seq<Line>, i: int, resp: Response) {
    && 0 <= i < |lines|
    && lines[i].RequestLine? && resp.id != 0
    && ReplyTo(filters, VarsAfter(filters, vars, lines[..i]), lines[i].req, resp)
  }

  /** Every reply is the answer to one request in the sequential execution; no notification is answered. */
  lemma {:induction false} RepliesExplained(filters: Filters, vars: Json, lines: seq<Line>, resp: Response)
    returns (i: nat)
    requires resp in Replies(filters, vars, lines)
    ensures Explains(filters, vars, lines, i, resp)
  {
    var n := |lines| - 1;
    if resp in Replies(filters, vars, lines[..n]) {
      i := RepliesExplained(filters, vars, lines[..n], resp);
      assert lines[..n][..i] == lines[..i];
    } else {
      i := n;
    }
  }

  /** One reply per request, never one more, in the order of the requests. */
  lemma OneReplyEach(filters: Filters, vars: Json, lines: seq<Line>)
    ensures |Replies(filters, vars, lines)| == |Asking(lines)|
    ensures forall j :: 0 <= j < |Asking(lines)| ==>
              Asking(lines)[j] < |lines| && lines[Asking(lines)[j]].RequestLine?
              && Replies(filters, vars, lines)[j].id == lines[Asking(lines)[j]].req.id
  {
    var trace := SequentialExecution(filters, vars, lines);
  }

  class PluginSDK {
    const name: string
    const version: string
    var hooks: seq<string>
    var filters: Filters

    constructor (name: string, version: string)
      ensures this.name == name && this.version == version && hooks == [] && filters == map[]
    {
      this.name, this.version := name, version;
      hooks, filters := [], map[];
    }

    /** A hook registered twice is announced twice; the later handler serves it. */
    method RegisterFilter(hook: string, handler: Handler)
      modifies this
      ensures hooks == old(hooks) + [hook]
      ensures filters == old(filters)[hook := handler]
    {
      hooks := hooks + [hook];
      filters := filters[hook := handler];
    }

    /** Run on a finite input: the handshake, then the replies of the sequential execution. `trace` holds the
        plugin's variables before each line. */
    method Run(input: seq<Line>, start: Json)
      returns (handshake: Handshake, output: seq<Response>, vars: Json, ghost trace: seq<Json>)
      ensures handshake == Handshake(name, version, hooks)
      ensures output == Replies(filters, start, input)
      ensures vars == VarsAfter(filters, start, input)
      ensures Chain(filters, trace, input) && trace[0] == start && trace[|input|] == vars
      ensures Answers(filters, trace, input, Asking(input), output)
    {
      handshake := Handshake(name, version, hooks);
      output, vars := [], start;
      for i := 0 to |input|
        invariant output == Replies(filters, start, input[..i])
        invariant vars == VarsAfter(filters, start, input[..i])
      {
        var line := input[i];
        assert input[..i + 1][..i] == input[..i];
        if line.RequestLine? {
          var req := line.req;
          if req.id == 0 {
            if req.name in filters {
              var (vars', _) := filters[req.name](vars, req.params);
              vars := vars';
            }
          } else if req.name in filters {
            var (vars', result) := filters[req.name](vars, req.params);
            vars, output := vars', output + [Response(req.id, result, "")];
          } else {
            output := output + [Response(req.id, "", "unknown method: " + req.name)];
          }
        }
      }
      assert input[..|input|] == input;
      trace := SequentialExecution(filters, start, input);
    }
  }
}
