/** The remote guardrail client: socket callbacks that share `done` and `buffer` and race for
    one resolution, and what a call sends. */
module Remote {
  import opened Text
  import opened Json
  import opened Canonical
  import opened Binding
  import opened Protocol

  // ---- what a governed call sends ----

  /** JavaScript's truthiness; Null stands for undefined as well. */
  predicate Falsy(v: Value) {
    v.Null? || v == Bool(false) || v == Int(0) || v == Str("")
  }

  const NO_MEMBERS: Value := Obj([])

  function OrElse(v: Value, default: Value): Value {
    if Falsy(v) then default else v
  }

  /** The metadata of one call: agent_id and agentId, the context and the cost. */
  datatype Meta = Meta(snakeAgentId: Value, camelAgentId: Value, context: Value, cost: Value)

  /** The command that governRemote has verified for a tool called with params: normalize's
      defaults, the clock's time and a fresh trace id. */
  function GovernedCommand(tool: string, params: Value, meta: Meta, now: int, trace: string): Command {
    Command(OrElse(OrElse(meta.snakeAgentId, meta.camelAgentId), Str("agent")), Str(tool),
            OrElse(params, NO_MEMBERS), Int(now), Str(trace), OrElse(meta.context, NO_MEMBERS), meta.cost)
  }

  /** The command speaks for a caller's call: the tool, the parameters unless they are falsy, the
      agent by whichever spelling names one, the context and the cost. */
  predicate SpeaksFor(c: Command, tool: string, params: Value, meta: Meta) {
    && c.tool == Str(tool) && c.cost == meta.cost
    && (!Falsy(params) ==> c.params == params) && (Falsy(params) ==> c.params == Obj([]))
    && (!Falsy(meta.context) ==> c.context == meta.context) && (Falsy(meta.context) ==> c.context == Obj([]))
    && (!Falsy(meta.snakeAgentId) ==> c.agentId == meta.snakeAgentId)
    && (Falsy(meta.snakeAgentId) && !Falsy(meta.camelAgentId) ==> c.agentId == meta.camelAgentId)
    && (Falsy(meta.snakeAgentId) && Falsy(meta.camelAgentId) ==> c.agentId == Str("agent"))
  }

  /** Every command that a governed call makes speaks for that call, and for no other caller,
      context, cost or tool. */
  lemma GovernedSpeaksFor(tool: string, params: Value, meta: Meta, now: int, trace: string)
    ensures var c := GovernedCommand(tool, params, meta, now, trace);
      && SpeaksFor(c, tool, params, meta) && c.timestamp == Int(now) && c.traceId == Str(trace)
  {
  }

  /** The parameters verified are the ones the tool gets, except that falsy ones are verified
      as an empty object. */
  lemma VerifiedParams(tool: string, params: Value, meta: Meta, now: int, trace: string)
    ensures GovernedCommand(tool, params, meta, now, trace).params == params <==>
      params !in {Null, Bool(false), Int(0), Str("")}
  {
  }

  // ---- the race for the resolution ----

  datatype Resolution = Answered(body: Json) | Unavailable(reason: string) | Malformed

  /** v.allowed; spreading a value that is not an object leaves no verdict. */
  predicate Allowed(r: Resolution) {
    r.Answered? && r.body.Obj? && Lookup(r.body.members, "verdict") == Some(Str("allow"))
  }

  /** The try block: JSON.parse raises, or reading null.verdict does. */
  function Resolved(parse: ParseJs, line: string): Resolution {
    match parse(line)
    case None => Malformed
    case Some(v) => if v.Null? then Malformed else Answered(v)
  }

  datatype Event = Data(chunk: string) | Timeout | Error(message: string) | Close

  function Reason(e: Event): string
    requires !e.Data?
  {
    match e
    case Timeout => "timeout"
    case Error(m) => m
    case Close => "connection closed"
  }

  datatype Client = Client(done: bool, buffer: string, resolutions: seq<Resolution>)

  const WAITING := Client(false, "", [])

  function Buffered(parse: ParseJs, c: Client, buffer: string): Client {
    if HasLine(buffer) && !c.done
    then Client(true, buffer, c.resolutions + [Resolved(parse, buffer[..LineEnd(buffer)])])
    else c.(buffer := buffer)
  }

  function Handled(parse: ParseJs, c: Client, e: Event): Client {
    match e
    case Data(chunk) => Buffered(parse, c, c.buffer + chunk)
    case _ => if c.done then c else Client(true, c.buffer, c.resolutions + [Unavailable(Reason(e))])
  }

  /** The closure of one verify call. */
  class RemoteCall {
    const parse: ParseJs
    var done: bool
    var buffer: string
    ghost var resolutions: seq<Resolution>    // every call of resolve

    ghost function View(): Client
      reads this
    {
      Client(done, buffer, resolutions)
    }

    constructor (parse: ParseJs)
      ensures this.parse == parse && View() == WAITING
    {
      this.parse := parse;
      done, buffer, resolutions := false, "", [];
    }

    method Fail(reason: string) returns (out: Option<Resolution>)
      modifies this
      ensures View() == if old(done) then old(View())
                        else Client(true, old(buffer), old(resolutions) + [Unavailable(reason)])
      ensures out == if old(done) then None else Some(Unavailable(reason))
    {
      if done {
        return None;
      }
      done := true;
      resolutions := resolutions + [Unavailable(reason)];
      out := Some(Unavailable(reason));
    }

    method OnData(chunk: string) returns (out: Option<Resolution>)
      modifies this
      ensures View() == Handled(parse, old(View()), Data(chunk))
      ensures resolutions == old(resolutions) + if out.Some? then [out.value] else []
    {
      buffer := buffer + chunk;
      var i := LineEnd(buffer);
      if i < |buffer| && !done {
        done := true;
        var r := Resolved(parse, buffer[..i]);
        resolutions := resolutions + [r];
        return Some(r);
      }
      out := None;
    }

    method OnTimeout() returns (out: Option<Resolution>)
      modifies this
      ensures View() == Handled(parse, old(View()), Timeout)
      ensures resolutions == old(resolutions) + if out.Some? then [out.value] else []
    {
      out := Fail("timeout");
    }

    method OnError(message: string) returns (out: Option<Resolution>)
      modifies this
      ensures View() == Handled(parse, old(View()), Error(message))
      ensures resolutions == old(resolutions) + if out.Some? then [out.value] else []
    {
      out := Fail(message);
    }

    method OnClose() returns (out: Option<Resolution>)
      modifies this
      ensures View() == Handled(parse, old(View()), Close)
      ensures resolutions == old(resolutions) + if out.Some? then [out.value] else []
    {
      out := None;
      if !done {
        out := Fail("connection closed");
      }
    }
  }

  /** What a governed call comes to: a PermissionError that carries the verification, or the
      tool's output. */
  datatype Governed = Denied(verification: Resolution) | Output(value: Value)

  /** The function that governRemote returns, around one tool body. */
  class GovernedTool {
    const body: Value -> Value
    ghost var entered: seq<Value>      // the parameters the body was called with

    constructor (body: Value -> Value)
      ensures this.body == body && entered == []
    {
      this.body := body;
      entered := [];
    }

    /** From the resolution on: the body is entered exactly when the call is allowed, once, with
        the caller's own parameters. */
    method Run(v: Resolution, params: Value) returns (out: Governed)
      modifies this
      ensures entered == old(entered) + if Allowed(v) then [params] else []
      ensures out == if Allowed(v) then Output(body(params)) else Denied(v)
    {
      if !Allowed(v) {
        return Denied(v);
      }
      entered := entered + [params];
      out := Output(body(params));
    }
  }

  // ---- any sequence of events ----

  function After(parse: ParseJs, es: seq<Event>): Client {
    if es == [] then WAITING else Handled(parse, After(parse, es[..|es| - 1]), es[|es| - 1])
  }

  /** The characters received. */
  function Stream(es: seq<Event>): string {
    if es == [] then ""
    else Stream(es[..|es| - 1]) + if es[|es| - 1].Data? then es[|es| - 1].chunk else ""
  }

  predicate OnlyData(es: seq<Event>) {
    forall i | 0 <= i < |es| :: es[i].Data?
  }

  lemma LineStays(s: string, t: string)
    requires HasLine(s)
    ensures HasLine(s + t) && LineEnd(s + t) == LineEnd(s) && (s + t)[..LineEnd(s)] == s[..LineEnd(s)]
  {
    var n := LineEnd(s);
    var rest := s[n + 1..] + t;
    assert s + t == s[..n] + "\n" + rest;
    LineEndOf(s[..n], rest);
  }

  lemma {:induction false} BufferIsStream(parse: ParseJs, es: seq<Event>)
    ensures After(parse, es).buffer == Stream(es)
    decreases |es|
  {
    if es != [] {
      BufferIsStream(parse, es[..|es| - 1]);
    }
  }

  lemma {:induction false} DoneIff(parse: ParseJs, es: seq<Event>)
    ensures After(parse, es).done <==> HasLine(Stream(es)) || !OnlyData(es)
    decreases |es|
  {
    if es != [] {
      var n := |es| - 1;
      var front := es[..n];
      DoneIff(parse, front);
      BufferIsStream(parse, front);
      assert es == front + [es[n]];
      if HasLine(Stream(front)) && es[n].Data? {
        LineStays(Stream(front), es[n].chunk);
      }
    }
  }

  lemma {:induction false} OneResolution(parse: ParseJs, es: seq<Event>)
    ensures |After(parse, es).resolutions| == if After(parse, es).done then 1 else 0
    decreases |es|
  {
    if es != [] {
      OneResolution(parse, es[..|es| - 1]);
    }
  }

  /** The call has resolved exactly when a whole line has arrived or something ended the
      connection, and it never resolves twice. */
  lemma ResolvesOnce(parse: ParseJs, es: seq<Event>)
    ensures After(parse, es).done <==> HasLine(Stream(es)) || !OnlyData(es)
    ensures |After(parse, es).resolutions| == if After(parse, es).done then 1 else 0
  {
    DoneIff(parse, es);
    OneResolution(parse, es);
  }

  /** A resolution is final: no later event changes it. */
  lemma {:induction false} ResolutionIsFinal(parse: ParseJs, es: seq<Event>, later: seq<Event>)
    requires After(parse, es).done
    ensures After(parse, es + later).done && After(parse, es + later).resolutions == After(parse, es).resolutions
    decreases |later|
  {
    var all := es + later;
    if later == [] {
      assert all == es;
    } else {
      assert all[..|all| - 1] == es + later[..|later| - 1];
      ResolutionIsFinal(parse, es, later[..|later| - 1]);
    }
  }

  lemma {:induction false} FirstLineDecides(parse: ParseJs, es: seq<Event>)
    requires OnlyData(es) && HasLine(Stream(es))
    ensures After(parse, es).resolutions == [Resolved(parse, Stream(es)[..LineEnd(Stream(es))])]
    decreases |es|
  {
    var n := |es| - 1;
    var front := es[..n];
    BufferIsStream(parse, front);
    ResolvesOnce(parse, front);
    if HasLine(Stream(front)) {
      FirstLineDecides(parse, front);
      LineStays(Stream(front), es[n].chunk);
    }
  }

  /** However the server's characters are cut into chunks and whatever happens afterwards, the
      resolution is the first line's. */
  lemma AnsweredByFirstLine(parse: ParseJs, chunks: seq<Event>, later: seq<Event>)
    requires OnlyData(chunks) && HasLine(Stream(chunks))
    ensures After(parse, chunks + later).resolutions == [Resolved(parse, Stream(chunks)[..LineEnd(Stream(chunks))])]
  {
    FirstLineDecides(parse, chunks);
    ResolvesOnce(parse, chunks);
    ResolutionIsFinal(parse, chunks, later);
  }

  /** When the connection ends before a whole line has arrived the call is denied, whatever
      comes later. */
  lemma DeniedWithoutLine(parse: ParseJs, chunks: seq<Event>, end: Event, later: seq<Event>)
    requires OnlyData(chunks) && !HasLine(Stream(chunks)) && !end.Data?
    ensures After(parse, chunks + [end] + later).resolutions == [Unavailable(Reason(end))]
  {
    var es := chunks + [end];
    assert es[..|es| - 1] == chunks;
    ResolvesOnce(parse, chunks);
    ResolutionIsFinal(parse, es, later);
  }

  /** Every run of events that resolves is one of the two. */
  lemma {:induction false} ResolvesOneWay(parse: ParseJs, es: seq<Event>) returns (k: nat)
    requires After(parse, es).done
    ensures k <= |es| && OnlyData(es[..k])
    ensures HasLine(Stream(es[..k])) || (k < |es| && !es[k].Data? && !HasLine(Stream(es[..k])))
    decreases |es|
  {
    ResolvesOnce(parse, es);
    var n := |es| - 1;
    if OnlyData(es) {
      k := |es|;
      assert es[..k] == es;
    } else if OnlyData(es[..n]) {
      k := n;
    } else {
      ResolvesOnce(parse, es[..n]);
      k := ResolvesOneWay(parse, es[..n]);
      assert es[..n][..k] == es[..k];
    }
  }

  // ---- the server's bodies ----

  lemma AllowedIffVerdict(parse: ParseJs, body: Json)
    requires KeepsTexts(parse) && Valid(body) && body.Obj?
    ensures Allowed(Resolved(parse, Print(body))) <==> Lookup(body.members, "verdict") == Some(Str("allow"))
  {
    var p := parse(Print(Obj(body.members)));
    assert p.Some? && p.value.Obj? && SameTexts(p.value.members, body.members);
  }

  /** The client allows exactly the bodies whose verdict is allow, for every chunking of what
      the server writes and every later event. */
  lemma AllowedIffFirstBody(parse: ParseJs, bodies: seq<Json>, chunks: seq<Event>, later: seq<Event>)
    requires KeepsTexts(parse) && bodies != [] && Valid(bodies[0]) && bodies[0].Obj?
    requires OnlyData(chunks) && Stream(chunks) == Framed(bodies)
    ensures var rs := After(parse, chunks + later).resolutions;
      |rs| == 1 && (Allowed(rs[0]) <==> Lookup(bodies[0].members, "verdict") == Some(Str("allow")))
  {
    PrintIsOneLine(bodies[0]);
    FirstLine(Print(bodies[0]), Framed(bodies[1..]));
    AnsweredByFirstLine(parse, chunks, later);
    AllowedIffVerdict(parse, bodies[0]);
  }
}
