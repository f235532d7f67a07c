/** Fail-closed from end to end: any number of governed calls, each over its own connection to
    the verifier server. Delivery in either direction stops anywhere and comes in any pieces;
    the server may raise or die between any two of its steps; timeouts, errors and closes race
    with the answer; other managers save receipts meanwhile. The server has a store. */
module EndToEnd {
  import opened Text
  import opened Json
  import opened Canonical
  import opened Binding
  import opened Receipts
  import opened Storage
  import opened Protocol
  import opened Remote
  import Verifier

  datatype World = World(
    digest: Digest, show: Shown, sign: Signing, config: Config,
    rules: seq<Verifier.Rule>, ruleConfig: Value, errorCode: Decision -> Value,
    loads: Loads, parse: ParseJs)

  /** A call of a governed function by some caller, and the command it sends. */
  datatype Call = Call(tool: string, params: Value, meta: Meta, command: Command)

  datatype ServerPc =
    | Reading
    | Deciding(command: Command)
    | Persisted(decision: Decision, receipt: Receipt)   // create_admission has returned
    | Failing                                           // something raised
    | Closed

  datatype Conn = Conn(
    call: Call,
    delivered: nat,      // characters of the request that reached the server
    server: ServerPc,
    written: string,     // what the server wrote
    received: nat,       // how much of it reached the client
    client: Client,
    ran: bool)           // the tool body has been entered

  /** saved is every receipt that save_receipt committed, in order. */
  datatype State = State(saved: seq<Receipt>, conns: map<nat, Conn>)

  function RequestText(c: Call): string {
    Print(Request(c.command)) + "\n"
  }

  datatype Action =
    | Open(call: Call)
    | Deliver(count: nat)
    | ReadLine(command: Option<Command>)     // a line, or what there is of one at the end of the stream
    | Persist(decision: Decision, receipt: Receipt)
    | Raise
    | Write(body: Json)
    | Die
    | Receive(upTo: nat)                     // the data event for everything up to there
    | Break(event: Event)
    | RunTool
    | SaveElsewhere(receipt: Receipt)

  predicate ServerGuard(k: Conn, a: Action) {
    match a
    case ReadLine(_) => k.server.Reading? && 0 < k.delivered <= |RequestText(k.call)|
    case Persist(_, _) => k.server.Deciding?
    case Raise => k.server.Deciding?
    case Write(_) => k.server.Persisted? || k.server.Failing?
    case Die => true
    case _ => false
  }

  predicate ClientGuard(k: Conn, a: Action) {
    match a
    case Deliver(count) => k.delivered + count <= |RequestText(k.call)|
    case Receive(n) => k.received <= n <= |k.written|
    case Break(e) => !e.Data?
    case RunTool => !k.ran && k.client.resolutions != [] && Allowed(k.client.resolutions[0])
    case _ => false
  }

  predicate Guard(s: State, p: nat, a: Action) {
    if a.Open? then p !in s.conns
    else if a.SaveElsewhere? then true
    else p in s.conns && (ServerGuard(s.conns[p], a) || ClientGuard(s.conns[p], a))
  }

  /** The decision is the rules', and the receipt an admission signed for it. */
  ghost predicate Decides(w: World, c: Command, d: Decision, r: Receipt) {
    && d == Verifier.Decide(w.rules, w.ruleConfig, c)
    && exists now, nonce, n :: IsAdmissionFor(w, c, d, r, now, nonce, n)
  }

  predicate IsAdmissionFor(w: World, c: Command, d: Decision, r: Receipt, now: int, nonce: string, n: nat) {
    r == SignedBy(w.sign, Admission(w.digest, w.show, w.config, c, d, now, nonce, n))
  }

  predicate WrittenFor(w: World, server: ServerPc, body: Json, error: string) {
    if server.Persisted? then
      Complete(server.receipt) && body == OkBody(server.decision, server.receipt, w.errorCode(server.decision))
    else body == DenyBody(error)
  }

  ghost predicate Computed(w: World, s: State, p: nat, a: Action) {
    match a
    case Open(call) => Sends(call)
    case SaveElsewhere(_) => true
    case _ => p in s.conns && ServerComputed(w, s.conns[p], a)
  }

  ghost predicate ServerComputed(w: World, k: Conn, a: Action) {
    match a
    case ReadLine(command) => ReadFrom(w, k, command)
    case Persist(d, r) => k.server.Deciding? && Decides(w, k.server.command, d, r)
    case Write(body) => exists error :: WrittenFor(w, k.server, body, error)
    case _ => true
  }

  /** The command, or the failure, that the delivered text decodes to. */
  ghost predicate ReadFrom(w: World, k: Conn, command: Option<Command>) {
    && 0 < k.delivered <= |RequestText(k.call)|
    && Lines(RequestText(k.call)[..k.delivered]) != []
    && exists now, trace :: command == CommandOf(w.loads, Lines(RequestText(k.call)[..k.delivered])[0], now, trace)
  }

  ghost predicate Enabled(w: World, s: State, p: nat, a: Action) {
    Guard(s, p, a) && Computed(w, s, p, a)
  }

  function AfterServer(k: Conn, a: Action): Conn
    requires ServerGuard(k, a)
  {
    match a
    case ReadLine(command) => k.(server := if command.Some? then Deciding(command.value) else Failing)
    case Persist(d, r) => k.(server := Persisted(d, r))
    case Raise => k.(server := Failing)
    case Write(body) => k.(server := Closed, written := Print(body) + "\n")
    case Die => k.(server := Closed)
  }

  function AfterClient(w: World, k: Conn, a: Action): Conn
    requires ClientGuard(k, a)
  {
    match a
    case Deliver(count) => k.(delivered := k.delivered + count)
    case Receive(n) =>
      k.(received := n, client := Handled(w.parse, k.client, Data(k.written[k.received..n])))
    case Break(e) => k.(client := Handled(w.parse, k.client, e))
    case RunTool => k.(ran := true)
  }

  function Saves(a: Action): seq<Receipt> {
    match a
    case Persist(_, r) => [r]
    case SaveElsewhere(r) => [r]
    case _ => []
  }

  function ConnAfter(w: World, s: State, p: nat, a: Action): Conn
    requires Guard(s, p, a) && !a.SaveElsewhere?
  {
    if a.Open? then Conn(a.call, 0, Reading, "", 0, WAITING, false)
    else if ServerGuard(s.conns[p], a) then AfterServer(s.conns[p], a)
    else AfterClient(w, s.conns[p], a)
  }

  function After(w: World, s: State, p: nat, a: Action): State
    requires Guard(s, p, a)
  {
    State(s.saved + Saves(a), if a.SaveElsewhere? then s.conns else s.conns[p := ConnAfter(w, s, p, a)])
  }

  ghost predicate Step(w: World, s: State, t: State) {
    exists p, a :: Enabled(w, s, p, a) && t == After(w, s, p, a)
  }

  ghost predicate Run(w: World, states: seq<State>) {
    states != [] && states[0].conns == map[] && forall i | 0 <= i < |states| - 1 :: Step(w, states[i], states[i + 1])
  }

  // ---- the invariant of one connection ----

  ghost predicate Genuine(w: World, saved: seq<Receipt>, c: Command, d: Decision, r: Receipt) {
    r in saved && Decides(w, c, d, r)
  }

  /** An allow decision on the command has been saved with its receipt. */
  ghost predicate Backed(w: World, saved: seq<Receipt>, c: Command) {
    exists d, r :: Genuine(w, saved, c, d, r) && d.verdict == "allow"
  }

  predicate SaysAllow(body: Json) {
    body.Obj? && Lookup(body.members, "verdict") == Some(Str("allow"))
  }

  /** The server's side: it only ever decides on the command that was sent, and writes an
      allow only for a receipt that is saved. */
  ghost predicate ServerInv(w: World, saved: seq<Receipt>, k: Conn) {
    && (k.server.Deciding? ==> k.server.command == k.call.command)
    && (k.server.Persisted? ==> Genuine(w, saved, k.call.command, k.server.decision, k.server.receipt))
    && (!k.server.Closed? ==> k.written == "")
    && (k.written != "" ==> exists body :: IsAnswer(w, saved, k, body))
  }

  ghost predicate IsAnswer(w: World, saved: seq<Receipt>, k: Conn, body: Json) {
    && k.written == Print(body) + "\n" && Valid(body) && body.Obj?
    && (SaysAllow(body) ==> HandsOut(w, saved, k.call.command, body))
  }

  /** The body carries the receipt saved for an allow decision on the command. */
  ghost predicate HandsOut(w: World, saved: seq<Receipt>, c: Command, body: Json) {
    exists d, r :: Genuine(w, saved, c, d, r) && d.verdict == "allow" && Carries(body, r)
  }

  ghost predicate ClientInv(w: World, saved: seq<Receipt>, k: Conn) {
    && k.received <= |k.written| && k.client.buffer == k.written[..k.received]
    && Resolving(k.client, Backed(w, saved, k.call.command))
    && (k.ran ==> Backed(w, saved, k.call.command))
    && Sends(k.call)
  }

  /** An allowed resolution is backed. */
  ghost predicate Resolving(c: Client, backed: bool) {
    (c.done <==> c.resolutions != []) && (c.resolutions != [] && Allowed(c.resolutions[0]) ==> backed)
  }

  /** The command is the one a governed call makes. */
  ghost predicate Sends(call: Call) {
    exists now, trace :: call.command == GovernedCommand(call.tool, call.params, call.meta, now, trace)
  }

  ghost predicate ConnInv(w: World, saved: seq<Receipt>, k: Conn) {
    ServerInv(w, saved, k) && ClientInv(w, saved, k)
  }

  ghost predicate Inv(w: World, s: State) {
    forall p | p in s.conns :: ConnInv(w, s.saved, s.conns[p])
  }

  lemma BackedGrows(w: World, saved: seq<Receipt>, more: seq<Receipt>, c: Command)
    requires Backed(w, saved, c)
    ensures Backed(w, saved + more, c)
  {
    var d, r :| Genuine(w, saved, c, d, r) && d.verdict == "allow";
    assert Genuine(w, saved + more, c, d, r);
  }

  lemma HandsOutGrows(w: World, saved: seq<Receipt>, more: seq<Receipt>, c: Command, body: Json)
    requires HandsOut(w, saved, c, body)
    ensures HandsOut(w, saved + more, c, body)
  {
    var d, r :| Genuine(w, saved, c, d, r) && d.verdict == "allow" && Carries(body, r);
    assert Genuine(w, saved + more, c, d, r);
  }

  lemma HandsOutBacks(w: World, saved: seq<Receipt>, c: Command, body: Json)
    requires HandsOut(w, saved, c, body)
    ensures Backed(w, saved, c)
  {
  }

  lemma ServerInvGrows(w: World, saved: seq<Receipt>, more: seq<Receipt>, k: Conn)
    requires ServerInv(w, saved, k)
    ensures ServerInv(w, saved + more, k)
  {
    if k.written != "" {
      var body :| IsAnswer(w, saved, k, body);
      if SaysAllow(body) {
        HandsOutGrows(w, saved, more, k.call.command, body);
      }
      assert IsAnswer(w, saved + more, k, body);
    }
  }

  lemma ClientInvGrows(w: World, saved: seq<Receipt>, more: seq<Receipt>, k: Conn)
    requires ClientInv(w, saved, k)
    ensures ClientInv(w, saved + more, k)
  {
    if Backed(w, saved, k.call.command) {
      BackedGrows(w, saved, more, k.call.command);
    }
  }

  lemma LineRead(c: Command, delivered: nat) returns (cut: nat)
    requires 0 < delivered <= |Print(Request(c)) + "\n"|
    ensures cut == if delivered <= |Print(Request(c))| then delivered else |Print(Request(c))|
    ensures Lines((Print(Request(c)) + "\n")[..delivered]) == [Print(Request(c))[..cut]]
  {
    var line := Print(Request(c));
    PrintIsOneLine(Request(c));
    LinesOfCut(line, delivered);
    cut := if delivered <= |line| then delivered else |line|;
    assert line[..|line|] == line;
  }

  lemma ReadKept(w: World, k: Conn, command: Option<Command>)
    requires InvertsPrint(w.loads) && ReadFrom(w, k, command)
    ensures command == None || command == Some(k.call.command)
  {
    var cut := LineRead(k.call.command, k.delivered);
    var now, trace :| command == CommandOf(w.loads, Lines(RequestText(k.call)[..k.delivered])[0], now, trace);
    CutRequestDecodes(w.loads, k.call.command, cut, now, trace);
  }

  lemma OkAnswer(w: World, saved: seq<Receipt>, c: Command, d: Decision, r: Receipt)
    requires Genuine(w, saved, c, d, r) && Complete(r)
    ensures SaysAllow(OkBody(d, r, w.errorCode(d))) ==> HandsOut(w, saved, c, OkBody(d, r, w.errorCode(d)))
  {
    OkBodyVerdict(d, r, w.errorCode(d));
    OkBodyCarries(d, r, w.errorCode(d));
  }

  lemma DenyAnswer(error: string)
    ensures !SaysAllow(DenyBody(error))
  {
    DenyBodyVerdict(error);
    assert "deny"[0] != "allow"[0];
  }

  lemma WriteKept(w: World, saved: seq<Receipt>, k: Conn, body: Json, error: string)
    requires ServerInv(w, saved, k) && (k.server.Persisted? || k.server.Failing?)
    requires WrittenFor(w, k.server, body, error)
    ensures Valid(body) && body.Obj? && (SaysAllow(body) ==> HandsOut(w, saved, k.call.command, body))
  {
    if k.server.Persisted? {
      OkAnswer(w, saved, k.call.command, k.server.decision, k.server.receipt);
    } else {
      DenyAnswer(error);
    }
  }

  lemma WrittenKept(w: World, saved: seq<Receipt>, k: Conn, body: Json, error: string)
    requires ServerInv(w, saved, k) && (k.server.Persisted? || k.server.Failing?)
    requires WrittenFor(w, k.server, body, error)
    ensures ServerInv(w, saved, AfterServer(k, Write(body)))
  {
    WriteKept(w, saved, k, body, error);
    assert IsAnswer(w, saved, AfterServer(k, Write(body)), body);
  }

  lemma SavedIsGenuine(w: World, saved: seq<Receipt>, c: Command, d: Decision, r: Receipt)
    requires Decides(w, c, d, r)
    ensures Genuine(w, saved + [r], c, d, r)
  {
    assert (saved + [r])[|saved|] == r;
  }

  lemma PersistKept(w: World, saved: seq<Receipt>, k: Conn, d: Decision, r: Receipt)
    requires ServerInv(w, saved, k) && k.server.Deciding? && Decides(w, k.server.command, d, r)
    ensures ServerInv(w, saved + [r], AfterServer(k, Persist(d, r)))
  {
    SavedIsGenuine(w, saved, k.call.command, d, r);
  }

  lemma QuietKept(w: World, saved: seq<Receipt>, k: Conn, a: Action)
    requires ServerInv(w, saved, k) && ServerGuard(k, a) && (a.Raise? || a.Die?)
    ensures ServerInv(w, saved, AfterServer(k, a))
  {
    if k.written != "" {
      var body :| IsAnswer(w, saved, k, body);
      assert IsAnswer(w, saved, AfterServer(k, a), body);
    }
  }

  lemma DecodedKept(w: World, saved: seq<Receipt>, k: Conn, command: Option<Command>)
    requires InvertsPrint(w.loads) && ServerInv(w, saved, k) && k.server.Reading? && ReadFrom(w, k, command)
    ensures ServerInv(w, saved, AfterServer(k, ReadLine(command)))
  {
    ReadKept(w, k, command);
  }

  lemma ServerKept(w: World, saved: seq<Receipt>, k: Conn, a: Action)
    requires InvertsPrint(w.loads) && ServerGuard(k, a) && ServerComputed(w, k, a) && ServerInv(w, saved, k)
    ensures ServerInv(w, saved + Saves(a), AfterServer(k, a))
  {
    assert saved + [] == saved;
    match a
    case Persist(d, r) => PersistKept(w, saved, k, d, r);
    case ReadLine(command) => DecodedKept(w, saved, k, command);
    case Write(body) =>
      var error :| WrittenFor(w, k.server, body, error);
      WrittenKept(w, saved, k, body, error);
    case Raise => QuietKept(w, saved, k, a);
    case Die => QuietKept(w, saved, k, a);
  }

  lemma PrefixHasNoLine(body: Json, n: nat)
    requires n <= |Print(body)|
    ensures !HasLine((Print(body) + "\n")[..n])
  {
    PrintIsOneLine(body);
    assert (Print(body) + "\n")[..n] == Print(body)[..n];
    NoLineIn(Print(body)[..n]);
  }

  /** Until the last character is there the client has no line; then it has the body. */
  lemma LineIsBody(parse: ParseJs, body: Json, written: string, n: nat)
    requires KeepsTexts(parse) && Valid(body) && body.Obj? && written == Print(body) + "\n"
    requires n <= |written| && HasLine(written[..n])
    ensures Allowed(Resolved(parse, written[..n][..LineEnd(written[..n])])) <==> SaysAllow(body)
  {
    if n < |written| {
      PrefixHasNoLine(body, n);
      assert false;
    }
    assert written[..n] == Print(body) + "\n" + "";
    PrintIsOneLine(body);
    FirstLine(Print(body), "");
    AllowedIffVerdict(parse, body);
  }

  lemma LineIsBacked(w: World, saved: seq<Receipt>, k: Conn, n: nat)
    requires KeepsTexts(w.parse) && ServerInv(w, saved, k)
    requires n <= |k.written| && HasLine(k.written[..n])
    requires Allowed(Resolved(w.parse, k.written[..n][..LineEnd(k.written[..n])]))
    ensures Backed(w, saved, k.call.command)
  {
    assert k.written != "";
    var body :| IsAnswer(w, saved, k, body);
    LineIsBody(w.parse, body, k.written, n);
    HandsOutBacks(w, saved, k.call.command, body);
  }

  lemma BufferGrows(written: string, m: nat, n: nat)
    requires m <= n <= |written|
    ensures written[..m] + written[m..n] == written[..n]
  {
  }

  lemma BufferedKeeps(parse: ParseJs, c: Client, text: string, backed: bool)
    requires Resolving(c, backed)
    requires HasLine(text) && Allowed(Resolved(parse, text[..LineEnd(text)])) ==> backed
    ensures Resolving(Buffered(parse, c, text), backed)
  {
  }

  lemma HandledSlice(parse: ParseJs, c: Client, written: string, m: nat, n: nat)
    requires m <= n <= |written| && c.buffer == written[..m]
    ensures Handled(parse, c, Data(written[m..n])) == Buffered(parse, c, written[..n])
  {
    BufferGrows(written, m, n);
    HandledChunk(parse, c, written[m..n], written[..n]);
  }

  lemma HandledChunk(parse: ParseJs, c: Client, chunk: string, text: string)
    requires c.buffer + chunk == text
    ensures Handled(parse, c, Data(chunk)) == Buffered(parse, c, text)
  {
  }

  lemma ReceiveKept(w: World, saved: seq<Receipt>, k: Conn, n: nat)
    requires KeepsTexts(w.parse) && ServerInv(w, saved, k) && ClientInv(w, saved, k)
    requires k.received <= n <= |k.written|
    ensures ClientInv(w, saved, AfterClient(w, k, Receive(n)))
  {
    HandledSlice(w.parse, k.client, k.written, k.received, n);
    ReceiveResolves(w, saved, k, n);
    BufferedText(w.parse, k.client, k.written[..n]);
    ClientReplaced(w, saved, k, n, Buffered(w.parse, k.client, k.written[..n]));
  }

  lemma ClientReplaced(w: World, saved: seq<Receipt>, k: Conn, n: nat, c: Client)
    requires ClientInv(w, saved, k) && n <= |k.written| && c.buffer == k.written[..n]
    requires Resolving(c, Backed(w, saved, k.call.command))
    ensures ClientInv(w, saved, k.(received := n, client := c))
  {
  }

  lemma BufferedText(parse: ParseJs, c: Client, text: string)
    ensures Buffered(parse, c, text).buffer == text
  {
  }

  lemma ReceiveResolves(w: World, saved: seq<Receipt>, k: Conn, n: nat)
    requires KeepsTexts(w.parse) && ServerInv(w, saved, k) && n <= |k.written|
    requires Resolving(k.client, Backed(w, saved, k.call.command))
    ensures Resolving(Buffered(w.parse, k.client, k.written[..n]), Backed(w, saved, k.call.command))
  {
    var text := k.written[..n];
    if HasLine(text) && Allowed(Resolved(w.parse, text[..LineEnd(text)])) {
      LineIsBacked(w, saved, k, n);
    }
    BufferedKeeps(w.parse, k.client, text, Backed(w, saved, k.call.command));
  }

  lemma OthersKept(w: World, saved: seq<Receipt>, k: Conn, a: Action)
    requires ClientInv(w, saved, k) && ClientGuard(k, a) && !a.Receive?
    ensures ClientInv(w, saved, AfterClient(w, k, a))
  {
  }

  lemma ClientKept(w: World, saved: seq<Receipt>, k: Conn, a: Action)
    requires KeepsTexts(w.parse) && ServerInv(w, saved, k) && ClientInv(w, saved, k) && ClientGuard(k, a)
    ensures ClientInv(w, saved, AfterClient(w, k, a))
  {
    if a.Receive? {
      ReceiveKept(w, saved, k, a.upTo);
    } else {
      OthersKept(w, saved, k, a);
    }
  }

  lemma ClientSideOnly(w: World, saved: seq<Receipt>, k: Conn, a: Action)
    requires ServerInv(w, saved, k) && ClientGuard(k, a)
    ensures ServerInv(w, saved, AfterClient(w, k, a))
  {
    if k.written != "" {
      var body :| IsAnswer(w, saved, k, body);
      assert IsAnswer(w, saved, AfterClient(w, k, a), body);
    }
  }

  lemma ServerSideOnly(w: World, saved: seq<Receipt>, k: Conn, a: Action)
    requires ServerInv(w, saved, k) && ClientInv(w, saved, k) && ServerGuard(k, a)
    ensures ClientInv(w, saved, AfterServer(k, a))
  {
  }

  lemma ConnKeptByServer(w: World, saved: seq<Receipt>, k: Conn, a: Action)
    requires InvertsPrint(w.loads) && ConnInv(w, saved, k) && ServerGuard(k, a) && ServerComputed(w, k, a)
    ensures ConnInv(w, saved + Saves(a), AfterServer(k, a))
  {
    ServerKept(w, saved, k, a);
    ServerSideOnly(w, saved, k, a);
    ClientInvGrows(w, saved, Saves(a), AfterServer(k, a));
  }

  lemma NoMore(saved: seq<Receipt>, more: seq<Receipt>)
    requires more == []
    ensures saved + more == saved
  {
  }

  lemma ConnKeptByClient(w: World, saved: seq<Receipt>, k: Conn, a: Action)
    requires KeepsTexts(w.parse) && ConnInv(w, saved, k) && ClientGuard(k, a)
    ensures ConnInv(w, saved + Saves(a), AfterClient(w, k, a))
  {
    ClientKept(w, saved, k, a);
    ClientSideOnly(w, saved, k, a);
    NoMore(saved, Saves(a));
  }

  lemma ConnOpened(w: World, saved: seq<Receipt>, call: Call)
    requires Sends(call)
    ensures ConnInv(w, saved, Conn(call, 0, Reading, "", 0, WAITING, false))
  {
  }

  lemma ConnKept(w: World, s: State, p: nat, a: Action)
    requires InvertsPrint(w.loads) && KeepsTexts(w.parse) && Inv(w, s) && Enabled(w, s, p, a) && !a.SaveElsewhere?
    ensures ConnInv(w, s.saved + Saves(a), ConnAfter(w, s, p, a))
  {
    if a.Open? {
      ConnOpened(w, s.saved + Saves(a), a.call);
    } else if ServerGuard(s.conns[p], a) {
      ConnKeptByServer(w, s.saved, s.conns[p], a);
    } else {
      ConnKeptByClient(w, s.saved, s.conns[p], a);
    }
  }

  lemma InvKept(w: World, s: State, p: nat, a: Action)
    requires InvertsPrint(w.loads) && KeepsTexts(w.parse) && Inv(w, s) && Enabled(w, s, p, a)
    ensures Inv(w, After(w, s, p, a))
  {
    var t := After(w, s, p, a);
    forall q | q in t.conns ensures ConnInv(w, t.saved, t.conns[q]) {
      if q == p && !a.SaveElsewhere? {
        ConnKept(w, s, p, a);
      } else {
        ServerInvGrows(w, s.saved, Saves(a), s.conns[q]);
        ClientInvGrows(w, s.saved, Saves(a), s.conns[q]);
      }
    }
  }

  lemma StepKeepsInv(w: World, s: State, t: State)
    requires InvertsPrint(w.loads) && KeepsTexts(w.parse) && Inv(w, s) && Step(w, s, t)
    ensures Inv(w, t)
  {
    var p, a :| Enabled(w, s, p, a) && t == After(w, s, p, a);
    InvKept(w, s, p, a);
  }

  lemma {:induction false} InvAlways(w: World, states: seq<State>, i: nat)
    requires InvertsPrint(w.loads) && KeepsTexts(w.parse) && Run(w, states) && i < |states|
    ensures Inv(w, states[i])
  {
    if i > 0 {
      InvAlways(w, states, i - 1);
      StepKeepsInv(w, states[i - 1], states[i]);
    }
  }

  // ---- the main result ----

  /** r is an admission with verdict allow for a caller's call: it names the tool in its tool,
      params_hash and action, the command's trace and context, its signature is the server's, and
      its request_hash covers the command that the rules allowed, which speaks for the caller. */
  ghost predicate Authorizes(w: World, r: Receipt, call: Call) {
    && Complete(r) && r.fields[Signature] == Str(ToHex(w.sign(Payload(r))))
    && IsText(r, ReceiptStatus, "admission") && IsText(r, Verdict, "allow") && IsText(r, Tool, call.tool)
    && HasField(r, TraceId, call.command.traceId)
    && IsText(r, RuntimeContextHash, Sha256Uri(w.digest, call.command.context))
    && Covers(w, r, call)
  }

  predicate Covers(w: World, r: Receipt, call: Call)
    requires Signable(r)
  {
    && SpeaksFor(call.command, call.tool, call.params, call.meta)
    && CommandMatches(w.digest, w.show, r, call.command)
    && Verifier.Decide(w.rules, w.ruleConfig, call.command).verdict == "allow"
  }

  lemma AdmissionIsSigned(w: World, a: Receipt)
    requires Complete(a)
    ensures SignedBy(w.sign, a).fields[Signature] == Str(ToHex(w.sign(Payload(SignedBy(w.sign, a)))))
  {
    SignedCarriesSignature(w.sign, a);
  }

  lemma AdmissionCovers(w: World, call: Call, d: Decision, now: int, nonce: string, n: nat)
    requires d == Verifier.Decide(w.rules, w.ruleConfig, call.command) && d.verdict == "allow" && Sends(call)
    ensures Covers(w, SignedBy(w.sign, Admission(w.digest, w.show, w.config, call.command, d, now, nonce, n)), call)
  {
    var sent, trace :| call.command == GovernedCommand(call.tool, call.params, call.meta, sent, trace);
    GovernedSpeaksFor(call.tool, call.params, call.meta, sent, trace);
    AdmissionMatches(w.digest, w.show, w.config, call.command, d, now, nonce, n);
  }

  lemma AdmissionSays(w: World, c: Command, d: Decision, now: int, nonce: string, n: nat, tool: string)
    requires c.tool == Str(tool) && d.verdict == "allow"
    ensures var r := SignedBy(w.sign, Admission(w.digest, w.show, w.config, c, d, now, nonce, n));
      IsText(r, ReceiptStatus, "admission") && IsText(r, Verdict, "allow") && IsText(r, Tool, tool)
  {
    AdmissionFields(w.digest, w.show, w.config, c, d, now, nonce, n);
    AdmissionTool(w.digest, w.show, w.config, c, d, now, nonce, n);
  }

  lemma AdmissionTells(w: World, c: Command, d: Decision, now: int, nonce: string, n: nat)
    ensures var r := SignedBy(w.sign, Admission(w.digest, w.show, w.config, c, d, now, nonce, n));
      HasField(r, TraceId, c.traceId) && IsText(r, RuntimeContextHash, Sha256Uri(w.digest, c.context))
  {
    AdmissionTrace(w.digest, w.show, w.config, c, d, now, nonce, n);
    AdmissionContext(w.digest, w.show, w.config, c, d, now, nonce, n);
  }

  lemma GenuineAuthorizes(w: World, saved: seq<Receipt>, call: Call, d: Decision, r: Receipt)
    requires Genuine(w, saved, call.command, d, r) && d.verdict == "allow" && Sends(call)
    ensures Authorizes(w, r, call)
  {
    var c := call.command;
    var now, nonce, n :| IsAdmissionFor(w, c, d, r, now, nonce, n);
    AdmissionSays(w, c, d, now, nonce, n, call.tool);
    AdmissionTells(w, c, d, now, nonce, n);
    AdmissionCovers(w, call, d, now, nonce, n);
    AdmissionIsSigned(w, Admission(w.digest, w.show, w.config, c, d, now, nonce, n));
  }

  /** The step that enters a tool body finds a signed allow admission for that very call among
      the receipts already saved. */
  lemma EntryIsAuthorized(w: World, s: State, t: State, p: nat)
    requires Inv(w, s) && Step(w, s, t) && p in t.conns && t.conns[p].ran
    requires p in s.conns ==> !s.conns[p].ran
    ensures exists r | r in s.saved :: Authorizes(w, r, t.conns[p].call)
  {
    var q, a :| Enabled(w, s, q, a) && t == After(w, s, q, a);
    EntersByRunTool(w, s, q, a, p);
    var k := s.conns[p];
    assert ConnInv(w, s.saved, k);
    var d, r :| Genuine(w, s.saved, k.call.command, d, r) && d.verdict == "allow";
    GenuineAuthorizes(w, s.saved, k.call, d, r);
  }

  /** Fail-closed and persist-before-execute: in every run, whenever the tool body of a governed
      call has been entered, a signed allow admission for that tool and those parameters, and for
      that caller's agent, context and cost, is among the receipts saved, and it already was
      before the body was entered. */
  lemma ToolRunsOnlyOnSavedAllow(w: World, states: seq<State>, i: nat, p: nat)
    requires InvertsPrint(w.loads) && KeepsTexts(w.parse) && Run(w, states)
    requires i + 1 < |states| && p in states[i + 1].conns && states[i + 1].conns[p].ran
    requires p in states[i].conns ==> !states[i].conns[p].ran
    ensures exists r | r in states[i].saved :: Authorizes(w, r, states[i + 1].conns[p].call)
  {
    InvAlways(w, states, i);
    assert Step(w, states[i], states[i + 1]);
    EntryIsAuthorized(w, states[i], states[i + 1], p);
  }

  /** And whoever reads an allow that the server wrote has in hand the receipt that was saved for
      that very call: its body carries it, field by field. */
  lemma AllowIsHandedOut(w: World, states: seq<State>, i: nat, p: nat, body: Json)
    requires InvertsPrint(w.loads) && KeepsTexts(w.parse) && Run(w, states) && i < |states|
    requires p in states[i].conns && states[i].conns[p].written == Print(body) + "\n" && SaysAllow(body)
    ensures exists r | r in states[i].saved :: Authorizes(w, r, states[i].conns[p].call) && Carries(body, r)
  {
    InvAlways(w, states, i);
    var k := states[i].conns[p];
    assert ConnInv(w, states[i].saved, k);
    var written :| IsAnswer(w, states[i].saved, k, written);
    SameLine(written, body);
    var d, r :| Genuine(w, states[i].saved, k.call.command, d, r) && d.verdict == "allow" && Carries(body, r);
    GenuineAuthorizes(w, states[i].saved, k.call, d, r);
  }

  lemma SameLine(a: Json, b: Json)
    requires Print(a) + "\n" == Print(b) + "\n"
    ensures a == b
  {
    assert (Print(a) + "\n")[..|Print(a)|] == Print(a);
    assert (Print(b) + "\n")[..|Print(b)|] == Print(b);
    assert |Print(a) + "\n"| == |Print(b) + "\n"|;
    PrintIsInjective(a, b);
  }

  /** Only RunTool enters a tool body, on an allowed resolution. */
  lemma EntersByRunTool(w: World, s: State, q: nat, a: Action, p: nat)
    requires Guard(s, q, a) && p in After(w, s, q, a).conns && After(w, s, q, a).conns[p].ran
    requires p in s.conns ==> !s.conns[p].ran
    ensures p == q && a.RunTool? && p in s.conns && After(w, s, q, a).conns[p].call == s.conns[p].call
    ensures s.conns[p].client.resolutions != [] && Allowed(s.conns[p].client.resolutions[0])
  {
    if p != q || a.SaveElsewhere? {
      OthersStay(w, s, q, a, p);
      assert false;
    } else if a.Open? {
      assert false;
    } else if ServerGuard(s.conns[p], a) {
      ServerNeverRuns(s.conns[p], a);
      assert false;
    } else {
      OnlyRunToolRuns(w, s.conns[p], a);
    }
  }

  lemma OthersStay(w: World, s: State, q: nat, a: Action, p: nat)
    requires Guard(s, q, a) && (p != q || a.SaveElsewhere?) && p in After(w, s, q, a).conns
    ensures p in s.conns && After(w, s, q, a).conns[p] == s.conns[p]
  {
  }

  lemma ServerNeverRuns(k: Conn, a: Action)
    requires ServerGuard(k, a)
    ensures AfterServer(k, a).ran == k.ran && AfterServer(k, a).call == k.call
  {
  }

  lemma OnlyRunToolRuns(w: World, k: Conn, a: Action)
    requires ClientGuard(k, a)
    ensures AfterClient(w, k, a).call == k.call
    ensures AfterClient(w, k, a).ran && !k.ran ==>
      a.RunTool? && k.client.resolutions != [] && Allowed(k.client.resolutions[0])
  {
  }

  // ---- a call that nothing disturbs ----

  /** A connection on which the server has answered with d and r. */
  function AnsweredConn(w: World, call: Call, d: Decision, r: Receipt): Conn
    requires Complete(r)
  {
    Conn(call, |RequestText(call)|, Closed, Print(OkBody(d, r, w.errorCode(d))) + "\n", 0, WAITING, false)
  }

  lemma WholeAnswerDecides(parse: ParseJs, body: Json)
    requires KeepsTexts(parse) && Valid(body) && body.Obj?
    ensures var c := Buffered(parse, WAITING, Print(body) + "\n");
      |c.resolutions| == 1 && (Allowed(c.resolutions[0]) <==> SaysAllow(body))
  {
    PrintIsOneLine(body);
    FirstLine(Print(body), "");
    assert Print(body) + "\n" + "" == Print(body) + "\n";
    AllowedIffVerdict(parse, body);
  }

  /** Once all of the server's answer has arrived, the tool may run exactly when the decision
      was allow. */
  lemma WholeAnswerRuns(w: World, call: Call, d: Decision, r: Receipt)
    requires KeepsTexts(w.parse) && Complete(r)
    ensures var k := AnsweredConn(w, call, d, r);
      ClientGuard(AfterClient(w, k, Receive(|k.written|)), RunTool) <==> d.verdict == "allow"
  {
    var k := AnsweredConn(w, call, d, r);
    OkBodyVerdict(d, r, w.errorCode(d));
    WholeAnswerDecides(w.parse, OkBody(d, r, w.errorCode(d)));
    RunToolGuard(w, k);
  }

  lemma RunToolGuard(w: World, k: Conn)
    requires k.client == WAITING && k.received == 0 && !k.ran
    ensures ClientGuard(AfterClient(w, k, Receive(|k.written|)), RunTool) <==>
      var c := Buffered(w.parse, WAITING, k.written); c.resolutions != [] && Allowed(c.resolutions[0])
  {
    HeardWhole(w, k);
    ToolGuard(AfterClient(w, k, Receive(|k.written|)), Buffered(w.parse, WAITING, k.written));
  }

  lemma HeardWhole(w: World, k: Conn)
    requires k.client == WAITING && k.received == 0
    ensures AfterClient(w, k, Receive(|k.written|)) ==
      k.(received := |k.written|, client := Buffered(w.parse, WAITING, k.written))
  {
    assert k.written[..|k.written|] == k.written;
    HandledSlice(w.parse, WAITING, k.written, 0, |k.written|);
  }

  lemma ToolGuard(k: Conn, c: Client)
    requires k.client == c && !k.ran
    ensures ClientGuard(k, RunTool) <==> c.resolutions != [] && Allowed(c.resolutions[0])
  {
  }

  /** A state with one connection. */
  function Single(saved: seq<Receipt>, k: Conn): State {
    State(saved, map[0 := k])
  }

  lemma Steps(w: World, s: State, p: nat, a: Action)
    requires Enabled(w, s, p, a)
    ensures Step(w, s, After(w, s, p, a))
  {
  }

  lemma SingleMoves(w: World, saved: seq<Receipt>, k: Conn, a: Action)
    requires Guard(Single(saved, k), 0, a) && !a.SaveElsewhere?
    ensures After(w, Single(saved, k), 0, a) == Single(saved + Saves(a), ConnAfter(w, Single(saved, k), 0, a))
  {
    SingleUpdate(saved, k, Saves(a), ConnAfter(w, Single(saved, k), 0, a));
  }

  lemma MovesTo(w: World, saved: seq<Receipt>, k: Conn, a: Action, all: seq<Receipt>, k': Conn)
    requires Guard(Single(saved, k), 0, a) && !a.SaveElsewhere?
    requires saved + Saves(a) == all && ConnAfter(w, Single(saved, k), 0, a) == k'
    ensures After(w, Single(saved, k), 0, a) == Single(all, k')
  {
    SingleMoves(w, saved, k, a);
  }

  lemma QuietMoves(w: World, saved: seq<Receipt>, k: Conn, a: Action, k': Conn)
    requires Enabled(w, Single(saved, k), 0, a) && !a.SaveElsewhere? && Saves(a) == []
    requires ConnAfter(w, Single(saved, k), 0, a) == k'
    ensures Step(w, Single(saved, k), Single(saved, k'))
  {
    NoMore(saved, Saves(a));
    MovesTo(w, saved, k, a, saved, k');
    Steps(w, Single(saved, k), 0, a);
  }

  lemma SingleUpdate(saved: seq<Receipt>, k: Conn, more: seq<Receipt>, k': Conn)
    ensures State(saved + more, Single(saved, k).conns[0 := k']) == Single(saved + more, k')
  {
    assert map[0 := k][0 := k'] == map[0 := k'];
  }

  /** What the far end of the connection can do by itself. */
  predicate ClientSide(a: Action) {
    a.Deliver? || a.Receive? || a.RunTool?
  }

  lemma ClientEnabled(w: World, saved: seq<Receipt>, k: Conn, a: Action)
    requires ClientSide(a) && ClientGuard(k, a)
    ensures Enabled(w, Single(saved, k), 0, a)
    ensures ConnAfter(w, Single(saved, k), 0, a) == AfterClient(w, k, a)
  {
  }

  lemma ClientMoves(w: World, saved: seq<Receipt>, k: Conn, a: Action)
    requires ClientSide(a) && ClientGuard(k, a)
    ensures Step(w, Single(saved, k), Single(saved, AfterClient(w, k, a)))
  {
    ClientEnabled(w, saved, k, a);
    QuietMoves(w, saved, k, a, AfterClient(w, k, a));
  }

  lemma ServerEnabled(w: World, saved: seq<Receipt>, k: Conn, a: Action)
    requires ServerGuard(k, a) && ServerComputed(w, k, a)
    ensures Enabled(w, Single(saved, k), 0, a)
    ensures ConnAfter(w, Single(saved, k), 0, a) == AfterServer(k, a)
  {
  }

  lemma ServerMoves(w: World, saved: seq<Receipt>, k: Conn, a: Action)
    requires ServerGuard(k, a) && ServerComputed(w, k, a)
    ensures Step(w, Single(saved, k), Single(saved + Saves(a), AfterServer(k, a)))
  {
    ServerEnabled(w, saved, k, a);
    SingleMoves(w, saved, k, a);
    Steps(w, Single(saved, k), 0, a);
  }

  function Opened(call: Call): Conn {
    Conn(call, 0, Reading, "", 0, WAITING, false)
  }

  lemma OpenedAlone(w: World, saved: seq<Receipt>, call: Call)
    requires Sends(call)
    ensures Enabled(w, State(saved, map[]), 0, Open(call))
    ensures ConnAfter(w, State(saved, map[]), 0, Open(call)) == Opened(call)
  {
  }

  lemma OpenedIsSingle(w: World, saved: seq<Receipt>, call: Call)
    requires Guard(State(saved, map[]), 0, Open(call))
    requires ConnAfter(w, State(saved, map[]), 0, Open(call)) == Opened(call)
    ensures After(w, State(saved, map[]), 0, Open(call)) == Single(saved, Opened(call))
  {
    assert saved + [] == saved;
    assert map[][0 := Opened(call)] == map[0 := Opened(call)];
  }

  lemma Opens(w: World, saved: seq<Receipt>, call: Call)
    requires Sends(call)
    ensures Step(w, State(saved, map[]), Single(saved, Opened(call)))
  {
    OpenedAlone(w, saved, call);
    OpenedIsSingle(w, saved, call);
    Steps(w, State(saved, map[]), 0, Open(call));
  }

  lemma WholeLine(call: Call)
    ensures var text := RequestText(call);
      |text| > 0 && text[..|text|] == text && Lines(text) == [Print(Request(call.command))]
  {
    var line := Print(Request(call.command));
    PrintIsOneLine(Request(call.command));
    FirstLine(line, "");
    assert line + "\n" + "" == line + "\n";
  }

  lemma WholeRequestIsRead(w: World, k: Conn)
    requires InvertsPrint(w.loads) && k.delivered == |RequestText(k.call)|
    ensures ReadFrom(w, k, Some(k.call.command))
  {
    WholeLine(k.call);
    if !ReadFrom(w, k, Some(k.call.command)) {
      CutRequestDecodes(w.loads, k.call.command, |Print(Request(k.call.command))|, 0, "");
      assert Print(Request(k.call.command))[..|Print(Request(k.call.command))|] == Print(Request(k.call.command));
      assert Some(k.call.command) == CommandOf(w.loads, Lines(RequestText(k.call)[..k.delivered])[0], 0, "");
    }
  }

  lemma DeliveredConn(w: World, k: Conn, n: nat)
    requires ClientGuard(k, Deliver(n))
    ensures AfterClient(w, k, Deliver(n)) == k.(delivered := k.delivered + n)
  {
  }

  lemma ReadGuard(k: Conn, command: Option<Command>)
    requires k.server.Reading? && k.delivered == |RequestText(k.call)|
    ensures ServerGuard(k, ReadLine(command))
  {
    WholeLine(k.call);
  }

  lemma ReadEnabled(w: World, k: Conn)
    requires InvertsPrint(w.loads) && k.server.Reading? && k.delivered == |RequestText(k.call)|
    ensures ServerGuard(k, ReadLine(Some(k.call.command))) && ServerComputed(w, k, ReadLine(Some(k.call.command)))
    ensures AfterServer(k, ReadLine(Some(k.call.command))) == k.(server := Deciding(k.call.command))
  {
    ReadGuard(k, Some(k.call.command));
    WholeRequestIsRead(w, k);
  }

  lemma Reads(w: World, saved: seq<Receipt>, k: Conn)
    requires InvertsPrint(w.loads) && k.server.Reading? && k.delivered == |RequestText(k.call)|
    ensures Step(w, Single(saved, k), Single(saved, k.(server := Deciding(k.call.command))))
  {
    ReadEnabled(w, k);
    ServerEnabled(w, saved, k, ReadLine(Some(k.call.command)));
    QuietMoves(w, saved, k, ReadLine(Some(k.call.command)), k.(server := Deciding(k.call.command)));
  }

  lemma Persists(w: World, saved: seq<Receipt>, k: Conn, d: Decision, r: Receipt)
    requires k.server.Deciding? && Decides(w, k.server.command, d, r)
    ensures Step(w, Single(saved, k), Single(saved + [r], k.(server := Persisted(d, r))))
  {
    ServerMoves(w, saved, k, Persist(d, r));
  }

  lemma WritesBody(w: World, saved: seq<Receipt>, k: Conn, d: Decision, r: Receipt)
    requires k.server == Persisted(d, r) && Complete(r)
    ensures Step(w, Single(saved, k),
      Single(saved, k.(server := Closed, written := Print(OkBody(d, r, w.errorCode(d))) + "\n")))
  {
    var body := OkBody(d, r, w.errorCode(d));
    BodyIsComputed(w, k, d, r);
    ServerEnabled(w, saved, k, Write(body));
    QuietMoves(w, saved, k, Write(body), k.(server := Closed, written := Print(body) + "\n"));
  }

  lemma BodyIsComputed(w: World, k: Conn, d: Decision, r: Receipt)
    requires k.server == Persisted(d, r) && Complete(r)
    ensures ServerComputed(w, k, Write(OkBody(d, r, w.errorCode(d))))
  {
    assert WrittenFor(w, k.server, OkBody(d, r, w.errorCode(d)), "");
  }

  ghost predicate Reaches(w: World, s: State, t: State) {
    exists states :: Run(w, states) && states[0] == s && states[|states| - 1] == t
  }

  lemma ReachesStart(w: World, saved: seq<Receipt>)
    ensures Reaches(w, State(saved, map[]), State(saved, map[]))
  {
    assert Run(w, [State(saved, map[])]);
  }

  lemma ReachesNext(w: World, s: State, t: State, u: State)
    requires Reaches(w, s, t) && Step(w, t, u)
    ensures Reaches(w, s, u)
  {
    var states :| Run(w, states) && states[0] == s && states[|states| - 1] == t;
    RunExtends(w, states, u);
    ReachedBy(w, states + [u], s, u);
  }

  lemma ReachedBy(w: World, states: seq<State>, s: State, t: State)
    requires Run(w, states) && states[0] == s && states[|states| - 1] == t
    ensures Reaches(w, s, t)
  {
  }

  lemma RunExtends(w: World, states: seq<State>, t: State)
    requires Run(w, states) && Step(w, states[|states| - 1], t)
    ensures Run(w, states + [t])
  {
    var all := states + [t];
    forall i | 0 <= i < |all| - 1 ensures Step(w, all[i], all[i + 1]) {
      assert i < |states| - 1 ==> Step(w, states[i], states[i + 1]);
    }
  }

  function DecidingConn(call: Call): Conn {
    Opened(call).(delivered := |RequestText(call)|, server := Deciding(call.command))
  }

  lemma ReachesDecision(w: World, saved: seq<Receipt>, call: Call)
    requires InvertsPrint(w.loads) && Sends(call)
    ensures Reaches(w, State(saved, map[]), Single(saved, DecidingConn(call)))
  {
    var s, k := State(saved, map[]), Opened(call).(delivered := |RequestText(call)|);
    ReachesStart(w, saved);
    Opens(w, saved, call);
    ReachesNext(w, s, s, Single(saved, Opened(call)));
    ClientMoves(w, saved, Opened(call), Deliver(|RequestText(call)|));
    DeliveredConn(w, Opened(call), |RequestText(call)|);
    ReachesNext(w, s, Single(saved, Opened(call)), Single(saved, k));
    Reads(w, saved, k);
    ReachesNext(w, s, Single(saved, k), Single(saved, DecidingConn(call)));
  }

  lemma ReachesAnswer(w: World, s: State, saved: seq<Receipt>, call: Call, d: Decision, r: Receipt)
    requires Reaches(w, s, Single(saved, DecidingConn(call))) && Decides(w, call.command, d, r) && Complete(r)
    ensures Reaches(w, s, Single(saved + [r], AnsweredConn(w, call, d, r)))
  {
    var k := DecidingConn(call).(server := Persisted(d, r));
    Persists(w, saved, DecidingConn(call), d, r);
    ReachesNext(w, s, Single(saved, DecidingConn(call)), Single(saved + [r], k));
    WritesBody(w, saved + [r], k, d, r);
    ReachesNext(w, s, Single(saved + [r], k), Single(saved + [r], AnsweredConn(w, call, d, r)));
  }

  /** The connection on which the whole answer has arrived and the tool has been entered. */
  function FinishedConn(w: World, call: Call, d: Decision, r: Receipt): Conn
    requires Complete(r)
  {
    var k := AnsweredConn(w, call, d, r);
    AfterClient(w, k, Receive(|k.written|)).(ran := true)
  }

  lemma ReachesTool(w: World, s: State, saved: seq<Receipt>, call: Call, d: Decision, r: Receipt)
    requires KeepsTexts(w.parse) && Complete(r) && d.verdict == "allow"
    requires Reaches(w, s, Single(saved, AnsweredConn(w, call, d, r)))
    ensures Reaches(w, s, Single(saved, FinishedConn(w, call, d, r)))
  {
    var k := AnsweredConn(w, call, d, r);
    var heard := AfterClient(w, k, Receive(|k.written|));
    ClientMoves(w, saved, k, Receive(|k.written|));
    ReachesNext(w, s, Single(saved, k), Single(saved, heard));
    WholeAnswerRuns(w, call, d, r);
    ClientMoves(w, saved, heard, RunTool);
    ReachesNext(w, s, Single(saved, heard), Single(saved, FinishedConn(w, call, d, r)));
  }

  /** There are runs that enter a tool body: for every governed call and every allow decision on
      its command, opening, delivering, reading, persisting, writing, receiving and running the
      tool form a run. */
  lemma AllowedCallRuns(w: World, saved: seq<Receipt>, call: Call, d: Decision, r: Receipt)
    requires InvertsPrint(w.loads) && KeepsTexts(w.parse) && Sends(call)
    requires Decides(w, call.command, d, r) && Complete(r) && d.verdict == "allow"
    ensures Reaches(w, State(saved, map[]), Single(saved + [r], FinishedConn(w, call, d, r)))
    ensures FinishedConn(w, call, d, r).ran && FinishedConn(w, call, d, r).call == call
  {
    if !Reaches(w, State(saved, map[]), Single(saved + [r], FinishedConn(w, call, d, r))) {
      ReachesDecision(w, saved, call);
      ReachesAnswer(w, State(saved, map[]), saved, call, d, r);
      ReachesTool(w, State(saved, map[]), saved + [r], call, d, r);
    }
    FinishedHasRun(w, call, d, r);
  }

  lemma FinishedHasRun(w: World, call: Call, d: Decision, r: Receipt)
    requires Complete(r)
    ensures FinishedConn(w, call, d, r).ran && FinishedConn(w, call, d, r).call == call
  {
  }

  // ---- the Persist step is what Verify promises ----

  /** The deployment in which a service with a store decides. */
  function Deployed(service: Verifier.VerifierService, errorCode: Decision -> Value, loads: Loads,
                    parse: ParseJs): World {
    var rm := service.receipts;
    World(rm.digest, rm.show, rm.sign, rm.config, service.rules, service.config, errorCode, loads, parse)
  }

  lemma SignedDecides(w: World, c: Command, out: Receipt, now: int, nonce: string, n: nat)
    requires var d := Verifier.Decide(w.rules, w.ruleConfig, c);
      out == SignedBy(w.sign, Admission(w.digest, w.show, w.config, c, d, now, nonce, n))
    ensures Decides(w, c, Verifier.Decide(w.rules, w.ruleConfig, c), out)
  {
    assert IsAdmissionFor(w, c, Verifier.Decide(w.rules, w.ruleConfig, c), out, now, nonce, n);
  }

  /** What VerifierService.Verify guarantees for a result makes a Persist step: the receipt is
      the step's, and it is in the evidence table by then. */
  lemma VerifyPersists(service: Verifier.VerifierService, errorCode: Decision -> Value, loads: Loads, parse: ParseJs,
                       c: Command, out: Receipt, now: int, nonce: string, before: Db, signedBefore: seq<Receipt>)
    requires service.receipts.store != null
    requires service.receipts.Issued(
      out, c, Verifier.Decide(service.rules, service.config, c), now, nonce, before, signedBefore)
    ensures Decides(
      Deployed(service, errorCode, loads, parse), c, Verifier.Decide(service.rules, service.config, c), out)
    ensures Storable(out) && service.receipts.Tables() == Save(Numbered(before), out)
  {
    var d := Verifier.Decide(service.rules, service.config, c);
    service.receipts.IssuedIsSigned(out, c, d, now, nonce, before, signedBefore);
    service.receipts.IssuedIsSaved(out, c, d, now, nonce, before, signedBefore);
    SignedDecides(Deployed(service, errorCode, loads, parse), c, out, now, nonce, before.sequence + 1);
  }
}
