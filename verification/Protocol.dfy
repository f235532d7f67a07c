/** The wire between the remote client and the verifier server: one JSON text per line, the
    request and response objects, and what is asked of the two JSON decoders. */
module Protocol {
  import opened Text
  import opened Json
  import opened Sorting
  import opened Canonical
  import opened Binding
  import opened Receipts

  // ---- lines ----

  /** The position of the first line feed, or the length if there is none. */
  function LineEnd(s: string): (n: nat)
    ensures n <= |s| && OneLine(s[..n]) && (n < |s| ==> s[n] == '\n')
  {
    if s == "" || s[0] == '\n' then 0 else
      var n := LineEnd(s[1..]);
      assert s[..n + 1] == [s[0]] + s[1..][..n];
      n + 1
  }

  predicate HasLine(s: string) {
    LineEnd(s) < |s|
  }

  /** What readline returns one after the other, line feeds removed: the last piece may be cut
      off by the end of the stream. */
  function Lines(s: string): seq<string> {
    if s == "" then []
    else var n := LineEnd(s); [s[..n]] + if n < |s| then Lines(s[n + 1..]) else []
  }

  /** What the server writes for a sequence of bodies. */
  function Framed(bodies: seq<Json>): string {
    if bodies == [] then "" else Print(bodies[0]) + "\n" + Framed(bodies[1..])
  }

  lemma {:induction false} LineEndOf(line: string, rest: string)
    requires OneLine(line)
    ensures LineEnd(line + "\n" + rest) == |line|
    decreases |line|
  {
    var s := line + "\n" + rest;
    if line == "" {
      assert s[0] == '\n';
    } else {
      assert s[0] == line[0] && s[0] in line;
      assert s[1..] == line[1..] + "\n" + rest;
      LineEndOf(line[1..], rest);
    }
  }

  lemma NoLineIn(s: string)
    requires OneLine(s)
    ensures LineEnd(s) == |s|
  {
  }

  lemma FirstLine(line: string, rest: string)
    requires OneLine(line)
    ensures Lines(line + "\n" + rest) == [line] + Lines(rest)
    ensures HasLine(line + "\n" + rest) && (line + "\n" + rest)[..LineEnd(line + "\n" + rest)] == line
  {
    var s := line + "\n" + rest;
    LineEndOf(line, rest);
    assert s[..|line|] == line && s[|line| + 1..] == rest;
  }

  lemma FirstBody(bodies: seq<Json>)
    requires bodies != []
    ensures Lines(Framed(bodies)) == [Print(bodies[0])] + Lines(Framed(bodies[1..]))
  {
    PrintIsOneLine(bodies[0]);
    FirstLine(Print(bodies[0]), Framed(bodies[1..]));
  }

  /** Framing is exact: the lines of what was written are the printed bodies, in order. */
  lemma {:induction false} FramingIsExact(bodies: seq<Json>)
    ensures |Lines(Framed(bodies))| == |bodies|
    ensures forall i | 0 <= i < |bodies| :: Lines(Framed(bodies))[i] == Print(bodies[i])
    decreases |bodies|
  {
    if bodies != [] {
      FirstBody(bodies);
      FramingIsExact(bodies[1..]);
    }
  }

  lemma {:induction false} FramedAppend(bodies: seq<Json>, b: Json)
    ensures Framed(bodies + [b]) == Framed(bodies) + Print(b) + "\n"
    decreases |bodies|
  {
    if bodies == [] {
      assert [b][1..] == [];
    } else {
      assert (bodies + [b])[1..] == bodies[1..] + [b];
      FramedAppend(bodies[1..], b);
    }
  }

  /** Cutting a line short leaves at most that one line. */
  lemma LinesOfCut(line: string, cut: nat)
    requires OneLine(line) && cut <= |line| + 1
    ensures Lines((line + "\n")[..cut]) ==
      if cut == 0 then [] else if cut <= |line| then [line[..cut]] else [line]
  {
    var s := (line + "\n")[..cut];
    if cut <= |line| {
      assert s == line[..cut];
      NoLineIn(s);
      assert s[..|s|] == s;
    } else {
      assert s == line + "\n" + "";
      FirstLine(line, "");
    }
  }

  // ---- decoders ----

  /** json.loads: repeated keys have been merged by the time a dict is there. */
  type Loads = string -> Option<Value>

  /** It reads back what either encoder prints, and rejects a cut-off object. */
  ghost predicate InvertsPrint(loads: Loads) {
    && (forall v: Value :: loads(Print(v)) == Some(v))
    && forall ms, cut | 0 <= cut < |Print(Obj(ms))| :: loads(Print(Obj(ms))[..cut]) == None
  }

  function PlainLoads(s: string): Option<Value> {
    var p := Parse(s);
    if p.Some? && Valid(p.value) then Some(p.value) else None
  }

  /** Such a decoder exists. */
  lemma PlainLoadsInverts()
    ensures InvertsPrint(PlainLoads)
  {
    forall v: Value ensures PlainLoads(Print(v)) == Some(v) {
      RoundTrip(v);
    }
    forall ms, cut | 0 <= cut < |Print(Obj(ms))| ensures PlainLoads(Print(Obj(ms))[..cut]) == None {
      CutObjectIsRejected(ms, cut);
    }
  }

  /** JSON.parse: it may reorder properties and round numbers, but an object keeps its texts. */
  type ParseJs = string -> Option<Json>

  ghost predicate KeepsTexts(parse: ParseJs) {
    forall ms | Valid(Obj(ms)) :: var p := parse(Print(Obj(ms)));
      p.Some? && p.value.Obj? && SameTexts(p.value.members, ms)
  }

  ghost predicate SameTexts(ms: seq<Member>, ns: seq<Member>) {
    forall key, text :: Lookup(ms, key) == Some(Str(text)) <==> Lookup(ns, key) == Some(Str(text))
  }

  lemma ParseKeepsTexts()
    ensures KeepsTexts(Parse)
  {
    forall ms | Valid(Obj(ms))
      ensures Parse(Print(Obj(ms))) == Some(Obj(ms))
    {
      RoundTrip(Obj(ms));
    }
  }

  // ---- requests ----

  const COMMAND_KEYS: seq<string> := ["agent_id", "tool", "params", "timestamp", "trace_id", "context", "cost"]

  lemma CommandKeysDistinct()
    ensures Distinct(COMMAND_KEYS)
  {
    forall i, j | 0 <= i < j < |COMMAND_KEYS| ensures COMMAND_KEYS[i] != COMMAND_KEYS[j] {
      var a, b := COMMAND_KEYS[i], COMMAND_KEYS[j];
      assert a[0] != b[0] || a[1] != b[1] || a[2] != b[2];
    }
  }

  function CommandValues(c: Command): seq<Value> {
    [c.agentId, c.tool, c.params, c.timestamp, c.traceId, c.context, c.cost]
  }

  function CommandObject(c: Command): (v: Json)
    ensures Valid(v)
  {
    CommandKeysDistinct();
    Record(COMMAND_KEYS, CommandValues(c))
  }

  /** JSON.stringify({command}) */
  function Request(c: Command): (v: Json)
    ensures Valid(v)
  {
    Obj([Member("command", CommandObject(c))])
  }

  function GetOr(ms: seq<Member>, key: string, default: Value): (v: Value)
    requires forall i | 0 <= i < |ms| :: Valid(ms[i].value)
    ensures v == if Lookup(ms, key).Some? then Lookup(ms, key).value else default
  {
    if ms == [] then default
    else if ms[0].key == key then ms[0].value
    else GetOr(ms[1..], key, default)
  }

  /** Command(**req["command"]), None where Python raises: a request that is not an object, no
      "command", unknown keys, or a required key missing. now and trace feed the defaults. */
  function DecodeCommand(v: Value, now: int, trace: string): Option<Command> {
    if !v.Obj? then None
    else
      var c := GetOr(v.members, "command", Null);
      if !c.Obj? then None
      else if !(forall m | m in c.members :: m.key in COMMAND_KEYS) then None
      else if Lookup(c.members, "agent_id").None? || Lookup(c.members, "tool").None?
        || Lookup(c.members, "params").None?
      then None
      else Some(DecodedFields(c.members, now, trace))
  }

  function DecodedFields(ms: seq<Member>, now: int, trace: string): Command
    requires forall i | 0 <= i < |ms| :: Valid(ms[i].value)
  {
    Command(
      GetOr(ms, "agent_id", Null), GetOr(ms, "tool", Null), GetOr(ms, "params", Null),
      GetOr(ms, "timestamp", Int(now)), GetOr(ms, "trace_id", Str(trace)),
      GetOr(ms, "context", Obj([])), GetOr(ms, "cost", Null))
  }

  /** The value has the shape of a request: an object whose "command" is an object with no key
      but a command's, and with the three that have no default. */
  ghost predicate IsRequest(v: Value, ms: seq<Member>) {
    && v.Obj? && Lookup(v.members, "command") == Some(Obj(ms))
    && (forall m | m in ms :: m.key in COMMAND_KEYS)
    && Lookup(ms, "agent_id").Some? && Lookup(ms, "tool").Some? && Lookup(ms, "params").Some?
  }

  /** x is what ms holds under key, or what it stands for when absent. */
  predicate IsUnder(ms: seq<Member>, key: string, absent: Value, x: Value) {
    if Lookup(ms, key).Some? then Lookup(ms, key) == Some(x) else x == absent
  }

  /** A command comes out exactly for requests, and each of its fields is the one sent, or the
      field's default: the clock, a fresh trace id, an empty context, no cost. */
  lemma DecodeMeans(v: Value, now: int, trace: string)
    ensures DecodeCommand(v, now, trace).Some? <==> exists ms :: IsRequest(v, ms)
    ensures forall ms | IsRequest(v, ms) ::
      DecodeCommand(v, now, trace).Some? && IsCommandFrom(ms, DecodeCommand(v, now, trace).value, now, trace)
  {
    if v.Obj? && GetOr(v.members, "command", Null).Obj? {
      var ms := GetOr(v.members, "command", Null).members;
      assert DecodeCommand(v, now, trace).Some? ==> IsRequest(v, ms);
    }
    forall ms | IsRequest(v, ms)
      ensures DecodeCommand(v, now, trace).Some?
      ensures IsCommandFrom(ms, DecodeCommand(v, now, trace).value, now, trace)
    {
      assert GetOr(v.members, "command", Null) == Obj(ms);
    }
  }

  predicate IsCommandFrom(ms: seq<Member>, c: Command, now: int, trace: string) {
    && IsUnder(ms, "agent_id", Null, c.agentId) && IsUnder(ms, "tool", Null, c.tool)
    && IsUnder(ms, "params", Null, c.params) && IsUnder(ms, "timestamp", Int(now), c.timestamp)
    && IsUnder(ms, "trace_id", Str(trace), c.traceId) && IsUnder(ms, "context", Obj([]), c.context)
    && IsUnder(ms, "cost", Null, c.cost)
  }

  lemma CommandLookup(c: Command, i: nat)
    requires i < |COMMAND_KEYS|
    ensures Lookup(CommandObject(c).members, COMMAND_KEYS[i]) == Some(CommandValues(c)[i])
  {
    CommandKeysDistinct();
    LookupInRecord(COMMAND_KEYS, CommandValues(c), i);
  }

  lemma FieldsReadBack(c: Command, now: int, trace: string)
    ensures DecodedFields(CommandObject(c).members, now, trace) == c
  {
    CommandLookup(c, 0);
    CommandLookup(c, 1);
    CommandLookup(c, 2);
    CommandLookup(c, 3);
    CommandLookup(c, 4);
    CommandLookup(c, 5);
    CommandLookup(c, 6);
  }

  /** The server decodes the command the client encoded, defaults never being used. */
  lemma RequestReadsBack(c: Command, now: int, trace: string)
    ensures DecodeCommand(Request(c), now, trace) == Some(c)
  {
    var ms := CommandObject(c).members;
    assert Request(c).members[0].key == "command";
    assert GetOr(Request(c).members, "command", Null) == CommandObject(c);
    forall m | m in ms ensures m.key in COMMAND_KEYS {
    }
    CommandLookup(c, 0);
    CommandLookup(c, 1);
    CommandLookup(c, 2);
    FieldsReadBack(c, now, trace);
  }

  /** What the server makes of the line it reads, None where decoding raises. */
  function CommandOf(loads: Loads, line: string, now: int, trace: string): Option<Command> {
    var v := loads(line);
    if v.None? then None else DecodeCommand(v.value, now, trace)
  }

  /** However much of a request line arrives, the server decodes the command that was sent or
      nothing. */
  lemma CutRequestDecodes(loads: Loads, c: Command, cut: nat, now: int, trace: string)
    requires InvertsPrint(loads) && cut <= |Print(Request(c))|
    ensures CommandOf(loads, Print(Request(c))[..cut], now, trace) ==
      if cut == |Print(Request(c))| then Some(c) else None
  {
    if cut == |Print(Request(c))| {
      assert Print(Request(c))[..cut] == Print(Request(c));
      RequestReadsBack(c, now, trace);
    } else {
      assert loads(Print(Obj(Request(c).members))[..cut]) == None;
    }
  }

  // ---- responses ----

  const BODY_KEYS: seq<string> :=
    ["ok", "verdict", "dimensions", "block_reason", "error_code", "retryable", "receipt"]

  lemma BodyKeysDistinct()
    ensures Distinct(BODY_KEYS)
  {
    forall i, j | 0 <= i < j < |BODY_KEYS| ensures BODY_KEYS[i] != BODY_KEYS[j] {
      var a, b := BODY_KEYS[i], BODY_KEYS[j];
      assert a[0] != b[0] || a[1] != b[1] || a[2] != b[2];
    }
  }

  function AllNames(): seq<string> {
    SigningNames() + [Name(Signature)]
  }

  lemma AllNamesDistinct()
    ensures Distinct(AllNames())
  {
    SigningNamesDistinct();
    forall i | 0 <= i < |SigningNames()| ensures SigningNames()[i] != Name(Signature) {
      if SigningNames()[i] == Name(Signature) {
        NameIsInjective(SIGNING_FIELDS[i], Signature);
      }
    }
  }

  function ReceiptObject(r: Receipt): (v: Json)
    requires Complete(r)
    ensures Valid(v)
  {
    AllNamesDistinct();
    Record(AllNames(), SignedValues(r) + [r.fields[Signature]])
  }

  /** The body for a result: the receipt travels with the decision. */
  function OkBody(d: Decision, r: Receipt, errorCode: Value): (v: Json)
    requires Complete(r)
    ensures Valid(v)
  {
    BodyKeysDistinct();
    Record(BODY_KEYS, BodyValues(d, r, errorCode))
  }

  /** The body for any exception. */
  function DenyBody(error: string): (v: Json)
    ensures Valid(v)
  {
    Obj([Member("ok", Bool(false)), Member("verdict", Str("deny")), Member("error", Str(error)),
         Member("error_code", Int(-32000)), Member("retryable", Bool(false))])
  }

  function BodyValues(d: Decision, r: Receipt, errorCode: Value): (vs: seq<Value>)
    requires Complete(r)
    ensures |vs| == |BODY_KEYS|
  {
    [Bool(true), Str(d.verdict), d.dimensions, OrNull(d.reason), errorCode, Bool(d.verdict == "escalate"),
     ReceiptObject(r)]
  }

  lemma BodyLookup(d: Decision, r: Receipt, errorCode: Value, i: nat)
    requires Complete(r) && i < |BODY_KEYS|
    ensures Lookup(OkBody(d, r, errorCode).members, BODY_KEYS[i]) == Some(BodyValues(d, r, errorCode)[i])
  {
    BodyKeysDistinct();
    LookupInRecord(BODY_KEYS, BodyValues(d, r, errorCode), i);
  }

  lemma OkBodyVerdict(d: Decision, r: Receipt, errorCode: Value)
    requires Complete(r)
    ensures Lookup(OkBody(d, r, errorCode).members, "verdict") == Some(Str(d.verdict))
  {
    BodyLookup(d, r, errorCode, 1);
  }

  predicate Says(body: Json, key: string, v: Json) {
    body.Obj? && Lookup(body.members, key) == Some(v)
  }

  /** What the body of a result says beside its verdict. */
  lemma OkBodySays(d: Decision, r: Receipt, errorCode: Value)
    requires Complete(r)
    ensures var b := OkBody(d, r, errorCode);
      && Says(b, "ok", Bool(true)) && Says(b, "dimensions", d.dimensions) && Says(b, "error_code", errorCode)
      && Says(b, "block_reason", if d.reason.Some? then Str(d.reason.value) else Null)
      && Says(b, "retryable", Bool(d.verdict == "escalate"))
  {
    BodyLookup(d, r, errorCode, 0);
    BodyLookup(d, r, errorCode, 2);
    BodyLookup(d, r, errorCode, 3);
    BodyLookup(d, r, errorCode, 4);
    BodyLookup(d, r, errorCode, 5);
  }

  // ---- the receipt in a body ----

  /** The object under "receipt". */
  function ReceiptPart(body: Json): seq<Member> {
    if body.Obj? then
      match Lookup(body.members, "receipt")
      case Some(Obj(ms)) => ms
      case _ => []
    else []
  }

  /** The body holds r: each of the 22 fields under its name. */
  ghost predicate Carries(body: Json, r: Receipt) {
    forall f: Field :: f in r.fields && Lookup(ReceiptPart(body), Name(f)) == Some(r.fields[f])
  }

  lemma NameAt(f: Field) returns (i: nat)
    ensures i < |AllNames()| && AllNames()[i] == Name(f)
    ensures f != Signature ==> i < |SIGNING_FIELDS| && SIGNING_FIELDS[i] == f
    ensures f == Signature ==> i == |SIGNING_FIELDS|
  {
    if f == Signature {
      i := |SIGNING_FIELDS|;
    } else {
      i := SignedUnlessSignature(f);
    }
  }

  lemma ReceiptLookup(r: Receipt, f: Field)
    requires Complete(r)
    ensures Lookup(ReceiptObject(r).members, Name(f)) == Some(r.fields[f])
  {
    var values := SignedValues(r) + [r.fields[Signature]];
    var i := NameAt(f);
    AllNamesDistinct();
    LookupInRecord(AllNames(), values, i);
    assert values[i] == r.fields[f];
  }

  /** The body of a result carries its receipt. */
  lemma OkBodyCarries(d: Decision, r: Receipt, errorCode: Value)
    requires Complete(r)
    ensures Carries(OkBody(d, r, errorCode), r)
  {
    BodyLookup(d, r, errorCode, 6);
    forall f: Field ensures Lookup(ReceiptPart(OkBody(d, r, errorCode)), Name(f)) == Some(r.fields[f]) {
      ReceiptLookup(r, f);
    }
  }

  /** The receipt that a reader of a body has in hand. */
  function ReceiptRead(body: Value): Receipt {
    var ms := ReceiptPart(body);
    ValidPart(body);
    Receipt(map f: Field | Lookup(ms, Name(f)).Some? :: Under(ms, Name(f)), map[])
  }

  function Under(ms: seq<Member>, key: string): Value
    requires Valid(Obj(ms)) && Lookup(ms, key).Some?
  {
    LookupIsMember(ms, key);
    Lookup(ms, key).value
  }

  lemma {:induction false} LookupIsMember(ms: seq<Member>, key: string)
    ensures Lookup(ms, key).Some? ==> Member(key, Lookup(ms, key).value) in ms
    ensures Lookup(ms, key).None? ==> forall i | 0 <= i < |ms| :: ms[i].key != key
    decreases |ms|
  {
    if ms != [] && ms[0].key != key {
      LookupIsMember(ms[1..], key);
    }
  }

  lemma ValidPart(body: Value)
    ensures Valid(Obj(ReceiptPart(body)))
  {
    if body.Obj? {
      LookupIsMember(body.members, "receipt");
    }
  }

  lemma {:induction false} LookupOf(ms: seq<Member>, i: nat)
    requires DistinctKeys(ms) && i < |ms|
    ensures Lookup(ms, ms[i].key) == Some(ms[i].value)
    decreases |ms|
  {
    if i > 0 {
      assert ms[0].key != ms[i].key;
      LookupOf(ms[1..], i - 1);
    }
  }

  /** Equal objects hold equal values under a key. */
  lemma EqualLookup(ms: seq<Member>, ns: seq<Member>, key: string)
    requires Valid(Obj(ms)) && Valid(Obj(ns)) && Equal(Obj(ms), Obj(ns)) && Lookup(ns, key).Some?
    ensures Lookup(ms, key).Some? && Equal(Lookup(ms, key).value, Lookup(ns, key).value)
  {
    LookupIsMember(ns, key);
    var j :| 0 <= j < |ns| && ns[j] == Member(key, Lookup(ns, key).value);
    assert IsEqualOf(ms, ns[j]);
    var i :| 0 <= i < |ms| && ms[i].key == key && Equal(ms[i].value, ns[j].value);
    LookupOf(ms, i);
  }

  lemma EqualPart(a: Value, b: Value)
    requires a.Obj? && b.Obj? && Equal(a, b) && Lookup(b.members, "receipt").Some?
    requires Lookup(b.members, "receipt").value.Obj?
    ensures Equal(Obj(ReceiptPart(a)), Obj(ReceiptPart(b)))
  {
    EqualLookup(a.members, b.members, "receipt");
  }

  lemma ReadField(body: Value, read: Value, r: Receipt, f: Field)
    requires Carries(body, r) && Equal(Obj(ReceiptPart(read)), Obj(ReceiptPart(body)))
    ensures AgreeOn(ReceiptRead(read), r, f)
  {
    ValidPart(body);
    ValidPart(read);
    EqualLookup(ReceiptPart(read), ReceiptPart(body), Name(f));
  }

  lemma CarriesPart(body: Value, r: Receipt)
    requires Carries(body, r)
    ensures body.Obj? && Lookup(body.members, "receipt").Some? && Lookup(body.members, "receipt").value.Obj?
  {
    assert Lookup(ReceiptPart(body), Name(Signature)) == Some(r.fields[Signature]);
  }

  lemma AgreeingReceipts(a: Receipt, b: Receipt)
    requires forall f: Field :: AgreeOn(a, b, f)
    ensures Complete(a) && Complete(b) && Payload(a) == Payload(b) && Equal(a.fields[Signature], b.fields[Signature])
  {
    assert forall f: Field :: AgreeOn(a, b, f) ==> f in a.fields && f in b.fields;
    assert AgreeOn(a, b, Signature);
    PayloadBinds(a, b);
  }

  /** Whoever decodes a body that carries a receipt to an equal value has that receipt: all 22
      fields, hence the payload that was signed and the signature over it. */
  lemma ReceiptIsRead(body: Value, read: Value, r: Receipt)
    requires Carries(body, r) && Equal(read, body)
    ensures var got := ReceiptRead(read);
      && Complete(got) && Complete(r) && Payload(got) == Payload(r)
      && Equal(got.fields[Signature], r.fields[Signature])
  {
    CarriesPart(body, r);
    EqualPart(read, body);
    forall f: Field ensures AgreeOn(ReceiptRead(read), r, f) {
      ReadField(body, read, r, f);
    }
    AgreeingReceipts(ReceiptRead(read), r);
  }

  lemma DenyBodyVerdict(error: string)
    ensures Lookup(DenyBody(error).members, "verdict") == Some(Str("deny"))
  {
    DenyBodyLookup(error, 1);
  }

  lemma DenyBodyLookup(error: string, i: nat)
    requires i < 5
    ensures var m := DenyBody(error).members[i]; Lookup(DenyBody(error).members, m.key) == Some(m.value)
  {
    var ms := DenyBody(error).members;
    assert "ok"[0] != "verdict"[0] && "error_code"[1] != "verdict"[1] && |"error"| != |"error_code"|;
    assert DistinctKeys(ms) by {
      assert ms[0].key[0] == 'o' && ms[1].key[0] == 'v' && ms[2].key[0] == 'e' && ms[3].key[0] == 'e';
      assert ms[4].key[0] == 'r' && |ms[2].key| == 5 && |ms[3].key| == 10;
    }
    LookupOf(ms, i);
  }

  /** The body of an exception: not ok, not retryable, the fixed code, and no receipt. */
  lemma DenyBodySays(error: string)
    ensures var b := DenyBody(error);
      && Says(b, "ok", Bool(false)) && Says(b, "error", Str(error)) && Says(b, "error_code", Int(-32000))
      && Says(b, "retryable", Bool(false)) && Lookup(b.members, "receipt").None?
  {
    DenyBodyLookup(error, 0);
    DenyBodyLookup(error, 2);
    DenyBodyLookup(error, 3);
    DenyBodyLookup(error, 4);
    LookupIsMember(DenyBody(error).members, "receipt");
  }
}
