/** Hashes of canonical bytes, and what they bind a receipt to. SHA-256 is any function to
    64 hexadecimal digits; no lemma assumes that it has no collisions. */
module Binding {
  import opened Text
  import opened Json
  import opened Canonical
  import Utf8

  function CanonicalBytes(v: Json): Bytes {
    Utf8.Encode(CanonicalJson(v))
  }

  /** Equal bytes, equal values: what a hash or a signature is computed from determines the
      value up to key order. */
  lemma BytesIffEqual(a: Value, b: Value)
    ensures CanonicalBytes(a) == CanonicalBytes(b) <==> Equal(a, b)
  {
    CanonicalIffEqual(a, b);
    if CanonicalBytes(a) == CanonicalBytes(b) {
      Utf8.EncodeIsInjective(CanonicalJson(a), CanonicalJson(b));
    }
  }

  // ---- SHA-256 ----

  const ZEROS: string := seq(64, _ => '0')

  type Digest = h: Bytes -> string | forall b :: IsLowerHexText(h(b), 64)
    witness (b: Bytes) => ZEROS

  /** Two distinct byte strings with one digest. Every statement below names the strings, so
      that it gives a collision rather than says that some collision exists. */
  predicate Collision(h: Digest, x: Bytes, y: Bytes) {
    x != y && h(x) == h(y)
  }

  function Sha256Hex(h: Digest, v: Json): string {
    h(CanonicalBytes(v))
  }

  function Sha256Uri(h: Digest, v: Json): string {
    "sha256:" + Sha256Hex(h, v)
  }

  /** a and b are the same up to key order, or their canonical bytes are a collision. */
  ghost predicate SameOrCollide(h: Digest, a: Value, b: Value) {
    Equal(a, b) || Collision(h, CanonicalBytes(a), CanonicalBytes(b))
  }

  lemma DigestBinds(h: Digest, a: Value, b: Value)
    ensures Sha256Hex(h, a) == Sha256Hex(h, b) <==>
      Equal(a, b) || Collision(h, CanonicalBytes(a), CanonicalBytes(b))
    ensures Sha256Uri(h, a) == Sha256Uri(h, b) <==> Sha256Hex(h, a) == Sha256Hex(h, b)
  {
    BytesIffEqual(a, b);
    var u, v := Sha256Uri(h, a), Sha256Uri(h, b);
    assert u[7..] == Sha256Hex(h, a) && v[7..] == Sha256Hex(h, b);
  }

  // ---- commands ----

  /** A tool call as the verifier receives it. */
  datatype Command = Command(
    agentId: Value, tool: Value, params: Value, timestamp: Value, traceId: Value,
    context: Value, cost: Value)

  const WIRE_FIELDS := ["agent_id", "tool", "params", "timestamp", "trace_id"]

  function WireValues(c: Command): seq<Value> {
    [c.agentId, c.tool, c.params, c.timestamp, c.traceId]
  }

  /** The part of a command that request_hash covers. */
  function Wire(c: Command): (v: Json)
    ensures Valid(v)
  {
    Record(WIRE_FIELDS, WireValues(c))
  }

  ghost predicate SameCall(c: Command, d: Command) {
    && Equal(c.agentId, d.agentId) && Equal(c.tool, d.tool) && Equal(c.params, d.params)
    && Equal(c.timestamp, d.timestamp) && Equal(c.traceId, d.traceId)
  }

  lemma WireBinds(c: Command, d: Command)
    ensures Equal(Wire(c), Wire(d)) <==> SameCall(c, d)
  {
    var vs, ws := WireValues(c), WireValues(d);
    RecordBinds(WIRE_FIELDS, vs, ws);
    if AllEqual(vs, ws) {
      assert Equal(vs[0], ws[0]) && Equal(vs[1], ws[1]) && Equal(vs[2], ws[2]);
      assert Equal(vs[3], ws[3]) && Equal(vs[4], ws[4]);
    }
  }

  /** Two commands share a request hash exactly when they are the same call, or their wire
      forms collide. */
  lemma RequestHashBinds(h: Digest, c: Command, d: Command)
    ensures Sha256Uri(h, Wire(c)) == Sha256Uri(h, Wire(d)) <==>
      SameCall(c, d) || Collision(h, CanonicalBytes(Wire(c)), CanonicalBytes(Wire(d)))
  {
    WireBinds(c, d);
    DigestBinds(h, Wire(c), Wire(d));
  }

  // ---- the action string ----

  /** str() of a tool name in an f-string: a string is itself, other values are spelt somehow. */
  type Shown = f: Value -> string | forall s :: f(Str(s)) == s
    witness (v: Value) => if v.Str? then v.s else ""

  const ACTION_PREFIX := "ccs:tool-invoke:"

  function Action(tool: string, paramsHash: string): string {
    ACTION_PREFIX + tool + ":" + paramsHash
  }

  /** The action determines tool and hash, whatever colons the tool name holds. */
  lemma ActionBinds(tool: string, hash: string, tool': string, hash': string)
    requires |hash| == |hash'|
    ensures Action(tool, hash) == Action(tool', hash') <==> tool == tool' && hash == hash'
  {
    var a, b := Action(tool, hash), Action(tool', hash');
    if a == b {
      var n, p := |a| - |hash|, |ACTION_PREFIX|;
      assert a[n..] == hash && b[n..] == hash';
      assert a[p..n - 1] == tool && b[p..n - 1] == tool';
    }
  }

  lemma ActionOfBinds(h: Digest, tool: string, params: Value, tool': string, params': Value)
    ensures Action(tool, Sha256Hex(h, params)) == Action(tool', Sha256Hex(h, params')) <==>
      tool == tool' && SameOrCollide(h, params, params')
  {
    DigestBinds(h, params, params');
    ActionBinds(tool, Sha256Hex(h, params), tool', Sha256Hex(h, params'));
  }
}
