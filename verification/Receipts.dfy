/** Receipts as dictionaries, the signed payload, the transforms that make one receipt from
    another, and the checks that `validate` makes. */
module Receipts {
  import opened Text
  import opened Json
  import opened Canonical
  import opened Binding

  datatype Field =
    | TraceId | Verdict | Timestamp | Tool | ParamsHash | RuleSummary | VerifiedAt | BlockReason
    | RequestHash | ResponseHash | RuntimeContextHash | ActionName | Issuer | Audience | Nonce
    | Sequence | ExpiresAt | ConfigHash | Dimensions | ReceiptStatus | KeyId | Signature

  function Name(f: Field): string {
    match f
    case TraceId => "trace_id"
    case Verdict => "verdict"
    case Timestamp => "timestamp"
    case Tool => "tool"
    case ParamsHash => "params_hash"
    case RuleSummary => "rule_summary"
    case VerifiedAt => "verified_at"
    case BlockReason => "block_reason"
    case RequestHash => "request_hash"
    case ResponseHash => "response_hash"
    case RuntimeContextHash => "runtime_context_hash"
    case ActionName => "action"
    case Issuer => "issuer"
    case Audience => "audience"
    case Nonce => "nonce"
    case Sequence => "sequence"
    case ExpiresAt => "expires_at"
    case ConfigHash => "config_hash"
    case Dimensions => "dimensions"
    case ReceiptStatus => "receipt_status"
    case KeyId => "key_id"
    case Signature => "signature"
  }

  lemma NameIsInjective(f: Field, g: Field)
    requires Name(f) == Name(g)
    ensures f == g
  {
    assert Name(f)[0] == Name(g)[0] && Name(f)[1] == Name(g)[1];
  }

  const SIGNING_FIELDS: seq<Field> := [
    TraceId, Verdict, Timestamp, Tool, ParamsHash, RuleSummary, VerifiedAt, BlockReason,
    RequestHash, ResponseHash, RuntimeContextHash, ActionName, Issuer, Audience, Nonce,
    Sequence, ExpiresAt, ConfigHash, Dimensions, ReceiptStatus, KeyId]

  function SigningNames(): (names: seq<string>)
    ensures |names| == |SIGNING_FIELDS|
  {
    seq(|SIGNING_FIELDS|, i requires 0 <= i < |SIGNING_FIELDS| => Name(SIGNING_FIELDS[i]))
  }

  /** Every field but the detached signature is signed. */
  lemma SignedUnlessSignature(f: Field) returns (i: nat)
    requires f != Signature
    ensures i < |SIGNING_FIELDS| && SIGNING_FIELDS[i] == f
  {
    match f
    case TraceId => i := 0;
    case Verdict => i := 1;
    case Timestamp => i := 2;
    case Tool => i := 3;
    case ParamsHash => i := 4;
    case RuleSummary => i := 5;
    case VerifiedAt => i := 6;
    case BlockReason => i := 7;
    case RequestHash => i := 8;
    case ResponseHash => i := 9;
    case RuntimeContextHash => i := 10;
    case ActionName => i := 11;
    case Issuer => i := 12;
    case Audience => i := 13;
    case Nonce => i := 14;
    case Sequence => i := 15;
    case ExpiresAt => i := 16;
    case ConfigHash => i := 17;
    case Dimensions => i := 18;
    case ReceiptStatus => i := 19;
    case KeyId => i := 20;
  }

  lemma SigningNamesDistinct()
    ensures Distinct(SigningNames())
  {
    forall i, j | 0 <= i < j < |SigningNames()| ensures SigningNames()[i] != SigningNames()[j] {
      if SigningNames()[i] == SigningNames()[j] {
        NameIsInjective(SIGNING_FIELDS[i], SIGNING_FIELDS[j]);
        assert false;
      }
    }
  }

  /** A receipt dictionary: whichever of the 22 fields are present, and any other keys. */
  datatype Receipt = Receipt(fields: map<Field, Value>, extra: map<string, Value>)

  predicate Signable(r: Receipt) {
    forall f: Field | f != Signature :: f in r.fields
  }

  predicate Complete(r: Receipt) {
    Signable(r) && Signature in r.fields
  }

  function SignedValues(r: Receipt): (vs: seq<Value>)
    requires Signable(r)
    ensures |vs| == |SIGNING_FIELDS|
  {
    seq(|SIGNING_FIELDS|, i requires 0 <= i < |SIGNING_FIELDS| => r.fields[SIGNING_FIELDS[i]])
  }

  /** signing_payload: the canonical bytes of the 21 signed fields. */
  function Payload(r: Receipt): Bytes
    requires Signable(r)
  {
    CanonicalBytes(Record(SigningNames(), SignedValues(r)))
  }

  ghost predicate AgreeOn(a: Receipt, b: Receipt, f: Field) {
    f in a.fields && f in b.fields && Equal(a.fields[f], b.fields[f])
  }

  ghost predicate AgreeOnSigned(a: Receipt, b: Receipt) {
    forall f: Field | f != Signature :: AgreeOn(a, b, f)
  }

  /** The payload is the 21 signed fields: two receipts have the same payload exactly when
      they agree on every one. */
  lemma PayloadBinds(a: Receipt, b: Receipt)
    requires Signable(a) && Signable(b)
    ensures Payload(a) == Payload(b) <==> AgreeOnSigned(a, b)
  {
    var vs, ws := SignedValues(a), SignedValues(b);
    SigningNamesDistinct();
    BytesIffEqual(Record(SigningNames(), vs), Record(SigningNames(), ws));
    RecordBinds(SigningNames(), vs, ws);
    ValuesBind(a, b);
  }

  lemma ValuesBind(a: Receipt, b: Receipt)
    requires Signable(a) && Signable(b)
    ensures AllEqual(SignedValues(a), SignedValues(b)) <==> AgreeOnSigned(a, b)
  {
    var vs, ws := SignedValues(a), SignedValues(b);
    if AllEqual(vs, ws) {
      forall f: Field | f != Signature ensures AgreeOn(a, b, f) {
        var i := SignedUnlessSignature(f);
        assert Equal(vs[i], ws[i]);
      }
    }
    if AgreeOnSigned(a, b) {
      forall i | 0 <= i < |vs| ensures Equal(vs[i], ws[i]) {
        assert AgreeOn(a, b, SIGNING_FIELDS[i]);
      }
    }
  }

  // ---- making receipts ----

  const NO_SIGNATURE: Bytes := seq(64, _ => 0)

  /** The 64 bytes that a private key signs a message with. */
  type Signing = s: Bytes -> Bytes | forall m :: |s(m)| == 64
    witness (m: Bytes) => NO_SIGNATURE

  /** What a public key accepts: message, signature. */
  type Verifying = (Bytes, Bytes) -> bool

  /** The public key accepts what the private key signs. */
  ghost predicate Matching(sign: Signing, verify: Verifying) {
    forall m :: verify(m, sign(m))
  }

  /** sign(seed, payload).hex() */
  function SignatureText(sign: Signing, r: Receipt): (hex: string)
    requires Signable(r)
    ensures IsLowerHexText(hex, 128)
  {
    ToHex(sign(Payload(r)))
  }

  datatype Config = Config(issuer: string, audience: string, ttl: int, keyId: string)

  /** What the rules decided about a command. */
  datatype Decision = Decision(
    verdict: string, dimensions: Value, summary: string, reason: Option<string>, config: Value)

  function OrNull(s: Option<string>): Value {
    match s
    case None => Null
    case Some(t) => Str(t)
  }

  function WithSignature(r: Receipt, hex: string): Receipt {
    r.(fields := r.fields[Signature := Str(hex)])
  }

  function SignedBy(sign: Signing, r: Receipt): (s: Receipt)
    requires Signable(r)
    ensures Complete(s) && forall f: Field | f != Signature :: s.fields[f] == r.fields[f]
  {
    WithSignature(r, SignatureText(sign, r))
  }

  lemma PayloadIgnoresSignature(r: Receipt, hex: string)
    requires Signable(r)
    ensures Payload(WithSignature(r, hex)) == Payload(r)
  {
    assert SignedValues(WithSignature(r, hex)) == SignedValues(r);
  }

  /** The signature stored with a receipt is the text of the key's signature over the receipt's
      own payload, and decodes to it. */
  lemma SignedCarriesSignature(sign: Signing, r: Receipt)
    requires Signable(r)
    ensures var s := SignedBy(sign, r);
      && s.fields[Signature] == Str(ToHex(sign(Payload(s))))
      && FromHex(s.fields[Signature].s) == Some(sign(Payload(s)))
  {
    PayloadIgnoresSignature(r, SignatureText(sign, r));
    HexReadsBack(sign(Payload(r)));
  }

  /** The dictionary create_admission builds, before it is signed. */
  function Admission(h: Digest, show: Shown, cfg: Config, c: Command, d: Decision,
                     now: int, nonce: string, sequence: nat): (r: Receipt)
    ensures Complete(r)
  {
    Receipt(map f: Field | true :: AdmissionField(h, show, cfg, c, d, now, nonce, sequence, f), map[])
  }

  function AdmissionField(h: Digest, show: Shown, cfg: Config, c: Command, d: Decision,
                          now: int, nonce: string, sequence: nat, f: Field): Value
  {
    match f
    case TraceId => c.traceId
    case Verdict => Str(d.verdict)
    case Timestamp => Int(now)
    case Tool => c.tool
    case ParamsHash => Str(Sha256Hex(h, c.params))
    case RuleSummary => Str(d.summary)
    case VerifiedAt => Int(now)
    case BlockReason => OrNull(d.reason)
    case RequestHash => Str(Sha256Uri(h, Wire(c)))
    case ResponseHash => Null
    case RuntimeContextHash => Str(Sha256Uri(h, c.context))
    case ActionName => Str(Action(show(c.tool), Sha256Hex(h, c.params)))
    case Issuer => Str(cfg.issuer)
    case Audience => Str(cfg.audience)
    case Nonce => Str(nonce)
    case Sequence => Int(sequence)
    case ExpiresAt => Int(now + cfg.ttl)
    case ConfigHash => Str(Sha256Uri(h, d.config))
    case Dimensions => d.dimensions
    case ReceiptStatus => Str("admission")
    case KeyId => Str(cfg.keyId)
    case Signature => Str("")
  }

  predicate IsText(r: Receipt, f: Field, text: string) {
    f in r.fields && r.fields[f] == Str(text)
  }

  predicate HasNumber(r: Receipt, n: nat) {
    Sequence in r.fields && r.fields[Sequence] == Int(n)
  }

  lemma AdmissionIssuer(h: Digest, show: Shown, cfg: Config, c: Command, d: Decision, now: int, nonce: string, n: nat)
    ensures Admission(h, show, cfg, c, d, now, nonce, n).fields[Issuer] == Str(cfg.issuer)
  {
  }

  lemma AdmissionNonce(h: Digest, show: Shown, cfg: Config, c: Command, d: Decision, now: int, nonce: string, n: nat)
    ensures Admission(h, show, cfg, c, d, now, nonce, n).fields[Nonce] == Str(nonce)
  {
  }

  lemma AdmissionNumber(h: Digest, show: Shown, cfg: Config, c: Command, d: Decision, now: int, nonce: string, n: nat)
    ensures Admission(h, show, cfg, c, d, now, nonce, n).fields[Sequence] == Int(n)
  {
  }

  lemma AdmissionStatus(h: Digest, show: Shown, cfg: Config, c: Command, d: Decision, now: int, nonce: string, n: nat)
    ensures Admission(h, show, cfg, c, d, now, nonce, n).fields[ReceiptStatus] == Str("admission")
  {
  }

  lemma AdmissionAudience(h: Digest, show: Shown, cfg: Config, c: Command, d: Decision, now: int, nonce: string, n: nat)
    ensures Admission(h, show, cfg, c, d, now, nonce, n).fields[Audience] == Str(cfg.audience)
  {
  }

  lemma AdmissionKeyId(h: Digest, show: Shown, cfg: Config, c: Command, d: Decision, now: int, nonce: string, n: nat)
    ensures Admission(h, show, cfg, c, d, now, nonce, n).fields[KeyId] == Str(cfg.keyId)
  {
  }

  lemma AdmissionExpiry(h: Digest, show: Shown, cfg: Config, c: Command, d: Decision, now: int, nonce: string, n: nat)
    ensures Admission(h, show, cfg, c, d, now, nonce, n).fields[ExpiresAt] == Int(now + cfg.ttl)
  {
  }

  lemma AdmissionVerdict(h: Digest, show: Shown, cfg: Config, c: Command, d: Decision, now: int, nonce: string, n: nat)
    ensures Admission(h, show, cfg, c, d, now, nonce, n).fields[Verdict] == Str(d.verdict)
  {
  }

  lemma AdmissionFields(h: Digest, show: Shown, cfg: Config, c: Command, d: Decision, now: int, nonce: string, n: nat)
    ensures var r := Admission(h, show, cfg, c, d, now, nonce, n);
      && IsText(r, Issuer, cfg.issuer) && IsText(r, Nonce, nonce) && HasNumber(r, n)
      && IsText(r, ReceiptStatus, "admission") && IsText(r, Verdict, d.verdict)
  {
    AdmissionIssuer(h, show, cfg, c, d, now, nonce, n);
    AdmissionNonce(h, show, cfg, c, d, now, nonce, n);
    AdmissionNumber(h, show, cfg, c, d, now, nonce, n);
    AdmissionStatus(h, show, cfg, c, d, now, nonce, n);
    AdmissionVerdict(h, show, cfg, c, d, now, nonce, n);
  }

  lemma AdmissionTool(h: Digest, show: Shown, cfg: Config, c: Command, d: Decision, now: int, nonce: string, n: nat)
    ensures Admission(h, show, cfg, c, d, now, nonce, n).fields[Tool] == c.tool
  {
  }

  lemma AdmissionParamsHash(h: Digest, show: Shown, cfg: Config, c: Command, d: Decision, now: int, nonce: string,
                            n: nat)
    ensures Admission(h, show, cfg, c, d, now, nonce, n).fields[ParamsHash] == Str(Sha256Hex(h, c.params))
  {
  }

  lemma AdmissionActionName(h: Digest, show: Shown, cfg: Config, c: Command, d: Decision, now: int, nonce: string,
                            n: nat)
    ensures Admission(h, show, cfg, c, d, now, nonce, n).fields[ActionName] ==
      Str(Action(show(c.tool), Sha256Hex(h, c.params)))
  {
  }

  lemma AdmissionRequestHash(h: Digest, show: Shown, cfg: Config, c: Command, d: Decision, now: int, nonce: string,
                             n: nat)
    ensures Admission(h, show, cfg, c, d, now, nonce, n).fields[RequestHash] == Str(Sha256Uri(h, Wire(c)))
  {
  }

  lemma AdmissionTrace(h: Digest, show: Shown, cfg: Config, c: Command, d: Decision, now: int, nonce: string,
                       n: nat)
    ensures Admission(h, show, cfg, c, d, now, nonce, n).fields[TraceId] == c.traceId
  {
  }

  lemma AdmissionTimestamp(h: Digest, show: Shown, cfg: Config, c: Command, d: Decision, now: int, nonce: string,
                           n: nat)
    ensures Admission(h, show, cfg, c, d, now, nonce, n).fields[Timestamp] == Int(now)
  {
  }

  lemma AdmissionVerifiedAt(h: Digest, show: Shown, cfg: Config, c: Command, d: Decision, now: int, nonce: string,
                            n: nat)
    ensures Admission(h, show, cfg, c, d, now, nonce, n).fields[VerifiedAt] == Int(now)
  {
  }

  lemma AdmissionSummary(h: Digest, show: Shown, cfg: Config, c: Command, d: Decision, now: int, nonce: string,
                         n: nat)
    ensures Admission(h, show, cfg, c, d, now, nonce, n).fields[RuleSummary] == Str(d.summary)
  {
  }

  lemma AdmissionReason(h: Digest, show: Shown, cfg: Config, c: Command, d: Decision, now: int, nonce: string,
                        n: nat)
    ensures Admission(h, show, cfg, c, d, now, nonce, n).fields[BlockReason] == OrNull(d.reason)
  {
  }

  lemma AdmissionDimensions(h: Digest, show: Shown, cfg: Config, c: Command, d: Decision, now: int, nonce: string,
                            n: nat)
    ensures Admission(h, show, cfg, c, d, now, nonce, n).fields[Dimensions] == d.dimensions
  {
  }

  lemma AdmissionResponse(h: Digest, show: Shown, cfg: Config, c: Command, d: Decision, now: int, nonce: string,
                          n: nat)
    ensures Admission(h, show, cfg, c, d, now, nonce, n).fields[ResponseHash] == Null
  {
  }

  lemma AdmissionContext(h: Digest, show: Shown, cfg: Config, c: Command, d: Decision, now: int, nonce: string,
                         n: nat)
    ensures Admission(h, show, cfg, c, d, now, nonce, n).fields[RuntimeContextHash] == Str(Sha256Uri(h, c.context))
  {
  }

  lemma AdmissionConfig(h: Digest, show: Shown, cfg: Config, c: Command, d: Decision, now: int, nonce: string,
                        n: nat)
    ensures Admission(h, show, cfg, c, d, now, nonce, n).fields[ConfigHash] == Str(Sha256Uri(h, d.config))
  {
  }

  /** r holds v under f. */
  predicate HasField(r: Receipt, f: Field, v: Value) {
    f in r.fields && r.fields[f] == v
  }

  /** What an admission records of the call and of the decision. */
  lemma AdmissionRecords(h: Digest, show: Shown, cfg: Config, c: Command, d: Decision, now: int, nonce: string, n: nat)
    ensures var r := Admission(h, show, cfg, c, d, now, nonce, n);
      && HasField(r, TraceId, c.traceId) && HasField(r, Tool, c.tool)
      && HasField(r, RuleSummary, Str(d.summary)) && HasField(r, Dimensions, d.dimensions)
      && HasField(r, BlockReason, if d.reason.Some? then Str(d.reason.value) else Null)
  {
    AdmissionTrace(h, show, cfg, c, d, now, nonce, n);
    AdmissionTool(h, show, cfg, c, d, now, nonce, n);
    AdmissionSummary(h, show, cfg, c, d, now, nonce, n);
    AdmissionDimensions(h, show, cfg, c, d, now, nonce, n);
    AdmissionReason(h, show, cfg, c, d, now, nonce, n);
  }

  /** What it records of the time, of the verifier, and of the response that is still to come. */
  lemma AdmissionStamps(h: Digest, show: Shown, cfg: Config, c: Command, d: Decision, now: int, nonce: string, n: nat)
    ensures var r := Admission(h, show, cfg, c, d, now, nonce, n);
      && HasField(r, Timestamp, Int(now)) && HasField(r, VerifiedAt, Int(now))
      && HasField(r, ExpiresAt, Int(now + cfg.ttl)) && HasField(r, Audience, Str(cfg.audience))
      && HasField(r, KeyId, Str(cfg.keyId)) && HasField(r, ResponseHash, Null)
  {
    AdmissionTimestamp(h, show, cfg, c, d, now, nonce, n);
    AdmissionVerifiedAt(h, show, cfg, c, d, now, nonce, n);
    AdmissionExpiry(h, show, cfg, c, d, now, nonce, n);
    AdmissionAudience(h, show, cfg, c, d, now, nonce, n);
    AdmissionKeyId(h, show, cfg, c, d, now, nonce, n);
    AdmissionResponse(h, show, cfg, c, d, now, nonce, n);
  }

  /** Everything create_admission is given or draws. */
  datatype Issue = Issue(config: Config, command: Command, decision: Decision, now: int, nonce: string, sequence: nat)

  function AdmissionOf(h: Digest, show: Shown, i: Issue): (r: Receipt)
    ensures Complete(r)
  {
    Admission(h, show, i.config, i.command, i.decision, i.now, i.nonce, i.sequence)
  }

  /** What two admissions share when they share one field. */
  ghost predicate SharesInput(h: Digest, show: Shown, i: Issue, j: Issue, f: Field) {
    match f
    case TraceId => Equal(i.command.traceId, j.command.traceId)
    case Verdict => i.decision.verdict == j.decision.verdict
    case Timestamp => i.now == j.now
    case Tool => Equal(i.command.tool, j.command.tool)
    case ParamsHash => SameOrCollide(h, i.command.params, j.command.params)
    case RuleSummary => i.decision.summary == j.decision.summary
    case VerifiedAt => i.now == j.now
    case BlockReason => i.decision.reason == j.decision.reason
    case RequestHash =>
      SameCall(i.command, j.command)
      || Collision(h, CanonicalBytes(Wire(i.command)), CanonicalBytes(Wire(j.command)))
    case ResponseHash => true
    case RuntimeContextHash => SameOrCollide(h, i.command.context, j.command.context)
    case ActionName =>
      show(i.command.tool) == show(j.command.tool) && SameOrCollide(h, i.command.params, j.command.params)
    case Issuer => i.config.issuer == j.config.issuer
    case Audience => i.config.audience == j.config.audience
    case Nonce => i.nonce == j.nonce
    case Sequence => i.sequence == j.sequence
    case ExpiresAt => i.now + i.config.ttl == j.now + j.config.ttl
    case ConfigHash => SameOrCollide(h, i.decision.config, j.decision.config)
    case Dimensions => Equal(i.decision.dimensions, j.decision.dimensions)
    case ReceiptStatus => true
    case KeyId => i.config.keyId == j.config.keyId
    case Signature => true
  }

  function FieldOf(h: Digest, show: Shown, i: Issue, f: Field): Value {
    AdmissionField(h, show, i.config, i.command, i.decision, i.now, i.nonce, i.sequence, f)
  }

  lemma TextsBind(x: string, y: string)
    ensures Equal(Str(x), Str(y)) <==> x == y
  {
  }

  /** The text of a hashed field. */
  function HashText(h: Digest, show: Shown, c: Command, config: Value, f: Field): string {
    match f
    case ParamsHash => Sha256Hex(h, c.params)
    case RequestHash => Sha256Uri(h, Wire(c))
    case RuntimeContextHash => Sha256Uri(h, c.context)
    case ConfigHash => Sha256Uri(h, config)
    case _ => Action(show(c.tool), Sha256Hex(h, c.params))
  }

  lemma HashedFieldIs(h: Digest, show: Shown, i: Issue, f: Field)
    requires f in {ParamsHash, RequestHash, RuntimeContextHash, ActionName, ConfigHash}
    ensures FieldOf(h, show, i, f) == Str(HashText(h, show, i.command, i.decision.config, f))
  {
  }

  lemma HashTextBinds(h: Digest, show: Shown, i: Issue, j: Issue, f: Field)
    requires f in {ParamsHash, RequestHash, RuntimeContextHash, ActionName, ConfigHash}
    ensures HashText(h, show, i.command, i.decision.config, f) == HashText(h, show, j.command, j.decision.config, f)
      <==> SharesInput(h, show, i, j, f)
  {
    match f
    case ParamsHash => DigestBinds(h, i.command.params, j.command.params);
    case RequestHash => RequestHashBinds(h, i.command, j.command);
    case RuntimeContextHash => DigestBinds(h, i.command.context, j.command.context);
    case ActionName =>
      ActionOfBinds(h, show(i.command.tool), i.command.params, show(j.command.tool), j.command.params);
    case ConfigHash => DigestBinds(h, i.decision.config, j.decision.config);
  }

  lemma HashedFieldBinds(h: Digest, show: Shown, i: Issue, j: Issue, f: Field)
    requires f in {ParamsHash, RequestHash, RuntimeContextHash, ActionName, ConfigHash}
    ensures Equal(FieldOf(h, show, i, f), FieldOf(h, show, j, f)) <==> SharesInput(h, show, i, j, f)
  {
    HashedFieldIs(h, show, i, f);
    HashedFieldIs(h, show, j, f);
    HashTextBinds(h, show, i, j, f);
    TextsBind(HashText(h, show, i.command, i.decision.config, f), HashText(h, show, j.command, j.decision.config, f));
  }

  lemma PlainFieldBinds(h: Digest, show: Shown, i: Issue, j: Issue, f: Field)
    requires f !in {ParamsHash, RequestHash, RuntimeContextHash, ActionName, ConfigHash}
    ensures Equal(FieldOf(h, show, i, f), FieldOf(h, show, j, f)) <==> SharesInput(h, show, i, j, f)
  {
  }

  lemma AdmissionFieldBinds(h: Digest, show: Shown, i: Issue, j: Issue, f: Field)
    ensures AgreeOn(AdmissionOf(h, show, i), AdmissionOf(h, show, j), f) <==> SharesInput(h, show, i, j, f)
  {
    if f in {ParamsHash, RequestHash, RuntimeContextHash, ActionName, ConfigHash} {
      HashedFieldBinds(h, show, i, j, f);
    } else {
      PlainFieldBinds(h, show, i, j, f);
    }
  }

  ghost predicate SharesInputs(h: Digest, show: Shown, i: Issue, j: Issue) {
    forall f: Field :: SharesInput(h, show, i, j, f)
  }

  /** What the signature of an admission covers: two admissions have one payload exactly when
      they were made from the same call, context, configuration, decision, time, nonce and
      number for the same verifier, or byte strings that the statement names collide. */
  lemma AdmissionBinds(h: Digest, show: Shown, i: Issue, j: Issue)
    ensures Payload(AdmissionOf(h, show, i)) == Payload(AdmissionOf(h, show, j)) <==> SharesInputs(h, show, i, j)
  {
    PayloadBinds(AdmissionOf(h, show, i), AdmissionOf(h, show, j));
    forall f: Field
      ensures AgreeOn(AdmissionOf(h, show, i), AdmissionOf(h, show, j), f) <==> SharesInput(h, show, i, j, f)
    {
      AdmissionFieldBinds(h, show, i, j, f);
    }
    assert SharesInput(h, show, i, j, Signature);
  }

  function WithStatus(r: Receipt, status: string): Receipt {
    r.(fields := r.fields[ReceiptStatus := Str(status)])
  }

  function WithResponse(r: Receipt, uri: string): Receipt {
    WithStatus(r.(fields := r.fields[ResponseHash := Str(uri)]), "finalized")
  }

  function Finalized(h: Digest, r: Receipt, response: Value): Receipt {
    WithResponse(r, Sha256Uri(h, response))
  }

  /** The 19 signed fields that finalize, mark_unavailable and consume never touch. */
  predicate InCore(f: Field) {
    f != Signature && f != ResponseHash && f != ReceiptStatus
  }

  ghost predicate SameCore(a: Receipt, b: Receipt) {
    forall f: Field | InCore(f) :: AgreeOn(a, b, f)
  }

  lemma FinalizedHolds(h: Digest, r: Receipt, response: Value)
    ensures var f := Finalized(h, r, response);
      HasField(f, ResponseHash, Str(Sha256Uri(h, response))) && HasField(f, ReceiptStatus, Str("finalized"))
  {
  }

  /** d is a signed copy of r with this status and otherwise r's fields. */
  predicate IsRestamped(r: Receipt, d: Receipt, status: string) {
    && Complete(d) && d.extra == r.extra && IsText(d, ReceiptStatus, status)
    && forall f: Field | f != ReceiptStatus && f != Signature :: f in r.fields && d.fields[f] == r.fields[f]
  }

  /** d is a signed copy of r with status finalized, this response's hash and otherwise r's
      fields. */
  predicate IsFinalizedFrom(h: Digest, r: Receipt, response: Value, d: Receipt) {
    && Complete(d) && d.extra == r.extra && IsText(d, ReceiptStatus, "finalized")
    && IsText(d, ResponseHash, "sha256:" + h(CanonicalBytes(response)))
    && forall f: Field | InCore(f) :: f in r.fields && d.fields[f] == r.fields[f]
  }

  lemma RestampedIs(sign: Signing, r: Receipt, status: string)
    requires Signable(WithStatus(r, status))
    ensures IsRestamped(r, SignedBy(sign, WithStatus(r, status)), status)
  {
    StatusIsSet(r, status);
    forall f: Field | f != ReceiptStatus && f != Signature
      ensures f in r.fields && SignedBy(sign, WithStatus(r, status)).fields[f] == r.fields[f]
    {
      StatusIsAll(r, status, f);
    }
  }

  lemma StatusIsSet(r: Receipt, status: string)
    ensures WithStatus(r, status).extra == r.extra && IsText(WithStatus(r, status), ReceiptStatus, status)
  {
  }

  lemma StatusIsAll(r: Receipt, status: string, f: Field)
    requires f != ReceiptStatus && f in WithStatus(r, status).fields
    ensures f in r.fields && WithStatus(r, status).fields[f] == r.fields[f]
  {
  }

  lemma FinalizedIs(h: Digest, sign: Signing, r: Receipt, response: Value)
    requires Signable(Finalized(h, r, response))
    ensures IsFinalizedFrom(h, r, response, SignedBy(sign, Finalized(h, r, response)))
  {
    FinalizedHolds(h, r, response);
    forall f: Field | InCore(f)
      ensures f in r.fields && SignedBy(sign, Finalized(h, r, response)).fields[f] == r.fields[f]
    {
      CoreIsCopied(h, r, response, f);
    }
  }

  lemma CoreIsCopied(h: Digest, r: Receipt, response: Value, f: Field)
    requires InCore(f) && f in Finalized(h, r, response).fields
    ensures f in r.fields && Finalized(h, r, response).fields[f] == r.fields[f]
  {
  }

  lemma FinalizedCore(h: Digest, r: Receipt, response: Value, f: Field)
    requires InCore(f) && f in r.fields
    ensures HasField(Finalized(h, r, response), f, r.fields[f])
  {
  }

  lemma SignedAgree(a: Receipt, b: Receipt)
    ensures AgreeOnSigned(a, b) <==> SameCore(a, b) && AgreeOn(a, b, ResponseHash) && AgreeOn(a, b, ReceiptStatus)
  {
  }

  lemma FinalizedAgreesOn(h: Digest, a: Receipt, b: Receipt, x: Value, y: Value, f: Field)
    requires Signable(a) && Signable(b) && InCore(f)
    ensures AgreeOn(Finalized(h, a, x), Finalized(h, b, y), f) <==> AgreeOn(a, b, f)
  {
    FinalizedCore(h, a, x, f);
    FinalizedCore(h, b, y, f);
  }

  lemma FinalizedSameCore(h: Digest, a: Receipt, b: Receipt, x: Value, y: Value)
    requires Signable(a) && Signable(b)
    ensures SameCore(Finalized(h, a, x), Finalized(h, b, y)) <==> SameCore(a, b)
  {
    forall f: Field | InCore(f) ensures AgreeOn(Finalized(h, a, x), Finalized(h, b, y), f) <==> AgreeOn(a, b, f) {
      FinalizedAgreesOn(h, a, b, x, y, f);
    }
  }

  /** finalize binds the response: two finalized receipts have one payload exactly when they
      come from receipts with the same core and from the same response, or the responses'
      canonical bytes are a collision. */
  lemma FinalizeBinds(h: Digest, a: Receipt, b: Receipt, x: Value, y: Value)
    requires Signable(a) && Signable(b)
    ensures Payload(Finalized(h, a, x)) == Payload(Finalized(h, b, y)) <==> SameCore(a, b) && SameOrCollide(h, x, y)
  {
    FinalizedHolds(h, a, x);
    FinalizedHolds(h, b, y);
    FinalizedSameCore(h, a, b, x, y);
    SignedAgree(Finalized(h, a, x), Finalized(h, b, y));
    PayloadBinds(Finalized(h, a, x), Finalized(h, b, y));
    DigestBinds(h, x, y);
  }

  // ---- checking receipts ----

  datatype Rejection =
    | MissingField
    | InvalidEncoding
    | BadSignature
    | AudienceMismatch
    | Expired
    | NonAuthorizingStatus
    | Replayed
    | CannotAuthorize
    | ParameterSubstitution
    | ExactActionMismatch
    | RequestBindingMismatch
    | TypeError          // a comparison or lookup that Python refuses for the value's type

  datatype Outcome = Accepted | Rejected(why: Rejection)

  datatype Options = Options(
    expectedAudience: Option<string>, expectedCommand: Option<Command>,
    requireFresh: bool, requireAuthorizing: bool)

  /** Python orders booleans with the integers. */
  function Number(v: Json): Option<int> {
    match v
    case Int(i) => Some(i)
    case Bool(b) => Some(if b then 1 else 0)
    case _ => None
  }

  predicate Unhashable(v: Json) {
    v.Arr? || v.Obj?
  }

  /** What came of decoding and verifying the signature field. */
  datatype SignatureCheck = Undecodable | Refused | Verified

  function CheckSignature(verify: Verifying, r: Receipt): SignatureCheck
    requires Complete(r)
  {
    var hex := r.fields[Signature];
    if !hex.Str? || FromHex(hex.s).None? then Undecodable
    else if verify(Payload(r), FromHex(hex.s).value) then Verified
    else Refused
  }

  /** What is checked is the signature that was written: of a receipt signed with a private key,
      whether the public key accepts that key's bytes over the receipt's own payload. */
  lemma CheckIsOfSignature(sign: Signing, verify: Verifying, r: Receipt)
    requires Signable(r)
    ensures CheckSignature(verify, SignedBy(sign, r)) ==
      if verify(Payload(r), sign(Payload(r))) then Verified else Refused
  {
    SignedCarriesSignature(sign, r);
    PayloadIgnoresSignature(r, SignatureText(sign, r));
  }

  /** The checks up to the look-up of the replay state. */
  function CheckBefore(verify: Verifying, r: Receipt, o: Options, now: int): (out: Outcome)
    ensures out.Accepted? ==> Complete(r)
  {
    if !Complete(r) then Rejected(MissingField)
    else GuardsBefore(CheckSignature(verify, r), r, o, now)
  }

  function GuardsBefore(signature: SignatureCheck, r: Receipt, o: Options, now: int): Outcome
    requires Complete(r)
  {
    var expires := Number(r.fields[ExpiresAt]);
    var status := r.fields[ReceiptStatus];
    if signature.Undecodable? then Rejected(InvalidEncoding)
    else if signature.Refused? then Rejected(BadSignature)
    else if o.expectedAudience.Some? && o.expectedAudience.value != ""
            && r.fields[Audience] != Str(o.expectedAudience.value) then Rejected(AudienceMismatch)
    else if o.requireFresh && expires.None? then Rejected(TypeError)
    else if o.requireFresh && now > expires.value then Rejected(Expired)
    else if Unhashable(status) then Rejected(TypeError)
    else if status == Str("consumed") || status == Str("unavailable") then Rejected(NonAuthorizingStatus)
    else Accepted
  }

  /** The guards before the look-up, one by one. */
  predicate AudienceOk(r: Receipt, o: Options)
    requires Complete(r)
  {
    o.expectedAudience.Some? && o.expectedAudience.value != "" ==> r.fields[Audience] == Str(o.expectedAudience.value)
  }

  predicate FreshEnough(r: Receipt, o: Options, now: int)
    requires Complete(r)
  {
    o.requireFresh ==> Number(r.fields[ExpiresAt]).Some? && now <= Number(r.fields[ExpiresAt]).value
  }

  predicate StatusOk(v: Value) {
    !Unhashable(v) && v != Str("consumed") && v != Str("unavailable")
  }

  /** They accept exactly the complete receipts with a verified signature, the right audience,
      time left and an authorizing status; what is reported first goes by the code's order. */
  lemma BeforeAccepts(verify: Verifying, r: Receipt, o: Options, now: int)
    ensures CheckBefore(verify, r, o, now).Accepted? <==>
      && Complete(r) && CheckSignature(verify, r).Verified?
      && AudienceOk(r, o) && FreshEnough(r, o, now) && StatusOk(r.fields[ReceiptStatus])
    ensures CheckBefore(verify, r, o, now) == Rejected(MissingField) <==> !Complete(r)
  {
    if Complete(r) {
      GuardsAccept(CheckSignature(verify, r), r, o, now);
    }
  }

  lemma GuardsAccept(signature: SignatureCheck, r: Receipt, o: Options, now: int)
    requires Complete(r)
    ensures var out := GuardsBefore(signature, r, o, now);
      && (out.Accepted? <==>
           signature.Verified? && AudienceOk(r, o) && FreshEnough(r, o, now) && StatusOk(r.fields[ReceiptStatus]))
      && (out == Rejected(InvalidEncoding) <==> signature.Undecodable?)
      && (out == Rejected(BadSignature) <==> signature.Refused?)
      && (out == Rejected(AudienceMismatch) <==> signature.Verified? && !AudienceOk(r, o))
      && out != Rejected(MissingField)
  {
  }

  /** What `consume` asks `validate` for. */
  function ConsumeOptions(cfg: Config): Options {
    Options(Some(cfg.audience), None, true, true)
  }

  predicate CommandMatches(h: Digest, show: Shown, r: Receipt, c: Command)
    requires Signable(r)
  {
    && r.fields[ParamsHash] == Str(Sha256Hex(h, c.params))
    && r.fields[ActionName] == Str(Action(show(c.tool), Sha256Hex(h, c.params)))
    && r.fields[RequestHash] == Str(Sha256Uri(h, Wire(c)))
  }

  /** An admission matches the command it was made for. */
  lemma AdmissionMatches(h: Digest, show: Shown, cfg: Config, c: Command, d: Decision, now: int, nonce: string, n: nat)
    ensures CommandMatches(h, show, Admission(h, show, cfg, c, d, now, nonce, n), c)
  {
    AdmissionParamsHash(h, show, cfg, c, d, now, nonce, n);
    AdmissionActionName(h, show, cfg, c, d, now, nonce, n);
    AdmissionRequestHash(h, show, cfg, c, d, now, nonce, n);
  }

  /** The checks after it. */
  function CheckAfter(h: Digest, show: Shown, r: Receipt, o: Options): (out: Outcome)
    requires Signable(r)
    ensures out.Accepted? && o.expectedCommand.Some? ==> CommandMatches(h, show, r, o.expectedCommand.value)
  {
    if o.requireAuthorizing && r.fields[Verdict] != Str("allow") then Rejected(CannotAuthorize)
    else if o.expectedCommand.None? then Accepted
    else
      var c := o.expectedCommand.value;
      var hash := Sha256Hex(h, c.params);
      if r.fields[ParamsHash] != Str(hash) then Rejected(ParameterSubstitution)
      else if r.fields[ActionName] != Str(Action(show(c.tool), hash)) then Rejected(ExactActionMismatch)
      else if r.fields[RequestHash] != Str(Sha256Uri(h, Wire(c))) then Rejected(RequestBindingMismatch)
      else Accepted
  }

  /** They accept exactly the receipts that say allow, when that is required, and match the
      expected command, when there is one. */
  lemma AfterAccepts(h: Digest, show: Shown, r: Receipt, o: Options)
    requires Signable(r)
    ensures CheckAfter(h, show, r, o).Accepted? <==>
      && (o.requireAuthorizing ==> r.fields[Verdict] == Str("allow"))
      && (o.expectedCommand.Some? ==> CommandMatches(h, show, r, o.expectedCommand.value))
  {
  }

  lemma ExpectedMatches(h: Digest, show: Shown, r: Receipt, o: Options, d: Command)
    requires Signable(r) && o.expectedCommand == Some(d) && CheckAfter(h, show, r, o).Accepted?
    ensures CommandMatches(h, show, r, d)
  {
  }

  // ---- what an accepted receipt is bound to ----

  /** The receipt carries the bindings that create_admission writes for c. */
  ghost predicate IssuedFor(h: Digest, show: Shown, r: Receipt, c: Command) {
    Signable(r) && CommandMatches(h, show, r, c)
  }

  /** finalize, mark_unavailable and consume keep them, as does any copy with the same core. */
  lemma CoreKeepsCommand(h: Digest, show: Shown, a: Receipt, r: Receipt, c: Command)
    requires IssuedFor(h, show, a, c) && SameCore(a, r) && Signable(r)
    ensures IssuedFor(h, show, r, c)
  {
    SameText(a, r, ParamsHash, Sha256Hex(h, c.params));
    SameText(a, r, ActionName, Action(show(c.tool), Sha256Hex(h, c.params)));
    SameText(a, r, RequestHash, Sha256Uri(h, Wire(c)));
  }

  lemma SameText(a: Receipt, r: Receipt, f: Field, text: string)
    requires SameCore(a, r) && InCore(f) && IsText(a, f, text)
    ensures IsText(r, f, text)
  {
    assert AgreeOn(a, r, f);
  }

  /** A receipt issued for c passes the command checks for d exactly when d is the same call,
      or d collides with c under the digest, and then the tools are spelt alike. */
  lemma AcceptedCommand(h: Digest, show: Shown, r: Receipt, c: Command, d: Command)
    requires IssuedFor(h, show, r, c)
    ensures CommandMatches(h, show, r, d) <==>
      && (SameCall(c, d) || Collision(h, CanonicalBytes(Wire(c)), CanonicalBytes(Wire(d))))
      && (Equal(c.params, d.params) || Collision(h, CanonicalBytes(c.params), CanonicalBytes(d.params)))
      && show(c.tool) == show(d.tool)
  {
    RequestHashBinds(h, c, d);
    DigestBinds(h, c.params, d.params);
    ActionBinds(show(c.tool), Sha256Hex(h, c.params), show(d.tool), Sha256Hex(h, d.params));
  }
}
