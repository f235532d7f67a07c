/** The public verifier: a second, separately written check of a receipt, with the exact
    22-field profile, and how it relates to the core `validate` and to what the verifier
    issues. */
module PublicVerifier {
  import opened Text
  import opened Json
  import opened Canonical
  import opened Binding
  import opened Receipts
  import opened Storage
  import Aggregation
  import Verifier

  const STATUS_VALUES: set<string> := {"pass", "fail", "unknown"}
  const VERDICTS: set<string> := {"allow", "deny", "escalate"}
  const RECEIPT_STATUSES: set<string> := {"admission", "finalized", "consumed", "unavailable"}

  // ---- the profile, field by field ----

  predicate IsOneOf(v: Json, texts: set<string>) {
    v.Str? && v.s in texts
  }

  predicate IsTextOf(v: Json, least: nat) {
    v.Str? && |v.s| >= least
  }

  predicate IsSha256Uri(v: Json) {
    v.Str? && At(v.s, 0, "sha256:") && IsLowerHexText(v.s[7..], 64)
  }

  /** `v in texts` on a Python set raises for values without a hash. */
  function Membership(v: Json, texts: set<string>): Option<bool> {
    if Unhashable(v) then None else Some(IsOneOf(v, texts))
  }

  /** set(dims) == set(DIMENSIONS) */
  predicate HasExactly(ms: seq<Member>, keys: seq<string>) {
    (forall m | m in ms :: m.key in keys) && forall k | k in keys :: Lookup(ms, k).Some?
  }

  /** all(dims[d] in STATUS_VALUES for d in ds), which stops at the first miss. */
  function AllStatuses(ms: seq<Member>, ds: seq<string>): Option<bool>
    requires forall d | d in ds :: Lookup(ms, d).Some?
  {
    if ds == [] then Some(true)
    else
      var here := Membership(Lookup(ms, ds[0]).value, STATUS_VALUES);
      if here == Some(true) then AllStatuses(ms, ds[1..]) else here
  }

  function DimensionsCheck(v: Json): Option<bool> {
    if v.Obj? && HasExactly(v.members, Aggregation.DIMENSIONS)
    then AllStatuses(v.members, Aggregation.DIMENSIONS)
    else Some(false)
  }

  /** What the profile asks of one field. */
  predicate FieldOk(f: Field, v: Json) {
    match f
    case TraceId => IsTextOf(v, 16)
    case Verdict => IsOneOf(v, VERDICTS)
    case Timestamp => v.Int?
    case Tool => IsTextOf(v, 1)
    case ParamsHash => v.Str? && IsLowerHexText(v.s, 64)
    case RuleSummary => v.Str?
    case VerifiedAt => v.Int?
    case BlockReason => v.Null? || v.Str?
    case RequestHash => IsSha256Uri(v)
    case ResponseHash => v.Null? || IsSha256Uri(v)
    case RuntimeContextHash => IsSha256Uri(v)
    case ActionName => v.Str? && At(v.s, 0, ACTION_PREFIX)
    case Issuer => IsTextOf(v, 1)
    case Audience => IsTextOf(v, 1)
    case Nonce => IsTextOf(v, 16)
    case Sequence => v.Int? && v.i >= 0
    case ExpiresAt => v.Int?
    case ConfigHash => IsSha256Uri(v)
    case Dimensions => DimensionsCheck(v) == Some(true)
    case ReceiptStatus => IsOneOf(v, RECEIPT_STATUSES)
    case KeyId => IsTextOf(v, 1)
    case Signature => v.Str? && IsLowerHexText(v.s, 128)
  }

  predicate Fits(r: Receipt, f: Field)
    requires Complete(r)
  {
    FieldOk(f, r.fields[f])
  }

  predicate BoundAction(r: Receipt)
    requires Complete(r)
  {
    && r.fields[Tool].Str? && r.fields[ParamsHash].Str?
    && r.fields[ActionName] == Str(Action(r.fields[Tool].s, r.fields[ParamsHash].s))
  }

  /** The 22-field profile. */
  predicate Conforms(r: Receipt) {
    Complete(r) && r.extra == map[] && (forall f: Field :: Fits(r, f)) && BoundAction(r)
  }

  // ---- the profile, said apart from the checks ----

  /** What kind of value a field holds. */
  datatype Kind =
    | Time | Counter | LongText | NameText | AnyText | TextOrNull | VerdictWord | StatusWord
    | Hex(length: nat) | DigestUri | DigestUriOrNull | SevenStatuses

  function KindOf(f: Field): Kind {
    match f
    case Timestamp => Time
    case VerifiedAt => Time
    case ExpiresAt => Time
    case Sequence => Counter
    case TraceId => LongText
    case Nonce => LongText
    case Tool => NameText
    case Issuer => NameText
    case Audience => NameText
    case KeyId => NameText
    case RuleSummary => AnyText
    case ActionName => AnyText
    case BlockReason => TextOrNull
    case Verdict => VerdictWord
    case ReceiptStatus => StatusWord
    case ParamsHash => Hex(64)
    case Signature => Hex(128)
    case RequestHash => DigestUri
    case RuntimeContextHash => DigestUri
    case ConfigHash => DigestUri
    case ResponseHash => DigestUriOrNull
    case Dimensions => SevenStatuses
  }

  predicate IsHexText(v: Json, length: nat) {
    v.Str? && |v.s| == length && forall i | 0 <= i < length :: v.s[i] in "0123456789abcdef"
  }

  ghost predicate IsDigestUri(v: Json) {
    exists hex :: IsHexText(Str(hex), 64) && v == Str("sha256:" + hex)
  }

  ghost predicate IsSevenStatuses(v: Json) {
    && v.Obj? && (forall i | 0 <= i < |v.members| :: v.members[i].key in Aggregation.DIMENSIONS)
    && forall d | d in Aggregation.DIMENSIONS ::
         Lookup(v.members, d) in {Some(Str("pass")), Some(Str("fail")), Some(Str("unknown"))}
  }

  ghost predicate IsOfKind(v: Json, k: Kind) {
    match k
    case Time => v.Int?
    case Counter => v.Int? && v.i >= 0
    case LongText => v.Str? && |v.s| >= 16
    case NameText => v.Str? && v.s != ""
    case AnyText => v.Str?
    case TextOrNull => v.Str? || v.Null?
    case VerdictWord => v == Str("allow") || v == Str("deny") || v == Str("escalate")
    case StatusWord =>
      v == Str("admission") || v == Str("finalized") || v == Str("consumed") || v == Str("unavailable")
    case Hex(length) => IsHexText(v, length)
    case DigestUri => IsDigestUri(v)
    case DigestUriOrNull => v.Null? || IsDigestUri(v)
    case SevenStatuses => IsSevenStatuses(v)
  }

  /** The action spells the tool and the parameter hash that stand beside it. */
  predicate SpellsAction(r: Receipt)
    requires Complete(r)
  {
    && r.fields[Tool].Str? && r.fields[ParamsHash].Str?
    && r.fields[ActionName] == Str("ccs:tool-invoke:" + r.fields[Tool].s + ":" + r.fields[ParamsHash].s)
  }

  lemma HexMeans(v: Json, length: nat)
    ensures v.Str? && IsLowerHexText(v.s, length) <==> IsHexText(v, length)
  {
    if v.Str? {
      forall i | 0 <= i < |v.s| ensures IsLowerHex(v.s[i]) <==> v.s[i] in "0123456789abcdef" {
        HexDigitMeans(v.s[i]);
      }
    }
  }

  lemma HexDigitMeans(c: char)
    ensures IsLowerHex(c) <==> c in "0123456789abcdef"
  {
    if IsLowerHex(c) {
      LowerHexPlace(c);
    }
  }

  lemma UriHasDigest(v: Json)
    requires IsSha256Uri(v)
    ensures IsDigestUri(v)
  {
    var hex := v.s[7..];
    HexMeans(Str(hex), 64);
    assert v.s[..7] == "sha256:";
    assert v.s == "sha256:" + hex;
  }

  lemma DigestIsUri(hex: string)
    requires IsHexText(Str(hex), 64)
    ensures IsSha256Uri(Str("sha256:" + hex))
  {
    HexMeans(Str(hex), 64);
    assert ("sha256:" + hex)[7..] == hex;
  }

  lemma UriMeans(v: Json)
    ensures IsSha256Uri(v) <==> IsDigestUri(v)
  {
    if IsSha256Uri(v) {
      UriHasDigest(v);
    }
    if IsDigestUri(v) {
      var hex :| IsHexText(Str(hex), 64) && v == Str("sha256:" + hex);
      DigestIsUri(hex);
    }
  }

  predicate StatusUnder(ms: seq<Member>, d: string) {
    Lookup(ms, d).Some? && IsOneOf(Lookup(ms, d).value, STATUS_VALUES)
  }

  lemma {:induction false} AllStatusesMean(ms: seq<Member>, ds: seq<string>)
    requires forall d | d in ds :: Lookup(ms, d).Some?
    ensures AllStatuses(ms, ds) == Some(true) <==> forall d | d in ds :: StatusUnder(ms, d)
  {
    if ds != [] {
      assert ds == [ds[0]] + ds[1..];
      assert forall d :: d in ds <==> d == ds[0] || d in ds[1..];
      AllStatusesMean(ms, ds[1..]);
      assert Membership(Lookup(ms, ds[0]).value, STATUS_VALUES) == Some(true) <==> StatusUnder(ms, ds[0]);
    }
  }

  lemma StatusMeans(ms: seq<Member>, d: string)
    ensures StatusUnder(ms, d) <==> Lookup(ms, d) in {Some(Str("pass")), Some(Str("fail")), Some(Str("unknown"))}
  {
  }

  lemma DimensionsMean(v: Json)
    ensures DimensionsCheck(v) == Some(true) <==> IsSevenStatuses(v)
  {
    var ds := Aggregation.DIMENSIONS;
    if v.Obj? && HasExactly(v.members, ds) {
      AllStatusesMean(v.members, ds);
      forall d | d in ds
        ensures StatusUnder(v.members, d) <==>
          Lookup(v.members, d) in {Some(Str("pass")), Some(Str("fail")), Some(Str("unknown"))}
      {
        StatusMeans(v.members, d);
      }
    }
    if v.Obj? {
      assert (forall m | m in v.members :: m.key in ds) <==> forall i | 0 <= i < |v.members| :: v.members[i].key in ds;
    }
  }

  lemma FieldMeans(f: Field, v: Json)
    requires f != ActionName
    ensures FieldOk(f, v) <==> IsOfKind(v, KindOf(f))
  {
    UriMeans(v);
    HexMeans(v, 64);
    HexMeans(v, 128);
    DimensionsMean(v);
  }

  lemma ActionMeans(r: Receipt)
    requires Complete(r)
    ensures BoundAction(r) <==> SpellsAction(r)
    ensures SpellsAction(r) ==> FieldOk(ActionName, r.fields[ActionName]) && r.fields[ActionName].Str?
  {
  }

  /** The profile: all 22 fields and no other, each of its kind, the action spelling tool and
      parameter hash. Everything else is refused. */
  lemma ConformsMeans(r: Receipt)
    ensures Conforms(r) <==>
      Complete(r) && r.extra == map[] && SpellsAction(r) && forall f: Field :: IsOfKind(r.fields[f], KindOf(f))
  {
    if Complete(r) {
      ActionMeans(r);
      forall f: Field | f != ActionName ensures Fits(r, f) <==> IsOfKind(r.fields[f], KindOf(f)) {
        FieldMeans(f, r.fields[f]);
      }
      assert SpellsAction(r) ==> Fits(r, ActionName) && IsOfKind(r.fields[ActionName], KindOf(ActionName));
    }
  }

  /** Inputs on which profile_checks raises instead of reporting. */
  predicate ProfileRaises(r: Receipt) {
    && Complete(r)
    && (|| Unhashable(r.fields[Verdict]) || Unhashable(r.fields[ReceiptStatus])
        || DimensionsCheck(r.fields[Dimensions]) == None)
  }

  // ---- the list of checks ----

  datatype Check = Check(name: string, ok: bool)

  const CHECKED_FIELDS: seq<Field> := [
    TraceId, Verdict, Timestamp, Tool, ParamsHash, RuleSummary, VerifiedAt, BlockReason,
    RequestHash, ResponseHash, RuntimeContextHash, ActionName, Issuer, Audience, Nonce,
    Sequence, ExpiresAt, ConfigHash, ReceiptStatus, KeyId, Signature]

  lemma CheckedUnlessDimensions(f: Field) returns (i: nat)
    requires f != Dimensions
    ensures i < |CHECKED_FIELDS| && CHECKED_FIELDS[i] == f
  {
    if f == Signature {
      i := 20;
    } else {
      var j := SignedUnlessSignature(f);
      i := if j < 18 then j else j - 1;
    }
  }

  predicate AllOk(checks: seq<Check>) {
    forall c | c in checks :: c.ok
  }

  function FieldChecks(r: Receipt): (checks: seq<Check>)
    requires Complete(r)
    ensures |checks| == |CHECKED_FIELDS|
  {
    seq(|CHECKED_FIELDS|, i requires 0 <= i < |CHECKED_FIELDS| =>
      Check(Name(CHECKED_FIELDS[i]), FieldOk(CHECKED_FIELDS[i], r.fields[CHECKED_FIELDS[i]])))
  }

  lemma FieldChecksMean(r: Receipt)
    requires Complete(r)
    ensures AllOk(FieldChecks(r)) <==> forall f: Field | f != Dimensions :: Fits(r, f)
  {
    var checks := FieldChecks(r);
    if AllOk(checks) {
      forall f: Field | f != Dimensions ensures Fits(r, f) {
        var i := CheckedUnlessDimensions(f);
        assert checks[i] in checks;
      }
    }
    if forall f: Field | f != Dimensions :: Fits(r, f) {
      forall i | 0 <= i < |checks| ensures checks[i].ok {
        assert Fits(r, CHECKED_FIELDS[i]);
      }
    }
  }

  lemma AllOkAppend(a: seq<Check>, b: seq<Check>)
    ensures AllOk(a + b) <==> AllOk(a) && AllOk(b)
  {
    forall c ensures c in a + b <==> c in a || c in b {
    }
    assert AllOk(a + b) ==> AllOk(a) && AllOk(b) by {
      assert forall c | c in a :: c in a + b;
      assert forall c | c in b :: c in a + b;
    }
  }

  function BindingCheck(r: Receipt): seq<Check>
    requires Complete(r)
  {
    if r.fields[ParamsHash].Str? && r.fields[Tool].Str? then [Check("action binding shape", BoundAction(r))] else []
  }

  lemma ChecksMean(r: Receipt, dims: bool, cs: seq<Check>)
    requires Complete(r) && DimensionsCheck(r.fields[Dimensions]) == Some(dims)
    requires cs == [Check("CCS 22-field profile", Complete(r) && r.extra == map[])] + FieldChecks(r)
      + [Check("seven dimensions", dims)] + BindingCheck(r)
    ensures AllOk(cs) <==> Conforms(r)
  {
    var a, b := [Check("CCS 22-field profile", Complete(r) && r.extra == map[])], FieldChecks(r);
    var c, d := [Check("seven dimensions", dims)], BindingCheck(r);
    AllOkConcat(a, b, c, d);
    FieldChecksMean(r);
    FieldsOkMean(r, dims);
    SingleOk(a);
    SingleOk(c);
    SingleOk(d);
  }

  lemma SingleOk(cs: seq<Check>)
    requires |cs| <= 1
    ensures AllOk(cs) <==> cs == [] || cs[0].ok
  {
    if cs != [] {
      assert cs[0] in cs;
    }
  }

  lemma AllOkConcat(a: seq<Check>, b: seq<Check>, c: seq<Check>, d: seq<Check>)
    ensures AllOk(a + b + c + d) <==> AllOk(a) && AllOk(b) && AllOk(c) && AllOk(d)
  {
    AllOkAppend(a, b);
    AllOkAppend(a + b, c);
    AllOkAppend(a + b + c, d);
  }

  lemma FieldsOkMean(r: Receipt, dims: bool)
    requires Complete(r) && DimensionsCheck(r.fields[Dimensions]) == Some(dims)
    ensures (forall f: Field :: Fits(r, f)) <==>
      dims && forall f: Field | f != Dimensions :: Fits(r, f)
    ensures (forall f: Field | f != Dimensions :: Fits(r, f)) ==> BindingCheck(r) != []
  {
    if forall f: Field :: Fits(r, f) {
      assert Fits(r, Dimensions);
    }
    if forall f: Field | f != Dimensions :: Fits(r, f) {
      assert Fits(r, ParamsHash) && Fits(r, Tool);
    }
  }

  /** The checks on anything json.loads can return, None standing for a value that is not an
      object. They all pass exactly on receipts of the profile. */
  method ProfileChecks(receipt: Option<Receipt>) returns (checks: Option<seq<Check>>)
    ensures checks.None? <==> receipt.Some? && ProfileRaises(receipt.value)
    ensures checks.Some? ==> (AllOk(checks.value) <==> receipt.Some? && Conforms(receipt.value))
  {
    if receipt.None? {
      return Some([Check("JSON object", false)]);
    }
    var r := receipt.value;
    var cs := [Check("CCS 22-field profile", Complete(r) && r.extra == map[])];
    if !Complete(r) {
      assert cs[0] in cs;
      return Some(cs);
    }
    if Unhashable(r.fields[Verdict]) || Unhashable(r.fields[ReceiptStatus]) {
      return None;
    }
    var dims := DimensionsCheck(r.fields[Dimensions]);
    if dims.None? {
      return None;
    }
    cs := cs + FieldChecks(r);
    cs := cs + [Check("seven dimensions", dims.value)];
    if r.fields[ParamsHash].Str? && r.fields[Tool].Str? {
      cs := cs + [Check("action binding shape", BoundAction(r))];
    }
    ChecksMean(r, dims.value, cs);
    checks := Some(cs);
  }

  // ---- the report ----

  datatype Report = Report(profileValid: bool, signatureValid: bool, authentic: bool, unexpired: bool,
                           authorizingNow: bool)

  predicate Authentic(verify: Verifying, r: Receipt) {
    Conforms(r) && CheckSignature(verify, r).Verified?
  }

  /** An authentic, unexpired allow. */
  predicate Live(verify: Verifying, r: Receipt, now: int) {
    Authentic(verify, r) && now <= Expiry(r) && r.fields[Verdict] == Str("allow")
  }

  function Expiry(r: Receipt): int
    requires Conforms(r)
  {
    assert Fits(r, ExpiresAt);
    r.fields[ExpiresAt].i
  }

  /** The largest bound below which a double holds every integer. */
  const EXACT: int := 0x20_0000_0000_0000

  /** float() of an integer: the double nearest to it, itself an integer where it is not exact;
      None for OverflowError. */
  type FloatOf = f: int -> Option<int> | forall i | -EXACT <= i <= EXACT :: f(i) == Some(i)
    witness (i: int) => Some(i)

  /** now <= float(expires_at) */
  predicate Fresh(float: FloatOf, r: Receipt, now: int)
    requires Conforms(r)
  {
    float(Expiry(r)).Some? && now <= float(Expiry(r)).value
  }

  predicate AuthorizingNow(verify: Verifying, float: FloatOf, r: Receipt, now: int) {
    && Authentic(verify, r) && Fresh(float, r, now)
    && r.fields[Verdict] == Str("allow") && r.fields[ReceiptStatus] == Str("admission")
  }

  /** float() raises for the expiry of an authentic receipt. */
  predicate ExpiryOverflows(verify: Verifying, float: FloatOf, r: Receipt) {
    Authentic(verify, r) && float(Expiry(r)).None?
  }

  lemma ConformsNotRaises(r: Receipt)
    requires Conforms(r)
    ensures !ProfileRaises(r)
  {
    assert Fits(r, Verdict) && Fits(r, ReceiptStatus) && Fits(r, Dimensions);
  }

  method VerifyReceipt(receipt: Option<Receipt>, verify: Verifying, float: FloatOf, now: int)
    returns (report: Option<Report>)
    ensures report.None? <==>
      receipt.Some? && (ProfileRaises(receipt.value) || ExpiryOverflows(verify, float, receipt.value))
    ensures report.Some? ==>
      && (report.value.profileValid <==> receipt.Some? && Conforms(receipt.value))
      && (report.value.signatureValid <==>
           receipt.Some? && Conforms(receipt.value) && CheckSignature(verify, receipt.value).Verified?)
      && (report.value.authentic <==> receipt.Some? && Authentic(verify, receipt.value))
      && (report.value.unexpired <==>
           receipt.Some? && Authentic(verify, receipt.value) && Fresh(float, receipt.value, now))
      && (report.value.authorizingNow <==> receipt.Some? && AuthorizingNow(verify, float, receipt.value, now))
  {
    var checks := ProfileChecks(receipt);
    if checks.None? {
      return None;
    }
    var profileValid := AllOk(checks.value);
    var signatureValid := false;
    if profileValid {
      signatureValid := CheckSignature(verify, receipt.value).Verified?;
    }
    var authentic := profileValid && signatureValid;
    var unexpired := false;
    if authentic {
      ConformsNotRaises(receipt.value);
      var expires := float(Expiry(receipt.value));
      if expires.None? {
        return None;
      }
      unexpired := now <= expires.value;
    }
    var authorizing :=
      && unexpired && receipt.value.fields[ReceiptStatus] == Str("admission")
      && receipt.value.fields[Verdict] == Str("allow");
    report := Some(Report(profileValid, signatureValid, authentic, unexpired, authorizing));
  }

  // ---- the two verifiers ----

  const AUTHORIZING := Options(None, None, true, true)

  lemma ConformingHasKey(r: Receipt)
    requires Conforms(r)
    ensures HasReplayKey(r)
  {
    assert Fits(r, Issuer) && Fits(r, Nonce);
  }

  lemma StatusesSplit(v: Json)
    requires IsOneOf(v, RECEIPT_STATUSES)
    ensures v != Str("consumed") && v != Str("unavailable") <==> v in {Str("admission"), Str("finalized")}
  {
    assert "consumed"[0] != "admission"[0] && "consumed"[0] != "finalized"[0];
    assert "unavailable"[0] != "admission"[0] && "unavailable"[0] != "finalized"[0];
  }

  lemma GuardsStage(signature: SignatureCheck, r: Receipt, now: int)
    requires Complete(r) && r.fields[ExpiresAt].Int? && r.fields[ReceiptStatus].Str?
    ensures GuardsBefore(signature, r, AUTHORIZING, now).Accepted? <==>
      && signature.Verified? && now <= r.fields[ExpiresAt].i
      && r.fields[ReceiptStatus] != Str("consumed") && r.fields[ReceiptStatus] != Str("unavailable")
  {
  }

  lemma ConformingGuards(signature: SignatureCheck, r: Receipt, now: int)
    requires Conforms(r)
    ensures GuardsBefore(signature, r, AUTHORIZING, now).Accepted? <==>
      && signature.Verified? && now <= Expiry(r) && r.fields[ReceiptStatus] in {Str("admission"), Str("finalized")}
  {
    assert Fits(r, ExpiresAt) && Fits(r, ReceiptStatus);
    StatusesSplit(r.fields[ReceiptStatus]);
    GuardsStage(signature, r, now);
  }

  lemma AcceptedStages(h: Digest, show: Shown, verify: Verifying, r: Receipt, now: int, replay: Option<set<ReplayKey>>)
    requires Complete(r) && HasReplayKey(r)
    ensures Validate(h, show, verify, r, AUTHORIZING, now, replay).Accepted? <==>
      && GuardsBefore(CheckSignature(verify, r), r, AUTHORIZING, now).Accepted?
      && (replay.Some? ==> KeyOf(r) !in replay.value) && r.fields[Verdict] == Str("allow")
  {
  }

  /** On the profile, the core's fresh, authorizing `validate` accepts exactly the authentic,
      unexpired allow receipts of status admission or finalized whose key is not consumed,
      consumption being visible only with a store. */
  lemma CoreAccepts(h: Digest, show: Shown, verify: Verifying, r: Receipt, now: int, replay: Option<set<ReplayKey>>)
    requires Conforms(r)
    ensures HasReplayKey(r)
    ensures Validate(h, show, verify, r, AUTHORIZING, now, replay).Accepted? <==>
      && Live(verify, r, now) && r.fields[ReceiptStatus] in {Str("admission"), Str("finalized")}
      && (replay.Some? ==> KeyOf(r) !in replay.value)
  {
    ConformingHasKey(r);
    ConformingGuards(CheckSignature(verify, r), r, now);
    AcceptedStages(h, show, verify, r, now, replay);
  }

  /** Integer comparison and comparison with the rounded expiry say the same. */
  predicate SameFreshness(float: FloatOf, r: Receipt, now: int)
    requires Conforms(r)
  {
    Fresh(float, r, now) <==> now <= Expiry(r)
  }

  /** The two verifiers agree: on every receipt of the profile whose expiry a double holds,
      authorizing_now holds exactly when the core accepts and the status is admission. Beyond
      that they disagree exactly on the authentic allow admissions that rounding makes fresh or
      stale. */
  lemma VerifiersAgree(h: Digest, show: Shown, verify: Verifying, float: FloatOf, r: Receipt, now: int)
    requires Conforms(r)
    ensures (AuthorizingNow(verify, float, r, now) <==>
        Validate(h, show, verify, r, AUTHORIZING, now, None).Accepted? && r.fields[ReceiptStatus] == Str("admission"))
      <==> (SameFreshness(float, r, now) || !Authentic(verify, r)
            || r.fields[Verdict] != Str("allow") || r.fields[ReceiptStatus] != Str("admission"))
    ensures -EXACT <= Expiry(r) <= EXACT ==> SameFreshness(float, r, now)
  {
    CoreAccepts(h, show, verify, r, now, None);
  }

  /** Where they differ on the profile, rounding apart: the core also lets a finalized receipt
      authorize. */
  lemma VerifiersDifferOn(h: Digest, show: Shown, verify: Verifying, float: FloatOf, r: Receipt, now: int)
    requires Conforms(r) && SameFreshness(float, r, now)
    ensures (AuthorizingNow(verify, float, r, now) <==> Validate(h, show, verify, r, AUTHORIZING, now, None).Accepted?)
      <==> !(Live(verify, r, now) && r.fields[ReceiptStatus] == Str("finalized"))
  {
    CoreAccepts(h, show, verify, r, now, None);
    assert "admission"[0] != "finalized"[0];
  }

  /** authorizing_now is lost at one moment and for good; the clock changes nothing else. */
  lemma AuthorizationOnlyExpires(verify: Verifying, float: FloatOf, r: Receipt, now: int, later: int)
    requires now <= later && AuthorizingNow(verify, float, r, later)
    ensures AuthorizingNow(verify, float, r, now)
    ensures forall t :: AuthorizingNow(verify, float, r, t) <==> t <= float(Expiry(r)).value
  {
  }

  /** A receipt on which rounding divides them: an expiry that rounds up, at the rounded time. */
  lemma LargeExpiryDivides(h: Digest, show: Shown, verify: Verifying, float: FloatOf, r: Receipt)
    requires Authentic(verify, r) && r.fields[Verdict] == Str("allow") && r.fields[ReceiptStatus] == Str("admission")
    requires Expiry(r) == EXACT + 3 && float(EXACT + 3) == Some(EXACT + 4)
    ensures AuthorizingNow(verify, float, r, EXACT + 4)
    ensures !Validate(h, show, verify, r, AUTHORIZING, EXACT + 4, None).Accepted?
  {
    CoreAccepts(h, show, verify, r, EXACT + 4, None);
  }

  // ---- what the verifier issues conforms ----

  lemma {:induction false} AllStatusesHold(ms: seq<Member>, ds: seq<string>)
    requires forall d | d in ds :: Lookup(ms, d).Some? && IsOneOf(Lookup(ms, d).value, STATUS_VALUES)
    ensures AllStatuses(ms, ds) == Some(true)
  {
    if ds != [] {
      AllStatusesHold(ms, ds[1..]);
    }
  }

  lemma DimensionsConform(dims: map<string, string>)
    requires forall d | d in Aggregation.DIMENSIONS :: d in dims && dims[d] in STATUS_VALUES
    ensures DimensionsCheck(Verifier.DimensionsValue(dims)) == Some(true)
  {
    var ds := Aggregation.DIMENSIONS;
    var values := Verifier.DimensionValues(dims, ds);
    var ms := Record(ds, values).members;
    Aggregation.DimensionsDistinct();
    forall d | d in ds ensures Lookup(ms, d) == Some(Str(dims[d])) {
      var i :| 0 <= i < |ds| && ds[i] == d;
      LookupInRecord(ds, values, i);
    }
    forall m | m in ms ensures m.key in ds {
    }
    AllStatusesHold(ms, ds);
  }

  lemma DecidedDimensionsConform(rules: seq<Verifier.Rule>, config: Value, c: Command)
    ensures DimensionsCheck(Verifier.Decide(rules, config, c).dimensions) == Some(true)
    ensures Verifier.Decide(rules, config, c).verdict in VERDICTS
  {
    Verifier.AllowMeans(rules, config, c);
    match Verifier.Evaluate(rules, c)
    case Aborted(_) =>
      DimensionsConform(Verifier.EXCEPTION_DIMENSIONS);
    case Completed(rs) =>
      forall d | d in Aggregation.DIMENSIONS ensures Aggregation.Dimension(rs, d) in STATUS_VALUES {
        Aggregation.DimensionMeans(rs, d);
      }
      DimensionsConform(Aggregation.Dimensions(rs));
  }

  /** The fields a caller or an operator chooses. */
  predicate Presentable(cfg: Config, c: Command, nonce: string) {
    && IsTextOf(c.traceId, 16) && IsTextOf(c.tool, 1)
    && cfg.issuer != "" && cfg.audience != "" && cfg.keyId != "" && |nonce| >= 16
  }

  lemma UrisConform(h: Digest, v: Json)
    ensures IsSha256Uri(Str(Sha256Uri(h, v)))
  {
    assert Sha256Uri(h, v)[7..] == Sha256Hex(h, v);
  }

  lemma ActionsConform(tool: string, hash: string)
    ensures At(Action(tool, hash), 0, ACTION_PREFIX)
  {
  }

  lemma AdmissionTextsConform(h: Digest, show: Shown, cfg: Config, c: Command, d: Decision, now: int, nonce: string,
                              n: nat, f: Field)
    requires Presentable(cfg, c, nonce)
    requires f in {TraceId, Timestamp, Tool, RuleSummary, VerifiedAt, BlockReason, ResponseHash, Issuer, Audience,
      Nonce, ExpiresAt, KeyId}
    ensures FieldOk(f, AdmissionField(h, show, cfg, c, d, now, nonce, n, f))
  {
  }

  lemma AdmissionHashesConform(h: Digest, show: Shown, cfg: Config, c: Command, d: Decision, now: int, nonce: string,
                               n: nat, f: Field)
    requires f in {ParamsHash, RequestHash, RuntimeContextHash, ActionName, ConfigHash}
    ensures FieldOk(f, AdmissionField(h, show, cfg, c, d, now, nonce, n, f))
  {
    UrisConform(h, Wire(c));
    UrisConform(h, c.context);
    UrisConform(h, d.config);
    ActionsConform(show(c.tool), Sha256Hex(h, c.params));
  }

  lemma AdmissionOutcomeConforms(h: Digest, show: Shown, cfg: Config, c: Command, d: Decision, now: int,
                                 nonce: string, n: nat, f: Field)
    requires DimensionsCheck(d.dimensions) == Some(true) && d.verdict in VERDICTS
    requires f in {Verdict, Sequence, Dimensions, ReceiptStatus}
    ensures FieldOk(f, AdmissionField(h, show, cfg, c, d, now, nonce, n, f))
  {
  }

  lemma AdmissionFieldConforms(h: Digest, show: Shown, cfg: Config, c: Command, d: Decision, now: int, nonce: string,
                               n: nat, f: Field)
    requires Presentable(cfg, c, nonce) && f != Signature
    requires DimensionsCheck(d.dimensions) == Some(true) && d.verdict in VERDICTS
    ensures FieldOk(f, AdmissionField(h, show, cfg, c, d, now, nonce, n, f))
  {
    if f in {ParamsHash, RequestHash, RuntimeContextHash, ActionName, ConfigHash} {
      AdmissionHashesConform(h, show, cfg, c, d, now, nonce, n, f);
    } else if f in {Verdict, Sequence, Dimensions, ReceiptStatus} {
      AdmissionOutcomeConforms(h, show, cfg, c, d, now, nonce, n, f);
    } else {
      AdmissionTextsConform(h, show, cfg, c, d, now, nonce, n, f);
    }
  }

  lemma AdmissionBindsAction(h: Digest, show: Shown, sign: Signing, cfg: Config, c: Command, d: Decision, now: int,
                             nonce: string, n: nat)
    requires c.tool.Str?
    ensures BoundAction(SignedBy(sign, Admission(h, show, cfg, c, d, now, nonce, n)))
  {
    var r := Admission(h, show, cfg, c, d, now, nonce, n);
    AdmissionAction(h, show, cfg, c, d, now, nonce, n);
    SameAction(r, SignedBy(sign, r));
  }

  lemma AdmissionAction(h: Digest, show: Shown, cfg: Config, c: Command, d: Decision, now: int, nonce: string, n: nat)
    requires c.tool.Str?
    ensures BoundAction(Admission(h, show, cfg, c, d, now, nonce, n))
  {
    ShowsText(show, c.tool);
    AdmissionTool(h, show, cfg, c, d, now, nonce, n);
    AdmissionParamsHash(h, show, cfg, c, d, now, nonce, n);
    AdmissionActionName(h, show, cfg, c, d, now, nonce, n);
    BoundBy(Admission(h, show, cfg, c, d, now, nonce, n), show(c.tool), Sha256Hex(h, c.params));
  }

  lemma ShowsText(show: Shown, v: Value)
    requires v.Str?
    ensures show(v) == v.s
  {
    assert v == Str(v.s);
  }

  lemma BoundBy(r: Receipt, tool: string, hash: string)
    requires Complete(r) && r.fields[Tool] == Str(tool) && r.fields[ParamsHash] == Str(hash)
    requires r.fields[ActionName] == Str(Action(tool, hash))
    ensures BoundAction(r)
  {
  }

  lemma PresentableConforms(h: Digest, show: Shown, sign: Signing, cfg: Config, c: Command, d: Decision, now: int,
                            nonce: string, n: nat)
    requires Presentable(cfg, c, nonce)
    requires DimensionsCheck(d.dimensions) == Some(true) && d.verdict in VERDICTS
    ensures Conforms(SignedBy(sign, Admission(h, show, cfg, c, d, now, nonce, n)))
  {
    var out := SignedBy(sign, Admission(h, show, cfg, c, d, now, nonce, n));
    AdmissionBindsAction(h, show, sign, cfg, c, d, now, nonce, n);
    forall f: Field ensures Fits(out, f) {
      SignedFieldConforms(h, show, sign, cfg, c, d, now, nonce, n, f);
    }
  }

  lemma SignedFieldConforms(h: Digest, show: Shown, sign: Signing, cfg: Config, c: Command, d: Decision, now: int,
                            nonce: string, n: nat, f: Field)
    requires Presentable(cfg, c, nonce)
    requires DimensionsCheck(d.dimensions) == Some(true) && d.verdict in VERDICTS
    ensures FieldOk(f, SignedBy(sign, Admission(h, show, cfg, c, d, now, nonce, n)).fields[f])
  {
    if f != Signature {
      AdmissionFieldConforms(h, show, cfg, c, d, now, nonce, n, f);
    }
  }

  lemma ConformingIsPresentable(h: Digest, show: Shown, sign: Signing, cfg: Config, c: Command, d: Decision, now: int,
                                nonce: string, n: nat)
    requires Conforms(SignedBy(sign, Admission(h, show, cfg, c, d, now, nonce, n)))
    ensures Presentable(cfg, c, nonce)
  {
    var out := SignedBy(sign, Admission(h, show, cfg, c, d, now, nonce, n));
    assert Fits(out, TraceId) && Fits(out, Tool) && Fits(out, Nonce);
    ConformingConfig(h, show, sign, cfg, c, d, now, nonce, n);
  }

  lemma ConformingConfig(h: Digest, show: Shown, sign: Signing, cfg: Config, c: Command, d: Decision, now: int,
                         nonce: string, n: nat)
    requires Conforms(SignedBy(sign, Admission(h, show, cfg, c, d, now, nonce, n)))
    ensures cfg.issuer != "" && cfg.audience != "" && cfg.keyId != ""
  {
    var out := SignedBy(sign, Admission(h, show, cfg, c, d, now, nonce, n));
    AdmissionIssuer(h, show, cfg, c, d, now, nonce, n);
    AdmissionAudience(h, show, cfg, c, d, now, nonce, n);
    AdmissionKeyId(h, show, cfg, c, d, now, nonce, n);
    NameIsNotEmpty(out, Issuer, cfg.issuer);
    NameIsNotEmpty(out, Audience, cfg.audience);
    NameIsNotEmpty(out, KeyId, cfg.keyId);
  }

  lemma NameIsNotEmpty(r: Receipt, f: Field, name: string)
    requires Conforms(r) && f in {Issuer, Audience, KeyId} && r.fields[f] == Str(name)
    ensures name != ""
  {
    assert Fits(r, f);
  }

  /** Every admission the verifier issues, whether its rules finished or one of them raised,
      conforms exactly when the caller's and the operator's texts are presentable. */
  lemma AdmissionConforms(h: Digest, show: Shown, sign: Signing, cfg: Config, rules: seq<Verifier.Rule>,
                          config: Value, c: Command, now: int, nonce: string, n: nat)
    ensures var r := Admission(h, show, cfg, c, Verifier.Decide(rules, config, c), now, nonce, n);
      Conforms(SignedBy(sign, r)) <==> Presentable(cfg, c, nonce)
  {
    var d := Verifier.Decide(rules, config, c);
    DecidedDimensionsConform(rules, config, c);
    if Presentable(cfg, c, nonce) {
      PresentableConforms(h, show, sign, cfg, c, d, now, nonce, n);
    }
    if Conforms(SignedBy(sign, Admission(h, show, cfg, c, d, now, nonce, n))) {
      ConformingIsPresentable(h, show, sign, cfg, c, d, now, nonce, n);
    }
  }

  /** What the receipt manager does to a receipt it has issued. */
  datatype Transform = Finalize(response: Value) | MarkUnavailable | Consume

  function Transformed(h: Digest, r: Receipt, t: Transform): (d: Receipt)
    requires Complete(r)
    ensures Complete(d) && d.extra == r.extra
    ensures forall f: Field | f != ReceiptStatus && f != ResponseHash :: d.fields[f] == r.fields[f]
  {
    match t
    case Finalize(response) => Finalized(h, r, response)
    case MarkUnavailable => WithStatus(r, "unavailable")
    case Consume => WithStatus(r, "consumed")
  }

  function Descendant(h: Digest, sign: Signing, r: Receipt, ts: seq<Transform>): (d: Receipt)
    requires Complete(r)
    ensures Complete(d)
    decreases |ts|
  {
    if ts == [] then r else Descendant(h, sign, SignedBy(sign, Transformed(h, r, ts[0])), ts[1..])
  }

  lemma TransformConforms(h: Digest, sign: Signing, r: Receipt, t: Transform)
    requires Conforms(r)
    ensures Conforms(SignedBy(sign, Transformed(h, r, t)))
  {
    var d := Transformed(h, r, t);
    TransformedFieldsConform(h, r, t);
    SignatureConforms(r, d, SignatureText(sign, d));
  }

  lemma TransformedFieldsConform(h: Digest, r: Receipt, t: Transform)
    requires Conforms(r)
    ensures var d := Transformed(h, r, t);
      Fits(d, ResponseHash) && Fits(d, ReceiptStatus)
  {
    match t
    case Finalize(response) =>
      UrisConform(h, response);
      ResponseConforms(r, Sha256Uri(h, response));
    case MarkUnavailable => StatusConforms(r, "unavailable");
    case Consume => StatusConforms(r, "consumed");
  }

  lemma ResponseConforms(r: Receipt, uri: string)
    requires Complete(r) && IsSha256Uri(Str(uri))
    ensures var d := WithResponse(r, uri);
      Complete(d) && Fits(d, ResponseHash) && Fits(d, ReceiptStatus)
  {
  }

  lemma StatusConforms(r: Receipt, status: string)
    requires Conforms(r) && status in RECEIPT_STATUSES
    ensures var d := WithStatus(r, status);
      Complete(d) && Fits(d, ResponseHash) && Fits(d, ReceiptStatus)
  {
    assert Fits(r, ResponseHash);
  }

  lemma SignatureConforms(r: Receipt, d: Receipt, hex: string)
    requires Conforms(r) && Complete(d) && d.extra == r.extra && IsLowerHexText(hex, 128)
    requires forall f: Field | f != ReceiptStatus && f != ResponseHash :: d.fields[f] == r.fields[f]
    requires Fits(d, ResponseHash) && Fits(d, ReceiptStatus)
    ensures Conforms(WithSignature(d, hex))
  {
    CoreConforms(r, WithSignature(d, hex));
  }

  lemma CoreConforms(r: Receipt, d: Receipt)
    requires Conforms(r) && Complete(d) && d.extra == r.extra
    requires forall f: Field | InCore(f) :: d.fields[f] == r.fields[f]
    requires Fits(d, ResponseHash) && Fits(d, ReceiptStatus)
    requires Fits(d, Signature)
    ensures Conforms(d)
  {
    forall f: Field ensures Fits(d, f) {
      if InCore(f) {
        assert Fits(r, f);
      }
    }
    SameAction(r, d);
  }

  lemma SameAction(r: Receipt, d: Receipt)
    requires Complete(r) && BoundAction(r) && Complete(d)
    requires forall f: Field | InCore(f) :: d.fields[f] == r.fields[f]
    ensures BoundAction(d)
  {
    assert d.fields[Tool] == r.fields[Tool] && d.fields[ParamsHash] == r.fields[ParamsHash];
    assert d.fields[ActionName] == r.fields[ActionName];
  }

  lemma SignatureVerifies(sign: Signing, verify: Verifying, r: Receipt)
    requires Matching(sign, verify) && Signable(r)
    ensures CheckSignature(verify, SignedBy(sign, r)).Verified?
  {
    CheckIsOfSignature(sign, verify, r);
  }

  lemma SignedIsAuthentic(sign: Signing, verify: Verifying, r: Receipt)
    requires Matching(sign, verify) && Signable(r) && Conforms(SignedBy(sign, r))
    ensures Authentic(verify, SignedBy(sign, r))
  {
    SignatureVerifies(sign, verify, r);
  }

  lemma {:induction false} DescendantIsAuthentic(h: Digest, sign: Signing, verify: Verifying, r: Receipt,
                                                 ts: seq<Transform>)
    requires Matching(sign, verify) && Authentic(verify, r)
    ensures Authentic(verify, Descendant(h, sign, r, ts))
    decreases |ts|
  {
    if ts != [] {
      var next := Transformed(h, r, ts[0]);
      TransformConforms(h, sign, r, ts[0]);
      SignedIsAuthentic(sign, verify, next);
      DescendantIsAuthentic(h, sign, verify, SignedBy(sign, next), ts[1..]);
    }
  }

  /** Completeness of public verification: every admission the verifier issues for a
      presentable command, and everything made from it by finalize, mark_unavailable and
      consume in any order and number, is reported authentic. */
  lemma IssuedIsAuthentic(h: Digest, show: Shown, sign: Signing, verify: Verifying, cfg: Config,
                          rules: seq<Verifier.Rule>,
                          config: Value, c: Command, now: int, nonce: string, n: nat, ts: seq<Transform>)
    requires Matching(sign, verify) && Presentable(cfg, c, nonce)
    ensures var r := Admission(h, show, cfg, c, Verifier.Decide(rules, config, c), now, nonce, n);
      Authentic(verify, Descendant(h, sign, SignedBy(sign, r), ts))
  {
    var r := Admission(h, show, cfg, c, Verifier.Decide(rules, config, c), now, nonce, n);
    AdmissionConforms(h, show, sign, cfg, rules, config, c, now, nonce, n);
    SignedIsAuthentic(sign, verify, r);
    DescendantIsAuthentic(h, sign, verify, SignedBy(sign, r), ts);
  }

  // ---- receipts that divide the two verifiers ----

  lemma LiveFinalized(h: Digest, show: Shown, verify: Verifying, float: FloatOf, f: Receipt, now: int)
    requires Live(verify, f, now) && f.fields[ReceiptStatus] == Str("finalized")
    ensures Validate(h, show, verify, f, AUTHORIZING, now, None).Accepted? && !AuthorizingNow(verify, float, f, now)
  {
    CoreAccepts(h, show, verify, f, now, None);
    assert "admission"[0] != "finalized"[0];
  }

  lemma FinalizedFields(h: Digest, r: Receipt, response: Value)
    requires Complete(r)
    ensures var d := Transformed(h, r, Finalize(response));
      && d.fields[ReceiptStatus] == Str("finalized")
      && d.fields[Verdict] == r.fields[Verdict] && d.fields[ExpiresAt] == r.fields[ExpiresAt]
  {
    FinalizedHolds(h, r, response);
    FinalizedCore(h, r, response, Verdict);
    FinalizedCore(h, r, response, ExpiresAt);
  }

  lemma FinalizedIsLive(h: Digest, sign: Signing, verify: Verifying, r: Receipt, response: Value, now: int)
    requires Matching(sign, verify) && Live(verify, r, now)
    ensures var f := SignedBy(sign, Transformed(h, r, Finalize(response)));
      Live(verify, f, now) && f.fields[ReceiptStatus] == Str("finalized")
  {
    TransformConforms(h, sign, r, Finalize(response));
    SignedIsAuthentic(sign, verify, Transformed(h, r, Finalize(response)));
    FinalizedFields(h, r, response);
  }

  /** Finalizing a receipt that authorizes gives one that only the core still accepts. */
  lemma FinalizedDivides(h: Digest, show: Shown, sign: Signing, verify: Verifying, float: FloatOf,
                         r: Receipt, response: Value, now: int)
    requires Matching(sign, verify) && AuthorizingNow(verify, float, r, now) && SameFreshness(float, r, now)
    ensures var f := SignedBy(sign, Transformed(h, r, Finalize(response)));
      && Validate(h, show, verify, f, AUTHORIZING, now, None).Accepted?
      && !AuthorizingNow(verify, float, f, now)
  {
    FinalizedIsLive(h, sign, verify, r, response, now);
    LiveFinalized(h, show, verify, float, SignedBy(sign, Transformed(h, r, Finalize(response))), now);
  }

  lemma AuthorizesUntil(verify: Verifying, float: FloatOf, r: Receipt, expiry: int, t: int)
    requires Authentic(verify, r) && r.fields[ExpiresAt] == Int(expiry) && -EXACT <= expiry <= EXACT && t <= expiry
    requires r.fields[Verdict] == Str("allow") && r.fields[ReceiptStatus] == Str("admission")
    ensures AuthorizingNow(verify, float, r, t)
  {
  }

  /** And every allow the verifier issues for a presentable command authorizes until it expires,
      so that there are such receipts. */
  lemma AllowAuthorizes(h: Digest, show: Shown, sign: Signing, verify: Verifying, float: FloatOf, cfg: Config,
                        rules: seq<Verifier.Rule>, config: Value, c: Command, now: int, nonce: string, n: nat, t: int)
    requires Matching(sign, verify) && Presentable(cfg, c, nonce)
    requires Verifier.Decide(rules, config, c).verdict == "allow"
    requires t <= now + cfg.ttl && -EXACT <= now + cfg.ttl <= EXACT
    ensures var r := Admission(h, show, cfg, c, Verifier.Decide(rules, config, c), now, nonce, n);
      AuthorizingNow(verify, float, SignedBy(sign, r), t)
  {
    var d := Verifier.Decide(rules, config, c);
    AdmissionConforms(h, show, sign, cfg, rules, config, c, now, nonce, n);
    AllowedAdmission(h, show, sign, verify, float, cfg, c, d, now, nonce, n, t);
  }

  lemma AllowedAdmission(h: Digest, show: Shown, sign: Signing, verify: Verifying, float: FloatOf, cfg: Config,
                         c: Command, d: Decision, now: int, nonce: string, n: nat, t: int)
    requires Matching(sign, verify) && d.verdict == "allow"
    requires Conforms(SignedBy(sign, Admission(h, show, cfg, c, d, now, nonce, n)))
    requires t <= now + cfg.ttl && -EXACT <= now + cfg.ttl <= EXACT
    ensures AuthorizingNow(verify, float, SignedBy(sign, Admission(h, show, cfg, c, d, now, nonce, n)), t)
  {
    var r := Admission(h, show, cfg, c, d, now, nonce, n);
    if !AuthorizingNow(verify, float, SignedBy(sign, r), t) {
      AdmissionVerdict(h, show, cfg, c, d, now, nonce, n);
      AdmissionStatus(h, show, cfg, c, d, now, nonce, n);
      AdmissionExpiry(h, show, cfg, c, d, now, nonce, n);
      SignedAuthorizes(sign, verify, float, r, now + cfg.ttl, t);
    }
  }

  lemma SignedAuthorizes(sign: Signing, verify: Verifying, float: FloatOf, r: Receipt, expiry: int, t: int)
    requires Matching(sign, verify) && Signable(r) && Conforms(SignedBy(sign, r))
    requires r.fields[ExpiresAt] == Int(expiry) && -EXACT <= expiry <= EXACT && t <= expiry
    requires r.fields[Verdict] == Str("allow") && r.fields[ReceiptStatus] == Str("admission")
    ensures AuthorizingNow(verify, float, SignedBy(sign, r), t)
  {
    SignedIsAuthentic(sign, verify, r);
    AuthorizesUntil(verify, float, SignedBy(sign, r), expiry, t);
  }
}
