/** Rule results grouped into the seven dimensions and the verdict. The Python verifier groups
    in one pass over a dictionary of lists; the JavaScript guardrail filters once per
    dimension. */
module Aggregation {
  import opened Text

  const DIMENSIONS: seq<string> :=
    ["structure", "schema", "latency", "cost", "identity", "integrity", "security"]

  lemma DimensionsDistinct()
    ensures forall i, j | 0 <= i < j < |DIMENSIONS| :: DIMENSIONS[i] != DIMENSIONS[j]
  {
    forall i, j | 0 <= i < j < |DIMENSIONS| ensures DIMENSIONS[i] != DIMENSIONS[j] {
      var a, b := DIMENSIONS[i], DIMENSIONS[j];
      assert a[0] != b[0] || a[1] != b[1] || a[2] != b[2] || |a| != |b|;
    }
  }

  /** status is "pass", "fail" or "unknown"; the code treats any other text like "pass". */
  datatype RuleResult = RuleResult(name: string, dimension: string, status: string, reason: string)

  // ---- the guardrail's expressions ----

  /** rr.filter(x => x.dimension === d).map(x => x.status) */
  function StatusesOf(rs: seq<RuleResult>, d: string): seq<string> {
    if rs == [] then []
    else (if rs[0].dimension == d then [rs[0].status] else []) + StatusesOf(rs[1..], d)
  }

  function Combined(statuses: seq<string>): string {
    if "fail" in statuses then "fail"
    else if "unknown" in statuses || statuses == [] then "unknown"
    else "pass"
  }

  function Dimension(rs: seq<RuleResult>, d: string): string {
    Combined(StatusesOf(rs, d))
  }

  function Dimensions(rs: seq<RuleResult>): map<string, string> {
    map d | d in DIMENSIONS :: Dimension(rs, d)
  }

  function Verdict(dims: map<string, string>): string {
    if "fail" in dims.Values then "deny" else if "unknown" in dims.Values then "escalate" else "allow"
  }

  function Decided(rs: seq<RuleResult>): string {
    Verdict(Dimensions(rs))
  }

  // ---- the verifier's loops ----

  function Bucket(bydim: map<string, seq<string>>, d: string): seq<string> {
    if d in bydim then bydim[d] else []
  }

  lemma GroupStep(bydim: map<string, seq<string>>, rs: seq<RuleResult>, i: nat, next: map<string, seq<string>>)
    requires i < |rs| && forall d :: Bucket(bydim, d) == StatusesOf(rs[..i], d)
    requires next == bydim[rs[i].dimension := Bucket(bydim, rs[i].dimension) + [rs[i].status]]
    ensures forall d :: Bucket(next, d) == StatusesOf(rs[..i + 1], d)
  {
    var r := rs[i];
    assert rs[..i + 1] == rs[..i] + [r];
    forall d ensures Bucket(next, d) == StatusesOf(rs[..i + 1], d) {
      StatusesOfAppend(rs[..i], [r], d);
      assert StatusesOf([r], d) == if r.dimension == d then [r.status] else [];
    }
  }

  /** One pass: bydim[r.dimension].append(r.status). */
  method Group(rs: seq<RuleResult>) returns (bydim: map<string, seq<string>>)
    ensures forall d :: Bucket(bydim, d) == StatusesOf(rs, d)
  {
    bydim := map[];
    for i := 0 to |rs|
      invariant forall d :: Bucket(bydim, d) == StatusesOf(rs[..i], d)
    {
      var next := bydim[rs[i].dimension := Bucket(bydim, rs[i].dimension) + [rs[i].status]];
      GroupStep(bydim, rs, i, next);
      bydim := next;
    }
    assert rs[..|rs|] == rs;
  }

  /** The verifier's dimensions are the guardrail's. */
  method GroupedDimensions(rs: seq<RuleResult>) returns (dims: map<string, string>)
    ensures dims == Dimensions(rs)
  {
    var bydim := Group(rs);
    dims := map[];
    for i := 0 to |DIMENSIONS|
      invariant dims.Keys == set d | d in DIMENSIONS[..i]
      invariant forall d | d in dims :: dims[d] == Dimension(rs, d)
    {
      var d := DIMENSIONS[i];
      var vals := Bucket(bydim, d);
      if "fail" in vals {
        dims := dims[d := "fail"];
      } else if "unknown" in vals || vals == [] {
        dims := dims[d := "unknown"];
      } else {
        dims := dims[d := "pass"];
      }
      assert DIMENSIONS[..i + 1] == DIMENSIONS[..i] + [d];
    }
    assert DIMENSIONS[..|DIMENSIONS|] == DIMENSIONS;
  }

  // ---- what the verdict means ----

  ghost predicate Has(rs: seq<RuleResult>, d: string, status: string) {
    exists i | 0 <= i < |rs| :: rs[i].dimension == d && rs[i].status == status
  }

  ghost predicate Represented(rs: seq<RuleResult>, d: string) {
    exists i | 0 <= i < |rs| :: rs[i].dimension == d
  }

  lemma {:induction false} StatusesOfFirst(r: RuleResult, rs: seq<RuleResult>, d: string)
    ensures StatusesOf([r] + rs, d) == (if r.dimension == d then [r.status] else []) + StatusesOf(rs, d)
  {
    assert ([r] + rs)[1..] == rs;
  }

  lemma {:induction false} StatusesOfAppend(a: seq<RuleResult>, b: seq<RuleResult>, d: string)
    ensures StatusesOf(a + b, d) == StatusesOf(a, d) + StatusesOf(b, d)
    decreases |a|
  {
    if a == [] {
      assert a + b == b;
    } else {
      StatusesOfAppend(a[1..], b, d);
      assert a + b == [a[0]] + (a[1..] + b);
      StatusesOfFirst(a[0], a[1..] + b, d);
      StatusesOfFirst(a[0], a[1..], d);
      assert [a[0]] + a[1..] == a;
    }
  }

  lemma {:induction false} StatusesOfMembers(rs: seq<RuleResult>, d: string, status: string)
    ensures status in StatusesOf(rs, d) <==> Has(rs, d, status)
    ensures StatusesOf(rs, d) != [] <==> Represented(rs, d)
    decreases |rs|
  {
    if rs != [] {
      StatusesOfMembers(rs[1..], d, status);
      if Has(rs[1..], d, status) {
        var i :| 0 <= i < |rs[1..]| && rs[1..][i].dimension == d && rs[1..][i].status == status;
        assert rs[i + 1] == rs[1..][i];
      }
      if Represented(rs[1..], d) {
        var i :| 0 <= i < |rs[1..]| && rs[1..][i].dimension == d;
        assert rs[i + 1] == rs[1..][i];
      }
      if i :| 0 < i < |rs| && rs[i].dimension == d {
        assert rs[1..][i - 1] == rs[i];
      }
      if i :| 0 < i < |rs| && rs[i].dimension == d && rs[i].status == status {
        assert rs[1..][i - 1] == rs[i];
      }
    }
  }

  lemma DimensionMeans(rs: seq<RuleResult>, d: string)
    ensures Dimension(rs, d) == "fail" <==> Has(rs, d, "fail")
    ensures Dimension(rs, d) == "unknown" <==> !Has(rs, d, "fail") && (Has(rs, d, "unknown") || !Represented(rs, d))
    ensures Dimension(rs, d) in {"pass", "fail", "unknown"}
  {
    StatusesOfMembers(rs, d, "fail");
    StatusesOfMembers(rs, d, "unknown");
  }

  ghost predicate HasAnywhere(rs: seq<RuleResult>, status: string) {
    exists d | d in DIMENSIONS :: Has(rs, d, status)
  }

  ghost predicate AllRepresented(rs: seq<RuleResult>) {
    forall d | d in DIMENSIONS :: Represented(rs, d)
  }

  lemma ValueIn(rs: seq<RuleResult>, status: string)
    ensures status in Dimensions(rs).Values <==> exists d | d in DIMENSIONS :: Dimension(rs, d) == status
  {
    var m := Dimensions(rs);
    if d :| d in DIMENSIONS && Dimension(rs, d) == status {
      assert d in m && m[d] == status;
    }
  }

  /** Deny exactly when one of the seven dimensions has a failing result; allow exactly when
      each has a result and none of its results is a failure or unknown. Results in any other
      dimension count for nothing. */
  lemma VerdictMeans(rs: seq<RuleResult>)
    ensures Decided(rs) == "deny" <==> HasAnywhere(rs, "fail")
    ensures Decided(rs) == "allow" <==>
      !HasAnywhere(rs, "fail") && !HasAnywhere(rs, "unknown") && AllRepresented(rs)
    ensures Decided(rs) in {"allow", "deny", "escalate"}
  {
    ValueIn(rs, "fail");
    ValueIn(rs, "unknown");
    forall d | d in DIMENSIONS
      ensures Dimension(rs, d) == "fail" <==> Has(rs, d, "fail")
      ensures Dimension(rs, d) == "unknown" <==> !Has(rs, d, "fail") && (Has(rs, d, "unknown") || !Represented(rs, d))
    {
      DimensionMeans(rs, d);
    }
  }

  lemma HasInPermutation(a: seq<RuleResult>, b: seq<RuleResult>, i: nat)
    requires multiset(a) == multiset(b) && i < |a|
    ensures exists j | 0 <= j < |b| :: b[j] == a[i]
  {
    assert a[i] in multiset(b);
  }

  /** The order in which rules report does not matter. */
  lemma OrderIsIrrelevant(a: seq<RuleResult>, b: seq<RuleResult>)
    requires multiset(a) == multiset(b)
    ensures Dimensions(a) == Dimensions(b) && Decided(a) == Decided(b)
  {
    forall d | d in DIMENSIONS ensures Dimension(a, d) == Dimension(b, d) {
      SameHas(a, b, d, "fail");
      SameHas(a, b, d, "unknown");
      DimensionMeans(a, d);
      DimensionMeans(b, d);
    }
  }

  lemma SameHas(a: seq<RuleResult>, b: seq<RuleResult>, d: string, status: string)
    requires multiset(a) == multiset(b)
    ensures Has(a, d, status) <==> Has(b, d, status)
    ensures Represented(a, d) <==> Represented(b, d)
  {
    forall i | 0 <= i < |a| ensures exists j | 0 <= j < |b| :: b[j] == a[i] {
      HasInPermutation(a, b, i);
    }
    forall j | 0 <= j < |b| ensures exists i | 0 <= i < |a| :: a[i] == b[j] {
      HasInPermutation(b, a, j);
    }
  }

  lemma AppendHas(a: seq<RuleResult>, b: seq<RuleResult>, status: string)
    ensures HasAnywhere(a + b, status) <==> HasAnywhere(a, status) || HasAnywhere(b, status)
  {
    forall d | d in DIMENSIONS ensures Has(a + b, d, status) <==> Has(a, d, status) || Has(b, d, status) {
      StatusesOfAppend(a, b, d);
      StatusesOfMembers(a, d, status);
      StatusesOfMembers(b, d, status);
      StatusesOfMembers(a + b, d, status);
    }
  }

  function Rank(verdict: string): nat {
    if verdict == "deny" then 0 else if verdict == "escalate" then 1 else 2
  }

  /** Deny survives any further results, and once every dimension has a result nothing that
      follows moves the verdict toward allow. */
  lemma MoreResultsNeverHelp(a: seq<RuleResult>, b: seq<RuleResult>)
    ensures Decided(a) == "deny" ==> Decided(a + b) == "deny"
    ensures AllRepresented(a) ==> Rank(Decided(a + b)) <= Rank(Decided(a))
  {
    VerdictMeans(a);
    VerdictMeans(a + b);
    AppendHas(a, b, "fail");
    AppendHas(a, b, "unknown");
  }

  const ONE_PASS_EACH: seq<RuleResult> :=
    seq(|DIMENSIONS|, i requires 0 <= i < |DIMENSIONS| => RuleResult("", DIMENSIONS[i], "pass", ""))

  /** Some continuation reaches allow exactly when nothing so far failed or was unknown. */
  lemma AllowIsReachable(a: seq<RuleResult>)
    ensures (exists b :: Decided(a + b) == "allow") <==> !HasAnywhere(a, "fail") && !HasAnywhere(a, "unknown")
  {
    if !HasAnywhere(a, "fail") && !HasAnywhere(a, "unknown") {
      PassesSuffice(a);
    }
    if b :| Decided(a + b) == "allow" {
      VerdictMeans(a + b);
      AppendHas(a, b, "fail");
      AppendHas(a, b, "unknown");
    }
  }

  lemma PassesSuffice(a: seq<RuleResult>)
    requires !HasAnywhere(a, "fail") && !HasAnywhere(a, "unknown")
    ensures Decided(a + ONE_PASS_EACH) == "allow"
  {
    var b := ONE_PASS_EACH;
    VerdictMeans(a + b);
    AppendHas(a, b, "fail");
    AppendHas(a, b, "unknown");
    forall d | d in DIMENSIONS ensures Represented(a + b, d) {
      var i :| 0 <= i < |DIMENSIONS| && DIMENSIONS[i] == d;
      assert (a + b)[|a| + i] == b[i];
    }
  }

  // ---- reasons ----

  /** next((r.reason for r in results if r.status == "fail" and r.reason), None) */
  function FirstReason(rs: seq<RuleResult>): Option<string> {
    if rs == [] then None
    else if rs[0].status == "fail" && rs[0].reason != "" then Some(rs[0].reason)
    else FirstReason(rs[1..])
  }

  predicate GivesReason(r: RuleResult) {
    r.status == "fail" && r.reason != ""
  }

  /** It is the reason of the first failure that gives one. */
  lemma {:induction false} FirstReasonIs(rs: seq<RuleResult>, k: nat)
    requires k < |rs| && GivesReason(rs[k]) && forall i | 0 <= i < k :: !GivesReason(rs[i])
    ensures FirstReason(rs) == Some(rs[k].reason)
    decreases k
  {
    if k > 0 {
      assert !GivesReason(rs[0]);
      FirstReasonIs(rs[1..], k - 1);
    }
  }

  lemma {:induction false} NoReason(rs: seq<RuleResult>)
    requires forall i | 0 <= i < |rs| :: !GivesReason(rs[i])
    ensures FirstReason(rs) == None
    decreases |rs|
  {
    if rs != [] {
      assert !GivesReason(rs[0]);
      NoReason(rs[1..]);
    }
  }

  function PythonReason(rs: seq<RuleResult>): Option<string> {
    if FirstReason(rs).None? && Decided(rs) == "escalate" then Some("one or more dimensions are unknown")
    else FirstReason(rs)
  }

  /** rr.find(x => x.status === "fail")?.reason */
  function FirstFailure(rs: seq<RuleResult>): Option<RuleResult> {
    if rs == [] then None else if rs[0].status == "fail" then Some(rs[0]) else FirstFailure(rs[1..])
  }

  function FirstFailureReason(rs: seq<RuleResult>): string {
    var first := FirstFailure(rs);
    if first.Some? then first.value.reason else ""
  }

  function JsReason(rs: seq<RuleResult>): Option<string> {
    if FirstFailureReason(rs) != "" then Some(FirstFailureReason(rs))
    else if Decided(rs) == "escalate" then Some("unknown dimension")
    else None
  }

  /** The two implementations do not report the same reason in general: JavaScript looks at
      the first failure only, and words an escalation differently. They agree exactly when the
      first failure has a reason, when no failure has one and the verdict is not escalate, or
      when the reason happens to be JavaScript's own words for an escalation. */
  lemma ReasonsAgreeIff(rs: seq<RuleResult>)
    ensures PythonReason(rs) == JsReason(rs) <==>
      || FirstFailureReason(rs) != ""
      || (FirstReason(rs).None? && Decided(rs) != "escalate")
      || (FirstReason(rs) == Some("unknown dimension") && Decided(rs) == "escalate")
  {
    FirstReasonOfFirstFailure(rs);
    if Decided(rs) == "escalate" && FirstReason(rs).None? {
      assert PythonReason(rs).value[0] == 'o' && "unknown dimension"[0] == 'u';
    }
  }

  lemma {:induction false} FirstReasonOfFirstFailure(rs: seq<RuleResult>)
    ensures FirstFailureReason(rs) != "" ==> FirstReason(rs) == Some(FirstFailureReason(rs))
    decreases |rs|
  {
    if rs != [] {
      FirstReasonOfFirstFailure(rs[1..]);
    }
  }

  /** A case where they differ: two failures, the first without a reason. */
  lemma ReasonsCanDiffer()
    ensures var rs := [RuleResult("a", "security", "fail", ""), RuleResult("b", "security", "fail", "r")];
      Decided(rs) == "deny" && PythonReason(rs) != JsReason(rs)
  {
    var a, b := RuleResult("a", "security", "fail", ""), RuleResult("b", "security", "fail", "r");
    var rs := [a, b];
    assert DIMENSIONS[6] == "security" && rs[0].dimension == "security";
    assert Has(rs, "security", "fail");
    VerdictMeans(rs);
    assert rs[1..] == [b];
    assert FirstFailure(rs) == Some(a) && FirstReason(rs) == FirstReason([b]) == Some("r");
    ReasonsAgreeIff(rs);
  }
}
