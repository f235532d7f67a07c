/** The verifier: rules run in order, their results are aggregated, and the decision is
    returned only with its admission receipt. */
module Verifier {
  import opened Text
  import opened Json
  import opened Canonical
  import opened Binding
  import opened Receipts
  import opened Storage
  import opened Manager
  import Aggregation

  /** evaluate() returns a result or raises. */
  datatype RuleOutcome = Evaluated(result: Aggregation.RuleResult) | Raised(message: string)

  type Rule = Command -> RuleOutcome

  datatype Evaluation = Completed(results: seq<Aggregation.RuleResult>) | Aborted(message: string)

  /** The results of all rules, or the first exception. */
  function Evaluate(rules: seq<Rule>, c: Command): Evaluation {
    if rules == [] then Completed([])
    else
      match rules[0](c)
      case Raised(m) => Aborted(m)
      case Evaluated(r) =>
        match Evaluate(rules[1..], c)
        case Aborted(m) => Aborted(m)
        case Completed(rs) => Completed([r] + rs)
  }

  lemma {:induction false} EvaluateNext(rules: seq<Rule>, c: Command, i: nat)
    requires i < |rules| && Evaluate(rules[..i], c).Completed?
    ensures var sofar := Evaluate(rules[..i], c).results;
      match rules[i](c)
      case Raised(m) => Evaluate(rules, c) == Aborted(m)
      case Evaluated(r) => Evaluate(rules[..i + 1], c) == Completed(sofar + [r])
    decreases i
  {
    if i == 0 {
      assert rules[..1][1..] == [];
    } else {
      assert rules[..i][1..] == rules[1..][..i - 1];
      EvaluateNext(rules[1..], c, i - 1);
      assert rules[..i + 1][1..] == rules[1..][..i];
    }
  }

  /** The dimensions dictionary of a receipt, in declaration order. */
  function DimensionsValue(dims: map<string, string>): Value
    requires forall d | d in Aggregation.DIMENSIONS :: d in dims
  {
    Aggregation.DimensionsDistinct();
    Record(Aggregation.DIMENSIONS, DimensionValues(dims, Aggregation.DIMENSIONS))
  }

  function DimensionValues(dims: map<string, string>, ds: seq<string>): (vs: seq<Value>)
    requires forall d | d in ds :: d in dims
    ensures |vs| == |ds| && forall i | 0 <= i < |ds| :: vs[i] == Str(dims[ds[i]])
  {
    if ds == [] then [] else [Str(dims[ds[0]])] + DimensionValues(dims, ds[1..])
  }

  /** dims = {d: "unknown"}, then dims["security"] = "fail". */
  const EXCEPTION_DIMENSIONS: map<string, string> :=
    map d | d in Aggregation.DIMENSIONS :: if d == "security" then "fail" else "unknown"

  function Summary(rs: seq<Aggregation.RuleResult>): string {
    if rs == [] then ""
    else if |rs| == 1 then rs[0].name + "=" + rs[0].status
    else rs[0].name + "=" + rs[0].status + "|" + Summary(rs[1..])
  }

  /** The summary grows at its end by name=status, with a bar in between. */
  lemma {:induction false} SummaryAppends(rs: seq<Aggregation.RuleResult>, r: Aggregation.RuleResult)
    ensures Summary(rs + [r]) == (if rs == [] then "" else Summary(rs) + "|") + r.name + "=" + r.status
    decreases |rs|
  {
    if rs != [] {
      var all := rs + [r];
      assert all[0] == rs[0] && all[1..] == rs[1..] + [r];
      SummaryAppends(rs[1..], r);
    }
  }

  /** What verify passes to create_admission. */
  function Decide(rules: seq<Rule>, config: Value, c: Command): Decision {
    match Evaluate(rules, c)
    case Aborted(m) =>
      Decision("deny", DimensionsValue(EXCEPTION_DIMENSIONS), "verifier_exception=fail",
               Some("verifier exception: " + m), config)
    case Completed(rs) =>
      Decision(Aggregation.Decided(rs), DimensionsValue(Aggregation.Dimensions(rs)), Summary(rs),
               Aggregation.PythonReason(rs), config)
  }

  // ---- what a decision means, over the outcomes of the rules themselves ----

  ghost predicate Raises(rules: seq<Rule>, c: Command) {
    exists i | 0 <= i < |rules| :: rules[i](c).Raised?
  }

  /** Some rule reports the status in the dimension. */
  ghost predicate Reports(rules: seq<Rule>, c: Command, d: string, status: string) {
    exists i | 0 <= i < |rules| ::
      rules[i](c).Evaluated? && rules[i](c).result.dimension == d && rules[i](c).result.status == status
  }

  ghost predicate Covered(rules: seq<Rule>, c: Command, d: string) {
    exists i | 0 <= i < |rules| :: rules[i](c).Evaluated? && rules[i](c).result.dimension == d
  }

  ghost predicate ReportsAnywhere(rules: seq<Rule>, c: Command, status: string) {
    exists d | d in Aggregation.DIMENSIONS :: Reports(rules, c, d, status)
  }

  ghost predicate Collects(rules: seq<Rule>, c: Command, rs: seq<Aggregation.RuleResult>) {
    |rs| == |rules| && forall i | 0 <= i < |rules| :: rules[i](c) == Evaluated(rs[i])
  }

  /** Evaluation completes exactly when no rule raises, and then has every outcome. */
  lemma {:induction false} EvaluateMeans(rules: seq<Rule>, c: Command)
    ensures Evaluate(rules, c).Aborted? <==> Raises(rules, c)
    ensures Evaluate(rules, c).Completed? ==> Collects(rules, c, Evaluate(rules, c).results)
    decreases |rules|
  {
    if rules != [] {
      var rest := rules[1..];
      EvaluateMeans(rest, c);
      if i :| 0 <= i < |rest| && rest[i](c).Raised? {
        assert rules[i + 1] == rest[i];
      }
      if i :| 0 <= i < |rules| && rules[i](c).Raised? {
        assert i > 0 ==> rest[i - 1] == rules[i];
      }
      forall i | 0 < i < |rules| ensures rules[i] == rest[i - 1] {
      }
    }
  }

  /** What aborts it is the first exception. */
  lemma {:induction false} AbortsOnFirst(rules: seq<Rule>, c: Command, k: nat)
    requires k < |rules| && rules[k](c).Raised? && forall i | 0 <= i < k :: rules[i](c).Evaluated?
    ensures Evaluate(rules, c) == Aborted(rules[k](c).message)
    decreases k
  {
    if k > 0 {
      AbortsOnFirst(rules[1..], c, k - 1);
    }
  }

  lemma CompletedReports(rules: seq<Rule>, c: Command, d: string, status: string)
    requires Evaluate(rules, c).Completed?
    ensures Aggregation.Has(Evaluate(rules, c).results, d, status) <==> Reports(rules, c, d, status)
    ensures Aggregation.Represented(Evaluate(rules, c).results, d) <==> Covered(rules, c, d)
  {
    EvaluateMeans(rules, c);
    var rs := Evaluate(rules, c).results;
    forall i | 0 <= i < |rules| ensures rules[i](c) == Evaluated(rs[i]) {
    }
  }

  /** The verdict: deny exactly when some rule raises or reports a failure in one of the seven
      dimensions; allow exactly when no rule raises, every dimension has a report, and none is a
      failure or unknown; escalate otherwise. */
  lemma VerdictIs(rules: seq<Rule>, config: Value, c: Command)
    ensures var v := Decide(rules, config, c).verdict;
      && (v == "deny" <==> Raises(rules, c) || ReportsAnywhere(rules, c, "fail"))
      && (v == "allow" <==>
           !Raises(rules, c) && !ReportsAnywhere(rules, c, "fail") && !ReportsAnywhere(rules, c, "unknown")
           && forall d | d in Aggregation.DIMENSIONS :: Covered(rules, c, d))
      && v in {"allow", "deny", "escalate"}
  {
    EvaluateMeans(rules, c);
    assert "deny"[0] != "allow"[0];
    if Evaluate(rules, c).Completed? {
      var rs := Evaluate(rules, c).results;
      Aggregation.VerdictMeans(rs);
      forall d | d in Aggregation.DIMENSIONS
        ensures Aggregation.Represented(rs, d) <==> Covered(rules, c, d)
        ensures Aggregation.Has(rs, d, "fail") <==> Reports(rules, c, d, "fail")
        ensures Aggregation.Has(rs, d, "unknown") <==> Reports(rules, c, d, "unknown")
      {
        CompletedReports(rules, c, d, "fail");
        CompletedReports(rules, c, d, "unknown");
      }
    }
  }

  /** d has the status in the dimensions of a decision. */
  predicate DimensionIs(d: Decision, dimension: string, status: string) {
    d.dimensions.Obj? && Lookup(d.dimensions.members, dimension) == Some(Str(status))
  }

  lemma DimensionsHold(dims: map<string, string>, d: string)
    requires (forall k | k in Aggregation.DIMENSIONS :: k in dims) && d in Aggregation.DIMENSIONS
    ensures Lookup(DimensionsValue(dims).members, d) == Some(Str(dims[d]))
  {
    var ds := Aggregation.DIMENSIONS;
    Aggregation.DimensionsDistinct();
    var i :| 0 <= i < |ds| && ds[i] == d;
    LookupInRecord(ds, DimensionValues(dims, ds), i);
  }

  /** The dimensions: when a rule raises, security fails and the other six are unknown; else a
      dimension fails exactly when a rule reports so, and is unknown exactly when none does and
      some rule reports unknown or none reports on it at all. */
  lemma DimensionsAre(rules: seq<Rule>, config: Value, c: Command, d: string)
    requires d in Aggregation.DIMENSIONS
    ensures var e := Decide(rules, config, c);
      && (DimensionIs(e, d, "fail") <==> if Raises(rules, c) then d == "security" else Reports(rules, c, d, "fail"))
      && (DimensionIs(e, d, "unknown") <==>
           if Raises(rules, c) then d != "security"
           else !Reports(rules, c, d, "fail") && (Reports(rules, c, d, "unknown") || !Covered(rules, c, d)))
      && (DimensionIs(e, d, "pass") <==> !DimensionIs(e, d, "fail") && !DimensionIs(e, d, "unknown"))
  {
    EvaluateMeans(rules, c);
    StatusesDiffer();
    match Evaluate(rules, c)
    case Aborted(_) => DimensionsHold(EXCEPTION_DIMENSIONS, d);
    case Completed(rs) =>
      DimensionsHold(Aggregation.Dimensions(rs), d);
      Aggregation.DimensionMeans(rs, d);
      CompletedReports(rules, c, d, "fail");
      CompletedReports(rules, c, d, "unknown");
  }

  lemma StatusesDiffer()
    ensures "fail" != "unknown" && "pass" != "fail" && "pass" != "unknown"
  {
    assert "fail"[0] != "unknown"[0] && "pass"[0] != "fail"[0] && "pass"[0] != "unknown"[0];
  }

  /** The k-th rule is the first to raise. */
  predicate FirstToRaise(rules: seq<Rule>, c: Command, k: nat) {
    k < |rules| && rules[k](c).Raised? && forall i | 0 <= i < k :: rules[i](c).Evaluated?
  }

  /** The k-th rule is the first to report a failure with a reason. */
  predicate FirstReasonAt(rules: seq<Rule>, c: Command, k: nat) {
    && k < |rules| && FailsWithReason(rules[k](c))
    && forall i | 0 <= i < k :: !FailsWithReason(rules[i](c))
  }

  predicate NoReasonAt(rules: seq<Rule>, c: Command) {
    forall k | 0 <= k < |rules| :: !FailsWithReason(rules[k](c))
  }

  predicate AbortedWith(d: Decision, message: string) {
    d.reason == Some("verifier exception: " + message) && d.summary == "verifier_exception=fail"
  }

  predicate FailsWithReason(o: RuleOutcome) {
    o.Evaluated? && Aggregation.GivesReason(o.result)
  }

  /** The reason: the first exception; else that of the first failure that has one, in whatever
      dimension; else a fixed sentence on escalation and none otherwise. */
  lemma ReasonIs(rules: seq<Rule>, config: Value, c: Command)
    ensures forall k: nat | FirstToRaise(rules, c, k) :: AbortedWith(Decide(rules, config, c), rules[k](c).message)
    ensures forall k: nat | !Raises(rules, c) && FirstReasonAt(rules, c, k) ::
      Decide(rules, config, c).reason == Some(rules[k](c).result.reason)
    ensures !Raises(rules, c) && NoReasonAt(rules, c) ==>
      var e := Decide(rules, config, c);
      e.reason == if e.verdict == "escalate" then Some("one or more dimensions are unknown") else None
  {
    EvaluateMeans(rules, c);
    forall k: nat | FirstToRaise(rules, c, k) ensures Evaluate(rules, c) == Aborted(rules[k](c).message) {
      AbortsOnFirst(rules, c, k);
    }
    if !Raises(rules, c) {
      var rs := Evaluate(rules, c).results;
      forall k: nat | FirstReasonAt(rules, c, k)
        ensures Aggregation.FirstReason(rs) == Some(rules[k](c).result.reason)
      {
        Aggregation.FirstReasonIs(rs, k);
      }
      if NoReasonAt(rules, c) {
        Aggregation.NoReason(rs);
      }
    }
  }

  /** An allow decision means that no rule raised, that every dimension has a result, and that
      no result in the seven dimensions failed or was unknown. */
  lemma AllowMeans(rules: seq<Rule>, config: Value, c: Command)
    ensures Decide(rules, config, c).verdict == "allow" <==>
      var e := Evaluate(rules, c);
      && e.Completed? && Aggregation.AllRepresented(e.results)
      && !Aggregation.HasAnywhere(e.results, "fail") && !Aggregation.HasAnywhere(e.results, "unknown")
    ensures Decide(rules, config, c).verdict in {"allow", "deny", "escalate"}
  {
    if Evaluate(rules, c).Completed? {
      Aggregation.VerdictMeans(Evaluate(rules, c).results);
    }
  }

  datatype VerificationResult = VerificationResult(verdict: string, dimensions: Value, reason: Option<string>,
                                                   receipt: Receipt)

  class VerifierService {
    const rules: seq<Rule>
    const config: Value
    const receipts: ReceiptManager

    constructor (rules: seq<Rule>, config: Value, receipts: ReceiptManager)
      ensures this.rules == rules && this.config == config && this.receipts == receipts
    {
      this.rules, this.config, this.receipts := rules, config, receipts;
    }

    /** The try block and the aggregation after it. */
    method Judge(c: Command) returns (d: Decision)
      ensures d == Decide(rules, config, c)
      ensures d.verdict == "deny" <==> Raises(rules, c) || ReportsAnywhere(rules, c, "fail")
      ensures d.verdict == "allow" <==>
        && !Raises(rules, c) && !ReportsAnywhere(rules, c, "fail") && !ReportsAnywhere(rules, c, "unknown")
        && forall k | k in Aggregation.DIMENSIONS :: Covered(rules, c, k)
      ensures d.verdict in {"allow", "deny", "escalate"}
    {
      VerdictIs(rules, config, c);
      var results: seq<Aggregation.RuleResult> := [];
      for i := 0 to |rules|
        invariant Evaluate(rules[..i], c) == Completed(results)
      {
        EvaluateNext(rules, c, i);
        match rules[i](c) {
          case Raised(m) =>
            return Decision("deny", DimensionsValue(EXCEPTION_DIMENSIONS), "verifier_exception=fail",
                            Some("verifier exception: " + m), config);
          case Evaluated(r) =>
            results := results + [r];
        }
      }
      assert rules[..|rules|] == rules;
      var dims := Aggregation.GroupedDimensions(results);
      d := Decision(Aggregation.Verdict(dims), DimensionsValue(dims), Summary(results),
                    Aggregation.PythonReason(results), config);
    }

    /** None when create_admission raises: no verdict leaves without its receipt, and with a
        store the receipt's row is in the evidence table by then. */
    method Verify(c: Command, now: int, nonce: string) returns (out: Option<VerificationResult>)
      modifies receipts, receipts.store
      ensures out.Some? ==>
        var d := Decide(rules, config, c);
        && out.value.verdict == d.verdict && out.value.dimensions == d.dimensions && out.value.reason == d.reason
        && receipts.Issued(out.value.receipt, c, d, now, nonce, old(receipts.Tables()), old(receipts.signed))
      ensures out.Some? ==>
        && (out.value.verdict == "deny" <==> Raises(rules, c) || ReportsAnywhere(rules, c, "fail"))
        && (out.value.verdict == "allow" <==>
             !Raises(rules, c) && !ReportsAnywhere(rules, c, "fail") && !ReportsAnywhere(rules, c, "unknown")
             && forall k | k in Aggregation.DIMENSIONS :: Covered(rules, c, k))
      ensures out.None? ==>
        receipts.store != null
        && (receipts.Tables() == old(receipts.Tables()) || receipts.Tables() == Numbered(old(receipts.Tables())))
    {
      var d := Judge(c);
      var receipt := receipts.CreateAdmission(c, d, now, nonce);
      if receipt.None? {
        return None;
      }
      out := Some(VerificationResult(d.verdict, d.dimensions, d.reason, receipt.value));
    }
  }
}
