/**
 * The two-stage data trust filter (client/trust_rules.py,
 * `ResearchTrustLayer`): hard physiological bounds first, then a
 * statistical anomaly test against a profile fitted once per instance.
 *
 * The Mahalanobis distance and chi-square tail (floating-point linear
 * algebra) are an oracle `pValue` that scores a row against a fitted profile
 * with a probability in [0, 1]. A profile is identified by the dataset it was
 * fitted on.
 */
module TrustRules {

  import opened Optional

  /** One dataframe row: the two columns the rules read, and the rest. */
  datatype Row = Row(age: real, heartRate: real, others: map<string, real>)

  type Probability = p: real | 0.0 <= p <= 1.0

  /** What `_fit_distribution` learns (mean and inverse covariance), named by its data. */
  datatype Profile = Profile(fittedOn: seq<Row>)

  type PValue = (Profile, Row) -> Probability

  /** A row is rejected by a symbolic rule, or as an anomaly with its p-value. */
  datatype Reason = Symbolic(violation: string) | Anomaly(p: Probability)

  /** One entry of `self.reasons`: the row and why it was dropped. */
  datatype Rejection = Rejection(row: Row, reason: Reason)

  const Significance: real := 0.001
  const TrustFloor: real := 0.1
  const TrustCeiling: real := 1.0

  /**
   * `symbolic_check`: age outside [0, 120] first, then heart rate outside
   * [30, 220]; the bounds themselves pass.
   */
  function SymbolicCheck(row: Row): (violation: Option<string>)
    ensures violation == Some("Invalid Age") <==> !(0.0 <= row.age <= 120.0)
    ensures violation == Some("Lethal HR") <==>
              0.0 <= row.age <= 120.0 && (row.heartRate < 30.0 || row.heartRate > 220.0)
    ensures violation == None <==> 0.0 <= row.age <= 120.0 && 30.0 <= row.heartRate <= 220.0
  {
    if !(0.0 <= row.age <= 120.0) then Some("Invalid Age")
    else if row.heartRate < 30.0 || row.heartRate > 220.0 then Some("Lethal HR")
    else None
  }

  function Min(a: real, b: real): real { if a <= b then a else b }

  function Max(a: real, b: real): real { if a >= b then a else b }

  /**
   * `max(0.1, min(1.0, p * 5))`: never below the floor, never above the
   * ceiling, linear in between, and saturated from p = 0.2 on.
   */
  function TrustScore(p: Probability): (t: real)
    ensures TrustFloor <= t <= TrustCeiling
    ensures p <= 0.02 ==> t == TrustFloor
    ensures p >= 0.2 ==> t == TrustCeiling
    ensures 0.02 <= p <= 0.2 ==> t == 5.0 * p
  {
    Max(TrustFloor, Min(TrustCeiling, p * 5.0))
  }

  /** The trust score grows with the p-value. */
  lemma TrustScoreMonotone(p: Probability, q: Probability)
    requires p <= q
    ensures TrustScore(p) <= TrustScore(q)
  {
  }

  datatype Decision = Accept(trust: real) | Reject(reason: Reason)

  /** The fate of one row in the loop of `filter_data`. */
  function Classify(profile: Profile, pValue: PValue, row: Row): Decision
  {
    var violation := SymbolicCheck(row);
    if violation.Some? then Reject(Symbolic(violation.value))
    else
      var p := pValue(profile, row);
      if p < Significance then Reject(Anomaly(p)) else Accept(TrustScore(p))
  }

  /**
   * A row that breaks a symbolic rule is rejected for that rule and never
   * reaches the statistical stage: the decision is the same whatever the
   * statistical oracle and profile say.
   */
  lemma SymbolicRejectionSkipsStatistics(profile: Profile, pValue: PValue,
                                         otherProfile: Profile, otherPValue: PValue, row: Row)
    requires SymbolicCheck(row).Some?
    ensures Classify(profile, pValue, row) == Reject(Symbolic(SymbolicCheck(row).value))
    ensures Classify(profile, pValue, row) == Classify(otherProfile, otherPValue, row)
  {
  }

  /** A row that passes the rules is rejected as an anomaly iff p < 0.001, else accepted with its trust. */
  lemma StatisticalStage(profile: Profile, pValue: PValue, row: Row)
    requires SymbolicCheck(row) == None
    ensures Classify(profile, pValue, row).Reject? <==> pValue(profile, row) < Significance
    ensures Classify(profile, pValue, row).Reject? ==>
              Classify(profile, pValue, row).reason == Anomaly(pValue(profile, row))
    ensures Classify(profile, pValue, row).Accept? ==>
              Classify(profile, pValue, row).trust == TrustScore(pValue(profile, row))
  {
  }

  /** The three outputs of `filter_data`. */
  datatype FilterResult = FilterResult(valid: seq<Row>, eliminated: seq<Rejection>, trust: seq<real>)

  /** The outputs of `filter_data` on `rows` with a fitted profile. */
  function Filter(profile: Profile, pValue: PValue, rows: seq<Row>): FilterResult
    decreases |rows|
  {
    if rows == [] then FilterResult([], [], [])
    else
      var prev := Filter(profile, pValue, rows[..|rows| - 1]);
      var row := rows[|rows| - 1];
      match Classify(profile, pValue, row)
      case Accept(t) => prev.(valid := prev.valid + [row], trust := prev.trust + [t])
      case Reject(reason) => prev.(eliminated := prev.eliminated + [Rejection(row, reason)])
  }

  function RejectedRows(es: seq<Rejection>): seq<Row>
  {
    seq(|es|, i requires 0 <= i < |es| => es[i].row)
  }

  /**
   * `whole` is an interleaving of `left` and `right`: every element of
   * `whole` goes to exactly one side, and both sides keep its order.
   */
  ghost predicate Interleaves<T>(whole: seq<T>, left: seq<T>, right: seq<T>)
    decreases |whole|
  {
    if whole == [] then left == [] && right == []
    else
      var x := whole[|whole| - 1];
      || (left != [] && left[|left| - 1] == x && Interleaves(whole[..|whole| - 1], left[..|left| - 1], right))
      || (right != [] && right[|right| - 1] == x && Interleaves(whole[..|whole| - 1], left, right[..|right| - 1]))
  }

  /**
   * Every input row ends up either accepted or rejected, never both and
   * never lost; accepted and rejected rows each keep the input order; there
   * is one trust score per accepted row.
   */
  lemma {:induction false} FilterPartitions(profile: Profile, pValue: PValue, rows: seq<Row>)
    ensures var r := Filter(profile, pValue, rows);
      && Interleaves(rows, r.valid, RejectedRows(r.eliminated))
      && |r.trust| == |r.valid|
      && |r.valid| + |r.eliminated| == |rows|
    decreases |rows|
  {
    if rows != [] {
      var init := rows[..|rows| - 1];
      var row := rows[|rows| - 1];
      FilterPartitions(profile, pValue, init);
      var prev := Filter(profile, pValue, init);
      var r := Filter(profile, pValue, rows);
      match Classify(profile, pValue, row)
      case Accept(t) => {
        assert r.valid[..|r.valid| - 1] == prev.valid;
        assert RejectedRows(r.eliminated) == RejectedRows(prev.eliminated);
      }
      case Reject(reason) => {
        var rr := RejectedRows(r.eliminated);
        assert rr[..|rr| - 1] == RejectedRows(prev.eliminated);
        assert rr[|rr| - 1] == row;
      }
    }
  }

  /**
   * Each accepted row passed both stages and its trust score, at the same
   * position, is `TrustScore` of its p-value, so lies in [0.1, 1.0]; each
   * rejected row carries the reason its classification gives.
   */
  lemma {:induction false} FilterClassifies(profile: Profile, pValue: PValue, rows: seq<Row>)
    ensures var r := Filter(profile, pValue, rows);
      && |r.trust| == |r.valid|
      && (forall i :: 0 <= i < |r.valid| ==>
            && SymbolicCheck(r.valid[i]) == None
            && pValue(profile, r.valid[i]) >= Significance
            && r.trust[i] == TrustScore(pValue(profile, r.valid[i]))
            && TrustFloor <= r.trust[i] <= TrustCeiling)
      && (forall i :: 0 <= i < |r.eliminated| ==>
            Classify(profile, pValue, r.eliminated[i].row) == Reject(r.eliminated[i].reason))
    decreases |rows|
  {
    if rows != [] {
      var init := rows[..|rows| - 1];
      FilterClassifies(profile, pValue, init);
      var prev := Filter(profile, pValue, init);
      var r := Filter(profile, pValue, rows);
      forall i | 0 <= i < |r.valid| && i < |prev.valid|
        ensures r.valid[i] == prev.valid[i] && r.trust[i] == prev.trust[i]
      {
      }
      forall i | 0 <= i < |r.eliminated| && i < |prev.eliminated|
        ensures r.eliminated[i] == prev.eliminated[i]
      {
      }
    }
  }

  /** `ResearchTrustLayer`: the one-shot profile and the last call's rejections. */
  class ResearchTrustLayer {
    /** `self.mean` / `self.inv_cov`: None until the first call fits them. */
    var profile: Option<Profile>
    /** `self.reasons`. */
    var reasons: seq<Rejection>

    constructor ()
      ensures profile == None && reasons == []
    {
      profile := None;
      reasons := [];
    }

    /** `_fit_distribution`. */
    method FitDistribution(df: seq<Row>)
      modifies this
      ensures profile == Some(Profile(df)) && reasons == old(reasons)
    {
      profile := Some(Profile(df));
    }

    /**
     * `filter_data`: reset the rejections, fit the profile on the first call
     * only (on all rows, before any is filtered), then classify row by row.
     */
    method FilterData(df: seq<Row>, pValue: PValue)
      returns (valid: seq<Row>, eliminated: seq<Rejection>, trust: seq<real>)
      modifies this
      ensures profile == if old(profile) == None then Some(Profile(df)) else old(profile)
      ensures FilterResult(valid, eliminated, trust) == Filter(profile.value, pValue, df)
      ensures reasons == eliminated
    {
      reasons := [];
      if profile == None {
        FitDistribution(df);
      }
      var fitted := profile.value;
      valid, trust := [], [];
      for i := 0 to |df|
        invariant profile == Some(fitted)
        invariant FilterResult(valid, reasons, trust) == Filter(fitted, pValue, df[..i])
      {
        assert df[..i + 1][..i] == df[..i];
        var row := df[i];
        var violation := SymbolicCheck(row);
        if violation.Some? {
          reasons := reasons + [Rejection(row, Symbolic(violation.value))];
          continue;
        }
        var p := pValue(fitted, row);
        if p < Significance {
          reasons := reasons + [Rejection(row, Anomaly(p))];
        } else {
          valid := valid + [row];
          trust := trust + [TrustScore(p)];
        }
      }
      assert df[..|df|] == df;
      eliminated := reasons;
    }
  }

}
