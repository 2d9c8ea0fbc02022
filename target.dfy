/** The per-partner dynamic target: 40 kg per operation per day, times the mean
    number of operations the partner reports, times the number of distinct days
    it has reported. */
module Target {
  import opened Records

  /** Mean of the operation counts of a non-empty collection. */
  function MeanOps(rs: seq<Record>): (m: real)
    requires rs != []
    ensures m * (|rs| as real) == SumOps(rs) as real
  {
    (SumOps(rs) as real) / (|rs| as real)
  }

  /** The records of one partner. */
  function OfPartner(rs: seq<Record>, partner: string): (mine: seq<Record>)
    ensures forall x :: x in mine <==> x in rs && x.partner == partner
    ensures partner in Partners(rs) <==> mine != []
  {
    var mine := Where(rs, PartnerOf, partner);
    assert mine != [] ==> mine[0] in mine;
    mine
  }

  /** The target of `partner` over all records `rs`; 0 when it has no records. */
  function TargetFor(rs: seq<Record>, partner: string): (t: real)
    ensures partner !in Partners(rs) ==> t == 0.0
    ensures (forall r :: r in rs && r.partner == partner ==> r.ops >= 0) ==> t >= 0.0
    ensures (forall r :: r in rs && r.partner == partner ==> r.ops == 0) ==> t == 0.0
  {
    var mine := OfPartner(rs, partner);
    assert forall i :: 0 <= i < |mine| ==> mine[i] in mine;
    TargetOfSign(mine);
    TargetOf(mine)
  }

  /** The target formula applied to the records of one partner. */
  function TargetOf(mine: seq<Record>): (t: real)
    ensures mine == [] ==> t == 0.0
    ensures t * (|mine| as real) == OpsDailyRate * (SumOps(mine) as real) * (DistinctDays(mine) as real)
  {
    if mine == [] then 0.0
    else OpsDailyRate * MeanOps(mine) * (DistinctDays(mine) as real)
  }

  lemma TargetOfSign(mine: seq<Record>)
    ensures (forall i :: 0 <= i < |mine| ==> mine[i].ops >= 0) ==> TargetOf(mine) >= 0.0
    ensures (forall i :: 0 <= i < |mine| ==> mine[i].ops == 0) ==> TargetOf(mine) == 0.0
  {
    if mine != [] && forall i :: 0 <= i < |mine| ==> mine[i].ops >= 0 {
      SumOpsZero(mine);
      NonNegProduct(MeanOps(mine), DistinctDays(mine) as real);
    }
  }

  lemma NonNegProduct(a: real, b: real)
    requires a >= 0.0 && b >= 0.0
    ensures OpsDailyRate * a * b >= 0.0
  {
  }

  /** A partner with records and non-negative operation counts gets target 0
      exactly when every one of its operation counts is 0. */
  lemma {:induction false} ZeroTargetIffNoOperations(rs: seq<Record>, partner: string)
    requires partner in Partners(rs)
    requires forall r :: r in rs && r.partner == partner ==> r.ops >= 0
    ensures TargetFor(rs, partner) == 0.0 <==> forall r :: r in rs && r.partner == partner ==> r.ops == 0
  {
    var mine := OfPartner(rs, partner);
    var w :| w in rs && w.partner == partner;
    assert w in mine;
    assert forall i :: 0 <= i < |mine| ==> mine[i] in mine;
    SumOpsZero(mine);
    DistinctDaysPositive(mine);
    var days := DistinctDays(mine) as real;
    var m := MeanOps(mine);
    if TargetFor(rs, partner) == 0.0 {
      assert OpsDailyRate * m * days == 0.0;
      assert m == 0.0;
      assert SumOps(mine) == 0;
    }
  }

  /** A further record of `r.partner`, on a day that partner has already
      reported and with an operation count equal to its current mean, leaves
      the partner's target unchanged. */
  lemma {:induction false} TargetStableOnReportedDay(rs: seq<Record>, r: Record)
    requires r.date in Dates(OfPartner(rs, r.partner))
    requires r.ops as real == MeanOps(OfPartner(rs, r.partner))
    ensures TargetFor(rs + [r], r.partner) == TargetFor(rs, r.partner)
  {
    var mine := OfPartner(rs, r.partner);
    var mine' := OfPartner(rs + [r], r.partner);
    WhereAppend(rs, r, PartnerOf, r.partner);
    assert mine' == mine + [r];
    DistinctDaysAppend(mine, r);
    MeanOpsAppendMean(mine, r);
    TargetOfCongruent(mine', mine);
  }

  /** Appending a record whose operation count equals the mean keeps the mean. */
  lemma MeanOpsAppendMean(mine: seq<Record>, r: Record)
    requires mine != [] && r.ops as real == MeanOps(mine)
    ensures MeanOps(mine + [r]) == MeanOps(mine)
  {
    SumOpsAppend(mine, [r]);
    assert SumOps([r]) == r.ops;
    MeanUnchanged(SumOps(mine) as real, |mine| as real, r.ops as real);
  }

  lemma TargetOfCongruent(a: seq<Record>, b: seq<Record>)
    requires a != [] && b != []
    requires MeanOps(a) == MeanOps(b) && DistinctDays(a) == DistinctDays(b)
    ensures TargetOf(a) == TargetOf(b)
  {
  }

  lemma MeanUnchanged(s: real, n: real, x: real)
    requires n > 0.0 && x == s / n
    ensures (s + x) / (n + 1.0) == s / n
  {
    assert s + x == x * (n + 1.0);
  }

  /** A record of another partner does not affect this partner's target. */
  lemma OtherPartnerKeepsTarget(rs: seq<Record>, r: Record, partner: string)
    requires r.partner != partner
    ensures TargetFor(rs + [r], partner) == TargetFor(rs, partner)
  {
    WhereAppend(rs, r, PartnerOf, partner);
    assert OfPartner(rs + [r], partner) == OfPartner(rs, partner);
  }
}
