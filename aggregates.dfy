/** The dashboard's aggregations, each a pure function of the whole record
    collection: production per day (kg and tons), the overall total against the
    monthly target with its three-band message, and the per-partner rollup with
    its target, status and the number of partners in each status. */
module Aggregates {
  import opened Records
  import opened Ordering
  import opened Classifier
  import Target

  ghost predicate NoDuplicates<T>(s: seq<T>)
  {
    forall i, j :: 0 <= i < j < |s| ==> s[i] != s[j]
  }

  /** The key of every record, in record order. */
  function KeyList<K>(rs: seq<Record>, key: Record -> K): (ks: seq<K>)
    ensures |ks| == |rs|
    ensures forall i :: 0 <= i < |rs| ==> ks[i] == key(rs[i])
  {
    seq(|rs|, i requires 0 <= i < |rs| => key(rs[i]))
  }

  /** Sum of the production of each key's group, over the keys `ks`. */
  function GroupSum<K(==)>(rs: seq<Record>, key: Record -> K, ks: seq<K>): real
  {
    if ks == [] then 0.0 else SumProd(Where(rs, key, ks[0])) + GroupSum(rs, key, ks[1..])
  }

  lemma {:induction false} GroupSumCons<K>(r: Record, rs: seq<Record>, key: Record -> K, ks: seq<K>)
    requires NoDuplicates(ks)
    ensures GroupSum([r] + rs, key, ks) == GroupSum(rs, key, ks) + (if key(r) in ks then r.prod else 0.0)
  {
    if ks != [] {
      var w := Where(rs, key, ks[0]);
      assert ([r] + rs)[1..] == rs;
      assert Where([r] + rs, key, ks[0]) == (if key(r) == ks[0] then [r] else []) + w;
      if key(r) == ks[0] {
        assert ([r] + w)[1..] == w;
      } else {
        assert [] + w == w;
      }
      assert key(r) == ks[0] ==> key(r) !in ks[1..];
      assert key(r) in ks <==> key(r) == ks[0] || key(r) in ks[1..];
      GroupSumCons(r, rs, key, ks[1..]);
    }
  }

  /** Grouping by a key whose groups are listed once each and cover every
      record neither loses nor double-counts any production. */
  lemma {:induction false} GroupSumIsTotal<K>(rs: seq<Record>, key: Record -> K, ks: seq<K>)
    requires NoDuplicates(ks)
    requires forall r :: r in rs ==> key(r) in ks
    ensures GroupSum(rs, key, ks) == SumProd(rs)
  {
    if rs == [] {
      GroupSumOfNothing(key, ks);
    } else {
      assert rs == [rs[0]] + rs[1..];
      GroupSumIsTotal(rs[1..], key, ks);
      GroupSumCons(rs[0], rs[1..], key, ks);
    }
  }

  lemma {:induction false} GroupSumOfNothing<K>(key: Record -> K, ks: seq<K>)
    ensures GroupSum([], key, ks) == 0.0
  {
    if ks != [] {
      GroupSumOfNothing(key, ks[1..]);
    }
  }

  // ---------------------------------------------------------------------------
  // Daily totals

  datatype DailyRow = DailyRow(date: int, kg: real, tons: real)

  /** The distinct dates in ascending order (the groups of a group-by on Tanggal). */
  function DailyDates(rs: seq<Record>): (ds: seq<int>)
    ensures forall d :: d in ds <==> d in Dates(rs)
    ensures forall i, j :: 0 <= i < j < |ds| ==> ds[i] < ds[j]
    ensures |ds| == DistinctDays(rs)
  {
    IntLeIsTotalPreorder();
    var ks := KeyList(rs, DateOf);
    assert forall d :: d in ks <==> d in Dates(rs) by {
      forall d ensures d in ks <==> d in Dates(rs) {
        if d in ks {
          var i :| 0 <= i < |ks| && ks[i] == d;
          assert rs[i] in rs;
        }
        if d in Dates(rs) {
          var r :| r in rs && r.date == d;
          var i :| 0 <= i < |rs| && rs[i] == r;
          assert ks[i] == d;
        }
      }
    }
    var ds := SortedDistinct(ks, IntLe);
    DistinctCardinality(ds);
    assert (set d | d in ds) == Dates(rs);
    ds
  }

  /** The row of one date: the production of that date's records, in kg and tons. */
  function DayRow(rs: seq<Record>, d: int): (row: DailyRow)
    ensures row.date == d
    ensures row.kg == SumProd(Where(rs, DateOf, d))
    ensures row.tons * KgPerTon == row.kg
  {
    var kg := SumProd(Where(rs, DateOf, d));
    DailyRow(d, kg, kg / KgPerTon)
  }

  function DayRows(rs: seq<Record>, ds: seq<int>): (rows: seq<DailyRow>)
    ensures |rows| == |ds|
    ensures forall i :: 0 <= i < |ds| ==> rows[i] == DayRow(rs, ds[i])
  {
    if ds == [] then [] else [DayRow(rs, ds[0])] + DayRows(rs, ds[1..])
  }

  /** Production per distinct date, in the order of DailyDates: one row per
      distinct day, each the row DayRow computes for that date. */
  function DailyTotals(rs: seq<Record>): (rows: seq<DailyRow>)
    ensures |rows| == DistinctDays(rs)
    ensures forall i :: 0 <= i < |rows| ==> rows[i] == DayRow(rs, DailyDates(rs)[i])
  {
    DayRows(rs, DailyDates(rs))
  }

  /** The daily rows carry the reported dates in strictly ascending order. */
  lemma DailyTotalsAscending(rs: seq<Record>)
    ensures forall i :: 0 <= i < |DailyTotals(rs)| ==> DailyTotals(rs)[i].date in Dates(rs)
    ensures forall i, j :: 0 <= i < j < |DailyTotals(rs)| ==> DailyTotals(rs)[i].date < DailyTotals(rs)[j].date
  {
    var ds := DailyDates(rs);
    RowDatesAre(DailyTotals(rs), rs, ds);
  }

  /** Every reported date has a daily row. */
  lemma DailyTotalsCoverDates(rs: seq<Record>, d: int)
    requires d in Dates(rs)
    ensures exists i :: 0 <= i < |DailyTotals(rs)| && DailyTotals(rs)[i].date == d
  {
    var ds := DailyDates(rs);
    var rows := DailyTotals(rs);
    RowDatesAre(rows, rs, ds);
    var i :| 0 <= i < |ds| && ds[i] == d;
    assert rows[i].date == d;
  }

  lemma RowDatesAre(rows: seq<DailyRow>, rs: seq<Record>, ds: seq<int>)
    requires |rows| == |ds|
    requires forall i :: 0 <= i < |rows| ==> rows[i] == DayRow(rs, ds[i])
    ensures forall i :: 0 <= i < |rows| ==> rows[i].date == ds[i]
  {
  }

  function SumKg(rows: seq<DailyRow>): real
  {
    if rows == [] then 0.0 else rows[0].kg + SumKg(rows[1..])
  }

  function SumTons(rows: seq<DailyRow>): real
  {
    if rows == [] then 0.0 else rows[0].tons + SumTons(rows[1..])
  }

  lemma {:induction false} SumKgOfDayRows(rs: seq<Record>, ds: seq<int>)
    ensures SumKg(DayRows(rs, ds)) == GroupSum(rs, DateOf, ds)
  {
    if ds != [] {
      assert DayRows(rs, ds)[1..] == DayRows(rs, ds[1..]);
      SumKgOfDayRows(rs, ds[1..]);
    }
  }

  lemma {:induction false} SumTonsIsSumKg(rows: seq<DailyRow>)
    requires forall i :: 0 <= i < |rows| ==> rows[i].tons * KgPerTon == rows[i].kg
    ensures SumTons(rows) * KgPerTon == SumKg(rows)
  {
    if rows != [] {
      SumTonsIsSumKg(rows[1..]);
    }
  }

  /** The daily totals add up to the overall production, in kilograms and in tons. */
  lemma DailyTotalsSumToTotal(rs: seq<Record>)
    ensures SumKg(DailyTotals(rs)) == SumProd(rs)
    ensures SumTons(DailyTotals(rs)) == TotalTons(rs)
  {
    var ds := DailyDates(rs);
    assert DailyTotals(rs) == DayRows(rs, ds);
    DatesCoverRecords(rs, ds);
    GroupSumIsTotal(rs, DateOf, ds);
    SumKgOfDayRows(rs, ds);
    SumTonsIsSumKg(DailyTotals(rs));
    TonsFromKg(SumTons(DailyTotals(rs)), SumProd(rs));
  }

  lemma DatesCoverRecords(rs: seq<Record>, ds: seq<int>)
    requires forall d :: d in ds <==> d in Dates(rs)
    ensures forall r :: r in rs ==> DateOf(r) in ds
  {
    forall r | r in rs ensures DateOf(r) in ds {
      assert r.date in Dates(rs);
    }
  }

  lemma TonsFromKg(tons: real, kg: real)
    requires tons * KgPerTon == kg
    ensures tons == kg / KgPerTon
  {
  }

  // ---------------------------------------------------------------------------
  // Overall total against the monthly target

  datatype Band = Reached | Approaching | NeedsEffort

  function TotalTons(rs: seq<Record>): real
  {
    SumProd(rs) / KgPerTon
  }

  /** The overall production as a percentage of the monthly target. */
  function MonthlyPercentage(rs: seq<Record>): (pct: real)
    ensures pct * 25000.0 == SumProd(rs)
  {
    TotalTons(rs) / MonthlyTargetTons * 100.0
  }

  /** The message band for a percentage: reached at 100% or more, approaching
      at 75% or more, otherwise more effort needed. */
  function MonthlyBand(pct: real): (b: Band)
    ensures b == Reached <==> pct >= 100.0
    ensures b == Approaching <==> 75.0 <= pct < 100.0
    ensures b == NeedsEffort <==> pct < 75.0
  {
    if pct >= 100.0 then Reached
    else if pct >= 75.0 then Approaching
    else NeedsEffort
  }

  /** The band in kilograms: the monthly target of 2500 t is reached from
      2,500,000 kg, and approached from 1,875,000 kg. */
  lemma MonthlyBandByKg(rs: seq<Record>)
    ensures MonthlyBand(MonthlyPercentage(rs)) == Reached <==> SumProd(rs) >= 2500000.0
    ensures MonthlyBand(MonthlyPercentage(rs)) == Approaching <==> 1875000.0 <= SumProd(rs) < 2500000.0
    ensures MonthlyBand(MonthlyPercentage(rs)) == NeedsEffort <==> SumProd(rs) < 1875000.0
  {
    assert MonthlyPercentage(rs) == SumProd(rs) / 25000.0;
  }

  // ---------------------------------------------------------------------------
  // Per-partner rollup

  datatype PartnerRow = PartnerRow(partner: string, total: real, meanOps: real, days: nat, target: real, status: Status)

  /** The distinct partner names in ascending string order (the groups of a
      group-by on Nama Mitra). */
  function PartnerNames(rs: seq<Record>): (ps: seq<string>)
    ensures forall p :: p in ps <==> p in Partners(rs)
    ensures NoDuplicates(ps)
    ensures forall i, j :: 0 <= i < j < |ps| ==> LexLe(ps[i], ps[j])
    ensures |ps| == |Partners(rs)|
  {
    LexLeIsTotalPreorder();
    var ks := KeyList(rs, PartnerOf);
    assert forall p :: p in ks <==> p in Partners(rs) by {
      forall p ensures p in ks <==> p in Partners(rs) {
        if p in ks {
          var i :| 0 <= i < |ks| && ks[i] == p;
          assert rs[i] in rs;
        }
        if p in Partners(rs) {
          var r :| r in rs && r.partner == p;
          var i :| 0 <= i < |rs| && rs[i] == r;
          assert ks[i] == p;
        }
      }
    }
    var ps := SortedDistinct(ks, LexLe);
    DistinctCardinality(ps);
    assert (set p | p in ps) == Partners(rs);
    ps
  }

  /** One partner's row: sum of production, mean operations, distinct days,
      then the target formula applied to those columns and the tier. */
  function RollupRow(rs: seq<Record>, p: string): (row: PartnerRow)
    requires p in Partners(rs)
    ensures row.partner == p && row.days >= 1
    ensures row.total == SumProd(Target.OfPartner(rs, p))
    ensures row.meanOps == Target.MeanOps(Target.OfPartner(rs, p))
    ensures row.days == DistinctDays(Target.OfPartner(rs, p))
    ensures row.target == OpsDailyRate * row.meanOps * (row.days as real)
    ensures row.target == Target.TargetFor(rs, p)
    ensures row.status == Classify(row.total, row.target)
  {
    var mine := Target.OfPartner(rs, p);
    assert mine != [] by {
      var r :| r in rs && r.partner == p;
      assert r in mine;
    }
    var total := SumProd(mine);
    var mean := Target.MeanOps(mine);
    var days := DistinctDays(mine);
    DistinctDaysPositive(mine);
    var target := OpsDailyRate * mean * (days as real);
    assert target == Target.TargetFor(rs, p) by {
      assert Target.TargetFor(rs, p) == Target.TargetOf(mine);
    }
    PartnerRow(p, total, mean, days, target, Classify(total, target))
  }

  function RollupRows(rs: seq<Record>, ps: seq<string>): (rows: seq<PartnerRow>)
    requires forall p :: p in ps ==> p in Partners(rs)
    ensures |rows| == |ps|
    ensures forall i :: 0 <= i < |ps| ==> rows[i] == RollupRow(rs, ps[i])
  {
    if ps == [] then [] else [RollupRow(rs, ps[0])] + RollupRows(rs, ps[1..])
  }

  /** The rollup: one row per distinct partner, in the order of PartnerNames,
      each the row that RollupRow computes for that partner. */
  function PartnerRollup(rs: seq<Record>): (rows: seq<PartnerRow>)
    ensures |rows| == |Partners(rs)|
    ensures forall i :: 0 <= i < |rows| ==> rows[i] == RollupRow(rs, PartnerNames(rs)[i])
  {
    RollupRows(rs, PartnerNames(rs))
  }

  /** Every partner that has records has exactly one row in the rollup. */
  lemma RollupHasOneRowPerPartner(rs: seq<Record>, p: string)
    requires p in Partners(rs)
    ensures exists i :: 0 <= i < |PartnerRollup(rs)| && PartnerRollup(rs)[i].partner == p
    ensures forall i, j :: 0 <= i < j < |PartnerRollup(rs)| ==> PartnerRollup(rs)[i].partner != PartnerRollup(rs)[j].partner
  {
    var ps := PartnerNames(rs);
    var rows := PartnerRollup(rs);
    var i :| 0 <= i < |ps| && ps[i] == p;
    assert rows[i].partner == p;
  }

  /** A partner of the rollup with non-negative operation counts is in the
      zero-target tier exactly when all its operation counts are zero. */
  lemma RollupNoTargetIffNoOperations(rs: seq<Record>, p: string)
    requires p in Partners(rs)
    requires forall r :: r in rs && r.partner == p ==> r.ops >= 0
    ensures RollupRow(rs, p).status == NoTarget <==> forall r :: r in rs && r.partner == p ==> r.ops == 0
  {
    Target.ZeroTargetIffNoOperations(rs, p);
  }

  function SumTotals(rows: seq<PartnerRow>): real
  {
    if rows == [] then 0.0 else rows[0].total + SumTotals(rows[1..])
  }

  lemma {:induction false} SumTotalsOfRollupRows(rs: seq<Record>, ps: seq<string>)
    requires forall p :: p in ps ==> p in Partners(rs)
    ensures SumTotals(RollupRows(rs, ps)) == GroupSum(rs, PartnerOf, ps)
  {
    if ps != [] {
      assert RollupRows(rs, ps)[1..] == RollupRows(rs, ps[1..]);
      SumTotalsOfRollupRows(rs, ps[1..]);
    }
  }

  /** The partners' totals add up to the overall production. */
  lemma PartnerTotalsSumToTotal(rs: seq<Record>)
    ensures SumTotals(PartnerRollup(rs)) == SumProd(rs)
  {
    var ps := PartnerNames(rs);
    assert forall r :: r in rs ==> PartnerOf(r) in ps by {
      forall r | r in rs ensures PartnerOf(r) in ps {
        assert r.partner in Partners(rs);
      }
    }
    GroupSumIsTotal(rs, PartnerOf, ps);
    SumTotalsOfRollupRows(rs, ps);
  }

  // ---------------------------------------------------------------------------
  // Partners per status

  function CountStatus(rows: seq<PartnerRow>, s: Status): nat
  {
    if rows == [] then 0 else (if rows[0].status == s then 1 else 0) + CountStatus(rows[1..], s)
  }

  /** Every row is in exactly one tier, so the four counts add up to the rows. */
  lemma {:induction false} CountsCoverRows(rows: seq<PartnerRow>)
    ensures CountStatus(rows, NoTarget) + CountStatus(rows, Good)
          + CountStatus(rows, Fair) + CountStatus(rows, Poor) == |rows|
  {
    if rows != [] {
      CountsCoverRows(rows[1..]);
    }
  }

  lemma {:induction false} CountStatusPositive(rows: seq<PartnerRow>, s: Status)
    ensures CountStatus(rows, s) > 0 <==> exists i :: 0 <= i < |rows| && rows[i].status == s
  {
    if rows != [] {
      CountStatusPositive(rows[1..], s);
      if exists i :: 0 <= i < |rows| && rows[i].status == s {
        var i :| 0 <= i < |rows| && rows[i].status == s;
        if i > 0 {
          assert rows[1..][i - 1].status == s;
        }
      }
    }
  }

  /** The number of partners per status, listing only the statuses that occur. */
  function StatusCounts(rows: seq<PartnerRow>): (m: map<Status, nat>)
    ensures forall s :: s in m <==> exists i :: 0 <= i < |rows| && rows[i].status == s
    ensures forall s :: s in m ==> m[s] == CountStatus(rows, s) && m[s] > 0
  {
    CountStatusPositive(rows, NoTarget);
    CountStatusPositive(rows, Good);
    CountStatusPositive(rows, Fair);
    CountStatusPositive(rows, Poor);
    map s | s in {NoTarget, Good, Fair, Poor} && CountStatus(rows, s) > 0 :: CountStatus(rows, s)
  }

  /** The status counts of the rollup add up to the number of distinct partners. */
  lemma StatusCountsSumToPartners(rs: seq<Record>)
    ensures var rows := PartnerRollup(rs);
            CountStatus(rows, NoTarget) + CountStatus(rows, Good)
            + CountStatus(rows, Fair) + CountStatus(rows, Poor) == |Partners(rs)|
  {
    CountsCoverRows(PartnerRollup(rs));
  }

  // ---------------------------------------------------------------------------
  // Worked examples

  /** Partner A with 10 and 20 operations on two days and 300 + 500 kg: mean 15,
      2 days, target 40 * 15 * 2 = 1200 kg, and 800 kg is below 75% of it. */
  lemma {:induction false} TwoDayExample()
    ensures var rs := [Record(1, "A", "X", 0, 10, 300.0), Record(2, "A", "X", 0, 20, 500.0)];
            RollupRow(rs, "A") == PartnerRow("A", 800.0, 15.0, 2, 1200.0, Poor)
  {
    var rs := [Record(1, "A", "X", 0, 10, 300.0), Record(2, "A", "X", 0, 20, 500.0)];
    assert rs[0] in rs;
    assert Target.OfPartner(rs, "A") == rs;
    assert Dates(rs) == {1, 2};
  }

  /** A third day with 30 operations and 1000 kg: mean 20, 3 days, target
      2400 kg, and 1800 kg is exactly 75% of it, which is Fair. */
  lemma {:induction false} ThreeDayExample()
    ensures var rs := [Record(1, "A", "X", 0, 10, 300.0), Record(2, "A", "X", 0, 20, 500.0),
                       Record(3, "A", "X", 0, 30, 1000.0)];
            RollupRow(rs, "A") == PartnerRow("A", 1800.0, 20.0, 3, 2400.0, Fair)
  {
    var rs := [Record(1, "A", "X", 0, 10, 300.0), Record(2, "A", "X", 0, 20, 500.0),
               Record(3, "A", "X", 0, 30, 1000.0)];
    assert rs[0] in rs;
    assert Target.OfPartner(rs, "A") == rs;
    assert Dates(rs) == {1, 2, 3};
  }

  /** 1,875,000 kg is 1875 t, 75% of the monthly target: the approaching band. */
  lemma MonthlyExample()
    ensures var rs := [Record(1, "A", "X", 0, 1, 1875000.0)];
            MonthlyPercentage(rs) == 75.0 && MonthlyBand(MonthlyPercentage(rs)) == Approaching
  {
    var rs := [Record(1, "A", "X", 0, 1, 1875000.0)];
    assert SumProd(rs) == 1875000.0;
  }
}
