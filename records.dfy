/** Production records of the partner network and the elementary queries over a
    collection of them: filtering by a key, the production and operation sums,
    and the sets of distinct dates and partners. */
module Records {

  /** Kilograms a partner is expected to produce per operation per day. */
  const OpsDailyRate: real := 40.0
  /** Daily production target in tons (the reference line of the daily chart). */
  const DailyTargetTons: real := 84.0
  /** Monthly production target in tons. */
  const MonthlyTargetTons: real := 2500.0
  /** Kilograms in one ton. */
  const KgPerTon: real := 1000.0

  /** One reported entry: the columns Tanggal, Nama Mitra, Lokasi, Jumlah SPK,
      Jumlah Operasi and Jumlah Produksi (kg). A date is a day number. */
  datatype Record = Record(date: int, partner: string, location: string, spk: int, ops: int, prod: real)

  function DateOf(r: Record): int { r.date }

  function PartnerOf(r: Record): string { r.partner }

  /** The records whose key equals `k`, in their original order (a boolean-mask selection). */
  function Where<K(==)>(rs: seq<Record>, key: Record -> K, k: K): (sel: seq<Record>)
    ensures |sel| <= |rs|
    ensures forall x :: x in sel <==> x in rs && key(x) == k
    ensures forall i :: 0 <= i < |sel| ==> key(sel[i]) == k
  {
    if rs == [] then []
    else (if key(rs[0]) == k then [rs[0]] else []) + Where(rs[1..], key, k)
  }

  lemma {:induction false} WhereAppend<K>(rs: seq<Record>, r: Record, key: Record -> K, k: K)
    ensures Where(rs + [r], key, k) == Where(rs, key, k) + (if key(r) == k then [r] else [])
  {
    if rs == [] {
      assert rs + [r] == [r];
    } else {
      assert (rs + [r])[1..] == rs[1..] + [r];
      WhereAppend(rs[1..], r, key, k);
    }
  }

  /** Total production (kg) of a collection of records. */
  function SumProd(rs: seq<Record>): real
  {
    if rs == [] then 0.0 else rs[0].prod + SumProd(rs[1..])
  }

  /** Total number of operations of a collection of records. */
  function SumOps(rs: seq<Record>): int
  {
    if rs == [] then 0 else rs[0].ops + SumOps(rs[1..])
  }

  lemma {:induction false} SumProdAppend(a: seq<Record>, b: seq<Record>)
    ensures SumProd(a + b) == SumProd(a) + SumProd(b)
  {
    if a == [] {
      assert a + b == b;
    } else {
      assert (a + b)[1..] == a[1..] + b;
      SumProdAppend(a[1..], b);
    }
  }

  lemma {:induction false} SumOpsAppend(a: seq<Record>, b: seq<Record>)
    ensures SumOps(a + b) == SumOps(a) + SumOps(b)
  {
    if a == [] {
      assert a + b == b;
    } else {
      assert (a + b)[1..] == a[1..] + b;
      SumOpsAppend(a[1..], b);
    }
  }

  /** With non-negative operation counts the sum is zero exactly when every count is zero. */
  lemma {:induction false} SumOpsZero(rs: seq<Record>)
    requires forall i :: 0 <= i < |rs| ==> rs[i].ops >= 0
    ensures SumOps(rs) >= 0
    ensures SumOps(rs) == 0 <==> forall i :: 0 <= i < |rs| ==> rs[i].ops == 0
  {
    if rs != [] {
      SumOpsZero(rs[1..]);
      assert forall i :: 1 <= i < |rs| ==> rs[i].ops == rs[1..][i - 1].ops;
    }
  }

  /** The distinct dates of a collection (what `nunique` counts). */
  function Dates(rs: seq<Record>): set<int>
  {
    set r | r in rs :: r.date
  }

  /** The distinct partner names of a collection (the groups of a group-by on Nama Mitra). */
  function Partners(rs: seq<Record>): set<string>
  {
    set r | r in rs :: r.partner
  }

  /** The number of distinct dates: never more than the records, and at
      least one for a non-empty collection. */
  function DistinctDays(rs: seq<Record>): (n: nat)
    ensures n <= |rs|
    ensures rs != [] ==> n >= 1
  {
    DatesBound(rs);
    assert rs != [] ==> rs[0].date in Dates(rs);
    |Dates(rs)|
  }

  lemma {:induction false} DatesBound(rs: seq<Record>)
    ensures |Dates(rs)| <= |rs|
  {
    if rs != [] {
      DatesBound(rs[1..]);
      assert Dates(rs) == {rs[0].date} + Dates(rs[1..]) by {
        assert forall x :: x in rs <==> x == rs[0] || x in rs[1..];
      }
    }
  }

  /** Appending a record adds its date, and no other, to the distinct dates. */
  lemma DatesAppend(rs: seq<Record>, r: Record)
    ensures Dates(rs + [r]) == Dates(rs) + {r.date}
  {
    assert forall x :: x in rs + [r] <==> x in rs || x == r;
  }

  /** A record for an already-reported date leaves the day count unchanged;
      a record for a new date raises it by exactly one. */
  lemma DistinctDaysAppend(rs: seq<Record>, r: Record)
    ensures r.date in Dates(rs) ==> DistinctDays(rs + [r]) == DistinctDays(rs)
    ensures r.date !in Dates(rs) ==> DistinctDays(rs + [r]) == DistinctDays(rs) + 1
  {
    DatesAppend(rs, r);
  }

  /** A non-empty collection has at least one distinct date. */
  lemma {:induction false} DistinctDaysPositive(rs: seq<Record>)
    requires rs != []
    ensures DistinctDays(rs) >= 1
  {
    assert rs[0].date in Dates(rs);
  }
}
