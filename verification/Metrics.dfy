/** Nearest-rank percentiles, and the per-tool rollup. */
module Metrics {
  import opened Common
  import Tools

  // -- Sorting ----------------------------------------------------------

  function Insert(x: real, s: seq<real>): seq<real> {
    if s == [] then [x]
    else if x <= s[0] then [x] + s
    else [s[0]] + Insert(x, s[1..])
  }

  function Sort(s: seq<real>): seq<real> {
    if s == [] then [] else Insert(s[0], Sort(s[1..]))
  }

  predicate Sorted(s: seq<real>) {
    forall i, j | 0 <= i < j < |s| :: s[i] <= s[j]
  }

  lemma {:induction false} InsertContents(x: real, s: seq<real>)
    ensures multiset(Insert(x, s)) == multiset(s) + multiset{x} && |Insert(x, s)| == |s| + 1
  {
    if s != [] {
      InsertContents(x, s[1..]);
      assert s == [s[0]] + s[1..];
    }
  }

  predicate Bounds(low: real, s: seq<real>) {
    forall i | 0 <= i < |s| :: low <= s[i]
  }

  lemma {:induction false} InsertSorts(x: real, s: seq<real>)
    requires Sorted(s)
    ensures Sorted(Insert(x, s))
    ensures forall low: real | low <= x && Bounds(low, s) :: Bounds(low, Insert(x, s))
  {
    if s != [] && x > s[0] {
      InsertSorts(x, s[1..]);
      assert Bounds(s[0], s[1..]);
      assert Bounds(s[0], Insert(x, s[1..]));
      forall low: real | low <= x && Bounds(low, s) ensures Bounds(low, Insert(x, s)) {
        assert low <= s[0] && Bounds(low, s[1..]);
      }
    }
  }

  lemma {:induction false} SortSorts(s: seq<real>)
    ensures Sorted(Sort(s)) && multiset(Sort(s)) == multiset(s) && |Sort(s)| == |s|
  {
    if s != [] {
      SortSorts(s[1..]);
      InsertSorts(s[0], Sort(s[1..]));
      InsertContents(s[0], Sort(s[1..]));
      assert s == [s[0]] + s[1..];
    }
  }

  lemma SortedHead(a: seq<real>, b: seq<real>)
    requires Sorted(a) && Sorted(b) && multiset(a) == multiset(b) && a != []
    ensures b != [] && a[0] == b[0]
  {
    assert a[0] in multiset(b) && |multiset(a)| == |multiset(b)|;
    assert b[0] in multiset(a);
  }

  lemma RestContents(s: seq<real>)
    requires s != []
    ensures multiset(s[1..]) == multiset(s) - multiset{s[0]}
  {
    assert s == [s[0]] + s[1..];
  }

  /** A multiset has one sorted arrangement. */
  lemma {:induction false} SortedUnique(a: seq<real>, b: seq<real>)
    requires Sorted(a) && Sorted(b) && multiset(a) == multiset(b)
    ensures a == b
    decreases |a|
  {
    if a == [] {
      assert |multiset(b)| == |multiset(a)|;
    } else {
      SortedHead(a, b);
      RestContents(a);
      RestContents(b);
      SortedUnique(a[1..], b[1..]);
      assert a == [a[0]] + a[1..] && b == [b[0]] + b[1..];
    }
  }

  // -- Percentiles ------------------------------------------------------

  /** The rank of a share of `n` samples, counted from one. */
  function RankOf(share: real, n: nat): (rank: nat)
    requires n > 0
    ensures 1 <= rank <= n
    ensures 0.0 < share <= n as real ==> (rank - 1) as real < share <= rank as real
    ensures share >= n as real ==> rank == n
  {
    Min(Max(Ceil(share), 1), n)
  }

  function Share(p: real, n: nat): real { p * n as real }

  function Rank(p: real, n: nat): (rank: nat)
    requires n > 0
    ensures 1 <= rank <= n
  {
    if p <= 0.0 then 1 else RankOf(Share(p, n), n)
  }

  function Percentile(samples: seq<real>, p: real): Option<real> {
    if samples == [] then None
    else
      SortSorts(samples);
      Some(Sort(samples)[Rank(p, |samples|) - 1])
  }

  lemma Scaled(p: real, n: nat)
    requires 0.0 < p <= 1.0 && n > 0
    ensures 0.0 < Share(p, n) <= n as real
  {
  }

  lemma Widened(p: real, q: real, size: real)
    requires p <= q && size >= 0.0
    ensures p * size <= q * size
  {
  }

  lemma ShareMonotone(p: real, q: real, n: nat)
    requires p <= q
    ensures Share(p, n) <= Share(q, n)
  {
    Widened(p, q, n as real);
  }

  lemma RankOfMonotone(x: real, y: real, n: nat)
    requires x <= y && n > 0
    ensures RankOf(x, n) <= RankOf(y, n)
  {
    assert (Ceil(x) - 1) as real < Ceil(y) as real;
  }

  lemma RankMonotone(p: real, q: real, n: nat)
    requires p <= q && n > 0
    ensures Rank(p, n) <= Rank(q, n)
  {
    if p > 0.0 {
      ShareMonotone(p, q, n);
      RankOfMonotone(Share(p, n), Share(q, n), n);
    }
  }

  function AtMost(s: seq<real>, x: real): nat {
    if s == [] then 0 else (if s[0] <= x then 1 else 0) + AtMost(s[1..], x)
  }

  function Below(s: seq<real>, x: real): nat {
    if s == [] then 0 else (if s[0] < x then 1 else 0) + Below(s[1..], x)
  }

  lemma {:induction false} InsertCounts(x: real, s: seq<real>, v: real)
    ensures AtMost(Insert(x, s), v) == AtMost(s, v) + (if x <= v then 1 else 0)
    ensures Below(Insert(x, s), v) == Below(s, v) + (if x < v then 1 else 0)
  {
    if s != [] {
      if x <= s[0] {
        assert ([x] + s)[1..] == s;
      } else {
        InsertCounts(x, s[1..], v);
        assert ([s[0]] + Insert(x, s[1..]))[1..] == Insert(x, s[1..]);
      }
    }
  }

  lemma {:induction false} SortCounts(s: seq<real>, v: real)
    ensures AtMost(Sort(s), v) == AtMost(s, v) && Below(Sort(s), v) == Below(s, v)
  {
    if s != [] {
      SortCounts(s[1..], v);
      InsertCounts(s[0], Sort(s[1..]), v);
    }
  }

  /** In a sorted list, position `k` splits the counts. */
  lemma {:induction false} SortedCounts(s: seq<real>, k: nat)
    requires Sorted(s) && k < |s|
    ensures AtMost(s, s[k]) >= k + 1 && Below(s, s[k]) <= k
  {
    if k > 0 {
      SortedCounts(s[1..], k - 1);
    } else {
      NoneBelow(s, s[0]);
    }
  }

  lemma {:induction false} NoneBelow(s: seq<real>, x: real)
    requires forall i | 0 <= i < |s| :: x <= s[i]
    ensures Below(s, x) == 0
  {
    if s != [] {
      NoneBelow(s[1..], x);
    }
  }

  /**
   The nearest rank: an observed value, with at least the share `p` of the samples at or
   below it and less than that share strictly below it.
   */
  lemma NearestRank(samples: seq<real>, p: real)
    requires samples != [] && 0.0 < p <= 1.0
    ensures var r := Percentile(samples, p).value;
            && r in samples
            && AtMost(samples, r) as real >= Share(p, |samples|)
            && (Below(samples, r) as real) < Share(p, |samples|)
  {
    var r := PercentileRanked(samples, p);
    RankReaches(p, |samples|, AtMost(samples, r), Below(samples, r));
  }

  lemma PercentileRanked(samples: seq<real>, p: real) returns (r: real)
    requires samples != []
    ensures Percentile(samples, p) == Some(r) && r in samples
    ensures Below(samples, r) < Rank(p, |samples|) <= AtMost(samples, r)
  {
    r := Ranked(samples, Rank(p, |samples|));
  }

  lemma RankReaches(p: real, n: nat, atMost: nat, below: nat)
    requires 0.0 < p <= 1.0 && n > 0 && below < Rank(p, n) <= atMost
    ensures (below as real) < Share(p, n) <= atMost as real
  {
    Scaled(p, n);
    CountsReach(Share(p, n), n, atMost, below);
  }

  lemma CountsReach(share: real, n: nat, atMost: nat, below: nat)
    requires 0.0 < share <= n as real
    requires n > 0 && below < RankOf(share, n) <= atMost
    ensures (below as real) < share <= atMost as real
  {
  }

  lemma Ranked(samples: seq<real>, rank: nat) returns (r: real)
    requires 1 <= rank <= |samples|
    ensures |Sort(samples)| == |samples| && r == Sort(samples)[rank - 1]
    ensures r in samples && AtMost(samples, r) >= rank && Below(samples, r) <= rank - 1
  {
    SortSorts(samples);
    r := Sort(samples)[rank - 1];
    SortedCounts(Sort(samples), rank - 1);
    SortCounts(samples, r);
    assert r in multiset(Sort(samples));
  }

  /** Those two counts leave no choice: no other sample has them. */
  lemma NearestRankUnique(samples: seq<real>, p: real, x: real)
    requires samples != [] && 0.0 < p <= 1.0 && x in samples
    requires AtMost(samples, x) as real >= Share(p, |samples|)
    requires (Below(samples, x) as real) < Share(p, |samples|)
    ensures Percentile(samples, p) == Some(x)
  {
    NearestRank(samples, p);
    var r := Percentile(samples, p).value;
    if x < r {
      CountsSeparate(samples, x, r);
    } else if r < x {
      CountsSeparate(samples, r, x);
    }
  }

  lemma {:induction false} CountsSeparate(s: seq<real>, x: real, y: real)
    requires x < y
    ensures AtMost(s, x) <= Below(s, y)
  {
    if s != [] {
      CountsSeparate(s[1..], x, y);
    }
  }

  /** The order the samples arrive in does not matter. */
  lemma PermutationInvariant(a: seq<real>, b: seq<real>, p: real)
    requires multiset(a) == multiset(b)
    ensures Percentile(a, p) == Percentile(b, p)
  {
    SameSort(a, b);
  }

  lemma SameSort(a: seq<real>, b: seq<real>)
    requires multiset(a) == multiset(b)
    ensures Sort(a) == Sort(b) && |a| == |b|
  {
    SortSorts(a);
    SortSorts(b);
    SortedUnique(Sort(a), Sort(b));
  }

  lemma SortedAscends(samples: seq<real>, i: nat, j: nat)
    requires i <= j < |samples|
    ensures |Sort(samples)| == |samples| && Sort(samples)[i] <= Sort(samples)[j]
  {
    SortSorts(samples);
  }

  /** A larger share never gives a smaller value. */
  lemma PercentileMonotone(samples: seq<real>, p: real, q: real)
    requires samples != [] && p <= q
    ensures Percentile(samples, p).value <= Percentile(samples, q).value
  {
    RankMonotone(p, q, |samples|);
    SortedAscends(samples, Rank(p, |samples|) - 1, Rank(q, |samples|) - 1);
  }

  datatype Distribution = Distribution(count: nat, p50: Option<real>, p95: Option<real>, max: Option<real>)

  function MaxOf(s: seq<real>): real
    requires s != []
  {
    if |s| == 1 then s[0] else MaxReal(s[0], MaxOf(s[1..]))
  }

  function Summarise(samples: seq<Option<real>>): Distribution {
    var values := Present(samples);
    if values == [] then Distribution(0, None, None, None)
    else Distribution(|values|, Percentile(values, 0.5), Percentile(values, 0.95), Some(MaxOf(values)))
  }

  function Present(samples: seq<Option<real>>): seq<real> {
    if samples == [] then []
    else (if samples[0].Some? then [samples[0].value] else []) + Present(samples[1..])
  }

  lemma {:induction false} MaxOfIsMax(s: seq<real>)
    requires s != []
    ensures MaxOf(s) in s && forall x | x in s :: x <= MaxOf(s)
  {
    if |s| > 1 {
      MaxOfIsMax(s[1..]);
      assert s == [s[0]] + s[1..];
    }
  }

  /** The reported figures are observed values in order, and a figure is missing only with no sample. */
  lemma SummaryOrdered(samples: seq<Option<real>>)
    ensures var d, values := Summarise(samples), Present(samples);
            && (d.p50.None? <==> values == []) && (d.p95.None? <==> values == []) && (d.max.None? <==> values == [])
            && (values != [] ==>
                  && d.p50.value in values && d.p95.value in values && d.max.value in values
                  && d.p50.value <= d.p95.value <= d.max.value
                  && d.count == |values|)
  {
    var values := Present(samples);
    if values != [] {
      NearestRank(values, 0.5);
      NearestRank(values, 0.95);
      PercentileMonotone(values, 0.5, 0.95);
      MaxOfIsMax(values);
    }
  }

  lemma HalfAndNineteenTwentieths(n: nat, k: nat)
    ensures k as real >= Share(0.5, n) <==> 2 * k >= n
    ensures k as real >= Share(0.95, n) <==> 20 * k >= 19 * n
  {
  }

  /** The median, the 95th percentile and the maximum, told by counting. */
  lemma SummaryMeans(samples: seq<Option<real>>)
    requires Present(samples) != []
    ensures var d, values := Summarise(samples), Present(samples);
            var n := |values|;
            && d.p50.Some? && d.p95.Some? && d.max.Some? && d.count == n
            && 2 * AtMost(values, d.p50.value) >= n > 2 * Below(values, d.p50.value)
            && 20 * AtMost(values, d.p95.value) >= 19 * n > 20 * Below(values, d.p95.value)
            && d.max.value in values && forall x | x in values :: x <= d.max.value
  {
    var values := Present(samples);
    SummaryOrdered(samples);
    NearestRank(values, 0.5);
    NearestRank(values, 0.95);
    MaxOfIsMax(values);
    var p50, p95 := Percentile(values, 0.5).value, Percentile(values, 0.95).value;
    HalfAndNineteenTwentieths(|values|, AtMost(values, p50));
    HalfAndNineteenTwentieths(|values|, Below(values, p50));
    HalfAndNineteenTwentieths(|values|, AtMost(values, p95));
    HalfAndNineteenTwentieths(|values|, Below(values, p95));
  }

  /** Missing samples are left out, and nothing else is. */
  lemma {:induction false} PresentMeans(samples: seq<Option<real>>, x: real)
    ensures multiset(Present(samples))[x] == multiset(samples)[Some(x)]
  {
    if samples != [] {
      PresentMeans(samples[1..], x);
      assert samples == [samples[0]] + samples[1..];
    }
  }

  /** A share of nothing, or less, is the smallest sample. */
  lemma NoShareIsMinimum(samples: seq<real>, p: real)
    requires samples != [] && p <= 0.0
    ensures var r := Percentile(samples, p).value; r in samples && forall x | x in samples :: r <= x
  {
    var r := Ranked(samples, 1);
    SortSorts(samples);
    forall x | x in samples ensures r <= x {
      assert x in multiset(Sort(samples));
    }
  }

  /** And the whole share, or more, the largest. */
  lemma FullShareIsMaximum(samples: seq<real>, p: real)
    requires samples != [] && p >= 1.0
    ensures var r := Percentile(samples, p).value; r in samples && forall x | x in samples :: x <= r
  {
    FullShare(p, |samples|);
    var r := Ranked(samples, |samples|);
    SortSorts(samples);
    forall x | x in samples ensures x <= r {
      assert x in multiset(Sort(samples));
    }
  }

  lemma FullShare(p: real, n: nat)
    requires p >= 1.0 && n > 0
    ensures Rank(p, n) == n
  {
    ShareMonotone(1.0, p, n);
  }

  // -- The per-tool rollup ----------------------------------------------

  datatype Row = Row(name: string, status: Tools.Status, latencyMs: real, attempt: int)

  /** Only a dead provider or a refused call counts; not finding something is the tool working. */
  predicate IsFailure(s: Tools.Status) { s.Unavailable? || s.Denied? }

  /** The rows of one tool, in order. */
  function Of(rows: seq<Row>, name: string): seq<Row> {
    if rows == [] then []
    else Of(rows[..|rows| - 1], name) + (if rows[|rows| - 1].name == name then [rows[|rows| - 1]] else [])
  }

  lemma OfNext(rows: seq<Row>, i: nat, name: string)
    requires i < |rows|
    ensures Of(rows[..i + 1], name) == if rows[i].name == name then Of(rows[..i], name) + [rows[i]] else Of(rows[..i], name)
  {
    assert rows[..i + 1][..i] == rows[..i];
  }

  ghost predicate Grouped(grouped: map<string, seq<Row>>, rows: seq<Row>) {
    forall name: string :: Of(rows, name) == if name in grouped then grouped[name] else []
  }

  predicate NoneEmpty(grouped: map<string, seq<Row>>) {
    forall name | name in grouped :: grouped[name] != []
  }

  function Filed(grouped: map<string, seq<Row>>, row: Row): map<string, seq<Row>> {
    grouped[row.name := (if row.name in grouped then grouped[row.name] else []) + [row]]
  }

  lemma FiledKeeps(grouped: map<string, seq<Row>>, rows: seq<Row>, i: nat)
    requires i < |rows| && Grouped(grouped, rows[..i]) && NoneEmpty(grouped)
    ensures Grouped(Filed(grouped, rows[i]), rows[..i + 1]) && NoneEmpty(Filed(grouped, rows[i]))
  {
    var next := Filed(grouped, rows[i]);
    forall name: string ensures Of(rows[..i + 1], name) == if name in next then next[name] else [] {
      OfNext(rows, i, name);
    }
  }

  lemma {:induction false} OfHolds(rows: seq<Row>, r: Row)
    requires r in rows
    ensures r in Of(rows, r.name)
  {
    var rest, last := rows[..|rows| - 1], rows[|rows| - 1];
    assert rows == rest + [last];
    if r != last {
      OfHolds(rest, r);
    }
  }

  method Group(rows: seq<Row>) returns (grouped: map<string, seq<Row>>)
    ensures forall name | name in grouped :: grouped[name] == Of(rows, name) && grouped[name] != []
    ensures forall r | r in rows :: r.name in grouped
  {
    grouped := map[];
    for i := 0 to |rows|
      invariant Grouped(grouped, rows[..i]) && NoneEmpty(grouped)
    {
      FiledKeeps(grouped, rows, i);
      grouped := grouped[rows[i].name := (if rows[i].name in grouped then grouped[rows[i].name] else []) + [rows[i]]];
    }
    assert rows[..|rows|] == rows;
    forall r | r in rows ensures r.name in grouped {
      OfHolds(rows, r);
      assert Of(rows, r.name) != [];
    }
  }

  function Failures(rows: seq<Row>): nat {
    if rows == [] then 0
    else Failures(rows[..|rows| - 1]) + (if IsFailure(rows[|rows| - 1].status) then 1 else 0)
  }

  function Retried(rows: seq<Row>): nat {
    if rows == [] then 0
    else Retried(rows[..|rows| - 1]) + (if rows[|rows| - 1].attempt > 1 then 1 else 0)
  }

  function Latencies(rows: seq<Row>): seq<Option<real>> {
    seq(|rows|, i requires 0 <= i < |rows| => Some(rows[i].latencyMs))
  }

  datatype Tally = Tally(calls: nat, failures: nat, retried: nat)
  {
    function Plus(other: Tally): Tally {
      Tally(calls + other.calls, failures + other.failures, retried + other.retried)
    }
  }

  datatype ToolStats = ToolStats(name: string, tally: Tally, latency: Distribution)

  function TallyOf(rows: seq<Row>): Tally {
    Tally(|rows|, Failures(rows), Retried(rows))
  }

  function Stats(rows: seq<Row>, name: string): Tally {
    TallyOf(Of(rows, name))
  }

  function Totals(rows: seq<Row>, names: seq<string>): Tally {
    if names == [] then Tally(0, 0, 0) else Stats(rows, names[0]).Plus(Totals(rows, names[1..]))
  }

  function Sum(tools: seq<ToolStats>): Tally {
    if tools == [] then Tally(0, 0, 0) else tools[0].tally.Plus(Sum(tools[1..]))
  }

  predicate Distinct(names: seq<string>) {
    forall i, j | 0 <= i < j < |names| :: names[i] != names[j]
  }

  lemma StatsGrow(rows: seq<Row>, row: Row, name: string)
    ensures var before, after := Stats(rows, name), Stats(rows + [row], name);
            if row.name == name then
              && after.calls == before.calls + 1
              && after.failures == before.failures + (if IsFailure(row.status) then 1 else 0)
              && after.retried == before.retried + (if row.attempt > 1 then 1 else 0)
            else after == before
  {
    var more, of := rows + [row], Of(rows, name);
    assert more[..|more| - 1] == rows;
    assert Of(more, name) == of + (if row.name == name then [row] else []);
    assert (of + [row])[..|of + [row]| - 1] == of && of + [] == of;
  }

  lemma {:induction false} TotalsGrow(rows: seq<Row>, row: Row, names: seq<string>)
    requires Distinct(names)
    ensures var before, after := Totals(rows, names), Totals(rows + [row], names);
            if row.name in names then
              && after.calls == before.calls + 1
              && after.failures == before.failures + (if IsFailure(row.status) then 1 else 0)
              && after.retried == before.retried + (if row.attempt > 1 then 1 else 0)
            else after == before
  {
    if names != [] {
      StatsGrow(rows, row, names[0]);
      TotalsGrow(rows, row, names[1..]);
    }
  }

  lemma {:induction false} TotalsOfNothing(names: seq<string>)
    ensures Totals([], names) == Tally(0, 0, 0)
  {
    if names != [] {
      TotalsOfNothing(names[1..]);
    }
  }

  /**
   The rollup loses and invents nothing: listed in any order, the tools' calls, failures
   and retries add up to those of the rows.
   */
  lemma {:induction false} RollupConserves(rows: seq<Row>, names: seq<string>)
    requires Distinct(names) && forall r | r in rows :: r.name in names
    ensures Totals(rows, names) == TallyOf(rows)
    decreases |rows|
  {
    if rows == [] {
      TotalsOfNothing(names);
    } else {
      var before, row := rows[..|rows| - 1], rows[|rows| - 1];
      assert rows == before + [row];
      RollupConserves(before, names);
      TotalsGrow(before, row, names);
    }
  }

  // -- The report -------------------------------------------------------

  /** Names by code point, as the report sorts them. */
  predicate Leq(a: string, b: string) {
    a == "" || (b != "" && (a[0] < b[0] || (a[0] == b[0] && Leq(a[1..], b[1..]))))
  }

  lemma {:induction false} LeqTotal(a: string, b: string)
    ensures Leq(a, b) || Leq(b, a)
    ensures Leq(a, b) && Leq(b, a) ==> a == b
  {
    if a != "" && b != "" {
      LeqTotal(a[1..], b[1..]);
      assert a == [a[0]] + a[1..] && b == [b[0]] + b[1..];
    }
  }

  lemma {:induction false} LeqTransitive(a: string, b: string, c: string)
    requires Leq(a, b) && Leq(b, c)
    ensures Leq(a, c)
  {
    if a != "" && a[0] == b[0] == c[0] {
      LeqTransitive(a[1..], b[1..], c[1..]);
    }
  }

  /** The first difference decides, by the smaller character; with none, the shorter name comes first. */
  lemma {:induction false} LeqMeans(a: string, b: string, k: nat)
    requires k <= |a| && k <= |b| && a[..k] == b[..k]
    ensures k == |a| ==> Leq(a, b)
    ensures k == |b| < |a| ==> !Leq(a, b)
    ensures k < |a| && k < |b| && a[k] != b[k] ==> (Leq(a, b) <==> a[k] < b[k])
  {
    if k > 0 {
      assert a[..k][0] == a[0] && b[..k][0] == b[0];
      assert a[1..][..k - 1] == a[..k][1..] && b[1..][..k - 1] == b[..k][1..];
      LeqMeans(a[1..], b[1..], k - 1);
    }
  }

  predicate Least(name: string, names: set<string>) {
    name in names && forall other | other in names :: Leq(name, other)
  }

  lemma {:induction false} HasLeast(names: set<string>)
    requires names != {}
    ensures exists name :: Least(name, names)
    decreases |names|
  {
    var some :| some in names;
    var rest := names - {some};
    if rest == {} {
      assert names == {some};
      LeqTotal(some, some);
      assert Least(some, names);
    } else {
      HasLeast(rest);
      var name :| Least(name, rest);
      LeqTotal(some, name);
      LeqTotal(some, some);
      if Leq(some, name) {
        forall other | other in names ensures Leq(some, other) {
          if other != some {
            LeqTransitive(some, name, other);
          }
        }
        assert Least(some, names);
      } else {
        assert Least(name, names);
      }
    }
  }

  predicate Ascending(tools: seq<ToolStats>) {
    forall i, j | 0 <= i < j < |tools| :: Leq(tools[i].name, tools[j].name) && tools[i].name != tools[j].name
  }

  function Names(tools: seq<ToolStats>): seq<string> {
    seq(|tools|, i requires 0 <= i < |tools| => tools[i].name)
  }

  /** Every entry is about the rows of its own tool. */
  predicate AboutRows(tools: seq<ToolStats>, rows: seq<Row>) {
    forall t | t in tools ::
      && Of(rows, t.name) != []
      && t.tally == TallyOf(Of(rows, t.name))
      && t.latency == Summarise(Latencies(Of(rows, t.name)))
  }

  lemma {:induction false} SumIsTotals(tools: seq<ToolStats>, rows: seq<Row>)
    requires AboutRows(tools, rows)
    ensures Sum(tools) == Totals(rows, Names(tools))
  {
    if tools != [] {
      var rest := tools[1..];
      assert tools[0] in tools && forall t | t in rest :: t in tools;
      SumIsTotals(rest, rows);
      assert Names(tools)[1..] == Names(rest) && Names(tools)[0] == tools[0].name;
    }
  }

  predicate Ahead(tools: seq<ToolStats>, remaining: set<string>) {
    forall name, t | name in remaining && t in tools :: Leq(t.name, name) && t.name != name
  }

  lemma EntryAdded(tools: seq<ToolStats>, entry: ToolStats, remaining: set<string>, rows: seq<Row>)
    requires Ascending(tools) && AboutRows(tools, rows) && AboutRows([entry], rows)
    requires Ahead(tools, remaining) && Least(entry.name, remaining)
    ensures Ascending(tools + [entry]) && AboutRows(tools + [entry], rows)
    ensures Ahead(tools + [entry], remaining - {entry.name})
    ensures Names(tools + [entry]) == Names(tools) + [entry.name]
  {
    assert entry in [entry];
  }

  /**
   The report's tools: one entry for each tool of the rows, in the order of their names,
   with the counts and the latencies of exactly that tool's rows. Nothing is lost: the
   entries' counts add up to those of the rows.
   */
  method Rollup(rows: seq<Row>) returns (tools: seq<ToolStats>)
    ensures Ascending(tools) && AboutRows(tools, rows)
    ensures forall r | r in rows :: r.name in Names(tools)
    ensures Sum(tools) == TallyOf(rows)
  {
    var grouped := Group(rows);
    var remaining := grouped.Keys;
    tools := [];
    while remaining != {}
      invariant remaining <= grouped.Keys && Ascending(tools) && AboutRows(tools, rows)
      invariant forall name | name in grouped :: name in remaining || name in Names(tools)
      invariant Ahead(tools, remaining)
      decreases |remaining|
    {
      HasLeast(remaining);
      var name :| Least(name, remaining);
      var own := grouped[name];
      var entry := ToolStats(name, TallyOf(own), Summarise(Latencies(own)));
      EntryAdded(tools, entry, remaining, rows);
      tools := tools + [entry];
      remaining := remaining - {name};
    }
    SumIsTotals(tools, rows);
    RollupConserves(rows, Names(tools));
  }

  // -- What is counted --------------------------------------------------

  function FailedAt(rows: seq<Row>): set<int> {
    set i | 0 <= i < |rows| && (rows[i].status == Tools.Unavailable || rows[i].status == Tools.Denied)
  }

  function RetriedAt(rows: seq<Row>): set<int> {
    set i | 0 <= i < |rows| && rows[i].attempt >= 2
  }

  lemma AtGrows(rows: seq<Row>, row: Row)
    ensures FailedAt(rows + [row])
         == FailedAt(rows) + if row.status == Tools.Unavailable || row.status == Tools.Denied then {|rows|} else {}
    ensures RetriedAt(rows + [row]) == RetriedAt(rows) + if row.attempt >= 2 then {|rows|} else {}
  {
  }

  /** A failure is a row whose tool was unavailable or refused the call, a retry one on a later attempt. */
  lemma {:induction false} CountsMean(rows: seq<Row>)
    ensures Failures(rows) == |FailedAt(rows)| && Retried(rows) == |RetriedAt(rows)|
  {
    if rows != [] {
      var before, row := rows[..|rows| - 1], rows[|rows| - 1];
      CountsMean(before);
      AtGrows(before, row);
      assert rows == before + [row];
    }
  }

  /** One tool's rows: part by part, in order, exactly those with its name. */
  lemma {:induction false} OfMeans(a: seq<Row>, b: seq<Row>, r: Row, name: string)
    ensures Of(a + b, name) == Of(a, name) + Of(b, name)
    ensures Of([r], name) == if r.name == name then [r] else []
    decreases |b|
  {
    assert [r][..0] == [];
    if b == [] {
      assert a + b == a;
    } else {
      var last := |b| - 1;
      assert (a + b)[..|a + b| - 1] == a + b[..last];
      OfMeans(a, b[..last], r, name);
    }
  }

  /** A tool's latencies are those of its rows, one for one. */
  lemma LatenciesMean(rows: seq<Row>)
    ensures |Present(Latencies(rows))| == |rows|
    ensures forall i | 0 <= i < |rows| :: Present(Latencies(rows))[i] == rows[i].latencyMs
  {
    AllPresent(Latencies(rows));
  }

  lemma {:induction false} AllPresent(samples: seq<Option<real>>)
    requires forall i | 0 <= i < |samples| :: samples[i].Some?
    ensures |Present(samples)| == |samples|
    ensures forall i | 0 <= i < |samples| :: Present(samples)[i] == samples[i].value
  {
    if samples != [] {
      AllPresent(samples[1..]);
      assert forall i | 1 <= i < |samples| :: samples[i] == samples[1..][i - 1];
    }
  }
}
