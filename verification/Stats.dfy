/** The run table and its per-device statistics. Times are whole seconds; SQL's NULL is
    None. */
module Stats {
  import opened Options

  datatype Run = Run(serial: string, finishedAt: int, passing: int, failing: int, found: bool, bootOk: bool,
                     bootSeconds: real,
                     totalSeconds: real, testSeconds: real, sessionMs: int, apkMs: int, hasLogs: bool)

  datatype Verdict = Pass | Fail | NotAvailable

  function VerdictOf(r: Run): Verdict
  {
    if !r.found then NotAvailable else if r.failing > 0 then Fail else Pass
  }

  /** The five measurements that are averaged. */
  datatype Metric = Boot | Test | Setup | Session | Apk

  /** A run's value for one measurement, if it qualifies. */
  function Sample(m: Metric, r: Run): Option<real>
  {
    match m
    case Boot => if r.bootOk then Some(r.bootSeconds) else None
    case Test => if r.found && r.testSeconds > 0.0 then Some(r.testSeconds) else None
    case Setup => if r.found && r.totalSeconds > r.testSeconds then Some(r.totalSeconds - r.testSeconds) else None
    case Session => if r.sessionMs > 0 then Some(r.sessionMs as real) else None
    case Apk => if r.apkMs > 0 then Some(r.apkMs as real) else None
  }

  // ── Aggregates ──

  function Sum(f: Run -> int, rows: seq<Run>): int
  {
    if rows == [] then 0 else f(rows[0]) + Sum(f, rows[1..])
  }

  function Samples(m: Metric, rows: seq<Run>): seq<real>
  {
    if rows == [] then []
    else (if Sample(m, rows[0]).Some? then [Sample(m, rows[0]).value] else []) + Samples(m, rows[1..])
  }

  function Total(vs: seq<real>): real
  {
    if vs == [] then 0.0 else vs[0] + Total(vs[1..])
  }

  function Least(vs: seq<real>): real
    requires vs != []
  {
    if |vs| == 1 || vs[0] <= Least(vs[1..]) then vs[0] else Least(vs[1..])
  }

  function Greatest(vs: seq<real>): real
    requires vs != []
  {
    if |vs| == 1 || vs[0] >= Greatest(vs[1..]) then vs[0] else Greatest(vs[1..])
  }

  datatype Spread = Spread(avg: real, min: real, max: real)

  const NO_SPREAD := Spread(0.0, 0.0, 0.0)

  /** AVG, MIN and MAX of a column: NULL when no row qualifies. */
  function SpreadOf(vs: seq<real>): Option<Spread>
  {
    if vs == [] then None else Some(Spread(Total(vs) / |vs| as real, Least(vs), Greatest(vs)))
  }

  lemma {:induction false} Bounds(vs: seq<real>)
    requires vs != []
    ensures Least(vs) in vs && Greatest(vs) in vs
    ensures forall v :: v in vs ==> Least(vs) <= v <= Greatest(vs)
  {
    assert vs == [vs[0]] + vs[1..];
    if |vs| > 1 {
      Bounds(vs[1..]);
    }
  }

  lemma Scaled(n: real, a: real, b: real)
    requires n >= 0.0 && a <= b
    ensures n * a <= n * b && (n + 1.0) * a == n * a + a
  {}

  lemma {:induction false} TotalBetween(vs: seq<real>, lo: real, hi: real)
    requires forall v :: v in vs ==> lo <= v <= hi
    requires lo <= hi
    ensures |vs| as real * lo <= Total(vs) <= |vs| as real * hi
  {
    if vs != [] {
      var n := |vs[1..]| as real;
      assert vs[0] in vs;
      forall v | v in vs[1..] ensures lo <= v <= hi { assert v in vs; }
      TotalBetween(vs[1..], lo, hi);
      Scaled(n, lo, hi);
      Scaled(n, hi, hi);
      assert |vs| as real == n + 1.0 && lo <= vs[0] <= hi;
    }
  }

  /** A column's spread is in order, and its bounds are values that occur. */
  lemma SpreadOrdered(vs: seq<real>)
    requires vs != []
    ensures var s := SpreadOf(vs).value;
            s.min <= s.avg <= s.max && s.min in vs && s.max in vs && forall v :: v in vs ==> s.min <= v <= s.max
  {
    Bounds(vs);
    TotalBetween(vs, Least(vs), Greatest(vs));
    var n, t := |vs| as real, Total(vs);
    Divided(n, t, Least(vs), Greatest(vs));
  }

  lemma Cancelled(n: real, a: real, b: real)
    requires n > 0.0 && n * a <= n * b
    ensures a <= b
  {}

  lemma Divided(n: real, t: real, lo: real, hi: real)
    requires n > 0.0 && n * lo <= t <= n * hi
    ensures lo <= t / n <= hi
  {
    var q := t / n;
    assert n * q == t;
    Cancelled(n, lo, q);
    Cancelled(n, q, hi);
  }

  // ── Grouping ──

  predicate InWindow(r: Run, from: Option<int>, to: Option<int>)
  {
    (from.Some? ==> r.finishedAt >= from.value) && (to.Some? ==> r.finishedAt <= to.value)
  }

  function Window(rows: seq<Run>, from: Option<int>, to: Option<int>): seq<Run>
  {
    if rows == [] then []
    else (if InWindow(rows[0], from, to) then [rows[0]] else []) + Window(rows[1..], from, to)
  }

  function OfDevice(rows: seq<Run>, serial: string): seq<Run>
  {
    if rows == [] then []
    else (if rows[0].serial == serial then [rows[0]] else []) + OfDevice(rows[1..], serial)
  }

  /** The serials that occur, each once. */
  function Serials(rows: seq<Run>): (ds: seq<string>)
    ensures forall i, j :: 0 <= i < j < |ds| ==> ds[i] != ds[j]
    ensures forall s :: s in ds <==> exists r :: r in rows && r.serial == s
  {
    if rows == [] then []
    else
      var rest := Serials(rows[1..]);
      assert rows == [rows[0]] + rows[1..];
      if rows[0].serial in rest then rest else [rows[0].serial] + rest
  }

  function SumOver(ds: seq<string>, f: string -> int): int
  {
    if ds == [] then 0 else f(ds[0]) + SumOver(ds[1..], f)
  }

  lemma {:induction false} SumOverAdd(ds: seq<string>, f: string -> int, g: string -> int, s: string, d: int)
    requires forall t :: f(t) == g(t) + (if t == s then d else 0)
    requires forall i, j :: 0 <= i < j < |ds| ==> ds[i] != ds[j]
    ensures SumOver(ds, f) == SumOver(ds, g) + (if s in ds then d else 0)
  {
    if ds != [] {
      SumOverAdd(ds[1..], f, g, s, d);
      assert s in ds <==> s == ds[0] || s in ds[1..];
    }
  }

  lemma {:induction false} SumOverZero(ds: seq<string>, f: string -> int)
    requires forall t :: f(t) == 0
    ensures SumOver(ds, f) == 0
  {
    if ds != [] { SumOverZero(ds[1..], f); }
  }

  lemma OfDeviceFirst(f: Run -> int, rows: seq<Run>, s: string)
    requires rows != []
    ensures Sum(f, OfDevice(rows, s)) == Sum(f, OfDevice(rows[1..], s))
            + (if s == rows[0].serial then f(rows[0]) else 0)
  {
    if s == rows[0].serial {
      assert OfDevice(rows, s)[1..] == OfDevice(rows[1..], s);
    } else {
      assert OfDevice(rows, s) == OfDevice(rows[1..], s);
    }
  }

  /** Whatever is summed per device adds up, over all devices, to its sum over all runs. */
  lemma {:induction false} GroupsAddUp(f: Run -> int, rows: seq<Run>, ds: seq<string>)
    requires forall i, j :: 0 <= i < j < |ds| ==> ds[i] != ds[j]
    requires forall r :: r in rows ==> r.serial in ds
    ensures SumOver(ds, s => Sum(f, OfDevice(rows, s))) == Sum(f, rows)
  {
    var all := s => Sum(f, OfDevice(rows, s));
    if rows == [] {
      SumOverZero(ds, all);
    } else {
      var rest := s => Sum(f, OfDevice(rows[1..], s));
      GroupsAddUp(f, rows[1..], ds);
      forall s ensures all(s) == rest(s) + (if s == rows[0].serial then f(rows[0]) else 0) {
        OfDeviceFirst(f, rows, s);
      }
      SumOverAdd(ds, all, rest, rows[0].serial, f(rows[0]));
    }
  }

  // ── Statistics ──

  function FailedCase(r: Run): int { if !r.found || r.failing > 0 then 1 else 0 }

  function TestsCase(r: Run): int { if r.found then r.passing + r.failing else 1 }

  function FailCase(r: Run): int { if r.found then r.failing else 1 }

  function OneEach(r: Run): int { 1 }

  datatype DeviceStats = DeviceStats(serial: string, totalRuns: int, failedRuns: int, totalTests: int, totalFail: int,
                                     spreads: map<Metric, Spread>)

  /** One row of the GROUP BY query, before the NULLs are dealt with. */
  datatype Group = Group(serial: string, totalRuns: int, failedRuns: int, totalTests: int, totalFail: int,
                         spread: Metric -> Option<Spread>)

  function GroupOf(rows: seq<Run>, serial: string): Group
  {
    var mine := OfDevice(rows, serial);
    Group(serial, |mine|, Sum(FailedCase, mine), Sum(TestsCase, mine), Sum(FailCase, mine),
          m => SpreadOf(Samples(m, mine)))
  }

  function PassRate(s: DeviceStats): real
  {
    if s.totalTests == 0 then 0.0 else (s.totalTests - s.totalFail) as real / s.totalTests as real * 100.0
  }

  /** What `Stats` owes for one device. */
  ghost predicate StatsOf(st: DeviceStats, rows: seq<Run>)
  {
    var g := GroupOf(rows, st.serial);
    && st.totalRuns == g.totalRuns && st.failedRuns == g.failedRuns && st.totalTests == g.totalTests
    && st.totalFail == g.totalFail
    && st.spreads.Keys == {Boot, Test, Setup, Session, Apk}
    && (forall m :: m in st.spreads ==> st.spreads[m] == if g.spread(m).Some? then g.spread(m).value else NO_SPREAD)
  }

  predicate NonNegative(r: Run)
  {
    r.passing >= 0 && r.failing >= 0
  }

  lemma {:induction false} CountsOrdered(rows: seq<Run>)
    requires forall r :: r in rows ==> NonNegative(r)
    ensures 0 <= Sum(FailedCase, rows) <= Sum(FailCase, rows) <= Sum(TestsCase, rows)
    ensures Sum(FailedCase, rows) == |NotPassed(rows)| && Sum(FailedCase, rows) <= |rows|
  {
    if rows != [] {
      assert rows == [rows[0]] + rows[1..];
      CountsOrdered(rows[1..]);
      assert NonNegative(rows[0]);
    }
  }

  /** The runs whose verdict is not PASS. */
  function NotPassed(rows: seq<Run>): seq<Run>
  {
    if rows == [] then [] else (if VerdictOf(rows[0]) != Pass then [rows[0]] else []) + NotPassed(rows[1..])
  }

  lemma {:induction false} OfDeviceIn(rows: seq<Run>, s: string)
    ensures forall r :: r in OfDevice(rows, s) <==> r in rows && r.serial == s
  {
    if rows != [] {
      assert rows == [rows[0]] + rows[1..];
      OfDeviceIn(rows[1..], s);
    }
  }

  /** One device's numbers are in order: failed runs are those without a PASS, every one of
      them has a failure to show, and the pass rate is a percentage. */
  lemma StatsOrdered(st: DeviceStats, rows: seq<Run>)
    requires StatsOf(st, rows) && forall r :: r in rows ==> NonNegative(r)
    ensures st.failedRuns == |NotPassed(OfDevice(rows, st.serial))| && st.failedRuns <= st.totalRuns
    ensures 0 <= st.failedRuns <= st.totalFail <= st.totalTests
    ensures 0.0 <= PassRate(st) <= 100.0 && (st.totalTests == 0 ==> PassRate(st) == 0.0)
    ensures PassRate(st) * st.totalTests as real == (100 * (st.totalTests - st.totalFail)) as real
    ensures st.totalTests > 0 ==> (PassRate(st) == 100.0 <==> st.failedRuns == 0)
    ensures forall m :: m in st.spreads ==> SpreadOk(st.spreads[m], Samples(m, OfDevice(rows, st.serial)))
  {
    var mine := OfDevice(rows, st.serial);
    OfDeviceIn(rows, st.serial);
    CountsOrdered(mine);
    NoFailures(mine);
    RateOk(st);
    forall m | m in st.spreads ensures SpreadOk(st.spreads[m], Samples(m, mine)) {
      if Samples(m, mine) != [] { SpreadOrdered(Samples(m, mine)); }
    }
  }

  lemma RateOk(st: DeviceStats)
    requires 0 <= st.totalFail <= st.totalTests
    ensures 0.0 <= PassRate(st) <= 100.0
    ensures PassRate(st) * st.totalTests as real == (100 * (st.totalTests - st.totalFail)) as real
    ensures st.totalTests > 0 ==> (PassRate(st) == 100.0 <==> st.totalFail == 0)
  {
    if st.totalTests > 0 {
      Percentage(st.totalTests - st.totalFail, st.totalTests);
    }
  }

  /** Zero without qualifying runs; otherwise min <= avg <= max, tight bounds of the sample. */
  ghost predicate SpreadOk(s: Spread, vs: seq<real>)
  {
    if vs == [] then s == NO_SPREAD
    else s.min <= s.avg <= s.max && s.min in vs && s.max in vs && forall v :: v in vs ==> s.min <= v <= s.max
  }

  lemma {:induction false} NoFailures(rows: seq<Run>)
    requires forall r :: r in rows ==> NonNegative(r)
    ensures Sum(FailCase, rows) == 0 <==> Sum(FailedCase, rows) == 0
  {
    if rows != [] {
      assert rows == [rows[0]] + rows[1..];
      NoFailures(rows[1..]);
      CountsOrdered(rows[1..]);
      assert NonNegative(rows[0]);
    }
  }

  lemma Hundredfold(a: real, b: real)
    requires b > 0.0
    ensures a / b * 100.0 * b == a * 100.0
  {
    var q := a / b;
    assert q * b == a;
  }

  lemma Percentage(a: int, b: int)
    requires 0 <= a <= b && b > 0
    ensures 0.0 <= a as real / b as real * 100.0 <= 100.0
    ensures a as real / b as real * 100.0 == 100.0 <==> a == b
    ensures a as real / b as real * 100.0 * b as real == (100 * a) as real
  {
    Hundredfold(a as real, b as real);
    Divided(b as real, a as real, 0.0, 1.0);
    assert a as real == b as real * (a as real / b as real);
    if a == b { Divided(b as real, a as real, 1.0, 1.0); }
  }

  // ── The query by columns ──

  /** The run finished no earlier than `from` and no later than `to`, where these are given. */
  predicate Dated(r: Run, from: Option<int>, to: Option<int>)
  {
    (from == None || from.value <= r.finishedAt) && (to == None || r.finishedAt <= to.value)
  }

  /** The runs of one device in the window: each as often as it is in the table. */
  ghost predicate Chosen(mine: seq<Run>, rows: seq<Run>, serial: string, from: Option<int>, to: Option<int>)
  {
    forall r :: ChosenAt(r, mine, rows, serial, from, to)
  }

  predicate ChosenAt(r: Run, mine: seq<Run>, rows: seq<Run>, serial: string, from: Option<int>, to: Option<int>)
  {
    multiset(mine)[r] == if r.serial == serial && Dated(r, from, to) then multiset(rows)[r] else 0
  }

  lemma HowOften(r: Run, a: seq<Run>, b: seq<Run>)
    ensures multiset(a + b)[r] == multiset(a)[r] + multiset(b)[r]
  {}

  lemma Prepended(r: Run, x: Run, tail: seq<Run>, rest: seq<Run>, serial: string, from: Option<int>, to: Option<int>)
    requires ChosenAt(r, rest, tail, serial, from, to)
    ensures InWindow(x, from, to) && x.serial == serial ==> ChosenAt(r, [x] + rest, [x] + tail, serial, from, to)
    ensures !(InWindow(x, from, to) && x.serial == serial) ==> ChosenAt(r, rest, [x] + tail, serial, from, to)
  {
    HowOften(r, [x], tail);
    HowOften(r, [x], rest);
  }

  lemma OneMore(r: Run, rows: seq<Run>, rest: seq<Run>, mine: seq<Run>, serial: string, from: Option<int>,
                to: Option<int>)
    requires rows != [] && ChosenAt(r, rest, rows[1..], serial, from, to)
    requires mine == (if InWindow(rows[0], from, to) && rows[0].serial == serial then [rows[0]] else []) + rest
    ensures ChosenAt(r, mine, rows, serial, from, to)
  {
    Prepended(r, rows[0], rows[1..], rest, serial, from, to);
    assert [rows[0]] + rows[1..] == rows && [] + rest == rest;
  }

  lemma {:induction false} RunChosen(r: Run, rows: seq<Run>, serial: string, from: Option<int>, to: Option<int>)
    ensures ChosenAt(r, OfDevice(Window(rows, from, to), serial), rows, serial, from, to)
  {
    if rows != [] {
      RunChosen(r, rows[1..], serial, from, to);
      WindowFirst(rows, from, to, serial);
      OneMore(r, rows, OfDevice(Window(rows[1..], from, to), serial), OfDevice(Window(rows, from, to), serial), serial,
              from, to);
    }
  }

  lemma GroupChosen(rows: seq<Run>, serial: string, from: Option<int>, to: Option<int>)
    ensures Chosen(OfDevice(Window(rows, from, to), serial), rows, serial, from, to)
  {
    forall r ensures ChosenAt(r, OfDevice(Window(rows, from, to), serial), rows, serial, from, to) {
      RunChosen(r, rows, serial, from, to);
    }
  }

  /** How many rows satisfy `q`, and what `v` adds up to over them. */
  function CountOf(q: Run -> bool, rows: seq<Run>): nat
  {
    if rows == [] then 0 else (if q(rows[0]) then 1 else 0) + CountOf(q, rows[1..])
  }

  function SumOf(q: Run -> bool, v: Run -> real, rows: seq<Run>): real
  {
    if rows == [] then 0.0 else (if q(rows[0]) then v(rows[0]) else 0.0) + SumOf(q, v, rows[1..])
  }

  /** Average and tight bounds of `v` over the rows where `q` holds; zeros when there are none. */
  ghost predicate Column(sp: Spread, rows: seq<Run>, q: Run -> bool, v: Run -> real)
  {
    if CountOf(q, rows) == 0 then sp == Spread(0.0, 0.0, 0.0)
    else sp.avg == SumOf(q, v, rows) / CountOf(q, rows) as real && Bounded(sp.min, sp.max, rows, q, v)
  }

  /** Every value lies between the bounds, and both bounds are values. */
  ghost predicate Bounded(lo: real, hi: real, rows: seq<Run>, q: Run -> bool, v: Run -> real)
  {
    && (forall r :: r in rows && q(r) ==> lo <= v(r) <= hi)
    && (exists r :: r in rows && q(r) && v(r) == lo)
    && (exists r :: r in rows && q(r) && v(r) == hi)
  }

  /** The measurement `m` is `v` of the runs where `q` holds. */
  ghost predicate Measures(m: Metric, q: Run -> bool, v: Run -> real)
  {
    forall r :: Sample(m, r) == if q(r) then Some(v(r)) else None
  }

  lemma {:induction false} SamplesMean(m: Metric, rows: seq<Run>, q: Run -> bool, v: Run -> real)
    requires Measures(m, q, v)
    ensures |Samples(m, rows)| == CountOf(q, rows) && Total(Samples(m, rows)) == SumOf(q, v, rows)
    ensures forall r :: r in rows && q(r) ==> v(r) in Samples(m, rows)
    ensures forall x :: x in Samples(m, rows) ==> exists r :: r in rows && q(r) && v(r) == x
  {
    if rows != [] {
      var rest := Samples(m, rows[1..]);
      SamplesMean(m, rows[1..], q, v);
      assert rows == [rows[0]] + rows[1..];
      if Sample(m, rows[0]).Some? {
        assert Samples(m, rows) == [v(rows[0])] + rest;
        assert ([v(rows[0])] + rest)[1..] == rest;
      } else {
        assert Samples(m, rows) == rest;
      }
    }
  }

  lemma BoundsMean(m: Metric, rows: seq<Run>, q: Run -> bool, v: Run -> real)
    requires Measures(m, q, v) && Samples(m, rows) != []
    ensures Bounded(Least(Samples(m, rows)), Greatest(Samples(m, rows)), rows, q, v)
  {
    SamplesMean(m, rows, q, v);
    Bounds(Samples(m, rows));
  }

  lemma ColumnIs(m: Metric, rows: seq<Run>, q: Run -> bool, v: Run -> real, sp: Spread)
    requires Measures(m, q, v)
    requires sp == if SpreadOf(Samples(m, rows)).Some? then SpreadOf(Samples(m, rows)).value else NO_SPREAD
    ensures Column(sp, rows, q, v)
  {
    if Samples(m, rows) != [] { BoundsMean(m, rows, q, v); }
    SamplesMean(m, rows, q, v);
  }

  /** One device's statistics in terms of the columns of its runs. */
  ghost predicate Aggregates(st: DeviceStats, mine: seq<Run>)
  {
    && st.totalRuns == |mine|
    && st.failedRuns == CountOf((r: Run) => !r.found || r.failing > 0, mine)
    && st.totalTests == Sum((r: Run) => if r.found then r.passing + r.failing else 1, mine)
    && st.totalFail == Sum((r: Run) => if r.found then r.failing else 1, mine)
    && st.spreads.Keys == {Boot, Test, Setup, Session, Apk}
    && forall m :: m in st.spreads ==> Measured(m, st.spreads[m], mine)
  }

  /** The runs that each measurement takes into account, and what it takes of them. */
  ghost predicate Measured(m: Metric, sp: Spread, mine: seq<Run>)
  {
    match m
    case Boot => Column(sp, mine, (r: Run) => r.bootOk, (r: Run) => r.bootSeconds)
    case Test => Column(sp, mine, (r: Run) => r.found && r.testSeconds > 0.0, (r: Run) => r.testSeconds)
    case Setup =>
      Column(sp, mine, (r: Run) => r.found && r.totalSeconds > r.testSeconds,
             (r: Run) => r.totalSeconds - r.testSeconds)
    case Session => Column(sp, mine, (r: Run) => r.sessionMs > 0, (r: Run) => r.sessionMs as real)
    case Apk => Column(sp, mine, (r: Run) => r.apkMs > 0, (r: Run) => r.apkMs as real)
  }

  lemma {:induction false} SameSum(f: Run -> int, g: Run -> int, rows: seq<Run>)
    requires forall r :: f(r) == g(r)
    ensures Sum(f, rows) == Sum(g, rows)
  {
    if rows != [] { SameSum(f, g, rows[1..]); }
  }

  lemma {:induction false} Failures(q: Run -> bool, rows: seq<Run>)
    requires forall r :: FailedCase(r) == if q(r) then 1 else 0
    ensures Sum(FailedCase, rows) == CountOf(q, rows)
  {
    if rows != [] { Failures(q, rows[1..]); }
  }

  lemma MeasuredIs(m: Metric, sp: Spread, mine: seq<Run>)
    requires sp == if SpreadOf(Samples(m, mine)).Some? then SpreadOf(Samples(m, mine)).value else NO_SPREAD
    ensures Measured(m, sp, mine)
  {
    match m
    case Boot => ColumnIs(m, mine, (r: Run) => r.bootOk, (r: Run) => r.bootSeconds, sp);
    case Test => ColumnIs(m, mine, (r: Run) => r.found && r.testSeconds > 0.0, (r: Run) => r.testSeconds, sp);
    case Setup =>
      ColumnIs(m, mine, (r: Run) => r.found && r.totalSeconds > r.testSeconds,
               (r: Run) => r.totalSeconds - r.testSeconds, sp);
    case Session => ColumnIs(m, mine, (r: Run) => r.sessionMs > 0, (r: Run) => r.sessionMs as real, sp);
    case Apk => ColumnIs(m, mine, (r: Run) => r.apkMs > 0, (r: Run) => r.apkMs as real, sp);
  }

  /** What the query computes for one device is what its columns say. */
  lemma StatsMean(st: DeviceStats, rows: seq<Run>)
    requires StatsOf(st, rows)
    ensures Aggregates(st, OfDevice(rows, st.serial))
  {
    var mine := OfDevice(rows, st.serial);
    Failures((r: Run) => !r.found || r.failing > 0, mine);
    SameSum(TestsCase, (r: Run) => if r.found then r.passing + r.failing else 1, mine);
    SameSum(FailCase, (r: Run) => if r.found then r.failing else 1, mine);
    forall m | m in st.spreads ensures Measured(m, st.spreads[m], mine) { MeasuredIs(m, st.spreads[m], mine); }
  }

  /** A device has a run in the window. */
  ghost predicate Occurs(serial: string, rows: seq<Run>, from: Option<int>, to: Option<int>)
  {
    exists r :: r in rows && r.serial == serial && Dated(r, from, to)
  }

  /** The numbers are the aggregates of the device's runs in the window. */
  ghost predicate Accounts(st: DeviceStats, rows: seq<Run>, from: Option<int>, to: Option<int>)
  {
    exists mine :: Chosen(mine, rows, st.serial, from, to) && Aggregates(st, mine)
  }

  lemma OccursMeans(serial: string, rows: seq<Run>, from: Option<int>, to: Option<int>)
    ensures serial in Serials(Window(rows, from, to)) <==> Occurs(serial, rows, from, to)
  {
    WindowIn(rows, from, to);
    if serial in Serials(Window(rows, from, to)) {
      var r :| r in Window(rows, from, to) && r.serial == serial;
      assert Dated(r, from, to);
    }
    if r :| r in rows && r.serial == serial && Dated(r, from, to) {
      assert r in Window(rows, from, to);
    }
  }

  lemma AccountsMean(st: DeviceStats, rows: seq<Run>, from: Option<int>, to: Option<int>)
    requires StatsOf(st, Window(rows, from, to))
    ensures Accounts(st, rows, from, to)
  {
    GroupChosen(rows, st.serial, from, to);
    StatsMean(st, Window(rows, from, to));
  }

  // ── The store ──

  lemma {:induction false} WindowIn(rows: seq<Run>, from: Option<int>, to: Option<int>)
    ensures forall r :: r in Window(rows, from, to) <==> r in rows && InWindow(r, from, to)
  {
    if rows != [] {
      assert rows == [rows[0]] + rows[1..];
      WindowIn(rows[1..], from, to);
    }
  }

  lemma {:induction false} CountedAsOnes(rows: seq<Run>)
    ensures Sum(OneEach, rows) == |rows|
  {
    if rows != [] { CountedAsOnes(rows[1..]); }
  }

  /** Statistics for exactly the devices with runs in the window, once each. */
  ghost predicate StatsFor(stats: seq<DeviceStats>, window: seq<Run>)
  {
    && |stats| == |Serials(window)|
    && forall i :: 0 <= i < |stats| ==> stats[i].serial == Serials(window)[i] && StatsOf(stats[i], window)
  }

  predicate Named(stats: seq<DeviceStats>, serial: string)
  {
    exists i :: 0 <= i < |stats| && stats[i].serial == serial
  }

  /** One entry for every device with a run in the window and for no other, and its numbers are the
      aggregates of those runs. */
  ghost predicate Answer(stats: seq<DeviceStats>, rows: seq<Run>, from: Option<int>, to: Option<int>)
  {
    && (forall serial :: Named(stats, serial) <==> Occurs(serial, rows, from, to))
    && (forall i, j :: 0 <= i < j < |stats| ==> stats[i].serial != stats[j].serial)
    && forall i :: 0 <= i < |stats| ==> Accounts(stats[i], rows, from, to)
  }

  lemma Listed(stats: seq<DeviceStats>, window: seq<Run>, s: string)
    requires StatsFor(stats, window)
    ensures s in Serials(window) <==> Named(stats, s)
  {
    if s in Serials(window) {
      var i :| 0 <= i < |Serials(window)| && Serials(window)[i] == s;
      assert stats[i].serial == s;
    }
  }

  lemma AnswerMeans(stats: seq<DeviceStats>, rows: seq<Run>, from: Option<int>, to: Option<int>)
    requires StatsFor(stats, Window(rows, from, to))
    ensures Answer(stats, rows, from, to)
  {
    forall s ensures Named(stats, s) <==> Occurs(s, rows, from, to) {
      OccursMeans(s, rows, from, to);
      Listed(stats, Window(rows, from, to), s);
    }
    forall i | 0 <= i < |stats| ensures Accounts(stats[i], rows, from, to) { AccountsMean(stats[i], rows, from, to); }
  }

  function TotalRuns(stats: seq<DeviceStats>): int
  {
    if stats == [] then 0 else stats[0].totalRuns + TotalRuns(stats[1..])
  }

  function TotalTests(stats: seq<DeviceStats>): int
  {
    if stats == [] then 0 else stats[0].totalTests + TotalTests(stats[1..])
  }

  /** No run is counted twice or left out: per-device totals add up to the window's. */
  lemma Conservation(stats: seq<DeviceStats>, window: seq<Run>)
    requires StatsFor(stats, window)
    ensures TotalRuns(stats) == |window| && TotalTests(stats) == Sum(TestsCase, window)
  {
    var ds := Serials(window);
    GroupsAddUp(OneEach, window, ds);
    GroupsAddUp(TestsCase, window, ds);
    CountedAsOnes(window);
    AddUp(stats, window, 0);
    assert ds[0..] == ds && stats[0..] == stats;
  }

  lemma {:induction false} AddUp(stats: seq<DeviceStats>, window: seq<Run>, i: nat)
    requires StatsFor(stats, window) && i <= |stats|
    ensures TotalRuns(stats[i..]) == SumOver(Serials(window)[i..], s => Sum(OneEach, OfDevice(window, s)))
    ensures TotalTests(stats[i..]) == SumOver(Serials(window)[i..], s => Sum(TestsCase, OfDevice(window, s)))
    decreases |stats| - i
  {
    if i < |stats| {
      AddUp(stats, window, i + 1);
      assert stats[i..][1..] == stats[i + 1..] && Serials(window)[i..][1..] == Serials(window)[i + 1..];
      assert StatsOf(stats[i], window);
      CountedAsOnes(OfDevice(window, stats[i].serial));
    }
  }

  class Store {
    var rows: seq<Run>               // row i has identifier i + 1

    constructor ()
      ensures rows == []
    {
      rows := [];
    }

    /** The new row's identifier, or None when the statement fails. */
    method Insert(r: Run) returns (id: Option<int>)
      modifies this
      ensures id == None ==> rows == old(rows)
      ensures id.Some? ==> id.value == |old(rows)| + 1 && rows == old(rows) + [r.(hasLogs := false)]
    {
      var fails := *;
      if fails {
        return None;
      }
      rows := rows + [r.(hasLogs := false)];
      id := Some(|rows|);
    }

    /** Only the boot columns of one row change; without such a row nothing does. */
    method UpdateBoot(id: int, seconds: real, ok: bool)
      modifies this
      ensures rows == (if 1 <= id <= |old(rows)|
                       then old(rows)[id - 1 := old(rows)[id - 1].(bootOk := ok, bootSeconds := seconds)]
                         else old(rows))
      ensures forall from, to :: SameCounts(old(rows), rows, from, to)
    {
      ghost var rows0 := rows;
      if 1 <= id <= |rows| {
        rows := rows[id - 1 := rows[id - 1].(bootOk := ok, bootSeconds := seconds)];
      }
      forall from, to ensures SameCounts(rows0, rows, from, to) { BootKeepsCounts(rows0, rows, from, to); }
    }

    method SetHasLogs(id: int)
      modifies this
      ensures rows == (if 1 <= id <= |old(rows)| then old(rows)[id - 1 := old(rows)[id - 1].(hasLogs := true)]
                       else old(rows))
      ensures forall from, to :: SameCounts(old(rows), rows, from, to)
    {
      ghost var rows0 := rows;
      if 1 <= id <= |rows| {
        rows := rows[id - 1 := rows[id - 1].(hasLogs := true)];
      }
      forall from, to ensures SameCounts(rows0, rows, from, to) { BootKeepsCounts(rows0, rows, from, to); }
    }

    /** `Stats`: the loop over the query's rows, with zero for NULL. */
    method Stats(from: Option<int>, to: Option<int>) returns (stats: seq<DeviceStats>)
      ensures StatsFor(stats, Window(rows, from, to)) && Answer(stats, rows, from, to)
      ensures TotalRuns(stats) == |Window(rows, from, to)|
      ensures (forall r :: r in rows ==> NonNegative(r)) ==> forall i :: 0 <= i < |stats| ==> InOrder(stats[i])
    {
      var window := Window(rows, from, to);
      var serials := Serials(window);
      stats := [];
      for i := 0 to |serials|
        invariant |stats| == i
        invariant forall k :: 0 <= k < i ==> stats[k].serial == serials[k] && StatsOf(stats[k], window)
      {
        var g := GroupOf(window, serials[i]);
        var spreads := map m | m in {Boot, Test, Setup, Session, Apk} ::
            if g.spread(m).Some? then g.spread(m).value else NO_SPREAD;
        stats := stats + [DeviceStats(g.serial, g.totalRuns, g.failedRuns, g.totalTests, g.totalFail, spreads)];
      }
      Conservation(stats, window);
      AnswerMeans(stats, rows, from, to);
      WindowIn(rows, from, to);
      if forall r :: r in rows ==> NonNegative(r) {
        forall i | 0 <= i < |stats| ensures InOrder(stats[i]) { StatsOrdered(stats[i], window); }
      }
    }
  }

  predicate InOrder(st: DeviceStats)
  {
    && 0 <= st.failedRuns <= st.totalFail <= st.totalTests && st.failedRuns <= st.totalRuns
    && 0.0 <= PassRate(st) <= 100.0
    && forall m :: m in st.spreads ==> st.spreads[m].min <= st.spreads[m].avg <= st.spreads[m].max
  }

  /** Two tables whose rows differ in nothing but boot result and log flag. */
  predicate SameButBoot(a: seq<Run>, b: seq<Run>)
  {
    |a| == |b| && forall i :: 0 <= i < |a| ==>
        b[i] == a[i].(bootOk := b[i].bootOk, bootSeconds := b[i].bootSeconds, hasLogs := b[i].hasLogs)
  }

  /** Every count of every device is the same. */
  ghost predicate SameCounts(a: seq<Run>, b: seq<Run>, from: Option<int>, to: Option<int>)
  {
    forall s :: SameGroup(OfDevice(Window(a, from, to), s), OfDevice(Window(b, from, to), s))
  }

  predicate SameGroup(a: seq<Run>, b: seq<Run>)
  {
    |a| == |b| && Sum(FailedCase, a) == Sum(FailedCase, b) && Sum(TestsCase, a) == Sum(TestsCase, b)
      && Sum(FailCase, a) == Sum(FailCase, b)
  }

  /** A boot update moves no count of any device in any window. */
  lemma BootKeepsCounts(a: seq<Run>, b: seq<Run>, from: Option<int>, to: Option<int>)
    requires SameButBoot(a, b)
    ensures SameCounts(a, b, from, to)
  {
    forall s ensures SameGroup(OfDevice(Window(a, from, to), s), OfDevice(Window(b, from, to), s)) {
      BootKeepsGroup(a, b, from, to, s);
    }
  }

  lemma {:induction false} BootKeepsGroup(a: seq<Run>, b: seq<Run>, from: Option<int>, to: Option<int>, s: string)
    requires SameButBoot(a, b)
    ensures SameGroup(OfDevice(Window(a, from, to), s), OfDevice(Window(b, from, to), s))
  {
    if a != [] {
      BootKeepsGroup(a[1..], b[1..], from, to, s);
      WindowFirst(a, from, to, s);
      WindowFirst(b, from, to, s);
      var p, q := OfDevice(Window(a[1..], from, to), s), OfDevice(Window(b[1..], from, to), s);
      assert [] + p == p && [] + q == q;
      GroupGrows(a[0], p, b[0], q);
    }
  }

  lemma GroupGrows(x: Run, p: seq<Run>, y: Run, q: seq<Run>)
    requires SameGroup(p, q) && y == x.(bootOk := y.bootOk, bootSeconds := y.bootSeconds, hasLogs := y.hasLogs)
    ensures SameGroup([x] + p, [y] + q)
  {
    assert ([x] + p)[1..] == p && ([y] + q)[1..] == q;
  }

  lemma WindowFirst(a: seq<Run>, from: Option<int>, to: Option<int>, s: string)
    requires a != []
    ensures OfDevice(Window(a, from, to), s)
         == (if InWindow(a[0], from, to) && a[0].serial == s then [a[0]] else [])
           + OfDevice(Window(a[1..], from, to), s)
  {
    if InWindow(a[0], from, to) {
      assert Window(a, from, to)[1..] == Window(a[1..], from, to);
    } else {
      assert Window(a, from, to) == Window(a[1..], from, to);
    }
  }
}
