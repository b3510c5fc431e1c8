/**
 * The greedy matcher intelligent_route_assignment
 * (backend/app/intelligent_dispatch.py:195-266).
 *
 * The routes are sorted by (grade desc, package count desc); then, while
 * both pools are non-empty and fewer than 2 x |drivers| iterations have run,
 * every pair of one of the first three routes and one remaining driver is
 * scored, a jitter in [-5, 5] is added, the first pair with the strictly
 * highest adjusted score is kept, and it is committed when that score is
 * above 40 (otherwise the loop stops).
 *
 * The jitter is an input: a function of (iteration, route position, driver
 * position) standing for the successive random draws.
 */
module Matching {
  import opened Models
  import Logic
  import opened Dispatch

  /** What one dispatch cycle reads besides the pools: history, clock, hour and the distance function. */
  datatype Env = Env(
    history: seq<Logic.HistoryRecord>,
    now: int,
    hour: int,
    distance: (real, real, real, real) -> real)

  type Jitter = (nat, nat, nat) -> real

  ghost predicate JitterInRange(jitter: Jitter)
  {
    forall i: nat, r: nat, d: nat :: -5.0 <= jitter(i, r, d) <= 5.0
  }

  /** Distance from the driver's simulated location to the route start. */
  function DistanceToStart(env: Env, d: Driver, r: Route): real
  {
    var loc := DriverLocation(d.id);
    env.distance(loc.0, loc.1, r.attrs.startLat, r.attrs.startLng)
  }

  /** The scorer applied to one pair, with the driver's weekly balance from the history. */
  function CompatFor(env: Env, d: Driver, r: Route): (c: Compat)
    ensures 0 <= c.score <= 100
  {
    Compatibility(d, r, Logic.WeeklyBalance(env.history, d.id, env.now), env.hour, DistanceToStart(env, d, r))
  }

  /**
   * A pair scorer. The greedy loop below is stated for any scorer; the
   * matcher runs it with ScorerOf(env), the compatibility function above.
   */
  type Scorer = (Driver, Route) -> Compat

  function ScorerOf(env: Env): (score: Scorer)
    ensures forall d, r :: score(d, r) == CompatFor(env, d, r)
  {
    (d, r) => CompatFor(env, d, r)
  }

  // ---------------------------------------------------------------------
  // The urgency sort: key (-grade value, -package count), stable
  // ---------------------------------------------------------------------

  /** a's sort key is less than or equal to b's. */
  predicate AtLeastAsUrgent(a: Route, b: Route)
  {
    GradeValue(a.grade) > GradeValue(b.grade)
    || (GradeValue(a.grade) == GradeValue(b.grade) && a.attrs.packageCount >= b.attrs.packageCount)
  }

  predicate SortedByUrgency(s: seq<Route>)
  {
    forall i, j :: 0 <= i < j < |s| ==> AtLeastAsUrgent(s[i], s[j])
  }

  /** Insert x before the first element whose key is not smaller than x's. */
  function InsertByUrgency(x: Route, s: seq<Route>): (r: seq<Route>)
    ensures multiset(r) == multiset(s) + multiset{x}
    ensures |r| == |s| + 1
    ensures forall y :: y in r <==> y == x || y in s
  {
    if s == [] || AtLeastAsUrgent(x, s[0]) then [x] + s
    else
      assert s == [s[0]] + s[1..];
      [s[0]] + InsertByUrgency(x, s[1..])
  }

  /** list.sort with the urgency key (Python's sort is stable). */
  function SortByUrgency(s: seq<Route>): (r: seq<Route>)
    ensures multiset(r) == multiset(s)
    ensures |r| == |s|
    ensures forall y :: y in r <==> y in s
  {
    if s == [] then []
    else
      assert s == [s[0]] + s[1..];
      InsertByUrgency(s[0], SortByUrgency(s[1..]))
  }

  lemma {:induction false} InsertKeepsSorted(x: Route, s: seq<Route>)
    requires SortedByUrgency(s)
    ensures SortedByUrgency(InsertByUrgency(x, s))
  {
    if s != [] && !AtLeastAsUrgent(x, s[0]) {
      InsertKeepsSorted(x, s[1..]);
      var r := InsertByUrgency(x, s);
      var tail := InsertByUrgency(x, s[1..]);
      assert r == [s[0]] + tail;
      forall y | y in tail ensures AtLeastAsUrgent(s[0], y) {
        if y != x {
          var k :| 0 <= k < |s[1..]| && s[1..][k] == y;
          assert s[k + 1] == y;
        }
      }
      forall i, j | 0 <= i < j < |r| ensures AtLeastAsUrgent(r[i], r[j]) {
        if i == 0 {
          assert r[j] == tail[j - 1];
          assert r[j] in tail;
        } else {
          assert r[i] == tail[i - 1] && r[j] == tail[j - 1];
        }
      }
    }
  }

  /** The sorted pool really is in urgency order. */
  lemma {:induction false} SortIsSorted(s: seq<Route>)
    ensures SortedByUrgency(SortByUrgency(s))
  {
    if s != [] {
      SortIsSorted(s[1..]);
      InsertKeepsSorted(s[0], SortByUrgency(s[1..]));
    }
  }

  predicate HasKey(r: Route, g: Grade, packages: int)
  {
    r.grade == g && r.attrs.packageCount == packages
  }

  /** The routes with a given sort key, in order. */
  function WithKey(s: seq<Route>, g: Grade, packages: int): seq<Route>
  {
    if s == [] then []
    else (if HasKey(s[0], g, packages) then [s[0]] else []) + WithKey(s[1..], g, packages)
  }

  lemma WithKeyCons(y: Route, t: seq<Route>, g: Grade, packages: int)
    ensures WithKey([y] + t, g, packages) == (if HasKey(y, g, packages) then [y] else []) + WithKey(t, g, packages)
  {
    assert ([y] + t)[0] == y;
    assert ([y] + t)[1..] == t;
  }

  lemma {:induction false} InsertWithKey(x: Route, s: seq<Route>, g: Grade, packages: int)
    ensures WithKey(InsertByUrgency(x, s), g, packages)
            == (if HasKey(x, g, packages) then [x] else []) + WithKey(s, g, packages)
  {
    if s == [] || AtLeastAsUrgent(x, s[0]) {
      WithKeyCons(x, s, g, packages);
    } else {
      var tail := InsertByUrgency(x, s[1..]);
      var hx := if HasKey(x, g, packages) then [x] else [];
      var h0 := if HasKey(s[0], g, packages) then [s[0]] else [];
      assert InsertByUrgency(x, s) == [s[0]] + tail;
      InsertWithKey(x, s[1..], g, packages);
      WithKeyCons(s[0], tail, g, packages);
      assert WithKey(s, g, packages) == h0 + WithKey(s[1..], g, packages);
      EqualKeysNotOutOfOrder(x, s[0], g, packages);
      SwapWhenOneEmpty(hx, h0, WithKey(s[1..], g, packages));
    }
  }

  /** Two routes with the same key are never out of urgency order. */
  lemma EqualKeysNotOutOfOrder(x: Route, y: Route, g: Grade, packages: int)
    requires !AtLeastAsUrgent(x, y)
    ensures !(HasKey(x, g, packages) && HasKey(y, g, packages))
  {
  }

  lemma SwapWhenOneEmpty<T>(a: seq<T>, b: seq<T>, w: seq<T>)
    requires a == [] || b == []
    ensures b + (a + w) == a + (b + w)
  {
  }

  /**
   * Stability: routes with equal keys keep their input order, so ties
   * between equally urgent routes are scanned in table order.
   */
  lemma {:induction false} SortIsStable(s: seq<Route>, g: Grade, packages: int)
    ensures WithKey(SortByUrgency(s), g, packages) == WithKey(s, g, packages)
  {
    if s != [] {
      SortIsStable(s[1..], g, packages);
      InsertWithKey(s[0], SortByUrgency(s[1..]), g, packages);
      WithKeyCons(s[0], s[1..], g, packages);
      assert [s[0]] + s[1..] == s;
    }
  }

  function RemoveAt<T>(s: seq<T>, i: nat): (r: seq<T>)
    requires i < |s|
    ensures |r| == |s| - 1
    ensures forall x :: x in r ==> x in s
  {
    s[..i] + s[i + 1..]
  }

  /** Removing a committed route keeps the pool in urgency order. */
  lemma RemoveKeepsSorted(s: seq<Route>, i: nat)
    requires i < |s| && SortedByUrgency(s)
    ensures SortedByUrgency(RemoveAt(s, i))
  {
    var r := RemoveAt(s, i);
    forall a, b | 0 <= a < b < |r| ensures AtLeastAsUrgent(r[a], r[b]) {
      var a' := if a < i then a else a + 1;
      var b' := if b < i then b else b + 1;
      assert r[a] == s[a'] && r[b] == s[b'];
    }
  }

  /** `available_routes[:3]`: the window of routes examined per iteration. */
  function Top(rs: seq<Route>): (t: seq<Route>)
    ensures |t| <= 3 && |t| <= |rs| && (rs != [] ==> t != [])
    ensures forall k :: 0 <= k < |t| ==> t[k] == rs[k]
  {
    if |rs| <= 3 then rs else rs[..3]
  }

  predicate DistinctDriverIds(ds: seq<Driver>)
  {
    forall i, j :: 0 <= i < j < |ds| ==> ds[i].id != ds[j].id
  }

  predicate DistinctRouteIds(rs: seq<Route>)
  {
    forall i, j :: 0 <= i < j < |rs| ==> rs[i].id != rs[j].id
  }

  lemma {:induction false} InsertKeepsIdsDistinct(x: Route, s: seq<Route>)
    requires DistinctRouteIds(s)
    requires forall y :: y in s ==> y.id != x.id
    ensures DistinctRouteIds(InsertByUrgency(x, s))
  {
    var r := InsertByUrgency(x, s);
    if s == [] || AtLeastAsUrgent(x, s[0]) {
      forall i, j | 0 <= i < j < |r| ensures r[i].id != r[j].id {
        assert r[j] == s[j - 1];
        if i > 0 { assert r[i] == s[i - 1]; }
      }
    } else {
      forall i, j | 0 <= i < j < |s[1..]| ensures s[1..][i].id != s[1..][j].id {
        assert s[1..][i] == s[i + 1] && s[1..][j] == s[j + 1];
      }
      InsertKeepsIdsDistinct(x, s[1..]);
      var tail := InsertByUrgency(x, s[1..]);
      assert r == [s[0]] + tail;
      forall i, j | 0 <= i < j < |r| ensures r[i].id != r[j].id {
        assert r[j] == tail[j - 1];
        if i == 0 {
          assert r[j] in tail;
          if r[j] != x {
            var k :| 0 <= k < |s[1..]| && s[1..][k] == r[j];
            assert s[k + 1] == r[j];
          }
        } else {
          assert r[i] == tail[i - 1];
        }
      }
    }
  }

  /** Sorting neither duplicates nor merges routes: distinct ids stay distinct. */
  lemma {:induction false} SortKeepsIdsDistinct(s: seq<Route>)
    requires DistinctRouteIds(s)
    ensures DistinctRouteIds(SortByUrgency(s))
  {
    if s != [] {
      forall i, j | 0 <= i < j < |s[1..]| ensures s[1..][i].id != s[1..][j].id {
        assert s[1..][i] == s[i + 1] && s[1..][j] == s[j + 1];
      }
      SortKeepsIdsDistinct(s[1..]);
      forall y | y in SortByUrgency(s[1..]) ensures y.id != s[0].id {
        var k :| 0 <= k < |s[1..]| && s[1..][k] == y;
        assert s[k + 1] == y;
      }
      InsertKeepsIdsDistinct(s[0], SortByUrgency(s[1..]));
    }
  }

  // ---------------------------------------------------------------------
  // One scan over the window routes x the remaining drivers
  // ---------------------------------------------------------------------

  /** The scorer's record of every examined pair: one row per window route, one column per driver. */
  function Grid(ds: seq<Driver>, top: seq<Route>, score: Scorer): (grid: seq<seq<Compat>>)
    ensures |grid| == |top|
    ensures forall ri :: 0 <= ri < |top| ==> |grid[ri]| == |ds|
    ensures forall ri, di :: 0 <= ri < |top| && 0 <= di < |ds| ==> grid[ri][di] == score(ds[di], top[ri])
  {
    seq(|top|, ri requires 0 <= ri < |top| => seq(|ds|, di requires 0 <= di < |ds| => score(ds[di], top[ri])))
  }

  datatype Choice = Choice(routeIndex: nat, driverIndex: nat, compat: Compat)

  /** best_match (None while unset) and best_score, which starts at -1. */
  datatype Best = Best(choice: Option<Choice>, score: real)

  /** The adjusted score of one examined pair. */
  function PairScore(grid: seq<seq<Compat>>, jitter: Jitter, iter: nat, ri: nat, di: nat): real
    requires ri < |grid| && di < |grid[ri]|
  {
    grid[ri][di].score as real + jitter(iter, ri, di)
  }

  /** The kept choice really is the pair it names, with the score that pair got. */
  predicate Consistent(b: Best, grid: seq<seq<Compat>>, jitter: Jitter, iter: nat, rows: nat)
  {
    b.choice.Some? ==>
      var c := b.choice.value;
      && c.routeIndex < rows && c.routeIndex < |grid| && c.driverIndex < |grid[c.routeIndex]|
      && c.compat == grid[c.routeIndex][c.driverIndex]
      && b.score == PairScore(grid, jitter, iter, c.routeIndex, c.driverIndex)
  }

  /** The inner loop over the first n drivers for window route ri, starting from acc. */
  function ScanRow(acc: Best, grid: seq<seq<Compat>>, jitter: Jitter, iter: nat, ri: nat, n: nat): (b: Best)
    requires ri < |grid| && n <= |grid[ri]|
    ensures b.score >= acc.score
    ensures Consistent(acc, grid, jitter, iter, ri + 1) ==> Consistent(b, grid, jitter, iter, ri + 1)
  {
    if n == 0 then acc
    else
      var prev := ScanRow(acc, grid, jitter, iter, ri, n - 1);
      var adjusted := PairScore(grid, jitter, iter, ri, n - 1);
      if adjusted > prev.score then Best(Some(Choice(ri, n - 1, grid[ri][n - 1])), adjusted) else prev
  }

  /** The outer loop over the first m window routes. */
  function ScanAll(grid: seq<seq<Compat>>, jitter: Jitter, iter: nat, m: nat): (b: Best)
    requires m <= |grid|
    ensures Consistent(b, grid, jitter, iter, m)
    ensures b.score >= -1.0
  {
    if m == 0 then Best(None, -1.0)
    else ScanRow(ScanAll(grid, jitter, iter, m - 1), grid, jitter, iter, m - 1, |grid[m - 1]|)
  }

  /** (ri, di) comes before (rj, dj) in route-then-driver scan order. */
  predicate ScannedBefore(ri: nat, di: nat, rj: nat, dj: nat)
  {
    ri < rj || (ri == rj && di < dj)
  }

  lemma {:induction false} ScanRowFirstMax(acc: Best, grid: seq<seq<Compat>>, jitter: Jitter, iter: nat, ri: nat, n: nat)
    requires ri < |grid| && n <= |grid[ri]|
    ensures var b := ScanRow(acc, grid, jitter, iter, ri, n);
            && (forall di :: 0 <= di < n ==> PairScore(grid, jitter, iter, ri, di) <= b.score)
            && (b == acc
                || (b.choice.Some? && b.choice.value.routeIndex == ri && b.choice.value.driverIndex < n
                    && b.score > acc.score
                    && forall di :: 0 <= di < b.choice.value.driverIndex ==> PairScore(grid, jitter, iter, ri, di) < b.score))
  {
    if n > 0 {
      ScanRowFirstMax(acc, grid, jitter, iter, ri, n - 1);
    }
  }

  /**
   * The scan keeps the first pair, in route-then-driver order, whose
   * adjusted score is the maximum: every examined pair scores at most the
   * kept score and every pair scanned before it scores strictly less. When
   * no pair scores above -1 nothing is kept.
   */
  lemma {:induction false} ScanAllFirstMax(grid: seq<seq<Compat>>, jitter: Jitter, iter: nat, m: nat)
    requires m <= |grid|
    ensures var b := ScanAll(grid, jitter, iter, m);
            && (forall ri, di :: 0 <= ri < m && 0 <= di < |grid[ri]| ==> PairScore(grid, jitter, iter, ri, di) <= b.score)
            && (b.choice.None? ==> b.score == -1.0)
            && (b.choice.Some? ==>
                  b.score > -1.0
                  && forall ri, di :: 0 <= ri < m && 0 <= di < |grid[ri]|
                       && ScannedBefore(ri, di, b.choice.value.routeIndex, b.choice.value.driverIndex)
                       ==> PairScore(grid, jitter, iter, ri, di) < b.score)
  {
    if m > 0 {
      var prev := ScanAll(grid, jitter, iter, m - 1);
      ScanAllFirstMax(grid, jitter, iter, m - 1);
      ScanRowFirstMax(prev, grid, jitter, iter, m - 1, |grid[m - 1]|);
    }
  }

  // ---------------------------------------------------------------------
  // One iteration: scan, then the quality gate
  // ---------------------------------------------------------------------

  /** The quality gate: only an adjusted score above 40 is committed. */
  const MinAdjustedScore: real := 40.0

  /** A committed pair: positions in the pools, the scorer's record and the adjusted score. */
  datatype Pick = Pick(routeIndex: nat, driverIndex: nat, compat: Compat, adjusted: real)

  /** The adjusted score of driver di with route ri in a given iteration. */
  function Adjusted(ds: seq<Driver>, rs: seq<Route>, score: Scorer, jitter: Jitter, iteration: nat, ri: nat, di: nat): real
    requires ri < |rs| && di < |ds|
  {
    score(ds[di], rs[ri]).score as real + jitter(iteration, ri, di)
  }

  predicate InWindow(ds: seq<Driver>, rs: seq<Route>, ri: nat, di: nat)
  {
    ri < |rs| && ri < 3 && di < |ds|
  }

  predicate ValidPick(p: Pick, ds: seq<Driver>, rs: seq<Route>, score: Scorer, jitter: Jitter, iteration: nat)
  {
    && InWindow(ds, rs, p.routeIndex, p.driverIndex)
    && p.compat == score(ds[p.driverIndex], rs[p.routeIndex])
    && p.adjusted == Adjusted(ds, rs, score, jitter, iteration, p.routeIndex, p.driverIndex)
    && p.adjusted > MinAdjustedScore
  }

  /** Iteration `iteration` of the loop on the current pools. */
  function NextPick(ds: seq<Driver>, rs: seq<Route>, score: Scorer, jitter: Jitter, iteration: nat): (p: Option<Pick>)
    ensures p.Some? ==> ValidPick(p.value, ds, rs, score, jitter, iteration)
  {
    var top := Top(rs);
    var b := ScanAll(Grid(ds, top, score), jitter, iteration, |top|);
    if b.choice.Some? && b.score > MinAdjustedScore then
      var c := b.choice.value;
      Some(Pick(c.routeIndex, c.driverIndex, c.compat, b.score))
    else None
  }

  /**
   * An iteration commits the first pair, in route-then-driver order over
   * the first three routes, with the highest adjusted score, provided that
   * score is above 40; it commits nothing exactly when no such pair scores
   * above 40.
   */
  lemma NextPickIsFirstBest(ds: seq<Driver>, rs: seq<Route>, score: Scorer, jitter: Jitter, iteration: nat)
    ensures match NextPick(ds, rs, score, jitter, iteration)
      case None =>
        forall ri: nat, di: nat :: InWindow(ds, rs, ri, di) ==> Adjusted(ds, rs, score, jitter, iteration, ri, di) <= MinAdjustedScore
      case Some(p) =>
        && (forall ri: nat, di: nat :: InWindow(ds, rs, ri, di)
              ==> Adjusted(ds, rs, score, jitter, iteration, ri, di) <= p.adjusted)
        && (forall ri: nat, di: nat :: InWindow(ds, rs, ri, di) && ScannedBefore(ri, di, p.routeIndex, p.driverIndex)
              ==> Adjusted(ds, rs, score, jitter, iteration, ri, di) < p.adjusted)
  {
    var top := Top(rs);
    var grid := Grid(ds, top, score);
    ScanAllFirstMax(grid, jitter, iteration, |top|);
    forall ri: nat, di: nat | InWindow(ds, rs, ri, di)
      ensures Adjusted(ds, rs, score, jitter, iteration, ri, di) == PairScore(grid, jitter, iteration, ri, di)
    {
      assert top[ri] == rs[ri];
    }
  }

  // ---------------------------------------------------------------------
  // The greedy loop
  // ---------------------------------------------------------------------

  /** One result tuple; the scorer's record and the adjusted score are kept with it. */
  datatype Pairing = Pairing(
    driver: Driver,
    route: Route,
    explanation: Explanation,
    reason: ReasonCode,
    compat: Compat,
    adjustedScore: real)

  function Commit(d: Driver, r: Route, c: Compat, adjusted: real): (p: Pairing)
    ensures p.driver == d && p.route == r && p.compat == c && p.adjustedScore == adjusted
  {
    Pairing(d, r, GenerateExplanation(c), DetermineReasonCode(d, c), c, adjusted)
  }

  /**
   * What an iteration commits, if anything, on the current pools, given the
   * iteration number. The loop's own picker is ScanPicker; the properties of
   * the loop below hold for any picker that Sound says is honest.
   */
  type Picker = (seq<Driver>, seq<Route>, nat) -> Option<Pick>

  /** The loop's picker: scan the window, then apply the gate. */
  function ScanPicker(score: Scorer, jitter: Jitter): Picker
  {
    (ds: seq<Driver>, rs: seq<Route>, iteration: nat) => NextPick(ds, rs, score, jitter, iteration)
  }

  /** Every pick names a pair in the window, with its record and its adjusted score above the gate. */
  ghost predicate Sound(pick: Picker, score: Scorer, jitter: Jitter)
  {
    forall ds: seq<Driver>, rs: seq<Route>, iteration: nat ::
      pick(ds, rs, iteration).Some? ==> ValidPick(pick(ds, rs, iteration).value, ds, rs, score, jitter, iteration)
  }

  lemma ScanPickerSound(score: Scorer, jitter: Jitter)
    ensures Sound(ScanPicker(score, jitter), score, jitter)
  {
  }

  /** Whether iteration iter + 1 runs and commits a pair. */
  predicate Commits(ds: seq<Driver>, rs: seq<Route>, pick: Picker, iter: nat, cap: nat)
  {
    && rs != [] && ds != [] && iter < cap
    && pick(ds, rs, iter + 1).Some?
    && pick(ds, rs, iter + 1).value.driverIndex < |ds|
    && pick(ds, rs, iter + 1).value.routeIndex < |rs|
  }

  /**
   * The loop from iteration `iter` on, `cap` being max_iterations. The
   * counter is incremented before the scan, so the first scan is
   * iteration 1. (A pick outside the pools, which ScanPicker never makes,
   * ends the loop.)
   */
  function Greedy(ds: seq<Driver>, rs: seq<Route>, pick: Picker, iter: nat, cap: nat): seq<Pairing>
    decreases |ds|
  {
    if Commits(ds, rs, pick, iter, cap) then
      var p := pick(ds, rs, iter + 1).value;
      [Commit(ds[p.driverIndex], rs[p.routeIndex], p.compat, p.adjusted)]
      + Greedy(RemoveAt(ds, p.driverIndex), RemoveAt(rs, p.routeIndex), pick, iter + 1, cap)
    else []
  }

  /** One committing iteration, unfolded. */
  lemma GreedyCons(ds: seq<Driver>, rs: seq<Route>, pick: Picker, iter: nat, cap: nat)
    requires Commits(ds, rs, pick, iter, cap)
    ensures var p := pick(ds, rs, iter + 1).value;
            var res := Greedy(ds, rs, pick, iter, cap);
            var tail := Greedy(RemoveAt(ds, p.driverIndex), RemoveAt(rs, p.routeIndex), pick, iter + 1, cap);
            && |res| == |tail| + 1
            && res[0] == Commit(ds[p.driverIndex], rs[p.routeIndex], p.compat, p.adjusted)
            && forall k :: 1 <= k < |res| ==> res[k] == tail[k - 1]
  {
  }

  /** Every result tuple pairs a driver of the pool with a route of the pool; there are no more tuples than either. */
  lemma {:induction false} GreedyFromPools(ds: seq<Driver>, rs: seq<Route>, pick: Picker, iter: nat, cap: nat)
    ensures var res := Greedy(ds, rs, pick, iter, cap);
            && |res| <= |ds| && |res| <= |rs|
            && forall k :: 0 <= k < |res| ==> res[k].driver in ds && res[k].route in rs
    decreases |ds|
  {
    if Commits(ds, rs, pick, iter, cap) {
      var p := pick(ds, rs, iter + 1).value;
      var ds', rs' := RemoveAt(ds, p.driverIndex), RemoveAt(rs, p.routeIndex);
      GreedyFromPools(ds', rs', pick, iter + 1, cap);
      GreedyCons(ds, rs, pick, iter, cap);
    }
  }

  /**
   * A tuple carries the scorer's record for its pair, an adjusted score
   * above the gate, and the explanation and reason derived from that
   * record.
   */
  predicate Scored(p: Pairing, score: Scorer)
  {
    && p.compat == score(p.driver, p.route)
    && p.adjustedScore > MinAdjustedScore
    && p.explanation == GenerateExplanation(p.compat)
    && p.reason == DetermineReasonCode(p.driver, p.compat)
  }

  lemma CommitScored(ds: seq<Driver>, rs: seq<Route>, score: Scorer, jitter: Jitter, iteration: nat, p: Pick)
    requires ValidPick(p, ds, rs, score, jitter, iteration)
    ensures Scored(Commit(ds[p.driverIndex], rs[p.routeIndex], p.compat, p.adjusted), score)
  {
  }

  lemma {:induction false} GreedyScored(ds: seq<Driver>, rs: seq<Route>, pick: Picker, score: Scorer, jitter: Jitter, iter: nat, cap: nat)
    requires Sound(pick, score, jitter)
    ensures var res := Greedy(ds, rs, pick, iter, cap);
            forall k :: 0 <= k < |res| ==> Scored(res[k], score)
    decreases |ds|
  {
    if Commits(ds, rs, pick, iter, cap) {
      var p := pick(ds, rs, iter + 1).value;
      var ds', rs' := RemoveAt(ds, p.driverIndex), RemoveAt(rs, p.routeIndex);
      GreedyScored(ds', rs', pick, score, jitter, iter + 1, cap);
      GreedyCons(ds, rs, pick, iter, cap);
      CommitScored(ds, rs, score, jitter, iter + 1, p);
    }
  }

  /** The adjusted score stays within 5 points of the compatibility score. */
  lemma {:induction false} GreedyJitterBounded(ds: seq<Driver>, rs: seq<Route>, pick: Picker, score: Scorer, jitter: Jitter, iter: nat, cap: nat)
    requires Sound(pick, score, jitter) && JitterInRange(jitter)
    ensures var res := Greedy(ds, rs, pick, iter, cap);
            forall k :: 0 <= k < |res| ==>
              res[k].compat.score as real - 5.0 <= res[k].adjustedScore <= res[k].compat.score as real + 5.0
    decreases |ds|
  {
    if Commits(ds, rs, pick, iter, cap) {
      var p := pick(ds, rs, iter + 1).value;
      var ds', rs' := RemoveAt(ds, p.driverIndex), RemoveAt(rs, p.routeIndex);
      GreedyJitterBounded(ds', rs', pick, score, jitter, iter + 1, cap);
      GreedyCons(ds, rs, pick, iter, cap);
      assert ValidPick(p, ds, rs, score, jitter, iter + 1);
      assert -5.0 <= jitter(iter + 1, p.routeIndex, p.driverIndex) <= 5.0;
    }
  }

  lemma RemoveAtDrivers(ds: seq<Driver>, i: nat)
    requires i < |ds| && DistinctDriverIds(ds)
    ensures DistinctDriverIds(RemoveAt(ds, i))
    ensures forall x :: x in RemoveAt(ds, i) ==> x.id != ds[i].id
  {
    var r := RemoveAt(ds, i);
    forall a | 0 <= a < |r| ensures r[a] == ds[if a < i then a else a + 1] { }
  }

  lemma RemoveAtRoutes(rs: seq<Route>, i: nat)
    requires i < |rs| && DistinctRouteIds(rs)
    ensures DistinctRouteIds(RemoveAt(rs, i))
    ensures forall x :: x in RemoveAt(rs, i) ==> x.id != rs[i].id
  {
    var r := RemoveAt(rs, i);
    forall a | 0 <= a < |r| ensures r[a] == rs[if a < i then a else a + 1] { }
  }

  /** No driver and no route appears in two result tuples. */
  lemma {:induction false} GreedyDistinct(ds: seq<Driver>, rs: seq<Route>, pick: Picker, iter: nat, cap: nat)
    requires DistinctDriverIds(ds) && DistinctRouteIds(rs)
    ensures var res := Greedy(ds, rs, pick, iter, cap);
            forall j, k :: 0 <= j < k < |res| ==> res[j].driver.id != res[k].driver.id && res[j].route.id != res[k].route.id
    decreases |ds|
  {
    if Commits(ds, rs, pick, iter, cap) {
      var p := pick(ds, rs, iter + 1).value;
      var ds', rs' := RemoveAt(ds, p.driverIndex), RemoveAt(rs, p.routeIndex);
      RemoveAtDrivers(ds, p.driverIndex);
      RemoveAtRoutes(rs, p.routeIndex);
      GreedyDistinct(ds', rs', pick, iter + 1, cap);
      GreedyFromPools(ds', rs', pick, iter + 1, cap);
      GreedyCons(ds, rs, pick, iter, cap);
      var res := Greedy(ds, rs, pick, iter, cap);
      var tail := Greedy(ds', rs', pick, iter + 1, cap);
      forall j, k | 0 <= j < k < |res|
        ensures res[j].driver.id != res[k].driver.id && res[j].route.id != res[k].route.id
      {
        var later := tail[k - 1];
        assert res[k] == later;
        if j == 0 {
          assert res[0].driver == ds[p.driverIndex] && res[0].route == rs[p.routeIndex];
          assert later.driver in ds' && later.route in rs';
        } else {
          assert res[j] == tail[j - 1];
        }
      }
    }
  }

  /**
   * The iteration cap never binds: every iteration that runs either commits
   * a driver or ends the loop, so any cap of at least |drivers| more
   * iterations gives the same result as 2 x |drivers|.
   */
  lemma {:induction false} CapNeverBinds(ds: seq<Driver>, rs: seq<Route>, pick: Picker, iter: nat, cap1: nat, cap2: nat)
    requires cap1 >= iter + |ds| && cap2 >= iter + |ds|
    ensures Greedy(ds, rs, pick, iter, cap1) == Greedy(ds, rs, pick, iter, cap2)
    decreases |ds|
  {
    if Commits(ds, rs, pick, iter, cap1) {
      var p := pick(ds, rs, iter + 1).value;
      CapNeverBinds(RemoveAt(ds, p.driverIndex), RemoveAt(rs, p.routeIndex), pick, iter + 1, cap1, cap2);
    }
  }

  // ---------------------------------------------------------------------
  // The imperative matcher
  // ---------------------------------------------------------------------

  /** The nested for-loops over `available_routes[:3]` and the remaining drivers. */
  method ScanBest(ds: seq<Driver>, top: seq<Route>, score: Scorer, jitter: Jitter, iter: nat) returns (best: Best)
    ensures best == ScanAll(Grid(ds, top, score), jitter, iter, |top|)
  {
    ghost var grid := Grid(ds, top, score);
    best := Best(None, -1.0);
    for ri := 0 to |top|
      invariant best == ScanAll(grid, jitter, iter, ri)
    {
      ghost var rowStart := best;
      for di := 0 to |ds|
        invariant best == ScanRow(rowStart, grid, jitter, iter, ri, di)
      {
        var compatibility := score(ds[di], top[ri]);
        var adjusted := compatibility.score as real + jitter(iter, ri, di);
        if adjusted > best.score {
          best := Best(Some(Choice(ri, di, compatibility)), adjusted);
        }
      }
    }
  }

  /**
   * One pass of the loop body: scan the window, then commit the best pair
   * if it clears the gate. The result is the pick, if any.
   */
  method MatchIteration(ds: seq<Driver>, rs: seq<Route>, score: Scorer, jitter: Jitter, iteration: nat)
    returns (pick: Option<Pick>)
    ensures pick == NextPick(ds, rs, score, jitter, iteration)
  {
    var top := Top(rs);
    var best := ScanBest(ds, top, score, jitter, iteration);
    if best.choice.Some? && best.score > MinAdjustedScore {
      var c := best.choice.value;
      pick := Some(Pick(c.routeIndex, c.driverIndex, c.compat, best.score));
    } else {
      pick := None;
    }
  }

  /** The while loop of intelligent_route_assignment over an urgency-sorted route pool. */
  method GreedyMatch(drivers: seq<Driver>, sortedRoutes: seq<Route>, score: Scorer, jitter: Jitter)
    returns (assignments: seq<Pairing>)
    ensures assignments == Greedy(drivers, sortedRoutes, ScanPicker(score, jitter), 0, |drivers| * 2)
  {
    assignments := [];
    var availableDrivers := drivers;
    var availableRoutes := sortedRoutes;
    var iteration: nat := 0;
    var maxIterations := |drivers| * 2;
    ghost var total := Greedy(drivers, sortedRoutes, ScanPicker(score, jitter), 0, maxIterations);
    Started(drivers, sortedRoutes, score, jitter, maxIterations, total);
    var stopped := false;
    while !stopped && availableRoutes != [] && availableDrivers != [] && iteration < maxIterations
      invariant stopped ==> assignments == total
      invariant !stopped ==> Remaining(assignments, availableDrivers, availableRoutes, score, jitter, iteration, maxIterations, total)
      decreases |availableDrivers|, if stopped then 0 else 1
    {
      assignments, availableDrivers, availableRoutes, stopped :=
        LoopBody(assignments, availableDrivers, availableRoutes, score, jitter, iteration, maxIterations, total);
      iteration := iteration + 1;
    }
    if !stopped {
      Finished(assignments, availableDrivers, availableRoutes, score, jitter, iteration, maxIterations, total);
    }
  }

  lemma Started(ds: seq<Driver>, rs: seq<Route>, score: Scorer, jitter: Jitter, cap: nat, total: seq<Pairing>)
    requires total == Greedy(ds, rs, ScanPicker(score, jitter), 0, cap)
    ensures Remaining([], ds, rs, score, jitter, 0, cap, total)
  {
  }

  /** When the loop condition fails, everything is committed. */
  lemma Finished(done: seq<Pairing>, ds: seq<Driver>, rs: seq<Route>, score: Scorer, jitter: Jitter,
                 iteration: nat, cap: nat, total: seq<Pairing>)
    requires Remaining(done, ds, rs, score, jitter, iteration, cap, total)
    requires rs == [] || ds == [] || iteration >= cap
    ensures done == total
  {
    GreedyStops(ds, rs, ScanPicker(score, jitter), iteration, cap);
    Extend(done, [], Greedy(ds, rs, ScanPicker(score, jitter), iteration, cap), [], total);
  }

  /** The loop invariant: what is committed, followed by what the remaining iterations commit, is the whole result. */
  ghost predicate Remaining(done: seq<Pairing>, ds: seq<Driver>, rs: seq<Route>, score: Scorer, jitter: Jitter,
                            iteration: nat, cap: nat, total: seq<Pairing>)
  {
    done + Greedy(ds, rs, ScanPicker(score, jitter), iteration, cap) == total
  }

  /** One pass of the loop body on the committed list and the pools. */
  method LoopBody(done: seq<Pairing>, ds: seq<Driver>, rs: seq<Route>, score: Scorer, jitter: Jitter,
                  iteration: nat, cap: nat, ghost total: seq<Pairing>)
    returns (done': seq<Pairing>, ds': seq<Driver>, rs': seq<Route>, stopped: bool)
    requires Remaining(done, ds, rs, score, jitter, iteration, cap, total)
    ensures stopped ==> done' == total && ds' == ds
    ensures !stopped ==> |ds'| < |ds| && Remaining(done', ds', rs', score, jitter, iteration + 1, cap, total)
  {
    ghost var pick := ScanPicker(score, jitter);
    ghost var rest := Greedy(ds, rs, pick, iteration, cap);
    var next := MatchIteration(ds, rs, score, jitter, iteration + 1);
    if next.None? || iteration >= cap || ds == [] || rs == [] {
      GreedyStops(ds, rs, pick, iteration, cap);
      Extend(done, [], rest, [], total);
      return done, ds, rs, true;
    }
    var p := next.value;
    ScanPickerSound(score, jitter);
    assert Commits(ds, rs, pick, iteration, cap);
    var pairing := Commit(ds[p.driverIndex], rs[p.routeIndex], p.compat, p.adjusted);
    ds', rs' := RemoveAt(ds, p.driverIndex), RemoveAt(rs, p.routeIndex);
    GreedyStep(ds, rs, pick, iteration, cap);
    Extend(done, [pairing], rest, Greedy(ds', rs', pick, iteration + 1, cap), total);
    done', stopped := done + [pairing], false;
  }

  /** Moving what a step commits from the remaining result onto the committed prefix. */
  lemma Extend<T>(done: seq<T>, step: seq<T>, rest: seq<T>, later: seq<T>, total: seq<T>)
    requires done + rest == total && rest == step + later
    ensures (done + step) + later == total
  {
  }

  /** An iteration that commits nothing ends the loop. */
  lemma GreedyStops(ds: seq<Driver>, rs: seq<Route>, pick: Picker, iter: nat, cap: nat)
    requires !Commits(ds, rs, pick, iter, cap)
    ensures Greedy(ds, rs, pick, iter, cap) == []
  {
  }

  /** An iteration that commits a pair puts it in front of what the later iterations commit. */
  lemma GreedyStep(ds: seq<Driver>, rs: seq<Route>, pick: Picker, iter: nat, cap: nat)
    requires Commits(ds, rs, pick, iter, cap)
    ensures var p := pick(ds, rs, iter + 1).value;
            Greedy(ds, rs, pick, iter, cap)
            == [Commit(ds[p.driverIndex], rs[p.routeIndex], p.compat, p.adjusted)]
               + Greedy(RemoveAt(ds, p.driverIndex), RemoveAt(rs, p.routeIndex), pick, iter + 1, cap)
  {
  }

  /** intelligent_route_assignment (its unused policy argument is dropped). */
  method IntelligentRouteAssignment(drivers: seq<Driver>, routes: seq<Route>, env: Env, jitter: Jitter)
    returns (assignments: seq<Pairing>)
    ensures assignments == Greedy(drivers, SortByUrgency(routes), ScanPicker(ScorerOf(env), jitter), 0, |drivers| * 2)
  {
    var availableRoutes := SortByUrgency(routes);
    assignments := GreedyMatch(drivers, availableRoutes, ScorerOf(env), jitter);
  }

  /**
   * What one matching run promises: every tuple pairs an offered driver
   * with an offered route, carries the compatibility the scorer gives that
   * pair and an adjusted score above the gate; no driver or route is used
   * twice; there are at most min(|drivers|, |routes|) tuples.
   */
  lemma MatchingGuarantees(drivers: seq<Driver>, routes: seq<Route>, env: Env, jitter: Jitter)
    requires DistinctDriverIds(drivers) && DistinctRouteIds(routes)
    ensures var res := Greedy(drivers, SortByUrgency(routes), ScanPicker(ScorerOf(env), jitter), 0, |drivers| * 2);
            && |res| <= |drivers| && |res| <= |routes|
            && (forall k :: 0 <= k < |res| ==>
                  && res[k].driver in drivers && res[k].route in routes
                  && res[k].compat == CompatFor(env, res[k].driver, res[k].route)
                  && res[k].adjustedScore > MinAdjustedScore)
            && (forall j, k :: 0 <= j < k < |res| ==> res[j].driver.id != res[k].driver.id && res[j].route.id != res[k].route.id)
  {
    var sorted := SortByUrgency(routes);
    var score := ScorerOf(env);
    var pick := ScanPicker(score, jitter);
    ScanPickerSound(score, jitter);
    GreedyFromPools(drivers, sorted, pick, 0, |drivers| * 2);
    GreedyScored(drivers, sorted, pick, score, jitter, 0, |drivers| * 2);
    SortKeepsIdsDistinct(routes);
    GreedyDistinct(drivers, sorted, pick, 0, |drivers| * 2);
  }
}
