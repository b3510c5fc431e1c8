/**
 * The endpoints of backend/app/main.py that change the database: a dispatch
 * run for one location (perform_dispatch), a driver's answer to an
 * assignment (respond_to_assignment), and the policy lookup with its
 * built-in defaults (get_weekly_policy).
 *
 * The tables are sequences in insertion order, held by the class Database.
 * Each endpoint is specified by a function on a snapshot of the tables (a
 * State). The Database methods make the same updates one statement at a
 * time, and each is proved to reach the state that function gives. The
 * lemmas about the functions state what the endpoints promise.
 */
module Backend {
  import opened Models
  import Logic
  import opened Dispatch
  import Matching

  // ---------------------------------------------------------------------
  // Fatigue and health after one assignment (main.py:460-474)
  // ---------------------------------------------------------------------

  /**
   * The fatigue step for one assigned route. A hard route adds 15 and a
   * medium route adds 8, both capped at 100. An easy route takes off 5,
   * floored at 0.
   */
  function FatigueAfter(f: real, g: Grade): (r: real)
    ensures 0.0 <= f <= 100.0 ==> 0.0 <= r <= 100.0
    ensures g == Easy ==> r == (if f - 5.0 > 0.0 then f - 5.0 else 0.0)
    ensures g != Easy && f <= 100.0 ==> f <= r
    ensures g == Hard ==> r == 100.0 || r == f + 15.0
    ensures g == Medium ==> r == 100.0 || r == f + 8.0
  {
    match g
    case Hard => if 100.0 < f + 15.0 then 100.0 else f + 15.0
    case Medium => if 100.0 < f + 8.0 then 100.0 else f + 8.0
    case Easy => if 0.0 > f - 5.0 then 0.0 else f - 5.0
  }

  /** The health band of a fatigue score: 80 and above restricted, 60 to 80 caution. */
  function HealthFor(f: real): (h: HealthStatus)
    ensures h == Restricted <==> f >= 80.0
    ensures h == Caution <==> 60.0 <= f < 80.0
    ensures h == Normal <==> f < 60.0
  {
    if f >= 80.0 then Restricted
    else if f >= 60.0 then Caution
    else Normal
  }

  function Severity(h: HealthStatus): nat
  {
    match h
    case Normal => 0
    case Caution => 1
    case Restricted => 2
  }

  /** A higher fatigue never gives a milder health band. */
  lemma HealthMonotone(f: real, g: real)
    requires f <= g
    ensures Severity(HealthFor(f)) <= Severity(HealthFor(g))
  {
  }

  /** The health column agrees with the fatigue column. */
  predicate HealthConsistent(d: Driver)
  {
    d.health == HealthFor(d.fatigue)
  }

  /** A new user (fatigue 0, health NORMAL) is consistent. */
  lemma NewUserConsistent(id: int, loc: string)
    ensures HealthConsistent(NewUser(id, loc))
  {
  }

  /**
   * The driver row after one assigned route. Only fatigue and health change,
   * and health is then recomputed from the new fatigue.
   */
  function AfterAssignment(d: Driver, g: Grade): (e: Driver)
    ensures e.fatigue == FatigueAfter(d.fatigue, g)
    ensures HealthConsistent(e)
    ensures e.(fatigue := d.fatigue, health := d.health) == d
  {
    var f := FatigueAfter(d.fatigue, g);
    d.(fatigue := f, health := HealthFor(f))
  }

  /** The fatigue after a run of assigned routes, one step per route. */
  function FatigueAfterRun(f: real, grades: seq<Grade>): real
    decreases |grades|
  {
    if grades == [] then f
    else FatigueAfterRun(FatigueAfter(f, grades[0]), grades[1..])
  }

  function Min(x: real, y: real): real
  {
    if x <= y then x else y
  }

  /** Fatigue stays within [0, 100] over any run of assignments. */
  lemma {:induction false} FatigueRunInRange(f: real, grades: seq<Grade>)
    requires 0.0 <= f <= 100.0
    ensures 0.0 <= FatigueAfterRun(f, grades) <= 100.0
    decreases |grades|
  {
    if grades != [] {
      FatigueRunInRange(FatigueAfter(f, grades[0]), grades[1..]);
    }
  }

  /**
   * n hard routes in a row add 15 each until the cap: fatigue becomes
   * min(100, f + 15n). From a rested driver, six hard routes restrict them.
   */
  lemma {:induction false} HardRunFatigue(f: real, grades: seq<Grade>)
    requires 0.0 <= f <= 100.0
    requires forall i :: 0 <= i < |grades| ==> grades[i] == Hard
    ensures FatigueAfterRun(f, grades) == Min(100.0, f + 15.0 * |grades| as real)
    ensures f == 0.0 && |grades| >= 6 ==> HealthFor(FatigueAfterRun(f, grades)) == Restricted
    decreases |grades|
  {
    if grades != [] {
      HardRunFatigue(FatigueAfter(f, Hard), grades[1..]);
    }
  }

  // ---------------------------------------------------------------------
  // Weekly policy (main.py:371-391, models.py:170-191)
  // ---------------------------------------------------------------------

  /** The first policy row of a location, as `.filter(...).first()` finds it. */
  function PolicyFor(policies: seq<WeeklyPolicy>, loc: string): (r: Option<WeeklyPolicy>)
    ensures r.None? <==> forall p :: p in policies ==> p.locationId != loc
    ensures r.Some? ==> r.value in policies && r.value.locationId == loc
    ensures r.Some? && policies != [] && policies[0].locationId == loc ==> r.value == policies[0]
  {
    if policies == [] then None
    else if policies[0].locationId == loc then Some(policies[0])
    else
      assert forall p :: p in policies <==> p == policies[0] || p in policies[1..];
      PolicyFor(policies[1..], loc)
  }

  /** The row found is the first of the location's rows in table order. */
  lemma {:induction false} PolicyForIsFirst(policies: seq<WeeklyPolicy>, loc: string)
    requires PolicyFor(policies, loc).Some?
    ensures exists k :: 0 <= k < |policies| && policies[k] == PolicyFor(policies, loc).value
                        && forall j :: 0 <= j < k ==> policies[j].locationId != loc
  {
    if policies[0].locationId != loc {
      PolicyForIsFirst(policies[1..], loc);
      var k :| 0 <= k < |policies[1..]| && policies[1..][k] == PolicyFor(policies[1..], loc).value
               && forall j :: 0 <= j < k ==> policies[1..][j].locationId != loc;
      assert policies[k + 1] == PolicyFor(policies, loc).value;
      forall j | 0 <= j < k + 1 ensures policies[j].locationId != loc {
        if j > 0 { assert policies[j] == policies[1..][j - 1]; }
      }
    }
  }

  /** The keys the endpoint answers with when the location has no policy row. */
  datatype PolicyView = PolicyView(
    locationId: string,
    easyTarget: int,
    mediumTarget: int,
    hardTarget: int,
    easyCredits: int,
    mediumCredits: int,
    hardCredits: int,
    maxConsecutiveHard: int,
    fatigueThreshold: real)

  function ViewOf(p: WeeklyPolicy): PolicyView
  {
    PolicyView(p.locationId, p.easyTarget, p.mediumTarget, p.hardTarget,
               p.easyCredits, p.mediumCredits, p.hardCredits, p.maxConsecutiveHard, p.fatigueThreshold)
  }

  datatype PolicyAnswer = StoredPolicy(policy: WeeklyPolicy) | DefaultPolicy(view: PolicyView)

  /**
   * get_weekly_policy: the stored row if there is one, otherwise the
   * built-in defaults. These agree with the defaults of a freshly inserted
   * policy row.
   */
  function GetWeeklyPolicy(policies: seq<WeeklyPolicy>, loc: string): (a: PolicyAnswer)
    ensures a.StoredPolicy? <==> exists p :: p in policies && p.locationId == loc
    ensures a.StoredPolicy? ==> a.policy in policies && a.policy.locationId == loc
    ensures a.DefaultPolicy? ==> a.view == ViewOf(NewWeeklyPolicy(loc))
  {
    match PolicyFor(policies, loc)
    case Some(p) => StoredPolicy(p)
    case None => DefaultPolicy(PolicyView(loc, 2, 3, 2, 3, 4, 6, 2, 80.0))
  }

  /** The credits a policy pays for a route of grade g. */
  function CreditsFor(p: WeeklyPolicy, g: Grade): int
  {
    match g
    case Easy => p.easyCredits
    case Medium => p.mediumCredits
    case Hard => p.hardCredits
  }

  // ---------------------------------------------------------------------
  // Tables and lookups by primary key
  // ---------------------------------------------------------------------

  /** The database tables the engine reads and writes, in insertion order. */
  datatype State = State(
    users: seq<Driver>,
    routes: seq<Route>,
    assignments: seq<Assignment>,
    policies: seq<WeeklyPolicy>,
    creditLogs: seq<CreditLog>)

  function UserKey(u: Driver): int { u.id }
  function RouteKey(r: Route): int { r.id }
  function AssignmentKey(a: Assignment): int { a.id }

  /** The position of the first row whose key is id (`.filter(id == ...).first()`). */
  function IndexOf<T>(s: seq<T>, key: T -> int, id: int): (k: Option<nat>)
    ensures k.Some? ==> k.value < |s| && key(s[k.value]) == id
    ensures k.Some? ==> forall j :: 0 <= j < k.value ==> key(s[j]) != id
    ensures k.None? <==> forall j :: 0 <= j < |s| ==> key(s[j]) != id
  {
    if s == [] then None
    else if key(s[0]) == id then Some(0)
    else
      match IndexOf(s[1..], key, id)
      case None => None
      case Some(k) => Some(k + 1)
  }

  predicate Has<T>(s: seq<T>, key: T -> int, id: int)
  {
    exists i :: 0 <= i < |s| && key(s[i]) == id
  }

  /**
   * Integrity of the tables: user and route ids are unique, assignment ids
   * are 1, 2, 3, ... in insertion order (an auto-increment key with no
   * deletions), and every assignment refers to an existing user and route.
   */
  predicate Valid(st: State)
  {
    && Matching.DistinctDriverIds(st.users)
    && Matching.DistinctRouteIds(st.routes)
    && (forall i :: 0 <= i < |st.assignments| ==> st.assignments[i].id == i + 1)
    && (forall i :: 0 <= i < |st.assignments| ==>
          Has(st.users, UserKey, st.assignments[i].driverId) && Has(st.routes, RouteKey, st.assignments[i].routeId))
  }

  // ---------------------------------------------------------------------
  // Dispatch run for one location (main.py:403-511)
  // ---------------------------------------------------------------------

  /** The drivers query: this location and marked available, in table order. */
  function AvailableDrivers(users: seq<Driver>, loc: string): (r: seq<Driver>)
    ensures |r| <= |users|
    ensures forall u :: u in r <==> u in users && u.locationId == loc && u.isAvailable
  {
    if users == [] then []
    else
      var rest := AvailableDrivers(users[1..], loc);
      assert forall u :: u in users <==> u == users[0] || u in users[1..];
      if users[0].locationId == loc && users[0].isAvailable then [users[0]] + rest else rest
  }

  /** The drivers query keeps table order. */
  lemma {:induction false} AvailableDriversConcat(u1: seq<Driver>, u2: seq<Driver>, loc: string)
    ensures AvailableDrivers(u1 + u2, loc) == AvailableDrivers(u1, loc) + AvailableDrivers(u2, loc)
  {
    if u1 == [] {
      assert u1 + u2 == u2;
    } else {
      assert (u1 + u2)[1..] == u1[1..] + u2;
      AvailableDriversConcat(u1[1..], u2, loc);
    }
  }

  /** The routes query: this location and not yet assigned, in table order. */
  function UnassignedRoutes(routes: seq<Route>, loc: string): (r: seq<Route>)
    ensures |r| <= |routes|
    ensures forall x :: x in r <==> x in routes && x.locationId == loc && !x.isAssigned
  {
    if routes == [] then []
    else
      var rest := UnassignedRoutes(routes[1..], loc);
      assert forall x :: x in routes <==> x == routes[0] || x in routes[1..];
      if routes[0].locationId == loc && !routes[0].isAssigned then [routes[0]] + rest else rest
  }

  /** The routes query keeps table order. */
  lemma {:induction false} UnassignedRoutesConcat(r1: seq<Route>, r2: seq<Route>, loc: string)
    ensures UnassignedRoutes(r1 + r2, loc) == UnassignedRoutes(r1, loc) + UnassignedRoutes(r2, loc)
  {
    if r1 == [] {
      assert r1 + r2 == r2;
    } else {
      assert (r1 + r2)[1..] == r1[1..] + r2;
      UnassignedRoutesConcat(r1[1..], r2, loc);
    }
  }

  lemma {:induction false} AvailableDriversDistinct(users: seq<Driver>, loc: string)
    requires Matching.DistinctDriverIds(users)
    ensures Matching.DistinctDriverIds(AvailableDrivers(users, loc))
  {
    if users != [] {
      var rest := AvailableDrivers(users[1..], loc);
      AvailableDriversDistinct(users[1..], loc);
      forall u | u in rest ensures u.id != users[0].id {
        var j :| 0 <= j < |users[1..]| && users[1..][j] == u;
        assert users[j + 1] == u;
      }
    }
  }

  lemma {:induction false} UnassignedRoutesDistinct(routes: seq<Route>, loc: string)
    requires Matching.DistinctRouteIds(routes)
    ensures Matching.DistinctRouteIds(UnassignedRoutes(routes, loc))
  {
    if routes != [] {
      var rest := UnassignedRoutes(routes[1..], loc);
      UnassignedRoutesDistinct(routes[1..], loc);
      forall x | x in rest ensures x.id != routes[0].id {
        var j :| 0 <= j < |routes[1..]| && routes[1..][j] == x;
        assert routes[j + 1] == x;
      }
    }
  }

  /** The grade of the route with this id, as the assignments-routes join sees it. */
  function GradeOf(routes: seq<Route>, routeId: int): Option<Grade>
  {
    match IndexOf(routes, RouteKey, routeId)
    case None => None
    case Some(k) => Some(routes[k].grade)
  }

  /** The assignments joined with their routes: what get_weekly_balance queries. */
  function History(assignments: seq<Assignment>, routes: seq<Route>): (h: seq<Logic.HistoryRecord>)
    ensures |h| == |assignments|
    ensures forall i :: 0 <= i < |h| ==>
              && h[i].driverId == assignments[i].driverId
              && h[i].assignedDate == assignments[i].assignedDate
              && h[i].status == assignments[i].status
              && (h[i].routeGrade.Some? <==> Has(routes, RouteKey, assignments[i].routeId))
  {
    seq(|assignments|, i requires 0 <= i < |assignments| =>
      Logic.HistoryRecord(assignments[i].driverId, assignments[i].assignedDate, assignments[i].status,
                          GradeOf(routes, assignments[i].routeId)))
  }

  /** The scoring environment of a run: the history as it stands before the run. */
  function DispatchEnv(st: State, now: int, hour: int, distance: (real, real, real, real) -> real): Matching.Env
  {
    Matching.Env(History(st.assignments, st.routes), now, hour, distance)
  }

  /** The scorer a run uses: compatibility with the weekly balance from the history. */
  function RunScorer(st: State, now: int, hour: int, distance: (real, real, real, real) -> real): (score: Matching.Scorer)
    ensures forall d, r :: score(d, r) == Matching.CompatFor(DispatchEnv(st, now, hour, distance), d, r)
  {
    Matching.ScorerOf(DispatchEnv(st, now, hour, distance))
  }

  /** The driver row of this id after one assigned route of grade g. */
  function UpdateFatigue(users: seq<Driver>, driverId: int, g: Grade): (r: seq<Driver>)
    ensures |r| == |users|
    ensures forall i :: 0 <= i < |users| && users[i].id == driverId ==> r[i] == AfterAssignment(users[i], g)
    ensures forall i :: 0 <= i < |users| && users[i].id != driverId ==> r[i] == users[i]
  {
    seq(|users|, i requires 0 <= i < |users| => if users[i].id == driverId then AfterAssignment(users[i], g) else users[i])
  }

  /** The route row of this id marked assigned. */
  function SetAssigned(routes: seq<Route>, routeId: int): (r: seq<Route>)
    ensures |r| == |routes|
    ensures forall i :: 0 <= i < |routes| && routes[i].id == routeId ==> r[i] == routes[i].(isAssigned := true)
    ensures forall i :: 0 <= i < |routes| && routes[i].id != routeId ==> r[i] == routes[i]
  {
    seq(|routes|, i requires 0 <= i < |routes| => if routes[i].id == routeId then routes[i].(isAssigned := true) else routes[i])
  }

  /** The users table after the loop over the matches has processed ms, in order. */
  function ApplyFatigue(users: seq<Driver>, ms: seq<Matching.Pairing>): (r: seq<Driver>)
    ensures |r| == |users|
    decreases |ms|
  {
    if ms == [] then users
    else UpdateFatigue(ApplyFatigue(users, ms[..|ms| - 1]), ms[|ms| - 1].driver.id, ms[|ms| - 1].route.grade)
  }

  /** The routes table after the loop over the matches has processed ms, in order. */
  function MarkAll(routes: seq<Route>, ms: seq<Matching.Pairing>): (r: seq<Route>)
    ensures |r| == |routes|
    decreases |ms|
  {
    if ms == [] then routes
    else SetAssigned(MarkAll(routes, ms[..|ms| - 1]), ms[|ms| - 1].route.id)
  }

  /** The assignment row the loop inserts for a match, with the given id. */
  function AssignmentRow(p: Matching.Pairing, id: int, now: int): (a: Assignment)
    ensures a.id == id && a.driverId == p.driver.id && a.routeId == p.route.id
    ensures a.assignedDate == now && a.status == Pending
  {
    NewAssignment(id, p.driver.id, p.route.id, now, ExplanationText(p.explanation), ReasonTag(p.reason))
  }

  /** The rows the loop inserts for ms, in order, numbered on from base. */
  function Numbered<T, R>(ms: seq<T>, base: nat, row: (T, int) -> R): (rows: seq<R>)
    ensures |rows| == |ms|
    decreases |ms|
  {
    if ms == [] then []
    else Numbered(ms[..|ms| - 1], base, row) + [row(ms[|ms| - 1], base + |ms|)]
  }

  /** The k-th inserted row is built from the k-th element, with id base + k + 1. */
  lemma {:induction false} NumberedSpec<T, R>(ms: seq<T>, base: nat, row: (T, int) -> R)
    ensures forall k :: 0 <= k < |ms| ==> Numbered(ms, base, row)[k] == row(ms[k], base + k + 1)
    decreases |ms|
  {
    if ms != [] {
      var init := ms[..|ms| - 1];
      NumberedSpec(init, base, row);
      forall k | 0 <= k < |init| ensures Numbered(ms, base, row)[k] == row(ms[k], base + k + 1) {
        assert ms[k] == init[k];
      }
    }
  }

  /** Numbering one more element appends its row. */
  lemma NumberedSnoc<T, R>(ms: seq<T>, i: nat, base: nat, row: (T, int) -> R)
    requires i < |ms|
    ensures Numbered(ms[..i + 1], base, row) == Numbered(ms[..i], base, row) + [row(ms[i], base + i + 1)]
  {
    assert ms[..i + 1][..i] == ms[..i];
  }

  /** How the loop builds the row for a pair from the id it is given. */
  type RowBuilder = (Matching.Pairing, int) -> Assignment

  /** The loop's builder at the time of the run. */
  function RowMaker(now: int): RowBuilder
  {
    (p, id) => AssignmentRow(p, id, now)
  }

  /** A builder whose rows carry the given id and the pair's driver and route. */
  ghost predicate KeyedRows(row: RowBuilder)
  {
    forall p: Matching.Pairing, id: int ::
      row(p, id).id == id && row(p, id).driverId == p.driver.id && row(p, id).routeId == p.route.id
  }

  lemma RowMakerKeyed(now: int)
    ensures KeyedRows(RowMaker(now))
  {
  }

  predicate DriverMatched(ms: seq<Matching.Pairing>, driverId: int)
  {
    exists k :: 0 <= k < |ms| && ms[k].driver.id == driverId
  }

  predicate RouteMatched(ms: seq<Matching.Pairing>, routeId: int)
  {
    exists k :: 0 <= k < |ms| && ms[k].route.id == routeId
  }

  /**
   * The pairs a run makes with a given scorer: none when the location has
   * no available driver or no unassigned route, otherwise the matcher's
   * result on the drivers and the urgency-sorted routes.
   */
  function RunMatches(st: State, loc: string, score: Matching.Scorer, jitter: Matching.Jitter): seq<Matching.Pairing>
  {
    var drivers := AvailableDrivers(st.users, loc);
    var routes := UnassignedRoutes(st.routes, loc);
    if drivers == [] || routes == [] then []
    else Matching.Greedy(drivers, Matching.SortByUrgency(routes), Matching.ScanPicker(score, jitter), 0, |drivers| * 2)
  }

  /** The policies table once the run has made sure the location has a policy row. */
  function EnsurePolicy(policies: seq<WeeklyPolicy>, loc: string): (r: seq<WeeklyPolicy>)
    ensures PolicyFor(r, loc).Some?
    ensures PolicyFor(policies, loc).Some? ==> r == policies
    ensures PolicyFor(policies, loc).None? ==> r == policies + [NewWeeklyPolicy(loc)] && PolicyFor(r, loc) == Some(NewWeeklyPolicy(loc))
  {
    if PolicyFor(policies, loc).Some? then policies else policies + [NewWeeklyPolicy(loc)]
  }

  /** The location has an available driver and an unassigned route, so a run goes ahead. */
  predicate Pooled(st: State, loc: string)
  {
    AvailableDrivers(st.users, loc) != [] && UnassignedRoutes(st.routes, loc) != []
  }

  /** The tables after the loop over the pairs ms. */
  function ApplyPairs(st: State, ms: seq<Matching.Pairing>, row: RowBuilder): State
  {
    st.(users := ApplyFatigue(st.users, ms),
        routes := MarkAll(st.routes, ms),
        assignments := st.assignments + Numbered(ms, |st.assignments|, row))
  }

  /**
   * perform_dispatch's effect on the tables when the matcher returns ms.
   * Nothing changes when the location has no available driver or no
   * unassigned route. Otherwise:
   *   - a default policy row is inserted if the location has none;
   *   - each pair gets a PENDING assignment row;
   *   - the pair's route is marked assigned;
   *   - the pair's driver takes the route's fatigue step.
   */
  function DispatchRun(st: State, loc: string, ms: seq<Matching.Pairing>, row: RowBuilder): (st2: State)
    ensures !Pooled(st, loc) ==> st2 == st
    ensures |st.policies| <= |st2.policies|
    ensures Pooled(st, loc) ==> PolicyFor(st2.policies, loc).Some? && st2.policies[..|st.policies|] == st.policies
    ensures st2.creditLogs == st.creditLogs
    ensures |st2.users| == |st.users| && |st2.routes| == |st.routes|
    ensures |st.assignments| <= |st2.assignments| && st2.assignments[..|st.assignments|] == st.assignments
  {
    if !Pooled(st, loc) then st
    else ApplyPairs(st.(policies := EnsurePolicy(st.policies, loc)), ms, row)
  }

  /**
   * Pairs drawn from a run's pools: each driver was available at the
   * location, each route was unassigned at the location, and no driver and
   * no route is used twice.
   */
  predicate PairsFrom(st: State, loc: string, ms: seq<Matching.Pairing>)
  {
    && (forall k :: 0 <= k < |ms| ==>
          ms[k].driver in AvailableDrivers(st.users, loc) && ms[k].route in UnassignedRoutes(st.routes, loc))
    && (forall j, k :: 0 <= j < k < |ms| ==> ms[j].driver.id != ms[k].driver.id && ms[j].route.id != ms[k].route.id)
  }

  /** After the loop, exactly the matched routes have been newly marked. */
  lemma {:induction false} MarkAllMarks(routes: seq<Route>, ms: seq<Matching.Pairing>)
    ensures forall i :: 0 <= i < |routes| ==>
              MarkAll(routes, ms)[i] == routes[i].(isAssigned := routes[i].isAssigned || RouteMatched(ms, routes[i].id))
    decreases |ms|
  {
    if ms != [] {
      var init := ms[..|ms| - 1];
      var last := ms[|ms| - 1];
      MarkAllMarks(routes, init);
      forall i | 0 <= i < |routes|
        ensures MarkAll(routes, ms)[i] == routes[i].(isAssigned := routes[i].isAssigned || RouteMatched(ms, routes[i].id))
      {
        if RouteMatched(init, routes[i].id) {
          var k :| 0 <= k < |init| && init[k].route.id == routes[i].id;
          assert ms[k] == init[k];
        }
        if RouteMatched(ms, routes[i].id) && routes[i].id != last.route.id {
          var k :| 0 <= k < |ms| && ms[k].route.id == routes[i].id;
          assert init[k] == ms[k];
        }
      }
    }
  }

  /**
   * After the loop, a matched driver's row has taken exactly one fatigue
   * step, for the route it was matched with; every other row is unchanged.
   * This needs each driver to be matched at most once.
   */
  lemma {:induction false} ApplyFatigueUpdates(users: seq<Driver>, ms: seq<Matching.Pairing>)
    requires forall j, k :: 0 <= j < k < |ms| ==> ms[j].driver.id != ms[k].driver.id
    ensures forall i, k :: 0 <= i < |users| && 0 <= k < |ms| && users[i].id == ms[k].driver.id ==>
              ApplyFatigue(users, ms)[i] == AfterAssignment(users[i], ms[k].route.grade)
    ensures forall i :: 0 <= i < |users| && !DriverMatched(ms, users[i].id) ==> ApplyFatigue(users, ms)[i] == users[i]
    decreases |ms|
  {
    if ms != [] {
      var init := ms[..|ms| - 1];
      var last := ms[|ms| - 1];
      ApplyFatigueUpdates(users, init);
      var prev := ApplyFatigue(users, init);
      forall i, k | 0 <= i < |users| && 0 <= k < |init| && users[i].id == init[k].driver.id
        ensures users[i].id != last.driver.id
      {
        assert ms[k] == init[k];
      }
      forall i, k | 0 <= i < |users| && 0 <= k < |ms| && users[i].id == ms[k].driver.id
        ensures ApplyFatigue(users, ms)[i] == AfterAssignment(users[i], ms[k].route.grade)
      {
        if k < |init| {
          assert ms[k] == init[k];
        }
      }
    }
  }

  /**
   * The matcher's pairs are drawn from the run's pools, at most one per
   * driver and per route. Each pair carries the scorer's compatibility for
   * it, an adjusted score above the gate, and the explanation and reason
   * code derived from that compatibility.
   */
  lemma RunMatchesFromPools(st: State, loc: string, score: Matching.Scorer, jitter: Matching.Jitter)
    requires Matching.DistinctDriverIds(st.users) && Matching.DistinctRouteIds(st.routes)
    ensures var ms := RunMatches(st, loc, score, jitter);
            && PairsFrom(st, loc, ms)
            && |ms| <= |AvailableDrivers(st.users, loc)| && |ms| <= |UnassignedRoutes(st.routes, loc)|
            && forall k :: 0 <= k < |ms| ==> Matching.Scored(ms[k], score)
  {
    var drivers := AvailableDrivers(st.users, loc);
    var routes := UnassignedRoutes(st.routes, loc);
    if drivers != [] && routes != [] {
      var sorted := Matching.SortByUrgency(routes);
      AvailableDriversDistinct(st.users, loc);
      UnassignedRoutesDistinct(st.routes, loc);
      Matching.SortKeepsIdsDistinct(routes);
      var pick := Matching.ScanPicker(score, jitter);
      Matching.ScanPickerSound(score, jitter);
      Matching.GreedyFromPools(drivers, sorted, pick, 0, |drivers| * 2);
      Matching.GreedyScored(drivers, sorted, pick, score, jitter, 0, |drivers| * 2);
      Matching.GreedyDistinct(drivers, sorted, pick, 0, |drivers| * 2);
    }
  }

  /** With empty pools there are no pairs, so a run with pairs has non-empty pools. */
  lemma PairsNeedPools(st: State, loc: string, ms: seq<Matching.Pairing>)
    requires PairsFrom(st, loc, ms) && ms != []
    ensures Pooled(st, loc)
  {
    assert ms[0].driver in AvailableDrivers(st.users, loc);
    assert ms[0].route in UnassignedRoutes(st.routes, loc);
  }

  /** The tables a run with pairs writes: the loop's, after the policy row is ensured. */
  lemma DispatchTables(st: State, loc: string, ms: seq<Matching.Pairing>, row: RowBuilder)
    requires Pooled(st, loc)
    ensures DispatchRun(st, loc, ms, row) == ApplyPairs(st.(policies := EnsurePolicy(st.policies, loc)), ms, row)
  {
  }

  /** The loop appends one row per pair, numbered on from the table's length, in pair order. */
  lemma ApplyPairsRows(st: State, ms: seq<Matching.Pairing>, row: RowBuilder)
    ensures var rows := ApplyPairs(st, ms, row).assignments;
            var n := |st.assignments|;
            && |rows| == n + |ms|
            && forall k :: 0 <= k < |ms| ==> rows[n + k] == row(ms[k], n + k + 1)
  {
    var n := |st.assignments|;
    var rows := Numbered(ms, n, row);
    NumberedSpec(ms, n, row);
    forall k | 0 <= k < |ms| ensures (st.assignments + rows)[n + k] == row(ms[k], n + k + 1) {
      assert (st.assignments + rows)[n + k] == rows[k];
    }
  }

  /**
   * A run appends one row per pair, numbered on from the table's length, in
   * pair order. With the loop's builder, each is the PENDING AssignmentRow
   * for its pair: its driver, route, explanation and reason code.
   */
  lemma DispatchAppendsRows(st: State, loc: string, ms: seq<Matching.Pairing>, row: RowBuilder)
    requires ms == [] || Pooled(st, loc)
    ensures var st2 := DispatchRun(st, loc, ms, row);
            var n := |st.assignments|;
            && |st2.assignments| == n + |ms|
            && forall k :: 0 <= k < |ms| ==> st2.assignments[n + k] == row(ms[k], n + k + 1)
  {
    if ms != [] {
      DispatchTables(st, loc, ms, row);
      ApplyPairsRows(st.(policies := EnsurePolicy(st.policies, loc)), ms, row);
    }
  }

  /** After a run, exactly the paired routes have become assigned; nothing else in the routes table changes. */
  lemma DispatchMarksRoutes(st: State, loc: string, ms: seq<Matching.Pairing>, row: RowBuilder)
    requires PairsFrom(st, loc, ms)
    ensures var st2 := DispatchRun(st, loc, ms, row);
            forall i :: 0 <= i < |st.routes| ==>
              st2.routes[i] == st.routes[i].(isAssigned := st.routes[i].isAssigned || RouteMatched(ms, st.routes[i].id))
  {
    if ms != [] {
      PairsNeedPools(st, loc, ms);
      assert DispatchRun(st, loc, ms, row).routes == MarkAll(st.routes, ms);
      MarkAllMarks(st.routes, ms);
    }
  }

  /**
   * After a run, each paired driver has taken exactly one fatigue step,
   * for its own route's grade, with health recomputed. Every other user
   * row is unchanged.
   */
  lemma DispatchUpdatesDrivers(st: State, loc: string, ms: seq<Matching.Pairing>, row: RowBuilder)
    requires PairsFrom(st, loc, ms)
    ensures var st2 := DispatchRun(st, loc, ms, row);
            && (forall i, k :: 0 <= i < |st.users| && 0 <= k < |ms| && st.users[i].id == ms[k].driver.id ==>
                  st2.users[i] == AfterAssignment(st.users[i], ms[k].route.grade))
            && (forall i :: 0 <= i < |st.users| && !DriverMatched(ms, st.users[i].id) ==> st2.users[i] == st.users[i])
  {
    if ms != [] {
      PairsNeedPools(st, loc, ms);
      assert DispatchRun(st, loc, ms, row).users == ApplyFatigue(st.users, ms);
      ApplyFatigueUpdates(st.users, ms);
    }
  }

  /** Two tables with the same keys at the same positions. */
  predicate SameKeys<T>(s: seq<T>, t: seq<T>, key: T -> int)
  {
    |s| == |t| && forall i :: 0 <= i < |s| ==> key(t[i]) == key(s[i])
  }

  lemma HasSameKeys<T>(s: seq<T>, t: seq<T>, key: T -> int, id: int)
    requires SameKeys(s, t, key) && Has(s, key, id)
    ensures Has(t, key, id)
  {
    var i :| 0 <= i < |s| && key(s[i]) == id;
    assert key(t[i]) == id;
  }

  lemma HasMember<T>(s: seq<T>, key: T -> int, x: T)
    requires x in s
    ensures Has(s, key, key(x))
  {
    var i :| 0 <= i < |s| && s[i] == x;
    assert key(s[i]) == key(x);
  }

  /**
   * Validity carries over to a state that keeps the user and route keys in
   * place, keeps the old assignment rows and appends rows that are
   * numbered on and refer to existing users and routes.
   */
  lemma ValidTransfer(st: State, st2: State)
    requires Valid(st)
    requires SameKeys(st.users, st2.users, UserKey) && SameKeys(st.routes, st2.routes, RouteKey)
    requires |st.assignments| <= |st2.assignments|
    requires forall i :: 0 <= i < |st.assignments| ==>
               st2.assignments[i].id == st.assignments[i].id
               && st2.assignments[i].driverId == st.assignments[i].driverId
               && st2.assignments[i].routeId == st.assignments[i].routeId
    requires forall i :: |st.assignments| <= i < |st2.assignments| ==>
               st2.assignments[i].id == i + 1
               && Has(st.users, UserKey, st2.assignments[i].driverId)
               && Has(st.routes, RouteKey, st2.assignments[i].routeId)
    ensures Valid(st2)
  {
    forall i, j | 0 <= i < j < |st2.users| ensures st2.users[i].id != st2.users[j].id {
      assert UserKey(st2.users[i]) == UserKey(st.users[i]);
      assert UserKey(st2.users[j]) == UserKey(st.users[j]);
    }
    forall i, j | 0 <= i < j < |st2.routes| ensures st2.routes[i].id != st2.routes[j].id {
      assert RouteKey(st2.routes[i]) == RouteKey(st.routes[i]);
      assert RouteKey(st2.routes[j]) == RouteKey(st.routes[j]);
    }
    forall i | 0 <= i < |st2.assignments|
      ensures Has(st2.users, UserKey, st2.assignments[i].driverId)
      ensures Has(st2.routes, RouteKey, st2.assignments[i].routeId)
    {
      HasSameKeys(st.users, st2.users, UserKey, st2.assignments[i].driverId);
      HasSameKeys(st.routes, st2.routes, RouteKey, st2.assignments[i].routeId);
    }
  }

  lemma DispatchKeepsUserKeys(st: State, loc: string, ms: seq<Matching.Pairing>, row: RowBuilder)
    requires PairsFrom(st, loc, ms)
    ensures SameKeys(st.users, DispatchRun(st, loc, ms, row).users, UserKey)
  {
    var st2 := DispatchRun(st, loc, ms, row);
    DispatchUpdatesDrivers(st, loc, ms, row);
    forall i | 0 <= i < |st.users| ensures UserKey(st2.users[i]) == UserKey(st.users[i]) {
      if DriverMatched(ms, st.users[i].id) {
        var k :| 0 <= k < |ms| && ms[k].driver.id == st.users[i].id;
        assert st2.users[i] == AfterAssignment(st.users[i], ms[k].route.grade);
      }
    }
  }

  lemma DispatchKeepsRouteKeys(st: State, loc: string, ms: seq<Matching.Pairing>, row: RowBuilder)
    requires PairsFrom(st, loc, ms)
    ensures SameKeys(st.routes, DispatchRun(st, loc, ms, row).routes, RouteKey)
  {
    DispatchMarksRoutes(st, loc, ms, row);
  }

  /** Every pair's driver and route are rows of the tables. */
  lemma PairsInTables(st: State, loc: string, ms: seq<Matching.Pairing>)
    requires PairsFrom(st, loc, ms)
    ensures forall k :: 0 <= k < |ms| ==> ms[k].driver in st.users && ms[k].route in st.routes
  {
    forall k | 0 <= k < |ms| ensures ms[k].driver in st.users && ms[k].route in st.routes {
      assert ms[k].driver in AvailableDrivers(st.users, loc);
      assert ms[k].route in UnassignedRoutes(st.routes, loc);
    }
  }

  lemma DispatchRowsRefer(st: State, loc: string, ms: seq<Matching.Pairing>, row: RowBuilder)
    requires PairsFrom(st, loc, ms) && KeyedRows(row)
    ensures var st2 := DispatchRun(st, loc, ms, row);
            forall i :: |st.assignments| <= i < |st2.assignments| ==>
              st2.assignments[i].id == i + 1
              && Has(st.users, UserKey, st2.assignments[i].driverId)
              && Has(st.routes, RouteKey, st2.assignments[i].routeId)
  {
    var st2 := DispatchRun(st, loc, ms, row);
    var n := |st.assignments|;
    if ms != [] {
      PairsNeedPools(st, loc, ms);
    }
    DispatchAppendsRows(st, loc, ms, row);
    PairsInTables(st, loc, ms);
    forall i | n <= i < |st2.assignments|
      ensures st2.assignments[i].id == i + 1
      ensures Has(st.users, UserKey, st2.assignments[i].driverId)
      ensures Has(st.routes, RouteKey, st2.assignments[i].routeId)
    {
      var k := i - n;
      assert st2.assignments[i] == row(ms[k], i + 1);
      HasMember(st.users, UserKey, ms[k].driver);
      HasMember(st.routes, RouteKey, ms[k].route);
    }
  }

  /** A run with pairs drawn from its pools keeps the tables Valid. */
  lemma DispatchPreservesValid(st: State, loc: string, ms: seq<Matching.Pairing>, row: RowBuilder)
    requires Valid(st) && PairsFrom(st, loc, ms) && KeyedRows(row)
    ensures Valid(DispatchRun(st, loc, ms, row))
  {
    var st2 := DispatchRun(st, loc, ms, row);
    var n := |st.assignments|;
    DispatchKeepsUserKeys(st, loc, ms, row);
    DispatchKeepsRouteKeys(st, loc, ms, row);
    DispatchRowsRefer(st, loc, ms, row);
    forall i | 0 <= i < n ensures st2.assignments[i] == st.assignments[i] {
      assert st2.assignments[..n][i] == st.assignments[i];
    }
    ValidTransfer(st, st2);
  }

  // ---------------------------------------------------------------------
  // A driver's answer to an assignment (main.py:179-279)
  // ---------------------------------------------------------------------

  /** The reply of respond_to_assignment. */
  datatype Response =
    | AcceptedWith(creditsEarned: int)  // "Assignment accepted", with the credits earned
    | DeclinedOk                        // "Assignment declined and reassigned"
    | NotFound                          // 404: no assignment with that id
    | BadRequest                        // 400: neither "accept" nor "decline"
    | ServerError                       // the handler raised before replying

  datatype Outcome = Outcome(state: State, response: Response)

  const ReassignmentBonus: int := 5
  const ReassignedExplanation: string := "This route was reassigned to you. Thank you for your flexibility!"
  const ReassignedReason: string := "Reassignment from declined route"

  /** The row offering a declined route to another driver, with a bonus. */
  function ReassignedRow(id: int, driverId: int, declined: Assignment, now: int): (a: Assignment)
    ensures a.id == id && a.driverId == driverId && a.routeId == declined.routeId && a.assignedDate == now
    ensures a.status == Pending && a.responseTime == None && a.declineReason == None
    ensures a.originalDriverId == Some(declined.driverId) && a.reassignmentBonus == ReassignmentBonus
  {
    Assignment(id, driverId, declined.routeId, now, Pending, ReassignedExplanation, ReassignedReason,
               None, None, Some(declined.driverId), ReassignmentBonus)
  }

  /**
   * "accept" on the row at position ai. The status and response time are
   * set and the route is marked assigned. With a policy for the driver's
   * location:
   *   - the driver earns the policy's credits for the route's grade;
   *   - the driver earns the row's reassignment bonus, if positive, as bonus credits;
   *   - the credits (not the bonus) are logged.
   * Without a policy, the earned credits are never bound and the reply
   * fails. By then the notification has committed the status and route
   * changes.
   */
  function Accept(st: State, ai: nat, now: int): Outcome
    requires ai < |st.assignments|
  {
    var a := st.assignments[ai];
    var ri := IndexOf(st.routes, RouteKey, a.routeId);
    var ui := IndexOf(st.users, UserKey, a.driverId);
    if ri.None? || ui.None? then Outcome(st, ServerError)
    else
      var route := st.routes[ri.value];
      var d := st.users[ui.value];
      var accepted := st.(assignments := st.assignments[ai := a.(status := Accepted, responseTime := Some(now))],
                          routes := st.routes[ri.value := route.(isAssigned := true)]);
      match PolicyFor(st.policies, d.locationId)
      case None => Outcome(accepted, ServerError)
      case Some(p) => Outcome(Paid(accepted, ui.value, a, CreditsFor(p, route.grade), route.grade),
                              AcceptedWith(CreditsFor(p, route.grade)))
  }

  /**
   * The user at position ui earns the credits for the accepted row a and
   * its reassignment bonus, if positive; the credits are logged.
   */
  function Paid(st: State, ui: nat, a: Assignment, credits: int, g: Grade): State
    requires ui < |st.users|
  {
    var d := st.users[ui];
    var paid := d.(credits := d.credits + credits,
                   bonusCredits := if a.reassignmentBonus > 0 then d.bonusCredits + a.reassignmentBonus else d.bonusCredits);
    st.(users := st.users[ui := paid],
        creditLogs := st.creditLogs + [CreditLog(a.driverId, credits, g, false)])
  }

  /**
   * "decline" on the row at position ai. The status, response time and
   * reason are set. The first available driver at the decliner's location,
   * other than the decliner, is offered the route in a new PENDING row
   * carrying the reassignment bonus. The route stays marked assigned.
   */
  function Decline(st: State, ai: nat, reason: Option<string>, now: int): Outcome
    requires ai < |st.assignments|
  {
    var a := st.assignments[ai];
    match IndexOf(st.users, UserKey, a.driverId)
    case None => Outcome(st, ServerError)
    case Some(ui) =>
      var declined := st.assignments[ai := a.(status := Declined, responseTime := Some(now), declineReason := reason)];
      var candidates := Logic.FindAvailableDrivers(st.users, st.users[ui].locationId, Some(a.driverId));
      if candidates == [] then Outcome(st.(assignments := declined), DeclinedOk)
      else Outcome(st.(assignments := declined + [ReassignedRow(|declined| + 1, candidates[0].id, a, now)]), DeclinedOk)
  }

  /** respond_to_assignment. */
  function Respond(st: State, assignmentId: int, action: string, reason: Option<string>, now: int): (o: Outcome)
    ensures o.response == NotFound <==> IndexOf(st.assignments, AssignmentKey, assignmentId).None?
    ensures o.response == BadRequest <==>
              IndexOf(st.assignments, AssignmentKey, assignmentId).Some? && action != "accept" && action != "decline"
    ensures o.response.NotFound? || o.response.BadRequest? ==> o.state == st
    ensures o.response.AcceptedWith? ==> action == "accept"
    ensures o.response.DeclinedOk? ==> action == "decline"
  {
    match IndexOf(st.assignments, AssignmentKey, assignmentId)
    case None => Outcome(st, NotFound)
    case Some(ai) =>
      if action == "accept" then Accept(st, ai, now)
      else if action == "decline" then Decline(st, ai, reason, now)
      else Outcome(st, BadRequest)
  }

  /** In a Valid database every assignment's route and driver are found. */
  lemma ValidLookups(st: State, ai: nat)
    requires Valid(st) && ai < |st.assignments|
    ensures IndexOf(st.routes, RouteKey, st.assignments[ai].routeId).Some?
    ensures IndexOf(st.users, UserKey, st.assignments[ai].driverId).Some?
  {
    var a := st.assignments[ai];
    assert Has(st.routes, RouteKey, a.routeId) && Has(st.users, UserKey, a.driverId);
    var i :| 0 <= i < |st.routes| && RouteKey(st.routes[i]) == a.routeId;
    var j :| 0 <= j < |st.users| && UserKey(st.users[j]) == a.driverId;
  }

  /**
   * What accepting the row at position ai does. The row becomes ACCEPTED
   * with its response time, the route becomes assigned, and no other
   * assignment row, route or policy changes. The reply fails exactly when
   * the driver's location has no policy; then users and the credit log are
   * unchanged. Otherwise the driver earns that policy's credits for the
   * route's grade, plus any positive reassignment bonus as bonus credits,
   * one credit-log row records the credits, and no other user row changes.
   */
  predicate AcceptEffect(st: State, ai: nat, now: int, o: Outcome)
    requires ai < |st.assignments|
    requires IndexOf(st.routes, RouteKey, st.assignments[ai].routeId).Some?
    requires IndexOf(st.users, UserKey, st.assignments[ai].driverId).Some?
  {
    var a := st.assignments[ai];
    var ri := IndexOf(st.routes, RouteKey, a.routeId).value;
    var ui := IndexOf(st.users, UserKey, a.driverId).value;
    var policy := PolicyFor(st.policies, st.users[ui].locationId);
    && o.state.assignments == st.assignments[ai := a.(status := Accepted, responseTime := Some(now))]
    && o.state.routes == st.routes[ri := st.routes[ri].(isAssigned := true)]
    && o.state.policies == st.policies
    && (o.response == ServerError <==> policy.None?)
    && (policy.None? ==> o.state.users == st.users && o.state.creditLogs == st.creditLogs)
    && (policy.Some? ==>
          var credits := CreditsFor(policy.value, st.routes[ri].grade);
          && o.response == AcceptedWith(credits)
          && |o.state.users| == |st.users|
          && o.state.users[ui] == st.users[ui].(
               credits := st.users[ui].credits + credits,
               bonusCredits := st.users[ui].bonusCredits + (if a.reassignmentBonus > 0 then a.reassignmentBonus else 0))
          && (forall i :: 0 <= i < |st.users| && i != ui ==> o.state.users[i] == st.users[i])
          && o.state.creditLogs == st.creditLogs + [CreditLog(a.driverId, credits, st.routes[ri].grade, false)])
  }

  /** Accepting, in a Valid database, has exactly the effect AcceptEffect describes. */
  lemma AcceptOutcome(st: State, assignmentId: int, reason: Option<string>, now: int)
    requires Valid(st) && IndexOf(st.assignments, AssignmentKey, assignmentId).Some?
    ensures var a := st.assignments[IndexOf(st.assignments, AssignmentKey, assignmentId).value];
            IndexOf(st.routes, RouteKey, a.routeId).Some? && IndexOf(st.users, UserKey, a.driverId).Some?
    ensures AcceptEffect(st, IndexOf(st.assignments, AssignmentKey, assignmentId).value, now,
                         Respond(st, assignmentId, "accept", reason, now))
  {
    var ai := IndexOf(st.assignments, AssignmentKey, assignmentId).value;
    ValidLookups(st, ai);
    AcceptEffects(st, ai, now);
  }

  lemma AcceptEffects(st: State, ai: nat, now: int)
    requires ai < |st.assignments|
    requires IndexOf(st.routes, RouteKey, st.assignments[ai].routeId).Some?
    requires IndexOf(st.users, UserKey, st.assignments[ai].driverId).Some?
    ensures AcceptEffect(st, ai, now, Accept(st, ai, now))
  {
    var a := st.assignments[ai];
    var ri := IndexOf(st.routes, RouteKey, a.routeId).value;
    var ui := IndexOf(st.users, UserKey, a.driverId).value;
    var accepted := st.(assignments := st.assignments[ai := a.(status := Accepted, responseTime := Some(now))],
                        routes := st.routes[ri := st.routes[ri].(isAssigned := true)]);
    match PolicyFor(st.policies, st.users[ui].locationId)
    case None =>
      assert Accept(st, ai, now) == Outcome(accepted, ServerError);
    case Some(p) =>
      var credits := CreditsFor(p, st.routes[ri].grade);
      var paid := Paid(accepted, ui, a, credits, st.routes[ri].grade);
      assert Accept(st, ai, now) == Outcome(paid, AcceptedWith(credits));
      PaidEffect(accepted, ui, a, credits, st.routes[ri].grade);
      assert accepted.users == st.users && accepted.creditLogs == st.creditLogs;
  }

  lemma PaidEffect(st: State, ui: nat, a: Assignment, credits: int, g: Grade)
    requires ui < |st.users|
    ensures var st2 := Paid(st, ui, a, credits, g);
            && st2.assignments == st.assignments && st2.routes == st.routes && st2.policies == st.policies
            && |st2.users| == |st.users|
            && st2.users[ui] == st.users[ui].(
                 credits := st.users[ui].credits + credits,
                 bonusCredits := st.users[ui].bonusCredits + (if a.reassignmentBonus > 0 then a.reassignmentBonus else 0))
            && (forall i :: 0 <= i < |st.users| && i != ui ==> st2.users[i] == st.users[i])
            && st2.creditLogs == st.creditLogs + [CreditLog(a.driverId, credits, g, false)]
  {
  }

  /**
   * Declining, in a Valid database. The row becomes DECLINED with its
   * response time and reason, and the reply succeeds. If some other driver
   * at the decliner's location is available and not restricted, the first
   * such driver in table order is offered the route. The offer is a new
   * PENDING row carrying the bonus and the original driver. Otherwise no
   * row is added. Users, routes, policies and the credit log do not change.
   */
  lemma DeclineOutcome(st: State, assignmentId: int, reason: Option<string>, now: int)
    requires Valid(st) && IndexOf(st.assignments, AssignmentKey, assignmentId).Some?
    ensures var ai := IndexOf(st.assignments, AssignmentKey, assignmentId).value;
            var a := st.assignments[ai];
            var d := st.users[IndexOf(st.users, UserKey, a.driverId).value];
            var candidates := Logic.FindAvailableDrivers(st.users, d.locationId, Some(a.driverId));
            var o := Respond(st, assignmentId, "decline", reason, now);
            var n := |st.assignments|;
            && o.response == DeclinedOk
            && o.state.users == st.users && o.state.routes == st.routes
            && o.state.policies == st.policies && o.state.creditLogs == st.creditLogs
            && o.state.assignments[ai] == a.(status := Declined, responseTime := Some(now), declineReason := reason)
            && (forall i :: 0 <= i < n && i != ai ==> o.state.assignments[i] == st.assignments[i])
            && (candidates == [] ==> |o.state.assignments| == n)
            && (candidates != [] ==>
                  && |o.state.assignments| == n + 1
                  && o.state.assignments[n] == ReassignedRow(n + 1, candidates[0].id, a, now)
                  && candidates[0] in st.users && candidates[0].locationId == d.locationId
                  && candidates[0].isAvailable && candidates[0].health != Restricted
                  && (a.driverId != 0 ==> candidates[0].id != a.driverId))
  {
    var ai := IndexOf(st.assignments, AssignmentKey, assignmentId).value;
    ValidLookups(st, ai);
  }

  /** No answer ever un-assigns a route, and no answer changes a route other than its assigned flag. */
  lemma RespondNeverUnassigns(st: State, assignmentId: int, action: string, reason: Option<string>, now: int)
    ensures var o := Respond(st, assignmentId, action, reason, now);
            && |o.state.routes| == |st.routes|
            && forall i :: 0 <= i < |st.routes| ==>
                 && o.state.routes[i] == st.routes[i].(isAssigned := o.state.routes[i].isAssigned)
                 && (st.routes[i].isAssigned ==> o.state.routes[i].isAssigned)
  {
  }

  lemma AcceptPreservesValid(st: State, ai: nat, now: int)
    requires Valid(st) && ai < |st.assignments|
    ensures Valid(Accept(st, ai, now).state)
  {
    var a := st.assignments[ai];
    ValidLookups(st, ai);
    var ri := IndexOf(st.routes, RouteKey, a.routeId).value;
    var ui := IndexOf(st.users, UserKey, a.driverId).value;
    var accepted := st.(assignments := st.assignments[ai := a.(status := Accepted, responseTime := Some(now))],
                        routes := st.routes[ri := st.routes[ri].(isAssigned := true)]);
    assert SameKeys(st.routes, accepted.routes, RouteKey);
    var st2 := Accept(st, ai, now).state;
    assert st2.assignments == accepted.assignments && st2.routes == accepted.routes;
    assert st2.users == st.users || st2.users == st.users[ui := st2.users[ui]];
    assert SameKeys(st.users, st2.users, UserKey);
    ValidTransfer(st, st2);
  }

  lemma DeclinePreservesValid(st: State, ai: nat, reason: Option<string>, now: int)
    requires Valid(st) && ai < |st.assignments|
    ensures Valid(Decline(st, ai, reason, now).state)
  {
    var a := st.assignments[ai];
    ValidLookups(st, ai);
    var ui := IndexOf(st.users, UserKey, a.driverId).value;
    var declined := st.assignments[ai := a.(status := Declined, responseTime := Some(now), declineReason := reason)];
    var candidates := Logic.FindAvailableDrivers(st.users, st.users[ui].locationId, Some(a.driverId));
    var rows := if candidates == [] then declined
                else declined + [ReassignedRow(|declined| + 1, candidates[0].id, a, now)];
    assert Decline(st, ai, reason, now).state == st.(assignments := rows);
    forall i | 0 <= i < |st.assignments|
      ensures rows[i].id == st.assignments[i].id
      ensures rows[i].driverId == st.assignments[i].driverId && rows[i].routeId == st.assignments[i].routeId
    {
      assert rows[i] == declined[i];
    }
    if candidates != [] {
      HasMember(st.users, UserKey, candidates[0]);
      assert Has(st.routes, RouteKey, a.routeId);
      assert rows[|st.assignments|] == ReassignedRow(|declined| + 1, candidates[0].id, a, now);
    }
    ValidTransfer(st, st.(assignments := rows));
  }

  /** An answer keeps the tables Valid. */
  lemma RespondPreservesValid(st: State, assignmentId: int, action: string, reason: Option<string>, now: int)
    requires Valid(st)
    ensures Valid(Respond(st, assignmentId, action, reason, now).state)
  {
    var found := IndexOf(st.assignments, AssignmentKey, assignmentId);
    if found.Some? {
      if action == "accept" {
        AcceptPreservesValid(st, found.value, now);
      } else if action == "decline" {
        DeclinePreservesValid(st, found.value, reason, now);
      }
    }
  }

  // ---------------------------------------------------------------------
  // The credit ledger
  // ---------------------------------------------------------------------

  /** The credits the log records for a driver. */
  function Logged(logs: seq<CreditLog>, driverId: int): int
    decreases |logs|
  {
    if logs == [] then 0
    else Logged(logs[..|logs| - 1], driverId) + (if logs[|logs| - 1].driverId == driverId then logs[|logs| - 1].amount else 0)
  }

  /** Every driver's credits are exactly what the credit log records for them. */
  predicate Ledger(st: State)
  {
    forall i :: 0 <= i < |st.users| ==> st.users[i].credits == Logged(st.creditLogs, st.users[i].id)
  }

  /** An empty database and a new user with no log rows are in balance. */
  lemma {:induction false} NewUserInBalance(id: int, loc: string, logs: seq<CreditLog>)
    requires forall k :: 0 <= k < |logs| ==> logs[k].driverId != id
    ensures NewUser(id, loc).credits == Logged(logs, id)
    decreases |logs|
  {
    if logs != [] {
      NewUserInBalance(id, loc, logs[..|logs| - 1]);
    }
  }

  /** Accepting pays credits and logs them in one step, so the ledger stays balanced. */
  lemma AcceptKeepsLedger(st: State, ai: nat, now: int)
    requires Valid(st) && Ledger(st) && ai < |st.assignments|
    ensures Ledger(Accept(st, ai, now).state)
  {
    var st2 := Accept(st, ai, now).state;
    if st2.creditLogs != st.creditLogs {
      var a := st.assignments[ai];
      ValidLookups(st, ai);
      var ui := IndexOf(st.users, UserKey, a.driverId).value;
      var policy := PolicyFor(st.policies, st.users[ui].locationId);
      var grade := st.routes[IndexOf(st.routes, RouteKey, a.routeId).value].grade;
      var credits := CreditsFor(policy.value, grade);
      assert st2.creditLogs == st.creditLogs + [CreditLog(a.driverId, credits, grade, false)];
      assert st2.creditLogs[..|st2.creditLogs| - 1] == st.creditLogs;
      assert |st2.users| == |st.users| && st2.users[ui].credits == st.users[ui].credits + credits;
      forall i | 0 <= i < |st.users| ensures st2.users[i].credits == Logged(st2.creditLogs, st2.users[i].id) {
        if i != ui {
          assert st2.users[i] == st.users[i];
          assert st.users[i].id != a.driverId;
        }
      }
    }
  }

  /** No answer changes credits without logging them. */
  lemma RespondKeepsLedger(st: State, assignmentId: int, action: string, reason: Option<string>, now: int)
    requires Valid(st) && Ledger(st)
    ensures Ledger(Respond(st, assignmentId, action, reason, now).state)
  {
    var found := IndexOf(st.assignments, AssignmentKey, assignmentId);
    if found.Some? {
      if action == "accept" {
        AcceptKeepsLedger(st, found.value, now);
      } else if action == "decline" {
        var st2 := Decline(st, found.value, reason, now).state;
        assert st2.users == st.users && st2.creditLogs == st.creditLogs;
      }
    }
  }

  /** A dispatch run leaves credits and the credit log alone. */
  lemma DispatchKeepsLedger(st: State, loc: string, ms: seq<Matching.Pairing>, row: RowBuilder)
    requires PairsFrom(st, loc, ms) && Ledger(st)
    ensures Ledger(DispatchRun(st, loc, ms, row))
  {
    var st2 := DispatchRun(st, loc, ms, row);
    DispatchUpdatesDrivers(st, loc, ms, row);
    forall i | 0 <= i < |st.users| ensures st2.users[i].credits == st.users[i].credits && st2.users[i].id == st.users[i].id {
      if DriverMatched(ms, st.users[i].id) {
        var k :| 0 <= k < |ms| && ms[k].driver.id == st.users[i].id;
        assert st2.users[i] == AfterAssignment(st.users[i], ms[k].route.grade);
      }
    }
  }

  /** A run with the matcher's pairs and the loop's builder keeps the tables Valid and the ledger balanced. */
  lemma RunKeepsInvariants(st: State, loc: string, score: Matching.Scorer, jitter: Matching.Jitter, now: int)
    ensures var st2 := DispatchRun(st, loc, RunMatches(st, loc, score, jitter), RowMaker(now));
            && (Valid(st) ==> Valid(st2))
            && (Valid(st) && Ledger(st) ==> Ledger(st2))
  {
    if Valid(st) {
      var ms := RunMatches(st, loc, score, jitter);
      RunMatchesFromPools(st, loc, score, jitter);
      RowMakerKeyed(now);
      DispatchPreservesValid(st, loc, ms, RowMaker(now));
      if Ledger(st) {
        DispatchKeepsLedger(st, loc, ms, RowMaker(now));
      }
    }
  }

  // ---------------------------------------------------------------------
  // The database
  // ---------------------------------------------------------------------

  class Database {
    var users: seq<Driver>
    var routes: seq<Route>
    var assignments: seq<Assignment>
    var policies: seq<WeeklyPolicy>
    var creditLogs: seq<CreditLog>

    /** An empty database. */
    constructor ()
      ensures Snapshot() == State([], [], [], [], [])
    {
      users := [];
      routes := [];
      assignments := [];
      policies := [];
      creditLogs := [];
    }

    function Snapshot(): State
      reads this
    {
      State(users, routes, assignments, policies, creditLogs)
    }

    /**
     * perform_dispatch for one location. It returns the number of
     * assignments made and the pairs behind them. The pairs are the
     * matcher's, scored with the history as it stood before the run, and
     * the tables end as DispatchRun says.
     */
    method PerformDispatch(loc: string, now: int, hour: int,
                           distance: (real, real, real, real) -> real, jitter: Matching.Jitter)
      returns (count: nat, matches: seq<Matching.Pairing>)
      modifies this
      ensures matches == RunMatches(old(Snapshot()), loc, RunScorer(old(Snapshot()), now, hour, distance), jitter)
      ensures Snapshot() == DispatchRun(old(Snapshot()), loc, matches, RowMaker(now))
      ensures count == |matches|
      ensures Valid(old(Snapshot())) ==> Valid(Snapshot())
      ensures Valid(old(Snapshot())) && Ledger(old(Snapshot())) ==> Ledger(Snapshot())
    {
      ghost var st := Snapshot();
      var drivers := AvailableDrivers(users, loc);
      if drivers == [] {
        return 0, [];
      }
      var available := UnassignedRoutes(routes, loc);
      if available == [] {
        return 0, [];
      }
      if PolicyFor(policies, loc).None? {
        policies := policies + [NewWeeklyPolicy(loc)];
      }
      var env := Matching.Env(History(assignments, routes), now, hour, distance);
      matches := Matching.IntelligentRouteAssignment(drivers, available, env, jitter);
      RecordPairs(matches, RowMaker(now));
      count := |matches|;
      DispatchTables(st, loc, matches, RowMaker(now));
      RunKeepsInvariants(st, loc, RunScorer(st, now, hour, distance), jitter, now);
    }

    /**
     * respond_to_assignment: a driver's "accept" or "decline" (or any other
     * action, refused) on one assignment. The reply and the tables are as
     * Respond says.
     */
    method RespondToAssignment(assignmentId: int, action: string, declineReason: Option<string>, now: int)
      returns (response: Response)
      modifies this
      ensures Outcome(Snapshot(), response) == Respond(old(Snapshot()), assignmentId, action, declineReason, now)
      ensures Valid(old(Snapshot())) ==> Valid(Snapshot())
      ensures Valid(old(Snapshot())) && Ledger(old(Snapshot())) ==> Ledger(Snapshot())
    {
      ghost var st := Snapshot();
      var found := IndexOf(assignments, AssignmentKey, assignmentId);
      if found.None? {
        return NotFound;
      }
      if action == "accept" {
        response := AcceptAt(found.value, now);
      } else if action == "decline" {
        response := DeclineAt(found.value, declineReason, now);
      } else {
        response := BadRequest;
      }
      if Valid(st) {
        RespondPreservesValid(st, assignmentId, action, declineReason, now);
        if Ledger(st) {
          RespondKeepsLedger(st, assignmentId, action, declineReason, now);
        }
      }
    }

    /** The "accept" branch, on the row at position ai. */
    method AcceptAt(ai: nat, now: int) returns (response: Response)
      requires ai < |assignments|
      modifies this
      ensures Outcome(Snapshot(), response) == Accept(old(Snapshot()), ai, now)
    {
      var a := assignments[ai];
      var ri := IndexOf(routes, RouteKey, a.routeId);
      var ui := IndexOf(users, UserKey, a.driverId);
      if ri.None? || ui.None? {
        return ServerError;
      }
      assignments := assignments[ai := a.(status := Accepted, responseTime := Some(now))];
      var route := routes[ri.value];
      routes := routes[ri.value := route.(isAssigned := true)];
      var policy := PolicyFor(policies, users[ui.value].locationId);
      if policy.None? {
        response := ServerError;
      } else {
        var credits := CreditsFor(policy.value, route.grade);
        PayAt(ui.value, a, credits, route.grade);
        response := AcceptedWith(credits);
      }
    }

    /** Pays the user at position ui for the accepted row a and logs the credits. */
    method PayAt(ui: nat, a: Assignment, credits: int, g: Grade)
      requires ui < |users|
      modifies this
      ensures Snapshot() == Paid(old(Snapshot()), ui, a, credits, g)
    {
      var d := users[ui];
      d := d.(credits := d.credits + credits);
      if a.reassignmentBonus > 0 {
        d := d.(bonusCredits := d.bonusCredits + a.reassignmentBonus);
      }
      users := users[ui := d];
      creditLogs := creditLogs + [CreditLog(a.driverId, credits, g, false)];
    }

    /** The "decline" branch, on the row at position ai. */
    method DeclineAt(ai: nat, declineReason: Option<string>, now: int) returns (response: Response)
      requires ai < |assignments|
      modifies this
      ensures Outcome(Snapshot(), response) == Decline(old(Snapshot()), ai, declineReason, now)
    {
      var a := assignments[ai];
      var ui := IndexOf(users, UserKey, a.driverId);
      if ui.None? {
        return ServerError;
      }
      assignments := assignments[ai := a.(status := Declined, responseTime := Some(now), declineReason := declineReason)];
      var candidates := Logic.FindAvailableDrivers(users, users[ui.value].locationId, Some(a.driverId));
      if candidates != [] {
        assignments := assignments + [ReassignedRow(|assignments| + 1, candidates[0].id, a, now)];
      }
      response := DeclinedOk;
    }

    /**
     * The loop over the pairs. For each pair it inserts the row that `row`
     * builds with the next id, marks the route assigned, applies the
     * fatigue step and recomputes health. PerformDispatch passes
     * RowMaker(now), which builds a PENDING row.
     */
    method RecordPairs(ms: seq<Matching.Pairing>, row: (Matching.Pairing, int) -> Assignment)
      modifies this
      ensures users == ApplyFatigue(old(users), ms)
      ensures routes == MarkAll(old(routes), ms)
      ensures assignments == old(assignments) + Numbered(ms, |old(assignments)|, row)
      ensures policies == old(policies) && creditLogs == old(creditLogs)
    {
      var us, rs, rows := users, routes, assignments;
      for i := 0 to |ms|
        invariant us == ApplyFatigue(users, ms[..i])
        invariant rs == MarkAll(routes, ms[..i])
        invariant rows == assignments + Numbered(ms[..i], |assignments|, row)
        invariant Snapshot() == old(Snapshot())
      {
        var p := ms[i];
        assert ms[..i + 1][..i] == ms[..i];
        NumberedSnoc(ms, i, |assignments|, row);
        rows := rows + [row(p, |rows| + 1)];
        rs := SetAssigned(rs, p.route.id);
        us := UpdateFatigue(us, p.driver.id, p.route.grade);
      }
      assert ms[..|ms|] == ms;
      users, routes, assignments := us, rs, rows;
    }
  }
}
