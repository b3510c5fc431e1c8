/**
 * Route grading, the satellite-analysis stand-in, the weekly balance and the
 * reassignment-candidate filter (backend/app/logic.py).
 *
 * Great-circle distances are inputs (`distanceKm`), the terrain draw is an
 * input constrained to the interval the random draw ranges over, and "now"
 * is an input in seconds.
 */
module Logic {
  import opened Models

  // ---------------------------------------------------------------------
  // Numeric helpers
  // ---------------------------------------------------------------------

  /** Python's int() on a float: truncation toward zero. */
  function Trunc(x: real): (n: int)
    ensures x >= 0.0 ==> n >= 0 && n as real <= x < n as real + 1.0
    ensures x < 0.0 ==> n <= 0 && n as real - 1.0 < x <= n as real
  {
    if x >= 0.0 then x.Floor else -((-x).Floor)
  }

  /** Truncation is monotone, so every int(...) term grows with its argument. */
  lemma TruncMonotone(x: real, y: real)
    requires x <= y
    ensures Trunc(x) <= Trunc(y)
  {
    if x >= 0.0 {
      assert Trunc(x) as real <= x <= y;
    } else if y < 0.0 {
      assert Trunc(y) as real - 1.0 < y;
    }
  }

  lemma ScaleMonotone(x: real, y: real, c: real)
    requires x <= y && c >= 0.0
    ensures x * c <= y * c
  {
    assert y * c - x * c == (y - x) * c;
  }

  function MaxInt(a: int, b: int): int { if a >= b then a else b }

  // ---------------------------------------------------------------------
  // Satellite-analysis stand-in (logic.py:21-45)
  // ---------------------------------------------------------------------

  datatype Analysis = Analysis(terrainDifficulty: real, predictedTimeMinutes: int, distanceKm: real)

  /**
   * The terrain value is the random draw, passed in; the predicted time is
   * int(10 per km + 20 x traffic + 15 x terrain + 2 per stair).
   */
  function AnalyzeRoute(a: RouteAttrs, distanceKm: real, terrain: real): (r: Analysis)
    requires 0.2 <= terrain <= 0.9
    ensures r.terrainDifficulty == terrain && r.distanceKm == distanceKm
    ensures var minutes := distanceKm * 10.0 + a.trafficLevel * 20.0 + terrain * 15.0 + (a.stairsCount * 2) as real;
            minutes >= 0.0 ==> 0 <= r.predictedTimeMinutes && r.predictedTimeMinutes as real <= minutes < r.predictedTimeMinutes as real + 1.0
  {
    var minutes := distanceKm * 10.0 + a.trafficLevel * 20.0 + terrain * 15.0 + (a.stairsCount * 2) as real;
    Analysis(terrain, Trunc(minutes), distanceKm)
  }

  /**
   * On non-negative inputs the predicted time is at least 3 minutes (the
   * terrain term alone is at least 15 x 0.2), so a route graded after its
   * analysis never falls back to the 120-minute default of route grading.
   */
  lemma AnalysisAvoidsTimeFallback(a: RouteAttrs, distanceKm: real, terrain: real)
    requires 0.2 <= terrain <= 0.9
    requires distanceKm >= 0.0 && a.trafficLevel >= 0.0 && a.stairsCount >= 0
    ensures AnalyzeRoute(a, distanceKm, terrain).predictedTimeMinutes >= 3
    ensures EffectiveMinutes(a.(predictedTimeMinutes := Some(AnalyzeRoute(a, distanceKm, terrain).predictedTimeMinutes)))
            == AnalyzeRoute(a, distanceKm, terrain).predictedTimeMinutes
  {
    var m := distanceKm * 10.0 + a.trafficLevel * 20.0 + terrain * 15.0 + (a.stairsCount * 2) as real;
    assert m >= 3.0;
    TruncMonotone(3.0, m);
  }

  /** The predicted time grows with the distance and with the stairs. */
  lemma AnalysisMonotone(a: RouteAttrs, b: RouteAttrs, d1: real, d2: real, terrain: real)
    requires 0.2 <= terrain <= 0.9
    requires d1 <= d2 && a.stairsCount <= b.stairsCount && a.trafficLevel <= b.trafficLevel
    ensures AnalyzeRoute(a, d1, terrain).predictedTimeMinutes <= AnalyzeRoute(b, d2, terrain).predictedTimeMinutes
  {
    TruncMonotone(d1 * 10.0 + a.trafficLevel * 20.0 + terrain * 15.0 + (a.stairsCount * 2) as real,
                  d2 * 10.0 + b.trafficLevel * 20.0 + terrain * 15.0 + (b.stairsCount * 2) as real);
  }

  // ---------------------------------------------------------------------
  // Route grading (logic.py:47-176)
  // ---------------------------------------------------------------------

  datatype WeightBand = Light | ModerateWeight | HeavyWeight | VeryHeavy
  datatype TimeBand = UpTo4h | UpTo6h | UpTo8h | Over8h

  /** The qualitative reasons, in the order calculate_route_grade appends them. */
  datatype Factor =
    | LightPackages | ModeratePackages | HeavyPackages | VeryHeavyPackages
    | ModerateDeliveryTime | LongDeliveryTime | VeryLongDeliveryTime
    | ManyApartmentDeliveries(apartmentStops: int)
    | HeavyInApartmentsWithoutElevator | ModerateInApartmentsWithoutElevator
    | ExcessiveStairs(stairs: int)
    | DifficultParking

  /** The breakdown entries of the reason text. */
  datatype Breakdown =
    | PackagesPart(p: int) | WeightPart(w: int) | DistancePart(d: int, km: real)
    | TimePart(t: int) | StopsPart(sd: int) | ApartmentPenaltyPart(ad: int)

  /** "Key factors": the first three reasons, or the fallback text. */
  datatype KeyFactors = Listed(factors: seq<Factor>) | StandardDelivery

  /** The reason text, as the data it is formatted from. */
  datatype ReasonText = ReasonText(score: int, grade: Grade, credits: int, breakdown: seq<Breakdown>, keyFactors: KeyFactors)

  /** The 4-tuple of calculate_route_grade (grade, reason, score, credits). */
  datatype GradeResult = GradeResult(grade: Grade, reason: ReasonText, score: int, credits: int)

  /** Average weight per package; the divisor is max(package_count, 1). */
  function AvgWeight(a: RouteAttrs): real
  {
    a.weightKg / (MaxInt(a.packageCount, 1) as real)
  }

  function BandOf(avg: real): WeightBand
  {
    if avg <= 5.0 then Light
    else if avg <= 10.0 then ModerateWeight
    else if avg <= 20.0 then HeavyWeight
    else VeryHeavy
  }

  function WeightMultiplier(b: WeightBand): int
  {
    match b
    case Light => 1
    case ModerateWeight => 2
    case HeavyWeight => 4
    case VeryHeavy => 6
  }

  function WeightFactor(b: WeightBand): Factor
  {
    match b
    case Light => LightPackages
    case ModerateWeight => ModeratePackages
    case HeavyWeight => HeavyPackages
    case VeryHeavy => VeryHeavyPackages
  }

  /** W: package count times 1, 2, 4 or 6 by average-weight band. */
  function WeightScore(a: RouteAttrs): (w: int)
    ensures var avg := a.weightKg / (MaxInt(a.packageCount, 1) as real);
            && (avg <= 5.0 ==> w == a.packageCount)
            && (5.0 < avg <= 10.0 ==> w == a.packageCount * 2)
            && (10.0 < avg <= 20.0 ==> w == a.packageCount * 4)
            && (20.0 < avg ==> w == a.packageCount * 6)
  {
    a.packageCount * WeightMultiplier(BandOf(AvgWeight(a)))
  }

  /** A missing or zero predicted time counts as 120 minutes. */
  function EffectiveMinutes(a: RouteAttrs): int
  {
    match a.predictedTimeMinutes
    case None => 120
    case Some(t) => if t == 0 then 120 else t
  }

  function TimeBandOf(a: RouteAttrs): TimeBand
  {
    var hours := EffectiveMinutes(a) as real / 60.0;
    if hours <= 4.0 then UpTo4h
    else if hours <= 6.0 then UpTo6h
    else if hours <= 8.0 then UpTo8h
    else Over8h
  }

  /** T: 50, 100, 160 or 220 by predicted hours. */
  function TimeScore(a: RouteAttrs): (t: int)
    ensures EffectiveMinutes(a) <= 240 ==> t == 50
    ensures 240 < EffectiveMinutes(a) <= 360 ==> t == 100
    ensures 360 < EffectiveMinutes(a) <= 480 ==> t == 160
    ensures 480 < EffectiveMinutes(a) ==> t == 220
  {
    match TimeBandOf(a)
    case UpTo4h => 50
    case UpTo6h => 100
    case UpTo8h => 160
    case Over8h => 220
  }

  /** 30% of the packages are assumed to be cash-on-delivery stops. */
  function CodStops(a: RouteAttrs): int { Trunc(a.packageCount as real * 0.3) }

  function ApartmentStops(a: RouteAttrs): int { Trunc(a.packageCount as real * a.apartmentDensity) }

  /** SD: 3 per COD stop plus 5 per apartment stop. */
  function StopScore(a: RouteAttrs): int { CodStops(a) * 3 + ApartmentStops(a) * 5 }

  /** Whether the apartment-penalty branch (no elevator, density above 0.5) is entered. */
  predicate WalkUpApartments(a: RouteAttrs) { !a.hasElevator && a.apartmentDensity > 0.5 }

  /**
   * AD: nonzero only in walk-up apartments with an average weight above
   * 10 kg; 6 per apartment stop above 20 kg, 3 per stop above 10 kg.
   */
  function ApartmentPenalty(a: RouteAttrs): (ad: int)
    ensures ad != 0 ==> WalkUpApartments(a) && AvgWeight(a) > 10.0
    ensures WalkUpApartments(a) && AvgWeight(a) > 20.0 ==> ad == ApartmentStops(a) * 6
    ensures WalkUpApartments(a) && 10.0 < AvgWeight(a) <= 20.0 ==> ad == ApartmentStops(a) * 3
  {
    if WalkUpApartments(a) then
      if AvgWeight(a) > 20.0 then ApartmentStops(a) * 6
      else if AvgWeight(a) > 10.0 then ApartmentStops(a) * 3
      else 0
    else 0
  }

  function StairsScore(a: RouteAttrs): int { if a.stairsCount > 50 then 20 else 0 }

  function ParkingScore(a: RouteAttrs): int
  {
    if a.parkingDifficulty > 0.7 then Trunc(a.parkingDifficulty * 30.0) else 0
  }

  function DistanceScore(distanceKm: real): int { Trunc(distanceKm * 3.0) }

  /** The additive route score P + W + D + T + SD + AD + stairs + parking. */
  function RouteScore(a: RouteAttrs, distanceKm: real): int
  {
    a.packageCount + WeightScore(a) + DistanceScore(distanceKm) + TimeScore(a)
    + StopScore(a) + ApartmentPenalty(a) + StairsScore(a) + ParkingScore(a)
  }

  /** Grade thresholds: at most 650 is Easy, at most 1200 Medium, above that Hard. */
  function GradeForScore(score: int): (g: Grade)
    ensures g == Easy <==> score <= 650
    ensures g == Medium <==> 650 < score <= 1200
    ensures g == Hard <==> 1200 < score
  {
    if score <= 650 then Easy else if score <= 1200 then Medium else Hard
  }

  /** Credits of a graded route: 1, 2 or 3, the same number as the grade value. */
  function RouteCredits(g: Grade): (c: int)
    ensures c in {1, 2, 3} && c == GradeValue(g)
  {
    match g
    case Easy => 1
    case Medium => 2
    case Hard => 3
  }

  /** The reasons list in the order calculate_route_grade appends to it. */
  function Reasons(a: RouteAttrs): seq<Factor>
  {
    var avg := AvgWeight(a);
    [WeightFactor(BandOf(avg))]
    + (match TimeBandOf(a)
       case UpTo4h => []
       case UpTo6h => [ModerateDeliveryTime]
       case UpTo8h => [LongDeliveryTime]
       case Over8h => [VeryLongDeliveryTime])
    + (if ApartmentStops(a) as real > a.packageCount as real * 0.5 then [ManyApartmentDeliveries(ApartmentStops(a))] else [])
    + (if WalkUpApartments(a) && avg > 20.0 then [HeavyInApartmentsWithoutElevator]
       else if WalkUpApartments(a) && avg > 10.0 then [ModerateInApartmentsWithoutElevator]
       else [])
    + (if a.stairsCount > 50 then [ExcessiveStairs(a.stairsCount)] else [])
    + (if a.parkingDifficulty > 0.7 then [DifficultParking] else [])
  }

  function Breakdowns(a: RouteAttrs, distanceKm: real): seq<Breakdown>
  {
    [PackagesPart(a.packageCount), WeightPart(WeightScore(a)), DistancePart(DistanceScore(distanceKm), distanceKm),
     TimePart(TimeScore(a)), StopsPart(StopScore(a))]
    + (if ApartmentPenalty(a) > 0 then [ApartmentPenaltyPart(ApartmentPenalty(a))] else [])
  }

  function KeyFactorsOf(reasons: seq<Factor>): KeyFactors
  {
    if reasons == [] then StandardDelivery
    else Listed(if |reasons| <= 3 then reasons else reasons[..3])
  }

  /** calculate_route_grade, with the start-to-end distance passed in. */
  function CalculateRouteGrade(a: RouteAttrs, distanceKm: real): (r: GradeResult)
    ensures r.score == RouteScore(a, distanceKm)
    ensures r.grade == GradeForScore(r.score) && r.credits == RouteCredits(r.grade)
    ensures r.reason.score == r.score && r.reason.grade == r.grade && r.reason.credits == r.credits
  {
    var score := RouteScore(a, distanceKm);
    var grade := GradeForScore(score);
    var credits := RouteCredits(grade);
    GradeResult(grade, ReasonText(score, grade, credits, Breakdowns(a, distanceKm), KeyFactorsOf(Reasons(a))), score, credits)
  }

  /**
   * The grade and the credits agree and never decrease as the score grows:
   * 650 is Easy, 651 Medium, 1200 Medium, 1201 Hard.
   */
  lemma GradeMonotone(s1: int, s2: int)
    requires s1 <= s2
    ensures GradeValue(GradeForScore(s1)) <= GradeValue(GradeForScore(s2))
    ensures RouteCredits(GradeForScore(s1)) <= RouteCredits(GradeForScore(s2))
  {
  }

  lemma GradeBoundaries()
    ensures GradeForScore(650) == Easy && GradeForScore(651) == Medium
    ensures GradeForScore(1200) == Medium && GradeForScore(1201) == Hard
  {
  }

  /**
   * The key factors hold at most three reasons and always start with the
   * weight tag, so the "standard delivery" fallback is unreachable.
   */
  lemma KeyFactorsStartWithWeight(a: RouteAttrs, distanceKm: real)
    ensures CalculateRouteGrade(a, distanceKm).reason.keyFactors.Listed?
    ensures var f := CalculateRouteGrade(a, distanceKm).reason.keyFactors.factors;
            1 <= |f| <= 3 && f[0] == WeightFactor(BandOf(AvgWeight(a)))
  {
    var rs := Reasons(a);
    assert rs[0] == WeightFactor(BandOf(AvgWeight(a)));
  }

  /** The apartment-penalty breakdown entry appears exactly when AD is positive. */
  lemma BreakdownShowsPenaltyOnlyWhenPositive(a: RouteAttrs, distanceKm: real)
    ensures var b := CalculateRouteGrade(a, distanceKm).reason.breakdown;
            (|b| == 6 <==> ApartmentPenalty(a) > 0) && 5 <= |b| <= 6
  {
  }

  /** Non-negative route attributes. */
  predicate NonNegative(a: RouteAttrs)
  {
    a.packageCount >= 0 && a.weightKg >= 0.0 && a.apartmentDensity >= 0.0
    && a.stairsCount >= 0 && a.parkingDifficulty >= 0.0
  }

  /** With non-negative inputs every term is non-negative: score >= 2 x packages + 50. */
  lemma ScoreLowerBound(a: RouteAttrs, distanceKm: real)
    requires NonNegative(a) && distanceKm >= 0.0
    ensures RouteScore(a, distanceKm) >= 2 * a.packageCount + 50
  {
    assert WeightScore(a) >= a.packageCount;
    assert CodStops(a) >= 0 && ApartmentStops(a) >= 0;
    assert ParkingScore(a) >= 0;
  }

  lemma WeightScoreMonotone(a: RouteAttrs, b: RouteAttrs)
    requires a.packageCount <= b.packageCount
    requires BandOf(AvgWeight(a)) == BandOf(AvgWeight(b))
    ensures WeightScore(a) <= WeightScore(b)
  {
    var m := WeightMultiplier(BandOf(AvgWeight(a)));
    assert (b.packageCount - a.packageCount) * m >= 0;
  }

  /** int(n x c) grows with n for a non-negative factor c. */
  lemma TruncScaleMonotone(pa: real, pb: real, c: real)
    requires pa <= pb && c >= 0.0
    ensures Trunc(pa * c) <= Trunc(pb * c)
  {
    ScaleMonotone(pa, pb, c);
    var x, y := pa * c, pb * c;
    assert x <= y;
    TruncMonotone(x, y);
  }

  lemma ApartmentStopsMonotone(a: RouteAttrs, b: RouteAttrs)
    requires a.packageCount <= b.packageCount
    requires a.apartmentDensity == b.apartmentDensity >= 0.0
    ensures ApartmentStops(a) <= ApartmentStops(b)
  {
    var pa, pb, d := a.packageCount as real, b.packageCount as real, a.apartmentDensity;
    TruncScaleMonotone(pa, pb, d);
    assert ApartmentStops(a) == Trunc(pa * d);
    assert ApartmentStops(b) == Trunc(pb * d);
  }

  lemma StopScoreMonotone(a: RouteAttrs, b: RouteAttrs)
    requires a.packageCount <= b.packageCount
    requires a.apartmentDensity == b.apartmentDensity >= 0.0
    ensures ApartmentStops(a) <= ApartmentStops(b)
    ensures StopScore(a) <= StopScore(b)
  {
    TruncScaleMonotone(a.packageCount as real, b.packageCount as real, 0.3);
    ApartmentStopsMonotone(a, b);
    var ca, cb, xa, xb := CodStops(a), CodStops(b), ApartmentStops(a), ApartmentStops(b);
    assert ca <= cb && xa <= xb;
    assert StopScore(a) == ca * 3 + xa * 5;
  }

  lemma ApartmentPenaltyMonotone(a: RouteAttrs, b: RouteAttrs)
    requires a.hasElevator == b.hasElevator && a.apartmentDensity == b.apartmentDensity
    requires BandOf(AvgWeight(a)) == BandOf(AvgWeight(b))
    requires ApartmentStops(a) <= ApartmentStops(b)
    ensures ApartmentPenalty(a) <= ApartmentPenalty(b)
  {
    assert AvgWeight(a) > 20.0 <==> AvgWeight(b) > 20.0;
    assert AvgWeight(a) > 10.0 <==> AvgWeight(b) > 10.0;
  }

  /**
   * Adding packages while the average-weight band and everything else stay
   * fixed never lowers the score, nor therefore the grade.
   */
  lemma ScoreMonotoneInPackages(a: RouteAttrs, b: RouteAttrs, distanceKm: real)
    requires b == a.(packageCount := b.packageCount, weightKg := b.weightKg)
    requires a.packageCount <= b.packageCount
    requires BandOf(AvgWeight(a)) == BandOf(AvgWeight(b))
    requires a.apartmentDensity >= 0.0
    ensures RouteScore(a, distanceKm) <= RouteScore(b, distanceKm)
    ensures GradeValue(GradeForScore(RouteScore(a, distanceKm))) <= GradeValue(GradeForScore(RouteScore(b, distanceKm)))
  {
    WeightScoreMonotone(a, b);
    StopScoreMonotone(a, b);
    ApartmentPenaltyMonotone(a, b);
    GradeMonotone(RouteScore(a, distanceKm), RouteScore(b, distanceKm));
  }

  /** A missing or zero predicted time grades as a 2-hour route (T = 50). */
  lemma MissingTimeIsTwoHours(a: RouteAttrs)
    requires a.predictedTimeMinutes == None || a.predictedTimeMinutes == Some(0)
    ensures TimeScore(a) == 50 && TimeBandOf(a) == UpTo4h
  {
  }

  // ---------------------------------------------------------------------
  // Weekly balance (logic.py:179-193)
  // ---------------------------------------------------------------------

  const WeekSeconds: int := 7 * 24 * 60 * 60

  /**
   * One assignment row as the weekly-balance query sees it: the route's
   * grade is None when the assignment has no route.
   */
  datatype HistoryRecord = HistoryRecord(driverId: int, assignedDate: int, status: AssignmentStatus, routeGrade: Option<Grade>)

  /** The query's filter: this driver, dated on or after now - 7 days, accepted or completed. */
  predicate InWindow(r: HistoryRecord, driverId: int, now: int)
  {
    r.driverId == driverId && r.assignedDate >= now - WeekSeconds
    && (r.status == Accepted || r.status == Completed)
  }

  /** The rows the query returns, in table order. */
  function Recent(history: seq<HistoryRecord>, driverId: int, now: int): (rs: seq<HistoryRecord>)
    ensures |rs| <= |history|
    ensures forall r :: r in rs <==> r in history && InWindow(r, driverId, now)
  {
    if history == [] then []
    else
      var rest := Recent(history[..|history| - 1], driverId, now);
      var last := history[|history| - 1];
      assert history == history[..|history| - 1] + [last];
      if InWindow(last, driverId, now) then rest + [last] else rest
  }

  /** The filter keeps table order: filtering a concatenation concatenates the filtered parts. */
  lemma {:induction false} RecentConcat(h1: seq<HistoryRecord>, h2: seq<HistoryRecord>, driverId: int, now: int)
    ensures Recent(h1 + h2, driverId, now) == Recent(h1, driverId, now) + Recent(h2, driverId, now)
  {
    if h2 != [] {
      var init := h2[..|h2| - 1];
      RecentConcat(h1, init, driverId, now);
      assert (h1 + h2)[..|h1 + h2| - 1] == h1 + init;
    } else {
      assert h1 + h2 == h1;
    }
  }

  function ZeroCounts(): map<Grade, nat> { map[Easy := 0, Medium := 0, Hard := 0] }

  /** `counts[g] += 1` on a dict holding the three grades. */
  function Increment(m: map<Grade, nat>, g: Grade): (r: map<Grade, nat>)
    requires m.Keys == {Easy, Medium, Hard}
    ensures r.Keys == m.Keys && g in m && r[g] == m[g] + 1
    ensures forall h :: h in m && h != g ==> r[h] == m[h]
  {
    AllGradesIn(m, g);
    m[g := m[g] + 1]
  }

  lemma AllGradesIn(m: map<Grade, nat>, g: Grade)
    requires m.Keys == {Easy, Medium, Hard}
    ensures g in m
  {
    match g
    case Easy =>
    case Medium =>
    case Hard =>
  }

  /** The loop over the returned rows, counting those that have a route. */
  function Tally(rs: seq<HistoryRecord>): (m: map<Grade, nat>)
    ensures m.Keys == {Easy, Medium, Hard}
  {
    if rs == [] then ZeroCounts()
    else
      var m := Tally(rs[..|rs| - 1]);
      var last := rs[|rs| - 1];
      if last.routeGrade.Some? then Increment(m, last.routeGrade.value) else m
  }

  /** get_weekly_balance: per-grade counts over the last 7 days. */
  function WeeklyBalance(history: seq<HistoryRecord>, driverId: int, now: int): (m: map<Grade, nat>)
    ensures m.Keys == {Easy, Medium, Hard}
  {
    Tally(Recent(history, driverId, now))
  }

  function Total(m: map<Grade, nat>): nat
    requires m.Keys == {Easy, Medium, Hard}
  {
    m[Easy] + m[Medium] + m[Hard]
  }

  /** An independent count, from the front: rows with a route of grade g. */
  function CountGrade(rs: seq<HistoryRecord>, g: Grade): nat
  {
    if rs == [] then 0 else (if rs[0].routeGrade == Some(g) then 1 else 0) + CountGrade(rs[1..], g)
  }

  lemma {:induction false} CountGradeAppend(rs: seq<HistoryRecord>, r: HistoryRecord, g: Grade)
    ensures CountGrade(rs + [r], g) == CountGrade(rs, g) + (if r.routeGrade == Some(g) then 1 else 0)
  {
    if rs != [] {
      assert (rs + [r])[1..] == rs[1..] + [r];
      CountGradeAppend(rs[1..], r, g);
    }
  }

  /** Each count is the number of rows whose route has that grade. */
  lemma {:induction false} TallyCounts(rs: seq<HistoryRecord>, g: Grade)
    ensures Tally(rs)[g] == CountGrade(rs, g)
  {
    if rs != [] {
      var init := rs[..|rs| - 1];
      TallyCounts(init, g);
      assert init + [rs[|rs| - 1]] == rs;
      CountGradeAppend(init, rs[|rs| - 1], g);
    }
  }

  /** The three counts add up to at most the number of rows. */
  lemma {:induction false} TallyTotal(rs: seq<HistoryRecord>)
    ensures Total(Tally(rs)) <= |rs|
  {
    if rs != [] {
      TallyTotal(rs[..|rs| - 1]);
    }
  }

  /** The balance counts only rows of this driver, in the window, accepted or completed, with a route. */
  lemma WeeklyBalanceCounts(history: seq<HistoryRecord>, driverId: int, now: int, g: Grade)
    ensures WeeklyBalance(history, driverId, now)[g] == CountGrade(Recent(history, driverId, now), g)
    ensures Total(WeeklyBalance(history, driverId, now)) <= |history|
  {
    TallyCounts(Recent(history, driverId, now), g);
    TallyTotal(Recent(history, driverId, now));
  }

  /** A row outside the filter (another driver, too old, pending, declined, ...) changes nothing. */
  lemma IgnoredRowLeavesBalance(history: seq<HistoryRecord>, r: HistoryRecord, driverId: int, now: int)
    requires !InWindow(r, driverId, now)
    ensures WeeklyBalance(history + [r], driverId, now) == WeeklyBalance(history, driverId, now)
  {
    assert (history + [r])[..|history + [r]| - 1] == history;
  }

  /** A row inside the filter adds one to its route's grade and nothing to the others. */
  lemma CountedRowRaisesBalance(history: seq<HistoryRecord>, r: HistoryRecord, driverId: int, now: int, g: Grade)
    requires InWindow(r, driverId, now)
    ensures WeeklyBalance(history + [r], driverId, now)[g]
            == WeeklyBalance(history, driverId, now)[g] + (if r.routeGrade == Some(g) then 1 else 0)
  {
    assert (history + [r])[..|history + [r]| - 1] == history;
    var rs := Recent(history, driverId, now);
    assert Recent(history + [r], driverId, now) == rs + [r];
    assert (rs + [r])[..|rs + [r]| - 1] == rs;
  }

  /** A freshly created assignment is Pending, so it never counts toward anyone's balance. */
  lemma NewAssignmentNotCounted(history: seq<HistoryRecord>, a: Assignment, g: Option<Grade>, driverId: int, now: int)
    requires a.status == NewAssignment(a.id, a.driverId, a.routeId, a.assignedDate, a.explanation, a.assignmentReason).status
    ensures WeeklyBalance(history + [HistoryRecord(a.driverId, a.assignedDate, a.status, g)], driverId, now)
            == WeeklyBalance(history, driverId, now)
  {
    IgnoredRowLeavesBalance(history, HistoryRecord(a.driverId, a.assignedDate, a.status, g), driverId, now);
  }

  /** The loop of get_weekly_balance over the rows the query returned. */
  method GetWeeklyBalance(history: seq<HistoryRecord>, driverId: int, now: int) returns (counts: map<Grade, nat>)
    ensures counts == WeeklyBalance(history, driverId, now)
    ensures counts.Keys == {Easy, Medium, Hard}
    ensures forall g :: g in counts ==> counts[g] == CountGrade(Recent(history, driverId, now), g)
  {
    var recent := Recent(history, driverId, now);
    counts := ZeroCounts();
    for i := 0 to |recent|
      invariant counts == Tally(recent[..i])
    {
      var a := recent[i];
      assert recent[..i + 1][..i] == recent[..i];
      if a.routeGrade.Some? {
        counts := Increment(counts, a.routeGrade.value);
      }
    }
    assert recent[..|recent|] == recent;
    forall g | g in counts ensures counts[g] == CountGrade(recent, g) {
      TallyCounts(recent, g);
    }
  }

  // ---------------------------------------------------------------------
  // Reassignment candidates (logic.py:246-257)
  // ---------------------------------------------------------------------

  /** `if exclude_driver_id:` -- None and 0 are falsy and disable the exclusion. */
  predicate Excludes(exclude: Option<int>, id: int)
  {
    exclude.Some? && exclude.value != 0 && id == exclude.value
  }

  predicate Eligible(u: Driver, locationId: string, exclude: Option<int>)
  {
    u.locationId == locationId && u.isAvailable && u.health != Restricted && !Excludes(exclude, u.id)
  }

  /** find_available_drivers: the users table filtered, in table order. */
  function FindAvailableDrivers(users: seq<Driver>, locationId: string, exclude: Option<int>): (r: seq<Driver>)
    ensures |r| <= |users|
    ensures forall u :: u in r <==> u in users && Eligible(u, locationId, exclude)
  {
    if users == [] then []
    else
      var rest := FindAvailableDrivers(users[1..], locationId, exclude);
      assert forall u :: u in users <==> u == users[0] || u in users[1..];
      if Eligible(users[0], locationId, exclude) then [users[0]] + rest else rest
  }

  /** The filter keeps table order: filtering a concatenation concatenates the filtered parts. */
  lemma {:induction false} FindAvailableDriversConcat(u1: seq<Driver>, u2: seq<Driver>, locationId: string, exclude: Option<int>)
    ensures FindAvailableDrivers(u1 + u2, locationId, exclude)
            == FindAvailableDrivers(u1, locationId, exclude) + FindAvailableDrivers(u2, locationId, exclude)
  {
    if u1 == [] {
      assert u1 + u2 == u2;
    } else {
      assert (u1 + u2)[1..] == u1[1..] + u2;
      FindAvailableDriversConcat(u1[1..], u2, locationId, exclude);
    }
  }

  /** The first candidate is the first eligible user in table order. */
  lemma {:induction false} FirstCandidateIsFirstEligible(users: seq<Driver>, locationId: string, exclude: Option<int>)
    requires FindAvailableDrivers(users, locationId, exclude) != []
    ensures exists k :: 0 <= k < |users| && users[k] == FindAvailableDrivers(users, locationId, exclude)[0]
                        && (forall j :: 0 <= j < k ==> !Eligible(users[j], locationId, exclude))
  {
    if Eligible(users[0], locationId, exclude) {
      assert users[0] == FindAvailableDrivers(users, locationId, exclude)[0];
    } else {
      FirstCandidateIsFirstEligible(users[1..], locationId, exclude);
      var k :| 0 <= k < |users[1..]| && users[1..][k] == FindAvailableDrivers(users[1..], locationId, exclude)[0]
               && (forall j :: 0 <= j < k ==> !Eligible(users[1..][j], locationId, exclude));
      assert users[k + 1] == FindAvailableDrivers(users, locationId, exclude)[0];
      forall j | 0 <= j < k + 1 ensures !Eligible(users[j], locationId, exclude) {
        if j > 0 { assert users[j] == users[1..][j - 1]; }
      }
    }
  }

  /** An exclusion id of None or 0 excludes nobody. */
  lemma {:induction false} FalsyExclusionIgnored(users: seq<Driver>, locationId: string, exclude: Option<int>)
    requires exclude == None || exclude == Some(0)
    ensures FindAvailableDrivers(users, locationId, exclude) == FindAvailableDrivers(users, locationId, None)
  {
    if users != [] {
      FalsyExclusionIgnored(users[1..], locationId, exclude);
    }
  }
}
