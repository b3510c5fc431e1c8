/**
 * Driver/route compatibility, the simulated driver location, the reason code
 * and the explanation template (backend/app/intelligent_dispatch.py).
 *
 * The distance from the driver to the route start and the current hour are
 * inputs; the weekly balance is the function of the history from Logic.
 * Bonus and penalty strings are kept as tags: the distances they print with
 * one decimal are carried in the tag, the text itself is not modelled.
 */
module Dispatch {
  import opened Models
  import Logic

  // ---------------------------------------------------------------------
  // Simulated location (intelligent_dispatch.py:26-41)
  // ---------------------------------------------------------------------

  const BaseLat: real := 13.0827
  const BaseLng: real := 80.2707

  /** A fixed city-centre coordinate offset by (id x 123 mod 100, id x 456 mod 100) / 10000. */
  function DriverLocation(id: int): (loc: (real, real))
    ensures BaseLat <= loc.0 <= BaseLat + 0.0099
    ensures BaseLng <= loc.1 <= BaseLng + 0.0099
  {
    (BaseLat + ((id * 123) % 100) as real / 10000.0, BaseLng + ((id * 456) % 100) as real / 10000.0)
  }

  /** Drivers whose ids differ by a multiple of 100 are placed at the same point. */
  lemma {:induction false} LocationPeriodic(id: int, k: int)
    ensures DriverLocation(id + 100 * k) == DriverLocation(id)
  {
    assert (id + 100 * k) * 123 == id * 123 + 100 * (123 * k);
    assert (id + 100 * k) * 456 == id * 456 + 100 * (456 * k);
    ModShift(id * 123, 123 * k);
    ModShift(id * 456, 456 * k);
  }

  lemma ModShift(x: int, k: int)
    ensures (x + 100 * k) % 100 == x % 100
  {
  }

  // ---------------------------------------------------------------------
  // Compatibility (intelligent_dispatch.py:43-193)
  // ---------------------------------------------------------------------

  datatype Bonus =
    | VeryCloseToStart(km: real) | CloseToStart(km: real) | ModerateDistanceToStart(km: real)
    | HealthMatchesEasy | CautionEasyIsGood | NormalHealth
    | LowFatigueHandlesHard | ModerateFatigueMediumIdeal | HighFatigueEasyBest
    | NeedsHardForWeeklyBalance | NeedsMediumForBalance | NeedsEasyForBalance
    | ExperiencedForComplex | NewDriverEasy
    | LowFatigueHandlesStairs | ExperiencedWithParking
    | LowTrafficMorning | LowTrafficEvening

  datatype Penalty =
    | FarFromStart(km: real)
    | HealthNotIdealMedium | HealthIncompatibleHard | CautionHardNotRecommended
    | HighFatigueMediumChallenging | HighFatigueHardNotRecommended
    | EnoughHardThisWeek | NewDriverHardNotRecommended
    | StairsWithFatigue | DifficultParkingArea

  /** One scoring step: the points it adds and the bonus or penalty it records. */
  datatype Term = Term(delta: int, bonus: Option<Bonus>, penalty: Option<Penalty>)

  /** The scorer's result dict ("reasons" is bonuses followed by penalties). */
  datatype Compat = Compat(score: int, distanceToStart: real, bonuses: seq<Bonus>, penalties: seq<Penalty>)

  predicate IsProximityBonus(b: Bonus)
  {
    b.VeryCloseToStart? || b.CloseToStart? || b.ModerateDistanceToStart?
  }

  /** Step 1: +30 / +20 / +10 below 2, 5 and 10 km, otherwise a "far" penalty. */
  function ProximityTerm(km: real): (t: Term)
    ensures km < 10.0 ==> t.penalty == None && t.bonus.Some? && IsProximityBonus(t.bonus.value)
    ensures km >= 10.0 ==> t == Term(0, None, Some(FarFromStart(km)))
    ensures t.delta == (if km < 2.0 then 30 else if km < 5.0 then 20 else if km < 10.0 then 10 else 0)
  {
    if km < 2.0 then Term(30, Some(VeryCloseToStart(km)), None)
    else if km < 5.0 then Term(20, Some(CloseToStart(km)), None)
    else if km < 10.0 then Term(10, Some(ModerateDistanceToStart(km)), None)
    else Term(0, None, Some(FarFromStart(km)))
  }

  /** Step 2: health status against the route grade. */
  function HealthTerm(h: HealthStatus, g: Grade): (t: Term)
    ensures h == Normal ==> t == Term(10, Some(NormalHealth), None)
    ensures h == Caution ==> t == (match g
                                   case Easy => Term(10, Some(CautionEasyIsGood), None)
                                   case Medium => Term(0, None, None)
                                   case Hard => Term(-15, None, Some(CautionHardNotRecommended)))
    ensures h == Restricted ==> t.delta == (match g case Easy => 20 case Medium => -10 case Hard => -30)
    ensures h == Restricted ==> (t.bonus.Some? <==> g == Easy) && (t.penalty.Some? <==> g != Easy)
  {
    match h
    case Restricted =>
      (match g
       case Easy => Term(20, Some(HealthMatchesEasy), None)
       case Medium => Term(-10, None, Some(HealthNotIdealMedium))
       case Hard => Term(-30, None, Some(HealthIncompatibleHard)))
    case Caution =>
      (match g
       case Hard => Term(-15, None, Some(CautionHardNotRecommended))
       case Easy => Term(10, Some(CautionEasyIsGood), None)
       case Medium => Term(0, None, None))
    case Normal => Term(10, Some(NormalHealth), None)
  }

  /** Step 3: fatigue bands below 30, below 60, and from 60 up. */
  function FatigueTerm(fatigue: real, g: Grade): (t: Term)
    ensures fatigue < 30.0 ==> t.delta == (if g == Hard then 15 else 5)
    ensures 30.0 <= fatigue < 60.0 ==> t.delta == (match g case Medium => 10 case Hard => -5 case Easy => 0)
    ensures 60.0 <= fatigue ==> t.delta == (match g case Easy => 15 case Medium => -10 case Hard => -25)
    ensures t.bonus == (if fatigue < 30.0 && g == Hard then Some(LowFatigueHandlesHard)
                        else if 30.0 <= fatigue < 60.0 && g == Medium then Some(ModerateFatigueMediumIdeal)
                        else if 60.0 <= fatigue && g == Easy then Some(HighFatigueEasyBest)
                        else None)
    ensures t.penalty == (if 60.0 <= fatigue && g == Medium then Some(HighFatigueMediumChallenging)
                          else if 60.0 <= fatigue && g == Hard then Some(HighFatigueHardNotRecommended)
                          else None)
  {
    if fatigue < 30.0 then
      if g == Hard then Term(15, Some(LowFatigueHandlesHard), None) else Term(5, None, None)
    else if fatigue < 60.0 then
      (match g
       case Medium => Term(10, Some(ModerateFatigueMediumIdeal), None)
       case Hard => Term(-5, None, None)
       case Easy => Term(0, None, None))
    else
      (match g
       case Easy => Term(15, Some(HighFatigueEasyBest), None)
       case Medium => Term(-10, None, Some(HighFatigueMediumChallenging))
       case Hard => Term(-25, None, Some(HighFatigueHardNotRecommended)))
  }

  /** Step 4: weekly balance; a Hard route with exactly 2 Hard this week is left alone. */
  function WeeklyTerm(balance: map<Grade, nat>, g: Grade): (t: Term)
    requires balance.Keys == {Easy, Medium, Hard}
    ensures g == Hard && balance[Hard] < 2 ==> t == Term(15, Some(NeedsHardForWeeklyBalance), None)
    ensures g == Hard && balance[Hard] == 2 ==> t == Term(0, None, None)
    ensures g == Hard && balance[Hard] >= 3 ==> t == Term(-10, None, Some(EnoughHardThisWeek))
    ensures g == Medium ==> t == (if balance[Medium] < 3 then Term(10, Some(NeedsMediumForBalance), None) else Term(0, None, None))
    ensures g == Easy ==> t == (if balance[Easy] < 2 then Term(10, Some(NeedsEasyForBalance), None) else Term(0, None, None))
    ensures t.bonus == Some(NeedsHardForWeeklyBalance) <==> g == Hard && balance[Hard] < 2
  {
    match g
    case Hard =>
      if balance[Hard] < 2 then Term(15, Some(NeedsHardForWeeklyBalance), None)
      else if balance[Hard] >= 3 then Term(-10, None, Some(EnoughHardThisWeek))
      else Term(0, None, None)
    case Medium =>
      if balance[Medium] < 3 then Term(10, Some(NeedsMediumForBalance), None) else Term(0, None, None)
    case Easy =>
      if balance[Easy] < 2 then Term(10, Some(NeedsEasyForBalance), None) else Term(0, None, None)
  }

  /** Step 5: the experience proxy (total weekly routes); totals 5..15 change nothing. */
  function ExperienceTerm(total: int, g: Grade): (t: Term)
    ensures 5 <= total <= 15 ==> t == Term(0, None, None)
    ensures total > 15 ==> t.delta == (if g == Hard then 10 else 0)
    ensures total < 5 ==> t.delta == (match g case Easy => 10 case Hard => -15 case Medium => 0)
  {
    if total > 15 then
      if g == Hard then Term(10, Some(ExperiencedForComplex), None) else Term(0, None, None)
    else if total < 5 then
      (match g
       case Easy => Term(10, Some(NewDriverEasy), None)
       case Hard => Term(-15, None, Some(NewDriverHardNotRecommended))
       case Medium => Term(0, None, None))
    else Term(0, None, None)
  }

  /** Step 6a: many stairs without an elevator. */
  function StairsTerm(r: RouteAttrs, fatigue: real): (t: Term)
    ensures r.hasElevator || r.stairsCount <= 50 ==> t == Term(0, None, None)
    ensures !r.hasElevator && r.stairsCount > 50 ==> t.delta == (if fatigue < 40.0 then 5 else -10)
  {
    if !r.hasElevator && r.stairsCount > 50 then
      if fatigue < 40.0 then Term(5, Some(LowFatigueHandlesStairs), None)
      else Term(-10, None, Some(StairsWithFatigue))
    else Term(0, None, None)
  }

  /** Step 6b: difficult parking, easier for drivers with more than 10 routes. */
  function ParkingTerm(r: RouteAttrs, total: int): (t: Term)
    ensures r.parkingDifficulty <= 0.7 ==> t == Term(0, None, None)
    ensures r.parkingDifficulty > 0.7 ==> t.delta == (if total > 10 then 5 else -5)
  {
    if r.parkingDifficulty > 0.7 then
      if total > 10 then Term(5, Some(ExperiencedWithParking), None)
      else Term(-5, None, Some(DifficultParkingArea))
    else Term(0, None, None)
  }

  /** Step 7: +5 for a low-traffic route during the 6-10 or 17-20 o'clock rush. */
  function HourTerm(r: RouteAttrs, hour: int): (t: Term)
    ensures t.delta == (if ((6 <= hour <= 10) || (17 <= hour <= 20)) && r.trafficLevel < 0.5 then 5 else 0)
    ensures t.penalty == None
  {
    if 6 <= hour <= 10 then
      if r.trafficLevel < 0.5 then Term(5, Some(LowTrafficMorning), None) else Term(0, None, None)
    else if 17 <= hour <= 20 then
      if r.trafficLevel < 0.5 then Term(5, Some(LowTrafficEvening), None) else Term(0, None, None)
    else Term(0, None, None)
  }

  /** The eight steps in the order the scorer applies them. */
  function Terms(d: Driver, r: Route, balance: map<Grade, nat>, hour: int, km: real): (ts: seq<Term>)
    requires balance.Keys == {Easy, Medium, Hard}
    ensures |ts| == 8
  {
    var total := Logic.Total(balance);
    [ProximityTerm(km), HealthTerm(d.health, r.grade), FatigueTerm(d.fatigue, r.grade),
     WeeklyTerm(balance, r.grade), ExperienceTerm(total, r.grade),
     StairsTerm(r.attrs, d.fatigue), ParkingTerm(r.attrs, total), HourTerm(r.attrs, hour)]
  }

  function SumDeltas(ts: seq<Term>): int
  {
    if ts == [] then 0 else ts[0].delta + SumDeltas(ts[1..])
  }

  function BonusesOf(ts: seq<Term>): seq<Bonus>
  {
    if ts == [] then []
    else (if ts[0].bonus.Some? then [ts[0].bonus.value] else []) + BonusesOf(ts[1..])
  }

  function PenaltiesOf(ts: seq<Term>): seq<Penalty>
  {
    if ts == [] then []
    else (if ts[0].penalty.Some? then [ts[0].penalty.value] else []) + PenaltiesOf(ts[1..])
  }

  /** max(0, min(100, score)). */
  function Clamp(x: int): (c: int)
    ensures 0 <= c <= 100
    ensures 0 <= x <= 100 ==> c == x
    ensures x < 0 ==> c == 0
    ensures x > 100 ==> c == 100
  {
    if x < 0 then 0 else if x > 100 then 100 else x
  }

  /** calculate_driver_route_compatibility: base 50 plus the steps, clamped to [0, 100]. */
  function Compatibility(d: Driver, r: Route, balance: map<Grade, nat>, hour: int, km: real): (c: Compat)
    requires balance.Keys == {Easy, Medium, Hard}
    ensures 0 <= c.score <= 100
    ensures c.distanceToStart == km
  {
    var ts := Terms(d, r, balance, hour, km);
    Compat(Clamp(50 + SumDeltas(ts)), km, BonusesOf(ts), PenaltiesOf(ts))
  }

  lemma {:induction false} BonusesOfSplit(t: Term, ts: seq<Term>)
    ensures BonusesOf([t] + ts) == (if t.bonus.Some? then [t.bonus.value] else []) + BonusesOf(ts)
  {
    assert ([t] + ts)[1..] == ts;
  }

  lemma {:induction false} BonusInTerms(ts: seq<Term>, b: Bonus)
    ensures b in BonusesOf(ts) <==> exists i :: 0 <= i < |ts| && ts[i].bonus == Some(b)
  {
    if ts != [] {
      BonusInTerms(ts[1..], b);
      if b in BonusesOf(ts[1..]) {
        var i :| 0 <= i < |ts[1..]| && ts[1..][i].bonus == Some(b);
        assert ts[i + 1].bonus == Some(b);
      }
      if exists i :: 0 <= i < |ts| && ts[i].bonus == Some(b) {
        var i :| 0 <= i < |ts| && ts[i].bonus == Some(b);
        if i > 0 { assert ts[1..][i - 1].bonus == Some(b); }
      }
    }
  }

  /**
   * Exactly one proximity entry is recorded: within 10 km it is the first
   * bonus and no penalty speaks of the distance; otherwise it is the first
   * penalty and no bonus does.
   */
  lemma ProximityRecordedOnce(d: Driver, r: Route, balance: map<Grade, nat>, hour: int, km: real)
    requires balance.Keys == {Easy, Medium, Hard}
    ensures var c := Compatibility(d, r, balance, hour, km);
            && (km < 10.0 ==> |c.bonuses| >= 1 && IsProximityBonus(c.bonuses[0])
                              && (forall i :: 1 <= i < |c.bonuses| ==> !IsProximityBonus(c.bonuses[i]))
                              && (forall i :: 0 <= i < |c.penalties| ==> !c.penalties[i].FarFromStart?))
            && (km >= 10.0 ==> |c.penalties| >= 1 && c.penalties[0] == FarFromStart(km)
                               && (forall i :: 1 <= i < |c.penalties| ==> !c.penalties[i].FarFromStart?)
                               && (forall i :: 0 <= i < |c.bonuses| ==> !IsProximityBonus(c.bonuses[i])))
  {
    var ts := Terms(d, r, balance, hour, km);
    LaterTermsNotProximity(d, r, balance, hour, km);
    OnlyHeadProximity(ts);
  }

  /** No term after the proximity term carries a proximity bonus or the "far" penalty. */
  lemma LaterTermsNotProximity(d: Driver, r: Route, balance: map<Grade, nat>, hour: int, km: real)
    requires balance.Keys == {Easy, Medium, Hard}
    ensures var ts := Terms(d, r, balance, hour, km);
            && ts[0] == ProximityTerm(km)
            && forall i :: 1 <= i < |ts| ==> NotProximity(ts[i])
  {
    var total := Logic.Total(balance);
    var later := [HealthTerm(d.health, r.grade), FatigueTerm(d.fatigue, r.grade),
                  WeeklyTerm(balance, r.grade), ExperienceTerm(total, r.grade),
                  StairsTerm(r.attrs, d.fatigue), ParkingTerm(r.attrs, total), HourTerm(r.attrs, hour)];
    assert forall t :: t in later ==> NotProximity(t);
    assert Terms(d, r, balance, hour, km) == [ProximityTerm(km)] + later;
  }

  predicate NotProximity(t: Term)
  {
    (t.bonus.Some? ==> !IsProximityBonus(t.bonus.value)) && (t.penalty.Some? ==> !t.penalty.value.FarFromStart?)
  }

  /** When only the head term may speak of proximity, the lists gathered from the rest do not. */
  lemma OnlyHeadProximity(ts: seq<Term>)
    requires ts != []
    requires forall i :: 1 <= i < |ts| ==> NotProximity(ts[i])
    ensures BonusesOf(ts) == (if ts[0].bonus.Some? then [ts[0].bonus.value] else []) + BonusesOf(ts[1..])
    ensures PenaltiesOf(ts) == (if ts[0].penalty.Some? then [ts[0].penalty.value] else []) + PenaltiesOf(ts[1..])
    ensures forall b :: b in BonusesOf(ts[1..]) ==> !IsProximityBonus(b)
    ensures forall p :: p in PenaltiesOf(ts[1..]) ==> !p.FarFromStart?
  {
    var rest := ts[1..];
    forall b | b in BonusesOf(rest) ensures !IsProximityBonus(b) {
      BonusInTerms(rest, b);
      var i :| 0 <= i < |rest| && rest[i].bonus == Some(b);
      assert NotProximity(ts[i + 1]);
    }
    forall p | p in PenaltiesOf(rest) ensures !p.FarFromStart? {
      PenaltyInTerms(rest, p);
      var i :| 0 <= i < |rest| && rest[i].penalty == Some(p);
      assert NotProximity(ts[i + 1]);
    }
  }

  lemma {:induction false} PenaltyInTerms(ts: seq<Term>, p: Penalty)
    ensures p in PenaltiesOf(ts) <==> exists i :: 0 <= i < |ts| && ts[i].penalty == Some(p)
  {
    if ts != [] {
      PenaltyInTerms(ts[1..], p);
      assert ([ts[0]] + ts[1..])[1..] == ts[1..];
      if p in PenaltiesOf(ts[1..]) {
        var i :| 0 <= i < |ts[1..]| && ts[1..][i].penalty == Some(p);
        assert ts[i + 1].penalty == Some(p);
      }
      if exists i :: 0 <= i < |ts| && ts[i].penalty == Some(p) {
        var i :| 0 <= i < |ts| && ts[i].penalty == Some(p);
        if i > 0 { assert ts[1..][i - 1].penalty == Some(p); }
      }
    }
  }

  /** A NORMAL driver always receives +10 and the "normal health" bonus. */
  lemma NormalHealthBonus(d: Driver, r: Route, balance: map<Grade, nat>, hour: int, km: real)
    requires balance.Keys == {Easy, Medium, Hard}
    requires d.health == Normal
    ensures NormalHealth in Compatibility(d, r, balance, hour, km).bonuses
  {
    var ts := Terms(d, r, balance, hour, km);
    BonusInTerms(ts, NormalHealth);
    assert ts[1].bonus == Some(NormalHealth);
  }

  /**
   * The "needs more hard routes for weekly balance" bonus is recorded exactly
   * when the route is Hard and the driver has fewer than 2 Hard routes this week.
   */
  lemma WeeklyBalanceBonusIff(d: Driver, r: Route, balance: map<Grade, nat>, hour: int, km: real)
    requires balance.Keys == {Easy, Medium, Hard}
    ensures NeedsHardForWeeklyBalance in Compatibility(d, r, balance, hour, km).bonuses
            <==> r.grade == Hard && balance[Hard] < 2
  {
    var ts := Terms(d, r, balance, hour, km);
    BonusInTerms(ts, NeedsHardForWeeklyBalance);
    if NeedsHardForWeeklyBalance in BonusesOf(ts) {
      var i :| 0 <= i < |ts| && ts[i].bonus == Some(NeedsHardForWeeklyBalance);
      assert i == 3;
    }
    if r.grade == Hard && balance[Hard] < 2 {
      assert ts[3].bonus == Some(NeedsHardForWeeklyBalance);
    }
  }

  lemma {:induction false} SumDeltasMonotoneHead(t1: Term, t2: Term, ts: seq<Term>)
    requires t1.delta <= t2.delta
    ensures SumDeltas([t1] + ts) <= SumDeltas([t2] + ts)
  {
    assert ([t1] + ts)[1..] == ts && ([t2] + ts)[1..] == ts;
  }

  /** Everything else equal, a driver closer to the route start never scores lower. */
  lemma CloserNeverScoresLower(d: Driver, r: Route, balance: map<Grade, nat>, hour: int, near: real, far: real)
    requires balance.Keys == {Easy, Medium, Hard}
    requires near <= far
    ensures Compatibility(d, r, balance, hour, near).score >= Compatibility(d, r, balance, hour, far).score
  {
    var tn := Terms(d, r, balance, hour, near);
    var tf := Terms(d, r, balance, hour, far);
    assert tn[1..] == tf[1..];
    assert tn == [tn[0]] + tn[1..] && tf == [tf[0]] + tn[1..];
    SumDeltasMonotoneHead(tf[0], tn[0], tn[1..]);
  }

  /**
   * A rested NORMAL driver with no routes this week, close to a Hard route's
   * start, scores the maximum: 50 + 30 + 10 + 15 + 15 - 15 is already above 100.
   */
  lemma FreshDriverNearHardRouteScoresMax(d: Driver, r: Route, hour: int, km: real)
    requires d.health == Normal && 0.0 <= d.fatigue < 30.0 && r.grade == Hard && 0.0 <= km < 2.0
    ensures Compatibility(d, r, Logic.ZeroCounts(), hour, km).score == 100
  {
    var ts := Terms(d, r, Logic.ZeroCounts(), hour, km);
    SumDeltasOfEight(ts);
    assert ts[0].delta == 30 && ts[1].delta == 10 && ts[2].delta == 15;
    assert ts[3].delta == 15 && ts[4].delta == -15 && ts[5].delta >= 0 && ts[6].delta >= -5 && ts[7].delta >= 0;
  }

  lemma SumDeltasStep(ts: seq<Term>, k: nat)
    requires k < |ts|
    ensures SumDeltas(ts[k..]) == ts[k].delta + SumDeltas(ts[k + 1..])
  {
    assert ts[k..][1..] == ts[k + 1..];
  }

  lemma SumDeltasOfEight(ts: seq<Term>)
    requires |ts| == 8
    ensures SumDeltas(ts) == ts[0].delta + ts[1].delta + ts[2].delta + ts[3].delta
                             + ts[4].delta + ts[5].delta + ts[6].delta + ts[7].delta
  {
    assert ts[0..] == ts && ts[8..] == [];
    SumDeltasStep(ts, 0); SumDeltasStep(ts, 1); SumDeltasStep(ts, 2); SumDeltasStep(ts, 3);
    SumDeltasStep(ts, 4); SumDeltasStep(ts, 5); SumDeltasStep(ts, 6); SumDeltasStep(ts, 7);
  }

  // ---------------------------------------------------------------------
  // Reason code (intelligent_dispatch.py:300-311)
  // ---------------------------------------------------------------------

  datatype ReasonCode = HealthRecovery | FatigueManagement | ProximityOptimization | WeeklyBalance | IntelligentMatching

  /** The stored tag strings. */
  function ReasonTag(c: ReasonCode): string
  {
    match c
    case HealthRecovery => "health_recovery"
    case FatigueManagement => "fatigue_management"
    case ProximityOptimization => "proximity_optimization"
    case WeeklyBalance => "weekly_balance"
    case IntelligentMatching => "intelligent_matching"
  }

  /**
   * Of all bonus texts only the one of the Hard-route weekly-balance step
   * contains the phrase "weekly balance".
   */
  predicate MentionsWeeklyBalance(bonuses: seq<Bonus>)
  {
    NeedsHardForWeeklyBalance in bonuses
  }

  /** determine_reason_code: the first matching rule in priority order. */
  function DetermineReasonCode(d: Driver, c: Compat): (code: ReasonCode)
    ensures code == HealthRecovery <==> d.health == Restricted
    ensures code == FatigueManagement <==> d.health != Restricted && d.fatigue >= 70.0
    ensures code == ProximityOptimization <==> d.health != Restricted && d.fatigue < 70.0 && c.distanceToStart < 2.0
    ensures code == WeeklyBalance
            <==> d.health != Restricted && d.fatigue < 70.0 && c.distanceToStart >= 2.0 && MentionsWeeklyBalance(c.bonuses)
  {
    if d.health == Restricted then HealthRecovery
    else if d.fatigue >= 70.0 then FatigueManagement
    else if c.distanceToStart < 2.0 then ProximityOptimization
    else if MentionsWeeklyBalance(c.bonuses) then WeeklyBalance
    else IntelligentMatching
  }

  /** weekly_balance can only be chosen for a Hard route of a driver with fewer than 2 Hard routes this week. */
  lemma WeeklyBalanceReasonOnlyForHard(d: Driver, r: Route, balance: map<Grade, nat>, hour: int, km: real)
    requires balance.Keys == {Easy, Medium, Hard}
    requires DetermineReasonCode(d, Compatibility(d, r, balance, hour, km)) == WeeklyBalance
    ensures r.grade == Hard && balance[Hard] < 2
  {
    WeeklyBalanceBonusIff(d, r, balance, hour, km);
  }

  // ---------------------------------------------------------------------
  // Explanation (intelligent_dispatch.py:268-298), branch selection only
  // ---------------------------------------------------------------------

  /** The three distance-banded location sentences. */
  datatype LocationNote = StartsJustNearby | ConvenientDistance | BestMatchDespiteDistance

  /** The explanation: the location sentence and the (at most two) bonuses quoted; none quoted means the generic fairness sentence. */
  datatype Explanation = Explanation(location: LocationNote, quoted: seq<Bonus>)

  function ExplanationText(e: Explanation): string
  {
    if e.quoted == [] then "This route has been carefully selected based on current conditions and fair distribution principles."
    else "This assignment considers your health, fatigue level, and weekly workload balance to ensure fairness."
  }

  function GenerateExplanation(c: Compat): (e: Explanation)
    ensures |e.quoted| == (if |c.bonuses| < 2 then |c.bonuses| else 2)
    ensures e.quoted == c.bonuses[..|e.quoted|]
    ensures e.location == StartsJustNearby <==> c.distanceToStart < 2.0
    ensures e.location == ConvenientDistance <==> 2.0 <= c.distanceToStart < 5.0
  {
    var note := if c.distanceToStart < 2.0 then StartsJustNearby
                else if c.distanceToStart < 5.0 then ConvenientDistance
                else BestMatchDespiteDistance;
    Explanation(note, if |c.bonuses| <= 2 then c.bonuses else c.bonuses[..2])
  }

  /** A proximity_optimization reason always comes with the "just nearby" sentence. */
  lemma ProximityReasonMatchesExplanation(d: Driver, c: Compat)
    requires DetermineReasonCode(d, c) == ProximityOptimization
    ensures GenerateExplanation(c).location == StartsJustNearby
  {
  }
}
