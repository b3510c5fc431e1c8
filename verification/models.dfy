/**
 * Records and enumerations of the dispatch backend (backend/app/models.py):
 * the three enumerations the engine branches on, the rows it reads and
 * writes (User, Route, Assignment, WeeklyPolicy, CreditLog) and the values a
 * freshly created row takes when a column is left to its default.
 *
 * Columns the engine never reads (names, e-mails, photos, timestamps other
 * than the assignment date, ...) are not part of these records.
 */
module Models {

  datatype Option<T> = None | Some(value: T)

  /** HealthStatus: exactly three states. */
  datatype HealthStatus = Normal | Caution | Restricted

  /** RouteGrade is an integer enumeration EASY=1 < MEDIUM=2 < HARD=3. */
  datatype Grade = Easy | Medium | Hard

  /** AssignmentStatus: exactly five states. */
  datatype AssignmentStatus = Pending | Accepted | Declined | Reassigned | Completed

  /** The integer value behind a grade, which the matcher's sort key negates; distinct grades have distinct values. */
  function GradeValue(g: Grade): (v: int)
    ensures 1 <= v <= 3
    ensures g == Easy <==> v == 1
    ensures g == Medium <==> v == 2
    ensures g == Hard <==> v == 3
  {
    match g
    case Easy => 1
    case Medium => 2
    case Hard => 3
  }

  /** A row of the users table, restricted to the columns the engine uses. */
  datatype Driver = Driver(
    id: int,
    locationId: string,
    fatigue: real,
    health: HealthStatus,
    credits: int,
    bonusCredits: int,
    isAvailable: bool)

  /** A new user row with every engine column at its default. */
  function NewUser(id: int, locationId: string): (u: Driver)
    ensures u.id == id && u.locationId == locationId
    ensures u.fatigue == 0.0 && u.health == Normal
    ensures u.credits == 0 && u.bonusCredits == 0 && u.isAvailable
  {
    Driver(id, locationId, 0.0, Normal, 0, 0, true)
  }

  /** The attributes of a route that route grading and the scorer read. */
  datatype RouteAttrs = RouteAttrs(
    startLat: real,
    startLng: real,
    endLat: real,
    endLng: real,
    packageCount: int,
    weightKg: real,
    hasElevator: bool,
    trafficLevel: real,
    apartmentDensity: real,
    walkingDistanceKm: real,
    stairsCount: int,
    parkingDifficulty: real,
    predictedTimeMinutes: Option<int>)

  /** A row of the routes table after grading. */
  datatype Route = Route(
    id: int,
    locationId: string,
    attrs: RouteAttrs,
    grade: Grade,
    isAssigned: bool)

  /** A row of the assignments table; `assignedDate` is in seconds. */
  datatype Assignment = Assignment(
    id: int,
    driverId: int,
    routeId: int,
    assignedDate: int,
    status: AssignmentStatus,
    explanation: string,
    assignmentReason: string,
    responseTime: Option<int>,
    declineReason: Option<string>,
    originalDriverId: Option<int>,
    reassignmentBonus: int)

  /**
   * A new assignment row: status, response fields, original driver and
   * bonus at their column defaults.
   */
  function NewAssignment(id: int, driverId: int, routeId: int, now: int, explanation: string, reason: string): (a: Assignment)
    ensures a.id == id && a.driverId == driverId && a.routeId == routeId && a.assignedDate == now
    ensures a.status == Pending
    ensures a.reassignmentBonus == 0 && a.originalDriverId == None
    ensures a.responseTime == None && a.declineReason == None
    ensures a.explanation == explanation && a.assignmentReason == reason
  {
    Assignment(id, driverId, routeId, now, Pending, explanation, reason, None, None, None, 0)
  }

  /** A row of the weekly_policies table. */
  datatype WeeklyPolicy = WeeklyPolicy(
    locationId: string,
    easyTarget: int,
    mediumTarget: int,
    hardTarget: int,
    easyCredits: int,
    mediumCredits: int,
    hardCredits: int,
    maxConsecutiveHard: int,
    minRestDaysAfterHard: int,
    fatigueThreshold: real,
    autoDispatchEnabled: bool,
    autoDispatchTime: string)

  /** A new policy row for a location with every column at its default. */
  function NewWeeklyPolicy(locationId: string): (p: WeeklyPolicy)
    ensures p.locationId == locationId
    ensures p.easyTarget == 2 && p.mediumTarget == 3 && p.hardTarget == 2
    ensures p.easyCredits == 3 && p.mediumCredits == 4 && p.hardCredits == 6
    ensures p.maxConsecutiveHard == 2 && p.minRestDaysAfterHard == 1
    ensures p.fatigueThreshold == 80.0
    ensures !p.autoDispatchEnabled && p.autoDispatchTime == "08:00"
  {
    WeeklyPolicy(locationId, 2, 3, 2, 3, 4, 6, 2, 1, 80.0, false, "08:00")
  }

  /** A row of the credit_logs table. */
  datatype CreditLog = CreditLog(driverId: int, amount: int, grade: Grade, isBonus: bool)
}
