# Fair-dispatch engine: a Dafny model

This project models the core of a delivery-dispatch backend. The backend:

- grades delivery routes as Easy, Medium or Hard from their attributes;
- scores how well each available driver fits each unassigned route, with
  the driver's location, health, fatigue, weekly workload and experience;
- greedily pairs drivers with routes;
- records the pairs as PENDING assignments and updates each paired driver's
  fatigue and health;
- lets a driver accept an assignment, which pays credits, or decline it,
  which offers the route to another driver with a bonus.

The model has five modules, one per source file:

| module | source | form |
|---|---|---|
| `Models` (models.dfy) | backend/app/models.py | datatypes for the enumerations and rows; functions for the column defaults |
| `Logic` (logic.dfy) | backend/app/logic.py | functions for route grading (calculate_route_grade), the satellite-analysis stand-in and the reassignment filter; the weekly-balance loop as a method proved against a fold function |
| `Dispatch` (dispatch.dfy) | backend/app/intelligent_dispatch.py | functions for the simulated driver location, the eight-step compatibility score, the reason code and the explanation |
| `Matching` (matching.dfy) | backend/app/intelligent_dispatch.py:195-266 | the stable urgency sort; the greedy loop as methods (`GreedyMatch`, `ScanBest`) proved equal to the recursive specification `Greedy` |
| `Backend` (backend.dfy) | backend/app/main.py | a `class Database` whose `seq` tables are updated by `PerformDispatch` and `RespondToAssignment`; each method is proved to reach the state a pure function (`DispatchRun`, `Respond`) gives, and the lemmas about those functions state what the endpoints promise |

## How the model represents the source

- **Numbers.** Python floats are `real`: the model computes with exact values, not with rounded binary floats (see "## Left out").
  - `int()` on a float is `Logic.Trunc`, which truncates toward zero.
  - Integer columns are unbounded `int`.
  - `% 100` in the simulated location: Python's floored `%` and Dafny's Euclidean `%` agree for the positive divisor 100, negative ids included.
- **Inputs that stand in for the environment.**
  - The haversine distance is a parameter: `distanceKm` for route grading, and the `distance` function in `Matching.Env` for the matcher.
  - The clock is the parameter `now`, in seconds, plus the hour of day.
  - The random terrain difficulty is a parameter in [0.2, 0.9].
  - The ±5 jitter is a function of (iteration, route position, driver position).
- **Tables.** A table is a sequence of rows in insertion order. A lookup
  by primary key (`filter(...).first()`) is `Backend.IndexOf`.
  - `Backend.Valid` is the integrity the endpoints rely on:
    - user ids and route ids are unique;
    - assignment ids are 1, 2, 3, … in insertion order;
    - every assignment refers to an existing user and route.
  - A new assignment therefore gets id |assignments| + 1.
- **Removal from a pool.** The matcher's `list.remove(row)` removes that row object. The pools hold distinct rows, so this is removal at the position the scan found (`Matching.RemoveAt`).
- **The credit ledger** (`Backend.Ledger`): each driver's `credits` equal the sum of that driver's credit-log amounts. Accepting pays and logs in one step. The reassignment bonus goes to `bonus_credits` and is not logged, so the ledger covers `credits` only.
- **Where the code differs from its description, the model follows the code.**
  - "accept" at a location with no weekly-policy row does not fall back to the default credits.
    - The local `credits` is never bound, so the reply fails with a server error.
    - The notification helper has already committed the new status and `is_assigned`.
    - `Backend.Accept` returns `ServerError` with exactly those two changes.
  - The weekly-balance reason code tests whether the text "weekly balance" appears in a bonus.
    - Only the Hard-route bonus contains that text.
    - So `weekly_balance` is chosen only for Hard routes of drivers with fewer than two Hard routes this week (`Dispatch.WeeklyBalanceReasonOnlyForHard`).

## Model

| member | source | states |
|---|---|---|
| Models.GradeValue | backend/app/models.py:14-17 | grades map to 1, 2, 3, each grade exactly to its own value, so distinct grades have distinct values |
| Models.NewUser | backend/app/models.py:53-57 | a new user has fatigue 0.0, health NORMAL, 0 credits and 0 bonus credits, and is available |
| Models.NewAssignment | backend/app/models.py:119-135 | a new assignment is PENDING, with bonus 0 and no original driver, response time or decline reason |
| Models.NewWeeklyPolicy | backend/app/models.py:170-191 | a new policy row has targets 2/3/2, credits 3/4/6, at most 2 consecutive Hard routes, 1 rest day, threshold 80.0 and auto-dispatch off at "08:00" |
| Logic.Trunc | backend/app/logic.py:39 | `int()` truncates toward zero: 0 <= n <= x < n + 1 for x >= 0, and n - 1 < x <= n <= 0 below 0 |
| Logic.AnalyzeRoute | backend/app/logic.py:21-45 | the analysis keeps the terrain draw and the distance; on non-negative input the predicted minutes are the whole part of 10·km + 20·traffic + 15·terrain + 2·stairs (no more than it, less than one below it) |
| Logic.AnalysisAvoidsTimeFallback | backend/app/logic.py:34-39 | for non-negative inputs the predicted time is at least 3 minutes, so route grading uses it rather than its 120-minute fallback |
| Logic.AnalysisMonotone | backend/app/logic.py:34-39 | more distance, stairs or traffic never predicts a shorter time |
| Logic.WeightScore | backend/app/logic.py:75-89 | W is 1, 2, 4 or 6 points per package as the average weight is <= 5, <= 10, <= 20 or > 20 kg |
| Logic.TimeScore | backend/app/logic.py:100-113 | T is 50, 100, 160 or 220 as the effective minutes are <= 240, <= 360, <= 480 or more |
| Logic.ApartmentPenalty | backend/app/logic.py:130-139 | AD is non-zero only for walk-up apartments (no elevator, density > 0.5) with average weight above 10 kg; then it is 6 or 3 per apartment stop |
| Logic.GradeForScore | backend/app/logic.py:154-166 | Easy iff score <= 650, Medium iff 650 < score <= 1200, Hard iff score > 1200 |
| Logic.RouteCredits | backend/app/logic.py:154-166 | a route's credits are 1, 2 or 3, equal to its grade's value |
| Logic.CalculateRouteGrade | backend/app/logic.py:47-176 | the result's score is the additive route score; its grade and credits follow from that score; the reason record repeats all three |
| Logic.GradeMonotone | backend/app/logic.py:154-166 | a higher score never gives a lower grade or fewer credits |
| Logic.GradeBoundaries | backend/app/logic.py:155-163 | 650 is Easy and 651 Medium; 1200 is Medium and 1201 Hard |
| Logic.KeyFactorsStartWithWeight | backend/app/logic.py:75-173 | the key factors are listed, one to three of them, and the first is the weight category's phrase |
| Logic.BreakdownShowsPenaltyOnlyWhenPositive | backend/app/logic.py:141-143 | the breakdown has 6 entries exactly when AD > 0, otherwise 5 |
| Logic.ScoreLowerBound | backend/app/logic.py:63-152 | for non-negative attributes the score is at least 2·packages + 50 |
| Logic.WeightScoreMonotone | backend/app/logic.py:75-89 | within one weight category, more packages never lower W |
| Logic.ApartmentStopsMonotone | backend/app/logic.py:121 | at equal density, more packages never give fewer apartment stops |
| Logic.StopScoreMonotone | backend/app/logic.py:120-123 | at equal density, more packages never lower SD |
| Logic.ApartmentPenaltyMonotone | backend/app/logic.py:132-139 | in one weight category and building type, more apartment stops never lower AD |
| Logic.ScoreMonotoneInPackages | backend/app/logic.py:63-166 | adding packages, within the same weight category, never lowers the score or the grade |
| Logic.MissingTimeIsTwoHours | backend/app/logic.py:101-104 | a missing or zero predicted time counts as 120 minutes, so T = 50 |
| Logic.Recent | backend/app/logic.py:182-186 | a row is returned iff it is in the history, for this driver, in the last 7 days, and accepted or completed |
| Logic.RecentConcat | backend/app/logic.py:182-186 | the query keeps table order: the rows of two concatenated histories are the two results concatenated |
| Logic.Increment | backend/app/logic.py:191 | the counter adds one to its grade and leaves the other two grades unchanged |
| Logic.Tally | backend/app/logic.py:188-191 | the counts always hold exactly the three grades |
| Logic.TallyCounts | backend/app/logic.py:188-191 | each grade's count is the number of returned rows whose route has that grade |
| Logic.TallyTotal | backend/app/logic.py:188-191 | the three counts add up to at most the number of rows, since rows without a route are skipped |
| Logic.WeeklyBalance | backend/app/logic.py:179-193 | the weekly balance has exactly the three grades as keys |
| Logic.WeeklyBalanceCounts | backend/app/logic.py:179-193 | each grade's weekly count is the number of recent rows of that grade; the total is at most the history's length |
| Logic.IgnoredRowLeavesBalance | backend/app/logic.py:182-186 | a row outside the driver's 7-day accepted/completed window does not change the balance |
| Logic.CountedRowRaisesBalance | backend/app/logic.py:182-191 | a row inside the window adds one to its route's grade and leaves the other counts unchanged |
| Logic.NewAssignmentNotCounted | backend/app/logic.py:185 | a freshly created (PENDING) assignment row does not change anyone's weekly balance |
| Logic.GetWeeklyBalance | backend/app/logic.py:179-193 | the loop's counts equal the fold WeeklyBalance: the three grades, each with its number of recent rows |
| Logic.FindAvailableDrivers | backend/app/logic.py:246-257 | a user is returned iff they are in the table, at the location, available, not RESTRICTED and not the excluded id |
| Logic.FindAvailableDriversConcat | backend/app/logic.py:246-257 | the query keeps table order: the result for two concatenated tables is the two results concatenated |
| Logic.FirstCandidateIsFirstEligible | backend/app/logic.py:248-257 | the first candidate is the first eligible user in table order |
| Logic.FalsyExclusionIgnored | backend/app/logic.py:254-255 | excluding id None or 0 excludes nobody, since both are falsy |
| Dispatch.DriverLocation | backend/app/intelligent_dispatch.py:26-41 | the simulated location lies within 0.0099° north and east of the base point |
| Dispatch.LocationPeriodic | backend/app/intelligent_dispatch.py:38-39 | ids that differ by a multiple of 100 get the same location |
| Dispatch.ProximityTerm | backend/app/intelligent_dispatch.py:57-70 | +30/+20/+10 with a proximity bonus below 2, 5 and 10 km; otherwise 0 and the "far" penalty |
| Dispatch.HealthTerm | backend/app/intelligent_dispatch.py:72-92 | NORMAL gives +10 and its bonus; RESTRICTED gives +20/-10/-30 by grade, a bonus on Easy and a penalty otherwise; CAUTION gives +10 with a bonus on Easy, nothing on Medium and -15 with a penalty on Hard |
| Dispatch.FatigueTerm | backend/app/intelligent_dispatch.py:94-116 | the score change for each fatigue band (< 30, < 60, >= 60) and each grade, and which bonus or penalty each band records |
| Dispatch.WeeklyTerm | backend/app/intelligent_dispatch.py:118-137 | for a Hard route: +15 with the bonus below 2 Hard routes, 0 at exactly 2, -10 with a penalty from 3; Medium: +10 with its bonus below 3 Medium routes, otherwise nothing; Easy: +10 with its bonus below 2 Easy routes, otherwise nothing; the Hard bonus appears iff the route is Hard and the driver has fewer than 2 Hard routes |
| Dispatch.ExperienceTerm | backend/app/intelligent_dispatch.py:139-152 | totals 5..15 change nothing; more than 15 adds 10 for Hard; below 5 gives +10 Easy and -15 Hard |
| Dispatch.StairsTerm | backend/app/intelligent_dispatch.py:156-162 | only more than 50 stairs without an elevator matters: +5 below fatigue 40, -10 from 40 |
| Dispatch.ParkingTerm | backend/app/intelligent_dispatch.py:164-171 | only parking difficulty above 0.7 matters: +5 above 10 routes, else -5 |
| Dispatch.HourTerm | backend/app/intelligent_dispatch.py:173-182 | +5 exactly for a low-traffic route at hours 6-10 or 17-20; never a penalty |
| Dispatch.Clamp | backend/app/intelligent_dispatch.py:184-185 | the result is in [0, 100] and equals the input when the input is already in range |
| Dispatch.Compatibility | backend/app/intelligent_dispatch.py:43-193 | the score is in [0, 100]; the distance to the start is reported unchanged |
| Dispatch.ProximityRecordedOnce | backend/app/intelligent_dispatch.py:57-68 | below 10 km the first bonus is the proximity bonus, no other bonus is one, and there is no "far" penalty; from 10 km the first penalty is "far", no other penalty is, and there is no proximity bonus |
| Dispatch.NormalHealthBonus | backend/app/intelligent_dispatch.py:90-92 | a NORMAL driver always gets the "normal health" bonus |
| Dispatch.WeeklyBalanceBonusIff | backend/app/intelligent_dispatch.py:123-126 | the Hard weekly-balance bonus appears iff the route is Hard and the driver has fewer than 2 Hard routes this week |
| Dispatch.CloserNeverScoresLower | backend/app/intelligent_dispatch.py:53-70 | with everything else equal, a closer start never scores lower |
| Dispatch.FreshDriverNearHardRouteScoresMax | backend/app/intelligent_dispatch.py:48-185 | a NORMAL driver with fatigue below 30 and no routes this week, within 2 km of a Hard route, scores 100 |
| Dispatch.DetermineReasonCode | backend/app/intelligent_dispatch.py:300-311 | each code holds iff its condition holds and every earlier condition fails: restricted; fatigue >= 70; under 2 km; a weekly-balance bonus |
| Dispatch.WeeklyBalanceReasonOnlyForHard | backend/app/intelligent_dispatch.py:308-309 | the weekly_balance code implies a Hard route and fewer than 2 Hard routes this week |
| Dispatch.GenerateExplanation | backend/app/intelligent_dispatch.py:268-298 | quotes the first min(2, n) bonuses; "just nearby" iff under 2 km; "convenient" iff 2 to 5 km |
| Dispatch.ProximityReasonMatchesExplanation | backend/app/intelligent_dispatch.py:284-307 | a proximity_optimization code always comes with the "just nearby" location sentence |
| Matching.CompatFor | backend/app/intelligent_dispatch.py:235 | the score of one examined pair is in [0, 100] |
| Matching.InsertByUrgency | backend/app/intelligent_dispatch.py:217-220 | inserting adds exactly that route: the same multiset plus one, one longer |
| Matching.SortByUrgency | backend/app/intelligent_dispatch.py:217-220 | the sort is a permutation of its input |
| Matching.SortIsSorted | backend/app/intelligent_dispatch.py:217-220 | the result is ordered by grade descending, then package count descending |
| Matching.SortIsStable | backend/app/intelligent_dispatch.py:217-220 | routes with equal keys keep their input order, as Python's stable sort does |
| Matching.RemoveAt | backend/app/intelligent_dispatch.py:260-261 | removal drops one element and adds none |
| Matching.RemoveKeepsSorted | backend/app/intelligent_dispatch.py:259-261 | removing a route keeps the pool sorted |
| Matching.Top | backend/app/intelligent_dispatch.py:232 | the window is the first min(3, n) routes, non-empty when the pool is |
| Matching.Grid | backend/app/intelligent_dispatch.py:232-235 | one record per window route and remaining driver, each the scorer's value for that pair |
| Matching.ScanRow | backend/app/intelligent_dispatch.py:233-243 | the inner loop never lowers the best score and keeps the kept choice consistent with its pair |
| Matching.ScanAll | backend/app/intelligent_dispatch.py:232-243 | the kept choice is a scanned pair with its adjusted score; the best score is at least -1 |
| Matching.ScanRowFirstMax | backend/app/intelligent_dispatch.py:233-243 | after the inner loop, the best is at least every scanned pair; a new choice is in this row and strictly beats the earlier drivers |
| Matching.ScanAllFirstMax | backend/app/intelligent_dispatch.py:231-243 | the kept pair has the highest adjusted score and strictly beats every pair scanned before it; with no choice the score stays -1 |
| Matching.NextPick | backend/app/intelligent_dispatch.py:225-246 | a pick is a pair in the window, with its record and an adjusted score above 40 |
| Matching.NextPickIsFirstBest | backend/app/intelligent_dispatch.py:227-246 | no pick iff every window pair scores at most 40; otherwise the pick scores highest, strictly above every pair scanned before it |
| Matching.Commit | backend/app/intelligent_dispatch.py:247-257 | the tuple carries the picked driver, route, record and adjusted score |
| Matching.GreedyCons | backend/app/intelligent_dispatch.py:225-264 | when an iteration commits, the result is that pair followed by the run on the pools without its driver and route |
| Matching.GreedyFromPools | backend/app/intelligent_dispatch.py:212-266 | every pair's driver and route come from the pools; there are at most min(\|drivers\|, \|routes\|) pairs |
| Matching.GreedyScored | backend/app/intelligent_dispatch.py:235-257 | every pair carries the scorer's own value for it and an adjusted score above 40 |
| Matching.GreedyJitterBounded | backend/app/intelligent_dispatch.py:238 | with jitter in [-5, 5], each adjusted score is within 5 of its compatibility score |
| Matching.GreedyDistinct | backend/app/intelligent_dispatch.py:259-261 | with distinct ids in the pools, no driver and no route is paired twice |
| Matching.CapNeverBinds | backend/app/intelligent_dispatch.py:222-225 | any cap of at least iterations-so-far + \|drivers\| gives the same result, so 2·\|drivers\| never cuts the loop short |
| Matching.ScanBest | backend/app/intelligent_dispatch.py:227-243 | the nested loops compute the scan specification ScanAll over the grid |
| Matching.MatchIteration | backend/app/intelligent_dispatch.py:226-246 | one iteration of the while loop returns the specification's pick |
| Matching.GreedyMatch | backend/app/intelligent_dispatch.py:212-266 | the while loop returns exactly the greedy specification on the drivers and sorted routes, with cap 2·\|drivers\| |
| Matching.IntelligentRouteAssignment | backend/app/intelligent_dispatch.py:195-266 | the matcher's result is the greedy specification on the urgency-sorted routes, scored by compatibility |
| Matching.MatchingGuarantees | backend/app/intelligent_dispatch.py:195-266 | every tuple pairs an offered driver with an offered route and carries their compatibility and an adjusted score above 40; no driver or route repeats; at most min(\|drivers\|, \|routes\|) tuples |
| Backend.FatigueAfter | backend/app/main.py:460-466 | Hard adds 15 and Medium adds 8, capped at 100; Easy subtracts 5, floored at 0; fatigue stays in [0, 100] |
| Backend.HealthFor | backend/app/main.py:468-474 | RESTRICTED iff fatigue >= 80; CAUTION iff 60 <= fatigue < 80; NORMAL iff fatigue < 60 |
| Backend.HealthMonotone | backend/app/main.py:468-474 | higher fatigue never gives a milder health band |
| Backend.NewUserConsistent | backend/app/models.py:53-54 | a new user's health agrees with their fatigue |
| Backend.AfterAssignment | backend/app/main.py:460-474 | only fatigue and health change; health is recomputed from the new fatigue |
| Backend.FatigueRunInRange | backend/app/main.py:460-466 | fatigue stays in [0, 100] over any sequence of assignments |
| Backend.HardRunFatigue | backend/app/main.py:461-474 | n Hard routes in a row give min(100, f + 15n); six from rested give RESTRICTED |
| Backend.PolicyFor | backend/app/main.py:373-375 | finds a row of the location iff one exists, and the row found belongs to the location |
| Backend.PolicyForIsFirst | backend/app/main.py:373-375 | the row found is the first of the location's rows: every earlier row belongs to another location |
| Backend.GetWeeklyPolicy | backend/app/main.py:370-391 | the stored row iff the location has one; otherwise the built-in defaults, which equal a new policy row's defaults |
| Backend.IndexOf | backend/app/main.py:181 | the first row with that key, or none iff no row has it |
| Backend.AvailableDrivers | backend/app/main.py:406-409 | a user is in the pool iff they are in the table, at the location and available |
| Backend.AvailableDriversConcat | backend/app/main.py:406-409 | the drivers query keeps table order, which decides ties in the matcher |
| Backend.UnassignedRoutes | backend/app/main.py:415-418 | a route is in the pool iff it is in the table, at the location and unassigned |
| Backend.UnassignedRoutesConcat | backend/app/main.py:415-418 | the routes query keeps table order, which the stable urgency sort preserves among equal keys |
| Backend.History | backend/app/logic.py:182-191 | one record per assignment row, in table order, with its driver, date and status; it has a grade iff its route exists |
| Backend.UpdateFatigue | backend/app/main.py:460-474 | the rows of this driver take one fatigue step; all other rows are unchanged |
| Backend.SetAssigned | backend/app/main.py:458 | the row of this route is marked assigned; all other rows are unchanged |
| Backend.AssignmentRow | backend/app/main.py:449-455 | the row has the given id, the pair's driver and route, the run's date, and status PENDING |
| Backend.NumberedSpec | backend/app/main.py:448-457 | the k-th inserted row is built from the k-th pair with id base + k + 1 |
| Backend.EnsurePolicy | backend/app/main.py:427-434 | afterwards the location has a policy; a default row is appended only when it had none |
| Backend.DispatchRun | backend/app/main.py:403-491 | with an empty pool nothing changes; otherwise the location gets a policy, old rows stay as a prefix, and table sizes and the credit log are kept |
| Backend.MarkAllMarks | backend/app/main.py:448-458 | after the loop a route is assigned iff it was before or it was paired |
| Backend.ApplyFatigueUpdates | backend/app/main.py:448-474 | after the loop a paired driver has taken exactly one step, for their own route; unpaired drivers are unchanged |
| Backend.RunMatchesFromPools | backend/app/main.py:441-446 | the matcher's pairs come from the run's pools, with no driver or route twice, and each carries its score |
| Backend.DispatchAppendsRows | backend/app/main.py:448-457 | a run appends exactly one row per pair, in pair order, numbered on from the table's length |
| Backend.DispatchMarksRoutes | backend/app/main.py:448-458 | after a run exactly the paired routes have newly become assigned; nothing else in the routes table changes |
| Backend.DispatchUpdatesDrivers | backend/app/main.py:448-474 | each paired driver has taken one fatigue step for their route; every other user row is unchanged |
| Backend.DispatchRowsRefer | backend/app/main.py:449-456 | each new row has the next id and refers to an existing user and route |
| Backend.DispatchPreservesValid | backend/app/main.py:403-491 | a run with pairs from its pools keeps the tables Valid |
| Backend.ReassignedRow | backend/app/main.py:247-255 | the offer row is PENDING for the new driver and the same route, with the original driver recorded and a bonus of 5 |
| Backend.Respond | backend/app/main.py:179-279 | NotFound iff no row has the id; BadRequest iff found and the action is neither "accept" nor "decline"; both leave the tables unchanged |
| Backend.AcceptOutcome | backend/app/main.py:185-228 | the row becomes ACCEPTED with its response time and the route becomes assigned; no other assignment row, route or policy changes; ServerError iff no policy, and then users and log are unchanged; otherwise the driver's credits and bonus credits grow by the policy's credits and the positive bonus, all their other fields and all other users are unchanged, and one log row records the credits |
| Backend.DeclineOutcome | backend/app/main.py:230-276 | the row becomes DECLINED with time and reason; the first eligible other driver, if any, gets an offer row; users, routes, policies and log are unchanged |
| Backend.RespondNeverUnassigns | backend/app/main.py:185-276 | no answer un-assigns a route or changes anything in a route but its assigned flag |
| Backend.AcceptPreservesValid | backend/app/main.py:185-228 | accepting keeps the tables Valid |
| Backend.DeclinePreservesValid | backend/app/main.py:230-276 | declining keeps the tables Valid, including the new offer row |
| Backend.RespondPreservesValid | backend/app/main.py:179-279 | every answer keeps the tables Valid |
| Backend.NewUserInBalance | backend/app/models.py:55 | a new user with no log rows is in balance with the credit log |
| Backend.AcceptKeepsLedger | backend/app/main.py:206-217 | paying and logging the same credits keeps each user's credits equal to their logged total |
| Backend.RespondKeepsLedger | backend/app/main.py:179-279 | every answer keeps the ledger balanced |
| Backend.DispatchKeepsLedger | backend/app/main.py:448-491 | a dispatch run changes neither credits nor the log |
| Backend.RunKeepsInvariants | backend/app/main.py:403-491 | a run with the matcher's pairs keeps the tables Valid and the ledger balanced |
| Backend.Database.PerformDispatch | backend/app/main.py:403-511 | returns the matcher's pairs and their count; the tables end as DispatchRun says; Valid and the ledger are preserved |
| Backend.Database.RecordPairs | backend/app/main.py:448-474 | the loop leaves users, routes and assignments as ApplyFatigue, MarkAll and Numbered specify; policies and log are unchanged |
| Backend.Database.RespondToAssignment | backend/app/main.py:179-279 | the reply and the tables are as Respond says; Valid and the ledger are preserved |
| Backend.Database.AcceptAt | backend/app/main.py:185-228 | the accept branch reaches Accept's reply and state |
| Backend.Database.PayAt | backend/app/main.py:198-217 | payment changes one user's credits and bonus and appends one log row, as Paid says |
| Backend.Database.DeclineAt | backend/app/main.py:230-276 | the decline branch reaches Decline's reply and state |

## Left out

- Haversine distance (`calculate_distance`): trigonometry on floats. The distance is an input.
- Random draws: the terrain difficulty, the ±5 jitter, and the random greeting in both explanation generators. The greeting needs the driver's name, which the model does not keep. The terrain and the jitter are inputs.
- Explanation text: only which sentence is chosen and which bonuses are quoted is modelled. The formatted distances (`:.1f`) and the quoted bonus wording are not. The row keeps one of the two closing sentences.
- `generate_explanation` in logic.py is not part of this model: the dispatch uses the matcher's own explanation.
- The grade reason text: it is modelled as a structured record (score, grade, credits, breakdown, key factors), not as a formatted string.
- Notifications (`create_notification`), e-mail and the PDF daily report with its `daily_reports` row: I/O, with no effect on the modelled tables. One effect is left out on purpose:
  - an e-mail failure in the decline branch happens after the notification has already committed;
  - its 500 reply is not modelled.
- The scheduler, the other endpoints, authentication and the other columns of each table.
- SQL row order is taken to be insertion order.
- Float rounding before `int()`: `Logic.Trunc` truncates the exact real value, while the source truncates a rounded binary float. Where the float product lands just below a whole number, the source's value is one less. For example, 100 packages at apartment density 0.57 give 56.99999999999999 in floating point, so the source has 56 apartment stops where `Logic.ApartmentStops` gives 57. The affected terms are the predicted time (logic.py:39), D (logic.py:96), the COD and apartment stops (logic.py:120-121) and the parking points (logic.py:151). Through them the score, and near 650 or 1200 the grade, can differ.
- `Backend.DispatchRun`, `Backend.ApplyPairs`, `Backend.Database.RecordPairs`: the row builder is a parameter, `RowMaker(now)` for the real loop, so that the table lemmas hold for any builder satisfying `KeyedRows`.
- `Matching.Greedy`: stated for any pick function. A pick outside the pools ends the loop, which the loop's own `ScanPicker` never does.
- `Backend.Database.PerformDispatch`: the model does not return the reply's message text, only the count and the pairs.
