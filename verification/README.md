# Point ledger — a Dafny model

This project models the business logic of a per-user point ledger. Users charge points onto a balance and use points from it. Each successful change is written to a balance table keyed by user id and appended to a history log. The model covers:

- the service `UserPointService`: `chargePoint`, `usePoint`, `chargePointOnlyReentrantLock` and the two read-only queries;
- the range checks that `PointController` applies before calling the service;
- the `UserPoint` record with its limits and its zero record;
- the `ErrorCode` table;
- the lock registry `ConcurrentAndReentraantLockFactory`.

Each call runs atomically, one at a time. Locks appear only as objects whose identity matters, because the per-user lock only serialises charges on one id (`usePoint` takes no lock).

Layout, one module per source component:

- `longs.dfy` (`Longs`): Java's 64-bit `long` and its wrap-around on `+` and `-`.
- `user_point.dfy` (`UserPoints`): the `UserPoint` record and its constants, plus the `PointHistory` record and `TransactionType` that the history log stores.
- `error_code.dfy` (`ErrorCodes`): the error enum with its status, code and message, and `Result`, which is either the service's return value or the `CustomException` it throws.
- `lock_factory.dfy` (`LockFactory`): a class holding a `lockMap` field. `GetLock` is get-or-create (`computeIfAbsent`) and allocates a fresh lock object for an id it has not seen.
- `tables.dfy` (`Tables`): the two storage collaborators, as classes. The balance table is a map whose missing entries read as `UserPoint.empty(id)`. The history log is append-only, numbers its records 1, 2, 3, … and is filtered by user.
- `point_service.dfy` (`PointService`):
  - `ChargeOutcome` and `UseOutcome` state what one call does to the two tables, as functions on a `Ledger` value.
  - The class `UserPointService` does the same steps in place on the table objects. Each of its methods is proved to agree with the matching function.
- `point_controller.dfy` (`PointController`): the guards of `charge` and `use`, as pure functions. A valid request is passed to the service and its result is returned unchanged.
- `ledger_invariants.dfy` (`LedgerInvariants`): the ledger as a state machine driven by a sequence of controller requests. It holds the invariant and the inductive proofs about whole runs.

The invariant kept by every run of requests through the controller has four parts:

- every balance lies in 0 ..= 1,000,000;
- the log is numbered 1, 2, 3, …;
- every user in the log has a balance record;
- each user's history *replays* to that user's balance. A CHARGE record sets the balance to its amount, because it carries the new total. A USE record subtracts its amount.

Two behaviours of the source are reproduced as written:

- In `chargePoint`, the parameter `chargePointAmount` is overwritten with the new total (UserPointService.java:48). The CHARGE record therefore carries the resulting balance, not the charged amount. `SecondChargeLogsTotal` shows this.
- `usePoint(id, 0)` on a zero balance is rejected, because `ownUserPoint == 0` is tested first (UserPointService.java:119). `UseZeroOnZeroBalanceRejected` shows this.

Three more behaviours of the code are easy to miss:

- CHARGE records carry the total, not a positive delta.
- A USE record may carry amount 0.
- The service does not check the input range itself; only the controller does.

Java `long` arithmetic is modelled with explicit wrap-around. Called without the controller, `chargePoint(id, Long.MAX_VALUE)` on a balance of 1 overflows to a negative total. That total passes the cap check and is stored (`ChargeOverflowStoresNegativeBalance`). The controller limits a charge to 1 ..= 100,000, so the cap holds on every request path (`RunAllPreservesInv`).

Timestamps (`System.currentTimeMillis`) are opaque: each call takes one parameter `now` and uses it for every stamp it writes.

## Model

| member | source | states |
|---|---|---|
| `Longs.Wrap` | src/main/java/io/hhplus/tdd/point/service/UserPointService.java:48 | Java long `+`/`-`: the result is congruent to the exact value modulo 2^64, equals it when it is in range, and is shifted by exactly 2^64 when it overflows by one wrap |
| `UserPoints.Empty` | src/main/java/io/hhplus/tdd/point/dto/UserPoint.java:13-15 | `empty(id)` is the record of the given id with point 0 (MIN_POINT) |
| `UserPoints.LimitsOrdered` | src/main/java/io/hhplus/tdd/point/dto/UserPoint.java:9-11 | MIN_POINT = 0, MAX_POINT = 1,000,000, MAX_POINT_PER_ONCE = 100,000, and 0 < per-charge limit < cap |
| `ErrorCodes.ErrorCode.Status` | src/main/java/io/hhplus/tdd/point/util/exception/ErrorCode.java:8-11 | every status is 600 or 602, and it is 602 exactly for NOT_ENOUGH_VALANCE |
| `ErrorCodes.StatusClassesDiffer` | src/main/java/io/hhplus/tdd/point/util/exception/ErrorCode.java:24-27 | INPUT_VALID is 600, USER_VALID is 602, and they differ |
| `ErrorCodes.ErrorTable` | src/main/java/io/hhplus/tdd/point/util/exception/ErrorCode.java:8-11 | the status and code of all four constants, each code spelled as its constant's name, and the messages of OVER_CHARGE and NOT_ENOUGH_VALANCE |
| `ErrorCodes.CodesDistinct` | src/main/java/io/hhplus/tdd/point/util/exception/ErrorCode.java:8-11 | two error constants have the same code string exactly when they are the same constant |
| `LockFactory.InsertIfAbsent` | src/main/java/io/hhplus/tdd/point/util/lock/ConcurrentAndReentraantLockFactory.java:16 | get-or-create: the key maps to its old value if present, else to the new one; the keys grow by exactly that key; existing entries are kept |
| `LockFactory.InsertIfAbsentIdempotent` | src/main/java/io/hhplus/tdd/point/util/lock/ConcurrentAndReentraantLockFactory.java:16 | a second get-or-create with the same key changes nothing, whatever value it offers |
| `LockFactory.InsertIfAbsentGrowsByAtMostOne` | src/main/java/io/hhplus/tdd/point/util/lock/ConcurrentAndReentraantLockFactory.java:16 | the map grows by one entry for an absent key and not at all for a present one |
| `LockFactory.ConcurrentAndReentraantLockFactory.constructor` | src/main/java/io/hhplus/tdd/point/util/lock/ConcurrentAndReentraantLockFactory.java:11-13 | the lock map starts empty, and the global lock is a fresh object |
| `LockFactory.ConcurrentAndReentraantLockFactory.GetLock` | src/main/java/io/hhplus/tdd/point/util/lock/ConcurrentAndReentraantLockFactory.java:15-17 | returns the stored lock and leaves the map as it was if the id is present; otherwise stores and returns a freshly created lock for that id only |
| `LockFactory.ConcurrentAndReentraantLockFactory.GetReentrantLock` | src/main/java/io/hhplus/tdd/point/util/lock/ConcurrentAndReentraantLockFactory.java:12-13 | returns the one global lock, a constant field that no id affects |
| `LockFactory.GetLockTwice` | src/main/java/io/hhplus/tdd/point/util/lock/ConcurrentAndReentraantLockFactory.java:15-17 | two requests for one id return the same lock, and the map grows by at most one entry in all |
| `Tables.Balance` | src/main/java/io/hhplus/tdd/point/service/UserPointService.java:115-116 | the balance a read sees: 0 for an unknown user, whatever timestamp the empty record gets |
| `Tables.UserHistory` | src/main/java/io/hhplus/tdd/point/service/UserPointService.java:149-151 | one user's history: every record in it belongs to that user and is in the log, and every record of that user in the log is in it |
| `Tables.UserHistoryAppend` | src/main/java/io/hhplus/tdd/point/service/UserPointService.java:58 | appending a record to the log extends its own user's history by that record and leaves every other user's history unchanged |
| `Tables.UserHistoryOfAbsentUser` | src/main/java/io/hhplus/tdd/point/service/UserPointService.java:149-151 | a user with no record in the log has an empty history |
| `Tables.UserPointTable.SelectById` | src/main/java/io/hhplus/tdd/point/service/UserPointService.java:45 | a read returns the stored record, or the empty record of an unknown id, and changes nothing |
| `Tables.UserPointTable.InsertOrUpdate` | src/main/java/io/hhplus/tdd/point/service/UserPointService.java:55 | overwrites the record of the id only, and returns the record it stored |
| `Tables.PointHistoryTable.Insert` | src/main/java/io/hhplus/tdd/point/service/UserPointService.java:58 | appends exactly one record, numbered one past the log's length, and returns it |
| `Tables.PointHistoryTable.SelectAllByUserId` | src/main/java/io/hhplus/tdd/point/service/UserPointService.java:150 | returns the user's records in insertion order, and changes nothing |
| `PointService.ChargeOutcome` | src/main/java/io/hhplus/tdd/point/service/UserPointService.java:44-60 | when the sum does not overflow, it fails (OVER_CHARGE) exactly when balance + amount > 1,000,000, so a total of exactly 1,000,000 is accepted; on failure both tables are unchanged; on success it stores balance + amount for the id, returns that record, and appends one CHARGE record whose amount is the new total |
| `PointService.UseOutcome` | src/main/java/io/hhplus/tdd/point/service/UserPointService.java:114-132 | when the difference does not overflow, it fails (NOT_ENOUGH_VALANCE) exactly when the balance is 0 or below the amount; on failure both tables are unchanged; on success it stores balance − amount, which is ≥ 0, and appends one USE record carrying the requested amount |
| `PointService.OtherUsersUntouched` | src/main/java/io/hhplus/tdd/point/service/UserPointService.java:55-58 | a charge or use on one id leaves every other user's record and history unchanged |
| `PointService.OwnHistoryGrowsByOne` | src/main/java/io/hhplus/tdd/point/service/UserPointService.java:55-58 | a failed call leaves the user's history as it was; a successful one appends exactly one record at its end, of kind CHARGE carrying the new total or of kind USE carrying the requested amount |
| `PointService.ChargeKeepsBalanceInRange` | src/main/java/io/hhplus/tdd/point/service/UserPointService.java:48-55 | for a non-negative amount that cannot overflow, a charge keeps the balance in 0 ..= 1,000,000 |
| `PointService.UseKeepsBalanceInRange` | src/main/java/io/hhplus/tdd/point/service/UserPointService.java:119-127 | for a non-negative amount, a use keeps the balance ≥ 0 and never raises it |
| `PointService.ChargeOverflowStoresNegativeBalance` | src/main/java/io/hhplus/tdd/point/service/UserPointService.java:48-55 | called directly with Long.MAX_VALUE on a balance of 1, the total wraps to Long.MIN_VALUE, passes the cap check and is stored |
| `PointService.UseZeroOnZeroBalanceRejected` | src/main/java/io/hhplus/tdd/point/service/UserPointService.java:119-121 | using 0 points on a zero balance throws NOT_ENOUGH_VALANCE and changes nothing |
| `PointService.UseZeroOnPositiveBalanceAccepted` | src/main/java/io/hhplus/tdd/point/service/UserPointService.java:119-130 | using 0 points on a positive balance succeeds, keeps the balance, and logs one record |
| `PointService.UserPointService.constructor` | src/main/java/io/hhplus/tdd/point/service/UserPointService.java:23-27 | the service holds the three collaborators it is given |
| `PointService.UserPointService.ChargePoint` | src/main/java/io/hhplus/tdd/point/service/UserPointService.java:36-65 | result and new table contents are those of ChargeOutcome; the lock map gains the id (if new) and keeps every other entry |
| `PointService.UserPointService.ChargePointOnlyReentrantLock` | src/main/java/io/hhplus/tdd/point/service/UserPointService.java:74-103 | the same result and tables as ChargePoint, taken under the global lock; the lock map is untouched |
| `PointService.UserPointService.ChargeUnderLock` | src/main/java/io/hhplus/tdd/point/service/UserPointService.java:44-60 | the in-place steps (read, add, check the cap, overwrite, append) produce exactly ChargeOutcome |
| `PointService.UserPointService.UsePoint` | src/main/java/io/hhplus/tdd/point/service/UserPointService.java:112-133 | the in-place steps produce exactly UseOutcome's result and tables |
| `PointService.UserPointService.SelectUserPoint` | src/main/java/io/hhplus/tdd/point/service/UserPointService.java:140-142 | read-only: returns the stored or empty record, whose point is the balance |
| `PointService.UserPointService.SelectUserPointHistory` | src/main/java/io/hhplus/tdd/point/service/UserPointService.java:149-151 | read-only: returns the user's history in insertion order |
| `PointController.Charge` | src/main/java/io/hhplus/tdd/point/controller/PointController.java:57-67 | Bad Request exactly when chargeAmount < 1 or > 100,000, with nothing changed; otherwise the service's charge result and state, passed on unchanged |
| `PointController.Use` | src/main/java/io/hhplus/tdd/point/controller/PointController.java:80-86 | Bad Request exactly when usePointAmount < 0 or > 1,000,000, with nothing changed, so 0 and 1,000,000 pass; otherwise the service's use result and state, unchanged |
| `PointController.Respond` | src/main/java/io/hhplus/tdd/point/controller/PointController.java:84-86 | a service result becomes a 200 with the same record, or a failure with the same error code; never a Bad Request |
| `PointController.BoundaryInputs` | src/test/java/io/hhplus/tdd/unit/PointControllerTests.java:42-63 | charge 0 and 100,001, and use −1 and 1,000,001 (the inputs of these tests), and charge 993,001 (the input of PointControllerIntegrationTests.java:172-177), all yield Bad Request with nothing changed; charge 1 and 100,000, and use 0 and 1,000,000, do not |
| `PointController.ChargeUpToTheCap` | src/main/java/io/hhplus/tdd/point/service/UserPointService.java:48-52 | a charge reaching exactly 1,000,000 returns that record; one point more throws OVER_CHARGE |
| `LedgerInvariants.ReplayAppend` | src/main/java/io/hhplus/tdd/point/service/UserPointService.java:58 | replaying a history extended by a CHARGE record gives its amount; extended by a USE record, the previous replay minus its amount |
| `LedgerInvariants.InitialLedgerValid` | src/main/java/io/hhplus/tdd/point/service/UserPointService.java:23-27 | two empty tables satisfy the ledger invariant |
| `LedgerInvariants.HistoryDeterminesBalance` | src/main/java/io/hhplus/tdd/point/service/UserPointService.java:149-151 | under the invariant, replaying a user's queried history gives the queried balance, also for unknown users |
| `LedgerInvariants.WritePreservesInv` | src/main/java/io/hhplus/tdd/point/service/UserPointService.java:55-58 | overwriting one record within the bounds and appending a matching, correctly numbered record keeps the invariant |
| `LedgerInvariants.ServePreservesInv` | src/main/java/io/hhplus/tdd/point/controller/PointController.java:57-86 | one charge or use request through the controller keeps the invariant |
| `LedgerInvariants.RunAllPreservesInv` | src/main/java/io/hhplus/tdd/point/controller/PointController.java:57-86 | every sequence of requests through the controller keeps the invariant; in particular every balance stays in 0 ..= 1,000,000 |
| `LedgerInvariants.ServeBalance` | src/main/java/io/hhplus/tdd/point/service/UserPointService.java:48-55 | one request changes a user's balance by +amount for an accepted charge of theirs, −amount for an accepted use of theirs, and 0 otherwise |
| `LedgerInvariants.RunAllBalance` | src/main/java/io/hhplus/tdd/point/service/UserPointService.java:44-132 | after any run, a balance is its start plus the accepted charges minus the accepted uses of that user: no lost and no doubled update |
| `LedgerInvariants.ChargeWithinCap` | src/main/java/io/hhplus/tdd/point/service/UserPointService.java:48-55 | a valid charge that stays within the cap is accepted and adds exactly its amount |
| `LedgerInvariants.Repeat` | src/test/java/io/hhplus/tdd/integration/ConcurrencyTests.java:27-28 | n copies of a request: a sequence of length n whose every element is that request |
| `LedgerInvariants.ChargesAddUp` | src/main/java/io/hhplus/tdd/point/service/UserPointService.java:48-55 | n charges of one valid amount add exactly their total n × amount to the balance, for any starting ledger, while the balance plus that total stays within the cap |
| `LedgerInvariants.RepeatedChargesAccumulate` | src/main/java/io/hhplus/tdd/point/service/UserPointService.java:48-55 | n charges of one valid amount add exactly n × amount while the total stays within the cap |
| `LedgerInvariants.HundredChargesOfThousand` | src/test/java/io/hhplus/tdd/integration/ConcurrencyTests.java:22-77 | from an empty ledger, 100 charges of 1,000 on one user leave exactly 100,000, taking the calls one at a time |
| `LedgerInvariants.ChargeThenUse` | src/test/java/io/hhplus/tdd/integration/UserPointServiceIntegrationTests.java:62-149 | from an empty ledger, charge 10,000 then use 3,000 returns 10,000 then 7,000; the history is [CHARGE 10,000 #1, USE 3,000 #2] |
| `LedgerInvariants.SecondChargeLogsTotal` | src/main/java/io/hhplus/tdd/point/service/UserPointService.java:48-58 | two charges of 10,000 give balance 20,000 and two records; the second CHARGE record carries 20,000, the new total. Charging is not idempotent |
| `LedgerInvariants.OverChargeAndNotEnough` | src/test/java/io/hhplus/tdd/integration/UserPointServiceIntegrationTests.java:153-171 | with 7,000 points, charging 993,001 throws OVER_CHARGE (600) and using 7,001 throws NOT_ENOUGH_VALANCE (602), each with nothing changed |

## Left out

- Real locking and thread interleaving are not modelled: `lock()`/`unlock()`, `ConcurrentHashMap` atomicity, and the concurrency tests. Each call is one atomic step. Under that reading, `usePoint`, which takes no lock, behaves like the other calls. Lost updates that could happen between a concurrent unlocked `usePoint` and a charge on the same id are not captured.
- HTTP and Spring plumbing is not modelled: `ResponseEntity`, MockMvc, logging, and the translation of a `CustomException` into an HTTP error body. A thrown error is passed on as the `Failure` response.
- The stub endpoints `point` and `history` in PointController.java are not modelled. They return fixed dummy values and call nothing.
- Timestamps are not modelled as a clock. `System.currentTimeMillis` becomes one opaque parameter per call, used for the empty record, the written record and the history record alike.
- The code of `UserPointTable` and `PointHistoryTable` is not part of this model. They are modelled by the behaviour the service relies on: a map read that defaults to the empty record, an overwrite, an append with ids 1, 2, 3, …, and a filter by user.
- History record ids are unbounded naturals. A wrap of the log's `long` cursor after 2^63 inserts is not modelled.
- The stale tests in TddApplicationTests.java and UserPointServiceTests.java are not modelled. Both call a two-argument service constructor that no longer exists. TddApplicationTests.java also expects the service itself to throw ZERO_POINT / LIMIT_ONETIME_CHARGE_AMOUNT for charges of 0 and 100,001, which it never does.
- The first half of the exception test in PointControllerIntegrationTests.java:172-177 is not modelled. It sends a charge of 993,001 and expects a server error from OVER_CHARGE, but the controller answers Bad Request before the service runs, because 993,001 is above the per-charge limit (`BoundaryInputs`).
- `ZERO_POINT` and `LIMIT_ONETIME_CHARGE_AMOUNT` are modelled as table entries only. No code path throws them; the controller answers Bad Request instead.
