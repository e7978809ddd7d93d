# Fraud API: risk tiers, transaction records and the OTP challenge

A Dafny model of the request-handling logic of the fraud-detection service
in `fraud-api/app.py`. The service scores a transaction with a classifier,
puts the probability in a risk tier (LOW, MEDIUM, HIGH), and stores a
record in its `transactions` collection. There are two flows that create
records:

- the check flow stores the record as OPEN (HIGH) or CLEARED;
- the initiate flow approves a LOW transaction at once and otherwise
  stores it as OTP_PENDING with a six-digit one-time passcode.

A later `verify_otp` call then runs a three-attempt challenge against the
stored code.

Modules, one per part of the handler code:

- `Risk` (`risk.dfy`): the tiers and `Classify`, the `if/elif/else` on the
  probability.
- `Records` (`records.dfy`): statuses, the record, the store invariant
  `ValidStore`, and the records the two flows create (`CheckRecord`,
  `InitiateRecord`). The `otp` and `attempts` fields are one optional
  `Challenge`, because the source writes both or neither.
- `OtpVerification` (`verification.dfy`): `verify_otp` as functions on one
  record (`VerifyRecord`) and on the store (`Verify`), a series of
  submissions (`VerifyAll`), and the lemmas about them.
- `FraudApi` (`fraud_api.dfy`): the class `TransactionStore`. Its field
  `records: map<Id, Record>` is the collection. Its methods are the three
  handlers that write to it, and each is tied to the functions above.
  `HighRiskThreeStrikes` is a client of the class that runs the
  end-to-end scenario.

Inputs that the source gets from outside become parameters:

- the classifier's probability is a `real` in [0, 1];
- the store-generated id is an `Id` not yet in the store;
- `random.randint(100000, 999999)` is a `code` in that range.

The probability is read as the decimal value it prints as, and the two
thresholds are the reals 0.8 and 0.5, so no floating point is modelled.
(Under its exact binary value the double written `0.8` lies slightly above
the real 0.8; the model reads it as 0.8, which is MEDIUM, as the source's
`prob > 0.8` decides for that double.)
The attempt counter is a database field incremented by `$inc`. In
sequential use it never exceeds 3 (`ValidStore`, kept by `VerifyAll`), so
its width never matters; the model uses unbounded integers.

Identifiers are an abstract type with equality only.

## Model

| member | source | states |
|---|---|---|
| `Risk.Classify` | fraud-api/app.py:45-50 | HIGH exactly when p > 0.8, MEDIUM exactly when 0.5 < p <= 0.8, LOW exactly when p <= 0.5 (total, both directions) |
| `Risk.ClassifyBoundaries` | fraud-api/app.py:87-92 | the thresholds are strict: 0.8 is MEDIUM, 0.5 is LOW, 0 is LOW, 1 is HIGH |
| `Risk.ClassifyMonotone` | fraud-api/app.py:45-50 | a larger probability never gets a less risky tier |
| `Records.CheckRecord` | fraud-api/app.py:53-59 | the check-flow record keeps the transaction and probability, has no challenge, is OPEN exactly when p > 0.8 and CLEARED otherwise, and satisfies the store invariant |
| `Records.InitiateRecord` | fraud-api/app.py:94-117 | a LOW record is APPROVED with no otp/attempts; any other is OTP_PENDING with the given code and 0 attempts; both satisfy the store invariant |
| `OtpVerification.VerifyRecord` | fraud-api/app.py:136-155 | a non-pending record is reported verbatim and unchanged; blocking happens exactly when a pending record has used 3 attempts, whatever the code; a wrong-code reply happens exactly on a pending record with attempts left and a different code, adds one attempt, keeps it pending and reports 3 - new attempts >= 0; approval needs the stored code, and the stored code with attempts left approves; only status or attempts change; status only moves from pending to APPROVED or BLOCKED |
| `OtpVerification.Verify` | fraud-api/app.py:127-155 | an unknown id replies NOT_FOUND and leaves the store unchanged; otherwise only that id's record changes, as `VerifyRecord` says; the store invariant is kept |
| `OtpVerification.VerifyAll` | fraud-api/app.py:139-148 | any series of verifications keeps the store invariant, so attempts never exceed 3, and touches no other record |
| `OtpVerification.BlockedWhateverCode` | fraud-api/app.py:139-141 | a pending record with attempts >= 3 becomes BLOCKED with only its status changed, for every submitted code |
| `OtpVerification.CorrectCodeApproves` | fraud-api/app.py:150-155 | the stored code with attempts left makes the record APPROVED, only its status changed |
| `OtpVerification.WrongCodeStep` | fraud-api/app.py:143-148 | a wrong code with attempts left keeps the record pending and its code, adds exactly one attempt and reports the attempts left |
| `OtpVerification.NotPendingIsStable` | fraud-api/app.py:136-137 | once a record is not pending, any number of verifications leave the store unchanged and report that status each time (no terminal record returns to pending) |
| `OtpVerification.WrongRepliesAreCounted` | fraud-api/app.py:143-148 | over any series, the number of wrong-code replies equals the growth of the stored attempt counter |
| `OtpVerification.AtMostThreeWrongGuesses` | fraud-api/app.py:139-148 | over any series, a challenged record gives at most 3 - attempts wrong-code replies |
| `OtpVerification.ThreeStrikes` | fraud-api/app.py:139-148 | from a fresh challenge, three wrong codes reply with 2, 1, 0 attempts left and the fourth call, any code, replies BLOCKED and stores BLOCKED |
| `FraudApi.TransactionStore.constructor` | fraud-api/app.py:25-27 | the collection starts empty and satisfies the store invariant |
| `FraudApi.TransactionStore.CheckTransaction` | fraud-api/app.py:35-64 | stores `CheckRecord` under the fresh id, changes nothing else, keeps the invariant, and replies with the probability and its tier |
| `FraudApi.TransactionStore.InitiateTransaction` | fraud-api/app.py:78-124 | stores `InitiateRecord` under the fresh id, changes nothing else, and replies APPROVED exactly for LOW; otherwise replies OTP_REQUIRED with the tier, the id and the code |
| `FraudApi.TransactionStore.VerifyOtp` | fraud-api/app.py:126-155 | the new store and reply are `Verify`'s; for each of the five ordered cases the reply and the new map are given (NOT_FOUND, verbatim status, BLOCKED, WRONG_OTP with attempts left, APPROVED) |
| `FraudApi.HighRiskThreeStrikes` | fraud-api/app.py:87-148 | through the handlers: probability 0.95 gives OTP_REQUIRED with tier HIGH; three wrong codes then any code reply 2, 1, 0 attempts left and then BLOCKED |

## Left out

- HTTP routing, the FastAPI decorators and the permissive CORS middleware (fraud-api/app.py:11-18): transport plumbing with no logic.
- Loading the model and scaler, building the feature frame, scaling `Amount` and `Time`, and `predict_proba` (fraud-api/app.py:21-22, 38-43, 80-85): foreign library calls with floating-point numerics. The probability is an input instead.
- The MongoDB driver (fraud-api/app.py:25-27): `insert_one`, `find_one` and `update_one` with `$set`/`$inc` are map updates. `ObjectId` generation is a fresh-id parameter.
- Parsing the submitted id string with `ObjectId(txn_id)` (fraud-api/app.py:131): the model takes an already-parsed identifier, so a malformed string (which raises, uncaught, in the source) has no counterpart, and two spellings of one id (hex case) are the same identifier.
- `random.randint` (fraud-api/app.py:105): nondeterministic. The code is a parameter in [100000, 999999].
- The `timestamp` field (fraud-api/app.py:57, 100, 114): wall-clock input.
- The `try/except` in the check flow that turns any exception into `{"error": ...}` with no record written (fraud-api/app.py:66-67). The only exceptions come from the scorer and the driver, which are not modelled. The matching uncaught failure in the initiate flow is left out too.
- The `int(data.get("otp"))` conversion failure in `verify_otp` (fraud-api/app.py:129): a Python runtime error on malformed input.
- The read endpoints `/transactions` and `/fraud-cases` (fraud-api/app.py:68-76): projections and filters of the collection with no logic of their own.
- The `otp_sessions` collection (fraud-api/app.py:77): never read or written.
- The unsynchronised read-modify-write on `attempts` between concurrent `verify_otp` calls: only the sequential semantics is modelled.
- `OtpVerification.VerifyRecord` requires the record to satisfy the store invariant, so a pending record always has its `otp` and `attempts`. In the source such a record could only come from another writer of the collection, and `txn["otp"]` would then raise. That case is not modelled.
