# racetrack call tracker, modelled in Dafny

racetrack is a Rust test-instrumentation library. A `Tracker` records every
call of a tracked function or method under a string key: one `CallInfo` per
call, holding the boxed arguments and return value. Test code then starts an
assertion chain with `assert_that(key)`. A cardinality check comes first
(`was_called_once`, `was_called_times(n)`, `wasnt_called`). Payload checks
can follow it (`with`, `not_with`, `and_returned`). A failing check panics
with a message naming the key.

This project models the runtime in `racetrack/src/tracker.rs`:

- `call_records.dfy` (module `CallRecords`): the payloads. A `Box<dyn Any>` is
  a `Payload(tag, value)`, where the tag names the type the value was boxed
  at. `Recover` models `as_ref().expect(..)` followed by
  `downcast_ref::<T>().expect(..)`. It succeeds only when the record carries
  the payload and the tag asked for is the tag stored.
- `checks.dfy` (module `Checks`): every check as a pure function of the log it
  reads. Each check returns `Pass` or `Fail(reason)`, with one reason per
  distinct panic of the original. `Scan` models `iter().any(..)` with the
  payload-check closure. It visits the records in order and can panic on a
  record without the payload or with a payload of another type. It stops at
  the first match.
- `registry.dfy` (module `Registry`): the tracker's map from key to log, as a
  value. `Lookup` is what `assert_that` sees. `Record` is the effect of
  `log_call`.
- `tracker.dfy` (module `Tracking`): `Tracker` and `CallLog` are classes. The
  registry is a `map<string, CallLog>` field, and each log object is shared
  the way the `Arc<RwLock<Vec<CallInfo>>>` is. `Assertion` and
  `MetaAssertion` hold a reference to that object and the key. So an
  assertion on a logged key sees calls logged after it was started. An
  assertion on an unknown key gets a fresh log that the tracker never
  registers. Panics are values: `Result`/`Outcome` carry
  `Panic(key, reason)`.
- `scenarios.dfy` (module `Scenarios`): the library's tests and usage
  examples, written as client methods against the specifications above.

Behaviour worth knowing:

- `was_called_times(0)` never passes (racetrack/src/tracker.rs:146-167). On an
  empty log it fails as "should have been called 0 times, but was not
  called". Otherwise it fails as "called more than 0 times". Use
  `wasnt_called` for zero calls.
- An assertion holds the key's live log (racetrack/src/tracker.rs:73-74), so
  calls logged after `assert_that` are visible to it. This holds only for keys
  already registered when `assert_that` ran. An unknown key gets a fresh log
  that is never registered (racetrack/src/tracker.rs:76).
- `with`/`and_returned` fail on the first scanned record that has no payload
  or a payload of another type, even if a later record would match
  (racetrack/src/tracker.rs:205-215). Records after the first match are never
  inspected.

## Model

| member | source | states |
|---|---|---|
| `CallRecords.Recover` | racetrack/src/tracker.rs:206-213 | Recovery fails as missing exactly when the record has no such payload. It succeeds exactly when the stored type is the type asked for, and then gives back the boxed value unchanged. |
| `Checks.CalledOnce` | racetrack/src/tracker.rs:123-139 | Passes iff the log holds exactly one call. Fails as "not called" iff the log is empty, and as "called more than once" with the count otherwise. |
| `Checks.CalledTimes` | racetrack/src/tracker.rs:143-173 | Passes iff the log length equals n and n is not 0. Failures come in source order: not called, fewer than n, more than n, each with the expected and actual counts. For n = 1 it agrees with `was_called_once`. |
| `Checks.NotCalledCheck` | racetrack/src/tracker.rs:176-184 | Passes iff the log is empty, which is exactly when `was_called_times(len)` fails. Otherwise it reports the number of calls. |
| `Checks.Scan` | racetrack/src/tracker.rs:205-215 | An in-order scan. A `Found(i)` result means record i is the first match and every earlier record recovered and differed. `Exhausted` is returned iff every record recovered and none matched. `Aborted(i)` means record i is the first record that cannot be recovered, and the reason is missing payload or wrong type accordingly. |
| `Checks.CalledWith` | racetrack/src/tracker.rs:200-221 | `with` / `and_returned`. Fails as "not called" iff the log is empty. Passes iff some record is the scan's first match. Fails as "no match" iff the log is non-empty and every record recovers without matching. A record the scan cannot recover fixes the failure reason. |
| `Checks.NotCalledWith` | racetrack/src/tracker.rs:229-251 | `not_with` passes iff the log is empty or every argument payload recovers and differs. On a non-empty log it is the exact negation of `with`, and it fails in the same way on an unrecoverable record. |
| `Checks.ScanIgnoresLaterCalls` | racetrack/src/tracker.rs:205-215 | Appending records to a log does not change a scan that stopped at a match or at an unrecoverable record. |
| `Checks.LaterCallsKeepVerdict` | racetrack/src/tracker.rs:200-251 | On a shared, growing log, a passing `with`/`and_returned` keeps passing, and so does one that failed on an unrecoverable record. A failing `not_with` keeps failing. |
| `Checks.WellTypedChecks` | racetrack/src/tracker.rs:200-277 | When every record carries the payload at the expected type, `with`/`and_returned` pass iff some record's payload equals the expected one, and `not_with` passes iff none does. |
| `Registry.Record` | racetrack/src/tracker.rs:88-97 | `log_call` registers the key and appends the call at the end of its log. Every other key keeps its log. |
| `Registry.RecordAllAppends` | racetrack/src/tracker.rs:88-97 | Logging a sequence of calls under one key appends exactly that sequence, in order, to that key's log. No other key's log changes. |
| `Registry.CountsAfterCalls` | racetrack/src/tracker.rs:88-97 | Take a key with an empty log, and log N calls under it. Then `was_called_times(N)` passes iff N is not 0, `was_called_once` passes iff N = 1, and `wasnt_called` passes iff N = 0. |
| `Registry.RecordIsolatesKeys` | racetrack/src/tracker.rs:90-96 | Logging any calls under one key leaves every check on another key with the same verdict: `was_called_once`, `was_called_times(n)` for every n, `wasnt_called`, `with`/`and_returned` and `not_with` for every expected payload. |
| `Tracking.CallLog.constructor` | racetrack/src/tracker.rs:95 | A new log holds exactly the given calls. |
| `Tracking.CallLog.Push` | racetrack/src/tracker.rs:92-93 | Appends one call at the end in place and leaves the earlier calls unchanged. |
| `Tracking.Tracker.constructor` | racetrack/src/tracker.rs:60-64 | A new tracker has no keys. |
| `Tracking.Tracker.AssertThat` | racetrack/src/tracker.rs:70-79 | The assertion sees the key's logged calls, or none for an unknown key. A registered key yields the registry's own log object. An unknown key yields a fresh empty one. The tracker is unchanged. |
| `Tracking.Tracker.LogCall` | racetrack/src/tracker.rs:88-97 | The new registry is `Record(old registry, key, call)`. A registered key keeps its log object, so assertions that hold it see the call. A new key gets a fresh log. Each key's log stays distinct. |
| `Tracking.Tracker.Clear` | racetrack/src/tracker.rs:100-102 | Drops every key, so every key then asserts as not called. Logs already handed to assertions are not touched. |
| `Tracking.Assertion.WasCalledOnce` | racetrack/src/tracker.rs:123-139 | Continues iff the log holds one call, handing the same log and key to the payload checks. Otherwise it panics with the key and the `CalledOnce` reason. |
| `Tracking.Assertion.WasCalledTimes` | racetrack/src/tracker.rs:143-173 | Continues iff the log holds exactly n calls and n is not 0, with the same log and key. Otherwise it panics with the key and the `CalledTimes` reason. |
| `Tracking.Assertion.WasntCalled` | racetrack/src/tracker.rs:176-184 | Ends the chain. Passes iff the log is empty. Otherwise it panics with the key and the number of calls. |
| `Tracking.MetaAssertion.With` | racetrack/src/tracker.rs:200-221 | Continues, unchanged, iff some record is the scan's first match for the arguments. Otherwise it panics with the key and the `CalledWith` reason. |
| `Tracking.MetaAssertion.NotWith` | racetrack/src/tracker.rs:229-251 | Continues, unchanged, iff the log is empty or every argument payload recovers and differs. Otherwise it panics with the key and the `NotCalledWith` reason. |
| `Tracking.MetaAssertion.AndReturned` | racetrack/src/tracker.rs:259-277 | Ends the chain. Passes iff some record is the scan's first match over return payloads. Otherwise it panics with the key and the `CalledWith` reason. |
| `Scenarios.CheckCalledOnceWith` | racetrack-proc-macro/tests/track.rs:66-70 | The chain `was_called_once().with(a).and_returned(v)` completes iff exactly one call was logged and it carries exactly those argument and return payloads. |
| `Scenarios.TrackedFunction` | racetrack-proc-macro/tests/track.rs:46-54 | A function called once with "TEST" that returned "test" passes `was_called_once().with("TEST").and_returned("test")`. |
| `Scenarios.TrackedStruct` | racetrack-proc-macro/tests/track.rs:56-77 | The struct's constructor is excluded from the struct's own tracker but logs into a second, global tracker. There it asserts as called once, while on the struct's tracker it and the untracked method assert as not called. The tracked method asserts as called once with "test", returning `()`. |
| `Scenarios.WrongExpectations` | racetrack/src/tracker.rs:194-221 | `with` naming another value fails as "no match" for the key. `with` naming `&str` where a `String` was logged fails as a type mismatch. |
| `Scenarios.ThreeCalls` | racetrack/src/tracker.rs:143-173 | After three calls, `was_called_times(3)` passes and `was_called_once` fails reporting 3 calls. `was_called_times(0)` fails as "more than 0", and `with` finds the second call's arguments. |
| `Scenarios.SharedLogs` | racetrack/src/tracker.rs:70-102 | An assertion on a logged key sees later calls. One started before a key's first call does not. After `clear` every key asserts as not called, and older assertions keep their calls. |
| `Scenarios.NeverLogged` | racetrack/src/tracker.rs:123-184 | On a key never logged, `wasnt_called` passes and `was_called_once` fails as "not called". `was_called_times(0)` fails as well. |

## Left out

- Concurrency is not modelled. The `Mutex` around the map and the `RwLock` around each log are gone, and every operation is one sequential step. Only the sharing of each key's log object is kept.
- `print_debug` (console output) and the derived `Debug` formatting are not modelled.
- Panic message texts are reduced to a failure reason plus the key. One wording detail is therefore lost: `and_returned` reuses the arguments wording for a missing or mistyped return payload.
- Rust's `Any`/`TypeId` machinery is reduced to a type-name tag. Values come from a small structural universe, and their equality stands in for `PartialEq`. Types whose equality is not reflexive, such as floating point, are not modelled.
- The procedural macros that rewrite tracked items into `log_call` calls (`racetrack-proc-macro/src/lib.rs`) and the crate's re-exports (`racetrack/src/lib.rs`) are not part of this model. The scenarios build the `CallInfo` values those macros would log.
- Reference counting and memory are not modelled. Dafny objects stand in for the `Arc`s, and `impl Into<String>` is taken as an already-converted string.
- The chain's consuming hand-off is not enforced. Rust's `Assertion` and `MetaAssertion` methods take `self` by value (racetrack/src/tracker.rs:123, 143, 176, 200, 229, 259), so a spent assertion cannot be reused. Here they are plain values that a client may check more than once; each check still reads the log as it is at that moment.
