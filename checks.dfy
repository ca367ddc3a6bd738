/**
 * The assertion checks, as pure functions of the call log a check reads.
 *
 * Each check either passes or fails with the reason the original panics
 * with. Cardinality checks compare the log's length; payload checks scan the
 * log in order, recovering one payload per record, and stop at the first
 * record that matches or that cannot be recovered.
 */
module Checks {
  import opened CallRecords

  /** Why a check fails; one case per distinct panic of the original. */
  datatype Failure =
    | NotCalled                                // no call at all
    | NotCalledTimes(expected: nat)            // no call at all, where n calls were expected
    | CalledMoreThanOnce(actual: nat)          // several calls, where one was expected
    | CalledFewer(expected: nat, actual: nat)  // some calls, but fewer than expected
    | CalledMore(expected: nat, actual: nat)   // more calls than expected
    | CalledUnexpectedly(actual: nat)          // calls, where none were expected
    | MissingPayload                           // no payload was logged for a scanned call
    | TypeMismatch                             // a scanned payload has another type
    | NoMatch                                  // no call carried the expected payload
    | UnwantedMatch                            // a call carried a payload it must not have

  datatype Verdict = Pass | Fail(failure: Failure)

  // ---------------------------------------------------------------------------
  // Cardinality checks

  /** `was_called_once`: exactly one call; "not called" is told apart from "too many". */
  function CalledOnce(calls: seq<CallInfo>): (r: Verdict)
    ensures r.Pass? <==> |calls| == 1
    ensures r == Fail(NotCalled) <==> |calls| == 0
    ensures |calls| > 1 ==> r == Fail(CalledMoreThanOnce(|calls|))
  {
    if |calls| == 0 then Fail(NotCalled)
    else if |calls| != 1 then Fail(CalledMoreThanOnce(|calls|))
    else Pass
  }

  /**
   * `was_called_times(n)`: exactly `n` calls, and at least one. The failures
   * are tried in the original's order: none at all, fewer, more. So
   * `CalledTimes(calls, 0)` never passes.
   */
  function CalledTimes(calls: seq<CallInfo>, n: nat): (r: Verdict)
    ensures r.Pass? <==> |calls| == n && n != 0
    ensures |calls| == 0 ==> r == Fail(NotCalledTimes(n))
    ensures 0 < |calls| < n ==> r == Fail(CalledFewer(n, |calls|))
    ensures 0 < |calls| && n < |calls| ==> r == Fail(CalledMore(n, |calls|))
    ensures n == 1 ==> (r.Pass? <==> CalledOnce(calls).Pass?)
  {
    if |calls| == 0 then Fail(NotCalledTimes(n))
    else if |calls| < n then Fail(CalledFewer(n, |calls|))
    else if |calls| != n then Fail(CalledMore(n, |calls|))
    else Pass
  }

  /** `wasnt_called`: the log is empty; otherwise the failure reports the count. */
  function NotCalledCheck(calls: seq<CallInfo>): (r: Verdict)
    ensures r.Pass? <==> |calls| == 0
    ensures r.Pass? <==> CalledTimes(calls, |calls|).Fail?
    ensures r.Fail? ==> r.failure == CalledUnexpectedly(|calls|)
  {
    if |calls| == 0 then Pass else Fail(CalledUnexpectedly(|calls|))
  }

  // ---------------------------------------------------------------------------
  // The in-order payload scan shared by `with`, `not_with` and `and_returned`

  /** The scanned record's payload recovers at the expected type and differs from it. */
  ghost predicate ScansPast(c: CallInfo, slot: Slot, expected: Payload)
  {
    Select(c, slot).Some? && Select(c, slot).value.tag == expected.tag
    && Select(c, slot).value.value != expected.value
  }

  /** The scanned record's payload recovers at the expected type and equals it. */
  ghost predicate Hits(c: CallInfo, slot: Slot, expected: Payload)
  {
    Select(c, slot) == Some(expected)
  }

  /** The first `n` records are scanned past: each recovers and none matches. */
  ghost predicate Clean(calls: seq<CallInfo>, slot: Slot, expected: Payload, n: nat)
    requires n <= |calls|
  {
    forall j :: 0 <= j < n ==> ScansPast(calls[j], slot, expected)
  }

  /** Record `i` is the first match of the scan. */
  ghost predicate HitAt(calls: seq<CallInfo>, slot: Slot, expected: Payload, i: nat)
  {
    i < |calls| && Hits(calls[i], slot, expected) && Clean(calls, slot, expected, i)
  }

  /** The scan reaches record `i` and cannot recover its payload. */
  ghost predicate AbortAt(calls: seq<CallInfo>, slot: Slot, expected: Payload, i: nat)
  {
    i < |calls| && !ScansPast(calls[i], slot, expected) && !Hits(calls[i], slot, expected)
    && Clean(calls, slot, expected, i)
  }

  /** How a scan ends: at a match, past the last record, or at a record it cannot recover. */
  datatype ScanResult = Found(at: nat) | Exhausted | Aborted(at: nat, failure: Failure)

  function Shift(r: ScanResult): ScanResult
  {
    match r
    case Found(i) => Found(i + 1)
    case Exhausted => Exhausted
    case Aborted(i, f) => Aborted(i + 1, f)
  }

  /**
   * `iter().any(...)` over the log with the closure of the payload checks:
   * records are visited in order, each must carry the payload (else
   * MissingPayload) at the expected type (else TypeMismatch), and the scan
   * stops at the first record whose payload equals the expected one. Records
   * after the stopping point are never inspected.
   */
  function Scan(calls: seq<CallInfo>, slot: Slot, expected: Payload): (r: ScanResult)
    ensures r.Found? ==> HitAt(calls, slot, expected, r.at)
    ensures r.Exhausted? <==> Clean(calls, slot, expected, |calls|)
    ensures r.Aborted? ==> AbortAt(calls, slot, expected, r.at)
    ensures r.Aborted? ==>
      r.failure == (if Select(calls[r.at], slot).None? then MissingPayload else TypeMismatch)
  {
    if calls == [] then Exhausted
    else
      match Recover(calls[0], slot, expected.tag)
      case Missing => Aborted(0, MissingPayload)
      case WrongType => Aborted(0, TypeMismatch)
      case Recovered(v) =>
        if v == expected.value then Found(0)
        else
          Shift(Scan(calls[1..], slot, expected))
  }

  // ---------------------------------------------------------------------------
  // Payload checks

  /**
   * `with(args)` (slot Arguments) and `and_returned(value)` (slot Returned):
   * an empty log fails as "not called"; otherwise the check passes exactly
   * when the scan meets a matching record before any record it cannot
   * recover, fails with the recovery failure of the first unrecoverable
   * record reached, and fails as "no match" when every record recovers and
   * none matches.
   */
  function CalledWith(calls: seq<CallInfo>, slot: Slot, expected: Payload): (r: Verdict)
    ensures r == Fail(NotCalled) <==> calls == []
    ensures r.Pass? <==> exists i: nat :: HitAt(calls, slot, expected, i)
    ensures r == Fail(NoMatch) <==> calls != [] && Clean(calls, slot, expected, |calls|)
    ensures forall i: nat :: AbortAt(calls, slot, expected, i) ==>
      r == Fail(if Select(calls[i], slot).None? then MissingPayload else TypeMismatch)
  {
    if |calls| == 0 then Fail(NotCalled)
    else
      match Scan(calls, slot, expected)
      case Found(_) => Pass
      case Exhausted => Fail(NoMatch)
      case Aborted(_, f) => Fail(f)
  }

  /**
   * `not_with(args)`: passes on an empty log without scanning; otherwise it
   * is the negation of `with(args)` over the same scan: it fails exactly
   * when `with` would pass, passes exactly when `with` finds no match, and
   * fails in the same way on an unrecoverable record.
   */
  function NotCalledWith(calls: seq<CallInfo>, args: Payload): (r: Verdict)
    ensures r.Pass? <==> calls == [] || Clean(calls, Arguments, args, |calls|)
    ensures r == Fail(UnwantedMatch) <==> exists i: nat :: HitAt(calls, Arguments, args, i)
    ensures forall i: nat :: AbortAt(calls, Arguments, args, i) ==>
      r == Fail(if calls[i].arguments.None? then MissingPayload else TypeMismatch)
    ensures calls != [] ==>
      && (r.Pass? <==> CalledWith(calls, Arguments, args) == Fail(NoMatch))
      && (r == Fail(UnwantedMatch) <==> CalledWith(calls, Arguments, args).Pass?)
  {
    if |calls| == 0 then Pass
    else
      match Scan(calls, Arguments, args)
      case Found(_) => Fail(UnwantedMatch)
      case Exhausted => Pass
      case Aborted(_, f) => Fail(f)
  }

  /**
   * Records appended after a scan stopped do not change where it stops: the
   * scan never looks past its first match or first unrecoverable record.
   */
  lemma {:induction false} ScanIgnoresLaterCalls(calls: seq<CallInfo>, more: seq<CallInfo>, slot: Slot, expected: Payload)
    requires !Scan(calls, slot, expected).Exhausted?
    ensures Scan(calls + more, slot, expected) == Scan(calls, slot, expected)
  {
    assert calls != [];
    assert (calls + more)[0] == calls[0];
    match Recover(calls[0], slot, expected.tag)
    case Missing =>
    case WrongType =>
    case Recovered(v) =>
      if v != expected.value {
        assert (calls + more)[1..] == calls[1..] + more;
        ScanIgnoresLaterCalls(calls[1..], more, slot, expected);
      }
  }

  /**
   * A shared log only grows, so once `with`/`and_returned` has passed, or has
   * failed on an unrecoverable record, it gives the same verdict however many
   * calls are logged afterwards; likewise a `not_with` that failed keeps
   * failing.
   */
  lemma LaterCallsKeepVerdict(calls: seq<CallInfo>, more: seq<CallInfo>, slot: Slot, expected: Payload)
    ensures calls != [] && CalledWith(calls, slot, expected) != Fail(NoMatch) ==>
      CalledWith(calls + more, slot, expected) == CalledWith(calls, slot, expected)
    ensures NotCalledWith(calls, expected).Fail? ==>
      NotCalledWith(calls + more, expected) == NotCalledWith(calls, expected)
  {
    if calls != [] && !Scan(calls, slot, expected).Exhausted? {
      ScanIgnoresLaterCalls(calls, more, slot, expected);
    }
    if calls != [] && !Scan(calls, Arguments, expected).Exhausted? {
      ScanIgnoresLaterCalls(calls, more, Arguments, expected);
    }
  }

  /** Every record carries the payload in `slot`, boxed at type `tag`. */
  ghost predicate WellTyped(calls: seq<CallInfo>, slot: Slot, tag: TypeTag)
  {
    forall i :: 0 <= i < |calls| ==> Select(calls[i], slot).Some? && Select(calls[i], slot).value.tag == tag
  }

  /**
   * On a log whose payloads all have the expected type, the payload checks
   * are plain existentials: `with`/`and_returned` pass iff some record's
   * payload equals the expected one, and `not_with` passes iff none does.
   */
  lemma WellTypedChecks(calls: seq<CallInfo>, slot: Slot, expected: Payload)
    requires WellTyped(calls, slot, expected.tag)
    ensures CalledWith(calls, slot, expected).Pass? <==>
      exists i :: 0 <= i < |calls| && Select(calls[i], slot) == Some(expected)
    ensures slot == Arguments ==>
      (NotCalledWith(calls, expected).Pass? <==>
        forall i :: 0 <= i < |calls| ==> calls[i].arguments != Some(expected))
  {

  }
}
