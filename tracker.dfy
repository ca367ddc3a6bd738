/**
 * The tracker and its assertion chain.
 *
 * The tracker maps each key to a log object that it shares: an assertion
 * started on a logged key holds that very object, so calls logged after the
 * assertion was started are visible to it. An assertion on an unknown key
 * gets a fresh empty log that the tracker does not register.
 *
 * Panics are values here: a check returns `Ok`/`Done`, or the panic it would
 * raise, naming the key and the reason.
 */
module Tracking {
  import opened CallRecords
  import opened Checks
  import Registry

  /** A failed assertion: the key it was about and why it failed. */
  datatype Panic = Panic(key: string, failure: Failure)

  /** The result of a check that continues the chain. */
  datatype Result<T> = Ok(value: T) | Err(panic: Panic) {
    predicate IsFailure() { Err? }

    function PropagateFailure(): Outcome
      requires Err?
    {
      Panicked(panic)
    }

    function Extract(): T
      requires Ok?
    {
      value
    }
  }

  /** The result of a check that ends the chain. */
  datatype Outcome = Done | Panicked(panic: Panic) {
    predicate IsFailure() { Panicked? }

    function PropagateFailure(): Outcome
      requires Panicked?
    {
      this
    }
  }

  function Continue<T>(v: Verdict, key: string, next: T): Result<T>
  {
    match v
    case Pass => Ok(next)
    case Fail(f) => Err(Panic(key, f))
  }

  function Finish(v: Verdict, key: string): Outcome
  {
    match v
    case Pass => Done
    case Fail(f) => Panicked(Panic(key, f))
  }

  /** One key's log of calls, in call order; shared between the tracker and assertions. */
  class CallLog {
    var calls: seq<CallInfo>

    constructor (initial: seq<CallInfo>)
      ensures calls == initial
    {
      calls := initial;
    }

    method Push(info: CallInfo)
      modifies this
      ensures calls == old(calls) + [info]
    {
      calls := calls + [info];
    }
  }

  class Tracker {
    var calls: map<string, CallLog>

    /** Each registered key has a log of its own. */
    ghost predicate Valid()
      reads this
    {
      forall k1, k2 :: k1 in calls && k2 in calls && k1 != k2 ==> calls[k1] != calls[k2]
    }

    /** The registry's contents as a value. */
    ghost function Logs(): Registry.Logs
      reads this, calls.Values
    {
      map k | k in calls :: calls[k].calls
    }

    /** `Tracker::new`: no key is registered. */
    constructor ()
      ensures Valid() && calls == map[] && Logs() == map[]
    {
      calls := map[];
    }

    /**
     * `assert_that(key)`: an assertion over the key's registered log, or
     * over a fresh, unregistered empty log when the key is unknown. The
     * tracker is left as it was.
     */
    method AssertThat(key: string) returns (a: Assertion)
      requires Valid()
      ensures a.key == key
      ensures a.item.calls == Registry.Lookup(Logs(), key)
      ensures key in calls ==> a.item == calls[key]
      ensures key !in calls ==> fresh(a.item) && a.item.calls == []
    {
      var item: CallLog;
      if key in calls {
        item := calls[key];
      } else {
        item := new CallLog([]);
      }
      a := Assertion(item, key);
    }

    /**
     * `log_call(key, info)`: appends `info` to the key's registered log in
     * place, or registers a fresh log holding just `info`. No other key's log
     * changes, and a key already registered keeps the same log object, so
     * assertions holding it see the new call.
     */
    method LogCall(key: string, info: CallInfo)
      requires Valid()
      modifies this, calls.Values
      ensures Valid()
      ensures Logs() == Registry.Record(old(Logs()), key, info)
      ensures key in old(calls) ==> calls == old(calls)
      ensures key !in old(calls) ==> calls == old(calls)[key := calls[key]] && fresh(calls[key])
    {
      if key in calls {
        var log := calls[key];
        log.Push(info);
        assert forall k :: k in calls && k != key ==> calls[k] != log;
        assert Logs() == old(Logs())[key := old(Logs())[key] + [info]];
      } else {
        assert Registry.Lookup(old(Logs()), key) + [info] == [info];
        var log := new CallLog([info]);
        calls := calls[key := log];
        assert Logs() == old(Logs())[key := [info]];
      }
    }

    /**
     * `clear`: every key is dropped, so every key now asserts as not called.
     * Logs already handed to assertions are not touched.
     */
    method Clear()
      requires Valid()
      modifies this
      ensures Valid() && calls == map[] && Logs() == map[]
      ensures forall k :: NotCalledCheck(Registry.Lookup(Logs(), k)).Pass?
    {
      calls := map[];
    }
  }

  /** The start of an assertion chain: cardinality checks over a key's log. */
  datatype Assertion = Assertion(item: CallLog, key: string) {

    /**
     * `was_called_once`: passes exactly when the log holds one call, and then
     * hands the same log and key on to the payload checks.
     */
    function WasCalledOnce(): (r: Result<MetaAssertion>)
      reads item
      ensures r.Ok? <==> |item.calls| == 1
      ensures r.Ok? ==> r.value == MetaAssertion(item, key)
      ensures r.Err? ==> r.panic == Panic(key, CalledOnce(item.calls).failure)
    {
      Continue(CalledOnce(item.calls), key, MetaAssertion(item, key))
    }

    /**
     * `was_called_times(n)`: passes exactly when the log holds `n` calls and
     * `n` is not zero, and then hands the same log and key on.
     */
    function WasCalledTimes(n: nat): (r: Result<MetaAssertion>)
      reads item
      ensures r.Ok? <==> |item.calls| == n && n != 0
      ensures r.Ok? ==> r.value == MetaAssertion(item, key)
      ensures r.Err? ==> r.panic == Panic(key, CalledTimes(item.calls, n).failure)
    {
      Continue(CalledTimes(item.calls, n), key, MetaAssertion(item, key))
    }

    /** `wasnt_called`: ends the chain; passes exactly when the log is empty. */
    function WasntCalled(): (r: Outcome)
      reads item
      ensures r.Done? <==> item.calls == []
      ensures r.Panicked? ==> r.panic == Panic(key, CalledUnexpectedly(|item.calls|))
    {
      Finish(NotCalledCheck(item.calls), key)
    }
  }

  /** The second stage of the chain: existential checks over the logged payloads. */
  datatype MetaAssertion = MetaAssertion(item: CallLog, key: string) {

    /**
     * `with(args)`: passes exactly when the in-order scan of argument
     * payloads meets `args` before any payload it cannot recover; the chain
     * continues with the same log and key.
     */
    function With(args: Payload): (r: Result<MetaAssertion>)
      reads item
      ensures r.Ok? <==> exists i: nat :: HitAt(item.calls, Arguments, args, i)
      ensures r.Ok? ==> r.value == this
      ensures r.Err? ==> r.panic == Panic(key, CalledWith(item.calls, Arguments, args).failure)
    {
      Continue(CalledWith(item.calls, Arguments, args), key, this)
    }

    /**
     * `not_with(args)`: passes exactly when the log is empty or every
     * argument payload recovers and differs from `args`; the chain continues
     * with the same log and key.
     */
    function NotWith(args: Payload): (r: Result<MetaAssertion>)
      reads item
      ensures r.Ok? <==> item.calls == [] || Clean(item.calls, Arguments, args, |item.calls|)
      ensures r.Ok? ==> r.value == this
      ensures r.Err? ==> r.panic == Panic(key, NotCalledWith(item.calls, args).failure)
    {
      Continue(NotCalledWith(item.calls, args), key, this)
    }

    /**
     * `and_returned(value)`: ends the chain; passes exactly when the in-order
     * scan of return payloads meets `value` before any payload it cannot
     * recover.
     */
    function AndReturned(value: Payload): (r: Outcome)
      reads item
      ensures r.Done? <==> exists i: nat :: HitAt(item.calls, Returned, value, i)
      ensures r.Panicked? ==> r.panic == Panic(key, CalledWith(item.calls, Returned, value).failure)
    {
      Finish(CalledWith(item.calls, Returned, value), key)
    }
  }
}
