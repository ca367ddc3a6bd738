/**
 * The tracker's registry as a value: each key that has been logged maps to
 * the calls logged under it, in call order. `Tracking.Tracker` is specified
 * against this view.
 */
module Registry {
  import opened CallRecords
  import opened Checks

  type Logs = map<string, seq<CallInfo>>

  /** The calls an assertion on `key` sees: the key's log, or none for an unknown key. */
  function Lookup(m: Logs, key: string): seq<CallInfo>
  {
    if key in m then m[key] else []
  }

  /**
   * The effect of `log_call(key, info)`: the key is registered if it was not,
   * its log gains `info` at the end, and every other key keeps its log.
   */
  function Record(m: Logs, key: string, info: CallInfo): (r: Logs)
    ensures r.Keys == m.Keys + {key}
    ensures Lookup(r, key) == Lookup(m, key) + [info]
    ensures forall k :: k != key ==> Lookup(r, k) == Lookup(m, k)
  {
    m[key := Lookup(m, key) + [info]]
  }

  /** `log_call(key, infos[0])`, then `log_call(key, infos[1])`, and so on. */
  function RecordAll(m: Logs, key: string, infos: seq<CallInfo>): Logs
    decreases |infos|
  {
    if infos == [] then m else RecordAll(Record(m, key, infos[0]), key, infos[1..])
  }

  /**
   * Logging a sequence of calls under one key appends exactly those calls, in
   * order, to that key's log and to no other.
   */
  lemma {:induction false} RecordAllAppends(m: Logs, key: string, infos: seq<CallInfo>)
    decreases |infos|
    ensures Lookup(RecordAll(m, key, infos), key) == Lookup(m, key) + infos
    ensures forall k :: k != key ==> Lookup(RecordAll(m, key, infos), k) == Lookup(m, k)
    ensures RecordAll(m, key, infos).Keys == if infos == [] then m.Keys else m.Keys + {key}
  {
    if infos != [] {
      var m' := Record(m, key, infos[0]);
      RecordAllAppends(m', key, infos[1..]);
      assert Lookup(m, key) + infos == Lookup(m', key) + infos[1..];
    }
  }

  /**
   * After N calls are logged under a key whose log was empty (never logged,
   * or cleared), `was_called_times(N)` passes exactly when N is not zero,
   * `was_called_once` passes exactly when N is one, and `wasnt_called` passes
   * exactly when N is zero.
   */
  lemma CountsAfterCalls(m: Logs, key: string, infos: seq<CallInfo>)
    requires Lookup(m, key) == []
    ensures CalledTimes(Lookup(RecordAll(m, key, infos), key), |infos|).Pass? <==> |infos| != 0
    ensures CalledOnce(Lookup(RecordAll(m, key, infos), key)).Pass? <==> |infos| == 1
    ensures NotCalledCheck(Lookup(RecordAll(m, key, infos), key)).Pass? <==> |infos| == 0
  {
    RecordAllAppends(m, key, infos);
  }

  /** Logging under one key never changes the verdict of any check on another key. */
  lemma RecordIsolatesKeys(m: Logs, key: string, infos: seq<CallInfo>, other: string)
    requires other != key
    ensures CalledOnce(Lookup(RecordAll(m, key, infos), other)) == CalledOnce(Lookup(m, other))
    ensures forall n: nat ::
      CalledTimes(Lookup(RecordAll(m, key, infos), other), n) == CalledTimes(Lookup(m, other), n)
    ensures NotCalledCheck(Lookup(RecordAll(m, key, infos), other)) == NotCalledCheck(Lookup(m, other))
    ensures forall slot: Slot, e: Payload ::
      CalledWith(Lookup(RecordAll(m, key, infos), other), slot, e) == CalledWith(Lookup(m, other), slot, e)
    ensures forall e: Payload ::
      NotCalledWith(Lookup(RecordAll(m, key, infos), other), e) == NotCalledWith(Lookup(m, other), e)
  {
    RecordAllAppends(m, key, infos);
  }
}
