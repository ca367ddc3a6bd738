/**
 * Client code: the repository's usage examples and tests, written against
 * the specifications of `Tracking` alone.
 */
module Scenarios {
  import opened CallRecords
  import opened Checks
  import opened Tracking

  /** A single `String` argument is boxed as the bare `String`, not as a one-element tuple. */
  function Text(s: string): Payload
  {
    Payload("String", Str(s))
  }

  function NoValue(): Payload
  {
    Payload("()", Unit)
  }

  /**
   * A tracked free function called once with "TEST" that returned "test":
   * `was_called_once().with("TEST").and_returned("test")` holds.
   */
  method TrackedFunction() returns (outcome: Outcome)
    ensures outcome == Done
  {
    var tracker := new Tracker();
    tracker.LogCall("tracked_fn", CallInfo(Some(Text("TEST")), Some(Text("test"))));
    var a := tracker.AssertThat("tracked_fn");
    outcome := CheckCalledOnceWith(a, Text("TEST"), Text("test"));
  }

  /**
   * A tracked struct with one tracked and one untracked method. Its
   * constructor is excluded from the struct's own tracker but carries its own
   * tracking attribute that logs into a second, global tracker. After one
   * call of each: on the struct's tracker the constructor and the untracked
   * method assert as not called, and the tracked method as called once with
   * "test", returning `()`; on the global tracker the constructor asserts as
   * called once.
   */
  method TrackedStruct() returns (constructorCalls: Outcome, methodCall: Outcome, untrackedCalls: Outcome,
                                  globalConstructorCall: bool)
    ensures constructorCalls == Done && methodCall == Done && untrackedCalls == Done
    ensures globalConstructorCall
  {
    var global := new Tracker();
    var tracker := new Tracker();
    // The constructor's argument (a tracker handle) and its result lie outside the value universe.
    global.LogCall("TrackedStruct::new", CallInfo(Some(Payload("(Arc<Tracker>,)", Unit)), Some(Payload("TrackedStruct", Unit))));
    tracker.LogCall("TrackedStruct::tracked_method", CallInfo(Some(Text("test")), Some(NoValue())));
    var a := tracker.AssertThat("TrackedStruct::new");
    constructorCalls := a.WasntCalled();
    a := tracker.AssertThat("TrackedStruct::tracked_method");
    methodCall := CheckCalledOnceWith(a, Text("test"), NoValue());
    a := tracker.AssertThat("TrackedStruct::untracked_method");
    untrackedCalls := a.WasntCalled();
    var g := global.AssertThat("TrackedStruct::new");
    globalConstructorCall := g.WasCalledOnce().Ok?;
  }

  /**
   * The chain `was_called_once().with(args).and_returned(value)`: it
   * completes exactly when one call was logged and that call carries exactly
   * these argument and return payloads.
   */
  method CheckCalledOnceWith(a: Assertion, args: Payload, value: Payload) returns (outcome: Outcome)
    ensures outcome == Done <==>
      |a.item.calls| == 1 && a.item.calls[0].arguments == Some(args) && a.item.calls[0].returned == Some(value)
  {
    var m :- a.WasCalledOnce();
    m :- m.With(args);
    outcome := m.AndReturned(value);
  }

  /**
   * A method called once with "Test": `with` naming another string fails
   * with "no match", and `with` naming a `&str` instead of the `String` the
   * call logged fails as a type mismatch; both failures name the key.
   */
  method WrongExpectations() returns (otherValue: Outcome, otherType: Outcome)
    ensures otherValue == Panicked(Panic("Tracked::tracked_method", NoMatch))
    ensures otherType == Panicked(Panic("Tracked::tracked_method", TypeMismatch))
  {
    var tracker := new Tracker();
    tracker.LogCall("Tracked::tracked_method", CallInfo(Some(Text("Test")), Some(NoValue())));
    var a := tracker.AssertThat("Tracked::tracked_method");
    var m := a.WasCalledOnce().value;
    var r := m.With(Text("Other"));
    otherValue := if r.Ok? then Done else Panicked(r.panic);
    r := m.With(Payload("&str", Str("Test")));
    otherType := if r.Ok? then Done else Panicked(r.panic);
  }

  /**
   * A function of two arguments called three times with different
   * arguments: `was_called_times(3)` holds, `was_called_once` fails reporting
   * three calls, `was_called_times(0)` fails, and `with` finds the second
   * call's arguments after scanning past the first.
   */
  method ThreeCalls() returns (times: bool, once: Result<MetaAssertion>, zero: Result<MetaAssertion>, second: bool)
    ensures times && second
    ensures once == Err(Panic("update", CalledMoreThanOnce(3)))
    ensures zero == Err(Panic("update", CalledMore(0, 3)))
  {
    var tracker := new Tracker();
    var first := Payload("(String, String)", Tuple([Str("a"), Str("x")]));
    var args := Payload("(String, String)", Tuple([Str("b"), Str("y")]));
    var third := Payload("(String, String)", Tuple([Str("c"), Str("z")]));
    var calls := [CallInfo(Some(first), Some(NoValue())), CallInfo(Some(args), Some(NoValue())),
                  CallInfo(Some(third), Some(NoValue()))];
    tracker.LogCall("update", calls[0]);
    tracker.LogCall("update", calls[1]);
    tracker.LogCall("update", calls[2]);
    var a := tracker.AssertThat("update");
    assert a.item.calls == calls;
    assert first.value.elems[0] != args.value.elems[0];
    assert HitAt(calls, Arguments, args, 1);
    var m := a.WasCalledTimes(3);
    times := m.Ok?;
    once := a.WasCalledOnce();
    zero := a.WasCalledTimes(0);
    second := m.Ok? && m.value.With(args).Ok?;
  }

  /**
   * Sharing of logs: an assertion started on a logged key sees calls logged
   * after it was started; one started on a key before its first call does
   * not; `clear` makes every key assert as not called, while an assertion
   * started before it keeps seeing the calls it saw.
   */
  method SharedLogs() returns (seesLater: bool, unregistered: bool, cleared: bool, kept: bool)
    ensures seesLater && unregistered && cleared && kept
  {
    var tracker := new Tracker();
    var call := CallInfo(Some(NoValue()), Some(NoValue()));
    tracker.LogCall("early", call);
    var a := tracker.AssertThat("early");
    var u := tracker.AssertThat("late");
    tracker.LogCall("early", call);
    tracker.LogCall("late", call);
    seesLater := a.WasCalledTimes(2).Ok?;
    unregistered := u.WasntCalled().Done?;
    tracker.Clear();
    var b := tracker.AssertThat("early");
    cleared := b.WasntCalled().Done?;
    kept := a.WasCalledTimes(2).Ok?;
  }

  /**
   * A key that was never logged: `wasnt_called` holds, `was_called_once`
   * fails as "not called" naming the key, and `was_called_times(0)` fails
   * too, as "should have been called 0 times, but was not called".
   */
  method NeverLogged() returns (notCalled: Outcome, once: Result<MetaAssertion>, zero: Result<MetaAssertion>)
    ensures notCalled == Done
    ensures once == Err(Panic("save", NotCalled))
    ensures zero == Err(Panic("save", NotCalledTimes(0)))
  {
    var tracker := new Tracker();
    tracker.LogCall("load", CallInfo(None, None));
    var a := tracker.AssertThat("save");
    notCalled := a.WasntCalled();
    once := a.WasCalledOnce();
    zero := a.WasCalledTimes(0);
  }
}
