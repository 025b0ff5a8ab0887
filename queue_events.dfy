/**
 * RegisterEvents of internal/adaper/meesagebroker/queue.go: every event
 * registers its consumer with the driver, one after the other, in argument
 * order.  The only event of the repository is the save-user handler.
 */
module QueueEvents {

  import opened Wrappers
  import opened Failures
  import opened MessageBroker
  import opened Event

  /** The (queue name, callback) pairs the events register, in order. */
  function Registrations(events: seq<SaveUser>): (pairs: seq<(string, Callback)>)
    ensures |pairs| == |events|
    ensures forall i :: 0 <= i < |events| ==> pairs[i] == (SaveUserName, MethodValue(events[i], "Consume"))
  {
    if events == [] then []
    else Registrations(events[..|events| - 1]) + [(SaveUserName, MethodValue(events[|events| - 1], "Consume"))]
  }

  /** The callbacks the events register, in order: each event's Consume. */
  function Callbacks(events: seq<SaveUser>): (callbacks: seq<Callback>)
    ensures |callbacks| == |events|
    ensures forall i :: 0 <= i < |events| ==> callbacks[i] == MethodValue(events[i], "Consume")
  {
    if events == [] then []
    else Callbacks(events[..|events| - 1]) + [MethodValue(events[|events| - 1], "Consume")]
  }

  /**
   * What registering the callbacks under `name` one after the other does on
   * connection conn, the broker answering from start on.
   */
  function RegistrationRun(name: string, callbacks: seq<Callback>, conn: nat, answer: nat -> Outcome, start: nat): Run
  {
    if callbacks == [] then Run([], 0, Ok)
    else
      var earlier := RegistrationRun(name, callbacks[..|callbacks| - 1], conn, answer, start);
      var setup := SetupRun(conn, name, callbacks[|callbacks| - 1], answer, start + earlier.used);
      Run(earlier.effects + setup.effects, earlier.used + setup.used, Ok)
  }

  /** Registering one more callback appends that consumer's setup. */
  lemma RegistrationRunExtends(name: string, callbacks: seq<Callback>, callback: Callback, conn: nat,
                               answer: nat -> Outcome, start: nat, before: Run, next: nat)
    requires before == RegistrationRun(name, callbacks, conn, answer, start)
    requires next == start + before.used
    ensures var setup := SetupRun(conn, name, callback, answer, next);
            RegistrationRun(name, callbacks + [callback], conn, answer, start) ==
              Run(before.effects + setup.effects, before.used + setup.used, Ok)
  {
    var extended := callbacks + [callback];
    assert extended != [] && extended[..|extended| - 1] == callbacks && extended[|extended| - 1] == callback;
  }

  /**
   * Every registration opens exactly one channel and its errors are only
   * logged, so registering n consumers opens n channels and reports no error.
   */
  lemma {:induction false} EveryRegistrationOpensOneChannel(name: string, callbacks: seq<Callback>, conn: nat,
                                                           answer: nat -> Outcome, start: nat)
    ensures var run := RegistrationRun(name, callbacks, conn, answer, start);
            multiset(run.effects)[OpenChannel(conn)] == |callbacks| && run.result == Ok
    decreases |callbacks|
  {
    if callbacks != [] {
      var earlier := callbacks[..|callbacks| - 1];
      var before := RegistrationRun(name, earlier, conn, answer, start);
      var setup := SetupRun(conn, name, callbacks[|callbacks| - 1], answer, start + before.used);
      var all := RegistrationRun(name, callbacks, conn, answer, start).effects;
      assert all == before.effects + setup.effects;
      EveryRegistrationOpensOneChannel(name, earlier, conn, answer, start);
      SetupOpensOneChannel(conn, name, callbacks[|callbacks| - 1], answer, start + before.used);
      assert multiset(all) == multiset(before.effects) + multiset(setup.effects);
    }
  }

  /**
   * RegisterEvents: calls Register once per event, in argument order, and
   * nothing at all when there are no events.  All events share the driver d.
   */
  method RegisterEvents(ghost d: RabbitMQ, events: seq<SaveUser>)
    requires forall i :: 0 <= i < |events| ==> events[i].queue.driver == d
    modifies d`consumers, d`log, d`ops, d`registrations
    ensures d.registrations == old(d.registrations) + Registrations(events)
    ensures var run := RegistrationRun(SaveUserName, Callbacks(events), d.conn, d.answer, old(d.ops));
            d.log == old(d.log) + run.effects && d.ops == old(d.ops) + run.used
    ensures d.consumers ==
              if events == [] then old(d.consumers)
              else old(d.consumers)[SaveUserName := MethodValue(events[|events| - 1], "Consume")]
  {
    ghost var callbacks, pairs := Callbacks(events), Registrations(events);
    ghost var consumers0, registrations0, log0, ops0 := d.consumers, d.registrations, d.log, d.ops;
    for i := 0 to |events|
      invariant d.registrations == registrations0 + pairs[..i]
      invariant d.log == log0 + RegistrationRun(SaveUserName, callbacks[..i], d.conn, d.answer, ops0).effects
      invariant d.ops == ops0 + RegistrationRun(SaveUserName, callbacks[..i], d.conn, d.answer, ops0).used
      invariant d.consumers == if i == 0 then consumers0 else consumers0[SaveUserName := callbacks[i - 1]]
    {
      ghost var logBefore, opsBefore, registrationsBefore := d.log, d.ops, d.registrations;
      ghost var before := RegistrationRun(SaveUserName, callbacks[..i], d.conn, d.answer, ops0);
      events[i].Register();
      RegistrationStep(SaveUserName, callbacks, i, d.conn, d.answer, ops0, before, log0, logBefore, d.log, opsBefore, d.ops);
      assert d.registrations == registrations0 + pairs[..i + 1] by {
        assert pairs[..i + 1] == pairs[..i] + [pairs[i]];
      }
      assert d.consumers == consumers0[SaveUserName := callbacks[i]] by {
        UpdateTwice(consumers0, SaveUserName, if i == 0 then None else Some(callbacks[i - 1]), callbacks[i]);
      }
    }
    assert callbacks[..|events|] == callbacks && pairs[..|events|] == pairs;
  }

  /** A second update of the same key overwrites the first. */
  lemma UpdateTwice(m: map<string, Callback>, k: string, first: Option<Callback>, second: Callback)
    ensures (if first.Some? then m[k := first.value] else m)[k := second] == m[k := second]
  {
  }

  /** One round of RegisterEvents: the setup of callbacks[i] extends the registrations of callbacks[..i] to callbacks[..i + 1]. */
  lemma RegistrationStep(name: string, callbacks: seq<Callback>, i: nat, conn: nat, answer: nat -> Outcome, start: nat,
                         before: Run, log0: seq<Effect>, logBefore: seq<Effect>, logAfter: seq<Effect>,
                         opsBefore: nat, opsAfter: nat)
    requires i < |callbacks|
    requires before == RegistrationRun(name, callbacks[..i], conn, answer, start)
    requires logBefore == log0 + before.effects && opsBefore == start + before.used
    requires var setup := SetupRun(conn, name, callbacks[i], answer, opsBefore);
             logAfter == logBefore + setup.effects && opsAfter == opsBefore + setup.used
    ensures logAfter == log0 + RegistrationRun(name, callbacks[..i + 1], conn, answer, start).effects
    ensures opsAfter == start + RegistrationRun(name, callbacks[..i + 1], conn, answer, start).used
  {
    var setup := SetupRun(conn, name, callbacks[i], answer, opsBefore);
    var after := RegistrationRun(name, callbacks[..i + 1], conn, answer, start);
    assert after == Run(before.effects + setup.effects, before.used + setup.used, Ok) by {
      assert callbacks[..i + 1] == callbacks[..i] + [callbacks[i]];
      RegistrationRunExtends(name, callbacks[..i], callbacks[i], conn, answer, start, before, opsBefore);
    }
    assert (log0 + before.effects) + setup.effects == log0 + (before.effects + setup.effects);
  }
}
