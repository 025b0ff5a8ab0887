/**
 * The RabbitMQ client of internal/adaper/meesagebroker: the `RabbitMQ`
 * driver (rabbitmq.go) and the `Queue` holder (queue.go).
 *
 * The broker is an oracle: the k-th operation issued on the connection or
 * one of its channels answers `answer(k)`, the k-th dial answers
 * `dialAnswer(k)`.  Every operation is recorded, with its arguments, in
 * `log`, so the contracts can say what was sent and in which order.
 */
module MessageBroker {

  import opened Wrappers
  import opened Failures
  import opened Domain
  import opened Json

  /** A Go method value such as `r.Consume`: a receiver and a method name. */
  datatype Callback = MethodValue(receiver: object, name: string)

  /** amqp.Publishing, with the one header the client sets (`x-delay`, in milliseconds). */
  datatype Publishing = Publishing(contentType: string, body: Bytes, xDelay: int, deliveryMode: nat)

  /** What the client does to the broker, with the arguments it passes. */
  datatype Effect =
    | Dial(url: string)
    | Slept(seconds: nat)
    | CloseConnection(conn: nat)
    | OpenChannel(conn: nat)
    | CloseChannel
    | ExchangeDeclare(exchange: string, kind: string, durable: bool, autoDelete: bool,
                      internal: bool, noWait: bool, delayedType: string)
    | QueueDeclare(queue: string, durable: bool, autoDelete: bool, exclusive: bool, noWait: bool)
    | QueueBind(queue: string, key: string, exchange: string, noWait: bool)
    | Publish(exchange: string, key: string, mandatory: bool, immediate: bool, msg: Publishing)
    | Consume(queue: string, consumer: string, autoAck: bool, exclusive: bool, noLocal: bool, noWait: bool)
    | ReceiveLoopStarted(queue: string, callback: Callback)

  const DelayedExchange := "delayed_exchange"
  const DelayedMessageKind := "x-delayed-message"
  const PlainText := "text/plain"
  /** amqp.Persistent */
  const Persistent: nat := 2
  /** handleReconnect sleeps 5 seconds before every dial. */
  const ReconnectDelaySeconds: nat := 5

  /** The effects of a sequence of broker operations, how many answers they used, and the error returned. */
  datatype Run = Run(effects: seq<Effect>, used: nat, result: Outcome)

  /**
   * A chain of broker operations that stops at the first failure and
   * returns its error; the i-th step is answered by answer(start + i).
   */
  function Chain(steps: seq<Effect>, answer: nat -> Outcome, start: nat): (r: Run)
    ensures r.used <= |steps|
    decreases |steps|
  {
    if steps == [] then Run([], 0, Ok)
    else if answer(start).Failed? then Run([steps[0]], 1, answer(start))
    else
      var rest := Chain(steps[1..], answer, start + 1);
      Run([steps[0]] + rest.effects, rest.used + 1, rest.result)
  }

  /**
   * A chain issues its steps in order, stops at the first failing one and
   * returns that step's error; it succeeds exactly when every step does.
   */
  lemma {:induction false} ChainStopsAtFirstFailure(steps: seq<Effect>, answer: nat -> Outcome, start: nat)
    ensures var r := Chain(steps, answer, start);
            && r.effects == steps[..r.used]
            && (0 < |steps| ==> 0 < r.used)
            && (r.result.Ok? <==> r.used == |steps| && forall j :: start <= j < start + |steps| ==> answer(j).Ok?)
            && (r.result.Failed? ==>
                  && r.result == answer(start + r.used - 1)
                  && forall j :: start <= j < start + r.used - 1 ==> answer(j).Ok?)
    decreases |steps|
  {
    if steps != [] && answer(start).Ok? {
      ChainStopsAtFirstFailure(steps[1..], answer, start + 1);
      var rest := Chain(steps[1..], answer, start + 1);
      assert steps[..rest.used + 1] == [steps[0]] + steps[1..][..rest.used];
    }
  }

  /** The number of steps a chain attempts: those that succeed before the first failure, and that one. */
  lemma {:induction false} ChainAttempts(steps: seq<Effect>, answer: nat -> Outcome, start: nat)
    ensures var n := SucceedingPrefix(answer, start, |steps|);
            Chain(steps, answer, start).used == if n < |steps| then n + 1 else n
    decreases |steps|
  {
    if steps != [] && answer(start).Ok? {
      ChainAttempts(steps[1..], answer, start + 1);
    }
  }

  /** A chain's result is the answer to the first failing step, or Ok when none fails. */
  lemma {:induction false} ChainReturnsFirstError(steps: seq<Effect>, answer: nat -> Outcome, start: nat)
    ensures var n := SucceedingPrefix(answer, start, |steps|);
            Chain(steps, answer, start).result == if n < |steps| then answer(start + n) else Ok
    decreases |steps|
  {
    if steps != [] && answer(start).Ok? {
      ChainReturnsFirstError(steps[1..], answer, start + 1);
      assert SucceedingPrefix(answer, start, |steps|) == 1 + SucceedingPrefix(answer, start + 1, |steps| - 1);
      assert Chain(steps, answer, start).result == Chain(steps[1..], answer, start + 1).result;
    }
  }

  /** The four operations Produce issues on its channel, in order. */
  function ProduceSteps(name: string, body: Bytes, delaySeconds: int): seq<Effect>
  {
    [ ExchangeDeclare(DelayedExchange, DelayedMessageKind, true, false, false, false, "direct"),
      QueueDeclare(name, true, false, false, false),
      QueueBind(name, name, DelayedExchange, false),
      Publish(DelayedExchange, name, false, false, Publishing(PlainText, body, delaySeconds * 1000, Persistent)) ]
  }

  /** What Produce does on the connection conn, the broker answering from answer(start) on. */
  function ProduceRun(json: Codec, conn: nat, name: string, msg: User, delaySeconds: int,
                      answer: nat -> Outcome, start: nat): Run
  {
    match json.marshal(msg)
    case Failure(e) => Run([], 0, Failed(e))
    case Success(body) =>
      if answer(start).Failed? then Run([OpenChannel(conn)], 1, answer(start))
      else
        var steps := Chain(ProduceSteps(name, body, delaySeconds), answer, start + 1);
        Run([OpenChannel(conn)] + steps.effects + [CloseChannel], steps.used + 2, steps.result)
  }

  /** The three operations setupConsumer issues, in order. */
  function SetupSteps(conn: nat, name: string): seq<Effect>
  {
    [ OpenChannel(conn),
      QueueDeclare(name, true, false, false, false),
      Consume(name, "", false, false, false, false) ]
  }

  /**
   * What setupConsumer does: the steps of SetupSteps up to the first
   * failure, then, once all of them succeeded, the receive loop.
   */
  function SetupRun(conn: nat, name: string, callback: Callback, answer: nat -> Outcome, start: nat): Run
  {
    var open := OpenChannel(conn);
    var declare := QueueDeclare(name, true, false, false, false);
    var consume := Consume(name, "", false, false, false, false);
    if answer(start).Failed? then Run([open], 1, answer(start))
    else if answer(start + 1).Failed? then Run([open, declare], 2, answer(start + 1))
    else if answer(start + 2).Failed? then Run([open, declare, consume], 3, answer(start + 2))
    else Run([open, declare, consume, ReceiveLoopStarted(name, callback)], 3, Ok)
  }

  /** setupConsumer is the chain of SetupSteps followed, on success, by the receive loop. */
  lemma SetupIsChain(conn: nat, name: string, callback: Callback, answer: nat -> Outcome, start: nat)
    ensures var chain := Chain(SetupSteps(conn, name), answer, start);
            SetupRun(conn, name, callback, answer, start) ==
              Run(chain.effects + (if chain.result.Ok? then [ReceiveLoopStarted(name, callback)] else []),
                  chain.used, chain.result)
  {
    var steps := SetupSteps(conn, name);
    var rest1, rest2 := steps[1..], steps[2..];
    assert rest1[1..] == rest2 && rest2[1..] == [];
    if answer(start).Ok? && answer(start + 1).Ok? {
      assert Chain(rest2, answer, start + 2) == Run([steps[2]], 1, answer(start + 2));
    }
  }

  /** What recoverConsumers does when it visits the names in `order`; errors are logged and dropped. */
  function RecoverRun(order: seq<string>, consumers: map<string, Callback>, conn: nat,
                      answer: nat -> Outcome, start: nat): Run
    requires forall i :: 0 <= i < |order| ==> order[i] in consumers
  {
    if order == [] then Run([], 0, Ok)
    else
      var earlier := RecoverRun(order[..|order| - 1], consumers, conn, answer, start);
      var name := order[|order| - 1];
      var last := SetupRun(conn, name, consumers[name], answer, start + earlier.used);
      Run(earlier.effects + last.effects, earlier.used + last.used, Ok)
  }

  /** Visiting one more name appends that consumer's setup to the recovery. */
  lemma RecoverRunExtends(order: seq<string>, name: string, consumers: map<string, Callback>, conn: nat,
                          answer: nat -> Outcome, start: nat, before: Run, next: nat)
    requires forall i :: 0 <= i < |order| ==> order[i] in consumers
    requires name in consumers
    requires before == RecoverRun(order, consumers, conn, answer, start)
    requires next == start + before.used
    ensures var setup := SetupRun(conn, name, consumers[name], answer, next);
            RecoverRun(order + [name], consumers, conn, answer, start) ==
              Run(before.effects + setup.effects, before.used + setup.used, Ok)
  {
    var extended := order + [name];
    assert extended != [] && extended[..|extended| - 1] == order && extended[|extended| - 1] == name;
  }

  /** One round of the recovery loop: the setup of names[i] extends the recovery of names[..i] to names[..i + 1]. */
  lemma RecoverStep(names: seq<string>, i: nat, consumers: map<string, Callback>, conn: nat, answer: nat -> Outcome,
                    start: nat, log0: seq<Effect>, logBefore: seq<Effect>, logAfter: seq<Effect>, opsBefore: nat, opsAfter: nat)
    requires i < |names| && forall k :: 0 <= k < |names| ==> names[k] in consumers
    requires logBefore == log0 + RecoverRun(names[..i], consumers, conn, answer, start).effects
    requires opsBefore == start + RecoverRun(names[..i], consumers, conn, answer, start).used
    requires var setup := SetupRun(conn, names[i], consumers[names[i]], answer, opsBefore);
             logAfter == logBefore + setup.effects && opsAfter == opsBefore + setup.used
    ensures logAfter == log0 + RecoverRun(names[..i + 1], consumers, conn, answer, start).effects
    ensures opsAfter == start + RecoverRun(names[..i + 1], consumers, conn, answer, start).used
  {
    var before := RecoverRun(names[..i], consumers, conn, answer, start);
    var setup := SetupRun(conn, names[i], consumers[names[i]], answer, opsBefore);
    var after := RecoverRun(names[..i + 1], consumers, conn, answer, start);
    assert after == Run(before.effects + setup.effects, before.used + setup.used, Ok) by {
      assert names[..i + 1] == names[..i] + [names[i]];
      RecoverRunExtends(names[..i], names[i], consumers, conn, answer, start, before, opsBefore);
    }
    assert (log0 + before.effects) + setup.effects == log0 + (before.effects + setup.effects);
  }

  /** The effects of `attempts` rounds of the reconnect loop: sleep, then dial. */
  function ReconnectAttempts(url: string, attempts: nat): seq<Effect>
  {
    if attempts == 0 then [] else ReconnectAttempts(url, attempts - 1) + [Slept(ReconnectDelaySeconds), Dial(url)]
  }

  /** A chain reads only the answers of the steps it attempts. */
  lemma {:induction false} ChainReadsOnlyAttempted(steps: seq<Effect>, answer: nat -> Outcome, other: nat -> Outcome, start: nat)
    requires forall j :: start <= j < start + Chain(steps, answer, start).used ==> other(j) == answer(j)
    ensures Chain(steps, other, start) == Chain(steps, answer, start)
    decreases |steps|
  {
    if steps != [] {
      assert other(start) == answer(start);
      if answer(start).Ok? {
        ChainReadsOnlyAttempted(steps[1..], answer, other, start + 1);
      }
    }
  }

  /**
   * Produce opens no channel when marshalling fails, nothing to close when
   * opening the channel fails, and otherwise closes the channel exactly
   * once, as its last action.
   */
  lemma ProduceClosesWhatItOpens(json: Codec, conn: nat, name: string, msg: User, delaySeconds: int,
                                 answer: nat -> Outcome, start: nat)
    ensures var run := ProduceRun(json, conn, name, msg, delaySeconds, answer, start);
            && (json.marshal(msg).Failure? ==>
                  run.effects == [] && run.used == 0 && run.result == Failed(json.marshal(msg).error))
            && (json.marshal(msg).Success? ==> 0 < |run.effects| && run.effects[0] == OpenChannel(conn))
            && (json.marshal(msg).Success? && answer(start).Failed? ==> run.effects == [OpenChannel(conn)])
            && (json.marshal(msg).Success? && answer(start).Ok? ==>
                  run.effects[|run.effects| - 1] == CloseChannel && multiset(run.effects)[CloseChannel] == 1)
  {
    if json.marshal(msg).Success? && answer(start).Ok? {
      var steps := ProduceSteps(name, json.marshal(msg).value, delaySeconds);
      ChainStopsAtFirstFailure(steps, answer, start + 1);
      var chain := Chain(steps, answer, start + 1);
      var effects := ProduceRun(json, conn, name, msg, delaySeconds, answer, start).effects;
      assert effects == [OpenChannel(conn)] + chain.effects + [CloseChannel];
      assert CloseChannel !in multiset(chain.effects) by {
        assert forall k :: 0 <= k < |steps| ==> steps[k] != CloseChannel;
        assert chain.effects == steps[..chain.used];
      }
      assert multiset(effects) == multiset([OpenChannel(conn)]) + multiset(chain.effects) + multiset([CloseChannel]);
    }
  }

  /**
   * Produce succeeds exactly when the message marshals and the channel and
   * all four steps succeed; it then has issued the whole chain in order.
   */
  lemma ProduceSucceedsWhenEveryStepDoes(json: Codec, conn: nat, name: string, msg: User, delaySeconds: int,
                                         answer: nat -> Outcome, start: nat)
    ensures var run := ProduceRun(json, conn, name, msg, delaySeconds, answer, start);
            run.result.Ok? <==> json.marshal(msg).Success? && forall j :: start <= j < start + 5 ==> answer(j).Ok?
    ensures var run := ProduceRun(json, conn, name, msg, delaySeconds, answer, start);
            run.result.Ok? ==>
              run.used == 6 && run.effects ==
                [OpenChannel(conn)] + ProduceSteps(name, json.marshal(msg).value, delaySeconds) + [CloseChannel]
  {
    if json.marshal(msg).Success? && answer(start).Ok? {
      ChainStopsAtFirstFailure(ProduceSteps(name, json.marshal(msg).value, delaySeconds), answer, start + 1);
    }
  }

  /**
   * Once the message is marshalled, Produce's result is that of one chain:
   * open the channel, then the four steps, so by ChainReturnsFirstError it
   * is the error of the first of them that failed.  Beyond that chain only
   * the closing of an opened channel is issued.
   */
  lemma ProduceIsOneChain(json: Codec, conn: nat, name: string, msg: User, delaySeconds: int,
                          answer: nat -> Outcome, start: nat)
    requires json.marshal(msg).Success?
    ensures var run := ProduceRun(json, conn, name, msg, delaySeconds, answer, start);
            var chain := Chain([OpenChannel(conn)] + ProduceSteps(name, json.marshal(msg).value, delaySeconds), answer, start);
            && run.result == chain.result
            && run.effects == chain.effects + (if answer(start).Ok? then [CloseChannel] else [])
            && run.used == chain.used + (if answer(start).Ok? then 1 else 0)
  {
    var steps := ProduceSteps(name, json.marshal(msg).value, delaySeconds);
    var all := [OpenChannel(conn)] + steps;
    assert all != [] && all[0] == OpenChannel(conn) && all[1..] == steps;
  }

  /** An error from closing Produce's channel changes nothing: neither the result nor what was sent. */
  lemma ProduceIgnoresCloseError(json: Codec, conn: nat, name: string, msg: User, delaySeconds: int,
                                 answer: nat -> Outcome, other: nat -> Outcome, start: nat)
    requires json.marshal(msg).Success? && answer(start).Ok?
    requires var closing := start + ProduceRun(json, conn, name, msg, delaySeconds, answer, start).used - 1;
             forall j :: j != closing ==> other(j) == answer(j)
    ensures ProduceRun(json, conn, name, msg, delaySeconds, other, start) ==
            ProduceRun(json, conn, name, msg, delaySeconds, answer, start)
  {
    var steps := ProduceSteps(name, json.marshal(msg).value, delaySeconds);
    ChainReadsOnlyAttempted(steps, answer, other, start + 1);
  }

  /**
   * setupConsumer succeeds exactly when its three steps do, with the error
   * of the first that fails otherwise; it issues the steps in order and
   * starts the receive loop if and only if it succeeds.
   */
  lemma SetupStartsLoopOnlyAfterAllSteps(conn: nat, name: string, callback: Callback, answer: nat -> Outcome, start: nat)
    ensures var run := SetupRun(conn, name, callback, answer, start);
            && 0 < run.used <= 3
            && run.effects[..run.used] == SetupSteps(conn, name)[..run.used]
            && (ReceiveLoopStarted(name, callback) in run.effects <==> run.result.Ok?)
            && (run.result.Ok? <==> forall j :: start <= j < start + 3 ==> answer(j).Ok?)
            && var n := SucceedingPrefix(answer, start, 3);
               run.result == if n < 3 then answer(start + n) else Ok
  {
    SetupIsChain(conn, name, callback, answer, start);
    ChainStopsAtFirstFailure(SetupSteps(conn, name), answer, start);
    ChainAttempts(SetupSteps(conn, name), answer, start);
  }

  /** Every setup opens exactly one channel, on the given connection. */
  lemma SetupOpensOneChannel(conn: nat, name: string, callback: Callback, answer: nat -> Outcome, start: nat)
    ensures multiset(SetupRun(conn, name, callback, answer, start).effects)[OpenChannel(conn)] == 1
  {
  }

  /**
   * recoverConsumers attempts the setup of every consumer it visits, on the
   * current connection, even after some of them failed, and reports no error.
   */
  lemma {:induction false} RecoverAttemptsEveryConsumer(order: seq<string>, consumers: map<string, Callback>, conn: nat,
                                                         answer: nat -> Outcome, start: nat)
    requires forall i :: 0 <= i < |order| ==> order[i] in consumers
    ensures multiset(RecoverRun(order, consumers, conn, answer, start).effects)[OpenChannel(conn)] == |order|
    ensures RecoverRun(order, consumers, conn, answer, start).result == Ok
    decreases |order|
  {
    if order != [] {
      var earlier := order[..|order| - 1];
      RecoverAttemptsEveryConsumer(earlier, consumers, conn, answer, start);
      var name := order[|order| - 1];
      assert order[..|order| - 1] == earlier && order != [];
      var before := RecoverRun(earlier, consumers, conn, answer, start);
      var setup := SetupRun(conn, name, consumers[name], answer, start + before.used);
      SetupOpensOneChannel(conn, name, consumers[name], answer, start + before.used);
      var all := RecoverRun(order, consumers, conn, answer, start).effects;
      assert all == before.effects + setup.effects;
      assert multiset(all) == multiset(before.effects) + multiset(setup.effects);
      assert multiset(all)[OpenChannel(conn)] == |earlier| + 1;
    }
  }

  /** The reconnect loop sleeps before every dial: n rounds are n sleeps of 5 seconds, each followed by a dial. */
  lemma {:induction false} ReconnectSleepsBeforeEveryDial(url: string, attempts: nat)
    ensures |ReconnectAttempts(url, attempts)| == 2 * attempts
    ensures forall i :: 0 <= i < attempts ==>
              ReconnectAttempts(url, attempts)[2 * i] == Slept(ReconnectDelaySeconds)
              && ReconnectAttempts(url, attempts)[2 * i + 1] == Dial(url)
  {
    if attempts > 0 {
      ReconnectSleepsBeforeEveryDial(url, attempts - 1);
    }
  }

  /** How a delivery is settled with the broker. */
  datatype Settlement = Ack(multiple: bool) | Nack(multiple: bool, requeue: bool)

  /** The receive loop acknowledges a delivery whose callback succeeded and rejects, without requeueing, one whose callback failed. */
  function SettlementFor(callbackResult: Outcome): (s: Settlement)
    ensures s == Ack(false) <==> callbackResult.Ok?
    ensures s == Nack(false, false) <==> callbackResult.Failed?
  {
    if callbackResult.Ok? then Ack(false) else Nack(false, false)
  }

  /**
   * The receive loop setupConsumer starts: every delivery is handed to the
   * callback and then settled exactly once.  Errors from Ack and Nack are
   * only logged.
   */
  method ReceiveLoop(deliveries: seq<Bytes>, callback: Bytes -> Outcome) returns (settlements: seq<Settlement>)
    ensures |settlements| == |deliveries|
    ensures forall i :: 0 <= i < |deliveries| ==> settlements[i] == SettlementFor(callback(deliveries[i]))
  {
    settlements := [];
    for i := 0 to |deliveries|
      invariant |settlements| == i
      invariant forall k :: 0 <= k < i ==> settlements[k] == SettlementFor(callback(deliveries[k]))
    {
      var err := callback(deliveries[i]);
      if err.Failed? {
        settlements := settlements + [Nack(false, false)];
      } else {
        settlements := settlements + [Ack(false)];
      }
    }
  }

  class RabbitMQ {
    const url: string
    const json: Codec
    /** The answer of the k-th operation on the connection or its channels. */
    const answer: nat -> Outcome
    /** The answer of the k-th amqp.Dial(url). */
    const dialAnswer: nat -> Outcome

    /** The connection in use, named by the index of the dial that opened it. */
    var conn: nat
    /** The connection whose close notifications handleReconnect waits for. */
    var notifyClose: nat
    /** The consumer registry: at most one callback per queue name. */
    var consumers: map<string, Callback>
    /** Operations issued so far: the next one is answered by answer(ops). */
    var ops: nat
    /** Dials made so far: the next one is answered by dialAnswer(dials). */
    var dials: nat
    var log: seq<Effect>
    /** Every RegisterConsumer call, in order. */
    ghost var registrations: seq<(string, Callback)>

    /** The client NewRabbitMQ builds once amqp.Dial(url) has returned the connection 0. */
    constructor (url: string, json: Codec, answer: nat -> Outcome, dialAnswer: nat -> Outcome)
      requires dialAnswer(0).Ok?
      ensures this.url == url && this.json == json && this.answer == answer && this.dialAnswer == dialAnswer
      ensures conn == 0 && notifyClose == 0 && consumers == map[]
      ensures ops == 0 && dials == 1 && log == [Dial(url)] && registrations == []
    {
      this.url, this.json, this.answer, this.dialAnswer := url, json, answer, dialAnswer;
      conn, notifyClose, consumers := 0, 0, map[];
      ops, dials, log, registrations := 0, 1, [Dial(url)], [];
    }

    /** Issues one operation on the broker. */
    method Call(e: Effect) returns (err: Outcome)
      modifies this`log, this`ops
      ensures err == answer(old(ops)) && ops == old(ops) + 1 && log == old(log) + [e]
    {
      err := answer(ops);
      ops := ops + 1;
      log := log + [e];
    }

    /**
     * The body of Produce once its channel is open: four operations, each
     * issued only if the one before succeeded.
     */
    method DeclareBindPublish(steps: seq<Effect>) returns (err: Outcome)
      requires |steps| == 4
      modifies this`log, this`ops
      ensures var chain := Chain(steps, answer, old(ops));
              log == old(log) + chain.effects && ops == old(ops) + chain.used && err == chain.result
    {
      ghost var start := ops;
      ghost var rest1, rest2, rest3 := steps[1..], steps[2..], steps[3..];
      assert rest1[1..] == rest2 && rest2[1..] == rest3 && rest3[1..] == [];
      err := Call(steps[0]);
      if err.Failed? {
        return;
      }
      err := Call(steps[1]);
      if err.Failed? {
        return;
      }
      err := Call(steps[2]);
      if err.Failed? {
        assert Chain(rest2, answer, start + 2) == Run([steps[2]], 1, err);
        assert Chain(rest1, answer, start + 1) == Run([steps[1], steps[2]], 2, err);
        return;
      }
      err := Call(steps[3]);
      assert Chain(rest3, answer, start + 3) == Run([steps[3]], 1, err);
      assert Chain(rest2, answer, start + 2) == Run([steps[2], steps[3]], 2, err);
      assert Chain(rest1, answer, start + 1) == Run([steps[1], steps[2], steps[3]], 3, err);
    }

    /** Close: closes the connection; an error is only logged. */
    method Close()
      modifies this`log, this`ops
      ensures log == old(log) + [CloseConnection(conn)] && ops == old(ops) + 1
    {
      var err := Call(CloseConnection(conn));
    }

    /**
     * Produce: marshal the message, open a channel, then declare the delayed
     * exchange, declare the queue, bind it and publish, stopping at the first
     * failure; the channel, once open, is closed on the way out whatever
     * happened, and an error from closing it does not change the result.
     */
    method Produce(name: string, msg: User, delaySeconds: int) returns (err: Outcome)
      modifies this`log, this`ops
      ensures var run := ProduceRun(json, conn, name, msg, delaySeconds, answer, old(ops));
              log == old(log) + run.effects && ops == old(ops) + run.used && err == run.result
    {
      var message := json.marshal(msg);
      if message.Failure? {
        return Failed(message.error);
      }
      err := Call(OpenChannel(conn));
      if err.Failed? {
        return;
      }
      err := DeclareBindPublish(ProduceSteps(name, message.value, delaySeconds));
      // the deferred ch.Close()
      var closeErr := Call(CloseChannel);
    }

    /**
     * setupConsumer: open a channel, declare the queue durable, start
     * consuming with manual acknowledgement; the first failure returns its
     * error (the channel is not closed), and the receive loop starts only
     * once all three succeeded.
     */
    method SetupConsumer(name: string, callback: Callback) returns (err: Outcome)
      modifies this`log, this`ops
      ensures var run := SetupRun(conn, name, callback, answer, old(ops));
              log == old(log) + run.effects && ops == old(ops) + run.used && err == run.result
    {
      err := Call(OpenChannel(conn));
      if err.Failed? {
        return;
      }
      err := Call(QueueDeclare(name, true, false, false, false));
      if err.Failed? {
        return;
      }
      err := Call(Consume(name, "", false, false, false, false));
      if err.Failed? {
        return;
      }
      log := log + [ReceiveLoopStarted(name, callback)];
    }

    /**
     * RegisterConsumer: the callback is stored under the name before the
     * consumer is set up, replacing any earlier one, and stays stored even
     * when the setup fails.
     */
    method RegisterConsumer(name: string, callback: Callback) returns (err: Outcome)
      modifies this`consumers, this`log, this`ops, this`registrations
      ensures consumers == old(consumers)[name := callback]
      ensures registrations == old(registrations) + [(name, callback)]
      ensures var run := SetupRun(conn, name, callback, answer, old(ops));
              log == old(log) + run.effects && ops == old(ops) + run.used && err == run.result
    {
      consumers := consumers[name := callback];
      registrations := registrations + [(name, callback)];
      err := SetupConsumer(name, callback);
    }

    /**
     * recoverConsumers: sets up every registered consumer again, once per
     * name, in the map's (unspecified) iteration order; a failure is logged
     * and the loop goes on.  The registry is not changed.
     */
    method RecoverConsumers() returns (ghost order: seq<string>)
      modifies this`log, this`ops
      ensures Distinct(order) && forall name :: name in order <==> name in consumers
      ensures var run := RecoverRun(order, consumers, conn, answer, old(ops));
              log == old(log) + run.effects && ops == old(ops) + run.used
    {
      var names := IterationOrder(consumers.Keys);
      assert forall k :: 0 <= k < |names| ==> names[k] in consumers;
      ghost var log0, ops0 := log, ops;
      for i := 0 to |names|
        invariant log == log0 + RecoverRun(names[..i], consumers, conn, answer, ops0).effects
        invariant ops == ops0 + RecoverRun(names[..i], consumers, conn, answer, ops0).used
      {
        ghost var logBefore, opsBefore := log, ops;
        var setupErr := SetupConsumer(names[i], consumers[names[i]]);
        RecoverStep(names, i, consumers, conn, answer, ops0, log0, logBefore, log, opsBefore, ops);
      }
      assert names[..|names|] == names;
      order := names;
    }

    /**
     * One turn of handleReconnect: a nil notification does nothing; a
     * non-nil one starts the reconnect loop, which sleeps and dials until a
     * dial succeeds, then swaps in the new connection and its close
     * notifications and recovers the consumers exactly once.
     */
    method HandleCloseNotification(notification: Option<Error>) returns (ghost order: seq<string>)
      requires notification.Some? ==> exists k :: dials <= k && dialAnswer(k).Ok?
      modifies this`conn, this`notifyClose, this`dials, this`log, this`ops
      ensures notification.None? ==>
                conn == old(conn) && notifyClose == old(notifyClose) && dials == old(dials)
                && log == old(log) && ops == old(ops) && order == []
      ensures notification.Some? ==>
                && old(dials) < dials && dialAnswer(dials - 1).Ok?
                && (forall k :: old(dials) <= k < dials - 1 ==> dialAnswer(k).Failed?)
                && conn == dials - 1 && notifyClose == conn
                && Distinct(order) && (forall name :: name in order <==> name in consumers)
                && var run := RecoverRun(order, consumers, conn, answer, old(ops));
                   log == old(log) + ReconnectAttempts(url, dials - old(dials)) + run.effects
                   && ops == old(ops) + run.used
    {
      order := [];
      if notification.Some? {
        DialUntilConnected();
        order := RecoverConsumers();
      }
    }

    /**
     * The reconnect loop of handleReconnect: sleep, dial, and again until a
     * dial succeeds; then the new connection and its close notifications
     * replace the old ones.
     */
    method DialUntilConnected()
      requires exists k :: dials <= k && dialAnswer(k).Ok?
      modifies this`conn, this`notifyClose, this`dials, this`log
      ensures old(dials) < dials && dialAnswer(dials - 1).Ok?
      ensures forall k :: old(dials) <= k < dials - 1 ==> dialAnswer(k).Failed?
      ensures conn == dials - 1 && notifyClose == conn
      ensures log == old(log) + ReconnectAttempts(url, dials - old(dials))
    {
      ghost var target :| dials <= target && dialAnswer(target).Ok?;
      while true
        invariant old(dials) <= dials <= target
        invariant forall k :: old(dials) <= k < dials ==> dialAnswer(k).Failed?
        invariant log == old(log) + ReconnectAttempts(url, dials - old(dials))
        decreases target - dials
      {
        log := log + [Slept(ReconnectDelaySeconds), Dial(url)];
        var dialErr := dialAnswer(dials);
        dials := dials + 1;
        if dialErr.Ok? {
          conn, notifyClose := dials - 1, dials - 1;
          return;
        }
      }
    }
  }

  /**
   * NewRabbitMQ: dial the URL; on failure return nil and the dial error, on
   * success a client on that connection with an empty consumer registry.
   */
  method NewRabbitMQ(url: string, json: Codec, answer: nat -> Outcome, dialAnswer: nat -> Outcome)
    returns (r: RabbitMQ?, err: Outcome)
    ensures err == dialAnswer(0)
    ensures r != null <==> err.Ok?
    ensures r != null ==>
              && fresh(r) && r.url == url && r.json == json && r.answer == answer && r.dialAnswer == dialAnswer
              && r.conn == 0 && r.notifyClose == 0 && r.consumers == map[]
              && r.ops == 0 && r.dials == 1 && r.log == [Dial(url)] && r.registrations == []
  {
    err := dialAnswer(0);
    if err.Failed? {
      return null, err;
    }
    r := new RabbitMQ(url, json, answer, dialAnswer);
  }

  /** The configuration the broker client needs: the RabbitMQ URL. */
  datatype Config = Config(rabbitMQURL: string)

  /** Queue: the configuration and the driver, which NewQueue leaves unset. */
  class Queue {
    const config: Config
    var driver: RabbitMQ?

    /** NewQueue */
    constructor (config: Config)
      ensures this.config == config && driver == null
    {
      this.config := config;
      driver := null;
    }
  }

  /** The order in which `for name := range keys` visits a map's keys: each key once, in no specified order. */
  method IterationOrder(keys: set<string>) returns (names: seq<string>)
    ensures Distinct(names) && forall name :: name in names <==> name in keys
  {
    names := [];
    var remaining := keys;
    while remaining != {}
      invariant remaining <= keys
      invariant Distinct(names)
      invariant forall i :: 0 <= i < |names| ==> names[i] in keys && names[i] !in remaining
      invariant forall name :: name in keys && name !in remaining ==> name in names
      decreases remaining
    {
      var name :| name in remaining;
      remaining := remaining - {name};
      names := names + [name];
    }
  }
}
