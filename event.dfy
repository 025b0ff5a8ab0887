/**
 * The save-user queue event of internal/core/event/user_importer_queue.go:
 * it publishes users to the "save_user_queue" queue and, as that queue's
 * consumer, decodes each message and stores the user inside one unit of
 * work, which it always ends with exactly one commit or rollback once the
 * transaction has begun.
 */
module Event {

  import opened Wrappers
  import opened Failures
  import opened Domain
  import opened Json
  import opened Port
  import opened MessageBroker

  const SaveUserName: string := "save_user_queue"
  const DelaySaveUserSeconds: int := 0

  /**
   * The error the transaction part of Consume reports: BeginTx's error, or,
   * when Create fails, Rollback's error if it has one and Create's otherwise,
   * or else Commit's answer.
   */
  function TransactionOutcome(s: TxScript): (r: Outcome)
    ensures r.Ok? <==> s.begin.Ok? && s.create.Ok? && s.commit.Ok?
    ensures r.Failed? ==> r == s.begin || r == s.create || r == s.rollback || r == s.commit
  {
    if s.begin.Failed? then s.begin
    else if s.create.Failed? then (if s.rollback.Failed? then s.rollback else s.create)
    else s.commit
  }

  /** What Consume returns for `message` when the unit of work it opens answers by `s`. */
  function ConsumeOutcome(json: Codec, message: Bytes, s: TxScript): Outcome
  {
    match json.unmarshal(message)
    case Failure(e) => Failed(e)
    case Success(_) => TransactionOutcome(s)
  }

  /** The calls Consume makes on the unit of work it opens; none when the message does not decode. */
  function ConsumeCalls(json: Codec, message: Bytes, s: TxScript): seq<UowCall>
  {
    match json.unmarshal(message)
    case Failure(_) => []
    case Success(user) => ProtocolCalls(user, s)
  }

  /**
   * Runs BeginTx, Create and then Commit or Rollback on a fresh unit of
   * work, returning at the first error as Consume does.
   */
  method Transact(uow: UnitOfWork, user: User) returns (err: Outcome)
    requires uow.state == Unstarted && uow.calls == []
    modifies uow
    ensures err == TransactionOutcome(uow.script)
    ensures uow.calls == ProtocolCalls(user, uow.script)
  {
    err := uow.BeginTx();
    if err.Failed? {
      return;
    }
    err := CreateUser(uow, user);
    if err.Failed? {
      var rollbackErr := uow.Rollback();
      if rollbackErr.Failed? {
        err := rollbackErr;
      }
      return;
    }
    err := uow.Commit();
  }

  class SaveUser {
    const queue: Queue
    const json: Codec
    /** The answers of the k-th unit of work this handler opens on its database. */
    const db: nat -> TxScript
    /** The calls made on each unit of work opened so far, in opening order. */
    var transactions: seq<seq<UowCall>>

    constructor (queue: Queue, json: Codec, db: nat -> TxScript)
      ensures this.queue == queue && this.json == json && this.db == db && transactions == []
    {
      this.queue, this.json, this.db := queue, json, db;
      transactions := [];
    }

    /** The queue this handler publishes to and consumes from. */
    function Name(): (r: string)
      ensures r == SaveUserName
    {
      SaveUserName
    }

    /** Produces the message to Name() with delay 0 and returns the driver's error unchanged. */
    method Publish(message: User) returns (err: Outcome)
      requires queue.driver != null
      modifies queue.driver`log, queue.driver`ops
      ensures var d := queue.driver;
              var run := ProduceRun(d.json, d.conn, SaveUserName, message, DelaySaveUserSeconds, d.answer, old(d.ops));
              err == run.result && d.log == old(d.log) + run.effects && d.ops == old(d.ops) + run.used
    {
      err := queue.driver.Produce(Name(), message, DelaySaveUserSeconds);
    }

    /**
     * Decodes the message; an undecodable one is rejected before any unit of
     * work exists.  Otherwise opens the next unit of work and runs the
     * transaction on the decoded user.
     */
    method Consume(message: Bytes) returns (err: Outcome)
      modifies this`transactions
      ensures var s := db(|old(transactions)|);
              && err == ConsumeOutcome(json, message, s)
              && transactions == old(transactions) +
                   (if json.unmarshal(message).Success? then [ConsumeCalls(json, message, s)] else [])
    {
      var decoded := json.unmarshal(message);
      if decoded.Failure? {
        return Failed(decoded.error);
      }
      var uow := new UnitOfWork(db(|transactions|));
      err := Transact(uow, decoded.value);
      transactions := transactions + [uow.calls];
    }

    /**
     * Registers Consume under Name() with the driver.  The source does this
     * on a goroutine and only logs the error; here it happens before
     * Register returns.
     */
    method Register()
      requires queue.driver != null
      modifies queue.driver`consumers, queue.driver`log, queue.driver`ops, queue.driver`registrations
      ensures var d := queue.driver;
              var callback := MethodValue(this, "Consume");
              var run := SetupRun(d.conn, SaveUserName, callback, d.answer, old(d.ops));
              && d.consumers == old(d.consumers)[SaveUserName := callback]
              && d.registrations == old(d.registrations) + [(SaveUserName, callback)]
              && d.log == old(d.log) + run.effects && d.ops == old(d.ops) + run.used
    {
      var _ := queue.driver.RegisterConsumer(Name(), MethodValue(this, "Consume"));
    }
  }

  /** The package-level variable behind NewSaveUser's singleton. */
  class EventPackage {
    var saveUserInstance: SaveUser?

    constructor ()
      ensures saveUserInstance == null
    {
      saveUserInstance := null;
    }

    /** The first call creates the handler; every later call returns it and ignores its arguments. */
    method NewSaveUser(queue: Queue, json: Codec, db: nat -> TxScript) returns (r: SaveUser)
      modifies this`saveUserInstance
      ensures old(saveUserInstance) != null ==> r == old(saveUserInstance) && saveUserInstance == r
      ensures old(saveUserInstance) == null ==>
                fresh(r) && saveUserInstance == r &&
                r.queue == queue && r.json == json && r.db == db && r.transactions == []
    {
      if saveUserInstance == null {
        saveUserInstance := new SaveUser(queue, json, db);
      }
      r := saveUserInstance;
    }
  }

  /** A message that does not decode is rejected with the decoder's error and no unit of work. */
  lemma UndecodableMessageTouchesNoTransaction(json: Codec, message: Bytes, s: TxScript)
    requires json.unmarshal(message).Failure?
    ensures ConsumeOutcome(json, message, s) == Failed(json.unmarshal(message).error)
    ensures ConsumeCalls(json, message, s) == []
  {
  }

  /**
   * Once decoding succeeds: a BeginTx failure is returned with neither
   * commit nor rollback made; a Create failure is followed by exactly one
   * Rollback and no Commit, and the result is Rollback's error if it has
   * one and Create's otherwise; a successful Create is followed by exactly
   * one Commit and no Rollback, and the result is Commit's answer.
   */
  lemma ConsumeEndsWhatItBegins(json: Codec, message: Bytes, s: TxScript)
    requires json.unmarshal(message).Success?
    ensures var calls := ConsumeCalls(json, message, s);
            var err := ConsumeOutcome(json, message, s);
            && Replay(Unstarted, calls, s).Some?
            && (s.begin.Failed? ==>
                  err == s.begin && UowCall.Commit !in calls && UowCall.Rollback !in calls)
            && (s.begin.Ok? && s.create.Failed? ==>
                  && multiset(calls)[UowCall.Rollback] == 1 && UowCall.Commit !in calls
                  && Replay(Unstarted, calls, s) == Some(RolledBack)
                  && err == (if s.rollback.Failed? then s.rollback else s.create))
            && (s.begin.Ok? && s.create.Ok? ==>
                  && multiset(calls)[UowCall.Commit] == 1 && UowCall.Rollback !in calls
                  && Replay(Unstarted, calls, s) == Some(Committed)
                  && err == s.commit)
  {
    var user := json.unmarshal(message).value;
    ProtocolIsDisciplined(user, s);
    var calls := ProtocolCalls(user, s);
    if s.begin.Ok? {
      var ending := calls[2];
      assert calls == [UowCall.Begin, Create(user)] + [ending];
      assert multiset(calls)[ending] == 1;
    }
  }

  /** Consume returns nil exactly when the user's transaction was committed and the commit reported no error. */
  lemma ConsumeSucceedsExactlyWhenCommitted(json: Codec, message: Bytes, s: TxScript)
    ensures ConsumeOutcome(json, message, s).Ok? <==>
              && json.unmarshal(message).Success?
              && Replay(Unstarted, ConsumeCalls(json, message, s), s) == Some(Committed)
              && s.commit.Ok?
  {
    if json.unmarshal(message).Success? {
      ConsumeEndsWhatItBegins(json, message, s);
    }
  }

  /**
   * The delivery loop acknowledges a save-user message exactly when its user
   * was committed without error, and otherwise rejects it without requeueing,
   * so a message that fails to be stored is dropped.
   */
  lemma DeliveryAckedExactlyWhenCommitted(json: Codec, message: Bytes, s: TxScript)
    ensures var settlement := SettlementFor(ConsumeOutcome(json, message, s));
            && (settlement == Ack(false) <==>
                  json.unmarshal(message).Success? &&
                  Replay(Unstarted, ConsumeCalls(json, message, s), s) == Some(Committed) && s.commit.Ok?)
            && (settlement != Ack(false) ==> settlement == Nack(false, false))
  {
    ConsumeSucceedsExactlyWhenCommitted(json, message, s);
  }
}
