/**
 * The unit-of-work interface of internal/core/port/unit_of_work.go, modelled
 * as a state machine `Unstarted -> Active -> Committed | RolledBack`.  The
 * implementation (userrepository.NewUnitOfWork) and the user service's Create
 * are not part of this model: their answers come from a script.
 */
module Port {

  import opened Wrappers
  import opened Failures
  import opened Domain

  datatype TxState = Unstarted | Active | Committed | RolledBack

  /** A call made on a unit of work, including the user service's Create, which works through it. */
  datatype UowCall = Begin | Create(user: User) | Commit | Rollback

  /** The answers one unit of work gives to BeginTx, Create, Rollback and Commit. */
  datatype TxScript = TxScript(begin: Outcome, create: Outcome, rollback: Outcome, commit: Outcome)

  /** The reference state machine: the state after a call that returned `answer`, or None if the call is not allowed. */
  function Step(state: TxState, call: UowCall, answer: Outcome): Option<TxState>
  {
    match call
    case Begin => if state == Unstarted then Some(if answer.Ok? then Active else Unstarted) else None
    case Create(_) => if state == Active then Some(Active) else None
    case Commit => if state == Active then Some(Committed) else None
    case Rollback => if state == Active then Some(RolledBack) else None
  }

  /** The answer a script gives to a call. */
  function AnswerTo(s: TxScript, call: UowCall): Outcome
  {
    match call
    case Begin => s.begin
    case Create(_) => s.create
    case Commit => s.commit
    case Rollback => s.rollback
  }

  /** Replays calls from a state; None if some call is not allowed where it is made. */
  function Replay(state: TxState, calls: seq<UowCall>, s: TxScript): Option<TxState>
    decreases |calls|
  {
    if calls == [] then Some(state)
    else match Step(state, calls[0], AnswerTo(s, calls[0]))
      case None => None
      case Some(next) => Replay(next, calls[1..], s)
  }

  predicate Terminal(state: TxState)
  {
    state == Committed || state == RolledBack
  }

  class UnitOfWork {
    const script: TxScript
    var state: TxState
    /** Every call made on this unit of work, in order. */
    var calls: seq<UowCall>

    constructor (script: TxScript)
      ensures this.script == script && state == Unstarted && calls == []
    {
      this.script := script;
      state, calls := Unstarted, [];
    }

    method BeginTx() returns (err: Outcome)
      requires state == Unstarted
      modifies this
      ensures err == script.begin
      ensures Step(old(state), UowCall.Begin, err) == Some(state)
      ensures calls == old(calls) + [UowCall.Begin]
    {
      err := script.begin;
      if err.Ok? {
        state := Active;
      }
      calls := calls + [UowCall.Begin];
    }

    /** Commit ends the transaction, whether or not it reports an error. */
    method Commit() returns (err: Outcome)
      requires state == Active
      modifies this
      ensures err == script.commit
      ensures Step(old(state), UowCall.Commit, err) == Some(state) && state == Committed
      ensures calls == old(calls) + [UowCall.Commit]
    {
      err := script.commit;
      state := Committed;
      calls := calls + [UowCall.Commit];
    }

    /** Rollback ends the transaction, whether or not it reports an error. */
    method Rollback() returns (err: Outcome)
      requires state == Active
      modifies this
      ensures err == script.rollback
      ensures Step(old(state), UowCall.Rollback, err) == Some(state) && state == RolledBack
      ensures calls == old(calls) + [UowCall.Rollback]
    {
      err := script.rollback;
      state := RolledBack;
      calls := calls + [UowCall.Rollback];
    }
  }

  /** UserService.Create, working inside the unit of work's transaction. */
  method CreateUser(uow: UnitOfWork, user: User) returns (err: Outcome)
    requires uow.state == Active
    modifies uow
    ensures err == uow.script.create
    ensures uow.state == Active && uow.calls == old(uow.calls) + [Create(user)]
  {
    err := uow.script.create;
    uow.calls := uow.calls + [Create(user)];
  }

  /**
   * The calls of the begin / create / commit-or-rollback protocol that both
   * the importer's workers and the queue consumer follow.
   */
  function ProtocolCalls(user: User, s: TxScript): seq<UowCall>
  {
    if s.begin.Failed? then [Begin]
    else if s.create.Failed? then [Begin, Create(user), Rollback]
    else [Begin, Create(user), Commit]
  }

  /**
   * The protocol is a legal run of the state machine; it ends the transaction
   * exactly when BeginTx succeeded, and then with exactly one of Commit or
   * Rollback: Commit when Create succeeded, Rollback when it failed.
   */
  lemma {:induction false} ProtocolIsDisciplined(user: User, s: TxScript)
    ensures Replay(Unstarted, ProtocolCalls(user, s), s) ==
              Some(if s.begin.Failed? then Unstarted else if s.create.Ok? then Committed else RolledBack)
    ensures Terminal(Replay(Unstarted, ProtocolCalls(user, s), s).value) <==> s.begin.Ok?
    ensures s.begin.Ok? ==> (Commit in ProtocolCalls(user, s) <==> Rollback !in ProtocolCalls(user, s))
    ensures s.begin.Ok? ==> (Commit in ProtocolCalls(user, s) <==> s.create.Ok?)
    ensures s.begin.Failed? ==> Commit !in ProtocolCalls(user, s) && Rollback !in ProtocolCalls(user, s)
  {
    var calls := ProtocolCalls(user, s);
    if s.begin.Failed? {
      assert Replay(Unstarted, calls, s) == Replay(Unstarted, [], s);
    } else {
      var ending := calls[2];
      var final := if s.create.Ok? then Committed else RolledBack;
      assert Replay(Active, [ending], s) == Replay(final, [], s);
      assert calls[1..] == [Create(user), ending] && calls[1..][1..] == [ending];
      assert Replay(Unstarted, calls, s) == Replay(Active, [Create(user), ending], s) == Some(final);
    }
  }
}
