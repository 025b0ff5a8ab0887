/**
 * The Postgres repositories of internal/adaper/storage/postgres/userrepository.
 * The transaction (`*sql.Tx`) is an object whose answers come from an oracle and
 * whose inserted rows are kept as a log; the query text is not modelled.
 */
module Storage {

  import opened Wrappers
  import opened ServiceError
  import opened Failures
  import opened Domain

  /** One row written by the address INSERT: the five postal fields and the owner's id. */
  datatype AddressRow = AddressRow(
    street: Option<string>,
    city: Option<string>,
    state: Option<string>,
    zipCode: Option<string>,
    country: Option<string>,
    userID: UInt64)

  /** A row of the users table as the SELECT reads it; `deletedAt` is None when the column is NULL. */
  datatype UserRow = UserRow(id: UInt64, name: Option<string>, email: string, phoneNumber: string, deletedAt: Option<Time>)

  /**
   * A `*sql.Row`: the first matching row, or none, together with the error the
   * query met.  database/sql reports that error only when the row is scanned.
   */
  datatype Row = Row(err: Option<Error>, found: Option<UserRow>)

  /** One database transaction, seen from the repositories that share it. */
  class Tx {
    /** The database's answer to the k-th Prepare or Exec of this transaction. */
    const answer: nat -> Outcome
    /** Whether the database fails the user SELECT for a given id. */
    const queryAnswer: UInt64 -> Outcome
    /** The users table as this transaction sees it. */
    const users: seq<UserRow>

    /** Prepare and Exec calls made so far. */
    var calls: nat
    /** Address rows this transaction has inserted, in order. */
    var inserted: seq<AddressRow>
    /** Prepared statements not yet closed. */
    var openStatements: nat

    constructor (answer: nat -> Outcome, queryAnswer: UInt64 -> Outcome, users: seq<UserRow>)
      ensures this.answer == answer && this.queryAnswer == queryAnswer && this.users == users
      ensures calls == 0 && inserted == [] && openStatements == 0
    {
      this.answer := answer;
      this.queryAnswer := queryAnswer;
      this.users := users;
      calls, inserted, openStatements := 0, [], 0;
    }

    /** tx.Prepare: on success the statement stays open until closed. */
    method Prepare() returns (o: Outcome)
      modifies this
      ensures o == answer(old(calls)) && calls == old(calls) + 1
      ensures inserted == old(inserted)
      ensures openStatements == old(openStatements) + (if o.Ok? then 1 else 0)
    {
      o := answer(calls);
      calls := calls + 1;
      if o.Ok? {
        openStatements := openStatements + 1;
      }
    }

    /** stmt.Exec: a successful call inserts exactly the given row. */
    method Exec(row: AddressRow) returns (o: Outcome)
      requires openStatements > 0
      modifies this
      ensures o == answer(old(calls)) && calls == old(calls) + 1
      ensures inserted == old(inserted) + (if o.Ok? then [row] else [])
      ensures openStatements == old(openStatements)
    {
      o := answer(calls);
      calls := calls + 1;
      if o.Ok? {
        inserted := inserted + [row];
      }
    }

    /** stmt.Close; its error is only logged, so it is not modelled. */
    method CloseStatement()
      requires openStatements > 0
      modifies this
      ensures openStatements == old(openStatements) - 1
      ensures calls == old(calls) && inserted == old(inserted)
    {
      openStatements := openStatements - 1;
    }

    /** tx.QueryRow for the user SELECT. */
    function QueryRow(id: UInt64): (r: Row)
      ensures r.found == Select(users, id)
      ensures r.err.Some? <==> queryAnswer(id).Failed?
    {
      Row(if queryAnswer(id).Failed? then Some(queryAnswer(id).error) else None, Select(users, id))
    }
  }

  /** The row `WHERE deleted_at IS NULL AND id = $1` finds first, if any. */
  function Select(rows: seq<UserRow>, id: UInt64): (r: Option<UserRow>)
    ensures r.Some? ==> r.value in rows && r.value.id == id && r.value.deletedAt.None?
    ensures r.None? ==> forall row :: row in rows ==> row.id != id || row.deletedAt.Some?
  {
    if rows == [] then None
    else if rows[0].id == id && rows[0].deletedAt.None? then Some(rows[0])
    else Select(rows[1..], id)
  }

  /** The row the address INSERT writes for one address of user `userID`. */
  function InsertRow(userID: UInt64, a: Address): AddressRow
  {
    AddressRow(a.street, a.city, a.state, a.zipCode, a.country, userID)
  }

  /** The rows of a slice of (non-nil) addresses, one per element. */
  function Rows(userID: UInt64, addresses: seq<Option<Address>>): seq<AddressRow>
    requires forall i :: 0 <= i < |addresses| ==> addresses[i].Some?
  {
    if addresses == [] then []
    else Rows(userID, addresses[..|addresses| - 1]) + [InsertRow(userID, addresses[|addresses| - 1].value)]
  }

  /** Rows keeps order: the i-th row carries the i-th address and the owner's id. */
  lemma {:induction false} RowsAt(userID: UInt64, addresses: seq<Option<Address>>, i: nat)
    requires forall k :: 0 <= k < |addresses| ==> addresses[k].Some?
    requires i < |addresses|
    ensures |Rows(userID, addresses)| == |addresses|
    ensures Rows(userID, addresses)[i] == InsertRow(userID, addresses[i].value)
  {
    var n := |addresses| - 1;
    RowsLength(userID, addresses[..n]);
    if i < n {
      RowsAt(userID, addresses[..n], i);
    }
  }

  lemma {:induction false} RowsLength(userID: UInt64, addresses: seq<Option<Address>>)
    requires forall k :: 0 <= k < |addresses| ==> addresses[k].Some?
    ensures |Rows(userID, addresses)| == |addresses|
  {
    if addresses != [] {
      RowsLength(userID, addresses[..|addresses| - 1]);
    }
  }

  class AddressRepository {
    const tx: Tx

    constructor (tx: Tx)
      ensures this.tx == tx
    {
      this.tx := tx;
    }

    /**
     * Save: prepare the INSERT, run it once per address in slice order, stop at
     * the first failure.  Every failure is reported as the generic ServerError;
     * rows inserted before a failure stay in the transaction; the prepared
     * statement is closed on every path.
     */
    method Save(userID: UInt64, addresses: seq<Option<Address>>) returns (err: Outcome)
      requires forall i :: 0 <= i < |addresses| ==> addresses[i].Some?
      modifies tx
      ensures tx.openStatements == old(tx.openStatements)
      ensures err.Failed? ==> err == Failed(Service(ServerError))
      ensures tx.answer(old(tx.calls)).Failed? ==>
                err.Failed? && tx.inserted == old(tx.inserted) && tx.calls == old(tx.calls) + 1
      ensures tx.answer(old(tx.calls)).Ok? ==>
                var n := SucceedingPrefix(tx.answer, old(tx.calls) + 1, |addresses|);
                && tx.inserted == old(tx.inserted) + Rows(userID, addresses[..n])
                && (err.Ok? <==> n == |addresses|)
                && tx.calls == old(tx.calls) + 1 + (if n < |addresses| then n + 1 else n)
    {
      var prepared := tx.Prepare();
      if prepared.Failed? {
        return Failed(Service(ServerError));
      }
      ghost var start := tx.calls;
      ghost var before := tx.inserted;
      ghost var n := SucceedingPrefix(tx.answer, start, |addresses|);
      var i := 0;
      while i < |addresses|
        invariant 0 <= i <= n
        invariant tx.calls == start + i
        invariant tx.inserted == before + Rows(userID, addresses[..i])
        invariant tx.openStatements == old(tx.openStatements) + 1
      {
        var executed := tx.Exec(InsertRow(userID, addresses[i].value));
        if executed.Failed? {
          assert executed == tx.answer(start + i);
          assert i == n;
          tx.CloseStatement();
          return Failed(Service(ServerError));
        }
        assert addresses[..i + 1][..i] == addresses[..i];
        i := i + 1;
      }
      assert i == n == |addresses|;
      tx.CloseStatement();
      err := Ok;
    }
  }

  /** The user scanUser builds from a selected row: id, email and phone number; the name column is dropped. */
  function UserOfRow(r: UserRow): User
  {
    ZeroUser.(base := ZeroBase.(id := r.id), email := r.email, phoneNumber := r.phoneNumber)
  }

  /**
   * scanUser: Scan reports the query's error, or ErrNoRows when nothing
   * matched, and otherwise fills id, name, email and phone number.  On error
   * the zero user is returned.
   */
  method ScanUser(row: Row) returns (user: User, err: Outcome)
    ensures row.err.Some? ==> err == Failed(row.err.value)
    ensures row.err.None? && row.found.None? ==> err == Failed(NoRows)
    ensures row.err.None? && row.found.Some? ==> err == Ok && user == UserOfRow(row.found.value)
    ensures err.Failed? ==> user == ZeroUser
  {
    if row.err.Some? {
      return ZeroUser, Failed(row.err.value);
    }
    if row.found.None? {
      return ZeroUser, Failed(NoRows);
    }
    var found := row.found.value;
    user := ZeroUser;
    var name: Option<string> := found.name;
    user := user.(base := user.base.(id := found.id));
    user := user.(email := found.email);
    user := user.(phoneNumber := found.phoneNumber);
    err := Ok;
  }

  /** The error GetByID reports for a failed scan. */
  function LookupError(e: Error): (r: Error)
    ensures r == Service(RecordNotFound) <==> Is(e, NoRows)
    ensures r == Service(RecordNotFound) || r == Service(ServerError)
  {
    if Is(e, NoRows) then Service(RecordNotFound) else Service(ServerError)
  }

  class UserRepository {
    const tx: Tx

    constructor (tx: Tx)
      ensures this.tx == tx
    {
      this.tx := tx;
    }

    /**
     * GetByID: the not-deleted user with this id, RecordNotFound when there is
     * none, ServerError for any other failure.
     */
    method GetByID(id: UInt64) returns (user: Option<User>, err: Outcome)
      ensures user.Some? <==> err.Ok?
      ensures err.Failed? ==> err.error == Service(RecordNotFound) || err.error == Service(ServerError)
      ensures tx.queryAnswer(id).Failed? ==> err == Failed(LookupError(tx.queryAnswer(id).error))
      ensures tx.queryAnswer(id).Ok? ==>
                match Select(tx.users, id)
                case None => err == Failed(Service(RecordNotFound))
                case Some(r) => user == Some(UserOfRow(r))
    {
      var row := tx.QueryRow(id);
      var scanned, scanErr := ScanUser(row);
      if scanErr.Failed? {
        return None, Failed(LookupError(scanErr.error));
      }
      return Some(scanned), Ok;
    }
  }
}
