/**
 * The user importer of cmd/userimporterservice/main.go: every record of the
 * input is either handed to a worker, when one of WorkerCount slots is free,
 * or sent straight to the fallback.  A worker stores the user inside a unit
 * of work and falls back when the transaction fails; the fallback publishes
 * the user to the save-user queue, retrying up to three times, and appends
 * it to a backup file when every attempt failed.
 *
 * The outside world the importer acts on (publishes, sleeps, the backup
 * directory, the units of work it opens) is recorded in a `World` value; the
 * answers it receives come from an `Env` of oracles.
 */
module Importer {

  import opened Failures
  import opened Domain
  import opened Json
  import opened Wrappers
  import opened Port
  import opened Event

  const WorkerCount: nat := 10
  const MaxRetries: nat := 3
  const RetryDelaySeconds: int := 2

  const OpenBackupContext: string := "error opening backup file"
  const WriteBackupContext: string := "error writing to backup file"

  /** What the importer has done to the world so far. */
  datatype World = World(
    published: seq<User>,                 // every saveUserEvent.Publish call, in order
    sleeps: seq<int>,                     // every time.Sleep, in seconds
    fileCalls: nat,                       // file system calls made: opens and writes
    files: map<string, seq<Bytes>>,       // the backup directory: file name -> lines
    units: seq<seq<UowCall>>)             // the calls made on each unit of work, in opening order

  /** The answers the world gives. */
  datatype Env = Env(
    json: Codec,
    timestamp: string,                    // timestampBackupFile, computed once at start
    publishAnswer: nat -> Outcome,        // what the k-th Publish returns
    fileAnswer: nat -> Outcome,           // what the k-th open or write returns
    uowScript: nat -> TxScript)           // the answers of the k-th unit of work

  /** n copies of x. */
  function Repeat<T>(x: T, n: nat): (s: seq<T>)
    ensures |s| == n && forall i :: 0 <= i < n ==> s[i] == x
  {
    if n == 0 then [] else Repeat(x, n - 1) + [x]
  }

  // ---------------------------------------------------------------- retry

  /**
   * retry(attempts, delay, func() error { return saveUserEvent.Publish(user) }):
   * the calls stop at the first nil; each failure is followed by a sleep;
   * after `attempts` failures the result is "failed after <attempts> attempts".
   */
  function RetryRun(env: Env, w: World, attempts: int, delaySeconds: int, user: User): (World, Outcome)
  {
    var limit := if attempts < 0 then 0 else attempts;
    var failures := FailingPrefix(env.publishAnswer, |w.published|, limit);
    var calls := if failures < limit then failures + 1 else limit;
    (w.(published := w.published + Repeat(user, calls), sleeps := w.sleeps + Repeat(delaySeconds, failures)),
     if failures < limit then Ok else Failed(RetryExhausted(attempts)))
  }

  /**
   * retry calls fn at most `attempts` times and returns nil right after the
   * first call that does; when every call fails it has called fn exactly
   * `attempts` times, slept after each of them, and returns an error.  It
   * touches nothing but the publish and sleep records.
   */
  lemma RetryStopsAtFirstSuccess(env: Env, w: World, attempts: int, delaySeconds: int, user: User)
    ensures var (w', err) := RetryRun(env, w, attempts, delaySeconds, user);
            var start := |w.published|;
            var calls := |w'.published| - |w.published|;
            && w'.published[..start] == w.published && w'.sleeps[..|w.sleeps|] == w.sleeps
            && (forall k :: start <= k < |w'.published| ==> w'.published[k] == user)
            && (forall k :: |w.sleeps| <= k < |w'.sleeps| ==> w'.sleeps[k] == delaySeconds)
            && 0 <= calls <= (if attempts < 0 then 0 else attempts)
            && w'.fileCalls == w.fileCalls && w'.files == w.files && w'.units == w.units
            && (err.Ok? <==> 0 < calls && env.publishAnswer(start + calls - 1).Ok?)
            && (forall k :: start <= k < start + calls - 1 ==> env.publishAnswer(k).Failed?)
            && (err.Ok? ==> |w'.sleeps| == |w.sleeps| + calls - 1)
            && (err.Failed? ==>
                  && err == Failed(RetryExhausted(attempts))
                  && calls == (if attempts < 0 then 0 else attempts)
                  && |w'.sleeps| == |w.sleeps| + calls
                  && forall k :: start <= k < start + calls ==> env.publishAnswer(k).Failed?)
  {
    var (w', err) := RetryRun(env, w, attempts, delaySeconds, user);
    assert w'.published[..|w.published|] == w.published;
    assert w'.sleeps[..|w.sleeps|] == w.sleeps;
  }

  // ---------------------------------------------------------------- backup

  /** The backup file's name, built from the timestamp taken at start. */
  function BackupFileName(timestamp: string): string
  {
    "failed_users_" + timestamp + ".json"
  }

  /** The line json.Encoder.Encode writes: the encoded value and a newline. */
  function EncodedLine(body: Bytes): Bytes
  {
    body + [10]
  }

  /**
   * saveFailedDataToBackup: open the backup file for appending, creating it
   * if needed, then encode the user onto a new line; the errors are wrapped
   * with what failed.
   */
  function BackupRun(env: Env, w: World, user: User): (World, Outcome)
  {
    var name := BackupFileName(env.timestamp);
    var contents := if name in w.files then w.files[name] else [];
    var open := env.fileAnswer(w.fileCalls);
    if open.Failed? then
      (w.(fileCalls := w.fileCalls + 1), Failed(Wrapped(OpenBackupContext, open.error)))
    else
      var created := w.files[name := contents];
      match env.json.marshal(user)
      case Failure(e) =>
        (w.(fileCalls := w.fileCalls + 1, files := created), Failed(Wrapped(WriteBackupContext, e)))
      case Success(body) =>
        var write := env.fileAnswer(w.fileCalls + 1);
        if write.Failed? then
          (w.(fileCalls := w.fileCalls + 2, files := created), Failed(Wrapped(WriteBackupContext, write.error)))
        else
          (w.(fileCalls := w.fileCalls + 2, files := w.files[name := contents + [EncodedLine(body)]]), Ok)
  }

  /**
   * A backup only ever appends: every other file is unchanged, a failed
   * open changes no file, the backup file keeps its earlier lines, and it gains exactly one line, the encoded
   * user, when the backup succeeds and none otherwise.  A failure is the
   * open or write error wrapped with what failed.
   */
  lemma BackupOnlyAppends(env: Env, w: World, user: User)
    ensures var (w', err) := BackupRun(env, w, user);
            var name := BackupFileName(env.timestamp);
            var contents := if name in w.files then w.files[name] else [];
            && w'.published == w.published && w'.sleeps == w.sleeps && w'.units == w.units
            && (forall other :: other != name ==>
                  (other in w'.files <==> other in w.files) && (other in w.files ==> w'.files[other] == w.files[other]))
            && (env.fileAnswer(w.fileCalls).Failed? ==> w'.files == w.files)
            && (env.fileAnswer(w.fileCalls).Ok? ==> name in w'.files && w'.files[name][..|contents|] == contents)
            && (err.Ok? <==>
                  && env.fileAnswer(w.fileCalls).Ok? && env.json.marshal(user).Success?
                  && env.fileAnswer(w.fileCalls + 1).Ok?)
            && (err.Ok? ==> w'.files[name] == contents + [EncodedLine(env.json.marshal(user).value)])
            && (err.Failed? && env.fileAnswer(w.fileCalls).Ok? ==> w'.files[name] == contents)
            && (err.Failed? ==>
                  err.error.Wrapped? && (err.error.context == OpenBackupContext <==> env.fileAnswer(w.fileCalls).Failed?))
  {
    var (w', err) := BackupRun(env, w, user);
    var name := BackupFileName(env.timestamp);
    var contents := if name in w.files then w.files[name] else [];
    if env.fileAnswer(w.fileCalls).Ok? {
      assert name in w'.files;
      assert w'.files[name][..|contents|] == contents;
    }
  }

  // ---------------------------------------------------------------- handleFailedPublish

  /** handleFailedPublish: retry the publish MaxRetries times; back the user up when every attempt failed. */
  function FallbackRun(env: Env, w: World, user: User): World
  {
    var (published, err) := RetryRun(env, w, MaxRetries, RetryDelaySeconds, user);
    if err.Ok? then published else BackupRun(env, published, user).0
  }

  /**
   * The fallback writes a backup exactly when all MaxRetries publish
   * attempts fail: when one succeeds the backup directory and the file
   * calls are untouched.
   */
  lemma FallbackBacksUpOnlyAfterEveryRetryFails(env: Env, w: World, user: User)
    ensures var w' := FallbackRun(env, w, user);
            var start := |w.published|;
            var allFailed := forall k :: start <= k < start + MaxRetries ==> env.publishAnswer(k).Failed?;
            && (allFailed ==> |w'.published| == start + MaxRetries && w'.fileCalls > w.fileCalls)
            && (!allFailed ==>
                  |w'.published| <= start + MaxRetries && w'.fileCalls == w.fileCalls && w'.files == w.files)
            && w'.units == w.units
            && start < |w'.published| && w'.published[..start] == w.published && w'.published[start] == user
  {
    RetryStopsAtFirstSuccess(env, w, MaxRetries, RetryDelaySeconds, user);
    var (published, err) := RetryRun(env, w, MaxRetries, RetryDelaySeconds, user);
    if err.Failed? {
      BackupOnlyAppends(env, published, user);
    }
  }

  // ---------------------------------------------------------------- workers

  /**
   * Whether a worker falls back for a unit of work answering by s: when
   * BeginTx fails, when Create and then Rollback fail, or when Create
   * succeeds and Commit fails.  When Create fails but Rollback succeeds the
   * worker returns without any fallback.
   */
  predicate NeedsFallback(s: TxScript)
    ensures NeedsFallback(s) <==>
              || s.begin.Failed?
              || (s.begin.Ok? && s.create.Failed? && s.rollback.Failed?)
              || (s.begin.Ok? && s.create.Ok? && s.commit.Failed?)
  {
    if s.begin.Failed? then true
    else if s.create.Failed? then s.rollback.Failed?
    else s.commit.Failed?
  }

  /** What a worker for `user` does: run the transaction on the next unit of work, then fall back if it failed. */
  function WorkerRun(env: Env, w: World, user: User): World
  {
    var s := env.uowScript(|w.units|);
    var stored := w.(units := w.units + [ProtocolCalls(user, s)]);
    if NeedsFallback(s) then FallbackRun(env, stored, user) else stored
  }

  /**
   * A worker falls back unless its unit of work ended cleanly: committed
   * with no commit error, or rolled back with no rollback error.  So a
   * record whose Create failed is dropped when the rollback succeeds.
   */
  lemma WorkerFallsBackUnlessTransactionEndedCleanly(user: User, s: TxScript)
    ensures var ending := Replay(Unstarted, ProtocolCalls(user, s), s);
            NeedsFallback(s) <==>
              !((ending == Some(Committed) && s.commit.Ok?) || (ending == Some(RolledBack) && s.rollback.Ok?))
  {
    ProtocolIsDisciplined(user, s);
  }

  /**
   * Compared with the queue consumer on the same answers: a worker falls
   * back only when the consumer would report an error, and the one case
   * where the consumer reports an error but the worker does not fall back
   * is a failed Create whose Rollback succeeded.
   */
  lemma WorkerAndConsumerDisagreeOnlyOnRolledBackCreate(s: TxScript)
    ensures NeedsFallback(s) ==> TransactionOutcome(s).Failed?
    ensures TransactionOutcome(s).Failed? && !NeedsFallback(s) <==>
              s.begin.Ok? && s.create.Failed? && s.rollback.Ok?
  {
  }

  /**
   * A worker opens exactly one unit of work and runs the begin / create /
   * commit-or-rollback protocol on it; it publishes or backs up only when it
   * falls back.
   */
  lemma WorkerOpensOneUnitOfWork(env: Env, w: World, user: User)
    ensures var w' := WorkerRun(env, w, user);
            var s := env.uowScript(|w.units|);
            && w'.units == w.units + [ProtocolCalls(user, s)]
            && (!NeedsFallback(s) ==>
                  w'.published == w.published && w'.sleeps == w.sleeps &&
                  w'.fileCalls == w.fileCalls && w'.files == w.files)
            && (NeedsFallback(s) ==> |w.published| < |w'.published| && w'.published[|w.published|] == user)
  {
    var s := env.uowScript(|w.units|);
    var stored := w.(units := w.units + [ProtocolCalls(user, s)]);
    if NeedsFallback(s) {
      FallbackBacksUpOnlyAfterEveryRetryFails(env, stored, user);
      RetryStopsAtFirstSuccess(env, stored, MaxRetries, RetryDelaySeconds, user);
    }
  }

  // ---------------------------------------------------------------- admission

  /** The effect of the given workers completing, oldest first. */
  function RunWorkers(env: Env, w: World, workers: seq<User>): World
    decreases |workers|
  {
    if workers == [] then w
    else WorkerRun(env, RunWorkers(env, w, workers[..|workers| - 1]), workers[|workers| - 1])
  }

  /** How main's loop handled a record. */
  datatype Route = Dispatched | Inline

  /** main's loop so far: the world, the workers started and not yet finished (oldest first), and each record's route. */
  datatype Progress = Progress(world: World, pending: seq<User>, routes: seq<Route>)

  /**
   * One turn of main's loop: the `finished` oldest pending workers complete
   * and free their slots; then the record gets a worker if fewer than
   * WorkerCount slots are held, and the fallback runs inline otherwise.
   */
  function Admit(env: Env, p: Progress, user: User, finished: nat): Progress
  {
    var k := if finished < |p.pending| then finished else |p.pending|;
    var waiting := p.pending[k..];
    var w := RunWorkers(env, p.world, p.pending[..k]);
    if |waiting| < WorkerCount then Progress(w, waiting + [user], p.routes + [Dispatched])
    else Progress(FallbackRun(env, w, user), waiting, p.routes + [Inline])
  }

  /** main's loop over `users`, where finish(i) workers complete before record i is considered. */
  function Admissions(env: Env, p0: Progress, users: seq<User>, finish: nat -> nat): Progress
    decreases |users|
  {
    if users == [] then p0
    else
      var n := |users| - 1;
      Admit(env, Admissions(env, p0, users[..n], finish), users[n], finish(n))
  }

  /** The whole of main after the input is decoded: the loop, then wg.Wait for the workers still running. */
  function MainRun(env: Env, w: World, users: seq<User>, finish: nat -> nat): World
  {
    var p := Admissions(env, Progress(w, [], []), users, finish);
    RunWorkers(env, p.world, p.pending)
  }

  /** How many records were dispatched to a worker. */
  function Dispatches(routes: seq<Route>): nat
    decreases |routes|
  {
    if routes == [] then 0
    else Dispatches(routes[..|routes| - 1]) + (if routes[|routes| - 1] == Dispatched then 1 else 0)
  }

  /** Every worker opens one unit of work. */
  lemma {:induction false} RunWorkersOpensOneUnitEach(env: Env, w: World, workers: seq<User>)
    ensures |RunWorkers(env, w, workers).units| == |w.units| + |workers|
    decreases |workers|
  {
    if workers != [] {
      var earlier := workers[..|workers| - 1];
      RunWorkersOpensOneUnitEach(env, w, earlier);
      WorkerOpensOneUnitOfWork(env, RunWorkers(env, w, earlier), workers[|workers| - 1]);
    }
  }

  /**
   * A turn of the loop routes its record exactly one way: to a worker when a
   * slot is free after the finished workers released theirs, inline
   * otherwise.  The pending workers never exceed WorkerCount, and every
   * worker that stops being pending has run.
   */
  lemma AdmitRoutesByFreeSlot(env: Env, p: Progress, user: User, finished: nat)
    requires |p.pending| <= WorkerCount
    ensures var p' := Admit(env, p, user, finished);
            var free := |p.pending| - (if finished < |p.pending| then finished else |p.pending|) < WorkerCount;
            && p'.routes == p.routes + [if free then Dispatched else Inline]
            && |p'.pending| <= WorkerCount
            && (free ==> p'.pending[|p'.pending| - 1] == user)
            && |p'.world.units| + |p'.pending| == |p.world.units| + |p.pending| + (if free then 1 else 0)
            && var k := if finished < |p.pending| then finished else |p.pending|;
               var w := RunWorkers(env, p.world, p.pending[..k]);
               && (free ==> p'.world == w && p'.pending == p.pending[k..] + [user])
               && (!free ==>
                     && p'.pending == p.pending[k..] && p'.world == FallbackRun(env, w, user) && p'.world.units == w.units
                     && |w.published| < |p'.world.published| && p'.world.published[..|w.published|] == w.published
                     && p'.world.published[|w.published|] == user)
  {
    var k := if finished < |p.pending| then finished else |p.pending|;
    var w := RunWorkers(env, p.world, p.pending[..k]);
    RunWorkersOpensOneUnitEach(env, p.world, p.pending[..k]);
    if |p.pending[k..]| >= WorkerCount {
      FallbackBacksUpOnlyAfterEveryRetryFails(env, w, user);
    }
  }

  /**
   * Over the whole loop every record is routed exactly once, at most
   * WorkerCount workers are ever pending, and each record that went to a
   * worker has either opened its unit of work or is still pending.
   */
  lemma {:induction false} AdmissionsInvariant(env: Env, p0: Progress, users: seq<User>, finish: nat -> nat)
    requires |p0.pending| <= WorkerCount
    ensures var p := Admissions(env, p0, users, finish);
            && |p.routes| == |p0.routes| + |users|
            && p.routes[..|p0.routes|] == p0.routes
            && |p.pending| <= WorkerCount
            && |p.world.units| + |p.pending| == |p0.world.units| + |p0.pending| + Dispatches(p.routes) - Dispatches(p0.routes)
    decreases |users|
  {
    if users != [] {
      var n := |users| - 1;
      AdmissionsInvariant(env, p0, users[..n], finish);
      var before := Admissions(env, p0, users[..n], finish);
      AdmitRoutesByFreeSlot(env, before, users[n], finish(n));
      var after := Admissions(env, p0, users, finish);
      assert after == Admit(env, before, users[n], finish(n));
      assert after.routes[..|after.routes| - 1] == before.routes;
      assert after.routes[..|p0.routes|] == before.routes[..|p0.routes|];
    }
  }

  /** The records routed to a worker, in input order. */
  function DispatchedUsers(users: seq<User>, routes: seq<Route>): (d: seq<User>)
    requires |routes| == |users|
    ensures |d| == Dispatches(routes)
    decreases |users|
  {
    if users == [] then []
    else
      var n := |users| - 1;
      DispatchedUsers(users[..n], routes[..n]) + (if routes[n] == Dispatched then [users[n]] else [])
  }

  /**
   * The units of work after workers for `us` have run one after the other on
   * top of `units`: each opens the next unit and runs the protocol on its own
   * record with that unit's script.
   */
  function OpenUnits(env: Env, units: seq<seq<UowCall>>, us: seq<User>): (r: seq<seq<UowCall>>)
    ensures |r| == |units| + |us|
    decreases |us|
  {
    if us == [] then units
    else
      var before := OpenUnits(env, units, us[..|us| - 1]);
      before + [ProtocolCalls(us[|us| - 1], env.uowScript(|before|))]
  }

  /** Opening units for a + b is opening them for a, then for b. */
  lemma {:induction false} OpenUnitsAppend(env: Env, units: seq<seq<UowCall>>, a: seq<User>, b: seq<User>)
    ensures OpenUnits(env, units, a + b) == OpenUnits(env, OpenUnits(env, units, a), b)
    decreases |b|
  {
    if b == [] {
      assert a + b == a;
    } else {
      OpenUnitsAppend(env, units, a, b[..|b| - 1]);
      assert (a + b)[..|a + b| - 1] == a + b[..|b| - 1];
    }
  }

  /** OpenUnits keeps the earlier units and adds, at position |units| + j, the protocol run on the j-th record. */
  lemma {:induction false} OpenUnitsAt(env: Env, units: seq<seq<UowCall>>, us: seq<User>)
    ensures OpenUnits(env, units, us)[..|units|] == units
    ensures forall j :: 0 <= j < |us| ==>
              OpenUnits(env, units, us)[|units| + j] == ProtocolCalls(us[j], env.uowScript(|units| + j))
    decreases |us|
  {
    if us != [] {
      OpenUnitsAt(env, units, us[..|us| - 1]);
    }
  }

  /** Workers that complete one after the other open the next units of work, each running the protocol on its own record. */
  lemma {:induction false} RunWorkersOpenInOrder(env: Env, w: World, workers: seq<User>)
    ensures RunWorkers(env, w, workers).units == OpenUnits(env, w.units, workers)
    decreases |workers|
  {
    if workers != [] {
      var n := |workers| - 1;
      RunWorkersOpenInOrder(env, w, workers[..n]);
      WorkerOpensOneUnitOfWork(env, RunWorkers(env, w, workers[..n]), workers[n]);
    }
  }

  /**
   * The invariant of main's loop: every record is routed, the pending
   * workers are the latest records dispatched, and the units of work opened
   * so far are exactly those of the earlier dispatched records, in dispatch
   * order, each running the protocol on its own record.
   */
  ghost predicate OpenInOrder(env: Env, w: World, users: seq<User>, p: Progress)
  {
    && |p.routes| == |users|
    && var d := DispatchedUsers(users, p.routes);
       && |p.pending| <= |d|
       && p.pending == d[|d| - |p.pending|..]
       && p.world.units == OpenUnits(env, w.units, d[..|d| - |p.pending|])
  }

  /**
   * One turn of main's loop on the records alone: the first k pending
   * workers finish, so their records join the started ones; the routed
   * record joins the pending ones or not (extra).
   */
  lemma SplitPending(env: Env, w: World, users: seq<User>, p: Progress,
                     started: seq<User>, pending: seq<User>, extra: seq<User>, k: nat)
    requires |p.routes| == |users| && DispatchedUsers(users, p.routes) == started + pending + extra
    requires k <= |pending| && p.pending == pending[k..] + extra
    requires p.world.units == OpenUnits(env, w.units, started + pending[..k])
    ensures OpenInOrder(env, w, users, p)
  {
    var d := DispatchedUsers(users, p.routes);
    assert d == (started + pending[..k]) + p.pending;
    assert d[..|d| - |p.pending|] == started + pending[..k];
  }

  /** A sequence ending in `tail` is its own prefix followed by `tail`. */
  lemma SplitAtTail<T>(d: seq<T>, tail: seq<T>)
    requires |tail| <= |d| && tail == d[|d| - |tail|..]
    ensures d == d[..|d| - |tail|] + tail
  {
  }

  /** One turn of main's loop keeps OpenInOrder. */
  lemma AdmitKeepsOpenInOrder(env: Env, w: World, users: seq<User>, before: Progress, user: User, finished: nat)
    requires |before.pending| <= WorkerCount && OpenInOrder(env, w, users, before)
    ensures OpenInOrder(env, w, users + [user], Admit(env, before, user, finished))
  {
    var d0 := DispatchedUsers(users, before.routes);
    var after := Admit(env, before, user, finished);
    AdmitRoutesByFreeSlot(env, before, user, finished);
    var k := if finished < |before.pending| then finished else |before.pending|;
    var started := d0[..|d0| - |before.pending|];
    SplitAtTail(d0, before.pending);
    RunWorkersOpenInOrder(env, before.world, before.pending[..k]);
    OpenUnitsAppend(env, w.units, started, before.pending[..k]);
    var free := |before.pending| - k < WorkerCount;
    var extra := if free then [user] else [];
    assert after.pending == before.pending[k..] + extra;
    assert after.world.units == OpenUnits(env, w.units, started + before.pending[..k]);
    var n := |users|;
    assert (users + [user])[..n] == users && after.routes[..n] == before.routes;
    assert DispatchedUsers(users + [user], after.routes) == started + before.pending + extra;
    SplitPending(env, w, users + [user], after, started, before.pending, extra, k);
  }

  /** OpenInOrder holds all along main's loop. */
  lemma {:induction false} AdmissionsOpenInOrder(env: Env, w: World, users: seq<User>, finish: nat -> nat)
    ensures OpenInOrder(env, w, users, Admissions(env, Progress(w, [], []), users, finish))
    decreases |users|
  {
    if users != [] {
      var n := |users| - 1;
      assert users[..n] + [users[n]] == users;
      AdmissionsOpenInOrder(env, w, users[..n], finish);
      AdmissionsInvariant(env, Progress(w, [], []), users[..n], finish);
      var before := Admissions(env, Progress(w, [], []), users[..n], finish);
      AdmitKeepsOpenInOrder(env, w, users[..n], before, users[n], finish(n));
    }
  }

  /** The units of work main leaves are those opened, in order, for the records routed to a worker. */
  lemma MainOpensDispatchedUnits(env: Env, w: World, users: seq<User>, finish: nat -> nat)
    ensures var p := Admissions(env, Progress(w, [], []), users, finish);
            && |p.routes| == |users|
            && MainRun(env, w, users, finish).units == OpenUnits(env, w.units, DispatchedUsers(users, p.routes))
  {
    var p := Admissions(env, Progress(w, [], []), users, finish);
    AdmissionsOpenInOrder(env, w, users, finish);
    var d := DispatchedUsers(users, p.routes);
    SplitAtTail(d, p.pending);
    RunWorkersOpenInOrder(env, p.world, p.pending);
    OpenUnitsAppend(env, w.units, d[..|d| - |p.pending|], p.pending);
  }

  /**
   * main returns only after every dispatched worker has finished: each
   * record is routed exactly once, and the units of work opened are exactly
   * one per record routed to a worker, in input order, each running the
   * begin / create / commit-or-rollback protocol on that record.
   */
  lemma MainWaitsForEveryWorker(env: Env, w: World, users: seq<User>, finish: nat -> nat)
    ensures var p := Admissions(env, Progress(w, [], []), users, finish);
            var units := MainRun(env, w, users, finish).units;
            && |p.routes| == |users|
            && |units| == |w.units| + Dispatches(p.routes)
            && units[..|w.units|] == w.units
            && var d := DispatchedUsers(users, p.routes);
               forall j :: 0 <= j < |d| ==> units[|w.units| + j] == ProtocolCalls(d[j], env.uowScript(|w.units| + j))
  {
    var p := Admissions(env, Progress(w, [], []), users, finish);
    MainOpensDispatchedUnits(env, w, users, finish);
    OpenUnitsAt(env, w.units, DispatchedUsers(users, p.routes));
  }

  // ---------------------------------------------------------------- the process

  /** semaphore := make(chan struct{}, capacity): sending takes a slot, receiving frees one. */
  class Semaphore {
    const capacity: nat
    var held: nat

    constructor (capacity: nat)
      ensures this.capacity == capacity && held == 0
    {
      this.capacity := capacity;
      held := 0;
    }

    /** `select { case semaphore <- struct{}{}: ... default: ... }`: take a slot only if one is free, never block. */
    method TryAcquire() returns (acquired: bool)
      requires held <= capacity
      modifies this`held
      ensures acquired <==> old(held) < capacity
      ensures held == (if acquired then old(held) + 1 else old(held)) && held <= capacity
    {
      acquired := held < capacity;
      if acquired {
        held := held + 1;
      }
    }

    /** `<-semaphore`: free a slot. */
    method Release()
      requires 0 < held
      modifies this`held
      ensures held == old(held) - 1
    {
      held := held - 1;
    }
  }

  /** The importer process: the oracles it consults and the world it has acted on. */
  class Process {
    const env: Env
    var world: World

    constructor (env: Env, world: World)
      ensures this.env == env && this.world == world
    {
      this.env, this.world := env, world;
    }

    /** saveUserEvent.Publish, as the importer sees it: one recorded call and its answer. */
    method Publish(user: User) returns (err: Outcome)
      modifies this`world
      ensures err == env.publishAnswer(|old(world).published|)
      ensures world == old(world).(published := old(world).published + [user])
    {
      err := env.publishAnswer(|world.published|);
      world := world.(published := world.published + [user]);
    }

    method Retry(attempts: int, delaySeconds: int, user: User) returns (err: Outcome)
      modifies this`world
      ensures (world, err) == RetryRun(env, old(world), attempts, delaySeconds, user)
    {
      ghost var start := |world.published|;
      ghost var limit := if attempts < 0 then 0 else attempts;
      var i := 0;
      while i < attempts
        invariant 0 <= i <= limit
        invariant forall j :: start <= j < start + i ==> env.publishAnswer(j).Failed?
        invariant world == old(world).(published := old(world).published + Repeat(user, i),
                                       sleeps := old(world).sleeps + Repeat(delaySeconds, i))
      {
        var e := Publish(user);
        assert old(world).published + Repeat(user, i) + [user] == old(world).published + Repeat(user, i + 1);
        if e.Ok? {
          assert FailingPrefix(env.publishAnswer, start, limit) == i;
          return Ok;
        }
        world := world.(sleeps := world.sleeps + [delaySeconds]);
        assert old(world).sleeps + Repeat(delaySeconds, i) + [delaySeconds] == old(world).sleeps + Repeat(delaySeconds, i + 1);
        i := i + 1;
      }
      assert FailingPrefix(env.publishAnswer, start, limit) == limit;
      err := Failed(RetryExhausted(attempts));
    }

    method SaveFailedDataToBackup(user: User) returns (err: Outcome)
      modifies this`world
      ensures (world, err) == BackupRun(env, old(world), user)
    {
      var name := BackupFileName(env.timestamp);
      var files := world.files;
      var open := env.fileAnswer(world.fileCalls);
      world := world.(fileCalls := world.fileCalls + 1);
      if open.Failed? {
        return Failed(Wrapped(OpenBackupContext, open.error));
      }
      var contents := if name in world.files then world.files[name] else [];
      world := world.(files := world.files[name := contents]);
      var encoded := env.json.marshal(user);
      if encoded.Failure? {
        return Failed(Wrapped(WriteBackupContext, encoded.error));
      }
      var write := env.fileAnswer(world.fileCalls);
      world := world.(fileCalls := world.fileCalls + 1);
      if write.Failed? {
        return Failed(Wrapped(WriteBackupContext, write.error));
      }
      world := world.(files := files[name := contents + [EncodedLine(encoded.value)]]);
      err := Ok;
    }

    /** handleFailedPublish; a backup error is only logged. */
    method HandleFailedPublish(user: User)
      modifies this`world
      ensures world == FallbackRun(env, old(world), user)
    {
      var err := Retry(MaxRetries, RetryDelaySeconds, user);
      if err.Failed? {
        var _ := SaveFailedDataToBackup(user);
      }
    }

    /** Records the calls made on a unit of work once its transaction is over. */
    method EndUnit(uow: UnitOfWork)
      modifies this`world
      ensures world == old(world).(units := old(world).units + [uow.calls])
    {
      world := world.(units := world.units + [uow.calls]);
    }

    /** The worker goroutine's body, for the record it was admitted with. */
    method Work(user: User)
      modifies this`world
      ensures world == WorkerRun(env, old(world), user)
    {
      var uow := new UnitOfWork(env.uowScript(|world.units|));
      var txErr := uow.BeginTx();
      if txErr.Failed? {
        assert uow.calls == ProtocolCalls(user, uow.script);
        EndUnit(uow);
        HandleFailedPublish(user);
        return;
      }
      var createErr := CreateUser(uow, user);
      if createErr.Failed? {
        var rollbackErr := uow.Rollback();
        assert uow.calls == ProtocolCalls(user, uow.script);
        EndUnit(uow);
        if rollbackErr.Failed? {
          HandleFailedPublish(user);
        }
        return;
      }
      var commitErr := uow.Commit();
      assert uow.calls == ProtocolCalls(user, uow.script);
      EndUnit(uow);
      if commitErr.Failed? {
        HandleFailedPublish(user);
      }
    }

    /** The given pending workers complete, oldest first, each freeing its slot as it exits. */
    method FinishWorkers(workers: seq<User>, semaphore: Semaphore)
      requires |workers| <= semaphore.held
      modifies this`world, semaphore`held
      ensures world == RunWorkers(env, old(world), workers)
      ensures semaphore.held == old(semaphore.held) - |workers|
    {
      for j := 0 to |workers|
        invariant world == RunWorkers(env, old(world), workers[..j])
        invariant semaphore.held == old(semaphore.held) - j
      {
        Work(workers[j]);
        semaphore.Release();
        assert workers[..j + 1][..j] == workers[..j];
      }
      assert workers[..|workers|] == workers;
    }

    /**
     * main's loop over the decoded records, then wg.Wait.  finish(i) is how
     * many of the oldest running workers finish before record i is
     * considered; the rest finish at wg.Wait.
     */
    method ImportUsers(users: seq<User>, finish: nat -> nat) returns (ghost routes: seq<Route>)
      modifies this`world
      ensures world == MainRun(env, old(world), users, finish)
      ensures routes == Admissions(env, Progress(old(world), [], []), users, finish).routes
    {
      var semaphore := new Semaphore(WorkerCount);
      var wg: nat := 0;
      var pending: seq<User> := [];
      routes := [];
      ghost var p0 := Progress(world, [], []);
      for i := 0 to |users|
        invariant semaphore.capacity == WorkerCount
        invariant semaphore.held == wg == |pending| <= WorkerCount
        invariant Progress(world, pending, routes) == Admissions(env, p0, users[..i], finish)
      {
        ghost var before := Progress(world, pending, routes);
        var k := if finish(i) < |pending| then finish(i) else |pending|;
        FinishWorkers(pending[..k], semaphore);
        wg := wg - k;
        pending := pending[k..];
        var acquired := semaphore.TryAcquire();
        if acquired {
          wg := wg + 1;
          pending := pending + [users[i]];
          routes := routes + [Dispatched];
        } else {
          HandleFailedPublish(users[i]);
          routes := routes + [Inline];
        }
        assert Progress(world, pending, routes) == Admit(env, before, users[i], finish(i));
        assert users[..i + 1][..i] == users[..i];
      }
      assert users[..|users|] == users;
      FinishWorkers(pending, semaphore);
      wg := 0;
    }
  }
}
