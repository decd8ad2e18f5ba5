/**
 * DatabaseBackupRunner: the retry controller (TryBackupWithRetries) and the
 * per-run orchestrator (CreateBackupAsync).
 *
 * What the engine gets from outside is a parameter: the clock, the platform,
 * File.Exists, ParseDatabaseType, the faults of the directory and audit-log
 * calls, and, per target, what each attempt of the external tool does. An
 * exception in flight is a Flow value; the outer catch of CreateBackupAsync
 * turns any of them into the single synthetic failure result.
 */
module Runner {
  import opened Common
  import opened Text
  import opened Models
  import opened Commands

  /** An exception in flight: an OperationCanceledException, or any other exception. */
  datatype Exception = Canceled(message: string) | Fault(message: string)

  /** How a call ends: normally with a value, or by throwing. */
  datatype Flow<T> = Normal(value: T) | Raised(error: Exception)

  /** What one run of the external tool does (RunProcessAsync inside the backup action). */
  datatype ActionOutcome =
    | Ok                      // the tool exited with code 0
    | Fail                    // the tool exited with a non-zero code
    | Throw(message: string)  // RunProcessAsync threw something other than a cancellation
    | Cancel(message: string) // the wait for the tool was cancelled

  /**
   * One attempt: what the action does and, when a retry delay follows it,
   * whether the token cancels that Task.Delay (Some(message)) or not (None).
   */
  datatype Attempt = Attempt(action: ActionOutcome, delayCancel: Option<string>)

  /** The attempts of one target, by attempt number 1, 2, ... */
  type Script = int -> Attempt

  /**
   * The message of the ArgumentOutOfRangeException that Task.Delay throws for
   * a delay below -1; the runtime's exact wording is not modelled.
   */
  const DelayOutOfRangeMessage: string := "millisecondsDelay is out of range"

  /**
   * Task.Delay(RetryDelayMilliseconds, cancellationToken): the exception it
   * throws, if any. A delay below -1 is rejected before the token is looked at.
   */
  function AwaitDelay(retryDelay: int, delayCancel: Option<string>): (thrown: Option<Exception>)
    ensures retryDelay < -1 <==> thrown == Some(Fault(DelayOutOfRangeMessage))
    ensures retryDelay >= -1 ==> (thrown.None? <==> delayCancel.None?)
  {
    if retryDelay < -1 then Some(Fault(DelayOutOfRangeMessage))
    else match delayCancel
      case None => None
      case Some(m) => Some(Canceled(m))
  }

  /** The List<BackupResult> that one run appends its results to. */
  class ResultList {
    var items: seq<BackupResult>

    constructor ()
      ensures items == []
    {
      items := [];
    }

    method Add(r: BackupResult)
      modifies this
      ensures items == old(items) + [r]
    {
      items := items + [r];
    }
  }

  // ---------------------------------------------------------------------
  // The results the runner creates
  // ---------------------------------------------------------------------

  function SuccessResult(database: string, filePath: string, clock: int): BackupResult
  {
    BackupResult(true, filePath, "Backup completed for " + database, clock)
  }

  function CancelledResult(dbName: string, filePath: string, clock: int): BackupResult
  {
    BackupResult(false, filePath, "Backup for " + dbName + " was cancelled.", clock)
  }

  function ExhaustedMessage(database: string, maxRetries: int): string
  {
    "Backup failed for " + database + " after " + IntToString(maxRetries) + " attempts."
  }

  function UnsupportedTypeResult(db: DatabaseConnectionDetails, clock: int): BackupResult
  {
    BackupResult(false, "", "Unsupported DB type '" + db.typeName + "' for " + db.database + ". Skipping backup.", clock)
  }

  function ToolNotFoundResult(toolPath: string, db: DatabaseConnectionDetails, clock: int): BackupResult
  {
    BackupResult(false, "", "Tool not found at '" + toolPath + "' for " + db.typeName
                            + " database. Skipping backup for " + db.database + ".", clock)
  }

  function SystemErrorResult(message: string, clock: int): BackupResult
  {
    BackupResult(false, "", "Unexpected system error during backup: " + message, clock)
  }

  /** DatabaseType.ToString(): the member name, or the number of an unnamed value. */
  function TypeName(dbType: DatabaseType): string
  {
    match dbType
    case Postgres => "Postgres"
    case SqlServer => "SqlServer"
    case Unsupported => "Unsupported"
    case Undefined(code) => IntToString(code)
  }

  // ---------------------------------------------------------------------
  // Retry controller: specification
  // ---------------------------------------------------------------------

  /** The arguments of one TryBackupWithRetries call, with the result its action appends on success. */
  datatype RetryRequest = RetryRequest(
    maxRetries: int,
    retryDelay: int,
    onSuccess: BackupResult,
    dbName: string,
    filePath: string,
    errorMessage: string,
    clock: int)

  /**
   * What a TryBackupWithRetries call does: the results appended to the list
   * (by the action or by the controller), how it ends, and how many attempts
   * and retry delays it started.
   */
  datatype RetryTrace = RetryTrace(appended: seq<BackupResult>, flow: Flow<bool>, attempts: nat, delays: nat)

  function ExhaustedResult(req: RetryRequest): BackupResult
  {
    BackupResult(false, req.filePath, req.errorMessage, req.clock)
  }

  function Shift(t: RetryTrace, attempts: nat, delays: nat): RetryTrace
  {
    t.(attempts := t.attempts + attempts, delays := t.delays + delays)
  }

  /** The controller from attempt number k on. */
  function RetryFrom(k: int, req: RetryRequest, script: Script): RetryTrace
    decreases req.maxRetries - k + 1
  {
    if k > req.maxRetries then RetryTrace([ExhaustedResult(req)], Normal(false), 0, 0)
    else
      var attempt := script(k);
      var cancelled := CancelledResult(req.dbName, req.filePath, req.clock);
      var retrying := k < req.maxRetries;
      var delayThrown := AwaitDelay(req.retryDelay, attempt.delayCancel);
      match attempt.action
      case Ok => RetryTrace([req.onSuccess], Normal(true), 1, 0)
      case Cancel(m) => RetryTrace([cancelled], Raised(Canceled(m)), 1, 0)
      case Fail =>
        if retrying && delayThrown.Some? then
          // a cancelled delay is recorded and rethrown; a rejected one is caught,
          // and the delay in the catch block throws the same again
          if delayThrown.value.Canceled? then RetryTrace([cancelled], Raised(delayThrown.value), 1, 1)
          else RetryTrace([], Raised(delayThrown.value), 1, 2)
        else Shift(RetryFrom(k + 1, req, script), 1, if retrying then 1 else 0)
      case Throw(_) =>
        if retrying && delayThrown.Some? then RetryTrace([], Raised(delayThrown.value), 1, 1)
        else Shift(RetryFrom(k + 1, req, script), 1, if retrying then 1 else 0)
  }

  function Retry(req: RetryRequest, script: Script): RetryTrace
  {
    RetryFrom(1, req, script)
  }

  // ---------------------------------------------------------------------
  // Orchestrator: specification
  // ---------------------------------------------------------------------

  /** What one run gets from its environment. */
  datatype RunEnvironment = RunEnvironment(
    timestamp: string,                          // DateTime.UtcNow as yyyyMMdd_HHmmss
    clock: int,                                 // DateTime.UtcNow for every CompletedAt of the run
    isWindows: bool,                            // the platform the service runs on
    invalidFileNameChars: set<char>,            // Path.GetInvalidFileNameChars()
    parseType: string -> Option<DatabaseType>,  // ParseDatabaseType; None when it throws
    existingFiles: set<string>,                 // the paths File.Exists accepts
    backupDirectoryFault: Option<string>,       // Directory.CreateDirectory(BackupDirectory) throws
    auditLogFault: Option<string>,              // creating or writing the audit log throws
    scripts: int -> Script)                     // the attempts of the i-th configured target

  /** What processing targets does: the results appended and the exception that escaped, if any. */
  datatype TargetTrace = TargetTrace(appended: seq<BackupResult>, escaped: Option<Exception>)

  function TargetRetryRequest(config: DatabaseConfigurations, db: DatabaseConnectionDetails,
                              filePath: string, env: RunEnvironment): RetryRequest
  {
    RetryRequest(config.maxRetries, config.retryDelayMilliseconds, SuccessResult(db.database, filePath, env.clock), db.database, filePath,
                 ExhaustedMessage(db.database, config.maxRetries), env.clock)
  }

  /** How the retry controller's ending looks to the foreach: a Raised flow escapes. */
  function FromRetry(t: RetryTrace): TargetTrace
  {
    TargetTrace(t.appended, if t.flow.Raised? then Some(t.flow.error) else None)
  }

  /** The part of one iteration after the type check: choose the tool, check it exists, run it. */
  function ProcessCommand(config: DatabaseConfigurations, i: int, db: DatabaseConnectionDetails,
                          dbType: DatabaseType, filePath: string, env: RunEnvironment): TargetTrace
  {
    match SelectCommand(config, db, dbType, db.ResolvePlatformHost(env.isWindows), filePath)
    case None =>
      TargetTrace([], Some(Fault("Unhandled database type '" + TypeName(dbType) + "'. This should have been caught earlier.")))
    case Some(cmd) =>
      if cmd.toolPath !in env.existingFiles then TargetTrace([ToolNotFoundResult(cmd.toolPath, db, env.clock)], None)
      else FromRetry(Retry(TargetRetryRequest(config, db, filePath, env), env.scripts(i)))
  }

  /** One iteration of the foreach over the connections (DatabaseBackupRunner.cs:36-118). */
  function ProcessTarget(config: DatabaseConfigurations, i: int, db: DatabaseConnectionDetails,
                         safeReason: string, env: RunEnvironment): TargetTrace
  {
    match env.parseType(db.typeName)
    case None => TargetTrace([], Some(Fault("Unsupported database type: " + db.typeName)))
    case Some(dbType) =>
      if dbType == Unsupported then TargetTrace([UnsupportedTypeResult(db, env.clock)], None)
      else ProcessCommand(config, i, db, dbType,
                          BackupFilePath(config.backupDirectory, db.database, safeReason, env.timestamp, dbType, env.isWindows), env)
  }

  /**
   * What each configured target does, in configuration order. The ensures
   * only exposes the comprehension to the verifier; it states no property.
   */
  function TargetTraces(config: DatabaseConfigurations, safeReason: string, env: RunEnvironment): (traces: seq<TargetTrace>)
    ensures |traces| == |config.connections|
    ensures forall i :: 0 <= i < |traces| ==> traces[i] == ProcessTarget(config, i, config.connections[i], safeReason, env)
  {
    seq(|config.connections|, i requires 0 <= i < |config.connections| =>
          ProcessTarget(config, i, config.connections[i], safeReason, env))
  }

  /** The first n iterations of the foreach over the targets' traces; an escaping exception ends the loop. */
  function Accumulate(traces: seq<TargetTrace>, n: nat): TargetTrace
    requires n <= |traces|
  {
    if n == 0 then TargetTrace([], None)
    else
      var before := Accumulate(traces, n - 1);
      if before.escaped.Some? then before
      else TargetTrace(before.appended + traces[n - 1].appended, traces[n - 1].escaped)
  }

  /** The targets' part of a run, after the reason has been sanitised. */
  function RunTargets(config: DatabaseConfigurations, reason: string, env: RunEnvironment): TargetTrace
  {
    var traces := TargetTraces(config, SanitizeReason(reason, env.invalidFileNameChars), env);
    Accumulate(traces, |traces|)
  }

  /** No exception reaches the outer catch of CreateBackupAsync. */
  predicate RunCompletes(config: DatabaseConfigurations, reason: string, env: RunEnvironment)
  {
    env.backupDirectoryFault.None? && RunTargets(config, reason, env).escaped.None? && env.auditLogFault.None?
  }

  /** The list CreateBackupAsync returns. */
  function CreateBackup(config: DatabaseConfigurations, reason: string, env: RunEnvironment): seq<BackupResult>
  {
    if env.backupDirectoryFault.Some? then [SystemErrorResult(env.backupDirectoryFault.value, env.clock)]
    else
      var run := RunTargets(config, reason, env);
      if run.escaped.Some? then [SystemErrorResult(run.escaped.value.message, env.clock)]
      else if env.auditLogFault.Some? then [SystemErrorResult(env.auditLogFault.value, env.clock)]
      else run.appended
  }

  // ---------------------------------------------------------------------
  // The runner
  // ---------------------------------------------------------------------

  class DatabaseBackupRunner {
    const config: DatabaseConfigurations

    constructor (config: DatabaseConfigurations)
      ensures this.config == config
    {
      this.config := config;
    }

    /**
     * The action handed to TryBackupWithRetries (DatabaseBackupRunner.cs:86-112):
     * runs the tool and, when it succeeds, appends the success result itself.
     */
    method BackupAction(outcome: ActionOutcome, onSuccess: BackupResult, results: ResultList) returns (flow: Flow<bool>)
      modifies results
      ensures results.items == old(results.items) + (if outcome.Ok? then [onSuccess] else [])
      ensures outcome.Ok? ==> flow == Normal(true)
      ensures outcome.Fail? ==> flow == Normal(false)
      ensures outcome.Throw? ==> flow == Raised(Fault(outcome.message))
      ensures outcome.Cancel? ==> flow == Raised(Canceled(outcome.message))
    {
      match outcome
      case Ok =>
        results.Add(onSuccess);
        flow := Normal(true);
      case Fail =>
        flow := Normal(false);
      case Throw(m) =>
        flow := Raised(Fault(m));
      case Cancel(m) =>
        flow := Raised(Canceled(m));
    }

    /**
     * TryBackupWithRetries: up to MaxRetries attempts of the action, with a
     * cancellable delay between attempts. The ghost outputs count the attempts
     * and delays started.
     */
    method TryBackupWithRetries(script: Script, onSuccess: BackupResult, dbName: string, results: ResultList,
                                filePath: string, errorMessage: string, clock: int)
      returns (flow: Flow<bool>, ghost attempts: nat, ghost delays: nat)
      modifies results
      ensures var t := Retry(RetryRequest(config.maxRetries, config.retryDelayMilliseconds, onSuccess, dbName,
                                          filePath, errorMessage, clock), script);
              && results.items == old(results.items) + t.appended
              && flow == t.flow && attempts == t.attempts && delays == t.delays
    {
      ghost var req := RetryRequest(config.maxRetries, config.retryDelayMilliseconds, onSuccess, dbName,
                                    filePath, errorMessage, clock);
      attempts, delays := 0, 0;
      var attempt := 1;
      while attempt <= config.maxRetries
        invariant 1 <= attempt && attempts == attempt - 1
        invariant results.items == old(results.items)
        invariant Shift(RetryFrom(attempt, req, script), attempts, delays) == Retry(req, script)
        decreases config.maxRetries - attempt
      {
        var step := script(attempt);
        attempts := attempts + 1;
        // try
        var thrown: Option<Exception> := None;
        var acted := BackupAction(step.action, onSuccess, results);
        if acted == Normal(true) {
          return acted, attempts, delays;
        }
        if acted.Raised? {
          thrown := Some(acted.error);
        } else if attempt < config.maxRetries {
          delays := delays + 1;
          thrown := AwaitDelay(config.retryDelayMilliseconds, step.delayCancel);
        }
        // catch (OperationCanceledException): record the cancellation and rethrow
        if thrown.Some? && thrown.value.Canceled? {
          results.Add(CancelledResult(dbName, filePath, clock));
          return Raised(thrown.value), attempts, delays;
        }
        // catch (Exception): wait before the next attempt; this delay is outside the try
        if thrown.Some? && attempt < config.maxRetries {
          delays := delays + 1;
          var delayThrown := AwaitDelay(config.retryDelayMilliseconds, step.delayCancel);
          if delayThrown.Some? {
            return Raised(delayThrown.value), attempts, delays;
          }
        }
        RetryContinues(attempt, req, script);
        attempt := attempt + 1;
      }
      results.Add(BackupResult(false, filePath, errorMessage, clock));
      flow := Normal(false);
    }

    /**
     * One iteration of the foreach in CreateBackupAsync (DatabaseBackupRunner.cs:38-117):
     * appends this target's results and returns the exception that leaves
     * the iteration, if any.
     */
    method BackupTarget(i: int, db: DatabaseConnectionDetails, safeReason: string, env: RunEnvironment, results: ResultList)
      returns (escaped: Option<Exception>)
      modifies results
      ensures var t := ProcessTarget(config, i, db, safeReason, env);
              results.items == old(results.items) + t.appended && escaped == t.escaped
    {
      var parsed := env.parseType(db.typeName);
      if parsed.None? {
        return Some(Fault("Unsupported database type: " + db.typeName));
      }
      var dbType := parsed.value;
      if dbType == Unsupported {
        results.Add(UnsupportedTypeResult(db, env.clock));
        return None;
      }
      var filePath := BackupFilePath(config.backupDirectory, db.database, safeReason, env.timestamp, dbType, env.isWindows);
      var command := SelectCommand(config, db, dbType, db.ResolvePlatformHost(env.isWindows), filePath);
      if command.None? {
        return Some(Fault("Unhandled database type '" + TypeName(dbType) + "'. This should have been caught earlier."));
      }
      var cmd := command.value;
      if cmd.toolPath !in env.existingFiles {
        results.Add(ToolNotFoundResult(cmd.toolPath, db, env.clock));
        return None;
      }
      var flow;
      ghost var attempts, delays;
      flow, attempts, delays := TryBackupWithRetries(env.scripts(i), SuccessResult(db.database, filePath, env.clock),
                                                     db.database, results, filePath,
                                                     ExhaustedMessage(db.database, config.maxRetries), env.clock);
      escaped := if flow.Raised? then Some(flow.error) else None;
    }

    /** CreateBackupAsync: back up every configured target in order and return the results. */
    method CreateBackupAsync(reason: string, env: RunEnvironment) returns (results: seq<BackupResult>)
      ensures results == CreateBackup(config, reason, env)
    {
      if env.backupDirectoryFault.Some? {
        return [SystemErrorResult(env.backupDirectoryFault.value, env.clock)];
      }
      var safeReason := SanitizeReason(reason, env.invalidFileNameChars);
      ghost var traces := TargetTraces(config, safeReason, env);
      var list := new ResultList();
      var i := 0;
      while i < |config.connections|
        invariant 0 <= i <= |config.connections|
        invariant Accumulate(traces, i) == TargetTrace(list.items, None)
      {
        var escaped := BackupTarget(i, config.connections[i], safeReason, env, list);
        if escaped.Some? {
          EscapeEndsRun(traces, i + 1);
          return [SystemErrorResult(escaped.value.message, env.clock)];
        }
        i := i + 1;
      }
      if env.auditLogFault.Some? {
        return [SystemErrorResult(env.auditLogFault.value, env.clock)];
      }
      results := list.items;
    }
  }

  // ---------------------------------------------------------------------
  // Properties of the retry controller
  // ---------------------------------------------------------------------

  /**
   * The controller ends normally with exactly one result appended (the
   * action's success result or the exhausted-retries failure), or by an
   * exception: a cancellation, after appending the cancelled result or (when
   * the cancelled delay follows a thrown attempt) nothing; or, with a retry
   * delay below -1, the ArgumentOutOfRangeException of Task.Delay, after
   * appending nothing. No other exception ever leaves it.
   */
  lemma {:induction false} RetryOutcomes(k: int, req: RetryRequest, script: Script)
    ensures var t := RetryFrom(k, req, script);
            && (t.flow == Normal(true) ==> t.appended == [req.onSuccess])
            && (t.flow == Normal(false) ==> t.appended == [ExhaustedResult(req)])
            && (t.flow.Raised? && t.flow.error.Canceled? ==>
                  t.appended == [] || t.appended == [CancelledResult(req.dbName, req.filePath, req.clock)])
            && (t.flow.Raised? && t.flow.error.Fault? ==>
                  req.retryDelay < -1 && t.flow.error == Fault(DelayOutOfRangeMessage) && t.appended == [])
    decreases req.maxRetries - k + 1
  {
    if k <= req.maxRetries {
      var attempt := script(k);
      var delayThrown := AwaitDelay(req.retryDelay, attempt.delayCancel);
      if (attempt.action.Fail? || attempt.action.Throw?) && !(k < req.maxRetries && delayThrown.Some?) {
        RetryOutcomes(k + 1, req, script);
      }
    }
  }

  /** An attempt that fails or throws, with no delay that throws after it, hands over to the next attempt. */
  lemma RetryContinues(k: int, req: RetryRequest, script: Script)
    requires k <= req.maxRetries
    requires script(k).action.Fail? || script(k).action.Throw?
    requires !(k < req.maxRetries && AwaitDelay(req.retryDelay, script(k).delayCancel).Some?)
    ensures RetryFrom(k, req, script) == Shift(RetryFrom(k + 1, req, script), 1, if k < req.maxRetries then 1 else 0)
  {
  }

  /** With MaxRetries <= 0 the action never runs, and one failure result is still recorded. */
  lemma RetryWithoutAttempts(req: RetryRequest, script: Script)
    requires req.maxRetries <= 0
    ensures Retry(req, script) == RetryTrace([ExhaustedResult(req)], Normal(false), 0, 0)
  {
  }

  /** Every attempt from k on fails or throws, and every retry delay elapses. */
  predicate AllFailFrom(k: int, req: RetryRequest, script: Script)
  {
    forall j :: k <= j <= req.maxRetries ==>
      (script(j).action.Fail? || script(j).action.Throw?)
      && (j < req.maxRetries ==> AwaitDelay(req.retryDelay, script(j).delayCancel).None?)
  }

  lemma {:induction false} RetryExhaustsFrom(k: int, req: RetryRequest, script: Script)
    requires 1 <= k <= req.maxRetries && AllFailFrom(k, req, script)
    ensures RetryFrom(k, req, script)
         == RetryTrace([ExhaustedResult(req)], Normal(false), req.maxRetries - k + 1, req.maxRetries - k)
    decreases req.maxRetries - k
  {
    if k < req.maxRetries {
      RetryExhaustsFrom(k + 1, req, script);
    }
  }

  /**
   * With MaxRetries = N >= 1 and an action that always fails or throws, the
   * action runs exactly N times with N - 1 delays, exactly one failure result
   * with the given path and message is appended, and the call returns false.
   */
  lemma RetryExhausts(req: RetryRequest, script: Script)
    requires req.maxRetries >= 1 && AllFailFrom(1, req, script)
    ensures Retry(req, script)
         == RetryTrace([BackupResult(false, req.filePath, req.errorMessage, req.clock)], Normal(false),
                       req.maxRetries, req.maxRetries - 1)
  {
    RetryExhaustsFrom(1, req, script);
  }

  lemma {:induction false} RetryFirstSuccessFrom(k: int, j: int, req: RetryRequest, script: Script)
    requires 1 <= k <= j <= req.maxRetries
    requires script(j).action.Ok?
    requires forall i :: k <= i < j ==>
               (script(i).action.Fail? || script(i).action.Throw?) && AwaitDelay(req.retryDelay, script(i).delayCancel).None?
    ensures RetryFrom(k, req, script) == RetryTrace([req.onSuccess], Normal(true), j - k + 1, j - k)
    decreases j - k
  {
    if k < j {
      RetryFirstSuccessFrom(k + 1, j, req, script);
    }
  }

  /**
   * When attempt j is the first to succeed, the controller stops there: j
   * attempts, j - 1 delays, only the action's own success result appended,
   * and the call returns true.
   */
  lemma RetryStopsAtFirstSuccess(j: int, req: RetryRequest, script: Script)
    requires 1 <= j <= req.maxRetries
    requires script(j).action.Ok?
    requires forall i :: 1 <= i < j ==>
               (script(i).action.Fail? || script(i).action.Throw?) && AwaitDelay(req.retryDelay, script(i).delayCancel).None?
    ensures Retry(req, script) == RetryTrace([req.onSuccess], Normal(true), j, j - 1)
  {
    RetryFirstSuccessFrom(1, j, req, script);
  }

  /**
   * The delay after a thrown attempt sits in the catch block, outside the try:
   * cancelling it leaves the controller without recording anything.
   */
  lemma RetryCancelledInCatchDelay(req: RetryRequest, script: Script, thrown: string, cancel: string)
    requires req.maxRetries >= 2 && req.retryDelay >= -1
    requires script(1) == Attempt(Throw(thrown), Some(cancel))
    ensures Retry(req, script) == RetryTrace([], Raised(Canceled(cancel)), 1, 1)
  {
  }

  /**
   * A retry delay below -1 makes Task.Delay throw after the first failed
   * attempt; the catch block's own delay throws the same again, so the
   * exception leaves the controller with nothing recorded.
   */
  lemma RetryDelayOutOfRange(req: RetryRequest, script: Script)
    requires req.maxRetries >= 2 && req.retryDelay < -1
    requires script(1).action.Fail? || script(1).action.Throw?
    ensures var t := Retry(req, script);
            && t.appended == [] && t.flow == Raised(Fault(DelayOutOfRangeMessage))
            && t.attempts == 1 && t.delays == (if script(1).action.Fail? then 2 else 1)
  {
  }

  /** A cancelled tool run is recorded once as cancelled and rethrown. */
  lemma RetryCancelledAction(req: RetryRequest, script: Script, message: string)
    requires req.maxRetries >= 1
    requires script(1).action == Cancel(message)
    ensures Retry(req, script)
         == RetryTrace([CancelledResult(req.dbName, req.filePath, req.clock)], Raised(Canceled(message)), 1, 0)
  {
  }

  // ---------------------------------------------------------------------
  // Properties of a run
  // ---------------------------------------------------------------------

  /** Once an exception escapes a target, the later targets are not processed. */
  lemma {:induction false} EscapeEndsRun(traces: seq<TargetTrace>, n: nat)
    requires n <= |traces|
    requires Accumulate(traces, n).escaped.Some?
    ensures Accumulate(traces, |traces|) == Accumulate(traces, n)
    decreases |traces| - n
  {
    if n < |traces| {
      EscapeEndsRun(traces, n + 1);
    }
  }

  /** Every target that lets no exception escape records exactly one result. */
  predicate OneResultUnlessEscaped(traces: seq<TargetTrace>)
  {
    forall i :: 0 <= i < |traces| && traces[i].escaped.None? ==> |traces[i].appended| == 1
  }

  /**
   * While no exception escapes, the first n targets give exactly n results,
   * the i-th being the one result of the i-th target.
   */
  lemma {:induction false} OneResultPerTarget(traces: seq<TargetTrace>, n: nat)
    requires n <= |traces| && OneResultUnlessEscaped(traces)
    requires Accumulate(traces, n).escaped.None?
    ensures var run := Accumulate(traces, n);
            && |run.appended| == n
            && forall i :: 0 <= i < n ==> traces[i] == TargetTrace([run.appended[i]], None)
  {
    if n > 0 {
      var before := Accumulate(traces, n - 1);
      OneResultPerTarget(traces, n - 1);
      var run := Accumulate(traces, n);
      assert run.appended == before.appended + traces[n - 1].appended;
      assert traces[n - 1] == TargetTrace([run.appended[n - 1]], None);
    }
  }

  /**
   * After the type check: a missing tool gives a failure with an empty path;
   * a target that reaches the retry controller and lets nothing escape
   * records its backup path, and succeeds exactly when some attempt did.
   */
  lemma CommandResultCases(config: DatabaseConfigurations, i: int, db: DatabaseConnectionDetails,
                           dbType: DatabaseType, filePath: string, env: RunEnvironment)
    requires dbType == Postgres || dbType == SqlServer
    ensures var t := ProcessCommand(config, i, db, dbType, filePath, env);
            var tool := if dbType == Postgres then config.pgDumpPath else config.sqlCmdPath;
            var retry := Retry(TargetRetryRequest(config, db, filePath, env), env.scripts(i));
            && (tool !in env.existingFiles ==>
                  t == TargetTrace([ToolNotFoundResult(tool, db, env.clock)], None))
            && (tool in env.existingFiles && t.escaped.None? ==>
                  |t.appended| == 1 && t.appended[0].filePath == filePath
                  && (t.appended[0].success <==> retry.flow == Normal(true))
                  && t.appended[0].message == (if retry.flow == Normal(true) then "Backup completed for " + db.database
                                               else ExhaustedMessage(db.database, config.maxRetries)))
  {
    var cmd := SelectCommand(config, db, dbType, db.ResolvePlatformHost(env.isWindows), filePath);
    assert cmd.Some? && cmd.value.toolPath == if dbType == Postgres then config.pgDumpPath else config.sqlCmdPath;
    var req := TargetRetryRequest(config, db, filePath, env);
    var retry := Retry(req, env.scripts(i));
    RetryOutcomes(1, req, env.scripts(i));
    if cmd.value.toolPath in env.existingFiles {
      var t := ProcessCommand(config, i, db, dbType, filePath, env);
      assert t == FromRetry(retry);
      if t.escaped.None? {
        assert retry.flow.Normal?;
        if retry.flow.value {
          assert t.appended == [SuccessResult(db.database, filePath, env.clock)];
        } else {
          assert t.appended == [BackupResult(false, filePath, ExhaustedMessage(db.database, config.maxRetries), env.clock)];
        }
      }
    }
  }

  /** A target that lets no exception escape appends exactly one result. */
  lemma TargetAppendsOne(config: DatabaseConfigurations, i: int, db: DatabaseConnectionDetails,
                         safeReason: string, env: RunEnvironment)
    requires ProcessTarget(config, i, db, safeReason, env).escaped.None?
    ensures |ProcessTarget(config, i, db, safeReason, env).appended| == 1
  {
    match env.parseType(db.typeName)
    case None =>
    case Some(dbType) =>
      if dbType != Unsupported {
        var filePath := BackupFilePath(config.backupDirectory, db.database, safeReason, env.timestamp, dbType, env.isWindows);
        if dbType.Postgres? || dbType.SqlServer? {
          CommandResultCases(config, i, db, dbType, filePath, env);
        }
      }
  }

  /** Every configured target that lets no exception escape records exactly one result. */
  lemma TargetsRecordOneResult(config: DatabaseConfigurations, safeReason: string, env: RunEnvironment)
    ensures OneResultUnlessEscaped(TargetTraces(config, safeReason, env))
  {
    var traces := TargetTraces(config, safeReason, env);
    forall i | 0 <= i < |traces| && traces[i].escaped.None?
      ensures |traces[i].appended| == 1
    {
      TargetAppendsOne(config, i, config.connections[i], safeReason, env);
    }
  }

  /**
   * When no exception reaches the outer catch, the run returns exactly one
   * result per configured connection, in configuration order.
   */
  lemma CreateBackupOneResultPerTarget(config: DatabaseConfigurations, reason: string, env: RunEnvironment)
    requires RunCompletes(config, reason, env)
    ensures var results := CreateBackup(config, reason, env);
            var safeReason := SanitizeReason(reason, env.invalidFileNameChars);
            && |results| == |config.connections|
            && forall i :: 0 <= i < |results| ==>
                 ProcessTarget(config, i, config.connections[i], safeReason, env) == TargetTrace([results[i]], None)
  {
    var safeReason := SanitizeReason(reason, env.invalidFileNameChars);
    var traces := TargetTraces(config, safeReason, env);
    TargetsRecordOneResult(config, safeReason, env);
    OneResultPerTarget(traces, |traces|);
  }

  /** A run that reaches its end returns what its targets recorded. */
  lemma CompletedRunReturnsItsResults(config: DatabaseConfigurations, reason: string, env: RunEnvironment, run: TargetTrace)
    requires env.backupDirectoryFault.None? && env.auditLogFault.None?
    requires RunTargets(config, reason, env) == run && run.escaped.None?
    ensures CreateBackup(config, reason, env) == run.appended
  {
  }

  /** Any exception that reaches the outer catch collapses the run into one synthetic failure. */
  lemma CreateBackupCollapses(config: DatabaseConfigurations, reason: string, env: RunEnvironment)
    requires !RunCompletes(config, reason, env)
    ensures var results := CreateBackup(config, reason, env);
            && |results| == 1
            && !results[0].success
            && results[0].filePath == ""
            && IsPrefix("Unexpected system error during backup: ", results[0].message)
  {
  }

  /**
   * An exception escaping the first n targets becomes the whole result of the
   * run, whatever the targets before it recorded.
   */
  lemma EscapingTargetCollapsesRun(config: DatabaseConfigurations, reason: string, env: RunEnvironment, n: nat, e: Exception)
    requires env.backupDirectoryFault.None?
    requires n <= |config.connections|
    requires Accumulate(TargetTraces(config, SanitizeReason(reason, env.invalidFileNameChars), env), n).escaped == Some(e)
    ensures CreateBackup(config, reason, env) == [SystemErrorResult(e.message, env.clock)]
  {
    EscapeEndsRun(TargetTraces(config, SanitizeReason(reason, env.invalidFileNameChars), env), n);
  }

  /**
   * A type string that ParseDatabaseType rejects (an unknown name such as
   * "mysql") aborts the whole run: the results of earlier targets are
   * dropped and the run returns one synthetic failure naming the type.
   */
  lemma UnknownTypeAbortsRun(config: DatabaseConfigurations, reason: string, env: RunEnvironment, i: nat)
    requires env.backupDirectoryFault.None?
    requires i < |config.connections|
    requires Accumulate(TargetTraces(config, SanitizeReason(reason, env.invalidFileNameChars), env), i).escaped.None?
    requires env.parseType(config.connections[i].typeName).None?
    ensures CreateBackup(config, reason, env)
         == [SystemErrorResult("Unsupported database type: " + config.connections[i].typeName, env.clock)]
  {
    var safeReason := SanitizeReason(reason, env.invalidFileNameChars);
    var traces := TargetTraces(config, safeReason, env);
    var e := Fault("Unsupported database type: " + config.connections[i].typeName);
    TargetTypeCases(config, i, config.connections[i], safeReason, env);
    assert traces[i].escaped == Some(e);
    assert Accumulate(traces, i + 1).escaped == Some(e);
    EscapingTargetCollapsesRun(config, reason, env, i + 1, e);
  }

  /**
   * The type check of one target: a type string ParseDatabaseType rejects,
   * or an enum value no member names, escapes; Unsupported is skipped with a
   * failure that has an empty path; Postgres and SqlServer go on to their tool.
   */
  lemma TargetTypeCases(config: DatabaseConfigurations, i: int, db: DatabaseConnectionDetails,
                        safeReason: string, env: RunEnvironment)
    ensures var t := ProcessTarget(config, i, db, safeReason, env);
            var parsed := env.parseType(db.typeName);
            && (parsed.None? ==> t == TargetTrace([], Some(Fault("Unsupported database type: " + db.typeName))))
            && (parsed.Some? && parsed.value.Undefined? ==> t.appended == [] && t.escaped.Some?)
            && (parsed == Some(Unsupported) ==>
                  t.escaped.None? && |t.appended| == 1 && !t.appended[0].success && t.appended[0].filePath == "")
            && (parsed.Some? && (parsed.value.Postgres? || parsed.value.SqlServer?) ==>
                  t == ProcessCommand(config, i, db, parsed.value,
                                      BackupFilePath(config.backupDirectory, db.database, safeReason, env.timestamp,
                                                     parsed.value, env.isWindows), env))
  {
  }

  /** A Postgres target whose pg_dump exists and whose first attempt succeeds records one success with a .sql file. */
  lemma PostgresTargetSucceeds(config: DatabaseConfigurations, i: int, db: DatabaseConnectionDetails,
                               safeReason: string, env: RunEnvironment)
    requires env.parseType(db.typeName) == Some(Postgres)
    requires config.pgDumpPath in env.existingFiles && config.maxRetries >= 1
    requires env.scripts(i)(1).action.Ok?
    ensures var filePath := BackupFilePath(config.backupDirectory, db.database, safeReason, env.timestamp, Postgres, env.isWindows);
            && ProcessTarget(config, i, db, safeReason, env) == TargetTrace([SuccessResult(db.database, filePath, env.clock)], None)
            && IsSuffix(".sql", filePath)
  {
    var filePath := BackupFilePath(config.backupDirectory, db.database, safeReason, env.timestamp, Postgres, env.isWindows);
    TargetTypeCases(config, i, db, safeReason, env);
    RetryStopsAtFirstSuccess(1, TargetRetryRequest(config, db, filePath, env), env.scripts(i));
    BackupFilePathLayout(config.backupDirectory, db.database, safeReason, env.timestamp, Postgres, env.isWindows);
  }

  /** A SQL Server target whose sqlcmd is missing records one "Tool not found" failure. */
  lemma MissingSqlCmdTargetFails(config: DatabaseConfigurations, i: int, db: DatabaseConnectionDetails,
                                 safeReason: string, env: RunEnvironment)
    requires env.parseType(db.typeName) == Some(SqlServer)
    requires config.sqlCmdPath !in env.existingFiles
    ensures var missing := ToolNotFoundResult(config.sqlCmdPath, db, env.clock);
            && ProcessTarget(config, i, db, safeReason, env) == TargetTrace([missing], None)
            && !missing.success && IsPrefix("Tool not found", missing.message)
  {
    var missing := ToolNotFoundResult(config.sqlCmdPath, db, env.clock);
    TargetTypeCases(config, i, db, safeReason, env);
    CommandResultCases(config, i, db, SqlServer,
                       BackupFilePath(config.backupDirectory, db.database, safeReason, env.timestamp, SqlServer, env.isWindows), env);
    ToolNotFoundNamesItself(config.sqlCmdPath, db, env.clock);
  }

  lemma ToolNotFoundNamesItself(toolPath: string, db: DatabaseConnectionDetails, clock: int)
    ensures IsPrefix("Tool not found", ToolNotFoundResult(toolPath, db, clock).message)
  {
    var message := ToolNotFoundResult(toolPath, db, clock).message;
    assert message[..|"Tool not found"|] == "Tool not found";
  }

  /**
   * Two targets, a reachable Postgres database and a SQL Server database
   * whose sqlcmd is missing: the targets record two results in that order, a
   * success with a .sql file and a "Tool not found" failure. With no fault
   * of the directory or the audit log, CreateBackup returns exactly these
   * (CompletedRunReturnsItsResults).
   */
  lemma PostgresAndMissingSqlCmdScenario(config: DatabaseConfigurations, safeReason: string, env: RunEnvironment)
    requires |config.connections| == 2 && config.maxRetries >= 1
    requires env.parseType(config.connections[0].typeName) == Some(Postgres)
    requires env.parseType(config.connections[1].typeName) == Some(SqlServer)
    requires config.pgDumpPath in env.existingFiles && config.sqlCmdPath !in env.existingFiles
    requires env.scripts(0)(1).action.Ok?
    ensures var run := Accumulate(TargetTraces(config, safeReason, env), 2);
            && run.escaped.None? && |run.appended| == 2
            && run.appended[0].success && IsSuffix(".sql", run.appended[0].filePath)
            && !run.appended[1].success && IsPrefix("Tool not found", run.appended[1].message)
  {
    var traces := TargetTraces(config, safeReason, env);
    PostgresTargetSucceeds(config, 0, config.connections[0], safeReason, env);
    MissingSqlCmdTargetFails(config, 1, config.connections[1], safeReason, env);
    AccumulateTwo(traces);
  }

  lemma AccumulateTwo(traces: seq<TargetTrace>)
    requires |traces| == 2 && traces[0].escaped.None?
    ensures Accumulate(traces, 2) == TargetTrace(traces[0].appended + traces[1].appended, traces[1].escaped)
  {
    assert Accumulate(traces, 1) == traces[0];
  }
}
