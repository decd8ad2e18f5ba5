# DatabaseBackup engine in Dafny

A model of the backup engine of DatabaseBackup, a .NET service that backs up
PostgreSQL databases with `pg_dump` and SQL Server databases with `sqlcmd`.
The model covers two classes.

- **`DatabaseBackupRunner`** runs one backup pass over every configured
  connection:
  - it sanitises the run reason and names the backup file;
  - it builds the tool's command line and chooses the password channel;
  - it retries a failing tool up to `MaxRetries` times;
  - it records one `BackupResult` per connection, or a single synthetic
    failure when an exception reaches its outer catch.
- **`BackgroundDatabaseBackupService`** runs the pass on a schedule:
  - it parses the configured start time of day;
  - it moves the start forward by whole poll intervals until it is no longer
    in the past;
  - each worker-loop iteration runs the pass when its time has come, then
    reschedules and computes how long to sleep.

Files:

- `common.dfy` holds `Option`.
- `text.dfy` models the .NET string operations the engine relies on:
  - `char.IsWhiteSpace` and `string.IsNullOrWhiteSpace`;
  - `Split` and `Join`;
  - `Int32.ToString` and `int.TryParse`.
- `models.dfy` holds the configuration and result records as datatypes.
  They are plain property bags that are never changed after they are filled.
- `commands.dfy` holds the pure builders of `DatabaseBackupRunner`,
  including the backslash `Replace` of the SqlServer query as
  `EscapeBackslashes` and its inverse `UnescapeBackslashes`.
- `runner.dfy` holds the retry controller and the run:
  - `ResultList` is the `List<BackupResult>` the run appends to.
  - `DatabaseBackupRunner` is a class whose methods are proved against the
    specification functions `RetryFrom` and `CreateBackup`.
  - The properties are lemmas about those functions.
- `scheduler.dfy` holds the calendar, `GetDateTime`, the reschedule function
  `NextRun`, and the service class whose `startDateTime` field its methods
  update.

The world outside the engine enters as parameters:

- the clock;
- the platform;
- `Path.GetInvalidFileNameChars()`;
- `File.Exists`;
- `ParseDatabaseType`;
- the faults of the directory and audit-log calls;
- for each target and attempt, what running the tool does (exit 0, non-zero
  exit, an exception, a cancellation) and whether the retry delay after it
  is cancelled.

An exception in flight is a `Flow` value. A C# `null` string is `""`. The
engine also hands strings to `Split`, `Path.Combine` and
`Directory.CreateDirectory`, which throw on `null`, but none of them sees a
`null` in the model: the backup reason is never `null`, because the
controller replaces a `null` or blank reason with "Manual"
(Controllers/BackupController.cs:27) and the scheduler passes "automated"; a
`null` backup directory makes `Directory.CreateDirectory` throw first, which
the run environment's `backupDirectoryFault` covers, and `File.Exists`,
`Enum.TryParse`, `int.TryParse` and `IsNullOrWhiteSpace` treat `null` and
`""` alike.

## Model

| member | source | states |
|---|---|---|
| Text.Split | Services/DatabaseBackupRunner.cs:33 | `Split` on a set of separator characters yields at least one piece, and no piece contains a separator |
| Text.JoinSplitSubstitutes | Services/DatabaseBackupRunner.cs:33 | `string.Join("_", s.Split(chars))` is the character-by-character substitution of every separator by `_` |
| Text.ParseInt32 | Services/BackgroundDatabaseBackupService.cs:109-112 | `int.TryParse` succeeds only with a value in the 32-bit range |
| Text.ParseInt32OfIntToString | Services/BackgroundDatabaseBackupService.cs:109-112 | `int.TryParse` reads back every 32-bit value that `Int32.ToString` writes |
| Commands.SanitizeReason | Services/DatabaseBackupRunner.cs:33 | the safe reason has the reason's length; each invalid character becomes `_`; every other character is kept in place |
| Commands.SanitizedReasonIsSafe | Services/DatabaseBackupRunner.cs:33 | when `_` is itself valid, no invalid file-name character is left in the safe reason |
| Commands.SanitizeKeepsValidReason | Services/DatabaseBackupRunner.cs:33 | a reason without invalid characters is unchanged |
| Commands.SanitizeIsIdempotent | Services/DatabaseBackupRunner.cs:33 | sanitising a sanitised reason changes nothing |
| Commands.FileExtension | Services/DatabaseBackupRunner.cs:48 | the extension is `.bak` exactly for SQL Server and `.sql` exactly for every other type |
| Commands.PathCombine | Services/DatabaseBackupRunner.cs:49 | `Path.Combine` ends with a non-rooted file name and starts with the directory |
| Commands.BackupFilePathLayout | Services/DatabaseBackupRunner.cs:48-49 | the backup path starts with the backup directory and ends with `backup_{db}_{reason}_{timestamp}` plus the extension; it ends in `.bak` iff SQL Server and in `.sql` iff not |
| Commands.BuildBackupArguments | Services/DatabaseBackupRunner.cs:148-168 | arguments exist exactly for Postgres and SqlServer; any other type is the `NotSupportedException` |
| Commands.PostgresArgumentsIgnorePassword | Services/DatabaseBackupRunner.cs:152-153 | the pg_dump command line is the same whatever password is passed, and it ends with the quoted `--file` |
| Commands.SqlServerAuthChoice | Services/DatabaseBackupRunner.cs:155-164 | after `-S host,port`, sqlcmd gets `-U user -P password` iff both are non-blank, and `-E` iff not |
| Commands.UnescapeEscapedPath | Services/DatabaseBackupRunner.cs:161 | undoing the backslash doubling gives back the path exactly |
| Commands.SqlServerDiskPathRoundTrip | Services/DatabaseBackupRunner.cs:161-164 | the DISK literal sits between a fixed head and `' WITH INIT;"`, and un-doubling its backslashes gives back the backup path |
| Commands.SelectCommand | Services/DatabaseBackupRunner.cs:57-75 | a command exists exactly for Postgres and SqlServer; the default branch is the `InvalidOperationException` |
| Commands.PostgresPasswordOnlyInEnvironment | Services/DatabaseBackupRunner.cs:59-66 | pg_dump runs from `PgDumpPath` with `PGPASSWORD` set to the password, and its arguments do not depend on the password |
| Commands.SqlServerCommandShape | Services/DatabaseBackupRunner.cs:68-71 | sqlcmd runs from `SqlCmdPath` with no environment overlay; its arguments carry `-U/-P` iff SQL authentication is used |
| Runner.ResultList.Add | Services/DatabaseBackupRunner.cs:44 | appending puts the result at the end and keeps every earlier one |
| Runner.AwaitDelay | Services/DatabaseBackupRunner.cs:190-212 | `Task.Delay` throws `ArgumentOutOfRangeException` exactly for a delay below -1, whatever the token; otherwise it throws exactly when the token cancels it |
| Runner.DatabaseBackupRunner.BackupAction | Services/DatabaseBackupRunner.cs:86-112 | on exit code 0 the action appends the success result and returns true; on a non-zero exit it appends nothing and returns false; exceptions propagate |
| Runner.DatabaseBackupRunner.TryBackupWithRetries | Services/DatabaseBackupRunner.cs:170-226 | the list grows by exactly what `RetryFrom` appends; the call ends as `RetryFrom` says, after its count of attempts and delays |
| Runner.DatabaseBackupRunner.BackupTarget | Services/DatabaseBackupRunner.cs:38-117 | one iteration of the foreach appends exactly what `ProcessTarget` records for that target and passes on exactly the exception it lets escape |
| Runner.DatabaseBackupRunner.CreateBackupAsync | Services/DatabaseBackupRunner.cs:24-147 | the returned list is `CreateBackup` of the configuration, reason and environment |
| Runner.RetryOutcomes | Services/DatabaseBackupRunner.cs:170-226 | a normal return appends exactly one result: the success result for true, the exhausted failure for false; an escaping cancellation has appended the cancelled result or nothing; the only other exception that escapes is the `ArgumentOutOfRangeException` of a retry delay below -1, with nothing appended |
| Runner.RetryWithoutAttempts | Services/DatabaseBackupRunner.cs:172-225 | with `MaxRetries <= 0` there are no attempts, and one failure is still recorded |
| Runner.RetryExhausts | Services/DatabaseBackupRunner.cs:172-225 | with N >= 1 attempts that fail or throw and retry delays that elapse: N attempts, N - 1 delays, exactly one failure with the given path and message, result false |
| Runner.RetryStopsAtFirstSuccess | Services/DatabaseBackupRunner.cs:178-181 | the first successful attempt j ends the call after j attempts and j - 1 delays, with only the success result appended |
| Runner.RetryCancelledInCatchDelay | Services/DatabaseBackupRunner.cs:205-213 | a cancelled delay after a thrown attempt leaves the call without recording anything |
| Runner.RetryCancelledAction | Services/DatabaseBackupRunner.cs:193-203 | a cancelled tool run records the cancelled result once and rethrows |
| Runner.RetryDelayOutOfRange | Services/DatabaseBackupRunner.cs:187-213 | with a retry delay below -1, a first attempt that fails makes the delay throw, the catch block's delay throws again, and the exception leaves the controller after one attempt with nothing recorded |
| Runner.EscapeEndsRun | Services/DatabaseBackupRunner.cs:36-133 | once an exception escapes a target, no later target is processed |
| Runner.CommandResultCases | Services/DatabaseBackupRunner.cs:77-117 | a missing tool gives the "Tool not found" failure with an empty path; a completed retry gives one result with the backup path, successful iff an attempt succeeded |
| Runner.TargetAppendsOne | Services/DatabaseBackupRunner.cs:36-118 | a target that lets nothing escape records exactly one result |
| Runner.OneResultPerTarget | Services/DatabaseBackupRunner.cs:36-118 | while nothing escapes, the first n targets give n results, the i-th being target i's |
| Runner.TargetsRecordOneResult | Services/DatabaseBackupRunner.cs:36-118 | every configured target that lets no exception escape records exactly one result |
| Runner.CreateBackupOneResultPerTarget | Services/DatabaseBackupRunner.cs:24-131 | a run that reaches its end returns one result per connection, in configuration order |
| Runner.CompletedRunReturnsItsResults | Services/DatabaseBackupRunner.cs:24-131 | with no fault of the directory or the audit log, a run whose targets let nothing escape returns exactly what they recorded |
| Runner.CreateBackupCollapses | Services/DatabaseBackupRunner.cs:133-146 | any exception reaching the outer catch gives a one-element list: a failure with an empty path and the "Unexpected system error" message |
| Runner.EscapingTargetCollapsesRun | Services/DatabaseBackupRunner.cs:36-146 | an exception escaping a target replaces the whole run's results with the synthetic failure carrying its message |
| Runner.UnknownTypeAbortsRun | Services/DatabaseBackupRunner.cs:38 | a type string `ParseDatabaseType` rejects drops earlier results, and the run returns one failure naming the type |
| Runner.TargetTypeCases | Services/DatabaseBackupRunner.cs:38-75 | by parsed type: rejected or unnamed types escape; `Unsupported` is skipped with one failure with an empty path; Postgres and SqlServer go on to their tool |
| Runner.PostgresTargetSucceeds | Services/DatabaseBackupRunner.cs:38-117 | a Postgres target whose pg_dump exists and whose first attempt exits 0 records exactly one success, and its path ends in `.sql` |
| Runner.MissingSqlCmdTargetFails | Services/DatabaseBackupRunner.cs:38-83 | a SQL Server target whose sqlcmd is missing records exactly one failure whose message starts with "Tool not found", and nothing escapes |
| Runner.PostgresAndMissingSqlCmdScenario | Services/DatabaseBackupRunner.cs:36-118 | for those two targets the foreach lets nothing escape and records two results in order: a success with a `.sql` file, then a "Tool not found" failure |
| Scheduler.GetDateTime | Services/BackgroundDatabaseBackupService.cs:102-116 | a blank time is now; any result is a valid date in this year and month; for a non-blank time it has millisecond 0 and the parsed day if non-zero, else today's |
| Scheduler.GetDateTimeThreeFields | Services/BackgroundDatabaseBackupService.cs:107-115 | for any `':'`-free pieces a, b, c, with or without more pieces after them, "a:b:c" gives hour, minute and second as `int.TryParse` reads a, b, c (0 when it rejects one), and a result exactly when that date is valid |
| Scheduler.GetDateTimeTwoFields | Services/BackgroundDatabaseBackupService.cs:107-115 | "a:b" is read the same way with the missing seconds as 0 |
| Scheduler.GetDateTimeOneField | Services/BackgroundDatabaseBackupService.cs:107-115 | a non-blank time without `':'` is the hour alone, with minute and second 0 |
| Scheduler.GetDateTimeReadsClockTime | Services/BackgroundDatabaseBackupService.cs:107-115 | `"hh:mm:ss"` gives today at that time |
| Scheduler.GetDateTimeMissingSeconds | Services/BackgroundDatabaseBackupService.cs:107-111 | `"hh:mm"` gives today at that time with seconds 0 |
| Scheduler.GetDateTimeBadFieldIsZero | Services/BackgroundDatabaseBackupService.cs:109-111 | in "a:b:c", any piece `int.TryParse` rejects gives exactly the result of writing it as "0" |
| Scheduler.GetDateTimeRejectsOutOfRange | Services/BackgroundDatabaseBackupService.cs:107-115 | any non-blank time whose hour is outside 0..23, or whose minute or second is outside 0..59, is the `ArgumentOutOfRangeException` of `new DateTime` |
| Scheduler.NextRunIsFirstCatchUp | Services/BackgroundDatabaseBackupService.cs:95-98 | the next run is not before now and not before the old start; it lies a whole number of intervals after the old start; it is the old start or one interval earlier is before now |
| Scheduler.NextRunIsLeast | Services/BackgroundDatabaseBackupService.cs:95-98 | every earlier point of the interval grid is before now |
| Scheduler.NextRunKeepsFutureStart | Services/BackgroundDatabaseBackupService.cs:95 | a start that is not in the past is left unchanged |
| Scheduler.CatchUp | Services/BackgroundDatabaseBackupService.cs:95-98 | where the loop leaves the start, defined where the loop ends: not before now and not before the old start, less than one interval past now when the start was in the past, and `NextRun` whenever the interval is positive |
| Scheduler.HourlyScheduleScenario | Services/BackgroundDatabaseBackupService.cs:87-100 | start 00:00, interval 60 minutes, clock at 00:30: the next run is 01:00 the same day |
| Scheduler.DelayFromOneReadingIsNonNegative | Services/BackgroundDatabaseBackupService.cs:80-85 | measured from the reschedule's own clock reading, the delay is never negative, is shorter than one interval after a catch-up, and `Task.Delay` waits for it exactly when it is within the 4294967294 ms limit |
| Scheduler.LongIntervalDelayThrows | Services/BackgroundDatabaseBackupService.cs:59-98 | with a 100000-minute interval the delay after a run exceeds `Task.Delay`'s limit, and it throws |
| Scheduler.DelayFromTwoReadingsCanThrow | Services/BackgroundDatabaseBackupService.cs:59-84 | with a second, later clock reading the written delay can be negative, and `Task.Delay` then throws |
| Scheduler.TaskDelay | Services/BackgroundDatabaseBackupService.cs:59 | `Task.Delay(TimeSpan, token)` waits exactly for delays from 0 to 4294967294 ms, waits forever exactly at -1 ms, and throws `ArgumentOutOfRangeException` otherwise |
| Scheduler.DelayUntil | Services/BackgroundDatabaseBackupService.cs:84 | the sleep is never negative, never wakes before the next run, and ends exactly at it when the run is still ahead; `Task.Delay` waits for it exactly when it is within the 4294967294 ms limit |
| Scheduler.BackgroundDatabaseBackupService.Create | Services/BackgroundDatabaseBackupService.cs:35-36 | construction fails exactly when the start time gives no valid date; otherwise the start is now (run on start-up), or the configured time caught up with the clock (`CatchUp`) |
| Scheduler.BackgroundDatabaseBackupService.CalculateNextRunDate | Services/BackgroundDatabaseBackupService.cs:87-100 | run-now sets the start to now; otherwise the loop ends with the start at `CatchUp`, whenever the interval is positive or the start is not in the past |
| Scheduler.BackgroundDatabaseBackupService.GetDelayTime | Services/BackgroundDatabaseBackupService.cs:80-85 | the start is rescheduled from the first reading, and the delay is the start minus the second reading; when the second reading is not past the start, `Task.Delay` waits for it up to 4294967294 ms and throws above; with one reading a caught-up start leaves less than one interval |
| Scheduler.BackgroundDatabaseBackupService.GetClampedDelayTime | Services/BackgroundDatabaseBackupService.cs:80-85 | the corrected delay: the same reschedule, then `DelayUntil`, which is never negative, never wakes before the next run, and which `Task.Delay` waits for up to 4294967294 ms and throws above |
| Scheduler.BackgroundDatabaseBackupService.ExecuteStep | Services/BackgroundDatabaseBackupService.cs:43-78 | the "automated" run happens iff the start has come and the work could start; its result is `CreateBackup`; set-up errors are swallowed; the start is always rescheduled, and the delay handed to `Task.Delay` is the as-written `GetDelayTime`, with the same outcomes at `Task.Delay` |

## Left out

- Running the tools is not modelled: `RunProcessAsync` (process start, output capture, exit code, killing the process on cancellation). Each attempt's outcome is a parameter.
- The audit log is not modelled: the directory `BackupPaths.GetPlatformPath`, the file name `backup_log_{timestamp}.json` and the JSON body. Only whether creating or writing it throws is modelled.
- `Directory.CreateDirectory` of the backup directory is modelled only as "throws or not".
- Logging, the summary counts of lines 120-121, the controller, dependency injection, `Program`, the DTOs and the `Guard` checks are left out. Nothing the engine returns depends on them.
- `CompletedAt`: every `DateTime.UtcNow` read during one run is one `clock` value. The real timestamps differ by the time that passes.
- The timestamp string is a parameter. It is not derived from a clock as `yyyyMMdd_HHmmss`.
- `Runner.DatabaseBackupRunner.TryBackupWithRetries`: the length of `RetryDelayMilliseconds` is not modelled. Only its one observable effect is: a delay below -1 makes `Task.Delay` throw.
- `Runner.DatabaseBackupRunner.TryBackupWithRetries`: a `RetryDelayMilliseconds` of exactly -1 makes `Task.Delay` wait until the token is cancelled. The model lets such a delay elapse when the attempt does not cancel it, where the source would hang.
- `Runner.RetryExhausts`: with `MaxRetries` = `Int32.MaxValue` the source's unchecked `attempt++` wraps, so it never exhausts. The model's counter is unbounded and stops after `MaxRetries` attempts. The same holds for `TryBackupWithRetries`.
- `Runner.AwaitDelay`: the text of the `ArgumentOutOfRangeException` message differs between .NET versions. `DelayOutOfRangeMessage` stands in for it.
- `Commands.BuildBackupArguments`: a `'` in the backup path is not escaped for the T-SQL literal. A `"` is not escaped for the command line. The model builds the string as written and does not state what sqlcmd or SQL Server make of it.
- `Text.ParseInt32`: a trailing `'\0'` and culture-specific signs, which `int.TryParse` also accepts, are not modelled.
- `Scheduler.BackgroundDatabaseBackupService.CalculateNextRunDate`: the loop rereads `DateTime.Now` on every iteration. The model uses one reading. This changes the result only when the clock crosses an interval boundary during the loop.
- `Scheduler.BackgroundDatabaseBackupService.CalculateNextRunDate` requires that the loop ends: it needs run-now, a positive poll interval, or a start that is not in the past. With an interval of 0 and a start in the past, the source loops forever. With a negative interval it runs until `AddMinutes` leaves the `DateTime` range and throws.
- `Scheduler.BackgroundDatabaseBackupService.Create`, `GetDelayTime` and `ExecuteStep` require the same of the reschedule they perform.
- `AddMinutes` overflowing past year 9999 is not modelled.
- Instants are whole milliseconds. .NET ticks are 100 ns, and `Task.Delay` truncates a `TimeSpan` to whole milliseconds.
- The worker loop itself (`while (!cancellationToken.IsCancellationRequested)`) and the cancellation of its sleep are left out. `ExecuteStep` is one iteration.
- Looking up the service's configuration by name, case-insensitively, in `HostedServiceConfigurations` is left out. The configuration is given.
- `GetDateTime` is only called with a `null` day, so `Create` passes `""`.

## Findings

| source | as written | input that shows it | evidently intended | confidence | as-written member | corrected member |
|---|---|---|---|---|---|---|
| Services/BackgroundDatabaseBackupService.cs:82-84 | `GetDelayTime` reschedules against one `DateTime.Now` reading and subtracts a second, later reading. A start at or after the first reading but before the second gives a negative `TimeSpan`. `Task.Delay` (line 59, outside the try) throws `ArgumentOutOfRangeException` for it, or waits forever at exactly -1 ms, which ends or stalls the worker loop. | start = the first reading = t, second reading = t + 5 ms: the delay is -5 ms | a sleep of at least 0 ms that wakes no earlier than the next run | low: needs the clock to pass the start between two reads; not executed | Scheduler.DelayFromTwoReadingsCanThrow | Scheduler.DelayUntil |
