/**
 * The configuration and result records of the backup engine. The C# classes
 * are plain property bags that are filled once (from configuration binding or
 * at creation) and never changed afterwards, so each becomes a datatype.
 */
module Models {

  /**
   * DatabaseType as Enum.TryParse produces it. Postgres, SqlServer and
   * Unsupported are the members the engine names; Enum.TryParse also accepts
   * a numeric string for a value no member names, which is Undefined(code).
   */
  datatype DatabaseType = Postgres | SqlServer | Unsupported | Undefined(code: int)

  /** One configured database target (DatabaseConnectionDetails). */
  datatype DatabaseConnectionDetails = DatabaseConnectionDetails(
    typeName: string,
    hostWindows: string,
    hostLinux: string,
    port: int,
    database: string,
    user: string,
    password: string)
  {
    /** ResolvePlatformHost: the Windows host on Windows, the Linux host elsewhere. */
    function ResolvePlatformHost(isWindows: bool): string
    {
      if isWindows then hostWindows else hostLinux
    }
  }

  /** The engine's configuration (DatabaseConfigurations). */
  datatype DatabaseConfigurations = DatabaseConfigurations(
    backupDirectory: string,
    pgDumpPath: string,
    sqlCmdPath: string,
    maxRetries: int,
    retryDelayMilliseconds: int,
    connections: seq<DatabaseConnectionDetails>)

  /** The schedule of the background service (HostedServiceConfig). */
  datatype HostedServiceConfig = HostedServiceConfig(
    startTime: string,
    pollIntervalMinutes: int,
    runOnStartUp: bool)

  /**
   * One recorded outcome (BackupResult). completedAt is the UTC clock reading
   * taken when the result was created.
   */
  datatype BackupResult = BackupResult(
    success: bool,
    filePath: string,
    message: string,
    completedAt: int)
}
