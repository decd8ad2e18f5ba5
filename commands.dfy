/**
 * The pure part of DatabaseBackupRunner: sanitising the run reason, naming
 * the backup file, building the pg_dump and sqlcmd argument strings and
 * choosing the tool, arguments and environment for a target.
 */
module Commands {
  import opened Common
  import opened Text
  import opened Models

  // ---------------------------------------------------------------------
  // Reason sanitisation
  // ---------------------------------------------------------------------

  /**
   * string.Join("_", reason.Split(invalid)), where invalid is the platform's
   * Path.GetInvalidFileNameChars(): every invalid character becomes '_' and
   * every other character is kept in place.
   */
  function SanitizeReason(reason: string, invalid: set<char>): (safe: string)
    ensures |safe| == |reason|
    ensures forall i :: 0 <= i < |reason| ==> safe[i] == if reason[i] in invalid then '_' else reason[i]
  {
    JoinSplitSubstitutes(reason, invalid, '_');
    Join("_", Split(reason, invalid))
  }

  /** Neither Windows nor Unix counts '_' as invalid, so the result is a safe file-name fragment. */
  lemma SanitizedReasonIsSafe(reason: string, invalid: set<char>)
    requires '_' !in invalid
    ensures NoneIn(SanitizeReason(reason, invalid), invalid)
  {
  }

  lemma SanitizeKeepsValidReason(reason: string, invalid: set<char>)
    requires NoneIn(reason, invalid)
    ensures SanitizeReason(reason, invalid) == reason
  {
  }

  lemma SanitizeIsIdempotent(reason: string, invalid: set<char>)
    requires '_' !in invalid
    ensures SanitizeReason(SanitizeReason(reason, invalid), invalid) == SanitizeReason(reason, invalid)
  {
    SanitizedReasonIsSafe(reason, invalid);
    SanitizeKeepsValidReason(SanitizeReason(reason, invalid), invalid);
  }

  // ---------------------------------------------------------------------
  // Backup file name and path
  // ---------------------------------------------------------------------

  /** The extension of a backup file: .bak for SQL Server, .sql for everything else. */
  function FileExtension(dbType: DatabaseType): (ext: string)
    ensures ext == ".bak" <==> dbType == SqlServer
    ensures ext == ".sql" <==> dbType != SqlServer
  {
    if dbType == SqlServer then ".bak" else ".sql"
  }

  /** backup_{database}_{safeReason}_{timestamp}{ext}. */
  function BackupFileName(database: string, safeReason: string, timestamp: string, dbType: DatabaseType): string
  {
    "backup_" + database + "_" + safeReason + "_" + timestamp + FileExtension(dbType)
  }

  predicate IsDirectorySeparator(c: char, isWindows: bool) {
    c == '/' || (isWindows && c == '\\')
  }

  predicate IsAsciiLetter(c: char) {
    ('a' <= c <= 'z') || ('A' <= c <= 'Z')
  }

  /** Path.IsPathRooted: a leading separator, or a drive letter and ':' on Windows. */
  predicate IsPathRooted(path: string, isWindows: bool) {
    (|path| >= 1 && IsDirectorySeparator(path[0], isWindows))
    || (isWindows && |path| >= 2 && IsAsciiLetter(path[0]) && path[1] == ':')
  }

  /**
   * Path.Combine(first, second): second alone when first is empty or second
   * is rooted; otherwise the two joined by exactly one directory separator
   * unless one of them already supplies it.
   */
  function PathCombine(first: string, second: string, isWindows: bool): (path: string)
    ensures !IsPathRooted(second, isWindows) ==> IsSuffix(second, path)
    ensures !IsPathRooted(second, isWindows) && second != [] ==> IsPrefix(first, path)
    ensures |path| <= |first| + 1 + |second|
  {
    if first == [] then second
    else if second == [] then first
    else if IsPathRooted(second, isWindows) then second
    else if IsDirectorySeparator(first[|first| - 1], isWindows) || IsDirectorySeparator(second[0], isWindows) then first + second
    else first + [if isWindows then '\\' else '/'] + second
  }

  /** The full path of one target's backup file (DatabaseBackupRunner.cs:48-49). */
  function BackupFilePath(directory: string, database: string, safeReason: string, timestamp: string,
                          dbType: DatabaseType, isWindows: bool): string
  {
    PathCombine(directory, BackupFileName(database, safeReason, timestamp, dbType), isWindows)
  }

  /**
   * The backup path lies in the configured directory, ends with the file name
   * built from the database, reason and timestamp, and ends in .bak exactly
   * for SQL Server and in .sql exactly for the other types.
   */
  lemma BackupFilePathLayout(directory: string, database: string, safeReason: string, timestamp: string,
                             dbType: DatabaseType, isWindows: bool)
    ensures var path := BackupFilePath(directory, database, safeReason, timestamp, dbType, isWindows);
            var name := BackupFileName(database, safeReason, timestamp, dbType);
            && IsPrefix(directory, path)
            && IsSuffix(name, path)
            && IsPrefix("backup_" + database + "_" + safeReason + "_" + timestamp, name)
            && (IsSuffix(".bak", path) <==> dbType == SqlServer)
            && (IsSuffix(".sql", path) <==> dbType != SqlServer)
  {
    var path := BackupFilePath(directory, database, safeReason, timestamp, dbType, isWindows);
    var stem := "backup_" + database + "_" + safeReason + "_" + timestamp;
    var ext := FileExtension(dbType);
    var name := BackupFileName(database, safeReason, timestamp, dbType);
    assert name == stem + ext;
    PrefixExtends("ba", "backup_", database);
    PrefixExtends("ba", "backup_" + database, "_");
    PrefixExtends("ba", "backup_" + database + "_", safeReason);
    PrefixExtends("ba", "backup_" + database + "_" + safeReason, "_");
    PrefixExtends("ba", "backup_" + database + "_" + safeReason + "_", timestamp);
    StemThenExtension(stem, ext, isWindows);
    SuffixTransitive(ext, name, path);
    ExtensionDecides(ext, path);
  }

  /** A path ending in one of the two extensions ends in the other exactly when they are the same. */
  lemma ExtensionDecides(ext: string, path: string)
    requires ext == ".bak" || ext == ".sql"
    requires IsSuffix(ext, path)
    ensures IsSuffix(".bak", path) <==> ext == ".bak"
    ensures IsSuffix(".sql", path) <==> ext == ".sql"
  {
    assert path[|path| - 4..] == ext;
    assert ".bak"[1] != ".sql"[1];
  }

  /** A file name that starts with "ba" is relative, and keeps its stem and its extension at its ends. */
  lemma StemThenExtension(stem: string, ext: string, isWindows: bool)
    requires IsPrefix("ba", stem)
    ensures IsPrefix(stem, stem + ext) && IsSuffix(ext, stem + ext)
    ensures stem + ext != [] && !IsPathRooted(stem + ext, isWindows)
  {
    var name := stem + ext;
    assert name[..|stem|] == stem;
    assert name[|name| - |ext|..] == ext;
    assert name[0] == stem[..2][0] == 'b' && name[1] == stem[..2][1] == 'a';
  }

  lemma PrefixExtends(p: string, s: string, t: string)
    requires IsPrefix(p, s)
    ensures IsPrefix(p, s + t)
  {
    assert (s + t)[..|p|] == s[..|p|];
  }

  // ---------------------------------------------------------------------
  // Argument strings (BuildBackupArguments)
  // ---------------------------------------------------------------------

  /** SQL authentication is used when neither the user nor the password is blank. */
  predicate UseSqlAuth(user: string, password: string) {
    !IsNullOrWhiteSpace(user) && !IsNullOrWhiteSpace(password)
  }

  function SqlServerAuth(user: string, password: string): string
  {
    if UseSqlAuth(user, password) then "-U " + user + " -P " + password else "-E"
  }

  /** filePath.Replace("\\", "\\\\"): every backslash doubled. */
  function EscapeBackslashes(path: string): string
  {
    if path == [] then []
    else (if path[0] == '\\' then "\\\\" else [path[0]]) + EscapeBackslashes(path[1..])
  }

  /** s.Replace("\\\\", "\\"): each pair of backslashes, taken left to right, becomes one. */
  function UnescapeBackslashes(s: string): string
  {
    if |s| >= 2 && s[0] == '\\' && s[1] == '\\' then "\\" + UnescapeBackslashes(s[2..])
    else if s == [] then []
    else [s[0]] + UnescapeBackslashes(s[1..])
  }

  /** Undoing the doubling recovers the original path exactly. */
  lemma {:induction false} UnescapeEscapedPath(path: string)
    ensures UnescapeBackslashes(EscapeBackslashes(path)) == path
  {
    if path != [] {
      var rest := EscapeBackslashes(path[1..]);
      UnescapeEscapedPath(path[1..]);
      if path[0] == '\\' {
        assert EscapeBackslashes(path) == "\\\\" + rest;
        assert ("\\\\" + rest)[2..] == rest;
      } else {
        assert EscapeBackslashes(path) == [path[0]] + rest;
        assert ([path[0]] + rest)[1..] == rest;
      }
      assert [path[0]] + path[1..] == path;
    }
  }

  /** The T-SQL statement sqlcmd runs for a SQL Server backup. */
  function BackupStatement(database: string, filePath: string): string
  {
    "BACKUP DATABASE [" + database + "] TO DISK = N'" + EscapeBackslashes(filePath) + "' WITH INIT;"
  }

  /**
   * BuildBackupArguments: the command line for pg_dump or sqlcmd; None stands
   * for the NotSupportedException thrown for any other type.
   */
  function BuildBackupArguments(dbType: DatabaseType, host: string, port: int, database: string,
                                user: string, password: string, filePath: string): (args: Option<string>)
    ensures args.Some? <==> dbType == Postgres || dbType == SqlServer
  {
    match dbType
    case Postgres =>
      Some("--dbname=\"host=" + host + " port=" + IntToString(port) + " dbname=" + database
           + " user=" + user + "\" --file=\"" + filePath + "\"")
    case SqlServer =>
      Some("-S " + host + "," + IntToString(port) + " " + SqlServerAuth(user, password)
           + " -V 1 -Q \"" + BackupStatement(database, filePath) + "\"")
    case _ => None
  }

  /** The pg_dump arguments never depend on the password handed to the builder. */
  lemma PostgresArgumentsIgnorePassword(host: string, port: int, database: string, user: string,
                                        password1: string, password2: string, filePath: string)
    ensures BuildBackupArguments(Postgres, host, port, database, user, password1, filePath)
         == BuildBackupArguments(Postgres, host, port, database, user, password2, filePath)
    ensures IsSuffix(" --file=\"" + filePath + "\"",
                     BuildBackupArguments(Postgres, host, port, database, user, password1, filePath).value)
  {
    var connection := "--dbname=\"host=" + host + " port=" + IntToString(port) + " dbname=" + database + " user=" + user + "\"";
    var file := " --file=\"" + filePath + "\"";
    assert BuildBackupArguments(Postgres, host, port, database, user, password1, filePath).value == connection + file;
    var args := connection + file;
    assert args[|args| - |file|..] == file;
  }

  /**
   * After the server part, sqlcmd gets "-U {user} -P {password}" exactly when
   * both are non-blank, and the trusted-connection flag "-E" exactly otherwise.
   */
  lemma SqlServerAuthChoice(host: string, port: int, database: string, user: string, password: string, filePath: string)
    ensures var args := BuildBackupArguments(SqlServer, host, port, database, user, password, filePath).value;
            var server := "-S " + host + "," + IntToString(port) + " ";
            && IsPrefix(server, args)
            && (IsPrefix(server + "-U " + user + " -P " + password + " ", args) <==> UseSqlAuth(user, password))
            && (IsPrefix(server + "-E ", args) <==> !UseSqlAuth(user, password))
  {
    var server := "-S " + host + "," + IntToString(port) + " ";
    var tail := " -V 1 -Q \"" + BackupStatement(database, filePath) + "\"";
    assert BuildBackupArguments(SqlServer, host, port, database, user, password, filePath).value
        == server + SqlServerAuth(user, password) + tail;
    AuthFollowsServer(server, user, password, tail);
  }

  /** The authentication part between a server part and a tail that starts with a blank. */
  lemma AuthFollowsServer(server: string, user: string, password: string, tail: string)
    requires |tail| >= 1 && tail[0] == ' '
    ensures var args := server + SqlServerAuth(user, password) + tail;
            && IsPrefix(server, args)
            && (IsPrefix(server + "-U " + user + " -P " + password + " ", args) <==> UseSqlAuth(user, password))
            && (IsPrefix(server + "-E ", args) <==> !UseSqlAuth(user, password))
  {
    var credentials := "-U " + user + " -P " + password;
    assert server + "-U " + user + " -P " + password + " " == server + credentials + " ";
    if UseSqlAuth(user, password) {
      FlagThenBlank(server, credentials, "-E", tail);
    } else {
      FlagThenBlank(server, "-E", credentials, tail);
    }
  }

  /**
   * server + flag + tail, with tail starting with a blank, begins with
   * server + flag + " " and not with server + other + " " when the two flags
   * differ in their second character.
   */
  lemma FlagThenBlank(server: string, flag: string, other: string, tail: string)
    requires |flag| >= 2 && |other| >= 2 && flag[1] != other[1]
    requires |tail| >= 1 && tail[0] == ' '
    ensures var args := server + flag + tail;
            && IsPrefix(server, args)
            && IsPrefix(server + flag + " ", args)
            && !IsPrefix(server + other + " ", args)
  {
    var args := server + flag + tail;
    assert args[..|server|] == server;
    assert args[..|server + flag + " "|] == server + flag + " ";
    assert args[|server| + 1] == flag[1];
    if |server + other + " "| <= |args| {
      assert (server + other + " ")[|server| + 1] == other[1];
    }
  }

  /** The sqlcmd arguments up to the opening quote of the DISK literal. */
  function SqlServerHead(host: string, port: int, database: string, user: string, password: string): string
  {
    SqlServerPrefix(host, port, user, password) + "BACKUP DATABASE [" + database + "] TO DISK = N'"
  }

  /** The sqlcmd arguments up to the opening quote of the -Q query. */
  function SqlServerPrefix(host: string, port: int, user: string, password: string): string
  {
    "-S " + host + "," + IntToString(port) + " " + SqlServerAuth(user, password) + " -V 1 -Q \""
  }

  /** What follows the DISK literal in the sqlcmd arguments. */
  const SqlServerTail: string := "' WITH INIT;\""

  /**
   * The DISK literal sits between SqlServerHead and SqlServerTail, and undoing
   * the backslash doubling in it gives back the backup path unchanged.
   */
  lemma SqlServerDiskPathRoundTrip(host: string, port: int, database: string, user: string, password: string, filePath: string)
    ensures var args := BuildBackupArguments(SqlServer, host, port, database, user, password, filePath).value;
            var head := SqlServerHead(host, port, database, user, password);
            && |head| + |SqlServerTail| <= |args|
            && IsPrefix(head, args)
            && IsSuffix(SqlServerTail, args)
            && UnescapeBackslashes(args[|head|..|args| - |SqlServerTail|]) == filePath
  {
    var args := BuildBackupArguments(SqlServer, host, port, database, user, password, filePath).value;
    var head := SqlServerHead(host, port, database, user, password);
    var prefix := SqlServerPrefix(host, port, user, password);
    var opening := "BACKUP DATABASE [" + database + "] TO DISK = N'";
    var escaped := EscapeBackslashes(filePath);
    var statement := opening + escaped + "' WITH INIT;";
    assert BackupStatement(database, filePath) == statement;
    assert args == prefix + statement + "\"";
    assert head == prefix + opening;
    assert "' WITH INIT;" + "\"" == SqlServerTail;
    assert args == head + escaped + SqlServerTail;
    Enclosed(head, escaped, SqlServerTail);
    UnescapeEscapedPath(filePath);
  }

  /** The middle of head + middle + tail is recovered by cutting head and tail off. */
  lemma Enclosed(head: string, middle: string, tail: string)
    ensures var s := head + middle + tail;
            && IsPrefix(head, s) && IsSuffix(tail, s)
            && s[|head|..|s| - |tail|] == middle
  {
    var s := head + middle + tail;
    assert s[..|head|] == head;
    assert s[|s| - |tail|..] == tail;
    assert s[|head|..|s| - |tail|] == middle;
  }

  // ---------------------------------------------------------------------
  // Tool, arguments and environment for one target
  // ---------------------------------------------------------------------

  /** What RunProcessAsync is started with: tool path, argument string, environment overlay. */
  datatype BackupCommand = BackupCommand(toolPath: string, arguments: string, environment: map<string, string>)

  /**
   * The switch on the database type (DatabaseBackupRunner.cs:57-75). None
   * stands for the InvalidOperationException of its default branch.
   */
  function SelectCommand(config: DatabaseConfigurations, db: DatabaseConnectionDetails, dbType: DatabaseType,
                         host: string, filePath: string): (cmd: Option<BackupCommand>)
    ensures cmd.Some? <==> dbType == Postgres || dbType == SqlServer
  {
    match dbType
    case Postgres =>
      Some(BackupCommand(config.pgDumpPath,
                         BuildBackupArguments(Postgres, host, db.port, db.database, db.user, "", filePath).value,
                         map["PGPASSWORD" := db.password]))
    case SqlServer =>
      Some(BackupCommand(config.sqlCmdPath,
                         BuildBackupArguments(SqlServer, host, db.port, db.database, db.user, db.password, filePath).value,
                         map[]))
    case _ => None
  }

  /**
   * A Postgres password reaches pg_dump only through the PGPASSWORD variable:
   * the arguments are the same whatever the configured password is.
   */
  lemma PostgresPasswordOnlyInEnvironment(config: DatabaseConfigurations, db: DatabaseConnectionDetails,
                                          host: string, filePath: string, otherPassword: string)
    ensures var cmd := SelectCommand(config, db, Postgres, host, filePath).value;
            && cmd.toolPath == config.pgDumpPath
            && cmd.environment == map["PGPASSWORD" := db.password]
            && cmd.arguments == SelectCommand(config, db.(password := otherPassword), Postgres, host, filePath).value.arguments
  {
  }

  /** sqlcmd gets no environment overlay; its credentials travel on the command line. */
  lemma SqlServerCommandShape(config: DatabaseConfigurations, db: DatabaseConnectionDetails, host: string, filePath: string)
    ensures var cmd := SelectCommand(config, db, SqlServer, host, filePath).value;
            && cmd.toolPath == config.sqlCmdPath
            && cmd.environment == map[]
            && (UseSqlAuth(db.user, db.password) <==>
                IsPrefix("-S " + host + "," + IntToString(db.port) + " " + "-U " + db.user + " -P " + db.password + " ",
                         cmd.arguments))
  {
    SqlServerAuthChoice(host, db.port, db.database, db.user, db.password, filePath);
  }
}
