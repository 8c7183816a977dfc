/** The configuration record `Dump` and `main` read (pg_backup.go:30-52).
    Every command and path is an opaque string that is spliced into shell
    command lines as it is. */
module Configuration {
  import opened Schedule

  /** The Path section: the local backup root, and the root passed to the
      dump command. */
  datatype PathSection = PathSection(backupDir: string, docBackupDir: string)

  /** The BackUpServer section: where the transfer sends the dump. */
  datatype ServerSection = ServerSection(
    remoteServer: string,
    remotePort: string,
    remoteUser: string,
    remotePath: string,
    remoteBwLimit: string)

  datatype Config = Config(
    logFile: string,
    docCommand: string,
    pgCommand: string,
    rsyncCommand: string,
    path: PathSection,
    server: ServerSection,
    plan: Plan)
}
