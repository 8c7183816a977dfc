# pg-backup core in Dafny

A model of the scheduled PostgreSQL backup job in `pg_backup.go`. On every
scheduler tick the job `Dump` derives two timestamped directories and two shell
command lines from the configuration. It runs the dump command and then, if
that succeeded, the rsync transfer command. A failure of either sets the
`backup_status` gauge to 1 and exits the process with code 1. `main`
initialises the gauges (size 7000000, status 0). It then picks one of three
schedule registrations from the plan's name: daily at a time, every n hours,
or every n minutes.

Modules, one per concern of the source:

- `Decimal`: zero-padded decimal text, and the reading that undoes it.
- `Stamp`: the `2006-01-02` and `15-04` timestamps of a clock reading.
- `Schedule`: the schedule plan, the `Cadence` variant and the dispatch in `main`.
- `Configuration`: the configuration record.
- `RunPaths`: `backupDir`, `docBackupDir`, `docRun` and `rsyncDump`.
- `Metrics`: the two gauges as plain state.
- `Backup`: one run as a trace of effects, played by `Apply`. `Serve` runs
  the job on each tick until the process exits. `Main` runs it only when a
  cadence was registered.

The wall clock and the results of the two shell commands are parameters. A
run's clock reading is a `Clock`. A command's result is `CmdResult`, either
`Ok` or `Err`.

The model follows the code, including where it differs from what a backup job would usually promise:

- A successful run does not set the status to healthy. It leaves the status as it was.
- A failed run ends the whole process. It does not just mark the run as failed.
- Intervals are not validated, so `Hourly(0)` is registered as given.
- `RemoteBwLimit` is read but never used in any command.

## Model

The functions that build the model have no contracts of their own; the rows
below state what they do through lemmas about them. `RunPaths.BackupDir`,
`RunPaths.DocBackupDir`, `RunPaths.DocRun` and `RunPaths.RsyncDump` model
pg_backup.go:78, 79, 80 and 81. `Backup.DumpEffects` and `Backup.Dump` model
pg_backup.go:83-97. `Backup.Serve` models the repeated calls of `Dump` that the
scheduler makes (pg_backup.go:114-124). `Backup.Main` models the gauge set-up
and the registration (pg_backup.go:101-102, 113-121).

| member | source | states |
|---|---|---|
| Decimal.PadRoundTrip | pg_backup.go:76-77 | zero padding never changes the number a timestamp field spells |
| Stamp.DateStampRoundTrip | pg_backup.go:76 | the date stamp of a valid clock reading reads back to its year, month and day |
| Stamp.ClockStampRoundTrip | pg_backup.go:77 | the hour-minute stamp is five characters and reads back to its hour and minute |
| Stamp.DateStampLength | pg_backup.go:76 | before the year 10000 the date stamp is exactly ten characters |
| Stamp.StampsHaveNoSlash | pg_backup.go:76-77 | neither stamp contains '/', so each is one path component |
| Stamp.StampsIdentifyMinute | pg_backup.go:76-77 | two valid readings give the same pair of stamps if and only if they fall in the same minute |
| RunPaths.SplitRunSuffix | pg_backup.go:78-79 | the suffix `date/hm/` splits back into the two stamps when the date has no '/' |
| RunPaths.BackupDirShape | pg_backup.go:78 | backupDir starts with the BackupDir root, ends with '/', and the rest splits back into the date and hour-minute stamps |
| RunPaths.DocBackupDirShape | pg_backup.go:79 | docBackupDir starts with the DocBackupDir root, ends with '/', and the rest splits back into the two stamps |
| RunPaths.DirsShareSuffix | pg_backup.go:78-79 | after their roots, backupDir and docBackupDir are the identical string |
| RunPaths.DirsIdentifyMinute | pg_backup.go:76-79 | runs in different minutes get different directories, and runs in the same minute share them, for both trees |
| RunPaths.DocRunShape | pg_backup.go:80 | docRun starts with DocCommand and a quote and ends with a quote; between the quotes are PgCommand and then docBackupDir |
| RunPaths.RsyncDumpShape | pg_backup.go:81 | rsyncDump is RsyncCommand + `"ssh -p <port>"`, then backupDir, then `user@server:path` at the end, with nothing inserted between them |
| RunPaths.BwLimitUnused | pg_backup.go:74-82 | changing RemoteBwLimit changes neither command line |
| RunPaths.RsyncDumpInputs | pg_backup.go:81 | rsyncDump depends only on the stamps, RsyncCommand, BackupDir, RemotePort, RemoteUser, RemoteServer and RemotePath |
| RunPaths.DocRunIdentifiesMinute | pg_backup.go:76-80 | for valid clock readings, two runs issue the same dump command if and only if they start in the same minute |
| RunPaths.RsyncDumpIdentifiesMinute | pg_backup.go:76-81 | for valid clock readings, two runs issue the same transfer command if and only if they start in the same minute |
| RunPaths.DocRunInputs | pg_backup.go:80 | docRun depends only on the stamps, DocCommand, PgCommand and DocBackupDir |
| Schedule.Dispatch | pg_backup.go:113-121 | a registration is made exactly for the plan names "time", "hour" and "minute"; the registration is the mode that name selects and carries that mode's field of the plan |
| Schedule.DispatchPlanFor | pg_backup.go:113-121 | every cadence is reachable: writing it into any plan and dispatching gives it back |
| Schedule.DispatchReadsOnlySelectedField | pg_backup.go:115-120 | dispatch reads only the plan name and the one field of the selected mode |
| Schedule.DecodePlanAsWritten | pg_backup.go:46-51 | with unexported fields, the decoded plan registers nothing, whatever the document says |
| Schedule.AsWrittenDropsHourlyPlan | pg_backup.go:46-51 | a document asking for every 3 hours registers nothing as written, and registers Hourly(3) when its fields are decoded |
| Schedule.DecodedPlanDispatch | pg_backup.go:46-51 | with its fields decoded, a document naming a mode registers that mode with the document's value, and any other name registers nothing |
| Backup.DumpEffects | pg_backup.go:83-97 | the dump command is issued first; the transfer is issued only after a successful dump, and only as the second effect; the only status ever written is 1; an exit is the last effect and has code 1; the run writes nothing and does not exit exactly when both commands succeed; a failed run ends with exactly the status write and the exit, and the trace holds nothing else |
| Backup.ApplyDumpEffects | pg_backup.go:84-97 | on a live process a run appends its commands; a failure sets the status to 1 and exits with 1; a success changes nothing else |
| Backup.Dump | pg_backup.go:74-98 | docRun is issued first, and rsyncDump second exactly when the dump succeeded; the process exits with 1 and status 1 if and only if a command failed; on success the gauges are untouched |
| Backup.DumpNeverClearsStatus | pg_backup.go:84-97 | after a run the status is its prior value or 1, never reset to 0 |
| Backup.RunTickPlaysDump | pg_backup.go:84-97 | the per-tick summary equals playing that run's effects |
| Backup.ServeOutcome | pg_backup.go:84-97 | over any ticks: the process stays alive exactly while no run has failed and keeps its gauges; the first failure leaves status 1 and exit code 1; the size is never written |
| Backup.ServeCalls | pg_backup.go:84-96 | the process issues exactly the commands of the runs up to and including the first failing one, in tick order |
| Backup.IssuedCount | pg_backup.go:84-96 | each successful run issues two commands, and the failing run issues one or two |
| Backup.MainStatus | pg_backup.go:101-121 | from start-up, a live process holds status 0 and size 7000000 in its gauges; an exited one holds status 1 and has exit code 1; the process is alive if and only if nothing was registered or every run succeeded |
| Backup.UnscheduledNeverRuns | pg_backup.go:113-121 | with the plan decoded as written, no command is ever issued and the gauges keep their initial values |

## Left out

- Shell execution (pg_backup.go:60-72): the dump and rsync commands are foreign processes. Their outcome is the `CmdResult` parameter, and their stderr is not modelled.
- `os.Mkdir` of the backup root (pg_backup.go:83): a filesystem effect whose error is ignored, so it cannot change what `Dump` does.
- `time.Now()` (pg_backup.go:76-77): the clock is a `Clock` parameter read once per run. The source reads it twice, which could straddle a minute boundary; this is not modelled. Negative years are not modelled either (the year is a `nat`).
- YAML loading and the `panic` on a read or decode error (pg_backup.go:103-112): the configuration is a parameter. Only the effect of the unexported plan fields is modelled (see Findings).
- Prometheus registration, the HTTP metrics server, the `backupStatus.Set(0)` after the scheduler channel and `log.Fatal` (pg_backup.go:19-28, 54-58, 123-129): library and network I/O. The gauges are plain state holding integers instead of float64 values. The metrics endpoint is never started: `http.Handle` and `ListenAndServe` (pg_backup.go:128-129) come after the receive on the scheduler's stop channel (pg_backup.go:124), and nothing in this code ever stops the scheduler, so that receive never returns. The gauges are therefore never visible to a scraper; the model speaks of the values they hold.
- gocron timing (pg_backup.go:114-124): when ticks fire, how daily, hourly and minutely cadences map to wall-clock instants, and any overlap between runs. These belong to a library that is not part of this model; ticks are given as a sequence that runs one after another.
- The log messages printed with `fmt.Printf` (pg_backup.go:86, 90, 93, 97): operator output only.
- The `LogFile` setting: it is read into the configuration but never used.

## Findings

| source | as written | input that shows it | evidently intended | confidence | as-written member | corrected member |
|---|---|---|---|---|---|---|
| pg_backup.go:46-51 | the ShedulePlan fields `shPlan`, `shTime`, `shHour`, `shMinute` are unexported, so the YAML decoder never fills them; the plan stays empty and `main` registers no job | a document with `shPlan: hour` and `shHour: 3` | the four fields filled from the document, as their yaml tags ask | not executed; high, since the YAML decoder only sets exported struct fields | Schedule.AsWrittenDropsHourlyPlan | Schedule.DecodedPlanDispatch |
