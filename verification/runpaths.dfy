/** The strings `Dump` derives for one run (pg_backup.go:74-82): the two
    timestamped directories, the dump command line and the transfer command
    line. All four are plain concatenations of configuration strings and the
    two stamps; no separator is added anywhere except the ones written here. */
module RunPaths {
  import opened Configuration
  import opened Stamp

  /** The part both directories share: "<date>/<hour-minute>/". */
  function RunSuffix(date: string, hm: string): string {
    date + "/" + hm + "/"
  }

  /** Position of the first `c` in `s`, or |s| when there is none. */
  function IndexOf(s: string, c: char): (i: nat)
    ensures i <= |s|
    ensures forall j :: 0 <= j < i ==> s[j] != c
    ensures i < |s| ==> s[i] == c
  {
    if |s| == 0 then 0
    else if s[0] == c then 0
    else 1 + IndexOf(s[1..], c)
  }

  /** Splits "<date>/<hour-minute>/" back into its two stamps: the date runs
      up to the first '/', the hour-minute from there to the final '/'. */
  function SplitSuffix(s: string): (string, string) {
    var i := IndexOf(s, '/');
    if i + 2 <= |s| then (s[..i], s[i + 1..|s| - 1]) else ("", "")
  }

  lemma SplitRunSuffix(date: string, hm: string)
    ensures '/' !in date ==> SplitSuffix(RunSuffix(date, hm)) == (date, hm)
  {
    if '/' in date { return; }
    var s := RunSuffix(date, hm);
    var i := IndexOf(s, '/');
    assert s[|date|] == '/';
    assert i == |date|;
    assert s[..|date|] == date;
    assert s[|date| + 1..|s| - 1] == hm;
  }

  /** The local directory of this run: config.Path.BackupDir followed by the
      run suffix (pg_backup.go:78). */
  function BackupDir(cfg: Config, date: string, hm: string): string {
    cfg.path.backupDir + RunSuffix(date, hm)
  }

  /** The directory handed to the dump command: config.Path.DocBackupDir
      followed by the same run suffix (pg_backup.go:79). */
  function DocBackupDir(cfg: Config, date: string, hm: string): string {
    cfg.path.docBackupDir + RunSuffix(date, hm)
  }

  /** A directory under `root` for the run stamped `date`/`hm` starts with the
      root, ends with '/', and gives the two stamps back when the date is a
      single path component. */
  lemma RunDirShape(root: string, date: string, hm: string)
    ensures var r := root + RunSuffix(date, hm);
      && |root| < |r| && r[..|root|] == root
      && r[|r| - 1] == '/'
      && ('/' !in date ==> SplitSuffix(r[|root|..]) == (date, hm))
  {
    var r := root + RunSuffix(date, hm);
    assert r[..|root|] == root;
    assert r[|root|..] == RunSuffix(date, hm);
    SplitRunSuffix(date, hm);
  }

  lemma BackupDirShape(cfg: Config, date: string, hm: string)
    ensures var r, root := BackupDir(cfg, date, hm), cfg.path.backupDir;
      && |root| < |r| && r[..|root|] == root
      && r[|r| - 1] == '/'
      && ('/' !in date ==> SplitSuffix(r[|root|..]) == (date, hm))
  {
    RunDirShape(cfg.path.backupDir, date, hm);
  }

  lemma DocBackupDirShape(cfg: Config, date: string, hm: string)
    ensures var r, root := DocBackupDir(cfg, date, hm), cfg.path.docBackupDir;
      && |root| < |r| && r[..|root|] == root
      && r[|r| - 1] == '/'
      && ('/' !in date ==> SplitSuffix(r[|root|..]) == (date, hm))
  {
    RunDirShape(cfg.path.docBackupDir, date, hm);
  }

  /** Both directories of one run end in the identical stamp suffix. */
  lemma DirsShareSuffix(cfg: Config, date: string, hm: string)
    ensures |cfg.path.backupDir| <= |BackupDir(cfg, date, hm)|
    ensures |cfg.path.docBackupDir| <= |DocBackupDir(cfg, date, hm)|
    ensures BackupDir(cfg, date, hm)[|cfg.path.backupDir|..]
         == DocBackupDir(cfg, date, hm)[|cfg.path.docBackupDir|..]
  {
  }

  /** The dump command line: DocCommand, then a double-quoted argument made of
      PgCommand and the document backup directory (pg_backup.go:80). */
  function DocRun(cfg: Config, date: string, hm: string): string {
    cfg.docCommand + "\"" + cfg.pgCommand + DocBackupDir(cfg, date, hm) + "\""
  }

  /** The dump command starts with DocCommand and an opening quote, ends with
      the closing quote, and what lies between the quotes is PgCommand
      followed by the document backup directory. */
  lemma DocRunShape(cfg: Config, date: string, hm: string)
    ensures var r, dir := DocRun(cfg, date, hm), DocBackupDir(cfg, date, hm);
      && |cfg.docCommand| + 2 + |dir| <= |r|
      && r[..|cfg.docCommand| + 1] == cfg.docCommand + "\""
      && r[|r| - 1] == '"'
      && r[|cfg.docCommand| + 1..|r| - 1] == cfg.pgCommand + dir
      && r[|r| - 1 - |dir|..|r| - 1] == dir
  {
  }

  /** The head of the transfer command: RsyncCommand followed by the quoted
      ssh transport with the configured port. */
  function SshOption(cfg: Config): string {
    cfg.rsyncCommand + "\"ssh -p " + cfg.server.remotePort + "\""
  }

  /** The transfer destination "user@server:path". */
  function Destination(cfg: Config): string {
    cfg.server.remoteUser + "@" + cfg.server.remoteServer + ":" + cfg.server.remotePath
  }

  /** The transfer command line: the ssh option, the local backup directory
      as the source, and the remote destination, joined with nothing in
      between (pg_backup.go:81). */
  function RsyncDump(cfg: Config, date: string, hm: string): string {
    SshOption(cfg) + BackupDir(cfg, date, hm) + Destination(cfg)
  }

  /** The transfer command is the ssh option, then the backup directory, then
      "user@server:path" at the very end. */
  lemma RsyncDumpShape(cfg: Config, date: string, hm: string)
    ensures var r, head, dir := RsyncDump(cfg, date, hm), SshOption(cfg), BackupDir(cfg, date, hm);
      && |head| + |dir| <= |r|
      && r[..|head|] == cfg.rsyncCommand + "\"ssh -p " + cfg.server.remotePort + "\""
      && r[|head|..|head| + |dir|] == dir
      && r[|head| + |dir|..] == cfg.server.remoteUser + "@" + cfg.server.remoteServer + ":" + cfg.server.remotePath
  {
  }

  /** The bandwidth limit is read from the configuration but plays no part in
      any command line. */
  lemma BwLimitUnused(cfg: Config, limit: string, date: string, hm: string)
    ensures var other := cfg.(server := cfg.server.(remoteBwLimit := limit));
      && RsyncDump(other, date, hm) == RsyncDump(cfg, date, hm)
      && DocRun(other, date, hm) == DocRun(cfg, date, hm)
  {
  }

  /** The transfer command depends on the stamps and on exactly these six
      configuration strings; everything else may differ. */
  lemma RsyncDumpInputs(a: Config, b: Config, date: string, hm: string)
    requires a.rsyncCommand == b.rsyncCommand && a.path.backupDir == b.path.backupDir
    requires a.server.remotePort == b.server.remotePort && a.server.remoteUser == b.server.remoteUser
    requires a.server.remoteServer == b.server.remoteServer && a.server.remotePath == b.server.remotePath
    ensures RsyncDump(a, date, hm) == RsyncDump(b, date, hm)
  {
  }

  /** The dump command depends on the stamps and on DocCommand, PgCommand and
      DocBackupDir only. */
  lemma DocRunInputs(a: Config, b: Config, date: string, hm: string)
    requires a.docCommand == b.docCommand && a.pgCommand == b.pgCommand
    requires a.path.docBackupDir == b.path.docBackupDir
    ensures DocRun(a, date, hm) == DocRun(b, date, hm)
  {
  }

  /** Runs started in different minutes get different directories, both
      locally and for the dump; runs in the same minute share them. */
  lemma DirsIdentifyMinute(cfg: Config, c1: Clock, c2: Clock)
    requires Valid(c1) && Valid(c2)
    ensures (BackupDir(cfg, DateStamp(c1), ClockStamp(c1)) == BackupDir(cfg, DateStamp(c2), ClockStamp(c2))) <==> c1 == c2
    ensures (DocBackupDir(cfg, DateStamp(c1), ClockStamp(c1)) == DocBackupDir(cfg, DateStamp(c2), ClockStamp(c2))) <==> c1 == c2
  {
    var d1, h1, d2, h2 := DateStamp(c1), ClockStamp(c1), DateStamp(c2), ClockStamp(c2);
    StampsHaveNoSlash(c1);
    StampsHaveNoSlash(c2);
    StampsIdentifyMinute(c1, c2);
    BackupDirShape(cfg, d1, h1);
    BackupDirShape(cfg, d2, h2);
    DocBackupDirShape(cfg, d1, h1);
    DocBackupDirShape(cfg, d2, h2);
  }

  /** Equal strings that share a prefix and a suffix agree in between. */
  lemma CancelAround(a: string, x: string, y: string, b: string)
    requires a + x + b == a + y + b
    ensures x == y
  {
    var s := a + x + b;
    assert |x| == |y|;
    assert x == s[|a|..|a| + |x|];
    assert y == (a + y + b)[|a|..|a| + |y|];
  }

  /** The dump command names its run: for valid readings, two runs issue the
      same dump command exactly when they start in the same minute. */
  lemma DocRunIdentifiesMinute(cfg: Config, c1: Clock, c2: Clock)
    requires Valid(c1) && Valid(c2)
    ensures DocRun(cfg, DateStamp(c1), ClockStamp(c1)) == DocRun(cfg, DateStamp(c2), ClockStamp(c2)) <==> c1 == c2
  {
    var d1 := DocBackupDir(cfg, DateStamp(c1), ClockStamp(c1));
    var d2 := DocBackupDir(cfg, DateStamp(c2), ClockStamp(c2));
    var head := cfg.docCommand + "\"" + cfg.pgCommand;
    assert DocRun(cfg, DateStamp(c1), ClockStamp(c1)) == head + d1 + "\"";
    assert DocRun(cfg, DateStamp(c2), ClockStamp(c2)) == head + d2 + "\"";
    if head + d1 + "\"" == head + d2 + "\"" {
      CancelAround(head, d1, d2, "\"");
    }
    DirsIdentifyMinute(cfg, c1, c2);
  }

  /** The transfer command names its run: for valid readings, two runs issue
      the same transfer command exactly when they start in the same minute. */
  lemma RsyncDumpIdentifiesMinute(cfg: Config, c1: Clock, c2: Clock)
    requires Valid(c1) && Valid(c2)
    ensures RsyncDump(cfg, DateStamp(c1), ClockStamp(c1)) == RsyncDump(cfg, DateStamp(c2), ClockStamp(c2)) <==> c1 == c2
  {
    var b1 := BackupDir(cfg, DateStamp(c1), ClockStamp(c1));
    var b2 := BackupDir(cfg, DateStamp(c2), ClockStamp(c2));
    if SshOption(cfg) + b1 + Destination(cfg) == SshOption(cfg) + b2 + Destination(cfg) {
      CancelAround(SshOption(cfg), b1, b2, Destination(cfg));
    }
    DirsIdentifyMinute(cfg, c1, c2);
  }
}
