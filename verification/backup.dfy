/** One backup run (`Dump`, pg_backup.go:74-98) and the process that runs
    it on each scheduler tick (`main`, pg_backup.go:100-124).

    The shell commands are not executed: each run takes the result the
    dump command and the transfer command would report. A run is described
    by the effects it performs, in order (command invocations, writes to the
    status gauge, process exit), and `Apply` plays such a trace against the
    observable process state. */
module Backup {
  import opened Wrappers
  import opened Metrics
  import opened Schedule
  import opened Configuration
  import opened Stamp
  import opened RunPaths

  /** What `cmd.Run()` reports for a command: success, or an error. */
  datatype CmdResult = Ok | Err

  datatype Phase = Produce | Transfer

  /** One shell command issued: its phase and the full command line. */
  datatype Invocation = Invocation(phase: Phase, command: string)

  datatype Effect =
    | Invoke(call: Invocation)
    | SetStatus(value: int)
    | Exit(code: int)

  /** What can be observed of the process: the gauges, every command issued
      so far, and the exit code once the process has exited. */
  datatype Machine = Machine(gauges: Gauges, invoked: seq<Invocation>, exited: Option<int>)

  /** The process right after `main` initialised the gauges. */
  const Boot: Machine := Machine(Initial, [], None)

  /** A run counts as successful exactly when both commands succeed. */
  predicate Succeeded(produce: CmdResult, transfer: CmdResult) {
    produce.Ok? && transfer.Ok?
  }

  function Step(m: Machine, e: Effect): Machine {
    match e
    case Invoke(call) => m.(invoked := m.invoked + [call])
    case SetStatus(v) => m.(gauges := m.gauges.(status := v))
    case Exit(code) => m.(exited := Some(code))
  }

  /** Plays a trace of effects; once the process has exited nothing further
      happens. */
  function Apply(m: Machine, t: seq<Effect>): Machine
    decreases |t|
  {
    if |t| == 0 || m.exited.Some? then m else Apply(Step(m, t[0]), t[1..])
  }

  /** The effects of one `Dump` in the order the source performs them: run the
      dump command; on error set the status to 1 and exit with code 1;
      otherwise run the transfer command, and on its error do the same. On
      success nothing is written. */
  function DumpEffects(docRun: string, rsyncDump: string, produce: CmdResult, transfer: CmdResult): (t: seq<Effect>)
    ensures 1 <= |t| && t[0] == Invoke(Invocation(Produce, docRun))
    ensures produce.Ok? ==> 2 <= |t| && t[1] == Invoke(Invocation(Transfer, rsyncDump))
    ensures forall i :: 0 <= i < |t| && t[i].Invoke? && t[i].call.phase == Transfer ==> i == 1 && produce.Ok?
    ensures forall i :: 0 <= i < |t| && t[i].SetStatus? ==> t[i].value == Failed
    ensures forall i :: 0 <= i < |t| && t[i].Exit? ==> i == |t| - 1 && t[i].code == 1
    ensures (forall i :: 0 <= i < |t| ==> t[i].Invoke?) <==> Succeeded(produce, transfer)
    ensures |t| == (if produce.Ok? then 2 else 1) + (if Succeeded(produce, transfer) then 0 else 2)
    ensures !Succeeded(produce, transfer) ==> |t| >= 3 && t[|t| - 2] == SetStatus(Failed) && t[|t| - 1] == Exit(1)
  {
    var dump := Invoke(Invocation(Produce, docRun));
    var sync := Invoke(Invocation(Transfer, rsyncDump));
    if produce.Err? then
      var t := [dump, SetStatus(Failed), Exit(1)];
      assert !t[1].Invoke?;
      t
    else if transfer.Err? then
      var t := [dump, sync, SetStatus(Failed), Exit(1)];
      assert produce.Ok? && !t[2].Invoke?;
      t
    else [dump, sync]
  }

  /** The commands one run issues: the dump, then the transfer only if the
      dump succeeded. */
  function RunCalls(docRun: string, rsyncDump: string, produce: CmdResult): (calls: seq<Invocation>)
    ensures |calls| == if produce.Ok? then 2 else 1
  {
    [Invocation(Produce, docRun)] + (if produce.Ok? then [Invocation(Transfer, rsyncDump)] else [])
  }

  /** Playing one run's trace on a live process appends its commands; a
      failure sets the status to 1 and exits with 1, a success changes
      nothing else. */
  lemma ApplyDumpEffects(m: Machine, docRun: string, rsyncDump: string, produce: CmdResult, transfer: CmdResult)
    requires m.exited.None?
    ensures Apply(m, DumpEffects(docRun, rsyncDump, produce, transfer))
         == if Succeeded(produce, transfer) then m.(invoked := m.invoked + RunCalls(docRun, rsyncDump, produce))
            else Machine(m.gauges.(status := Failed), m.invoked + RunCalls(docRun, rsyncDump, produce), Some(1))
  {
    var t := DumpEffects(docRun, rsyncDump, produce, transfer);
    var calls := RunCalls(docRun, rsyncDump, produce);
    var m1 := Step(m, t[0]);
    assert Apply(m, t) == Apply(m1, t[1..]);
    var m2 := Step(m1, t[1]);
    assert Apply(m1, t[1..]) == Apply(m2, t[2..]);
    if produce.Err? {
      assert m.invoked + calls == m1.invoked;
      assert Apply(m2, t[2..]) == Apply(Step(m2, t[2]), t[3..]);
    } else {
      assert m.invoked + calls == m2.invoked;
      if transfer.Err? {
        var m3 := Step(m2, t[2]);
        assert Apply(m2, t[2..]) == Apply(m3, t[3..]);
        assert Apply(m3, t[3..]) == Apply(Step(m3, t[3]), t[4..]);
      }
    }
  }

  /** `Dump` with the gauges `g` in place before it starts. */
  function Dump(cfg: Config, date: string, hm: string, g: Gauges, produce: CmdResult, transfer: CmdResult): (r: Machine)
    ensures 1 <= |r.invoked| <= 2
    ensures r.invoked[0] == Invocation(Produce, DocRun(cfg, date, hm))
    ensures |r.invoked| == 2 <==> produce.Ok?
    ensures |r.invoked| == 2 ==> r.invoked[1] == Invocation(Transfer, RsyncDump(cfg, date, hm))
    ensures r.exited.None? <==> Succeeded(produce, transfer)
    ensures r.exited.Some? ==> r.exited == Some(1) && r.gauges == Gauges(g.size, Failed)
    ensures r.exited.None? ==> r.gauges == g
  {
    var docRun, rsyncDump := DocRun(cfg, date, hm), RsyncDump(cfg, date, hm);
    ApplyDumpEffects(Machine(g, [], None), docRun, rsyncDump, produce, transfer);
    Apply(Machine(g, [], None), DumpEffects(docRun, rsyncDump, produce, transfer))
  }

  /** A run never clears the status: afterwards it is either what it was or 1. */
  lemma DumpNeverClearsStatus(cfg: Config, date: string, hm: string, g: Gauges, produce: CmdResult, transfer: CmdResult)
    ensures var r := Dump(cfg, date, hm, g, produce, transfer);
      r.gauges.status == g.status || r.gauges.status == Failed
  {
  }

  /** One scheduler tick: the wall-clock reading at the start of the run and
      the results the two commands report. */
  datatype Tick = Tick(at: Clock, produce: CmdResult, transfer: CmdResult)

  /** The dump and transfer command lines of the run a tick starts. */
  function TickCommands(cfg: Config, k: Tick): (string, string) {
    var date, hm := DateStamp(k.at), ClockStamp(k.at);
    (DocRun(cfg, date, hm), RsyncDump(cfg, date, hm))
  }

  /** One tick on a live process, summarised: the run's commands are
      appended, and a failed run sets the status to 1 and exits with 1. */
  function RunTick(cfg: Config, m: Machine, k: Tick): Machine {
    var (docRun, rsyncDump) := TickCommands(cfg, k);
    var calls := RunCalls(docRun, rsyncDump, k.produce);
    if Succeeded(k.produce, k.transfer) then m.(invoked := m.invoked + calls)
    else Machine(m.gauges.(status := Failed), m.invoked + calls, Some(1))
  }

  /** The summary is exactly what playing the run's effects does. */
  lemma RunTickPlaysDump(cfg: Config, m: Machine, k: Tick)
    requires m.exited.None?
    ensures var (docRun, rsyncDump) := TickCommands(cfg, k);
      RunTick(cfg, m, k) == Apply(m, DumpEffects(docRun, rsyncDump, k.produce, k.transfer))
  {
    var (docRun, rsyncDump) := TickCommands(cfg, k);
    ApplyDumpEffects(m, docRun, rsyncDump, k.produce, k.transfer);
  }

  /** Runs `Dump` for each tick in turn until a run exits the process. */
  function Serve(cfg: Config, m: Machine, ticks: seq<Tick>): Machine
    decreases |ticks|
  {
    if |ticks| == 0 || m.exited.Some? then m
    else Serve(cfg, RunTick(cfg, m, ticks[0]), ticks[1..])
  }

  /** Index of the first tick whose run fails, or the number of ticks. */
  function FirstFailure(ticks: seq<Tick>): (k: nat)
    ensures k <= |ticks|
    ensures forall j :: 0 <= j < k ==> Succeeded(ticks[j].produce, ticks[j].transfer)
    ensures k < |ticks| ==> !Succeeded(ticks[k].produce, ticks[k].transfer)
  {
    if |ticks| == 0 then 0
    else if !Succeeded(ticks[0].produce, ticks[0].transfer) then 0
    else 1 + FirstFailure(ticks[1..])
  }

  /** Commands issued by the failing run at index k, if there is one. */
  function FailingRunCalls(ticks: seq<Tick>, k: nat): nat {
    if k < |ticks| then (if ticks[k].produce.Ok? then 2 else 1) else 0
  }

  /** Over any sequence of ticks from a live process: every successful run
      leaves the gauges alone; the first failing run sets the status to 1 and
      ends the process with code 1. The size is never written. */
  lemma {:induction false} ServeOutcome(cfg: Config, m: Machine, ticks: seq<Tick>)
    requires m.exited.None?
    ensures var r := Serve(cfg, m, ticks);
      && r.gauges.size == m.gauges.size
      && (r.exited.None? <==> FirstFailure(ticks) == |ticks|)
      && (r.exited.None? ==> r.gauges == m.gauges)
      && (r.exited.Some? ==> r.exited == Some(1) && r.gauges.status == Failed)
    decreases |ticks|
  {
    if |ticks| > 0 {
      var k := ticks[0];
      var m1 := RunTick(cfg, m, k);
      assert Serve(cfg, m, ticks) == Serve(cfg, m1, ticks[1..]);
      if Succeeded(k.produce, k.transfer) {
        ServeOutcome(cfg, m1, ticks[1..]);
        assert FirstFailure(ticks) == 1 + FirstFailure(ticks[1..]);
      } else {
        assert Serve(cfg, m1, ticks[1..]) == m1;
      }
    }
  }

  /** The commands a sequence of ticks issues, run by run, up to and
      including the first failing run. */
  function Issued(cfg: Config, ticks: seq<Tick>): seq<Invocation>
    decreases |ticks|
  {
    if |ticks| == 0 then []
    else
      var k := ticks[0];
      var (docRun, rsyncDump) := TickCommands(cfg, k);
      RunCalls(docRun, rsyncDump, k.produce)
        + (if Succeeded(k.produce, k.transfer) then Issued(cfg, ticks[1..]) else [])
  }

  /** The process issues exactly the commands of the runs up to the first
      failure, in tick order; no later tick issues anything. */
  lemma {:induction false} ServeCalls(cfg: Config, m: Machine, ticks: seq<Tick>)
    requires m.exited.None?
    ensures Serve(cfg, m, ticks).invoked == m.invoked + Issued(cfg, ticks)
    decreases |ticks|
  {
    if |ticks| > 0 {
      var k := ticks[0];
      var m1 := RunTick(cfg, m, k);
      assert Serve(cfg, m, ticks) == Serve(cfg, m1, ticks[1..]);
      if Succeeded(k.produce, k.transfer) {
        ServeCalls(cfg, m1, ticks[1..]);
      } else {
        assert Serve(cfg, m1, ticks[1..]) == m1;
      }
    }
  }

  /** Every successful run issues two commands, the failing run one or two. */
  lemma {:induction false} IssuedCount(cfg: Config, ticks: seq<Tick>)
    ensures |Issued(cfg, ticks)| == 2 * FirstFailure(ticks) + FailingRunCalls(ticks, FirstFailure(ticks))
    decreases |ticks|
  {
    if |ticks| > 0 && Succeeded(ticks[0].produce, ticks[0].transfer) {
      IssuedCount(cfg, ticks[1..]);
      var f := FirstFailure(ticks[1..]);
      assert FirstFailure(ticks) == 1 + f;
      if f < |ticks[1..]| {
        assert ticks[1..][f] == ticks[f + 1];
      }
    }
  }

  /** What `main` does after initialising the gauges: if the plan registers a
      cadence, every tick of it runs `Dump`; otherwise nothing ever runs. */
  function Main(cfg: Config, ticks: seq<Tick>): Machine {
    if Dispatch(cfg.plan).Some? then Serve(cfg, Boot, ticks) else Boot
  }

  /** The gauges from start-up on: while the process is alive they hold
      status 0 and the placeholder size, and the process is alive exactly when no
      run has failed; when it has exited the status is 1 and the exit code 1. */
  lemma MainStatus(cfg: Config, ticks: seq<Tick>)
    ensures var r := Main(cfg, ticks);
      && r.gauges.size == PlaceholderSize
      && (r.exited.None? ==> r.gauges.status == Healthy)
      && (r.exited.Some? ==> r.gauges.status == Failed && r.exited == Some(1))
      && (r.exited.None? <==> (Dispatch(cfg.plan).None? || forall j :: 0 <= j < |ticks| ==> Succeeded(ticks[j].produce, ticks[j].transfer)))
  {
    ServeOutcome(cfg, Boot, ticks);
  }

  /** A plan that registers nothing leaves the process idle for good: no
      command is ever issued, as happens with the plan decoded as written. */
  lemma UnscheduledNeverRuns(cfg: Config, doc: PlanDocument, ticks: seq<Tick>)
    requires cfg.plan == DecodePlanAsWritten(doc)
    ensures Main(cfg, ticks) == Boot
  {
  }
}
