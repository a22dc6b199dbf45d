/**
 * The two worker tasks: the sync task, which sets up, checks both remotes, reports its progress
 * and runs one sync; and the health check, which reports whether both remotes answer.
 */
module Tasks {
  import opened Wrappers
  import opened PyLib
  import Config
  import Sync

  /** The progress statuses the sync task reports, in the order it reports them. */
  const Initializing: string := "initializing"
  const TestingConnections: string := "testing_connections"
  const Syncing: string := "syncing"
  const Stages: seq<string> := [Initializing, TestingConnections, Syncing]

  const GdriveUnreachable: string := "Failed to connect to Google Drive"
  const S3Unreachable: string := "Failed to connect to S3"

  /** A Celery task bound to its own request: the progress statuses it has published so far. */
  class CeleryTask {
    var statuses: seq<string>

    constructor ()
      ensures statuses == []
    {
      statuses := [];
    }

    /** `update_state(state="PROGRESS", meta={"status": status})`. */
    method UpdateState(status: string)
      modifies this
      ensures statuses == old(statuses) + [status]
    {
      statuses := statuses + [status];
    }
  }

  /** What the sync task raises: the configuration error from setup, or a `RuntimeError`. */
  datatype TaskError = ConfigFailed(cause: Config.ConfigError) | RuntimeError(message: string) {
    /** `str(e)`. */
    function Message(): string {
      match this
      case ConfigFailed(cause) => cause.Message()
      case RuntimeError(message) => message
    }
  }

  /** `SyncResult.to_dict()` without the timestamps, the duration and the sizes in megabytes. */
  datatype SyncSummary = SyncSummary(
    success: bool,
    mode: string,
    sourceFiles: int,
    destinationFiles: int,
    errors: seq<string>)

  function ToDict(r: Sync.SyncResult): SyncSummary {
    SyncSummary(r.success, r.mode.Label(), r.sourceFiles, r.destinationFiles, r.errors)
  }

  /** The dictionary a sync returns: success from the transfer alone, the mode's name, the file
      counts of the two probes and the errors in order. */
  lemma SummaryOfSync(s: Config.Settings, cfg: string, dryRun: bool, forceFull: bool, replies: seq<Sync.Outcome>,
                      loads: string -> Result<Json, string>)
    requires |replies| == |Sync.SyncCommands(s, cfg, dryRun, forceFull)|
    ensures var r := Sync.SyncReport(s, cfg, dryRun, forceFull, replies, loads);
      var d, t := ToDict(r), replies[|replies| - 2];
      && (d.success <==> t.Ran? && t.returncode == 0)
      && d.mode == Sync.ModeOf(dryRun, forceFull).Label()
      && d.sourceFiles == Sync.SizeFromOutcome(replies[0], loads).0
      && d.destinationFiles == Sync.SizeFromOutcome(replies[|replies| - 1], loads).0
      && d.errors == r.errors
  {
    Sync.SyncReportProperties(s, cfg, dryRun, forceFull, replies, loads);
  }

  /** One run of the sync task: the statuses it published, what it returned or raised, and the
      rclone command lines it issued. */
  datatype TaskRun = TaskRun(statuses: seq<string>, outcome: Result<SyncSummary, TaskError>, issued: seq<Sync.Command>)

  /** Both remotes answered the connection test. */
  predicate BothReachable(s: Config.Settings, configPath: string, respond: Sync.Oracle, h: seq<Sync.Command>) {
    var probes := Sync.ConnectionCommands(s, Some(configPath));
    var rs := Sync.Replies(respond, h, probes);
    var conn := Sync.Connections(s, Some(configPath), rs[0], rs[1]);
    conn["gdrive"] && conn["s3"]
  }

  /**
   * `sync_gdrive_to_s3` against an rclone that answers by `respond` after `h`: setup, the
   * connection test, then the sync, each stage announced before it starts.
   */
  function SyncTaskRun(s: Config.Settings, codecs: Codecs, respond: Sync.Oracle, h: seq<Sync.Command>,
                       dryRun: bool, forceFull: bool): (run: TaskRun)
    // the statuses are announced in order and none is skipped
    ensures 1 <= |run.statuses| <= 3 && run.statuses == Stages[..|run.statuses|]
    // a configuration error is raised before rclone is ever called
    ensures (run.outcome.Failure? && run.outcome.error.ConfigFailed?) <==> Config.SetupRcloneConfig(s, codecs).Failure?
    ensures Config.SetupRcloneConfig(s, codecs).Failure? ==>
      run.outcome == Failure(ConfigFailed(Config.SetupRcloneConfig(s, codecs).error))
    ensures Config.SetupRcloneConfig(s, codecs).Failure? ==> run.issued == [] && run.statuses == [Initializing]
    // the text of what is raised: setup's own message, or the unreachable remote named
    ensures run.outcome.Failure? ==> (run.outcome.error.Message() ==
      (if Config.SetupRcloneConfig(s, codecs).Failure? then Config.SetupRcloneConfig(s, codecs).error.Message()
       else if run.outcome.error.message == GdriveUnreachable then GdriveUnreachable else S3Unreachable))
    // the sync is reached, and its result returned, exactly when both remotes answered
    ensures run.outcome.Success? <==> |run.statuses| == 3
    ensures run.outcome.Success? <==> (Config.SetupRcloneConfig(s, codecs).Success?
      && BothReachable(s, Config.SetupRcloneConfig(s, codecs).value.configPath, respond, h))
    // otherwise it raises the first unreachable remote, Google Drive before S3, and transfers nothing
    ensures run.outcome.Failure? && run.outcome.error.RuntimeError? ==>
      && run.outcome.error.message in {GdriveUnreachable, S3Unreachable}
      && |run.statuses| == 2
      && run.issued == Sync.ConnectionCommands(s, Some(Config.SetupRcloneConfig(s, codecs).value.configPath))
    // a run that gets through returns `to_dict()` of the sync, issued right after the two listings
    ensures run.outcome.Success? ==> (Config.SetupRcloneConfig(s, codecs).Success? &&
      var cfg := Config.SetupRcloneConfig(s, codecs).value.configPath;
      var probes, cmds := Sync.ConnectionCommands(s, Some(cfg)), Sync.SyncCommands(s, cfg, dryRun, forceFull);
      && run.issued == probes + cmds
      && run.outcome.value == ToDict(Sync.SyncReport(s, cfg, dryRun, forceFull, Sync.Replies(respond, h + probes, cmds), codecs.loads)))
  {
    match Config.SetupRcloneConfig(s, codecs)
    case Failure(e) => TaskRun([Initializing], Failure(ConfigFailed(e)), [])
    case Success(setup) =>
      var run := ConnectedRun(s, setup.configPath, codecs.loads, respond, h, dryRun, forceFull);
      TaskRun([Initializing] + run.statuses, run.outcome, run.issued)
  }

  /** The sync task after a successful setup that left the config at `cfg`. */
  function ConnectedRun(s: Config.Settings, cfg: string, loads: string -> Result<Json, string>, respond: Sync.Oracle,
                        h: seq<Sync.Command>, dryRun: bool, forceFull: bool): (run: TaskRun)
    ensures run.statuses == (if run.outcome.Success? then [TestingConnections, Syncing] else [TestingConnections])
    ensures run.outcome.Success? <==> BothReachable(s, cfg, respond, h)
    ensures run.outcome.Failure? ==>
      && run.outcome.error.RuntimeError?
      && run.outcome.error.message in {GdriveUnreachable, S3Unreachable}
      && run.issued == Sync.ConnectionCommands(s, Some(cfg))
    ensures run.outcome.Success? ==>
      var probes, cmds := Sync.ConnectionCommands(s, Some(cfg)), Sync.SyncCommands(s, cfg, dryRun, forceFull);
      && run.issued == probes + cmds
      && run.outcome.value == ToDict(Sync.SyncReport(s, cfg, dryRun, forceFull, Sync.Replies(respond, h + probes, cmds), loads))
  {
    var probes := Sync.ConnectionCommands(s, Some(cfg));
    var rs := Sync.Replies(respond, h, probes);
    var conn := Sync.Connections(s, Some(cfg), rs[0], rs[1]);
    if !conn["gdrive"] then
      TaskRun([TestingConnections], Failure(RuntimeError(GdriveUnreachable)), probes)
    else if !conn["s3"] then
      TaskRun([TestingConnections], Failure(RuntimeError(S3Unreachable)), probes)
    else
      var cmds := Sync.SyncCommands(s, cfg, dryRun, forceFull);
      var report := Sync.SyncReport(s, cfg, dryRun, forceFull, Sync.Replies(respond, h + probes, cmds), loads);
      TaskRun([TestingConnections, Syncing], Success(ToDict(report)), probes + cmds)
  }

  /** The connection test decides which error is raised: Google Drive's failure wins over S3's. */
  lemma UnreachableRemoteNamed(s: Config.Settings, codecs: Codecs, respond: Sync.Oracle, h: seq<Sync.Command>,
                               dryRun: bool, forceFull: bool)
    requires Config.SetupRcloneConfig(s, codecs).Success?
    ensures var cfg := Some(Config.SetupRcloneConfig(s, codecs).value.configPath);
      var probes := Sync.ConnectionCommands(s, cfg);
      var g := respond(h, probes[0]);
      var s3 := respond(h + [probes[0]], probes[1]);
      var run := SyncTaskRun(s, codecs, respond, h, dryRun, forceFull);
      && (!(g.Ran? && g.returncode == 0) ==> run.outcome == Failure(RuntimeError(GdriveUnreachable)))
      && (g.Ran? && g.returncode == 0 && s3.Raised? ==> run.outcome == Failure(RuntimeError(S3Unreachable)))
      && (g.Ran? && g.returncode == 0 && s3.Ran? ==> run.outcome.Success?)
  {
    var cfg := Some(Config.SetupRcloneConfig(s, codecs).value.configPath);
    var probes := Sync.ConnectionCommands(s, cfg);
    Sync.ReplyAt(respond, h, probes, 0);
    Sync.ReplyAt(respond, h, probes, 1);
    assert h + probes[..0] == h;
    assert probes[..1] == [probes[0]];
  }

  /** A dry run never deletes anything, and a task run deletes at most once, after both checks. */
  lemma TaskDeletesOnlyInForcedRealRun(s: Config.Settings, codecs: Codecs, respond: Sync.Oracle, h: seq<Sync.Command>,
                                       dryRun: bool, forceFull: bool)
    ensures var run := SyncTaskRun(s, codecs, respond, h, dryRun, forceFull);
      forall i :: 0 <= i < |run.issued| ==>
        |run.issued[i]| > 2 && (run.issued[i][2] == "delete" <==> forceFull && !dryRun && run.outcome.Success? && i == 3)
  {
    var run := SyncTaskRun(s, codecs, respond, h, dryRun, forceFull);
    if Config.SetupRcloneConfig(s, codecs).Success? {
      var cfg := Config.SetupRcloneConfig(s, codecs).value.configPath;
      var probes := Sync.ConnectionCommands(s, Some(cfg));
      assert probes[0][2] == "lsf" && probes[1][2] == "lsf";
      if run.outcome.Success? {
        var cmds := Sync.SyncCommands(s, cfg, dryRun, forceFull);
        Sync.SyncCommandsShape(s, cfg, dryRun, forceFull);
        assert run.issued == probes + cmds;
        forall i | 0 <= i < |run.issued|
          ensures |run.issued[i]| > 2 && (run.issued[i][2] == "delete" <==> forceFull && !dryRun && i == 3)
        {
          if i >= 2 {
            assert run.issued[i] == cmds[i - 2];
          }
        }
      }
    }
  }

  /** `sync_gdrive_to_s3`: the task's statuses, result and rclone calls are those of `SyncTaskRun`. */
  method SyncGdriveToS3(task: CeleryTask, service: Sync.SyncService, dryRun: bool, forceFull: bool)
    returns (r: Result<SyncSummary, TaskError>)
    modifies task, service, service.rclone
    ensures var run := SyncTaskRun(service.settings, service.codecs, service.rclone.respond, old(service.rclone.calls), dryRun, forceFull);
      && task.statuses == old(task.statuses) + run.statuses
      && r == run.outcome
      && service.rclone.calls == old(service.rclone.calls) + run.issued
    // setup leaves its path on the service, and a failed setup leaves the service as it was
    ensures Config.SetupRcloneConfig(service.settings, service.codecs).Success? ==>
      service.configPath == Some(Config.SetupRcloneConfig(service.settings, service.codecs).value.configPath)
    ensures Config.SetupRcloneConfig(service.settings, service.codecs).Failure? ==>
      service.configPath == old(service.configPath)
  {
    task.UpdateState(Initializing);
    var setup := service.Setup();
    if setup.Failure? {
      assert SyncTaskRun(service.settings, service.codecs, service.rclone.respond, service.rclone.calls, dryRun, forceFull)
        == TaskRun([Initializing], Failure(ConfigFailed(setup.error)), []);
      return Failure(ConfigFailed(setup.error));
    }
    ghost var cfg := Config.SetupRcloneConfig(service.settings, service.codecs).value.configPath;
    ghost var run := ConnectedRun(service.settings, cfg, service.codecs.loads, service.rclone.respond,
                                  service.rclone.calls, dryRun, forceFull);
    assert SyncTaskRun(service.settings, service.codecs, service.rclone.respond, service.rclone.calls, dryRun, forceFull)
      == TaskRun([Initializing] + run.statuses, run.outcome, run.issued);
    r := CheckAndSync(task, service, dryRun, forceFull);
  }

  /** The sync task after setup: the connection test, then the sync. */
  method CheckAndSync(task: CeleryTask, service: Sync.SyncService, dryRun: bool, forceFull: bool)
    returns (r: Result<SyncSummary, TaskError>)
    requires service.configPath.Some?
    modifies task, service, service.rclone
    ensures var run := ConnectedRun(service.settings, old(service.configPath).value, service.codecs.loads,
                                    service.rclone.respond, old(service.rclone.calls), dryRun, forceFull);
      && task.statuses == old(task.statuses) + run.statuses
      && r == run.outcome
      && service.rclone.calls == old(service.rclone.calls) + run.issued
    ensures service.configPath == old(service.configPath)
  {
    task.UpdateState(TestingConnections);
    var connections := service.TestConnections();
    if !connections["gdrive"] {
      return Failure(RuntimeError(GdriveUnreachable));
    }
    if !connections["s3"] {
      return Failure(RuntimeError(S3Unreachable));
    }
    r := SyncStage(task, service, dryRun, forceFull);
  }

  /** The sync stage, once both remotes answered: announce it, sync, return `to_dict()`. */
  method SyncStage(task: CeleryTask, service: Sync.SyncService, dryRun: bool, forceFull: bool)
    returns (r: Result<SyncSummary, TaskError>)
    requires service.configPath.Some?
    modifies task, service, service.rclone
    ensures var cfg := old(service.configPath).value;
      var cmds := Sync.SyncCommands(service.settings, cfg, dryRun, forceFull);
      && task.statuses == old(task.statuses) + [Syncing]
      && service.rclone.calls == old(service.rclone.calls) + cmds
      && r == Success(ToDict(Sync.SyncReport(service.settings, cfg, dryRun, forceFull,
                                             Sync.Replies(service.rclone.respond, old(service.rclone.calls), cmds),
                                             service.codecs.loads)))
    ensures service.configPath == old(service.configPath)
  {
    task.UpdateState(Syncing);
    var result := service.Sync(dryRun, forceFull);
    assert result.Success?;
    r := Success(ToDict(result.value));
  }

  // ----- health check -----

  /** What `health_check` returns: a health report, or the error setup raised. */
  datatype HealthReport =
    | Health(status: string, connections: map<string, bool>, sourceFolder: string, sourceFiles: int,
             destinationBucket: string, destinationFiles: int)
    | HealthError(error: string)
  {
    function Status(): string {
      if Health? then status else "error"
    }
  }

  /** `"healthy" if all(connections.values()) else "unhealthy"`. */
  function HealthStatus(connections: map<string, bool>): (status: string)
    ensures status == "healthy" || status == "unhealthy"
    ensures status == "healthy" <==> forall k :: k in connections ==> connections[k]
  {
    if forall k :: k in connections ==> connections[k] then "healthy" else "unhealthy"
  }

  /** One run of the health check: its report and the rclone command lines it issued. */
  datatype HealthRun = HealthRun(report: HealthReport, issued: seq<Sync.Command>)

  /** `health_check` against an rclone that answers by `respond` after `h`. */
  function HealthCheckRun(s: Config.Settings, codecs: Codecs, respond: Sync.Oracle, h: seq<Sync.Command>): (run: HealthRun)
    // only setup can make it fail, and then it reports the error instead of raising
    ensures run.report.HealthError? <==> Config.SetupRcloneConfig(s, codecs).Failure?
    ensures run.report.HealthError? ==>
      run.report.error == Config.SetupRcloneConfig(s, codecs).error.Message() && run.issued == []
    ensures run.report.Status() in {"healthy", "unhealthy", "error"}
    ensures run.report.Health? ==>
      && run.report.sourceFolder == s.gdriveFolder && run.report.destinationBucket == s.s3Bucket
      && run.report.connections.Keys == {"gdrive", "s3"}
      && |run.issued| == 4
      && (run.report.status == "healthy" <==> BothReachable(s, Config.SetupRcloneConfig(s, codecs).value.configPath, respond, h))
  {
    match Config.SetupRcloneConfig(s, codecs)
    case Failure(e) => HealthRun(HealthError(e.Message()), [])
    case Success(setup) =>
      var cfg := Some(setup.configPath);
      var probes := Sync.ConnectionCommands(s, cfg);
      var rs := Sync.Replies(respond, h, probes);
      var conn := Sync.Connections(s, cfg, rs[0], rs[1]);
      var sourceProbe := Sync.RcloneCommand(cfg, Sync.SizeArgs(Sync.GdriveSource(s), true));
      var destProbe := Sync.RcloneCommand(cfg, Sync.SizeArgs(Sync.S3Destination(s), false));
      var (sourceFiles, _) := Sync.SizeFromOutcome(respond(h + probes, sourceProbe), codecs.loads);
      var (destFiles, _) := Sync.SizeFromOutcome(respond(h + probes + [sourceProbe], destProbe), codecs.loads);
      assert conn.Keys == {"gdrive", "s3"};
      HealthRun(Health(HealthStatus(conn), conn, s.gdriveFolder, sourceFiles, s.s3Bucket, destFiles),
                probes + [sourceProbe, destProbe])
  }

  /** The health check is healthy exactly when Google Drive lists cleanly and S3 answers at all. */
  lemma HealthyIffRemotesAnswer(s: Config.Settings, codecs: Codecs, respond: Sync.Oracle, h: seq<Sync.Command>)
    requires Config.SetupRcloneConfig(s, codecs).Success?
    ensures var cfg := Some(Config.SetupRcloneConfig(s, codecs).value.configPath);
      var probes := Sync.ConnectionCommands(s, cfg);
      var g := respond(h, probes[0]);
      var s3 := respond(h + [probes[0]], probes[1]);
      HealthCheckRun(s, codecs, respond, h).report.Status() == "healthy" <==> g.Ran? && g.returncode == 0 && s3.Ran?
  {
    var cfg := Some(Config.SetupRcloneConfig(s, codecs).value.configPath);
    var probes := Sync.ConnectionCommands(s, cfg);
    Sync.ReplyAt(respond, h, probes, 0);
    Sync.ReplyAt(respond, h, probes, 1);
    assert h + probes[..0] == h;
    assert probes[..1] == [probes[0]];
  }

  /** What a health report holds after a successful setup: each connection's verdict from its own
      listing, and the file counts of the two size probes that follow the listings. */
  lemma HealthReportOfAnswers(s: Config.Settings, codecs: Codecs, respond: Sync.Oracle, h: seq<Sync.Command>)
    requires Config.SetupRcloneConfig(s, codecs).Success?
    ensures var cfg := Some(Config.SetupRcloneConfig(s, codecs).value.configPath);
      var probes := Sync.ConnectionCommands(s, cfg);
      var g, s3 := respond(h, probes[0]), respond(h + [probes[0]], probes[1]);
      var sourceProbe := Sync.RcloneCommand(cfg, Sync.SizeArgs(Sync.GdriveSource(s), true));
      var destProbe := Sync.RcloneCommand(cfg, Sync.SizeArgs(Sync.S3Destination(s), false));
      var run := HealthCheckRun(s, codecs, respond, h);
      && run.report.Health?
      && run.report.connections == map["gdrive" := g.Ran? && g.returncode == 0, "s3" := s3.Ran?]
      && run.report.sourceFiles == Sync.SizeFromOutcome(respond(h + probes, sourceProbe), codecs.loads).0
      && run.report.destinationFiles == Sync.SizeFromOutcome(respond(h + probes + [sourceProbe], destProbe), codecs.loads).0
      && run.issued == probes + [sourceProbe, destProbe]
  {
    var cfg := Some(Config.SetupRcloneConfig(s, codecs).value.configPath);
    var probes := Sync.ConnectionCommands(s, cfg);
    var g, s3 := respond(h, probes[0]), respond(h + [probes[0]], probes[1]);
    Sync.ReplyAt(respond, h, probes, 0);
    Sync.ReplyAt(respond, h, probes, 1);
    assert h + probes[..0] == h;
    assert probes[..1] == [probes[0]];
    var rs := Sync.Replies(respond, h, probes);
    var conn := Sync.Connections(s, cfg, rs[0], rs[1]);
    assert conn == map["gdrive" := g.Ran? && g.returncode == 0, "s3" := s3.Ran?];
  }

  /** `health_check`: it never raises; its report and rclone calls are those of `HealthCheckRun`. */
  method HealthCheck(service: Sync.SyncService) returns (report: HealthReport)
    modifies service, service.rclone
    ensures var run := HealthCheckRun(service.settings, service.codecs, service.rclone.respond, old(service.rclone.calls));
      report == run.report && service.rclone.calls == old(service.rclone.calls) + run.issued
    ensures Config.SetupRcloneConfig(service.settings, service.codecs).Success? ==>
      service.configPath == Some(Config.SetupRcloneConfig(service.settings, service.codecs).value.configPath)
    ensures Config.SetupRcloneConfig(service.settings, service.codecs).Failure? ==>
      service.configPath == old(service.configPath)
  {
    var setup := service.Setup();
    if setup.Failure? {
      return HealthError(setup.error.Message());
    }
    var connections := service.TestConnections();
    var sourceFiles, sourceSize := service.GetRemoteSize(Sync.GdriveSource(service.settings), true);
    var destFiles, destSize := service.GetRemoteSize(Sync.S3Destination(service.settings), false);
    report := Health(HealthStatus(connections), connections, service.settings.gdriveFolder, sourceFiles,
                     service.settings.s3Bucket, destFiles);
  }
}
