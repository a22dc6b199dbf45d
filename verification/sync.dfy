/**
 * The sync orchestration of `SyncService`: it probes the source, optionally purges the
 * destination, runs one `rclone sync`, probes the destination and reports a `SyncResult`.
 * rclone itself is an oracle: a function from the commands issued so far and the next
 * command to what that run came to.
 */
module Sync {
  import opened Wrappers
  import opened PyLib
  import opened Decimal
  import Config

  /** One command line: the program name followed by its arguments. */
  type Command = seq<string>

  /** What one `subprocess.run` came to: the process ran and exited, or the call raised. */
  datatype Outcome = Ran(returncode: int, stdout: string, stderr: string) | Raised(message: string)

  type Oracle = (seq<Command>, Command) -> Outcome

  /** The external rclone tool. Every command line it is given is logged, and its answer may
      depend on every command line it was given before. */
  class Rclone {
    const respond: Oracle
    var calls: seq<Command>

    constructor (respond: Oracle)
      ensures this.respond == respond && calls == []
    {
      this.respond := respond;
      calls := [];
    }

    method Run(cmd: Command) returns (o: Outcome)
      modifies this
      ensures calls == old(calls) + [cmd]
      ensures o == respond(old(calls), cmd)
    {
      o := respond(calls, cmd);
      calls := calls + [cmd];
    }
  }

  /** The answers the oracle gives to `cmds`, issued one after another after `history`. */
  function Replies(respond: Oracle, history: seq<Command>, cmds: seq<Command>): (rs: seq<Outcome>)
    ensures |rs| == |cmds|
    decreases |cmds|
  {
    if cmds == [] then [] else [respond(history, cmds[0])] + Replies(respond, history + [cmds[0]], cmds[1..])
  }

  /** The i-th answer is the oracle's answer to the i-th command, given everything issued before it. */
  lemma {:induction false} ReplyAt(respond: Oracle, history: seq<Command>, cmds: seq<Command>, i: nat)
    requires i < |cmds|
    ensures Replies(respond, history, cmds)[i] == respond(history + cmds[..i], cmds[i])
    decreases i
  {
    if i == 0 {
      assert history + cmds[..0] == history;
    } else {
      ReplyAt(respond, history + [cmds[0]], cmds[1..], i - 1);
      assert history + [cmds[0]] + cmds[1..][..i - 1] == history + cmds[..i];
    }
  }

  // ----- mode and result -----

  datatype Mode = Incremental | ForceFull | DryRun {
    /** The mode's name in results and messages. */
    function Label(): string {
      match this
      case Incremental => "incremental"
      case ForceFull => "force_full"
      case DryRun => "dry_run"
    }
  }

  /** The mode a run with these flags reports; dry run takes precedence over force-full. */
  function ModeOf(dryRun: bool, forceFull: bool): (m: Mode)
    ensures m == DryRun <==> dryRun
    ensures m == ForceFull <==> forceFull && !dryRun
    ensures m == Incremental <==> !dryRun && !forceFull
  {
    if dryRun then DryRun else if forceFull then ForceFull else Incremental
  }

  /** The mode label the HTTP trigger puts in its "Sync queued in ... mode" reply, computed there
      on its own from the same two flags; it always names the mode the run reports. */
  function QueuedModeLabel(dryRun: bool, forceFull: bool): (name: string)
    ensures name == ModeOf(dryRun, forceFull).Label()
  {
    if dryRun then "dry_run" else if forceFull then "force_full" else "incremental"
  }

  /** Different modes have different labels, so a result's label names its mode. */
  lemma ModeLabelInjective(m: Mode, m': Mode)
    ensures m.Label() == m'.Label() ==> m == m'
  {
    if m.Label() == m'.Label() {
      assert m.Label()[0] == m'.Label()[0];
    }
  }

  /** `SyncResult` without its two timestamps. */
  datatype SyncResult = SyncResult(
    success: bool,
    mode: Mode,
    sourceFiles: int,
    sourceSizeBytes: int,
    destinationFiles: int,
    destinationSizeBytes: int,
    errors: seq<string>,
    logOutput: string)

  // ----- command lines -----

  /** `f"--config={self.config_path}"`; an unset path renders as `None`. */
  function ConfigFlag(configPath: Option<string>): string {
    "--config=" + (if configPath.Some? then configPath.value else "None")
  }

  /** `_run_rclone`'s command line: the program, the config flag, then the arguments. */
  function RcloneCommand(configPath: Option<string>, args: seq<string>): Command {
    ["rclone", ConfigFlag(configPath)] + args
  }

  /** `_get_gdrive_source`. */
  function GdriveSource(s: Config.Settings): (src: string)
    // the gdrive remote, then the folder read back whole, then the trailing slash
    ensures |src| == |s.gdriveFolder| + 8 && "gdrive:" <= src
    ensures src[7..|src| - 1] == s.gdriveFolder && src[|src| - 1] == '/'
  {
    "gdrive:" + s.gdriveFolder + "/"
  }

  /** `_get_s3_destination`. */
  function S3Destination(s: Config.Settings): (dest: string)
    // the s3 remote, then the bucket read back whole
    ensures |dest| == |s.s3Bucket| + 3 && "s3:" <= dest && dest[3..] == s.s3Bucket
  {
    "s3:" + s.s3Bucket
  }

  /** The source and the destination name different remotes, so a size probe of the destination
      never gets the shared-drive flag, and the probe of the source always does when asked. */
  lemma RemotesDistinct(s: Config.Settings, shared: bool)
    ensures GdriveSource(s) != S3Destination(s)
    ensures |SizeArgs(S3Destination(s), shared)| == 3
    ensures |SizeArgs(GdriveSource(s), shared)| == (if shared then 4 else 3)
  {
    var src, dest := GdriveSource(s), S3Destination(s);
    assert src[1] == 'd' && dest[1] == '3';
  }

  function GdriveListArgs(s: Config.Settings): seq<string> {
    ["lsf", GdriveSource(s), "--max-depth", "1", "--drive-shared-with-me"]
  }

  function S3ListArgs(s: Config.Settings): seq<string> {
    ["lsf", S3Destination(s), "--max-depth", "1"]
  }

  /** The two listings `test_connections` runs, gdrive first. */
  function ConnectionCommands(s: Config.Settings, configPath: Option<string>): seq<Command> {
    [RcloneCommand(configPath, GdriveListArgs(s)), RcloneCommand(configPath, S3ListArgs(s))]
  }

  /** `get_remote_size`'s arguments: the shared-with-me flag only for a shared gdrive path. */
  function SizeArgs(remotePath: string, driveShared: bool): (args: seq<string>)
    ensures |args| >= 3 && args[..3] == ["size", remotePath, "--json"]
    ensures |args| == 4 <==> driveShared && "gdrive:" <= remotePath
    ensures |args| == 4 ==> args[3] == "--drive-shared-with-me"
    ensures |args| == 3 || |args| == 4
  {
    ["size", remotePath, "--json"] + (if driveShared && "gdrive:" <= remotePath then ["--drive-shared-with-me"] else [])
  }

  /** `purge_destination`'s arguments. */
  function PurgeArgs(s: Config.Settings): seq<string> {
    ["delete", S3Destination(s), "--rmdirs", "-v"]
  }

  /** The transfer's arguments before the mode flag. */
  function TransferBaseArgs(s: Config.Settings): seq<string> {
    [ "sync", GdriveSource(s), S3Destination(s),
      "--drive-shared-with-me", "--update", "--use-server-modtime",
      "--transfers=10", "--checkers=10", "--retries=5", "--low-level-retries=15",
      "--multi-thread-streams=4", "--s3-upload-concurrency=10", "--s3-chunk-size=25M",
      "--stats=30s", "-v" ]
  }

  /** The transfer's arguments: source to destination, `--dry-run` last exactly in a dry run. */
  function TransferArgs(s: Config.Settings, dryRun: bool): (args: seq<string>)
    ensures |args| >= 15 && args[..3] == ["sync", GdriveSource(s), S3Destination(s)]
    // both modes send the same fifteen base arguments
    ensures args[..15] == TransferBaseArgs(s)
    ensures dryRun <==> |args| == 16
    ensures dryRun ==> args[15] == "--dry-run"
    ensures !dryRun ==> args[|args| - 1] == "-v"
    ensures dryRun <==> "--dry-run" in args[3..]
  {
    var base := TransferBaseArgs(s);
    assert "--dry-run" !in base[3..];
    base + (if dryRun then ["--dry-run"] else [])
  }

  /** A dry run sends exactly the real run's arguments with `--dry-run` appended. */
  lemma DryRunOnlyAddsFlag(s: Config.Settings)
    ensures TransferArgs(s, true) == TransferArgs(s, false) + ["--dry-run"]
  {
    var dry, live := TransferArgs(s, true), TransferArgs(s, false);
    assert live == live[..15] && dry == dry[..15] + [dry[15]];
  }

  // ----- interpreting outcomes -----

  /** Python's `repr` of a list of strings without quotes or backslashes in them. */
  function ListRepr(items: seq<string>): string {
    "[" + QuotedItems(items) + "]"
  }

  function QuotedItems(items: seq<string>): string {
    if items == [] then ""
    else if |items| == 1 then "'" + items[0] + "'"
    else "'" + items[0] + "', " + QuotedItems(items[1..])
  }

  /** `str()` of the `CalledProcessError` that `check=True` raises for a non-zero exit. */
  function CalledProcessErrorText(cmd: Command, returncode: int): (text: string)
    // the text ends with the exit code (or the signal number), then a full stop
    ensures var n := IntText(if returncode < 0 then -returncode else returncode);
      |text| > |n| + 1 && text[|text| - |n| - 1..|text| - 1] == n && text[|text| - 1] == '.'
  {
    if returncode < 0 then
      "Command '" + ListRepr(cmd) + "' died with unknown signal " + IntText(-returncode) + "."
    else
      "Command '" + ListRepr(cmd) + "' returned non-zero exit status " + IntText(returncode) + "."
  }

  /** The error text of a failed checked call names its exit code: two different non-negative
      codes for the same command line give two different texts. */
  lemma CalledProcessErrorTextNamesCode(cmd: Command, a: int, b: int)
    requires a >= 0 && b >= 0
    ensures CalledProcessErrorText(cmd, a) == CalledProcessErrorText(cmd, b) ==> a == b
  {
    var ta, tb := CalledProcessErrorText(cmd, a), CalledProcessErrorText(cmd, b);
    if ta == tb {
      var pre := "Command '" + ListRepr(cmd) + "' returned non-zero exit status ";
      assert ta == pre + IntText(a) + "." && tb == pre + IntText(b) + ".";
      assert ta[|pre|..|ta| - 1] == IntText(a);
      assert tb[|pre|..|tb| - 1] == IntText(b);
      IntTextInjective(a, b);
    }
  }

  /** What `_run_rclone` hands back: with `check`, a non-zero exit becomes a raise. */
  function Checked(cmd: Command, o: Outcome, check: bool): (r: Outcome)
    ensures r.Ran? ==> r == o && (check ==> r.returncode == 0)
    ensures r.Raised? <==> o.Raised? || (check && o.returncode != 0)
    ensures o.Raised? ==> r == o
  {
    if check && o.Ran? && o.returncode != 0 then Raised(CalledProcessErrorText(cmd, o.returncode)) else o
  }

  /** The connection map `test_connections` builds from the answers to its two listings. */
  function Connections(s: Config.Settings, configPath: Option<string>, gdrive: Outcome, s3: Outcome): (c: map<string, bool>)
    ensures c.Keys == {"gdrive", "s3"}
    // gdrive's listing runs with check=True: only a clean exit counts
    ensures c["gdrive"] <==> gdrive.Ran? && gdrive.returncode == 0
    // s3's listing runs with check=False: any exit counts, only a raise does not
    ensures c["s3"] <==> s3.Ran?
  {
    var cmds := ConnectionCommands(s, configPath);
    map["gdrive" := Checked(cmds[0], gdrive, true).Ran?, "s3" := Checked(cmds[1], s3, false).Ran?]
  }

  /** A member of a size report: missing is 0 (`data.get(key, 0)`), a non-number unreadable. */
  function SizeMember(members: map<string, Json>, key: string): Option<int> {
    if key !in members then Some(0)
    else match members[key]
      case Number(n) => Some(n)
      case _ => None
  }

  /** The (count, bytes) pair of a parsed size report, if it is an object of numbers. */
  function SizeReport(v: Json): Option<(int, int)> {
    match v
    case Object(members) =>
      (match (SizeMember(members, "count"), SizeMember(members, "bytes"))
       case (Some(count), Some(bytes)) => Some((count, bytes))
       case _ => None)
    case _ => None
  }

  /** `get_remote_size`'s verdict on one run of `rclone size --json`: it never raises. */
  function SizeFromOutcome(o: Outcome, loads: string -> Result<Json, string>): (counts: (int, int))
    // anything but a clean exit with a readable report degrades to (0, 0)
    ensures !(o.Ran? && o.returncode == 0 && loads(o.stdout).Success? && SizeReport(loads(o.stdout).value).Some?)
      ==> counts == (0, 0)
    ensures o.Ran? && o.returncode == 0 && loads(o.stdout).Success? && SizeReport(loads(o.stdout).value).Some?
      ==> counts == SizeReport(loads(o.stdout).value).value
  {
    if o.Ran? && o.returncode == 0 then
      match loads(o.stdout)
      case Success(v) => (match SizeReport(v) case Some(c) => c case None => (0, 0))
      case Failure(_) => (0, 0)
    else
      (0, 0)
  }

  /** A report that parses to an object without `count` and `bytes` reads as zero of each. */
  lemma SizeMissingKeysAreZero(o: Outcome, loads: string -> Result<Json, string>, members: map<string, Json>)
    requires o.Ran? && o.returncode == 0 && loads(o.stdout) == Success(Object(members))
    requires "count" !in members && "bytes" !in members
    ensures SizeFromOutcome(o, loads) == (0, 0)
  {
  }

  // ----- the errors a run records -----

  function PurgeFailedMessage(e: string): string {
    "Purge failed: " + e
  }

  function SyncFailedMessage(returncode: int): string {
    "Sync failed with exit code " + IntText(returncode)
  }

  function SyncExceptionMessage(e: string): string {
    "Sync exception: " + e
  }

  predicate IsPurgeError(e: string) {
    "Purge failed: " <= e
  }

  predicate IsSyncError(e: string) {
    "Sync failed with exit code " <= e || "Sync exception: " <= e
  }

  /** The three kinds of error text cannot be mistaken for one another, and the exit code can be
      read back from a failed transfer's message. */
  lemma ErrorMessagesDistinct(e: string, code: int)
    ensures IsPurgeError(PurgeFailedMessage(e)) && !IsSyncError(PurgeFailedMessage(e))
    ensures IsSyncError(SyncFailedMessage(code)) && !IsPurgeError(SyncFailedMessage(code))
    ensures IsSyncError(SyncExceptionMessage(e)) && !IsPurgeError(SyncExceptionMessage(e))
    ensures SyncFailedMessage(code) != SyncExceptionMessage(e)
    ensures var m := SyncFailedMessage(code); IsIntText(m[27..]) && ParseInt(m[27..]) == code
  {
    PurgeMessageKind(e);
    SyncFailedMessageKind(code);
    SyncExceptionMessageKind(e);
    SyncMessagesDiffer(e, code);
  }

  lemma SyncMessagesDiffer(e: string, code: int)
    ensures SyncFailedMessage(code) != SyncExceptionMessage(e)
  {
    assert SyncFailedMessage(code)[5] == 'f';
    assert SyncExceptionMessage(e)[5] == 'e';
  }

  lemma PurgeMessageKind(e: string)
    ensures IsPurgeError(PurgeFailedMessage(e)) && !IsSyncError(PurgeFailedMessage(e))
  {
    assert PurgeFailedMessage(e)[0] == 'P';
  }

  lemma SyncFailedMessageKind(code: int)
    ensures IsSyncError(SyncFailedMessage(code)) && !IsPurgeError(SyncFailedMessage(code))
    ensures var m := SyncFailedMessage(code); IsIntText(m[27..]) && ParseInt(m[27..]) == code
  {
    var f := SyncFailedMessage(code);
    assert f[0] == 'S';
    assert f[27..] == IntText(code);
    IntTextRoundTrip(code);
  }

  lemma SyncExceptionMessageKind(e: string)
    ensures IsSyncError(SyncExceptionMessage(e)) && !IsPurgeError(SyncExceptionMessage(e))
  {
    assert SyncExceptionMessage(e)[0] == 'S';
  }

  // ----- the specification of one sync run -----

  /** The command lines of the four steps of `sync`, once the config path is `cfg`. */
  function SourceProbeCommand(s: Config.Settings, cfg: string): Command {
    RcloneCommand(Some(cfg), SizeArgs(GdriveSource(s), true))
  }

  function PurgeCommand(s: Config.Settings, cfg: string): Command {
    RcloneCommand(Some(cfg), PurgeArgs(s))
  }

  function TransferCommand(s: Config.Settings, cfg: string, dryRun: bool): Command {
    RcloneCommand(Some(cfg), TransferArgs(s, dryRun))
  }

  function DestProbeCommand(s: Config.Settings, cfg: string): Command {
    RcloneCommand(Some(cfg), SizeArgs(S3Destination(s), false))
  }

  /** The commands before the transfer: the source probe, and the purge when `purging`. */
  function PrepCommands(s: Config.Settings, cfg: string, purging: bool): seq<Command> {
    [SourceProbeCommand(s, cfg)] + (if purging then [PurgeCommand(s, cfg)] else [])
  }

  /** The command lines `sync` issues, in order, once the config path is `cfg`: the source probe,
      the purge in force-full mode, the transfer, and the destination probe. */
  function SyncCommands(s: Config.Settings, cfg: string, dryRun: bool, forceFull: bool): (cmds: seq<Command>)
    // a purge adds a fourth command line only in a force-full real run
    ensures |cmds| == (if forceFull && !dryRun then 4 else 3)
  {
    PrepCommands(s, cfg, forceFull && !dryRun) + [TransferCommand(s, cfg, dryRun), DestProbeCommand(s, cfg)]
  }

  /** The shape of a run's command lines: all go to rclone with the config, the source probe
      first, the destination probe last, and the only delete right before the transfer. */
  lemma SyncCommandsShape(s: Config.Settings, cfg: string, dryRun: bool, forceFull: bool)
    ensures var cmds := SyncCommands(s, cfg, dryRun, forceFull);
      && |cmds| == (if forceFull && !dryRun then 4 else 3)
      && (forall i :: 0 <= i < |cmds| ==> |cmds[i]| > 2 && cmds[i][..2] == ["rclone", "--config=" + cfg])
      && cmds[0][2..] == ["size", GdriveSource(s), "--json", "--drive-shared-with-me"]
      // a purge is issued exactly once, right before the transfer, exactly in a force-full real run
      && (forall i :: 0 <= i < |cmds| ==> (cmds[i][2] == "delete" <==> forceFull && !dryRun && i == 1))
      && (forceFull && !dryRun ==> cmds[1][2..] == PurgeArgs(s))
      && cmds[|cmds| - 2][2..] == TransferArgs(s, dryRun)
      // the destination is probed last, whatever came before
      && cmds[|cmds| - 1][2..] == ["size", S3Destination(s), "--json"]
  {
    assert SizeArgs(GdriveSource(s), true) == ["size", GdriveSource(s), "--json", "--drive-shared-with-me"];
    assert SizeArgs(S3Destination(s), false) == ["size", S3Destination(s), "--json"];
    var cmds := SyncCommands(s, cfg, dryRun, forceFull);
    forall i | 0 <= i < |cmds| ensures |cmds[i]| > 2 && cmds[i][..2] == ["rclone", "--config=" + cfg] {
    }
    assert cmds[0][2] == "size" && cmds[|cmds| - 2][2] == "sync" && cmds[|cmds| - 1][2] == "size";
  }

  /** The text recorded when the purge raised, if it did. */
  function PurgeFailure(cmd: Command, reply: Outcome): Option<string> {
    match Checked(cmd, reply, true)
    case Raised(message) => Some(message)
    case Ran(_, _, _) => None
  }

  /** The error a purge with this answer adds to the run: none, or the raised text behind `Purge failed: `. */
  function PurgeErrors(cmd: Command, reply: Outcome): (errors: seq<string>)
    ensures |errors| == 0 <==> reply.Ran? && reply.returncode == 0
    ensures |errors| <= 1
    ensures reply.Raised? ==> errors == [PurgeFailedMessage(reply.message)]
    ensures reply.Ran? && reply.returncode != 0 ==> errors == [PurgeFailedMessage(CalledProcessErrorText(cmd, reply.returncode))]
  {
    match PurgeFailure(cmd, reply)
    case Some(e) => [PurgeFailedMessage(e)]
    case None => []
  }

  /** The error the transfer's answer adds to the run: its exit code, or what was raised. */
  function TransferErrors(t: Outcome): seq<string> {
    if t.Raised? then [SyncExceptionMessage(t.message)]
    else if t.returncode != 0 then [SyncFailedMessage(t.returncode)]
    else []
  }

  /** The log a run keeps: the transfer's standard output followed by its standard error. */
  function TransferLog(t: Outcome): string {
    if t.Ran? then t.stdout + t.stderr else ""
  }

  /** The result of a sync run whose rclone calls, `SyncCommands`, were answered by `replies`. */
  function SyncReport(s: Config.Settings, cfg: string, dryRun: bool, forceFull: bool, replies: seq<Outcome>,
                      loads: string -> Result<Json, string>): (r: SyncResult)
    requires |replies| == |SyncCommands(s, cfg, dryRun, forceFull)|
    // the mode follows the flags, and only the transfer's answer decides success
    ensures r.mode == ModeOf(dryRun, forceFull)
    ensures r.success <==> replies[|replies| - 2].Ran? && replies[|replies| - 2].returncode == 0
  {
    var (sourceFiles, sourceSize) := SizeFromOutcome(replies[0], loads);
    var purgeErrors := if forceFull && !dryRun then PurgeErrors(PurgeCommand(s, cfg), replies[1]) else [];
    var t := replies[|replies| - 2];
    var (destFiles, destSize) := SizeFromOutcome(replies[|replies| - 1], loads);
    SyncResult(t.Ran? && t.returncode == 0, ModeOf(dryRun, forceFull), sourceFiles, sourceSize, destFiles, destSize,
               purgeErrors + TransferErrors(t), TransferLog(t))
  }

  /** What a run reports, whatever rclone answered: the verdict, the errors in order, the log
      and the counts. */
  lemma SyncReportProperties(s: Config.Settings, cfg: string, dryRun: bool, forceFull: bool, replies: seq<Outcome>,
                             loads: string -> Result<Json, string>)
    requires |replies| == |SyncCommands(s, cfg, dryRun, forceFull)|
    ensures var r := SyncReport(s, cfg, dryRun, forceFull, replies, loads);
      && r.mode == ModeOf(dryRun, forceFull)
      && (r.sourceFiles, r.sourceSizeBytes) == SizeFromOutcome(replies[0], loads)
      && (r.destinationFiles, r.destinationSizeBytes) == SizeFromOutcome(replies[|replies| - 1], loads)
    // success is decided by the transfer's exit code alone
    ensures var r, t := SyncReport(s, cfg, dryRun, forceFull, replies, loads), replies[|replies| - 2];
      r.success <==> t.Ran? && t.returncode == 0
    // at most one purge error, then exactly one transfer error when the transfer failed
    ensures var r := SyncReport(s, cfg, dryRun, forceFull, replies, loads);
      var purgeFailed := forceFull && !dryRun && !(replies[1].Ran? && replies[1].returncode == 0);
      && |r.errors| == (if purgeFailed then 1 else 0) + (if r.success then 0 else 1)
      && (purgeFailed ==> IsPurgeError(r.errors[0]))
      && (!r.success ==> IsSyncError(r.errors[|r.errors| - 1]))
    ensures var r, t := SyncReport(s, cfg, dryRun, forceFull, replies, loads), replies[|replies| - 2];
      && (t.Ran? ==> r.logOutput == t.stdout + t.stderr)
      && (t.Ran? && t.returncode != 0 ==> r.errors[|r.errors| - 1] == SyncFailedMessage(t.returncode))
      && (t.Raised? ==> r.logOutput == "" && r.errors[|r.errors| - 1] == SyncExceptionMessage(t.message))
  {
    var t := replies[|replies| - 2];
    ErrorMessagesDistinct(if t.Raised? then t.message else "", if t.Ran? then t.returncode else 0);
  }

  /** `SyncReport` of the oracle's answers, one step at a time. */
  lemma SyncReportOfLog(respond: Oracle, h: seq<Command>, s: Config.Settings, cfg: string, dryRun: bool, forceFull: bool,
                        loads: string -> Result<Json, string>)
    ensures var prep := PrepCommands(s, cfg, forceFull && !dryRun);
      var probe := respond(h, SourceProbeCommand(s, cfg));
      var t := respond(h + prep, TransferCommand(s, cfg, dryRun));
      var d := respond(h + prep + [TransferCommand(s, cfg, dryRun)], DestProbeCommand(s, cfg));
      SyncReport(s, cfg, dryRun, forceFull, Replies(respond, h, SyncCommands(s, cfg, dryRun, forceFull)), loads)
         == SyncResult(t.Ran? && t.returncode == 0, ModeOf(dryRun, forceFull),
                       SizeFromOutcome(probe, loads).0, SizeFromOutcome(probe, loads).1,
                       SizeFromOutcome(d, loads).0, SizeFromOutcome(d, loads).1,
                       (if forceFull && !dryRun
                        then PurgeErrors(PurgeCommand(s, cfg), respond(h + [SourceProbeCommand(s, cfg)], PurgeCommand(s, cfg)))
                        else [])
                       + TransferErrors(t),
                       TransferLog(t))
  {
    var prep := PrepCommands(s, cfg, forceFull && !dryRun);
    var c2, c3 := TransferCommand(s, cfg, dryRun), DestProbeCommand(s, cfg);
    var cmds := SyncCommands(s, cfg, dryRun, forceFull);
    assert cmds == prep + [c2, c3];
    var n := |cmds|;
    ReplyAt(respond, h, cmds, 0);
    ReplyAt(respond, h, cmds, n - 2);
    ReplyAt(respond, h, cmds, n - 1);
    assert h + cmds[..0] == h;
    assert cmds[..n - 2] == prep;
    assert h + cmds[..n - 2] == h + prep;
    assert h + cmds[..n - 1] == h + prep + [c2];
    if forceFull && !dryRun {
      ReplyAt(respond, h, cmds, 1);
      assert cmds[..1] == [SourceProbeCommand(s, cfg)] && cmds[1] == PurgeCommand(s, cfg);
      var rs := Replies(respond, h, cmds);
      assert rs[1] == respond(h + [SourceProbeCommand(s, cfg)], PurgeCommand(s, cfg));
    }
  }

  /** A failed purge changes neither the verdict nor the transfer: with any other answer to the
      purge, the run's success, log, counts and sizes are the same. */
  lemma PurgeFailureDoesNotDecideSuccess(s: Config.Settings, cfg: string, replies: seq<Outcome>, other: Outcome,
                                         loads: string -> Result<Json, string>)
    requires |replies| == |SyncCommands(s, cfg, false, true)|
    ensures var r, r' := SyncReport(s, cfg, false, true, replies, loads), SyncReport(s, cfg, false, true, replies[1 := other], loads);
      && r.success == r'.success
      && r.logOutput == r'.logOutput
      && r.sourceFiles == r'.sourceFiles && r.destinationFiles == r'.destinationFiles
      && r.sourceSizeBytes == r'.sourceSizeBytes && r.destinationSizeBytes == r'.destinationSizeBytes
      && r.errors[|r.errors| - (if r.success then 0 else 1)..] == r'.errors[|r'.errors| - (if r'.success then 0 else 1)..]
  {
  }

  // ----- the service -----

  /** `SyncService`: the rclone config path it set up, and the calls it makes. */
  class SyncService {
    const settings: Config.Settings
    const codecs: Codecs
    const rclone: Rclone
    var configPath: Option<string>

    constructor (settings: Config.Settings, codecs: Codecs, rclone: Rclone)
      ensures this.settings == settings && this.codecs == codecs && this.rclone == rclone
      ensures configPath == None
    {
      this.settings := settings;
      this.codecs := codecs;
      this.rclone := rclone;
      configPath := None;
    }

    /** `_run_rclone`. */
    method RunRclone(args: seq<string>, check: bool) returns (o: Outcome)
      modifies rclone
      ensures rclone.calls == old(rclone.calls) + [RcloneCommand(configPath, args)]
      ensures o == Checked(RcloneCommand(configPath, args), rclone.respond(old(rclone.calls), RcloneCommand(configPath, args)), check)
    {
      var cmd := RcloneCommand(configPath, args);
      var reply := rclone.Run(cmd);
      if check && reply.Ran? && reply.returncode != 0 {
        o := Raised(CalledProcessErrorText(cmd, reply.returncode));
      } else {
        o := reply;
      }
    }

    /** `setup`: render the configuration and remember its path; a raise leaves the path as it was. */
    method Setup() returns (r: Result<(), Config.ConfigError>)
      modifies this
      ensures r.Success? <==> Config.SetupRcloneConfig(settings, codecs).Success?
      ensures r.Failure? ==> r.error == Config.SetupRcloneConfig(settings, codecs).error && configPath == old(configPath)
      ensures r.Success? ==> configPath == Some(Config.SetupRcloneConfig(settings, codecs).value.configPath)
    {
      match Config.SetupRcloneConfig(settings, codecs)
      case Failure(e) =>
        r := Failure(e);
      case Success(setup) =>
        configPath := Some(setup.configPath);
        r := Success(());
    }

    /** `test_connections`: both remotes are listed, each on its own. */
    method TestConnections() returns (results: map<string, bool>)
      modifies rclone
      ensures rclone.calls == old(rclone.calls) + ConnectionCommands(settings, configPath)
      ensures var rs := Replies(rclone.respond, old(rclone.calls), ConnectionCommands(settings, configPath));
        results == Connections(settings, configPath, rs[0], rs[1])
    {
      ghost var cmds := ConnectionCommands(settings, configPath);
      ghost var h := rclone.calls;
      results := map["gdrive" := false, "s3" := false];
      var gdrive := RunRclone(GdriveListArgs(settings), true);
      if gdrive.Ran? {
        results := results["gdrive" := true];
      }
      var s3 := RunRclone(S3ListArgs(settings), false);
      if s3.Ran? {
        results := results["s3" := true];
      }
      assert h + cmds[..1] == h + [cmds[0]];
      ReplyAt(rclone.respond, h, cmds, 0);
      ReplyAt(rclone.respond, h, cmds, 1);
    }

    /** `get_remote_size`. */
    method GetRemoteSize(remotePath: string, driveShared: bool) returns (count: int, bytes: int)
      modifies rclone
      ensures rclone.calls == old(rclone.calls) + [RcloneCommand(configPath, SizeArgs(remotePath, driveShared))]
      ensures (count, bytes) == SizeFromOutcome(
        rclone.respond(old(rclone.calls), RcloneCommand(configPath, SizeArgs(remotePath, driveShared))), codecs.loads)
    {
      var args := ["size", remotePath, "--json"];
      if driveShared && "gdrive:" <= remotePath {
        args := args + ["--drive-shared-with-me"];
      }
      assert args == SizeArgs(remotePath, driveShared);
      var result := RunRclone(args, false);
      count, bytes := 0, 0;
      if result.Ran? && result.returncode == 0 {
        var data := codecs.loads(result.stdout);
        if data.Success? && SizeReport(data.value).Some? {
          count, bytes := SizeReport(data.value).value.0, SizeReport(data.value).value.1;
        }
      }
    }

    /** `purge_destination`: `None` when the delete succeeded, the raised text otherwise. */
    method PurgeDestination() returns (failure: Option<string>)
      modifies rclone
      ensures rclone.calls == old(rclone.calls) + [RcloneCommand(configPath, PurgeArgs(settings))]
      ensures failure == PurgeFailure(RcloneCommand(configPath, PurgeArgs(settings)),
                                      rclone.respond(old(rclone.calls), RcloneCommand(configPath, PurgeArgs(settings))))
    {
      var o := RunRclone(PurgeArgs(settings), true);
      failure := if o.Raised? then Some(o.message) else None;
    }

    /**
     * `sync`. Setup runs only when no config path is set yet, and is the only thing that can make
     * the run raise; after it, the run issues `SyncCommands` and reports `SyncReport` of the answers.
     */
    method Sync(dryRun: bool, forceFull: bool) returns (r: Result<SyncResult, Config.ConfigError>)
      modifies this, rclone
      ensures old(configPath).Some? ==> configPath == old(configPath)
      ensures r.Failure? <==> old(configPath).None? && Config.SetupRcloneConfig(settings, codecs).Failure?
      ensures r.Failure? ==> (r.error == Config.SetupRcloneConfig(settings, codecs).error
        && rclone.calls == old(rclone.calls) && configPath == old(configPath))
      ensures r.Success? ==> old(configPath).None? ==> configPath == Some(Config.SetupRcloneConfig(settings, codecs).value.configPath)
      ensures r.Success? ==> (configPath.Some?
        && rclone.calls == old(rclone.calls) + SyncCommands(settings, configPath.value, dryRun, forceFull)
        && r.value == SyncReport(settings, configPath.value, dryRun, forceFull,
             Replies(rclone.respond, old(rclone.calls), SyncCommands(settings, configPath.value, dryRun, forceFull)),
             codecs.loads))
    {
      if configPath.None? {
        var setup := Setup();
        if setup.Failure? {
          return Failure(setup.error);
        }
      }
      var result := SyncConfigured(dryRun, forceFull);
      r := Success(result);
    }

    /** The part of `sync` after setup: the four rclone steps and the result they add up to. */
    method SyncConfigured(dryRun: bool, forceFull: bool) returns (r: SyncResult)
      requires configPath.Some?
      modifies rclone
      ensures rclone.calls == old(rclone.calls) + SyncCommands(settings, configPath.value, dryRun, forceFull)
      ensures r == SyncReport(settings, configPath.value, dryRun, forceFull,
                              Replies(rclone.respond, old(rclone.calls), SyncCommands(settings, configPath.value, dryRun, forceFull)),
                              codecs.loads)
    {
      ghost var h := rclone.calls;
      var mode := ModeOf(dryRun, forceFull);
      var sourceFiles, sourceSize, errors := ProbeAndPurge(dryRun, forceFull);
      var success, transferErrors, logOutput, destFiles, destSize := TransferAndProbe(dryRun);
      r := SyncResult(success, mode, sourceFiles, sourceSize, destFiles, destSize, errors + transferErrors, logOutput);
      SyncReportOfLog(rclone.respond, h, settings, configPath.value, dryRun, forceFull, codecs.loads);
      assert rclone.calls == h + (PrepCommands(settings, configPath.value, forceFull && !dryRun)
                                  + [TransferCommand(settings, configPath.value, dryRun), DestProbeCommand(settings, configPath.value)]);
    }

    /** The first half of `sync`: the source probe, then the purge in a force-full real run. */
    method ProbeAndPurge(dryRun: bool, forceFull: bool) returns (sourceFiles: int, sourceSize: int, errors: seq<string>)
      requires configPath.Some?
      modifies rclone
      ensures rclone.calls == old(rclone.calls) + PrepCommands(settings, configPath.value, forceFull && !dryRun)
      ensures (sourceFiles, sourceSize) == SizeFromOutcome(rclone.respond(old(rclone.calls), SourceProbeCommand(settings, configPath.value)), codecs.loads)
      ensures errors == if forceFull && !dryRun
        then PurgeErrors(PurgeCommand(settings, configPath.value),
                         rclone.respond(old(rclone.calls) + [SourceProbeCommand(settings, configPath.value)], PurgeCommand(settings, configPath.value)))
        else []
    {
      sourceFiles, sourceSize := GetRemoteSize(GdriveSource(settings), true);
      errors := [];
      if forceFull && !dryRun {
        var failure := PurgeDestination();
        if failure.Some? {
          errors := errors + [PurgeFailedMessage(failure.value)];
        }
      }
    }

    /** The second half of `sync`: the transfer, then the destination probe. */
    method TransferAndProbe(dryRun: bool) returns (success: bool, errors: seq<string>, logOutput: string, destFiles: int, destSize: int)
      requires configPath.Some?
      modifies rclone
      ensures rclone.calls == old(rclone.calls) + [TransferCommand(settings, configPath.value, dryRun), DestProbeCommand(settings, configPath.value)]
      ensures var t := rclone.respond(old(rclone.calls), TransferCommand(settings, configPath.value, dryRun));
        && (success <==> t.Ran? && t.returncode == 0)
        && errors == TransferErrors(t) && logOutput == TransferLog(t)
      ensures (destFiles, destSize) == SizeFromOutcome(
        rclone.respond(old(rclone.calls) + [TransferCommand(settings, configPath.value, dryRun)], DestProbeCommand(settings, configPath.value)),
        codecs.loads)
    {
      var args := TransferBaseArgs(settings);
      if dryRun {
        args := args + ["--dry-run"];
      }
      assert args == TransferArgs(settings, dryRun);
      var result := RunRclone(args, false);
      success, errors, logOutput := RecordTransfer(result);
      destFiles, destSize := GetRemoteSize(S3Destination(settings), false);
    }

    /** How `sync` reads the transfer's outcome: success, the error it records, and the log. */
    static method RecordTransfer(result: Outcome) returns (success: bool, errors: seq<string>, logOutput: string)
      ensures success <==> result.Ran? && result.returncode == 0
      ensures errors == TransferErrors(result) && logOutput == TransferLog(result)
    {
      errors := [];
      logOutput := "";
      success := false;
      if result.Ran? {
        logOutput := result.stdout + result.stderr;
        success := result.returncode == 0;
        if !success {
          errors := errors + [SyncFailedMessage(result.returncode)];
        }
      } else {
        errors := errors + [SyncExceptionMessage(result.message)];
      }
    }
  }
}
