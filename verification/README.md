# gdrive-s3-sync, modelled in Dafny

gdrive-s3-sync mirrors a Google Drive folder into an S3 bucket by driving the `rclone` command-line
tool. A Celery worker runs the mirror on a cron schedule or on demand, and a small HTTP service
triggers runs and reports on them. This project models the decision layer around `rclone` and
proves what it promises. rclone itself becomes an oracle: a function from the command lines issued
so far and the next command line to what that run came to (it ran and exited with a code,
standard output and standard error, or the call raised).

Files:

- `base.dfy`
  - `Wrappers`: Option and Result, the shapes that Python's `None` and raised exceptions take here.
  - `Decimal`: `str()` of an integer and its inverse.
  - `PyLib`: JSON values, plus `json.loads` and base64 decoding as abstract function values.
- `config.dfy` (`Config`):
  - the worker's settings;
  - `get_service_account_dict` with its base64-then-raw fallback;
  - `setup_rclone_config`: the credential gate and the exact configuration text.
  - A renderer/reader pair for INI sections proves which value the text carries for each key,
    read by a plain `key = value` reader of the model's own (not rclone's parser).
- `cron.dfy` (`Cron`): `parse_cron_schedule`, with Python's `strip()` and `split()` on whitespace.
- `sync.dfy` (`Sync`):
  - the rclone oracle (`Rclone`);
  - the pure specification of a sync run: the command lines it issues (`SyncCommands`) and the result it reports for any answers to them (`SyncReport`);
  - the `SyncService` class, whose methods are proved against that specification.
- `tasks.dfy` (`Tasks`):
  - the `sync_gdrive_to_s3` task: setup, the connection gate, progress statuses, the sync;
  - the `health_check` task. Each is specified by a pure run function and implemented by a method.

A run's `success` is the transfer's exit status alone (shared/sync.py:165); `SyncResult` carries
nothing else that could veto it (shared/sync.py:15-27).

## Model

| member | source | states |
|---|---|---|
| Sync.ModeOf | shared/sync.py:123 | dry run wins over force-full; force-full only without dry run; incremental exactly when neither flag is set |
| Sync.QueuedModeLabel | api/main.py:74 | the label the HTTP trigger computes on its own is always the label of the mode the run reports |
| Sync.ModeLabelInjective | shared/sync.py:123 | the three mode labels are distinct, so a reported label determines the mode |
| Sync.GdriveSource | shared/sync.py:69-70 | the source is the `gdrive:` remote, the configured folder whole, and a trailing slash |
| Sync.S3Destination | shared/sync.py:72-73 | the destination is the `s3:` remote followed by the configured bucket whole |
| Sync.RemotesDistinct | shared/sync.py:69-73 | source and destination differ; a size probe of the destination never carries the shared-drive flag, and one of the source carries it exactly when asked |
| Sync.SizeArgs | shared/sync.py:97-100 | `size <path> --json`, plus `--drive-shared-with-me` as a fourth argument exactly when shared access is asked for and the path starts with `gdrive:` |
| Sync.TransferArgs | shared/sync.py:138-157 | the transfer starts `sync <source> <destination>` and sends the same fifteen base arguments in both modes; `--dry-run` is present, and then last, exactly in a dry run; otherwise `-v` ends the list |
| Sync.DryRunOnlyAddsFlag | shared/sync.py:138-157 | a dry run's arguments are the real run's with `--dry-run` appended |
| Sync.CalledProcessErrorText | shared/sync.py:63-67 | the text of a failed checked call ends with the exit code (or the signal number) and a full stop |
| Sync.CalledProcessErrorTextNamesCode | shared/sync.py:63-67 | two different non-negative exit codes of one command line give different error texts |
| Sync.Checked | shared/sync.py:63-67 | with `check=True` a non-zero exit turns into a raise and a clean exit passes through; a raise always passes through unchanged |
| Sync.Connections | shared/sync.py:79-95 | the map has exactly the keys gdrive and s3; gdrive is true iff its listing exits 0 (it runs checked); s3 is true iff its listing did not raise, whatever its exit code |
| Sync.SizeFromOutcome | shared/sync.py:97-110 | never fails; the counts come from the parsed report only after exit 0 and a successful parse, and are (0, 0) in every other case |
| Sync.SizeMissingKeysAreZero | shared/sync.py:106 | a parsed report without `count` and `bytes` yields zero for each |
| Decimal.IntTextRoundTrip | shared/sync.py:167 | the exit code written into `Sync failed with exit code N` reads back as the same integer |
| Sync.ErrorMessagesDistinct | shared/sync.py:136-169 | purge errors, failed-transfer errors and transfer exceptions cannot be mistaken for one another, and the exit code can be parsed back out of a failed-transfer message |
| Sync.SyncCommands | shared/sync.py:130-157 | a run issues four command lines in a force-full real run and three otherwise |
| Sync.SyncCommandsShape | shared/sync.py:130-171 | every command line starts `rclone --config=<path>`; the source probe (shared) comes first; the one `delete` is issued exactly in a force-full real run, second, right before the transfer; the destination probe always comes last |
| Sync.PurgeErrors | shared/sync.py:132-136 | a purge adds no error iff it exits 0, and otherwise exactly one: `Purge failed: ` followed by the raised text, or by the checked-call error naming the non-zero exit code |
| Sync.SyncReport | shared/sync.py:159-184 | the mode follows the flags, and success is decided by the transfer's answer alone |
| Sync.SyncReportProperties | shared/sync.py:159-184 | success iff the transfer ran and exited 0; errors are at most one purge error followed by exactly one transfer error when the transfer failed; the log is stdout then stderr, empty after a raise; the counts come from the first and the last probe; the mode is `ModeOf` |
| Sync.SyncReportOfLog | shared/sync.py:130-184 | the report of the replayed answers is assembled from the answer to each step, each answer given after the commands before it |
| Sync.PurgeFailureDoesNotDecideSuccess | shared/sync.py:132-169 | whatever the purge answers, the run's success, log, file counts, sizes and transfer error are the same |
| Sync.Rclone.Run | shared/sync.py:64 | the command line is logged and answered by the oracle, given every earlier command line |
| Sync.SyncService.constructor | shared/sync.py:50-52 | a new service has no config path yet |
| Sync.SyncService.RunRclone | shared/sync.py:54-67 | issues exactly `rclone --config=<path> <args>` and returns the answer as `Checked` interprets it |
| Sync.SyncService.Setup | shared/sync.py:75-77 | on success the service's config path becomes the path setup returned; a setup error is passed on and leaves the path unchanged |
| Sync.SyncService.TestConnections | shared/sync.py:79-95 | issues both listings, gdrive first, even when gdrive fails, and returns `Connections` of the two answers |
| Sync.SyncService.GetRemoteSize | shared/sync.py:97-110 | issues the one size command and returns `SizeFromOutcome` of its answer |
| Sync.SyncService.PurgeDestination | shared/sync.py:112-114 | issues the one delete command, checked; returns the raised text when it failed |
| Sync.SyncService.Sync | shared/sync.py:116-184 | setup runs only when no config path is set and is the only way the call can fail; otherwise the issued commands are exactly `SyncCommands` and the result is `SyncReport` of their answers |
| Sync.SyncService.SyncConfigured | shared/sync.py:130-184 | after setup, the issued commands are `SyncCommands` and the result is `SyncReport` of the answers |
| Sync.SyncService.ProbeAndPurge | shared/sync.py:130-136 | the source probe, then the purge only in a force-full real run; a purge failure is recorded, not raised |
| Sync.SyncService.TransferAndProbe | shared/sync.py:138-171 | the transfer with `TransferArgs`, then the destination probe whatever the transfer did |
| Sync.SyncService.RecordTransfer | shared/sync.py:159-169 | success iff the transfer ran with exit 0; one error naming the exit code or the raised text; the log is stdout then stderr |
| Config.GetServiceAccountDict | shared/config.py:40-55 | an absent or empty setting is `not configured`; the base64 reading wins whenever it succeeds; the raw text is read only when the base64 reading fails; it fails iff both readings fail, with the raw parse error in the message |
| Config.SetupRcloneConfig | shared/config.py:57-81 | the S3 credential gate comes before the service account is read; otherwise it fails exactly when the service account does, with the same error; on success it returns `rclone_config_path`, the decoded service account and the thirteen lines joined by newlines |
| Config.ConfigLines | shared/config.py:64-78 | thirteen lines: `[gdrive]` first, the only empty line fifth, `[s3]` sixth |
| Config.SplitJoinLines | shared/config.py:80 | splitting the newline-joined lines at newlines gives the lines back when none holds a newline |
| Config.ConfigTextShape | shared/config.py:64-80 | the text is the thirteen lines with single newlines between them and none at the end; `[gdrive]` is first, the only empty line is fifth and `[s3]` is sixth |
| Config.ConfigTextLines | shared/config.py:64-80 | the written text splits back into exactly the thirteen configuration lines |
| Config.IniValueRender | shared/config.py:64-78 | looking a key up in rendered sections finds its first value in the first section of that name that holds the key |
| Config.ConfigLinesRendered | shared/config.py:64-78 | the thirteen lines are the gdrive and s3 sections rendered one after the other, separated by an empty line |
| Config.ConfigReadBack | shared/config.py:64-80 | looking a key up in the written text is looking it up in the two sections |
| Config.GdriveRemoteValues | shared/config.py:65-68 | the text carries, under `[gdrive]`, type drive, scope drive.readonly and the service-account path |
| Config.GdriveEntryReadBack | shared/config.py:65-68 | each entry of the gdrive section reads back from the written text with its own value |
| Config.S3EntryReadBack | shared/config.py:70-77 | each entry of the s3 section reads back from the written text with its own value |
| Config.S3RemoteValues | shared/config.py:70-77 | the text carries, under `[s3]`, type s3, provider Other, acl private, and the access key, secret, endpoint and region verbatim |
| Config.DefaultsRendered | shared/config.py:28-38 | with the defaults, setup returns `/tmp/rclone.conf` and the text carries region `us-east-1` and service-account file `/tmp/service_account.json` |
| Cron.Split | worker/celery_app.py:34 | every field `split()` yields is non-empty and free of whitespace |
| Cron.Strip | worker/celery_app.py:34 | the stripped text neither starts nor ends with whitespace, and it is the input with only whitespace cut from its two ends |
| Cron.StripPadded | worker/celery_app.py:34 | stripping a stripped text padded with any whitespace on either side gives that text back |
| Cron.SplitStrip | worker/celery_app.py:34 | stripping before splitting changes nothing |
| Cron.SplitInterleave | worker/celery_app.py:34 | whitespace-free fields joined by any non-empty whitespace runs split back into the same fields |
| Cron.ParseCronSchedule | worker/celery_app.py:33-45 | accepted iff the text splits into exactly five fields; the fields go to minute, hour, day of month, month and day of week in order; a rejection's text is `Invalid cron expression: ` followed by the expression as given |
| Cron.ParseCronText | worker/celery_app.py:33-45 | five whitespace-free fields, with any whitespace around and between them, parse back to the same schedule |
| Cron.DefaultScheduleAccepted | shared/config.py:31 | the schedule of defaulted settings, `0 6,18 * * *`, is accepted with the five field strings `0`, `6,18`, `*`, `*`, `*` |
| Cron.FourFieldsRejected | worker/celery_app.py:35-36 | a four-field expression is rejected with the error naming it |
| Tasks.CeleryTask.UpdateState | worker/tasks.py:19 | each update appends its status to what the task has published |
| Tasks.SyncTaskRun | worker/tasks.py:14-45 | statuses are a non-empty prefix of initializing, testing_connections, syncing; a setup error is raised before any rclone call; the sync runs and its `to_dict()` is returned, success or not, exactly when both remotes answered, and then the sync's command lines follow the two listings; otherwise the error names an unreachable remote and only the two listings were issued; the raised text is setup's message or the unreachable remote's |
| Tasks.ConnectedRun | worker/tasks.py:24-41 | after setup, testing_connections is announced and syncing only when both remotes answered, which is exactly when it succeeds, returning `to_dict()` of the sync's report with the sync's command lines after the listings; a failure names an unreachable remote after only the two listings |
| Tasks.SummaryOfSync | shared/sync.py:33-45 | the returned dictionary's success is the transfer's clean exit, its mode the mode's name, its file counts those of the two probes, and its errors the run's errors |
| Tasks.UnreachableRemoteNamed | worker/tasks.py:25-30 | an unclean gdrive listing raises `Failed to connect to Google Drive` whatever S3 did; a clean gdrive listing with a raising S3 listing raises `Failed to connect to S3`; otherwise the sync runs |
| Tasks.TaskDeletesOnlyInForcedRealRun | worker/tasks.py:27-33 | the task issues a delete only in a force-full real run that passed both checks, and then only once, right after the source probe |
| Tasks.SyncGdriveToS3 | worker/tasks.py:14-45 | the statuses published, the result returned or raised and the rclone calls made are those of `SyncTaskRun`; a successful setup leaves its path on the service, a failed one leaves the service's path as it was |
| Tasks.CheckAndSync | worker/tasks.py:24-41 | after setup, the connection gate and the sync behave as `ConnectedRun` says, and the service's config path is unchanged |
| Tasks.SyncStage | worker/tasks.py:32-41 | announces syncing, issues the sync's command lines and returns `to_dict()` of the report of their answers |
| Tasks.HealthStatus | worker/tasks.py:63 | `healthy` iff every connection value is true, `unhealthy` otherwise |
| Tasks.HealthCheckRun | worker/tasks.py:48-71 | it reports an error, rather than raising, exactly when setup fails, and then issues no rclone call; otherwise it reports the folder, the bucket, both connections, and healthy iff both remotes answered |
| Tasks.HealthyIffRemotesAnswer | worker/tasks.py:54-63 | healthy exactly when the gdrive listing exits 0 and the S3 listing does not raise |
| Tasks.HealthReportOfAnswers | worker/tasks.py:52-68 | after setup, the report's connections are gdrive's clean exit and s3's answer, its file counts those of the two size probes that follow the listings |
| Tasks.HealthCheck | worker/tasks.py:48-71 | never raises; its report and rclone calls are those of `HealthCheckRun`; setup's path is left on the service when it succeeds, and the path is unchanged when it fails |

## Left out

- Running rclone is left out. `subprocess.run` is the `Rclone` oracle, whose answers are arbitrary, and nothing touches the network or the clouds.
- `json.loads` and `base64.b64decode(...).decode("utf-8")` are abstract functions. Their parsing is left out.
- Sync.SizeFromOutcome: a `count` or `bytes` member that is not an integer (a float, a string, `null`) counts as unreadable and gives (0, 0). Python returns that value unchanged, with consequences downstream. A string or `null` `bytes` makes `to_dict` raise `TypeError` when it divides the size (shared/sync.py:41, 43), so `sync_gdrive_to_s3` raises where the model returns a summary with zeros. A non-integer `count` is passed into the summary as it is.
- Sync.CalledProcessErrorText:
  - it renders list items in single quotes with no escaping;
  - a negative exit code always gets the "died with unknown signal" text, whereas Python names known signals.
- Cron.ParseCronSchedule: `crontab(...)`'s own check of each field (a minute of `99`, say, raises `ValueError`) is not modelled; acceptance here is the five-field split check only.
- The two timestamps are left out, as are `duration_seconds`, the two `_size_mb` keys of `to_dict` (the summary keeps no sizes), and the health check's timestamp. All of them read the wall clock or need floating point.
- rclone's own reading of its configuration file is left out. `Config.IniValue` is a plain reader: it takes the first `key = value` line of a section and does no trimming and no quote or comment handling. The read-back lemmas state what the written text carries under that reader.
- Writing the service-account file and the configuration file is left out. The model produces the values written.
- Paths are plain strings. `pathlib.Path` normalisation of the configured paths is not modelled.
- Setup's only failures are the configuration errors. A failed file write (`OSError`) is not modelled.
- Logging is left out.
- The module-level `sync_service` and `settings` singletons are not modelled. The tasks take the service as a parameter instead.
- Also left out: the Celery application, the beat schedule table and `crontab` semantics, the Redis URL, pydantic loading of the settings, and the HTTP service apart from its mode label.
