/**
 * The worker's settings and the two things it derives from them: the service-account value
 * (`get_service_account_dict`) and the text of rclone's configuration (`setup_rclone_config`).
 */
module Config {
  import opened Wrappers
  import opened PyLib

  const DefaultRegion: string := "us-east-1"
  const DefaultRcloneConfigPath: string := "/tmp/rclone.conf"
  const DefaultServiceAccountPath: string := "/tmp/service_account.json"
  const DefaultSyncCronSchedule: string := "0 6,18 * * *"

  /** The settings the worker reads; optional ones are `None` when absent. */
  datatype Settings = Settings(
    googleServiceAccountJson: Option<string>,
    gdriveFolder: string,
    s3Endpoint: Option<string>,
    s3AccessKey: Option<string>,
    s3SecretKey: Option<string>,
    s3Bucket: string,
    s3Region: string,
    syncCronSchedule: string,
    rcloneConfigPath: string,
    serviceAccountPath: string)

  /** Settings with every defaulted field left at its default. */
  function DefaultedSettings(googleServiceAccountJson: Option<string>, gdriveFolder: string, s3Endpoint: Option<string>,
                             s3AccessKey: Option<string>, s3SecretKey: Option<string>, s3Bucket: string): Settings
  {
    Settings(googleServiceAccountJson, gdriveFolder, s3Endpoint, s3AccessKey, s3SecretKey, s3Bucket,
             DefaultRegion, DefaultSyncCronSchedule, DefaultRcloneConfigPath, DefaultServiceAccountPath)
  }

  /** Python truthiness of an optional string: present and not empty. */
  predicate Truthy(v: Option<string>) {
    v.Some? && v.value != ""
  }

  /** The `ValueError`s the two operations raise. */
  datatype ConfigError =
    | ServiceAccountNotConfigured
    | InvalidServiceAccountJson(detail: string)
    | S3CredentialsNotConfigured
  {
    function Message(): string {
      match this
      case ServiceAccountNotConfigured => "GOOGLE_SERVICE_ACCOUNT_JSON not configured"
      case InvalidServiceAccountJson(detail) => "Invalid service account JSON: " + detail
      case S3CredentialsNotConfigured => "S3 credentials not configured"
    }
  }

  /** The first attempt: base64-decode the setting, then parse the result as JSON. */
  function DecodeBase64Json(codecs: Codecs, text: string): Option<Json> {
    match codecs.b64decode(text)
    case None => None
    case Some(decoded) =>
      match codecs.loads(decoded)
      case Success(v) => Some(v)
      case Failure(_) => None
  }

  /** `Settings.get_service_account_dict`. */
  function GetServiceAccountDict(s: Settings, codecs: Codecs): (r: Result<Json, ConfigError>)
    ensures !Truthy(s.googleServiceAccountJson) ==> r == Failure(ServiceAccountNotConfigured)
    ensures Truthy(s.googleServiceAccountJson) ==>
      var text := s.googleServiceAccountJson.value;
      && (r.Success? <==> DecodeBase64Json(codecs, text).Some? || codecs.loads(text).Success?)
      // the base64 reading wins whenever it succeeds, even if the raw text is JSON too
      && (DecodeBase64Json(codecs, text).Some? ==> r == Success(DecodeBase64Json(codecs, text).value))
      // the raw text is read only when the base64 reading failed
      && (DecodeBase64Json(codecs, text).None? && codecs.loads(text).Success? ==> r == Success(codecs.loads(text).value))
      && (r.Failure? ==> r.error == InvalidServiceAccountJson(codecs.loads(text).error))
  {
    if !Truthy(s.googleServiceAccountJson) then
      Failure(ServiceAccountNotConfigured)
    else
      var text := s.googleServiceAccountJson.value;
      match DecodeBase64Json(codecs, text)
      case Some(v) => Success(v)
      case None =>
        match codecs.loads(text)
        case Success(v) => Success(v)
        case Failure(e) => Failure(InvalidServiceAccountJson(e))
  }

  /** The `all([...])` gate: endpoint, access key and secret all present and non-empty. */
  predicate S3CredentialsConfigured(s: Settings) {
    Truthy(s.s3Endpoint) && Truthy(s.s3AccessKey) && Truthy(s.s3SecretKey)
  }

  /** The thirteen lines of rclone's configuration, in file order. */
  function ConfigLines(s: Settings): (lines: seq<string>)
    requires S3CredentialsConfigured(s)
    // two sections apart by one empty line: three gdrive entries, then seven s3 entries
    ensures |lines| == 13 && lines[0] == "[gdrive]" && lines[4] == "" && lines[5] == "[s3]"
    ensures forall i :: 0 <= i < 13 ==> (lines[i] == "" <==> i == 4)
  {
    [ "[gdrive]",
      "type = drive",
      "scope = drive.readonly",
      "service_account_file = " + s.serviceAccountPath,
      "",
      "[s3]",
      "type = s3",
      "provider = Other",
      "access_key_id = " + s.s3AccessKey.value,
      "secret_access_key = " + s.s3SecretKey.value,
      "endpoint = " + s.s3Endpoint.value,
      "region = " + s.s3Region,
      "acl = private" ]
  }

  /** `"\n".join(lines)`. */
  function JoinLines(lines: seq<string>): string {
    if lines == [] then ""
    else if |lines| == 1 then lines[0]
    else lines[0] + "\n" + JoinLines(lines[1..])
  }

  /** What `setup_rclone_config` produces: the path it returns, the text it writes there, and
      the service-account value it writes to the service-account file. */
  datatype RcloneSetup = RcloneSetup(configPath: string, configText: string, serviceAccount: Json)

  /** `Settings.setup_rclone_config`, without the two file writes. */
  function SetupRcloneConfig(s: Settings, codecs: Codecs): (r: Result<RcloneSetup, ConfigError>)
    // the S3 gate comes first: the service account is not even looked at without credentials
    ensures !S3CredentialsConfigured(s) ==> r == Failure(S3CredentialsNotConfigured)
    ensures S3CredentialsConfigured(s) ==>
      && (r.Success? <==> GetServiceAccountDict(s, codecs).Success?)
      && (r.Failure? ==> r.error == GetServiceAccountDict(s, codecs).error)
    ensures r.Success? ==>
      && r.value.configPath == s.rcloneConfigPath
      && r.value.serviceAccount == GetServiceAccountDict(s, codecs).value
      && r.value.configText == JoinLines(ConfigLines(s))
  {
    if !S3CredentialsConfigured(s) then
      Failure(S3CredentialsNotConfigured)
    else
      match GetServiceAccountDict(s, codecs)
      case Failure(e) => Failure(e)
      case Success(sa) => Success(RcloneSetup(s.rcloneConfigPath, JoinLines(ConfigLines(s)), sa))
  }

  // ----- reading the configuration text back -----

  /** `text.split("\n")`. */
  function SplitLines(text: string): (lines: seq<string>)
    ensures |lines| > 0
  {
    if text == [] then [""]
    else
      var rest := SplitLines(text[1..]);
      if text[0] == '\n' then [""] + rest else [[text[0]] + rest[0]] + rest[1..]
  }

  lemma {:induction false} SplitLinesNoNewline(line: string)
    requires '\n' !in line
    ensures SplitLines(line) == [line]
  {
    if line != [] {
      assert line[0] in line;
      assert forall c :: c in line[1..] ==> c in line;
      SplitLinesNoNewline(line[1..]);
      assert [line[0]] + line[1..] == line;
    }
  }

  lemma {:induction false} SplitLinesAfterLine(line: string, rest: string)
    requires '\n' !in line
    ensures SplitLines(line + "\n" + rest) == [line] + SplitLines(rest)
  {
    var t := line + "\n" + rest;
    if line == [] {
      assert t[0] == '\n' && t[1..] == rest;
    } else {
      assert line[0] in line;
      assert forall c :: c in line[1..] ==> c in line;
      SplitLinesAfterLine(line[1..], rest);
      assert t[0] == line[0] && t[1..] == line[1..] + "\n" + rest;
      assert [line[0]] + line[1..] == line;
    }
  }

  /** Round trip: splitting the joined lines at newlines gives the lines back, as long as no
      line itself holds a newline. */
  lemma {:induction false} SplitJoinLines(lines: seq<string>)
    requires |lines| > 0
    requires forall i :: 0 <= i < |lines| ==> '\n' !in lines[i]
    ensures SplitLines(JoinLines(lines)) == lines
  {
    if |lines| == 1 {
      SplitLinesNoNewline(lines[0]);
    } else {
      SplitJoinLines(lines[1..]);
      SplitLinesAfterLine(lines[0], JoinLines(lines[1..]));
    }
  }

  /** No configured value holds a line break (the configuration format has no escapes). */
  predicate SingleLineValues(s: Settings)
    requires S3CredentialsConfigured(s)
  {
    && '\n' !in s.serviceAccountPath
    && '\n' !in s.s3AccessKey.value
    && '\n' !in s.s3SecretKey.value
    && '\n' !in s.s3Endpoint.value
    && '\n' !in s.s3Region
  }

  /** `[name]` lines open a section. */
  predicate IsSectionHeader(line: string) {
    |line| >= 2 && line[0] == '[' && line[|line| - 1] == ']'
  }

  /** The value of `key = value` in `[section]`, the first such line winning. This is the
      model's own reader (no trimming, quoting or comments), not rclone's parser. */
  function IniValue(lines: seq<string>, section: string, key: string): Option<string> {
    IniValueFrom(lines, "", section, key)
  }

  function IniValueFrom(lines: seq<string>, current: string, section: string, key: string): Option<string>
    decreases |lines|
  {
    if lines == [] then None
    else
      var line := lines[0];
      if IsSectionHeader(line) then IniValueFrom(lines[1..], line[1..|line| - 1], section, key)
      else if current == section && key + " = " <= line then Some(line[|key| + 3..])
      else IniValueFrom(lines[1..], current, section, key)
  }

  /**
   * Shape of the rendered text: the thirteen lines joined by single newlines, no trailing
   * newline, `[gdrive]` first, the one empty line fifth and `[s3]` right after it.
   */
  lemma ConfigTextShape(s: Settings)
    requires S3CredentialsConfigured(s) && SingleLineValues(s)
    ensures var text := JoinLines(ConfigLines(s));
      && SplitLines(text) == ConfigLines(s)
      && |SplitLines(text)| == 13
      && text[|text| - 1] != '\n'
      && (forall i :: 0 <= i < 13 ==> (SplitLines(text)[i] == "" <==> i == 4))
      && SplitLines(text)[0] == "[gdrive]" && SplitLines(text)[5] == "[s3]"
  {
    ConfigTextLines(s);
    JoinLinesEnd(ConfigLines(s));
  }

  /** The written text splits back into exactly the thirteen lines. */
  lemma ConfigTextLines(s: Settings)
    requires S3CredentialsConfigured(s) && SingleLineValues(s)
    ensures SplitLines(JoinLines(ConfigLines(s))) == ConfigLines(s)
  {
    var lines := ConfigLines(s);
    assert forall i :: 0 <= i < |lines| ==> '\n' !in lines[i];
    SplitJoinLines(lines);
  }

  lemma {:induction false} JoinLinesEnd(lines: seq<string>)
    requires |lines| > 0 && |lines[|lines| - 1]| > 0
    ensures var text := JoinLines(lines); |text| > 0 && text[|text| - 1] == lines[|lines| - 1][|lines[|lines| - 1]| - 1]
  {
    if |lines| > 1 {
      JoinLinesEnd(lines[1..]);
    }
  }

  // ----- the configuration as sections of entries -----

  datatype Entry = Entry(key: string, value: string)

  datatype Section = Section(name: string, entries: seq<Entry>)

  /** A key the reader can look up: non-empty, no blank in it, not starting like a header. */
  predicate IsKey(k: string) {
    |k| > 0 && k[0] != '[' && ' ' !in k
  }

  predicate WellFormedSections(secs: seq<Section>) {
    forall i, j :: 0 <= i < |secs| && 0 <= j < |secs[i].entries| ==> IsKey(secs[i].entries[j].key)
  }

  function EntryLines(entries: seq<Entry>): (lines: seq<string>) {
    seq(|entries|, i requires 0 <= i < |entries| => entries[i].key + " = " + entries[i].value)
  }

  /** Each section as its `[name]` header and its entry lines, sections apart by one empty line. */
  function RenderIni(secs: seq<Section>): seq<string> {
    if secs == [] then []
    else
      var lines := ["[" + secs[0].name + "]"] + EntryLines(secs[0].entries);
      if |secs| == 1 then lines else lines + [""] + RenderIni(secs[1..])
  }

  /** The first value of `key` in the entries. */
  function EntryValue(entries: seq<Entry>, key: string): Option<string> {
    if entries == [] then None
    else if entries[0].key == key then Some(entries[0].value)
    else EntryValue(entries[1..], key)
  }

  /** The first value of `key` in a section called `section`. */
  function SectionValue(secs: seq<Section>, section: string, key: string): Option<string> {
    if secs == [] then None
    else if secs[0].name == section && EntryValue(secs[0].entries, key).Some? then EntryValue(secs[0].entries, key)
    else SectionValue(secs[1..], section, key)
  }

  /** The sections `setup_rclone_config` writes. */
  function ConfigSections(s: Settings): seq<Section>
    requires S3CredentialsConfigured(s)
  {
    [GdriveSection(s), S3Section(s)]
  }

  function GdriveSection(s: Settings): Section {
    Section("gdrive", [
      Entry("type", "drive"),
      Entry("scope", "drive.readonly"),
      Entry("service_account_file", s.serviceAccountPath)])
  }

  function S3Section(s: Settings): Section
    requires S3CredentialsConfigured(s)
  {
    Section("s3", [
      Entry("type", "s3"),
      Entry("provider", "Other"),
      Entry("access_key_id", s.s3AccessKey.value),
      Entry("secret_access_key", s.s3SecretKey.value),
      Entry("endpoint", s.s3Endpoint.value),
      Entry("region", s.s3Region),
      Entry("acl", "private")])
  }

  /** An entry line answers a lookup exactly when it holds that key. */
  lemma EntryLineMatches(k: string, v: string, key: string)
    requires IsKey(k) && IsKey(key)
    ensures var line := k + " = " + v;
      && !IsSectionHeader(line)
      && (key + " = " <= line <==> k == key)
      && (k == key ==> line[|key| + 3..] == v)
  {
    var line := k + " = " + v;
    assert line[0] == k[0];
    if k == key {
      assert line == (key + " = ") + v;
    } else if |key| < |k| {
      assert line[|key|] == k[|key|] && k[|key|] in k && (key + " = ")[|key|] == ' ';
    } else if |key| > |k| {
      assert line[|k|] == ' ' && key[|k|] in key && (key + " = ")[|k|] == key[|k|];
    } else {
      assert line[..|k|] == k && (key + " = ")[..|key|] == key;
    }
  }

  lemma {:induction false} IniValueEntries(entries: seq<Entry>, rest: seq<string>, current: string, section: string, key: string)
    requires forall j :: 0 <= j < |entries| ==> IsKey(entries[j].key)
    requires IsKey(key)
    ensures IniValueFrom(EntryLines(entries) + rest, current, section, key)
         == if current == section && EntryValue(entries, key).Some? then EntryValue(entries, key)
            else IniValueFrom(rest, current, section, key)
  {
    if entries != [] {
      var lines := EntryLines(entries) + rest;
      EntryLineMatches(entries[0].key, entries[0].value, key);
      assert lines[0] == entries[0].key + " = " + entries[0].value;
      assert EntryLines(entries)[1..] == EntryLines(entries[1..]);
      assert lines[1..] == EntryLines(entries[1..]) + rest;
      IniValueEntries(entries[1..], rest, current, section, key);
    } else {
      assert EntryLines(entries) + rest == rest;
    }
  }

  lemma {:induction false} IniValueSections(secs: seq<Section>, current: string, section: string, key: string)
    requires |secs| > 0 && WellFormedSections(secs) && IsKey(key)
    ensures IniValueFrom(RenderIni(secs), current, section, key) == SectionValue(secs, section, key)
  {
    var header := "[" + secs[0].name + "]";
    var body := EntryLines(secs[0].entries);
    var rest := if |secs| == 1 then [] else [""] + RenderIni(secs[1..]);
    assert RenderIni(secs) == [header] + (body + rest);
    assert header[1..|header| - 1] == secs[0].name;
    IniValueEntries(secs[0].entries, rest, secs[0].name, section, key);
    if |secs| > 1 {
      assert WellFormedSections(secs[1..]) by {
        forall i, j | 0 <= i < |secs[1..]| && 0 <= j < |secs[1..][i].entries|
          ensures IsKey(secs[1..][i].entries[j].key)
        {
          assert secs[1..][i] == secs[i + 1];
        }
      }
      IniValueSections(secs[1..], secs[0].name, section, key);
      assert rest[1..] == RenderIni(secs[1..]);
    }
  }

  /** Round trip of the renderer: looking a key up in the rendered text finds what the sections hold. */
  lemma IniValueRender(secs: seq<Section>, section: string, key: string)
    requires |secs| > 0 && WellFormedSections(secs) && IsKey(key)
    ensures IniValue(RenderIni(secs), section, key) == SectionValue(secs, section, key)
  {
    IniValueSections(secs, "", section, key);
  }

  lemma {:induction false} EntryValueAt(entries: seq<Entry>, j: nat)
    requires j < |entries|
    requires forall i :: 0 <= i < j ==> entries[i].key != entries[j].key
    ensures EntryValue(entries, entries[j].key) == Some(entries[j].value)
  {
    if j > 0 {
      EntryValueAt(entries[1..], j - 1);
    }
  }

  /** The value of the `j`-th entry of the `i`-th section, when no earlier section has its name
      and no earlier entry its key. */
  lemma {:induction false} SectionValueAt(secs: seq<Section>, i: nat, j: nat)
    requires i < |secs| && j < |secs[i].entries|
    requires forall i' :: 0 <= i' < i ==> secs[i'].name != secs[i].name
    requires forall j' :: 0 <= j' < j ==> secs[i].entries[j'].key != secs[i].entries[j].key
    ensures SectionValue(secs, secs[i].name, secs[i].entries[j].key) == Some(secs[i].entries[j].value)
  {
    if i == 0 {
      EntryValueAt(secs[0].entries, j);
    } else {
      SectionValueAt(secs[1..], i - 1, j);
    }
  }

  /** The thirteen configuration lines are the two sections rendered. */
  lemma ConfigLinesRendered(s: Settings)
    requires S3CredentialsConfigured(s)
    ensures ConfigLines(s) == RenderIni(ConfigSections(s))
  {
    var lines := ConfigLines(s);
    var g, t := GdriveSection(s), S3Section(s);
    GdriveEntriesRendered(s);
    S3EntriesRendered(s);
    assert [g, t][1..] == [t];
    assert "[" + t.name + "]" == "[s3]" && "[" + g.name + "]" == "[gdrive]";
    assert RenderIni([t]) == ["[s3]"] + EntryLines(t.entries);
    assert RenderIni([g, t]) == ["[gdrive]"] + EntryLines(g.entries) + [""] + RenderIni([t]);
    assert lines == lines[..1] + lines[1..4] + [lines[4]] + [lines[5]] + lines[6..];
  }

  lemma GdriveEntriesRendered(s: Settings)
    requires S3CredentialsConfigured(s)
    ensures EntryLines(GdriveSection(s).entries) == ConfigLines(s)[1..4]
  {
    var lines, g := ConfigLines(s), EntryLines(GdriveSection(s).entries);
    assert |g| == 3;
    assert g[0] == lines[1];
    assert g[1] == lines[2];
    assert g[2] == lines[3];
  }

  lemma S3EntriesRendered(s: Settings)
    requires S3CredentialsConfigured(s)
    ensures EntryLines(S3Section(s).entries) == ConfigLines(s)[6..]
  {
    var lines, t := ConfigLines(s), EntryLines(S3Section(s).entries);
    assert t[0] == lines[6] && t[1] == lines[7] && t[2] == lines[8] && t[3] == lines[9];
    assert t[4] == lines[10] && t[5] == lines[11] && t[6] == lines[12];
  }

  lemma ConfigSectionsWellFormed(s: Settings)
    requires S3CredentialsConfigured(s)
    ensures WellFormedSections(ConfigSections(s))
  {
    var secs := ConfigSections(s);
    forall i, j | 0 <= i < |secs| && 0 <= j < |secs[i].entries| ensures IsKey(secs[i].entries[j].key) {
      var k := secs[i].entries[j].key;
      assert k in {"type", "scope", "service_account_file", "provider", "access_key_id",
                   "secret_access_key", "endpoint", "region", "acl"};
    }
  }

  /** Looking a key up in the written configuration text is looking it up in its sections. */
  lemma ConfigReadBack(s: Settings, section: string, key: string)
    requires S3CredentialsConfigured(s) && SingleLineValues(s) && IsKey(key)
    ensures IniValue(SplitLines(JoinLines(ConfigLines(s))), section, key) == SectionValue(ConfigSections(s), section, key)
  {
    ConfigTextLines(s);
    ConfigLinesRendered(s);
    ConfigSectionsWellFormed(s);
    IniValueRender(ConfigSections(s), section, key);
  }

  /**
   * What the text carries for the gdrive remote: a read-only drive on the service-account file.
   */
  lemma GdriveRemoteValues(s: Settings)
    requires S3CredentialsConfigured(s) && SingleLineValues(s)
    ensures var lines := SplitLines(JoinLines(ConfigLines(s)));
      && IniValue(lines, "gdrive", "type") == Some("drive")
      && IniValue(lines, "gdrive", "scope") == Some("drive.readonly")
      && IniValue(lines, "gdrive", "service_account_file") == Some(s.serviceAccountPath)
  {
    GdriveEntryReadBack(s, 0);
    GdriveEntryReadBack(s, 1);
    GdriveEntryReadBack(s, 2);
  }

  /**
   * What the text carries for the s3 remote: a private `Other` provider holding the access key,
   * secret, endpoint and region exactly as configured.
   */
  lemma S3RemoteValues(s: Settings)
    requires S3CredentialsConfigured(s) && SingleLineValues(s)
    ensures var lines := SplitLines(JoinLines(ConfigLines(s)));
      && IniValue(lines, "s3", "type") == Some("s3")
      && IniValue(lines, "s3", "provider") == Some("Other")
      && IniValue(lines, "s3", "access_key_id") == Some(s.s3AccessKey.value)
      && IniValue(lines, "s3", "secret_access_key") == Some(s.s3SecretKey.value)
      && IniValue(lines, "s3", "endpoint") == Some(s.s3Endpoint.value)
      && IniValue(lines, "s3", "region") == Some(s.s3Region)
      && IniValue(lines, "s3", "acl") == Some("private")
  {
    S3EntryReadBack(s, 0);
    S3EntryReadBack(s, 1);
    S3EntryReadBack(s, 2);
    S3EntryReadBack(s, 3);
    S3EntryReadBack(s, 4);
    S3EntryReadBack(s, 5);
    S3EntryReadBack(s, 6);
  }

  /** Each gdrive entry reads back from the written text. */
  lemma GdriveEntryReadBack(s: Settings, j: nat)
    requires S3CredentialsConfigured(s) && SingleLineValues(s) && j < 3
    ensures var e := GdriveSection(s).entries[j];
      IniValue(SplitLines(JoinLines(ConfigLines(s))), "gdrive", e.key) == Some(e.value)
  {
    var secs := ConfigSections(s);
    var e := secs[0].entries[j];
    ConfigSectionsWellFormed(s);
    ConfigReadBack(s, "gdrive", e.key);
    SectionValueAt(secs, 0, j);
  }

  /** Each s3 entry reads back from the written text. */
  lemma S3EntryReadBack(s: Settings, j: nat)
    requires S3CredentialsConfigured(s) && SingleLineValues(s) && j < 7
    ensures var e := S3Section(s).entries[j];
      IniValue(SplitLines(JoinLines(ConfigLines(s))), "s3", e.key) == Some(e.value)
  {
    var secs := ConfigSections(s);
    var e := secs[1].entries[j];
    ConfigSectionsWellFormed(s);
    ConfigReadBack(s, "s3", e.key);
    SectionValueAt(secs, 1, j);
  }

  /**
   * With the defaults in place, a successful setup returns `/tmp/rclone.conf`, and the text carries
   * region `us-east-1` and the service-account file `/tmp/service_account.json`.
   */
  lemma DefaultsRendered(json: Option<string>, folder: string, endpoint: Option<string>, accessKey: Option<string>,
                         secretKey: Option<string>, bucket: string, codecs: Codecs)
    requires var s := DefaultedSettings(json, folder, endpoint, accessKey, secretKey, bucket);
      S3CredentialsConfigured(s) && SingleLineValues(s) && SetupRcloneConfig(s, codecs).Success?
    ensures var setup := SetupRcloneConfig(DefaultedSettings(json, folder, endpoint, accessKey, secretKey, bucket), codecs).value;
      && setup.configPath == "/tmp/rclone.conf"
      && IniValue(SplitLines(setup.configText), "s3", "region") == Some("us-east-1")
      && IniValue(SplitLines(setup.configText), "gdrive", "service_account_file") == Some("/tmp/service_account.json")
  {
    var s := DefaultedSettings(json, folder, endpoint, accessKey, secretKey, bucket);
    S3RemoteValues(s);
    GdriveRemoteValues(s);
  }
}
