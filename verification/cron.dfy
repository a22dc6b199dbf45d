/**
 * The beat schedule's cron expression: `parse_cron_schedule` strips the text, splits it on
 * whitespace runs, insists on five fields and hands them to the schedule by position.
 */
module Cron {
  import opened Wrappers
  import Config

  /** Python's `str.isspace` on one character: the separators `str.split()` and `str.strip()` use. */
  predicate IsSpace(c: char) {
    c == ' ' || '\t' <= c <= '\r' || '\U{1c}' <= c <= '\U{1f}' || c == '\U{85}' || c == '\U{a0}'
    || c == '\U{1680}' || '\U{2000}' <= c <= '\U{200a}' || c == '\U{2028}' || c == '\U{2029}'
    || c == '\U{202f}' || c == '\U{205f}' || c == '\U{3000}'
  }

  predicate AllSpace(s: string) {
    forall i :: 0 <= i < |s| ==> IsSpace(s[i])
  }

  /** A field `split()` can produce: non-empty and free of whitespace. */
  predicate IsWord(w: string) {
    |w| > 0 && forall i :: 0 <= i < |w| ==> !IsSpace(w[i])
  }

  /** Length of the run of non-space characters that starts `s`. */
  function WordEnd(s: string): (n: nat)
    ensures n <= |s|
    ensures forall i :: 0 <= i < n ==> !IsSpace(s[i])
    ensures n == |s| || IsSpace(s[n])
  {
    if s == [] || IsSpace(s[0]) then 0 else 1 + WordEnd(s[1..])
  }

  /** `s.split()`: the maximal runs of non-space characters, in order. */
  function Split(s: string): (fields: seq<string>)
    ensures forall i :: 0 <= i < |fields| ==> IsWord(fields[i])
    decreases |s|
  {
    if s == [] then []
    else if IsSpace(s[0]) then Split(s[1..])
    else
      var n := WordEnd(s);
      [s[..n]] + Split(s[n..])
  }

  /** Number of whitespace characters at the start of `s`. */
  function LeadingSpace(s: string): (k: nat)
    ensures k <= |s| && AllSpace(s[..k])
    ensures k == |s| || !IsSpace(s[k])
  {
    if s != [] && IsSpace(s[0]) then 1 + LeadingSpace(s[1..]) else 0
  }

  /** Number of whitespace characters at the end of `s`. */
  function TrailingSpace(s: string): (k: nat)
    ensures k <= |s| && AllSpace(s[|s| - k..])
    ensures k == |s| || !IsSpace(s[|s| - k - 1])
  {
    if s != [] && IsSpace(s[|s| - 1]) then 1 + TrailingSpace(s[..|s| - 1]) else 0
  }

  /** `s.strip()`: `s` without its leading and trailing whitespace. */
  function Strip(s: string): (t: string)
    ensures t == [] || (!IsSpace(t[0]) && !IsSpace(t[|t| - 1]))
    // `t` is `s` with only whitespace cut from its two ends
    ensures var k := LeadingSpace(s);
      && k + |t| <= |s| && t == s[k..k + |t|]
      && AllSpace(s[..k]) && AllSpace(s[k + |t|..])
  {
    var u := s[LeadingSpace(s)..];
    u[..|u| - TrailingSpace(u)]
  }

  /** Stripping whitespace padding gives back the text it surrounds, when that text is stripped. */
  lemma StripPadded(lead: string, body: string, trail: string)
    requires AllSpace(lead) && AllSpace(trail)
    requires body == [] || (!IsSpace(body[0]) && !IsSpace(body[|body| - 1]))
    ensures Strip(lead + body + trail) == body
  {
    var s := lead + body + trail;
    if body == [] {
      assert s == lead + trail;
      LeadingSpaceOf(s, []);
      assert s + [] == s;
    } else {
      assert s == lead + (body + trail);
      LeadingSpaceOf(lead, body + trail);
      var u := s[|lead|..];
      assert u == body + trail;
      TrailingSpaceOf(body, trail);
      assert u[..|u| - |trail|] == body;
    }
  }

  /** Whitespace followed by text that does not start with whitespace: the count is the prefix. */
  lemma {:induction false} LeadingSpaceOf(ws: string, rest: string)
    requires AllSpace(ws) && (rest == [] || !IsSpace(rest[0]))
    ensures LeadingSpace(ws + rest) == |ws|
    decreases |ws|
  {
    if ws != [] {
      assert (ws + rest)[1..] == ws[1..] + rest;
      LeadingSpaceOf(ws[1..], rest);
    }
  }

  /** Text that does not end in whitespace followed by whitespace: the count is the suffix. */
  lemma {:induction false} TrailingSpaceOf(rest: string, ws: string)
    requires AllSpace(ws) && (rest == [] || !IsSpace(rest[|rest| - 1]))
    ensures TrailingSpace(rest + ws) == |ws|
    decreases |ws|
  {
    if ws != [] {
      var s := rest + ws;
      assert s[..|s| - 1] == rest + ws[..|ws| - 1];
      TrailingSpaceOf(rest, ws[..|ws| - 1]);
    }
  }

  /** The five positional arguments handed to `crontab`. */
  datatype CronSchedule = CronSchedule(
    minute: string,
    hour: string,
    dayOfMonth: string,
    monthOfYear: string,
    dayOfWeek: string)
  {
    function Fields(): seq<string> {
      [minute, hour, dayOfMonth, monthOfYear, dayOfWeek]
    }
  }

  /** The `ValueError` raised for an expression without exactly five fields. */
  datatype CronError = InvalidCronExpression(expr: string) {
    function Message(): string {
      "Invalid cron expression: " + expr
    }
  }

  /** `parse_cron_schedule`. */
  function ParseCronSchedule(cronExpr: string): (r: Result<CronSchedule, CronError>)
    ensures r.Success? <==> |Split(cronExpr)| == 5
    ensures r.Failure? ==> r.error == InvalidCronExpression(cronExpr)
    // the `ValueError`'s text names the expression as it was given, unstripped
    ensures r.Failure? ==> r.error.Message() == "Invalid cron expression: " + cronExpr
    ensures r.Success? ==> r.value.Fields() == Split(cronExpr)
  {
    var parts := Split(Strip(cronExpr));
    SplitStrip(cronExpr);
    if |parts| != 5 then
      Failure(InvalidCronExpression(cronExpr))
    else
      Success(CronSchedule(parts[0], parts[1], parts[2], parts[3], parts[4]))
  }

  // ----- properties of Split and Strip -----

  lemma {:induction false} SplitAllSpace(ws: string)
    requires AllSpace(ws)
    ensures Split(ws) == []
    decreases |ws|
  {
    if ws != [] {
      SplitAllSpace(ws[1..]);
    }
  }

  /** Whitespace in front of the text contributes no field. */
  lemma {:induction false} SplitSpacePrefix(ws: string, s: string)
    requires AllSpace(ws)
    ensures Split(ws + s) == Split(s)
    decreases |ws|
  {
    if ws != [] {
      var t := ws + s;
      assert t[0] == ws[0] && IsSpace(t[0]);
      assert t[1..] == ws[1..] + s;
      SplitSpacePrefix(ws[1..], s);
      assert Split(t) == Split(t[1..]);
    } else {
      assert ws + s == s;
    }
  }

  lemma {:induction false} WordEndSpaceSuffix(s: string, ws: string)
    requires AllSpace(ws)
    ensures WordEnd(s + ws) == WordEnd(s)
    decreases |s|
  {
    if s != [] && !IsSpace(s[0]) {
      assert (s + ws)[1..] == s[1..] + ws;
      WordEndSpaceSuffix(s[1..], ws);
    } else if s == [] && ws != [] {
      assert (s + ws)[0] == ws[0];
    }
  }

  /** Whitespace after the text contributes no field. */
  lemma {:induction false} SplitSpaceSuffix(s: string, ws: string)
    requires AllSpace(ws)
    ensures Split(s + ws) == Split(s)
    decreases |s|
  {
    if s == [] {
      assert s + ws == ws;
      SplitAllSpace(ws);
    } else if IsSpace(s[0]) {
      assert (s + ws)[1..] == s[1..] + ws;
      SplitSpaceSuffix(s[1..], ws);
    } else {
      var n := WordEnd(s);
      WordEndSpaceSuffix(s, ws);
      assert (s + ws)[..n] == s[..n];
      assert (s + ws)[n..] == s[n..] + ws;
      SplitSpaceSuffix(s[n..], ws);
    }
  }

  /** `split()` already ignores the whitespace `strip()` removes. */
  lemma SplitStrip(s: string)
    ensures Split(Strip(s)) == Split(s)
  {
    var k := LeadingSpace(s);
    var u := s[k..];
    var lead := s[..k];
    assert AllSpace(lead);
    assert s == lead + u;
    SplitSpacePrefix(lead, u);
    var j := |u| - TrailingSpace(u);
    var body, trail := u[..j], u[j..];
    assert AllSpace(trail);
    assert u == body + trail;
    SplitSpaceSuffix(body, trail);
    assert Strip(s) == body;
  }

  lemma {:induction false} WordEndOfWord(w: string, rest: string)
    requires IsWord(w)
    requires rest == [] || IsSpace(rest[0])
    ensures WordEnd(w + rest) == |w|
    decreases |w|
  {
    assert (w + rest)[0] == w[0];
    if |w| > 1 {
      assert (w + rest)[1..] == w[1..] + rest;
      WordEndOfWord(w[1..], rest);
    } else {
      assert (w + rest)[1..] == rest;
    }
  }

  /** A word followed by a space (or by nothing) is split off as one field. */
  lemma SplitWord(w: string, rest: string)
    requires IsWord(w)
    requires rest == [] || IsSpace(rest[0])
    ensures Split(w + rest) == [w] + Split(rest)
  {
    WordEndOfWord(w, rest);
    assert (w + rest)[0] == w[0];
    assert (w + rest)[..|w|] == w;
    assert (w + rest)[|w|..] == rest;
  }

  /**
   * Any non-empty run of whitespace separates two fields exactly as one space would:
   * a word, a run of whitespace, and the rest split into the word and the rest's fields.
   */
  lemma SplitSeparated(w: string, sep: string, rest: string)
    requires IsWord(w) && AllSpace(sep) && |sep| > 0
    ensures Split(w + sep + rest) == [w] + Split(rest)
  {
    assert w + sep + rest == w + (sep + rest);
    assert (sep + rest)[0] == sep[0];
    SplitWord(w, sep + rest);
    SplitSpacePrefix(sep, rest);
  }

  /** Fields joined by the given separators, the i-th separator between field i and field i + 1. */
  function Interleave(fields: seq<string>, seps: seq<string>): string
    requires |fields| == |seps| + 1
  {
    if |fields| == 1 then fields[0] else fields[0] + seps[0] + Interleave(fields[1..], seps[1..])
  }

  /**
   * Round trip of `split()`: whitespace-free fields joined by any non-empty runs of whitespace
   * split back into the same fields, so a run of whitespace acts as one separator.
   */
  lemma {:induction false} SplitInterleave(fields: seq<string>, seps: seq<string>)
    requires |fields| == |seps| + 1
    requires forall i :: 0 <= i < |fields| ==> IsWord(fields[i])
    requires forall i :: 0 <= i < |seps| ==> AllSpace(seps[i]) && |seps[i]| > 0
    ensures Split(Interleave(fields, seps)) == fields
    decreases |seps|
  {
    if |fields| == 1 {
      SplitWord(fields[0], []);
      assert fields[0] + [] == fields[0];
    } else {
      SplitInterleave(fields[1..], seps[1..]);
      SplitSeparated(fields[0], seps[0], Interleave(fields[1..], seps[1..]));
    }
  }

  // ----- properties of parse_cron_schedule -----

  /** The text of a schedule: its fields between the given separators, inside the given padding. */
  function CronText(c: CronSchedule, lead: string, seps: seq<string>, trail: string): string
    requires |seps| == 4
  {
    lead + Interleave(c.Fields(), seps) + trail
  }

  predicate WellFormed(c: CronSchedule) {
    forall i :: 0 <= i < 5 ==> IsWord(c.Fields()[i])
  }

  /**
   * Round trip: five whitespace-free fields, separated by any non-empty whitespace runs and
   * padded by any whitespace, parse back to the same five fields in the same positions.
   */
  lemma ParseCronText(c: CronSchedule, lead: string, seps: seq<string>, trail: string)
    requires WellFormed(c)
    requires AllSpace(lead) && AllSpace(trail)
    requires |seps| == 4 && forall i :: 0 <= i < 4 ==> AllSpace(seps[i]) && |seps[i]| > 0
    ensures ParseCronSchedule(CronText(c, lead, seps, trail)) == Success(c)
  {
    var body := Interleave(c.Fields(), seps);
    SplitSpacePrefix(lead, body + trail);
    assert lead + body + trail == lead + (body + trail);
    SplitSpaceSuffix(body, trail);
    SplitInterleave(c.Fields(), seps);
  }

  /** The schedule of defaulted settings has five fields and is accepted, field by field. */
  lemma DefaultScheduleAccepted(json: Option<string>, folder: string, endpoint: Option<string>,
                                accessKey: Option<string>, secretKey: Option<string>, bucket: string)
    ensures var s := Config.DefaultedSettings(json, folder, endpoint, accessKey, secretKey, bucket);
      ParseCronSchedule(s.syncCronSchedule) == Success(CronSchedule("0", "6,18", "*", "*", "*"))
  {
    var c := CronSchedule("0", "6,18", "*", "*", "*");
    var seps := [" ", " ", " ", " "];
    assert Config.DefaultSyncCronSchedule == CronText(c, "", seps, "");
    ParseCronText(c, "", seps, "");
  }

  /** A four-field expression is rejected with the `ValueError` naming it. */
  lemma FourFieldsRejected()
    ensures ParseCronSchedule("0 6 * *") == Failure(InvalidCronExpression("0 6 * *"))
  {
    var fields, seps := ["0", "6", "*", "*"], [" ", " ", " "];
    assert "0 6 * *" == Interleave(fields, seps);
    SplitInterleave(fields, seps);
  }
}
