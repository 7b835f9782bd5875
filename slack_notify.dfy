/**
 * The CI notifier (ci/scripts/slack_notify.py): read a ReFrame session
 * report, compose a status message and POST it to a Slack webhook.
 *
 * The file read, the environment, the HTTP call and the rendering of a
 * rounded float are inputs: `load` gives what reading and parsing a path
 * yields, `env` is the process environment, `post` gives the webhook's answer
 * to a request, and `showElapsed` is Python's `str(round(x, 2))`.  The
 * outcome records the exit status, whether the file and the environment were
 * read, the request made (if any) and the lines printed.
 */
module SlackNotify {
  import opened Wrappers
  import opened Text

  /** The `session_info` object of the report; a field may be absent. */
  datatype Session = Session(numCases: Option<int>, numFailures: Option<int>,
                             numAborted: Option<int>, numSkipped: Option<int>,
                             timeElapsed: Option<real>)

  const EmptySession: Session := Session(None, None, None, None, None)

  /** Reading and parsing the report: an error with its cause, or its `session_info` if present. */
  datatype LoadResult = Unreadable(cause: string) | Loaded(sessionInfo: Option<Session>)

  /** The webhook's answer: a status code and body, or an exception from `requests.post`. */
  datatype Response = Response(status: int, body: string) | Raised(cause: string)

  /** One POST to `url` with JSON body `{"text": text}`. */
  datatype Post = Post(url: string, text: string)

  /** What one run of the script does. */
  datatype Outcome = Outcome(exitCode: int, readPath: Option<string>, envRead: bool,
                             post: Option<Post>, log: seq<string>)

  datatype Status = Passed | Failed

  /** The four counts of the message. */
  datatype Counts = Counts(cases: int, failed: int, aborted: int, skipped: int)

  /** Everything the message shows. */
  datatype Fields = Fields(system: string, pipelineName: string, pipelineUrl: string,
                           reportUrl: string, status: Status, counts: Counts,
                           elapsed: string)

  const FailGlyph: char := '\U{274C}'
  const PassGlyph: char := '\U{2705}'

  const UsageText: string := "Usage: python notify_slack.py <session.json>"
  const MissingWebhookText: string := [FailGlyph] + " Missing SLACK_WEBHOOK_URL environment variable"
  const SentText: string := [PassGlyph] + " Slack notification sent successfully!"

  function ReadFailureText(cause: string): string {
    [FailGlyph] + " Failed to read JSON file: " + cause
  }

  // ---------------------------------------------------------------------
  // Defaults and the status rule

  /** `os.getenv(name, default)`: a set variable wins even when it is empty. */
  function EnvOr(env: map<string, string>, name: string, default: string): string {
    if name in env then env[name] else default
  }

  /** `if not slack_url`: the webhook must be set and non-empty. */
  predicate HasWebhook(env: map<string, string>) {
    "SLACK_WEBHOOK_URL" in env && env["SLACK_WEBHOOK_URL"] != ""
  }

  /** `session.get(field, 0)` for a count. */
  function CountOr0(v: Option<int>): (n: int)
    ensures v.None? ==> n == 0
    ensures v.Some? ==> n == v.value
  {
    v.GetOr(0)
  }

  function CountsOf(s: Session): Counts {
    Counts(CountOr0(s.numCases), CountOr0(s.numFailures), CountOr0(s.numAborted), CountOr0(s.numSkipped))
  }

  /** Failure when anything failed or aborted, success otherwise. */
  function StatusOf(s: Session): Status {
    if CountOr0(s.numFailures) > 0 || CountOr0(s.numAborted) > 0 then Failed else Passed
  }

  function Glyph(st: Status): char {
    if st == Failed then FailGlyph else PassGlyph
  }

  /**
   * `round(session.get('time_elapsed', 0), 2)` as text: the default `0` is an
   * int and prints as `0`; a present value goes through `showElapsed`.
   */
  function ElapsedText(v: Option<real>, showElapsed: real -> string): string {
    match v
    case None => "0"
    case Some(x) => showElapsed(x)
  }

  /** The message fields from the session and the environment (slack_notify.py:22-29, 36-51). */
  function ComposeFields(s: Session, env: map<string, string>, showElapsed: real -> string): (f: Fields)
    ensures f.reportUrl == f.pipelineUrl + "/test_report"
    ensures f.system == (if "FIRECREST_SYSTEM" in env then env["FIRECREST_SYSTEM"] else "Unknown System")
    ensures f.pipelineName == (if "CI_PROJECT_PATH" in env then env["CI_PROJECT_PATH"] else "Unknown Pipeline")
    ensures f.pipelineUrl == (if "CI_PIPELINE_URL" in env then env["CI_PIPELINE_URL"] else "#")
    ensures f.status == Failed <==> f.counts.failed > 0 || f.counts.aborted > 0
    ensures s.numCases.None? ==> f.counts.cases == 0
    ensures s.numFailures.None? ==> f.counts.failed == 0
    ensures s.numAborted.None? ==> f.counts.aborted == 0
    ensures s.numSkipped.None? ==> f.counts.skipped == 0
    ensures s.timeElapsed.None? ==> f.elapsed == "0"
    ensures s.numCases.Some? ==> f.counts.cases == s.numCases.value
    ensures s.numFailures.Some? ==> f.counts.failed == s.numFailures.value
    ensures s.numAborted.Some? ==> f.counts.aborted == s.numAborted.value
    ensures s.numSkipped.Some? ==> f.counts.skipped == s.numSkipped.value
    ensures s.timeElapsed.Some? ==> f.elapsed == showElapsed(s.timeElapsed.value)
    ensures f.status == Failed <==>
              (s.numFailures.Some? && s.numFailures.value > 0) || (s.numAborted.Some? && s.numAborted.value > 0)
  {
    var pipelineUrl := EnvOr(env, "CI_PIPELINE_URL", "#");
    Fields(EnvOr(env, "FIRECREST_SYSTEM", "Unknown System"),
           EnvOr(env, "CI_PROJECT_PATH", "Unknown Pipeline"),
           pipelineUrl,
           pipelineUrl + "/test_report",
           StatusOf(s), CountsOf(s), ElapsedText(s.timeElapsed, showElapsed))
  }

  /** `data.get("session_info", {})`. */
  function SessionOf(info: Option<Session>): Session {
    info.GetOr(EmptySession)
  }

  /** A report without `session_info` reads as all counts zero, success, elapsed `0`. */
  lemma MissingSessionDefaults(env: map<string, string>, showElapsed: real -> string)
    ensures ComposeFields(SessionOf(None), env, showElapsed).counts == Counts(0, 0, 0, 0)
    ensures ComposeFields(SessionOf(None), env, showElapsed).status == Passed
    ensures ComposeFields(SessionOf(None), env, showElapsed).elapsed == "0"
  {
  }

  /** The status does not depend on the total or the skipped count. */
  lemma StatusIgnoresCasesAndSkipped(s: Session, cases: Option<int>, skipped: Option<int>)
    ensures StatusOf(s.(numCases := cases, numSkipped := skipped)) == StatusOf(s)
  {
  }

  // ---------------------------------------------------------------------
  // The message text

  /** The counts as the status line shows them: `N total | N failed | N aborted | N skipped`. */
  function CountsText(c: Counts): string {
    IntText(c.cases) + (" total | " + (IntText(c.failed) + (" failed | "
    + (IntText(c.aborted) + (" aborted | " + (IntText(c.skipped) + " skipped"))))))
  }

  /** The line `> <glyph> *Tests:* <counts>`. */
  function StatusLine(st: Status, c: Counts): string {
    "> " + ([Glyph(st)] + (" *Tests:* " + CountsText(c)))
  }

  /** Reads an integer followed by the literal text `sep`; returns the integer and what follows. */
  function ScanField(s: string, sep: string): Option<(int, string)> {
    var p :- ScanInt(s);
    var rest :- DropPrefix(sep, p.1);
    Some((p.0, rest))
  }

  lemma ScanFieldOf(i: int, sep: string, rest: string)
    requires sep != [] && !IsDigit(sep[0])
    ensures ScanField(IntText(i) + (sep + rest), sep) == Some((i, rest))
  {
    ScanIntText(i, sep + rest);
    DropPrefixOf(sep, rest);
  }

  /** Reads the four counts back from their text. */
  function ParseCounts(s: string): Option<Counts> {
    var cases :- ScanField(s, " total | ");
    var failed :- ScanField(cases.1, " failed | ");
    var aborted :- ScanField(failed.1, " aborted | ");
    var skipped :- ScanField(aborted.1, " skipped");
    if skipped.1 == [] then Some(Counts(cases.0, failed.0, aborted.0, skipped.0)) else None
  }

  lemma CountsRoundTrip(c: Counts)
    ensures ParseCounts(CountsText(c)) == Some(c)
  {
    var t3 := IntText(c.skipped) + " skipped";
    var t2 := IntText(c.aborted) + (" aborted | " + t3);
    var t1 := IntText(c.failed) + (" failed | " + t2);
    ScanFieldOf(c.cases, " total | ", t1);
    ScanFieldOf(c.failed, " failed | ", t2);
    ScanFieldOf(c.aborted, " aborted | ", t3);
    assert IntText(c.skipped) + (" skipped" + []) == t3;
    ScanFieldOf(c.skipped, " skipped", []);
  }

  /** Reads a status line back into the status and the four counts. */
  function ParseStatusLine(line: string): Option<(Status, Counts)> {
    var r0 :- DropPrefix("> ", line);
    ParseStatusTail(r0)
  }

  /** The status and all four counts can be read back from the status line. */
  lemma StatusLineRoundTrip(st: Status, c: Counts)
    ensures ParseStatusLine(StatusLine(st, c)) == Some((st, c))
  {
    var t0 := [Glyph(st)] + (" *Tests:* " + CountsText(c));
    DropPrefixOf("> ", t0);
    assert DropPrefix("> ", StatusLine(st, c)) == Some(t0);
    assert t0[0] == Glyph(st) && t0[1..] == " *Tests:* " + CountsText(c);
    DropPrefixOf(" *Tests:* ", CountsText(c));
    CountsRoundTrip(c);
    assert ParseStatusLine(StatusLine(st, c)) == ParseStatusTail(t0);
  }

  /** `ParseStatusLine` after the leading `> `. */
  function ParseStatusTail(r0: string): Option<(Status, Counts)> {
    if r0 == [] || (r0[0] != FailGlyph && r0[0] != PassGlyph) then None
    else
      var st := if r0[0] == FailGlyph then Failed else Passed;
      var r1 :- DropPrefix(" *Tests:* ", r0[1..]);
      var c :- ParseCounts(r1);
      Some((st, c))
  }

  /** The lines before the status line, each ended by a newline. */
  function Header(f: Fields): string {
    "*Test Report Notification*\n"
    + "> \U{1F916} *System:* " + f.system + "\n"
    + "> \U{1F9F1} *Pipeline:* <" + f.pipelineUrl + "|" + f.pipelineName + ">\n"
    + "> \U{1F4C4} *Test Report:* <" + f.reportUrl + "|View Report>\n"
  }

  /** The whole message posted to Slack. */
  function MessageText(f: Fields): string {
    Header(f) + StatusLine(f.status, f.counts)
    + "\n> \U{23F1}\U{FE0F} *Elapsed Time:* " + f.elapsed + "s"
  }

  /**
   * The message always holds the complete status line right after the
   * header, so its status and all four counts can be read back from it.
   */
  lemma MessageCarriesStatus(f: Fields)
    ensures |Header(f)| + |StatusLine(f.status, f.counts)| <= |MessageText(f)|
    ensures ParseStatusLine(MessageText(f)[|Header(f)|..|Header(f)| + |StatusLine(f.status, f.counts)|])
            == Some((f.status, f.counts))
  {
    var h := Header(f);
    var line := StatusLine(f.status, f.counts);
    var tail := "\n> \U{23F1}\U{FE0F} *Elapsed Time:* " + f.elapsed + "s";
    assert MessageText(f) == h + line + tail;
    assert (h + line + tail)[|h|..|h| + |line|] == line;
    StatusLineRoundTrip(f.status, f.counts);
  }

  /**
   * A report with 10 cases, 2 failures, none aborted and 1 skipped, on system
   * TestSys: the message names the system and shows the failure glyph and
   * the four counts.
   */
  lemma FailedRunExample(showElapsed: real -> string)
    ensures var f := ComposeFields(Session(Some(10), Some(2), Some(0), Some(1), Some(12.345)),
                                   map["SLACK_WEBHOOK_URL" := "https://example/hook",
                                       "FIRECREST_SYSTEM" := "TestSys"], showElapsed);
            && f.system == "TestSys" && f.status == Failed && Glyph(f.status) == FailGlyph
            && ParseStatusLine(StatusLine(f.status, f.counts)) == Some((Failed, Counts(10, 2, 0, 1)))
  {
    StatusLineRoundTrip(Failed, Counts(10, 2, 0, 1));
  }

  /** The line printed after the POST: confirmation, the response body, or the exception. */
  function DeliveryLine(r: Response): string {
    match r
    case Response(status, body) =>
      if status != 200 then [FailGlyph] + " Failed to send Slack message: " + body else SentText
    case Raised(cause) => [FailGlyph] + " Error sending message to Slack: " + cause
  }

  // ---------------------------------------------------------------------
  // main

  /**
   * `main`: usage, file and webhook errors exit 1 before anything is posted;
   * otherwise exactly one POST is made and the run exits 0 whatever the
   * webhook answers.
   */
  method RunNotifier(argv: seq<string>, load: string -> LoadResult, env: map<string, string>,
                     post: Post -> Response, showElapsed: real -> string)
    returns (o: Outcome)
    ensures |argv| != 2 ==> o == Outcome(1, None, false, None, [UsageText])
    ensures |argv| == 2 && load(argv[1]).Unreadable? ==>
              o == Outcome(1, Some(argv[1]), false, None, [ReadFailureText(load(argv[1]).cause)])
    ensures |argv| == 2 && load(argv[1]).Loaded? && !HasWebhook(env) ==>
              o == Outcome(1, Some(argv[1]), true, None, [MissingWebhookText])
    ensures |argv| == 2 && load(argv[1]).Loaded? && HasWebhook(env) ==>
              var f := ComposeFields(SessionOf(load(argv[1]).sessionInfo), env, showElapsed);
              var request := Post(env["SLACK_WEBHOOK_URL"], MessageText(f));
              o == Outcome(0, Some(argv[1]), true, Some(request), [DeliveryLine(post(request))])
    ensures o.exitCode == 0 <==> o.post.Some?
    ensures o.exitCode == 0 || o.exitCode == 1
  {
    if |argv| != 2 {
      return Outcome(1, None, false, None, [UsageText]);
    }
    var jsonPath := argv[1];
    var data := load(jsonPath);
    if data.Unreadable? {
      return Outcome(1, Some(jsonPath), false, None, [ReadFailureText(data.cause)]);
    }
    var session := SessionOf(data.sessionInfo);

    var system := EnvOr(env, "FIRECREST_SYSTEM", "Unknown System");
    var slackUrl := if "SLACK_WEBHOOK_URL" in env then Some(env["SLACK_WEBHOOK_URL"]) else None;
    var pipelineName := EnvOr(env, "CI_PROJECT_PATH", "Unknown Pipeline");
    var pipelineUrl := EnvOr(env, "CI_PIPELINE_URL", "#");
    var testReportUrl := pipelineUrl + "/test_report";

    if slackUrl == None || slackUrl.value == "" {
      return Outcome(1, Some(jsonPath), true, None, [MissingWebhookText]);
    }

    var status := if CountOr0(session.numFailures) > 0 || CountOr0(session.numAborted) > 0
                  then Failed else Passed;
    var fields := Fields(system, pipelineName, pipelineUrl, testReportUrl, status,
                         CountsOf(session), ElapsedText(session.timeElapsed, showElapsed));
    var message := MessageText(fields);

    var request := Post(slackUrl.value, message);
    var response := post(request);
    o := Outcome(0, Some(jsonPath), true, Some(request), [DeliveryLine(response)]);
  }
}
