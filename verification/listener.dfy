/**
 * The coverage listener: a write-once `enabled` flag, an options record and
 * an ordered map from format name to report, reacting to the test runner's
 * four lifecycle hooks. Each hook is a pure function from the listener (and
 * the console flags or example names it would read) to the ordered trace of
 * collaborator calls it makes.
 */
module CodeCoverageListener {
  import opened Wrappers
  import opened CoverageEvents
  import opened CoverageOptions
  import SessionLabel

  /**
   * What a report generator is. A text report is recognised by its type and
   * returns the rendered text; it is modelled by the two strings it returns
   * when asked for plain and for coloured output. Every other report writes
   * its own files and is opaque here.
   */
  datatype ReportKind = TextReport(plain: string, colored: string) | FileReport
  {
    /** The string a text report returns for the console's decorated flag. */
    function Rendered(decorated: bool): string
      requires TextReport?
    {
      if decorated then colored else plain
    }
  }

  /** One entry of the constructor's `$reports` map: format name => report. */
  datatype Report = Report(format: string, kind: ReportKind)

  /** The reports map: entries in insertion order, each format key at most once, as in a PHP array. */
  type ReportMap = rs: seq<Report> | DistinctFormats(rs) witness []

  datatype Listener = Listener(enabled: bool, options: Options, reports: ReportMap)

  const NoDriverMessage: string := "Did not detect Xdebug extension or phpdbg. No code coverage will be generated."

  function GeneratingMessage(format: string): string {
    "Generating code coverage report in " + format + " format ..."
  }

  /** The format keys of a report map, in map order. */
  function Formats(rs: seq<Report>): (fs: seq<string>)
    ensures |fs| == |rs|
    ensures forall i :: 0 <= i < |rs| ==> fs[i] == rs[i].format
  {
    if rs == [] then [] else [rs[0].format] + Formats(rs[1..])
  }

  /** PHP array keys are unique. */
  predicate DistinctFormats(rs: seq<Report>) {
    forall i, j :: 0 <= i < j < |rs| ==> rs[i].format != rs[j].format
  }

  /**
   * The constructor. `enabled` is the result of the environment probe for a
   * coverage driver, taken as a parameter; it is never changed afterwards.
   */
  function New(enabled: bool, reports: ReportMap): (l: Listener)
    ensures l.enabled == enabled && l.reports == reports
    ensures l.options.whitelist == ["src", "lib"]
    ensures l.options.blacklist == ["test", "vendor", "spec"]
    ensures l.options.whitelistFiles == [] && l.options.blacklistFiles == []
    ensures l.options.output == map["html" := "coverage"]
    ensures l.options.format == ["html"]
  {
    Listener(enabled, Defaults(), reports)
  }

  /**
   * `setOptions`: the argument's keys replace the stored values wholesale,
   * absent keys keep what the listener held; the enabled flag and the reports
   * map are untouched.
   */
  function SetOptions(l: Listener, p: Patch): (r: Listener)
    ensures r.enabled == l.enabled && r.reports == l.reports
    ensures forall k: Key :: r.options.Get(k) == (if p.Get(k).Some? then p.Get(k).value else l.options.Get(k))
  {
    l.(options := Apply(l.options, p))
  }

  /** One filter call per path, in list order (`array_map` over the list). */
  function FilterCalls(op: FilterOp, paths: seq<string>): (t: seq<Event>)
    ensures |t| == |paths|
    ensures forall i :: 0 <= i < |t| ==> t[i] == Filter(op, paths[i])
  {
    if paths == [] then [] else [Filter(op, paths[0])] + FilterCalls(op, paths[1..])
  }

  /** The option list whose entries each filter operation receives. */
  function PhaseList(o: Options, op: FilterOp): seq<string> {
    match op
    case AddDirectoryToWhitelist => o.whitelist
    case RemoveDirectoryFromWhitelist => o.blacklist
    case AddFileToWhitelist => o.whitelistFiles
    case RemoveFileFromWhitelist => o.blacklistFiles
  }

  /** `beforeSuite`: nothing when disabled, otherwise the four filter phases in order. */
  function BeforeSuite(l: Listener): (t: seq<Event>)
    ensures !l.enabled ==> t == []
    ensures l.enabled ==> |t| == |l.options.whitelist| + |l.options.blacklist|
                                 + |l.options.whitelistFiles| + |l.options.blacklistFiles|
    ensures forall i :: 0 <= i < |t| ==> t[i].Filter?
  {
    if !l.enabled then []
    else
      FilterCalls(AddDirectoryToWhitelist, l.options.whitelist)
      + FilterCalls(RemoveDirectoryFromWhitelist, l.options.blacklist)
      + FilterCalls(AddFileToWhitelist, l.options.whitelistFiles)
      + FilterCalls(RemoveFileFromWhitelist, l.options.blacklistFiles)
  }

  /** `beforeExample`: when enabled, starts one session named after the example. */
  function BeforeExample(l: Listener, spec: string, example: string): (t: seq<Event>)
    ensures |t| == (if l.enabled then 1 else 0)
    ensures forall i :: 0 <= i < |t| ==> t[i].Start?
    ensures Labels(t) == (if l.enabled then [SessionLabel.Label(spec, example)] else [])
  {
    if l.enabled then
      var e := Start(SessionLabel.Label(spec, example));
      ProjectOne(e, StartLabel);
      [e]
    else []
  }

  /** `afterExample`: when enabled, stops the session. */
  function AfterExample(l: Listener): (t: seq<Event>)
    ensures |t| == (if l.enabled then 1 else 0)
    ensures forall i :: 0 <= i < |t| ==> t[i] == Stop
  {
    if l.enabled then [Stop] else []
  }

  /** The PHP value of `$this->options['output'][$format]`: the target, or `null` when the key is missing. */
  function Target(output: map<string, string>, format: string): (r: Option<string>)
    ensures r.Some? <==> format in output
    ensures r.Some? ==> r.value == output[format]
  {
    if format in output then Some(output[format]) else None
  }

  /** One iteration of the report loop of `afterSuite`. */
  function ReportTrace(r: Report, output: map<string, string>, verbose: bool, decorated: bool): seq<Event> {
    (if verbose then [WriteLine(GeneratingMessage(r.format))] else [])
    + match r.kind
      case TextReport(_, _) => [ProcessText(r.format, decorated), WriteLine(r.kind.Rendered(decorated))]
      case FileReport => [ProcessFile(r.format, Target(output, r.format))]
  }

  /** The report loop of `afterSuite`, over the reports map in map order. */
  function ReportsTrace(rs: seq<Report>, output: map<string, string>, verbose: bool, decorated: bool): (t: seq<Event>)
    ensures forall i :: 0 <= i < |t| ==> t[i].WriteLine? || t[i].IsProcess()
  {
    if rs == [] then []
    else ReportTrace(rs[0], output, verbose, decorated) + ReportsTrace(rs[1..], output, verbose, decorated)
  }

  /** Whether `afterSuite` reaches the report loop. */
  predicate Generates(l: Listener, verbose: bool) {
    l.enabled || !verbose
  }

  /**
   * `afterSuite`. Only a disabled listener on a verbose console stops early,
   * with one diagnostic line; a disabled listener on a quiet console falls
   * through to report generation exactly as an enabled one does.
   */
  function AfterSuite(l: Listener, verbose: bool, decorated: bool): (t: seq<Event>)
    ensures !l.enabled && verbose ==> Writes(t) == [NoDriverMessage] && Calls(t) == []
    ensures verbose && l.enabled ==> |t| > 0 && t[0] == WriteLine("")
    ensures forall i :: 0 <= i < |t| ==> t[i].WriteLine? || t[i].IsProcess()
  {
    if !l.enabled && verbose then
      var e := WriteLine(NoDriverMessage);
      ProjectOne(e, WrittenText);
      ProjectOne(e, ReportCall);
      [e]
    else
      (if verbose then [WriteLine("")] else []) + ReportsTrace(l.reports, l.options.output, verbose, decorated)
  }
}
