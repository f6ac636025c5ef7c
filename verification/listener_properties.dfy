/**
 * Properties of the listener's hooks that relate a whole trace to the
 * listener's state: the order of the filter phases at suite start, and the
 * dispatch of `afterSuite` over the reports map.
 */
module ListenerProperties {
  import opened Wrappers
  import opened CoverageEvents
  import opened CoverageOptions
  import opened CodeCoverageListener

  // ---------------------------------------------------------------- beforeSuite

  /** The paths a run of `FilterCalls(op, …)` hands to each filter operation. */
  lemma {:induction false} FilterPathsOfCalls(op: FilterOp, paths: seq<string>, op': FilterOp)
    ensures FilterPaths(FilterCalls(op, paths), op') == (if op == op' then paths else [])
  {
    if paths != [] {
      var e := Filter(op, paths[0]);
      assert FilterCalls(op, paths) == [e] + FilterCalls(op, paths[1..]);
      FilterPathsAppend([e], FilterCalls(op, paths[1..]), op');
      assert [e][1..] == [];
      FilterPathsOfCalls(op, paths[1..], op');
      if op == op' {
        assert [paths[0]] + paths[1..] == paths;
      }
    }
  }

  /**
   * `beforeSuite` hands each filter operation exactly its option list, whole
   * and in list order, when enabled, and makes no filter call when disabled.
   */
  lemma {:induction false} BeforeSuitePaths(l: Listener, op: FilterOp)
    ensures FilterPaths(BeforeSuite(l), op) == (if l.enabled then PhaseList(l.options, op) else [])
  {
    if l.enabled {
      var a := FilterCalls(AddDirectoryToWhitelist, l.options.whitelist);
      var b := FilterCalls(RemoveDirectoryFromWhitelist, l.options.blacklist);
      var c := FilterCalls(AddFileToWhitelist, l.options.whitelistFiles);
      var d := FilterCalls(RemoveFileFromWhitelist, l.options.blacklistFiles);
      assert BeforeSuite(l) == a + b + c + d;
      FilterPathsAppend(a + b + c, d, op);
      FilterPathsAppend(a + b, c, op);
      FilterPathsAppend(a, b, op);
      FilterPathsOfCalls(AddDirectoryToWhitelist, l.options.whitelist, op);
      FilterPathsOfCalls(RemoveDirectoryFromWhitelist, l.options.blacklist, op);
      FilterPathsOfCalls(AddFileToWhitelist, l.options.whitelistFiles, op);
      FilterPathsOfCalls(RemoveFileFromWhitelist, l.options.blacklistFiles, op);
    }
  }

  /** Filter calls appear phase by phase: no call of an earlier phase follows one of a later phase. */
  ghost predicate PhaseOrdered(t: seq<Event>) {
    forall i, j :: 0 <= i < j < |t| && t[i].Filter? && t[j].Filter? ==> t[i].op.Phase() <= t[j].op.Phase()
  }

  /**
   * The phases of `beforeSuite` run in the fixed order: add directories,
   * remove directories, add files, remove files.
   */
  lemma BeforeSuiteOrdered(l: Listener)
    ensures PhaseOrdered(BeforeSuite(l))
  {
  }

  // ---------------------------------------------------------------- afterSuite

  /** How the report loop dispatches one report: by the report's type, never by its key. */
  function Dispatch(r: Report): Call {
    if r.kind.TextReport? then TextCall(r.format) else FileCall(r.format)
  }

  function Dispatches(rs: seq<Report>): seq<Call> {
    if rs == [] then [] else [Dispatch(rs[0])] + Dispatches(rs[1..])
  }

  /**
   * The console lines the report loop should produce, reading only the
   * reports: a progress line per report on a verbose console, and the
   * returned text of every text report.
   */
  function ExpectedLines(rs: seq<Report>, verbose: bool, decorated: bool): seq<string> {
    if rs == [] then []
    else
      (if verbose then [GeneratingMessage(rs[0].format)] else [])
      + (if rs[0].kind.TextReport? then [rs[0].kind.Rendered(decorated)] else [])
      + ExpectedLines(rs[1..], verbose, decorated)
  }

  /**
   * What each report invocation at position `i` of a trace must look like:
   * announced by its progress line on a verbose console; a text invocation
   * gets the decorated flag and is followed by the line that a text report
   * of that key in `rs` returns; a file invocation gets the `output` entry
   * of its key and comes from a file report of that key in `rs`.
   */
  ghost predicate DispatchedAt(t: seq<Event>, i: int, rs: seq<Report>, output: map<string, string>, verbose: bool, decorated: bool)
    requires 0 <= i < |t| && t[i].IsProcess()
  {
    && (verbose ==> 0 < i && t[i - 1] == WriteLine(GeneratingMessage(t[i].format)))
    && (t[i].ProcessText? ==>
          && t[i].colors == decorated
          && i + 1 < |t|
          && exists p, c :: Report(t[i].format, TextReport(p, c)) in rs
                            && t[i + 1] == WriteLine(TextReport(p, c).Rendered(decorated)))
    && (t[i].ProcessFile? ==>
          && Report(t[i].format, FileReport) in rs
          && t[i].target == Target(output, t[i].format))
  }

  ghost predicate Dispatched(t: seq<Event>, rs: seq<Report>, output: map<string, string>, verbose: bool, decorated: bool) {
    forall i :: 0 <= i < |t| && t[i].IsProcess() ==> DispatchedAt(t, i, rs, output, verbose, decorated)
  }

  lemma DispatchedAppend(a: seq<Event>, b: seq<Event>, rs: seq<Report>, output: map<string, string>, verbose: bool, decorated: bool)
    requires Dispatched(a, rs, output, verbose, decorated)
    requires Dispatched(b, rs, output, verbose, decorated)
    requires Announceable(b, verbose)
    ensures Dispatched(a + b, rs, output, verbose, decorated)
  {
  }

  lemma DispatchedWiden(t: seq<Event>, rs: seq<Report>, rs': seq<Report>, output: map<string, string>, verbose: bool, decorated: bool)
    requires Dispatched(t, rs, output, verbose, decorated)
    requires forall r :: r in rs ==> r in rs'
    ensures Dispatched(t, rs', output, verbose, decorated)
  {
  }

  /** The invocation one iteration of the report loop makes. */
  lemma {:induction false} ReportTraceCalls(r: Report, output: map<string, string>, verbose: bool, decorated: bool)
    ensures Calls(ReportTrace(r, output, verbose, decorated)) == [Dispatch(r)]
  {
    var pre: seq<Event> := if verbose then [WriteLine(GeneratingMessage(r.format))] else [];
    var body: seq<Event> :=
      match r.kind
      case TextReport(_, _) => [ProcessText(r.format, decorated), WriteLine(r.kind.Rendered(decorated))]
      case FileReport => [ProcessFile(r.format, Target(output, r.format))];
    assert ReportTrace(r, output, verbose, decorated) == pre + body;
    ProjectAppend(pre, body, ReportCall);
    if verbose {
      ProjectOne(WriteLine(GeneratingMessage(r.format)), ReportCall);
    }
    if r.kind.TextReport? {
      var e0 := ProcessText(r.format, decorated);
      var e1 := WriteLine(r.kind.Rendered(decorated));
      assert body == [e0] + [e1];
      ProjectAppend([e0], [e1], ReportCall);
      ProjectOne(e0, ReportCall);
      ProjectOne(e1, ReportCall);
    } else {
      ProjectOne(ProcessFile(r.format, Target(output, r.format)), ReportCall);
    }
  }

  /** The console lines one iteration of the report loop writes. */
  lemma {:induction false} ReportTraceWrites(r: Report, output: map<string, string>, verbose: bool, decorated: bool)
    ensures Writes(ReportTrace(r, output, verbose, decorated))
         == (if verbose then [GeneratingMessage(r.format)] else [])
            + (if r.kind.TextReport? then [r.kind.Rendered(decorated)] else [])
  {
    var pre: seq<Event> := if verbose then [WriteLine(GeneratingMessage(r.format))] else [];
    var body: seq<Event> :=
      match r.kind
      case TextReport(_, _) => [ProcessText(r.format, decorated), WriteLine(r.kind.Rendered(decorated))]
      case FileReport => [ProcessFile(r.format, Target(output, r.format))];
    assert ReportTrace(r, output, verbose, decorated) == pre + body;
    ProjectAppend(pre, body, WrittenText);
    if verbose {
      ProjectOne(WriteLine(GeneratingMessage(r.format)), WrittenText);
    }
    if r.kind.TextReport? {
      var e0 := ProcessText(r.format, decorated);
      var e1 := WriteLine(r.kind.Rendered(decorated));
      assert body == [e0] + [e1];
      ProjectAppend([e0], [e1], WrittenText);
      ProjectOne(e0, WrittenText);
      ProjectOne(e1, WrittenText);
    } else {
      ProjectOne(ProcessFile(r.format, Target(output, r.format)), WrittenText);
    }
  }

  /** No invocation opens a verbose iteration: its progress line comes first. */
  ghost predicate Announceable(t: seq<Event>, verbose: bool) {
    verbose ==> forall i :: 0 <= i < |t| && t[i].IsProcess() ==> 0 < i
  }

  /** The shape of the one invocation of an iteration of the report loop. */
  lemma ReportTraceDispatched(r: Report, output: map<string, string>, verbose: bool, decorated: bool)
    ensures Dispatched(ReportTrace(r, output, verbose, decorated), [r], output, verbose, decorated)
    ensures Announceable(ReportTrace(r, output, verbose, decorated), verbose)
  {
  }

  /** The whole report loop, by induction over the reports map. */
  lemma {:induction false} ReportsTraceFacts(rs: seq<Report>, output: map<string, string>, verbose: bool, decorated: bool)
    ensures Calls(ReportsTrace(rs, output, verbose, decorated)) == Dispatches(rs)
    ensures Writes(ReportsTrace(rs, output, verbose, decorated)) == ExpectedLines(rs, verbose, decorated)
    ensures Dispatched(ReportsTrace(rs, output, verbose, decorated), rs, output, verbose, decorated)
    ensures Announceable(ReportsTrace(rs, output, verbose, decorated), verbose)
  {
    if rs != [] {
      var head := ReportTrace(rs[0], output, verbose, decorated);
      var tail := ReportsTrace(rs[1..], output, verbose, decorated);
      ReportTraceCalls(rs[0], output, verbose, decorated);
      ReportTraceWrites(rs[0], output, verbose, decorated);
      ReportTraceDispatched(rs[0], output, verbose, decorated);
      ReportsTraceFacts(rs[1..], output, verbose, decorated);
      ProjectAppend(head, tail, ReportCall);
      ProjectAppend(head, tail, WrittenText);
      DispatchedWiden(head, [rs[0]], rs, output, verbose, decorated);
      DispatchedWiden(tail, rs[1..], rs, output, verbose, decorated);
      DispatchedAppend(head, tail, rs, output, verbose, decorated);
      var t := head + tail;
      if verbose {
        forall i | 0 <= i < |t| && t[i].IsProcess() ensures 0 < i {
          if i >= |head| {
            assert t[i] == tail[i - |head|];
          } else {
            assert t[i] == head[i];
          }
        }
      }
    }
  }

  /** Dispatching a reports map touches each of its keys once, in map order. */
  lemma {:induction false} DispatchFormats(rs: seq<Report>)
    ensures CallFormats(Dispatches(rs)) == Formats(rs)
  {
    if rs != [] {
      DispatchFormats(rs[1..]);
    }
  }

  /** In a sequence without repeats every element occurs once and nothing else occurs. */
  lemma {:induction false} DistinctOccurrences(fs: seq<string>, f: string)
    requires forall i, j :: 0 <= i < j < |fs| ==> fs[i] != fs[j]
    ensures multiset(fs)[f] == (if f in fs then 1 else 0)
  {
    if fs != [] {
      assert fs == [fs[0]] + fs[1..];
      DistinctOccurrences(fs[1..], f);
      if f == fs[0] {
        assert f !in fs[1..];
      }
    }
  }

  /**
   * Which reports `afterSuite` invokes: none when a disabled listener meets a
   * verbose console, and otherwise every entry of the reports map, in map
   * order, each dispatched as text exactly when it is a text report.
   */
  lemma {:induction false} AfterSuiteCalls(l: Listener, verbose: bool, decorated: bool)
    ensures Calls(AfterSuite(l, verbose, decorated)) == (if Generates(l, verbose) then Dispatches(l.reports) else [])
  {
    if Generates(l, verbose) {
      var pre: seq<Event> := if verbose then [WriteLine("")] else [];
      var loop := ReportsTrace(l.reports, l.options.output, verbose, decorated);
      assert AfterSuite(l, verbose, decorated) == pre + loop;
      ReportsTraceFacts(l.reports, l.options.output, verbose, decorated);
      ProjectAppend(pre, loop, ReportCall);
      if verbose {
        ProjectOne(WriteLine(""), ReportCall);
      }
    }
  }

  /**
   * The formats `afterSuite` generates are the keys of the reports map, in
   * map order. The `format` option plays no part: a format listed there but
   * missing from the map is never generated.
   */
  lemma {:induction false} EveryReportInOrder(l: Listener, verbose: bool, decorated: bool)
    requires Generates(l, verbose)
    ensures CallFormats(Calls(AfterSuite(l, verbose, decorated))) == Formats(l.reports)
  {
    AfterSuiteCalls(l, verbose, decorated);
    DispatchFormats(l.reports);
  }

  /** Each key of the reports map is generated exactly once, and nothing else is generated. */
  lemma {:induction false} EveryReportOnce(l: Listener, verbose: bool, decorated: bool, f: string)
    requires Generates(l, verbose)
    ensures multiset(CallFormats(Calls(AfterSuite(l, verbose, decorated))))[f] == (if f in Formats(l.reports) then 1 else 0)
  {
    EveryReportInOrder(l, verbose, decorated);
    var fs := Formats(l.reports);
    assert DistinctFormats(l.reports);
    forall i, j | 0 <= i < j < |fs| ensures fs[i] != fs[j] {
    }
    DistinctOccurrences(fs, f);
  }

  /** The console output of `afterSuite`, line by line. */
  lemma {:induction false} AfterSuiteWrites(l: Listener, verbose: bool, decorated: bool)
    ensures Writes(AfterSuite(l, verbose, decorated))
         == if !Generates(l, verbose) then [NoDriverMessage]
            else (if verbose then [""] else []) + ExpectedLines(l.reports, verbose, decorated)
  {
    if Generates(l, verbose) {
      var pre: seq<Event> := if verbose then [WriteLine("")] else [];
      var loop := ReportsTrace(l.reports, l.options.output, verbose, decorated);
      assert AfterSuite(l, verbose, decorated) == pre + loop;
      ReportsTraceFacts(l.reports, l.options.output, verbose, decorated);
      ProjectAppend(pre, loop, WrittenText);
      if verbose {
        ProjectOne(WriteLine(""), WrittenText);
      }
    }
  }

  /** A quiet console sees no line at all when every report writes its own files. */
  lemma {:induction false} FileReportsAreSilent(l: Listener, decorated: bool)
    requires forall i :: 0 <= i < |l.reports| ==> l.reports[i].kind.FileReport?
    ensures Writes(AfterSuite(l, false, decorated)) == []
  {
    AfterSuiteWrites(l, false, decorated);
    QuietLinesOfFileReports(l.reports, decorated);
  }

  lemma {:induction false} QuietLinesOfFileReports(rs: seq<Report>, decorated: bool)
    requires forall i :: 0 <= i < |rs| ==> rs[i].kind.FileReport?
    ensures ExpectedLines(rs, false, decorated) == []
  {
    if rs != [] {
      assert rs[0].kind.FileReport?;
      QuietLinesOfFileReports(rs[1..], decorated);
    }
  }

  /**
   * The shape of every report invocation of `afterSuite` (see
   * `DispatchedAt`), and on a verbose console the blank line that opens the
   * report output.
   */
  lemma {:induction false} AfterSuiteDispatched(l: Listener, verbose: bool, decorated: bool)
    requires Generates(l, verbose)
    ensures Dispatched(AfterSuite(l, verbose, decorated), l.reports, l.options.output, verbose, decorated)
    ensures verbose ==> AfterSuite(l, verbose, decorated)[0] == WriteLine("")
  {
    var pre: seq<Event> := if verbose then [WriteLine("")] else [];
    var loop := ReportsTrace(l.reports, l.options.output, verbose, decorated);
    assert AfterSuite(l, verbose, decorated) == pre + loop;
    ReportsTraceFacts(l.reports, l.options.output, verbose, decorated);
    DispatchedAppend(pre, loop, l.reports, l.options.output, verbose, decorated);
  }

  /** Disabled does not mean silent: on a quiet console a disabled listener generates its reports as an enabled one does. */
  lemma DisabledQuietFallsThrough(l: Listener, decorated: bool)
    ensures AfterSuite(l, false, decorated) == AfterSuite(l.(enabled := true), false, decorated)
  {
  }

  /** The hooks never read the `format` option. */
  lemma FormatOptionUnread(l: Listener, formats: seq<string>, verbose: bool, decorated: bool)
    ensures BeforeSuite(l.(options := l.options.(format := formats))) == BeforeSuite(l)
    ensures AfterSuite(l.(options := l.options.(format := formats)), verbose, decorated) == AfterSuite(l, verbose, decorated)
  {
  }
}
