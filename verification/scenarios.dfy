/**
 * The behaviours the listener's own test suite exercises, each stated as the
 * exact trace the model produces for that test's set-up.
 */
module ListenerScenarios {
  import opened Wrappers
  import opened CoverageEvents
  import opened CoverageOptions
  import opened CodeCoverageListener

  function OnlyFormatAndOutput(format: seq<string>, output: map<string, string>): Patch {
    EmptyPatch.(format := Some(format), output := Some(output))
  }

  /** On a quiet console, one file report whose key has a target makes exactly one call, with that target. */
  lemma QuietFileReport(format: string, output: map<string, string>, decorated: bool)
    requires format in output
    ensures ReportTrace(Report(format, FileReport), output, false, decorated) == [ProcessFile(format, Some(output[format]))]
  {
  }

  /** A fresh, enabled listener whitelists `src` and `lib`, then blacklists `test`, `vendor` and `spec`. */
  lemma FreshListenerFilters()
    ensures BeforeSuite(New(true, []))
         == [ Filter(AddDirectoryToWhitelist, "src"), Filter(AddDirectoryToWhitelist, "lib"),
              Filter(RemoveDirectoryFromWhitelist, "test"), Filter(RemoveDirectoryFromWhitelist, "vendor"),
              Filter(RemoveDirectoryFromWhitelist, "spec") ]
  {
  }

  function FourFileReports(): seq<Report> {
    [Report("html", FileReport), Report("clover", FileReport), Report("xml", FileReport), Report("php", FileReport)]
  }

  function FourTargets(): map<string, string> {
    map["html" := "coverage", "clover" := "coverage.xml", "php" := "coverage.php", "xml" := "coverage"]
  }

  /** The report loop over four file reports that each have a target. */
  lemma FourFileReportsLoop(decorated: bool)
    ensures ReportsTrace(FourFileReports(), FourTargets(), false, decorated)
         == [ ProcessFile("html", Some("coverage")), ProcessFile("clover", Some("coverage.xml")),
              ProcessFile("xml", Some("coverage")), ProcessFile("php", Some("coverage.php")) ]
  {
    var reports := FourFileReports();
    var output := FourTargets();
    QuietFileReport("html", output, decorated);
    QuietFileReport("clover", output, decorated);
    QuietFileReport("xml", output, decorated);
    QuietFileReport("php", output, decorated);
    var t3 := ReportsTrace(reports[3..], output, false, decorated);
    assert reports[3..] == [Report("php", FileReport)] && reports[3..][1..] == [];
    assert output["php"] == "coverage.php";
    assert t3 == ReportTrace(Report("php", FileReport), output, false, decorated) + ReportsTrace([], output, false, decorated);
    assert t3 == [ProcessFile("php", Some("coverage.php"))];
    var t2 := ReportsTrace(reports[2..], output, false, decorated);
    assert reports[2..][1..] == reports[3..];
    assert t2 == [ProcessFile("xml", Some("coverage"))] + t3;
    var t1 := ReportsTrace(reports[1..], output, false, decorated);
    assert reports[1..][1..] == reports[2..];
    assert t1 == [ProcessFile("clover", Some("coverage.xml"))] + t2;
    assert ReportsTrace(reports, output, false, decorated) == [ProcessFile("html", Some("coverage"))] + t1;
  }

  /**
   * Four file reports with a target each are all generated with their own
   * target, in the order of the reports map; `text`, listed among the
   * formats but absent from the map, is not generated, and a quiet console
   * sees nothing.
   */
  lemma RunsAllReports(decorated: bool)
    ensures
      var l := SetOptions(New(true, FourFileReports()), OnlyFormatAndOutput(["text", "html", "clover", "php", "xml"], FourTargets()));
      AfterSuite(l, false, decorated)
        == [ ProcessFile("html", Some("coverage")), ProcessFile("clover", Some("coverage.xml")),
             ProcessFile("xml", Some("coverage")), ProcessFile("php", Some("coverage.php")) ]
  {
    var l := SetOptions(New(true, FourFileReports()), OnlyFormatAndOutput(["text", "html", "clover", "php", "xml"], FourTargets()));
    FourFileReportsLoop(decorated);
    assert AfterSuite(l, false, decorated) == [] + ReportsTrace(FourFileReports(), FourTargets(), false, decorated);
  }

  /** A text report is asked for the console's decorated flag and its text is written as one line. */
  lemma TextReportFollowsDecoration(plain: string, colored: string, decorated: bool)
    ensures
      var l := SetOptions(New(true, [Report("text", TextReport(plain, colored))]), EmptyPatch.(format := Some(["text"])));
      AfterSuite(l, false, decorated)
        == [ProcessText("text", decorated), WriteLine(if decorated then colored else plain)]
  {
    var r := Report("text", TextReport(plain, colored));
    var l := SetOptions(New(true, [r]), EmptyPatch.(format := Some(["text"])));
    var t := [ProcessText("text", decorated), WriteLine(if decorated then colored else plain)];
    assert [r][1..] == [];
    assert ReportTrace(r, l.options.output, false, decorated) == [] + t;
    assert ReportsTrace([r], l.options.output, false, decorated) == t + [];
    assert AfterSuite(l, false, decorated) == [] + t;
  }

  /** A quiet console sees nothing while the html report is generated into its target. */
  lemma HtmlReportIsQuiet(decorated: bool)
    ensures
      var l := SetOptions(New(true, [Report("html", FileReport)]), OnlyFormatAndOutput(["html"], map["html" := "coverage"]));
      AfterSuite(l, false, decorated) == [ProcessFile("html", Some("coverage"))]
  {
    assert [Report("html", FileReport)][1..] == [];
  }

  /**
   * A verbose console gets a blank line, then the progress line, then the
   * report runs. This holds for a listener with a coverage driver; without
   * one, a verbose console gets only the diagnostic line.
   */
  lemma VerboseAnnouncesReports(decorated: bool)
    ensures
      var l := SetOptions(New(true, [Report("html", FileReport)]), OnlyFormatAndOutput(["html"], map["html" := "coverage"]));
      AfterSuite(l, true, decorated)
        == [ WriteLine(""), WriteLine("Generating code coverage report in html format ..."),
             ProcessFile("html", Some("coverage")) ]
  {
    var r := Report("html", FileReport);
    var l := SetOptions(New(true, [r]), OnlyFormatAndOutput(["html"], map["html" := "coverage"]));
    var t := [WriteLine("Generating code coverage report in html format ..."), ProcessFile("html", Some("coverage"))];
    assert [r][1..] == [];
    assert GeneratingMessage("html") == "Generating code coverage report in html format ...";
    assert ReportTrace(r, l.options.output, true, decorated) == t;
    assert ReportsTrace([r], l.options.output, true, decorated) == t + [];
  }

  /**
   * Configured lists replace the defaults and reach the filter phase by
   * phase. This holds for a listener with a coverage driver; without one,
   * `beforeSuite` makes no filter call.
   */
  lemma ConfiguredFilters()
    ensures
      var p := EmptyPatch.(whitelist := Some(["src"]), blacklist := Some(["src/filter"]),
                           whitelistFiles := Some(["src/filter/whilelisted_file"]),
                           blacklistFiles := Some(["src/filtered_file"]));
      BeforeSuite(SetOptions(New(true, []), p))
        == [ Filter(AddDirectoryToWhitelist, "src"), Filter(RemoveDirectoryFromWhitelist, "src/filter"),
             Filter(AddFileToWhitelist, "src/filter/whilelisted_file"),
             Filter(RemoveFileFromWhitelist, "src/filtered_file") ]
  {
  }

  /** Without a coverage driver, a verbose console gets the one diagnostic line and no report runs. */
  lemma DisabledVerboseDiagnostic(reports: ReportMap, decorated: bool)
    ensures AfterSuite(New(false, reports), true, decorated)
         == [WriteLine("Did not detect Xdebug extension or phpdbg. No code coverage will be generated.")]
  {
  }
}
