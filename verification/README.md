# phpspec code-coverage listener, modelled in Dafny

This project models `CodeCoverageListener`, the lifecycle listener of the
phpspec code-coverage extension. The listener holds three things: a
write-once `enabled` flag, an options record, and an ordered map from format
name to report generator. It reacts to phpspec's four hooks (`beforeSuite`,
`beforeExample`, `afterExample`, `afterSuite`) by calling collaborators it
does not own: the coverage filter, the coverage session, the report
generators and the console.

The model is functional. The listener is an immutable record (`Listener`).
`setOptions` returns a new record. Each hook is a pure function from the
record, plus the console flags or example names the hook would read, to the
ordered trace of collaborator calls it makes (`seq<Event>`). Properties are
stated over projections of these traces: the console lines, the report
invocations, the session labels and the paths given to each filter operation.

Files:
- `wrappers.dfy`: `Option`, which stands for PHP `null` and for keys a caller leaves out.
- `events.dfy`: the collaborator calls as events, and the projections over traces.
- `options.dfy`: the options record, the partial record `setOptions` accepts, and PHP's left-biased array union.
- `label.dfy`: the session label `<spec>::<example>`, and how to read it back.
- `listener.dfy`: the constructor, `setOptions` and the four hooks. The reports map is a sequence of entries in which each format key occurs at most once, as in a PHP array.
- `listener_properties.dfy`: the filter phases of `beforeSuite` and the dispatch of `afterSuite`.
- `lifecycle.dfy`: a whole suite run, and the pairing of session start and stop.
- `scenarios.dfy`: the situations the listener's own tests set up, each with the exact trace the model produces.

Inputs the source reads from its environment are parameters here:
- the coverage-driver probe becomes the `enabled` argument of `New`;
- the console's `isVerbose()` and `isDecorated()` become the `verbose` and `decorated` arguments of the hooks;
- the class and method names obtained by reflection become plain `spec` and `example` strings;
- the text a text report returns becomes data of the report (`TextReport(plain, colored)`).

## Model

| member | source | states |
|---|---|---|
| CodeCoverageListener.New | src/Listener/CodeCoverageListener.php:23-37 | A fresh listener has whitelist `[src, lib]`, blacklist `[test, vendor, spec]`, no whitelisted or blacklisted files, output `{html: coverage}` and format `[html]`. It keeps the given reports map and `enabled` flag. |
| CoverageOptions.Apply | src/Listener/CodeCoverageListener.php:110-113 | Under `$options + $this->options`, a key the caller supplies takes the caller's value wholesale, with no deep merge of `output`. A key the caller leaves out keeps its previous value. |
| CoverageOptions.ApplyIdempotent | src/Listener/CodeCoverageListener.php:112 | Setting the same options twice gives the same record as setting them once. |
| CoverageOptions.ApplyCompose | src/Listener/CodeCoverageListener.php:112 | Two successive `setOptions` calls equal one call with the union of their arguments, where the later call's keys win. |
| CoverageOptions.ApplyEmpty | src/Listener/CodeCoverageListener.php:112 | Setting an empty array changes nothing. |
| CoverageOptions.SuppliedKeyForgetsOldValue | src/Listener/CodeCoverageListener.php:112 | A supplied key's new value does not depend on the value held before. |
| CoverageOptions.Merge | src/Listener/CodeCoverageListener.php:112 | The union of two partial option arrays takes the left array's value on every key it has, and otherwise the right array's value. |
| CodeCoverageListener.SetOptions | src/Listener/CodeCoverageListener.php:110-113 | `setOptions` changes only the options, key by key as above. The `enabled` flag and the reports map stay as they were. |
| CodeCoverageListener.FilterCalls | src/Listener/CodeCoverageListener.php:51-54 | `array_map` over a list makes one filter call per entry, in list order. |
| CodeCoverageListener.BeforeSuite | src/Listener/CodeCoverageListener.php:43-55 | A disabled listener makes no call. An enabled one makes only filter calls, and their number is the sum of the four list lengths. |
| ListenerProperties.BeforeSuitePaths | src/Listener/CodeCoverageListener.php:45-54 | Each filter operation receives exactly its option list, whole and in order: `addDirectoryToWhitelist` gets the whitelist, `removeDirectoryFromWhitelist` the blacklist, `addFileToWhitelist` the whitelisted files and `removeFileFromWhitelist` the blacklisted files. When disabled, no operation receives anything. |
| ListenerProperties.BeforeSuiteOrdered | src/Listener/CodeCoverageListener.php:51-54 | The four phases never interleave. They run as: add directories, remove directories, add files, remove files. |
| SessionLabel.Label | src/Listener/CodeCoverageListener.php:65-68 | The session label is the spec name, then `::`, then the example name. |
| SessionLabel.Split | src/Listener/CodeCoverageListener.php:65-68 | Reading a label back cuts it at its first colon. Whatever it returns reassembles into the same label. |
| SessionLabel.SplitLabel | src/Listener/CodeCoverageListener.php:65-68 | A label whose spec name has no colon reads back into exactly its spec and example names. |
| SessionLabel.LabelInjective | src/Listener/CodeCoverageListener.php:65-70 | Different examples of colon-free classes never share a session label. |
| CodeCoverageListener.BeforeExample | src/Listener/CodeCoverageListener.php:57-71 | When enabled, the hook starts exactly one session, named `<spec>::<example>`. When disabled, it makes no call. |
| CodeCoverageListener.AfterExample | src/Listener/CodeCoverageListener.php:73-80 | When enabled, the hook makes exactly one `stop` call. When disabled, it makes no call. |
| CodeCoverageListener.Target | src/Listener/CodeCoverageListener.php:106 | A file report's target is `output[format]` when that key exists, and PHP `null` when it does not. |
| CodeCoverageListener.Formats | src/Listener/CodeCoverageListener.php:94 | This gives the keys of the reports map, in map order. |
| CodeCoverageListener.AfterSuite | src/Listener/CodeCoverageListener.php:82-108 | A disabled listener on a verbose console writes the one diagnostic line and invokes no report. An enabled listener on a verbose console first writes an empty line. The hook makes only console writes and report invocations. |
| ListenerProperties.AfterSuiteCalls | src/Listener/CodeCoverageListener.php:84-107 | Unless the early return is taken, every entry of the reports map is invoked once, in map order. An entry is dispatched as text exactly when its report is a text report, whatever its key. |
| ListenerProperties.EveryReportInOrder | src/Listener/CodeCoverageListener.php:94-107 | Unless the early return is taken, the formats generated are the keys of the reports map, in map order. A format that is not a key of the map, even one listed in `options['format']`, is never generated. |
| ListenerProperties.EveryReportOnce | src/Listener/CodeCoverageListener.php:94-107 | Unless the early return is taken, each key of the reports map is generated exactly once, and no other format is generated. |
| ListenerProperties.AfterSuiteWrites | src/Listener/CodeCoverageListener.php:84-101 | The console gets the diagnostic line alone, or else the lines below in order. On a verbose console these are an empty line, then per report its progress line followed, for a text report, by that report's text. On a quiet console they are only the text reports' texts. |
| ListenerProperties.FileReportsAreSilent | src/Listener/CodeCoverageListener.php:94-107 | On a quiet console, when every report is a file report, nothing is written. |
| ListenerProperties.AfterSuiteDispatched | src/Listener/CodeCoverageListener.php:90-107 | On a verbose console, each report invocation comes right after its "Generating code coverage report in <format> format ..." line. A text report is called with the decorated flag, and the next event writes the string it returns. A file report of that key is called with `output[format]`, and its result is not written. |
| ListenerProperties.DisabledQuietFallsThrough | src/Listener/CodeCoverageListener.php:84-88 | On a quiet console, a disabled listener does exactly what an enabled one does, so it generates every report. |
| ListenerProperties.FormatOptionUnread | src/Listener/CodeCoverageListener.php:94 | Neither `beforeSuite` nor `afterSuite` depends on `options['format']`. |
| SuiteLifecycle.RunKeepsSessionPaired | src/Listener/CodeCoverageListener.php:57-80 | In a suite run, no session is started while one is running and none is stopped while idle, and the session ends idle. |
| SuiteLifecycle.RunLabels | src/Listener/CodeCoverageListener.php:57-71 | An enabled listener starts one session per example, in example order, each with that example's label. A disabled one starts none. |
| ListenerScenarios.FreshListenerFilters | src/Listener/CodeCoverageListener.php:28-54 | With default options, an enabled listener whitelists `src` and `lib`, then blacklists `test`, `vendor` and `spec`. |
| ListenerScenarios.RunsAllReports | spec/Listener/CodeCoverageListenerSpec.php:28-68 | The html, clover, xml and php reports are each generated with their own target, in map order. `text` is listed as a format but is not in the map, so it is not generated. |
| ListenerScenarios.TextReportFollowsDecoration | spec/Listener/CodeCoverageListenerSpec.php:71-117 | The text report is called with the decorated flag, and its text is written as one line. |
| ListenerScenarios.HtmlReportIsQuiet | spec/Listener/CodeCoverageListenerSpec.php:119-144 | On a quiet console, the html report is generated into `coverage` and nothing is written. |
| ListenerScenarios.VerboseAnnouncesReports | spec/Listener/CodeCoverageListenerSpec.php:146-169 | On a verbose console, an empty line and the progress line come before the html report. |
| ListenerScenarios.ConfiguredFilters | spec/Listener/CodeCoverageListenerSpec.php:171-195 | Configured lists replace the defaults, and each reaches its filter operation. |
| ListenerScenarios.DisabledVerboseDiagnostic | src/Listener/CodeCoverageListener.php:84-88 | Without a coverage driver, a verbose console gets exactly the line "Did not detect Xdebug extension or phpdbg. No code coverage will be generated." |

## Left out

- The coverage-driver probe (`extension_loaded('xdebug') || PHP_SAPI === 'phpdbg'`) reads host state. `enabled` is a parameter of `New` instead.
- The `filter()` accessor call of `beforeSuite` is not recorded as an event. Only the four filter operations are.
- What whitelisting, session start and stop, and report rendering mean belongs to the coverage library. These calls are opaque events here.
- The class and method names are obtained by reflection in the source. Here they are plain strings.
- `getSubscribedEvents` is a constant registration table, and the host dispatcher defines what its priorities mean.
- The `$this->io &&` guards are left out: the constructor's type makes `io` non-null.
- The hooks take `verbose` and `decorated` as one value per call. The source calls `isVerbose()` again for every line it may write, and `isDecorated()` again for every text report. A console whose answers change during one `afterSuite` is not modelled.
- Collaborator calls are assumed to return. The listener catches nothing, so a filter call, a session `start` or a report's `process` that throws ends the hook at that event, and the rest of its trace is not produced. Every property above is about hooks whose calls all return.
- CodeCoverageListener.AfterSuite: a text report is modelled by the two strings it returns for `decorated` false and true. Its `process` call is the opaque `ProcessText` event.
- CoverageOptions.Apply: only the six keys the listener knows are modelled. Other keys in the argument would be stored by PHP but never read. Values are typed: `format` is a list and `output` a map. The bare-string `format` that the listener's own tests pass (`'format' => 'text'`) is modelled as the one-element list, since the listener never reads `format`.
- The extension's configuration normalisation (a bare `format` becomes a list, a bare `output` becomes `{format: output}`) is not modelled. Its source file, `CodeCoverageExtension.php`, is not part of this model.
