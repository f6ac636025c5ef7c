/**
 * The calls the coverage listener makes on collaborators it does not own
 * (the coverage filter, the coverage session, the report generators and the
 * console), each recorded as an opaque event, together with projections
 * that pick one kind of call out of a trace.
 */
module CoverageEvents {
  import opened Wrappers

  /** The four operations of the coverage filter, listed in the order of the phases of suite start. */
  datatype FilterOp =
    | AddDirectoryToWhitelist
    | RemoveDirectoryFromWhitelist
    | AddFileToWhitelist
    | RemoveFileFromWhitelist
  {
    /** Position of the operation's phase at suite start (directories before files, adds before removes). */
    function Phase(): nat {
      match this
      case AddDirectoryToWhitelist => 0
      case RemoveDirectoryFromWhitelist => 1
      case AddFileToWhitelist => 2
      case RemoveFileFromWhitelist => 3
    }
  }

  /**
   * One collaborator call. `ProcessText` is a text report invoked with the
   * console's "decorated" flag; `ProcessFile` is any other report invoked
   * with its output target, `None` standing for the PHP `null` a missing
   * `output[format]` key yields.
   */
  datatype Event =
    | Filter(op: FilterOp, path: string)
    | Start(id: string)
    | Stop
    | WriteLine(text: string)
    | ProcessText(format: string, colors: bool)
    | ProcessFile(format: string, target: Option<string>)
  {
    predicate IsProcess() {
      ProcessText? || ProcessFile?
    }
  }

  /** A report invocation with its payload dropped: which format, and whether it was dispatched as text. */
  datatype Call = TextCall(format: string) | FileCall(format: string)

  /** The values `f` selects from a trace, in trace order. */
  function Project<T>(t: seq<Event>, f: Event -> Option<T>): seq<T>
  {
    if t == [] then []
    else (match f(t[0]) case Some(x) => [x] case None => []) + Project(t[1..], f)
  }

  /** Projection distributes over concatenation of traces. */
  lemma {:induction false} ProjectAppend<T>(a: seq<Event>, b: seq<Event>, f: Event -> Option<T>)
    ensures Project(a + b, f) == Project(a, f) + Project(b, f)
  {
    if a == [] {
      assert a + b == b;
    } else {
      assert (a + b)[0] == a[0];
      assert (a + b)[1..] == a[1..] + b;
      ProjectAppend(a[1..], b, f);
    }
  }

  /** Projection of a one-event trace. */
  lemma ProjectOne<T>(e: Event, f: Event -> Option<T>)
    ensures Project([e], f) == (match f(e) case Some(x) => [x] case None => [])
  {
  }

  /** A selector that picks nothing from a trace projects it to the empty sequence. */
  lemma {:induction false} ProjectNothing<T>(t: seq<Event>, f: Event -> Option<T>)
    requires forall i :: 0 <= i < |t| ==> f(t[i]).None?
    ensures Project(t, f) == []
  {
    if t != [] {
      assert f(t[0]).None?;
      ProjectNothing(t[1..], f);
    }
  }

  function WrittenText(e: Event): Option<string> {
    if e.WriteLine? then Some(e.text) else None
  }

  function ReportCall(e: Event): Option<Call> {
    match e
    case ProcessText(fmt, _) => Some(TextCall(fmt))
    case ProcessFile(fmt, _) => Some(FileCall(fmt))
    case _ => None
  }

  function StartLabel(e: Event): Option<string> {
    if e.Start? then Some(e.id) else None
  }

  /** The lines written to the console, in order. */
  function Writes(t: seq<Event>): seq<string> {
    Project(t, WrittenText)
  }

  /** The report invocations, in order. */
  function Calls(t: seq<Event>): seq<Call> {
    Project(t, ReportCall)
  }

  /** The labels coverage sessions were started with, in order. */
  function Labels(t: seq<Event>): seq<string> {
    Project(t, StartLabel)
  }

  /** The paths handed to filter operation `op`, in order. */
  function FilterPaths(t: seq<Event>, op: FilterOp): seq<string> {
    if t == [] then []
    else (if t[0].Filter? && t[0].op == op then [t[0].path] else []) + FilterPaths(t[1..], op)
  }

  lemma {:induction false} FilterPathsAppend(a: seq<Event>, b: seq<Event>, op: FilterOp)
    ensures FilterPaths(a + b, op) == FilterPaths(a, op) + FilterPaths(b, op)
  {
    if a == [] {
      assert a + b == b;
    } else {
      assert (a + b)[0] == a[0];
      assert (a + b)[1..] == a[1..] + b;
      FilterPathsAppend(a[1..], b, op);
    }
  }

  function CallFormats(cs: seq<Call>): seq<string> {
    if cs == [] then [] else [cs[0].format] + CallFormats(cs[1..])
  }
}
