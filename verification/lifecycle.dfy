/**
 * A whole suite run as the test runner drives the listener: `beforeSuite`,
 * then `beforeExample`/`afterExample` around each example, then
 * `afterSuite`. The coverage session is not reentrant, so a run must never
 * start a session that is running or stop one that is idle.
 */
module SuiteLifecycle {
  import opened Wrappers
  import opened CoverageEvents
  import opened CodeCoverageListener
  import SessionLabel

  /** An example, named by its specification class and its method. */
  datatype Example = Example(spec: string, name: string)

  /** The host runs `beforeExample` and `afterExample` around each example. */
  function ExampleTrace(l: Listener, x: Example): seq<Event> {
    BeforeExample(l, x.spec, x.name) + AfterExample(l)
  }

  function ExamplesTrace(l: Listener, xs: seq<Example>): seq<Event> {
    if xs == [] then []
    else ExampleTrace(l, xs[0]) + ExamplesTrace(l, xs[1..])
  }

  function Run(l: Listener, xs: seq<Example>, verbose: bool, decorated: bool): seq<Event> {
    BeforeSuite(l) + ExamplesTrace(l, xs) + AfterSuite(l, verbose, decorated)
  }

  /**
   * Replays a trace against the session, starting idle (`false`) or running
   * (`true`): the state afterwards, or `None` on a start while running or a
   * stop while idle.
   */
  function Session(t: seq<Event>, running: bool): Option<bool> {
    if t == [] then Some(running)
    else match t[0]
      case Start(_) => if running then None else Session(t[1..], true)
      case Stop => if running then Session(t[1..], false) else None
      case _ => Session(t[1..], running)
  }

  lemma {:induction false} SessionAppend(a: seq<Event>, b: seq<Event>, running: bool)
    ensures Session(a + b, running)
         == match Session(a, running) case None => None case Some(s) => Session(b, s)
  {
    if a != [] {
      assert (a + b)[0] == a[0];
      assert (a + b)[1..] == a[1..] + b;
      match a[0]
      case Start(_) => if !running { SessionAppend(a[1..], b, true); }
      case Stop => if running { SessionAppend(a[1..], b, false); }
      case _ => SessionAppend(a[1..], b, running);
    } else {
      assert a + b == b;
    }
  }

  /** A trace that neither starts nor stops the session. */
  predicate Inert(t: seq<Event>) {
    forall i :: 0 <= i < |t| ==> !t[i].Start? && !t[i].Stop?
  }

  lemma {:induction false} SessionOfInert(t: seq<Event>, running: bool)
    requires Inert(t)
    ensures Session(t, running) == Some(running)
  {
    if t != [] {
      assert !t[0].Start? && !t[0].Stop?;
      SessionOfInert(t[1..], running);
    }
  }

  /** The session is idle again after every example, and no example misuses it. */
  lemma {:induction false} ExamplesKeepSessionPaired(l: Listener, xs: seq<Example>)
    ensures Session(ExamplesTrace(l, xs), false) == Some(false)
  {
    if xs != [] {
      var step := ExampleTrace(l, xs[0]);
      var rest := ExamplesTrace(l, xs[1..]);
      ExamplesKeepSessionPaired(l, xs[1..]);
      SessionAppend(step, rest, false);
      if l.enabled {
        assert step == [Start(SessionLabel.Label(xs[0].spec, xs[0].name)), Stop];
      } else {
        assert step == [];
      }
    }
  }

  /**
   * A whole run leaves the session idle and never starts it twice or stops
   * it while idle, whether the listener is enabled or not.
   */
  lemma {:induction false} RunKeepsSessionPaired(l: Listener, xs: seq<Example>, verbose: bool, decorated: bool)
    ensures Session(Run(l, xs, verbose, decorated), false) == Some(false)
  {
    var s := BeforeSuite(l);
    var e := ExamplesTrace(l, xs);
    var f := AfterSuite(l, verbose, decorated);
    assert Inert(s);
    SessionOfInert(s, false);
    ExamplesKeepSessionPaired(l, xs);
    assert Inert(f);
    SessionOfInert(f, false);
    SessionAppend(s + e, f, false);
    SessionAppend(s, e, false);
  }

  function ExampleLabels(xs: seq<Example>): seq<string> {
    if xs == [] then [] else [SessionLabel.Label(xs[0].spec, xs[0].name)] + ExampleLabels(xs[1..])
  }

  lemma {:induction false} ExampleLabel(l: Listener, x: Example)
    ensures Labels(ExampleTrace(l, x)) == (if l.enabled then [SessionLabel.Label(x.spec, x.name)] else [])
  {
    var b := BeforeExample(l, x.spec, x.name);
    var a := AfterExample(l);
    ProjectAppend(b, a, StartLabel);
    ProjectNothing(a, StartLabel);
  }

  lemma {:induction false} ExamplesLabels(l: Listener, xs: seq<Example>)
    ensures Labels(ExamplesTrace(l, xs)) == (if l.enabled then ExampleLabels(xs) else [])
  {
    if xs != [] {
      ExamplesLabels(l, xs[1..]);
      ExampleLabel(l, xs[0]);
      ProjectAppend(ExampleTrace(l, xs[0]), ExamplesTrace(l, xs[1..]), StartLabel);
    }
  }

  /**
   * An enabled listener starts one session per example, in example order,
   * named `<spec>::<example>`; a disabled one starts none.
   */
  lemma {:induction false} RunLabels(l: Listener, xs: seq<Example>, verbose: bool, decorated: bool)
    ensures Labels(Run(l, xs, verbose, decorated)) == (if l.enabled then ExampleLabels(xs) else [])
  {
    var s := BeforeSuite(l);
    var e := ExamplesTrace(l, xs);
    var f := AfterSuite(l, verbose, decorated);
    ProjectAppend(s + e, f, StartLabel);
    ProjectAppend(s, e, StartLabel);
    ProjectNothing(s, StartLabel);
    assert Inert(f);
    ProjectNothing(f, StartLabel);
    ExamplesLabels(l, xs);
  }
}
