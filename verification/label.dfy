/**
 * The name a coverage session is started under for one example:
 * `strtr('%spec%::%example%', …)` substitutes both placeholders in a single
 * pass, so the label is exactly the specification's class name, two colons,
 * and the example's method name.
 */
module SessionLabel {
  import opened Wrappers

  const Separator: string := "::"

  function Label(spec: string, example: string): (s: string)
    ensures |s| == |spec| + |Separator| + |example|
    ensures s[..|spec|] == spec
    ensures s[|spec|..|spec| + |Separator|] == Separator
    ensures s[|spec| + |Separator|..] == example
  {
    spec + Separator + example
  }

  /** The position of the first ':' in `s` at or after `from`, if there is one. */
  function FirstColon(s: string, from: nat): (r: Option<nat>)
    requires from <= |s|
    ensures r.Some? ==> from <= r.value < |s| && s[r.value] == ':'
    ensures r.Some? ==> forall j :: from <= j < r.value ==> s[j] != ':'
    ensures r.None? ==> forall j :: from <= j < |s| ==> s[j] != ':'
    decreases |s| - from
  {
    if from == |s| then None
    else if s[from] == ':' then Some(from)
    else FirstColon(s, from + 1)
  }

  /**
   * Reads a label back into the specification and example names, cutting at
   * the first ':'; `None` when that colon does not start a separator.
   */
  function Split(s: string): (r: Option<(string, string)>)
    ensures r.Some? ==> Label(r.value.0, r.value.1) == s
    ensures r.Some? ==> ':' !in r.value.0
  {
    match FirstColon(s, 0)
    case None => None
    case Some(i) =>
      if i + 1 < |s| && s[i + 1] == ':' then
        assert s == s[..i] + Separator + s[i + 2..];
        Some((s[..i], s[i + 2..]))
      else None
  }

  /** A label can be read back into its two names whenever the class name holds no colon, as PHP class names never do. */
  lemma {:induction false} SplitLabel(spec: string, example: string)
    requires ':' !in spec
    ensures Split(Label(spec, example)) == Some((spec, example))
  {
    var s := Label(spec, example);
    assert s[|spec|] == ':' && s[|spec| + 1] == ':';
    assert forall j :: 0 <= j < |spec| ==> s[j] == spec[j];
    var r := FirstColon(s, 0);
    assert r.Some?;
    assert r.value == |spec|;
  }

  /** Different examples of colon-free classes never share a session label. */
  lemma {:induction false} LabelInjective(spec1: string, ex1: string, spec2: string, ex2: string)
    requires ':' !in spec1 && ':' !in spec2
    requires Label(spec1, ex1) == Label(spec2, ex2)
    ensures spec1 == spec2 && ex1 == ex2
  {
    SplitLabel(spec1, ex1);
    SplitLabel(spec2, ex2);
  }
}
