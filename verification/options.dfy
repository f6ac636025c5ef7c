/**
 * The listener's options record and `setOptions`, which overlays a partial
 * record on the current one with PHP's array union `$options + $this->options`:
 * a top-level, left-biased union in which the argument's keys win.
 */
module CoverageOptions {
  import opened Wrappers

  /** The six keys the listener reads or stores. */
  datatype Key = Whitelist | Blacklist | WhitelistFiles | BlacklistFiles | Output | Format

  /** The value stored under a key: a list of paths or formats, or a format-to-target map. */
  datatype Value = Strings(items: seq<string>) | Targets(targets: map<string, string>)

  datatype Options = Options(
    whitelist: seq<string>,
    blacklist: seq<string>,
    whitelistFiles: seq<string>,
    blacklistFiles: seq<string>,
    output: map<string, string>,
    format: seq<string>)
  {
    /** The value under key `k`, as PHP's `$this->options[k]` reads it. */
    function Get(k: Key): Value {
      match k
      case Whitelist => Strings(whitelist)
      case Blacklist => Strings(blacklist)
      case WhitelistFiles => Strings(whitelistFiles)
      case BlacklistFiles => Strings(blacklistFiles)
      case Output => Targets(output)
      case Format => Strings(format)
    }
  }

  /** The argument of `setOptions`: every key may be left out. */
  datatype Patch = Patch(
    whitelist: Option<seq<string>>,
    blacklist: Option<seq<string>>,
    whitelistFiles: Option<seq<string>>,
    blacklistFiles: Option<seq<string>>,
    output: Option<map<string, string>>,
    format: Option<seq<string>>)
  {
    /** The value the caller supplied under `k`, if any. */
    function Get(k: Key): Option<Value> {
      match k
      case Whitelist => if whitelist.Some? then Some(Strings(whitelist.value)) else None
      case Blacklist => if blacklist.Some? then Some(Strings(blacklist.value)) else None
      case WhitelistFiles => if whitelistFiles.Some? then Some(Strings(whitelistFiles.value)) else None
      case BlacklistFiles => if blacklistFiles.Some? then Some(Strings(blacklistFiles.value)) else None
      case Output => if output.Some? then Some(Targets(output.value)) else None
      case Format => if format.Some? then Some(Strings(format.value)) else None
    }
  }

  /** The patch that supplies no key at all (`setOptions([])`). */
  const EmptyPatch := Patch(None, None, None, None, None, None)

  /** The options a freshly constructed listener holds. */
  function Defaults(): Options {
    Options(["src", "lib"], ["test", "vendor", "spec"], [], [], map["html" := "coverage"], ["html"])
  }

  /**
   * `$options + $this->options`: a key the caller supplies replaces the old
   * value wholesale (there is no deep merge of `output`), and a key the caller
   * leaves out keeps the value it held before, which need not be the default.
   */
  function Apply(o: Options, p: Patch): (r: Options)
    ensures forall k: Key :: p.Get(k).Some? ==> r.Get(k) == p.Get(k).value
    ensures forall k: Key :: p.Get(k).None? ==> r.Get(k) == o.Get(k)
  {
    Options(
      p.whitelist.GetOr(o.whitelist),
      p.blacklist.GetOr(o.blacklist),
      p.whitelistFiles.GetOr(o.whitelistFiles),
      p.blacklistFiles.GetOr(o.blacklistFiles),
      p.output.GetOr(o.output),
      p.format.GetOr(o.format))
  }

  /** PHP's union of two partial arrays, `$q + $p`: keys of `q` win, keys only in `p` are kept. */
  function Merge(q: Patch, p: Patch): (r: Patch)
    ensures forall k: Key :: r.Get(k) == (if q.Get(k).Some? then q.Get(k) else p.Get(k))
  {
    Patch(
      if q.whitelist.Some? then q.whitelist else p.whitelist,
      if q.blacklist.Some? then q.blacklist else p.blacklist,
      if q.whitelistFiles.Some? then q.whitelistFiles else p.whitelistFiles,
      if q.blacklistFiles.Some? then q.blacklistFiles else p.blacklistFiles,
      if q.output.Some? then q.output else p.output,
      if q.format.Some? then q.format else p.format)
  }

  /** Setting the same options twice has the effect of setting them once. */
  lemma ApplyIdempotent(o: Options, p: Patch)
    ensures Apply(Apply(o, p), p) == Apply(o, p)
  {
  }

  /** Two successive calls are one call with the union of their arguments, the later call's keys winning. */
  lemma ApplyCompose(o: Options, p: Patch, q: Patch)
    ensures Apply(Apply(o, p), q) == Apply(o, Merge(q, p))
  {
  }

  /** Setting no key changes nothing. */
  lemma ApplyEmpty(o: Options)
    ensures Apply(o, EmptyPatch) == o
  {
  }

  /** A supplied key's result does not depend on what was held before: the old value is discarded, not merged. */
  lemma SuppliedKeyForgetsOldValue(o1: Options, o2: Options, p: Patch, k: Key)
    requires p.Get(k).Some?
    ensures Apply(o1, p).Get(k) == Apply(o2, p).Get(k)
  {
  }
}
