/**
 * The best-guess link of a route node: the host of the rule's `Host(`...`)` part and,
 * for rules that do not start with it, the path of its `PathPrefix(`...`)` part.
 * The regular expressions `/Host\(`([^`]+)`\)/` and `/PathPrefix\(`([^`]+)`\)/` are
 * modelled by their JavaScript meaning: the leftmost position where the whole pattern
 * matches, and the text between the opening and the next backtick as the capture.
 */
module Links {
  import opened Wrappers
  import opened Text
  import opened Topology

  const HostOpen := "Host(`"
  const PathPrefixOpen := "PathPrefix(`"
  const Close := "`)"

  /** The first backtick at or after `from`, or `|s|` when there is none. */
  function NextBacktick(s: string, from: nat): (j: nat)
    requires from <= |s|
    ensures from <= j <= |s|
    ensures j < |s| ==> s[j] == '`'
    ensures forall i :: from <= i < j ==> s[i] != '`'
    decreases |s| - from
  {
    if from == |s| then from
    else if s[from] == '`' then from
    else NextBacktick(s, from + 1)
  }

  /** The capture of `open([^`]+)`\)` when the match starts at `p`, if it matches there. */
  function CaptureAt(s: string, open: string, p: nat): Option<string>
    requires p <= |s|
  {
    if !(open <= s[p..]) then None
    else
      var start := p + |open|;
      var j := NextBacktick(s, start);
      if start < j && j + 1 < |s| && s[j + 1] == ')' then Some(s[start..j]) else None
  }

  /** `s.match(re)[1]`: the capture at the leftmost position from `p` where the pattern matches. */
  function FirstCapture(s: string, open: string, p: nat): Option<string>
    requires p <= |s|
    decreases |s| - p
  {
    if CaptureAt(s, open, p).Some? then CaptureAt(s, open, p)
    else if p == |s| then None
    else FirstCapture(s, open, p + 1)
  }

  /** A capture is a non-empty, backtick-free text that stands between `open` and "`)" in `s`. */
  lemma CaptureSound(s: string, open: string, p: nat)
    requires p <= |s|
    requires CaptureAt(s, open, p).Some?
    ensures var h := CaptureAt(s, open, p).value;
      h != "" && '`' !in h && OccursAt(s, open + h + Close, p)
  {
    var h := CaptureAt(s, open, p).value;
    var start := p + |open|;
    var j := NextBacktick(s, start);
    assert s[p..][..|open + h + Close|] == open + h + Close;
  }

  /** Conversely, `open + h + "`)"` at `p`, with `h` non-empty and free of backticks, is captured there. */
  lemma CaptureComplete(s: string, open: string, p: nat, h: string)
    requires p <= |s|
    requires h != "" && '`' !in h && OccursAt(s, open + h + Close, p)
    ensures CaptureAt(s, open, p) == Some(h)
  {
    var start := p + |open|;
    var lit := open + h + Close;
    assert s[p..][..|lit|] == lit;
    assert open <= s[p..];
    forall i | start <= i < start + |h| ensures s[i] != '`' {
      assert s[i] == lit[i - p] == h[i - start];
    }
    assert s[start + |h|] == lit[|open| + |h|] == '`';
    assert s[start + |h| + 1] == lit[|open| + |h| + 1] == ')';
    assert s[start..start + |h|] == h;
  }

  /** A first capture is found at some position, and the pattern matches at no earlier one. */
  lemma {:induction false} FirstCaptureAt(s: string, open: string, p: nat) returns (i: nat)
    requires p <= |s|
    requires FirstCapture(s, open, p).Some?
    ensures p <= i <= |s| && FirstCapture(s, open, p) == CaptureAt(s, open, i)
    ensures forall i' :: p <= i' < i ==> CaptureAt(s, open, i').None?
    decreases |s| - p
  {
    if CaptureAt(s, open, p).Some? {
      i := p;
    } else {
      i := FirstCaptureAt(s, open, p + 1);
    }
  }

  /** No first capture means the pattern matches at no position. */
  lemma {:induction false} FirstCaptureNone(s: string, open: string, p: nat)
    requires p <= |s|
    requires FirstCapture(s, open, p).None?
    ensures forall i :: p <= i <= |s| ==> CaptureAt(s, open, i).None?
    decreases |s| - p
  {
    if p < |s| {
      FirstCaptureNone(s, open, p + 1);
    }
  }

  /** The first capture is the capture at the leftmost matching position. */
  lemma FirstCaptureLeftmost(s: string, open: string, p: nat)
    requires p <= |s|
    ensures FirstCapture(s, open, p).Some? <==> exists i :: p <= i <= |s| && CaptureAt(s, open, i).Some?
    ensures FirstCapture(s, open, p).Some? ==>
      (exists i :: p <= i <= |s| && FirstCapture(s, open, p) == CaptureAt(s, open, i) &&
                   forall i' :: p <= i' < i ==> CaptureAt(s, open, i').None?)
  {
    if FirstCapture(s, open, p).Some? {
      var i := FirstCaptureAt(s, open, p);
      assert CaptureAt(s, open, i).Some?;
    } else {
      FirstCaptureNone(s, open, p);
    }
  }

  /** `router.entryPoints.some(ep => ep.toLowerCase().includes('https'))` decides the scheme. */
  function Scheme(r: Router): (scheme: string)
    ensures scheme == "https://" || scheme == "http://"
    ensures scheme == "https://" <==>
      r.entryPoints.Some? && exists i :: 0 <= i < |r.entryPoints.value| && Contains(Lower(r.entryPoints.value[i]), "https")
  {
    if r.entryPoints.Some? && exists i :: 0 <= i < |r.entryPoints.value| && Contains(Lower(r.entryPoints.value[i]), "https")
    then "https://" else "http://"
  }

  /**
   * The route's link, or `None` where the source keeps `'#'` and emits no link. Only a
   * non-empty rule that starts with `Host(` or contains `PathPrefix(` gets one, and it
   * always begins with the scheme the entrypoints decide.
   */
  function RuleLink(r: Router): (link: Option<string>)
    ensures link.Some? ==> r.rule != "" && (StartsWith(r.rule, HostOpen) || Contains(r.rule, PathPrefixOpen))
    ensures link.Some? ==> StartsWith(link.value, Scheme(r))
  {
    if r.rule != "" && StartsWith(r.rule, HostOpen) then
      match FirstCapture(r.rule, HostOpen, 0)
      case Some(host) => Some(Scheme(r) + host)
      case None => None
    else if r.rule != "" && Contains(r.rule, PathPrefixOpen) then
      match (FirstCapture(r.rule, HostOpen, 0), FirstCapture(r.rule, PathPrefixOpen, 0))
      case (Some(host), Some(path)) => Some(Scheme(r) + host + path)
      case _ => None
    else None
  }

  /** A `Host(`...`)` written somewhere in the rule, with the host it captures. */
  ghost predicate HostWritten(rule: string, host: string) {
    host != "" && '`' !in host && Contains(rule, HostOpen + host + Close)
  }

  ghost predicate PathWritten(rule: string, path: string) {
    path != "" && '`' !in path && Contains(rule, PathPrefixOpen + path + Close)
  }

  /**
   * A link is never a guess out of nothing: it is the scheme followed by a host written
   * in the rule, followed, for rules not starting with `Host(`, by a path written there.
   */
  lemma RuleLinkSound(r: Router)
    requires RuleLink(r).Some?
    ensures exists host ::
      && HostWritten(r.rule, host)
      && (|| (StartsWith(r.rule, HostOpen) && RuleLink(r) == Some(Scheme(r) + host))
          || (!StartsWith(r.rule, HostOpen) &&
              exists path :: PathWritten(r.rule, path) && RuleLink(r) == Some(Scheme(r) + host + path)))
  {
    var i := FirstCaptureAt(r.rule, HostOpen, 0);
    CaptureSound(r.rule, HostOpen, i);
    var host := CaptureAt(r.rule, HostOpen, i).value;
    assert HostWritten(r.rule, host);
    if StartsWith(r.rule, HostOpen) {
      assert RuleLink(r) == Some(Scheme(r) + host);
    } else {
      var j := FirstCaptureAt(r.rule, PathPrefixOpen, 0);
      CaptureSound(r.rule, PathPrefixOpen, j);
      var path := CaptureAt(r.rule, PathPrefixOpen, j).value;
      assert PathWritten(r.rule, path);
      assert RuleLink(r) == Some(Scheme(r) + host + path);
    }
  }

  /** A rule that starts with a complete `Host(`h`)` links to the scheme followed by `h`. */
  lemma RuleLinkOfHostRule(r: Router, host: string)
    requires host != "" && '`' !in host && StartsWith(r.rule, HostOpen + host + Close)
    ensures RuleLink(r) == Some(Scheme(r) + host)
  {
    assert OccursAt(r.rule, HostOpen + host + Close, 0);
    CaptureComplete(r.rule, HostOpen, 0, host);
    assert (HostOpen + host + Close)[..|HostOpen|] == HostOpen;
  }

  /**
   * A rule that does not start with `Host(` but in which both a `Host(`h`)` and a
   * `PathPrefix(`p`)` are written links to the scheme, then the leftmost host capture,
   * then the leftmost path capture.
   */
  lemma RuleLinkOfPathRule(r: Router, host: string, path: string)
    requires !StartsWith(r.rule, HostOpen) && HostWritten(r.rule, host) && PathWritten(r.rule, path)
    ensures FirstCapture(r.rule, HostOpen, 0).Some? && FirstCapture(r.rule, PathPrefixOpen, 0).Some?
    ensures RuleLink(r) ==
      Some(Scheme(r) + FirstCapture(r.rule, HostOpen, 0).value + FirstCapture(r.rule, PathPrefixOpen, 0).value)
  {
    WrittenIsCaptured(r.rule, HostOpen, host);
    WrittenIsCaptured(r.rule, PathPrefixOpen, path);
  }

  /** A complete `open`h"`)" written in `s` makes the pattern match, and `open` occurs in `s`. */
  lemma WrittenIsCaptured(s: string, open: string, h: string)
    requires h != "" && '`' !in h && Contains(s, open + h + Close)
    ensures FirstCapture(s, open, 0).Some? && Contains(s, open) && s != ""
  {
    var i :| 0 <= i <= |s| && OccursAt(s, open + h + Close, i);
    CaptureComplete(s, open, i, h);
    FirstCaptureLeftmost(s, open, 0);
    assert (open + h + Close)[..|open|] == open;
    assert OccursAt(s, open, i);
  }

  /**
   * A rule that starts with `Host(` and has a complete `Host(`h`)` anywhere links to the
   * scheme followed by the leftmost host capture, which need not be at the start (as in
   * a multi-host clause that the pattern skips).
   */
  lemma RuleLinkOfHostRuleAny(r: Router, host: string)
    requires StartsWith(r.rule, HostOpen) && HostWritten(r.rule, host)
    ensures FirstCapture(r.rule, HostOpen, 0).Some?
    ensures RuleLink(r) == Some(Scheme(r) + FirstCapture(r.rule, HostOpen, 0).value)
  {
    WrittenIsCaptured(r.rule, HostOpen, host);
  }

  /** A rule in which no `Host(`h`)` is written gets no link. */
  lemma RuleLinkNeedsHost(r: Router)
    requires forall host :: !HostWritten(r.rule, host)
    ensures RuleLink(r).None?
  {
    if RuleLink(r).Some? {
      RuleLinkSound(r);
    }
  }
}
