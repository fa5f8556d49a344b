/** update.py: reading `metadata.version` from setup.cfg and writing it into
    the package's `__init__.py`, by replacing the first line the pattern
    `^__version__ ?= ?.*$` (multi-line mode) finds, or by appending the line. */
module VersionFile {
  import opened Outcomes
  import opened Text
  import opened Exceptions

  /** `f"__version__ = \"{version}\""` */
  function VersionLine(v: string): string {
    "__version__ = \"" + v + "\""
  }

  /** `^` in multi-line mode: the start of the text or just after a newline. */
  predicate LineStart(s: string, p: nat) {
    p <= |s| && (p == 0 || s[p - 1] == '\n')
  }

  /** The literal `__version__` at position `p`, one character at a time. */
  predicate NameAt(s: string, p: nat) {
    p + 11 <= |s|
    && s[p] == '_' && s[p + 1] == '_' && s[p + 2] == 'v' && s[p + 3] == 'e'
    && s[p + 4] == 'r' && s[p + 5] == 's' && s[p + 6] == 'i' && s[p + 7] == 'o'
    && s[p + 8] == 'n' && s[p + 9] == '_' && s[p + 10] == '_'
  }

  /** ` ?=` after the name. The optional space after `=` and the rest of the
      line are taken by `.*`, so they do not decide whether there is a match. */
  predicate EqualsAt(s: string, p: nat) {
    (p < |s| && s[p] == '=') || (p + 1 < |s| && s[p] == ' ' && s[p + 1] == '=')
  }

  /** The pattern can start matching at `p`. */
  predicate MatchesAt(s: string, p: nat) {
    LineStart(s, p) && NameAt(s, p) && EqualsAt(s, p + 11)
  }

  /** The two texts the pattern accepts before its `.*`. */
  const Tight := "__version__="
  const Spaced := "__version__ ="

  /** The character tests say the same as the pattern's literal text. */
  lemma MatchesAtLiterally(s: string, p: nat)
    requires p <= |s|
    ensures MatchesAt(s, p) <==> LineStart(s, p) && (StartsWith(s[p..], Tight) || StartsWith(s[p..], Spaced))
  {
    if p + 12 <= |s| {
      assert s[p..][..12] == Tight <==> s[p..p + 12] == Tight;
      if p + 13 <= |s| {
        assert s[p..][..13] == Spaced <==> s[p..p + 13] == Spaced;
      }
    }
  }

  /** Where `.*$` stops: the next newline at or after `p`, or the end. */
  function LineEnd(s: string, p: nat): (e: nat)
    requires p <= |s|
    ensures p <= e <= |s|
    decreases |s| - p
  {
    if p == |s| || s[p] == '\n' then p else LineEnd(s, p + 1)
  }

  /** The line end is a newline or the end of the text, with no newline before it. */
  lemma {:induction false} LineEndSpec(s: string, p: nat)
    requires p <= |s|
    ensures LineEnd(s, p) == |s| || s[LineEnd(s, p)] == '\n'
    ensures forall k :: p <= k < LineEnd(s, p) ==> s[k] != '\n'
    decreases |s| - p
  {
    if p < |s| && s[p] != '\n' {
      LineEndSpec(s, p + 1);
    }
  }

  /** `.` never matches a newline and `$` only holds before one or at the end,
      so there is exactly one place a match from `p` can end. */
  lemma {:induction false} LineEndUnique(s: string, p: nat, b: nat)
    requires p <= b <= |s|
    requires b == |s| || s[b] == '\n'
    requires forall k :: p <= k < b ==> s[k] != '\n'
    ensures LineEnd(s, p) == b
    decreases b - p
  {
    if p < b {
      LineEndUnique(s, p + 1, b);
    }
  }

  /** The first position at or after `p` where the pattern matches. */
  function FindFrom(s: string, p: nat): (r: Option<nat>)
    requires p <= |s|
    ensures r.Some? ==> p <= r.value <= |s|
    decreases |s| - p
  {
    if MatchesAt(s, p) then Some(p)
    else if p == |s| then None
    else FindFrom(s, p + 1)
  }

  lemma {:induction false} FindFromSpec(s: string, p: nat)
    requires p <= |s|
    ensures FindFrom(s, p).Some? ==> MatchesAt(s, FindFrom(s, p).value)
    ensures FindFrom(s, p).Some? ==> forall q :: p <= q < FindFrom(s, p).value ==> !MatchesAt(s, q)
    ensures FindFrom(s, p).None? <==> forall q :: p <= q <= |s| ==> !MatchesAt(s, q)
    decreases |s| - p
  {
    if !MatchesAt(s, p) && p < |s| {
      FindFromSpec(s, p + 1);
    }
  }

  /** A match with none before it, from `a` on, is the one found from `a`. */
  lemma {:induction false} FindFromFirst(s: string, a: nat, p: nat)
    requires a <= p <= |s| && MatchesAt(s, p)
    requires forall q :: a <= q < p ==> !MatchesAt(s, q)
    ensures FindFrom(s, a) == Some(p)
    decreases p - a
  {
    if a < p {
      FindFromFirst(s, a + 1, p);
    }
  }

  /** A match: `match.start()` and `match.end()`. */
  datatype Span = Span(start: nat, end: nat)

  /** `version_finder.search(content)`: the leftmost match, ending at its line's end. */
  function Search(s: string): (r: Option<Span>)
    ensures r.Some? ==> r.value.start <= r.value.end <= |s|
  {
    match FindFrom(s, 0)
    case None => None
    case Some(p) => Some(Span(p, LineEnd(s, p)))
  }

  /** The match `search` returns is the leftmost one and runs to its line's
      end; there is none exactly when the pattern matches nowhere. */
  lemma SearchLeftmost(s: string)
    ensures Search(s).Some? ==> MatchesAt(s, Search(s).value.start)
    ensures Search(s).Some? ==> forall q :: 0 <= q < Search(s).value.start ==> !MatchesAt(s, q)
    ensures Search(s).Some? ==> Search(s).value.end == LineEnd(s, Search(s).value.start)
    ensures Search(s).None? <==> forall q :: 0 <= q <= |s| ==> !MatchesAt(s, q)
  {
    FindFromSpec(s, 0);
  }

  /** Where `update_init` puts the new line: the span it replaces, or the empty
      span at the end when it appends. */
  function Target(s: string): (t: Span)
    ensures t.start <= t.end <= |s|
  {
    match Search(s)
    case Some(m) => m
    case None => Span(|s|, |s|)
  }

  /** Nothing matches before the target, which ends at a line's end, and
      which starts a line when the text is empty or ends with a newline. */
  lemma TargetFacts(s: string)
    requires Search(s).Some? || |s| == 0 || s[|s| - 1] == '\n'
    ensures LineStart(s, Target(s).start)
    ensures Target(s).end == |s| || s[Target(s).end] == '\n'
    ensures forall q :: 0 <= q < Target(s).start ==> !MatchesAt(s, q)
  {
    SearchLeftmost(s);
    if Search(s).Some? {
      LineEndSpec(s, Search(s).value.start);
    }
  }

  /** The content `update_init(version)` writes back. Appending at the end is
      replacing the empty span there, so both branches are one splice. */
  function UpdateInit(content: string, v: string): string {
    Splice(content, VersionLine(v))
  }

  /** `content[:start] + line + content[end:]` over the target span. */
  function Splice(content: string, line: string): string {
    content[..Target(content).start] + line + content[Target(content).end..]
  }

  /** With no match the line is appended, with no newline added before it;
      otherwise exactly the matched span is replaced. */
  lemma UpdateCases(content: string, v: string)
    ensures Search(content).None? ==> UpdateInit(content, v) == content + VersionLine(v)
    ensures Search(content).Some? ==> (UpdateInit(content, v) ==
      content[..Search(content).value.start] + VersionLine(v) + content[Search(content).value.end..])
  {
    if Search(content).None? {
      assert content[..|content|] == content && content[|content|..] == [];
    }
  }

  predicate NoNewline(v: string) {
    forall i :: 0 <= i < |v| ==> v[i] != '\n'
  }

  /** Below a line start, whether the pattern matches depends only on the text
      before that line: a match cannot run across a newline. */
  lemma SamePrefixSameMatches(s: string, t: string, p: nat, q: nat)
    requires q < p <= |s| && p <= |t| && s[..p] == t[..p]
    requires s[p - 1] == '\n'
    ensures MatchesAt(s, q) == MatchesAt(t, q)
  {
    assert forall i :: 0 <= i < p ==> s[i] == s[..p][i] == t[i];
  }

  /** The line written has no newline and the pattern accepts its start. */
  lemma VersionLineShape(v: string)
    requires NoNewline(v)
    ensures NoNewline(VersionLine(v)) && MatchesAt(VersionLine(v), 0)
  {
    var line := VersionLine(v);
    forall k | 0 <= k < |line|
      ensures line[k] != '\n'
    {
      if 15 <= k < 15 + |v| {
        assert line[k] == v[k - 15];
      }
    }
  }

  /** Splicing a newline-free line that the pattern accepts over a whole line
      (or at the end, after a newline) makes it the first match, provided no
      match comes before it. */
  lemma SplicedLineFound(c: string, p: nat, e: nat, line: string)
    requires p <= e <= |c| && LineStart(c, p)
    requires forall q :: 0 <= q < p ==> !MatchesAt(c, q)
    requires e == |c| || c[e] == '\n'
    requires NoNewline(line) && MatchesAt(line, 0)
    ensures Search(c[..p] + line + c[e..]) == Some(Span(p, p + |line|))
  {
    var r := c[..p] + line + c[e..];
    NoMatchAbove(c, r, p);
    assert forall i :: 0 <= i < |line| ==> r[p + i] == line[i];
    assert MatchesAt(r, p);
    SplicedLineEnd(c, p, e, line);
    FirstMatch(r, p);
  }

  lemma NoMatchAbove(c: string, r: string, p: nat)
    requires p <= |c| && p <= |r| && c[..p] == r[..p] && LineStart(c, p)
    requires forall q :: 0 <= q < p ==> !MatchesAt(c, q)
    ensures forall q :: 0 <= q < p ==> !MatchesAt(r, q)
  {
    forall q | 0 <= q < p
      ensures !MatchesAt(r, q)
    {
      SamePrefixSameMatches(c, r, p, q);
    }
  }

  lemma SplicedLineEnd(c: string, p: nat, e: nat, line: string)
    requires p <= e <= |c|
    requires e == |c| || c[e] == '\n'
    requires NoNewline(line)
    ensures LineEnd(c[..p] + line + c[e..], p) == p + |line|
  {
    var r := c[..p] + line + c[e..];
    forall k | p <= k < p + |line|
      ensures r[k] != '\n'
    {
      assert r[k] == line[k - p];
    }
    assert p + |line| == |r| || r[p + |line|] == c[e];
    LineEndUnique(r, p, p + |line|);
  }

  /** A match with none before it is the one `search` returns. */
  lemma FirstMatch(s: string, p: nat)
    requires p <= |s| && MatchesAt(s, p)
    requires forall q :: 0 <= q < p ==> !MatchesAt(s, q)
    ensures Search(s) == Some(Span(p, LineEnd(s, p)))
  {
    FindFromFirst(s, 0, p);
  }

  /** After the update, the first line the pattern finds is the written line,
      unless the content was appended to a last line with no newline. */
  lemma UpdateFindsLine(content: string, v: string)
    requires NoNewline(v)
    requires Search(content).Some? || |content| == 0 || content[|content| - 1] == '\n'
    ensures var p := Target(content).start;
      Search(UpdateInit(content, v)) == Some(Span(p, p + |VersionLine(v)|))
      && UpdateInit(content, v)[p..p + |VersionLine(v)|] == VersionLine(v)
  {
    VersionLineShape(v);
    SpliceFindsLine(content, VersionLine(v));
    SpliceHoldsLine(content, VersionLine(v));
  }

  lemma SpliceFindsLine(content: string, line: string)
    requires NoNewline(line) && MatchesAt(line, 0)
    requires Search(content).Some? || |content| == 0 || content[|content| - 1] == '\n'
    ensures Search(Splice(content, line)) == Some(Span(Target(content).start, Target(content).start + |line|))
  {
    var t := Target(content);
    TargetFacts(content);
    SplicedLineFound(content, t.start, t.end, line);
  }

  lemma SpliceHoldsLine(content: string, line: string)
    ensures Splice(content, line)[Target(content).start..Target(content).start + |line|] == line
  {
    var t := Target(content);
    assert (content[..t.start] + line + content[t.end..])[t.start..t.start + |line|] == line;
  }

  /** Running the update a second time with the same version changes nothing. */
  lemma UpdateIdempotent(content: string, v: string)
    requires NoNewline(v)
    requires Search(content).Some? || |content| == 0 || content[|content| - 1] == '\n'
    ensures UpdateInit(UpdateInit(content, v), v) == UpdateInit(content, v)
  {
    var r := UpdateInit(content, v);
    var p := Target(content).start;
    var line := VersionLine(v);
    UpdateFindsLine(content, v);
    assert r == r[..p] + r[p..p + |line|] + r[p + |line|..];
  }

  /** Only the first match is touched: the text before it and everything after
      its line, later matches included, are kept. */
  lemma UpdateKeepsRest(content: string, v: string)
    requires Search(content).Some?
    ensures var m := Search(content).value;
      var r := UpdateInit(content, v);
      r[..m.start] == content[..m.start]
      && r[m.start + |VersionLine(v)|..] == content[m.end..]
      && |r| == |content| - (m.end - m.start) + |VersionLine(v)|
  {
  }

  /** Without a match the original text is kept whole and the line follows it
      with no newline in between; when the last line has no newline the
      appended line is glued to it and is not found again, so a second run
      appends once more. */
  lemma UnterminatedAppend(c: string, v: string)
    requires Search(c).None? && |c| > 0 && c[|c| - 1] != '\n' && NoNewline(v)
    ensures UpdateInit(c, v) == c + VersionLine(v)
    ensures Search(c + VersionLine(v)).None?
    ensures UpdateInit(UpdateInit(c, v), v) == c + VersionLine(v) + VersionLine(v)
  {
    var line := VersionLine(v);
    var s := c + line;
    VersionLineShape(v);
    SearchLeftmost(c);
    forall q | 0 <= q <= |s|
      ensures !MatchesAt(s, q)
    {
      if q > |c| {
        assert s[q - 1] == line[q - 1 - |c|];
      } else if q < |c| {
        NoMatchAcrossEnd(c, line, q);
      }
    }
    SearchLeftmost(s);
    UpdateCases(c, v);
    UpdateCases(s, v);
  }

  /** A line starting with `__version__ =` glued to the end of `c` cannot
      complete a match that `c` lacks at an earlier line start `q`: the
      pattern would have to read `__version__` across the join. */
  lemma NoMatchAcrossEnd(c: string, line: string, q: nat)
    requires q < |c| && !MatchesAt(c, q)
    requires NameAt(line, 0) && |line| >= 13 && line[11] == ' ' && line[12] == '='
    ensures !MatchesAt(c + line, q)
  {
    var s := c + line;
    assert forall i :: 0 <= i < |c| ==> s[i] == c[i];
    assert forall i :: 0 <= i < 13 ==> s[|c| + i] == line[i];
  }

  /** A single line that does not start with the name has no match. */
  lemma SingleLineNoMatch(s: string)
    requires |s| > 0 && s[0] != '_' && NoNewline(s)
    ensures Search(s).None?
  {
    SearchLeftmost(s);
  }

  /** What the pattern accepts at the start of a line: no indentation and at
      most one space on either side of `=`. */
  lemma PatternExamples()
    ensures MatchesAt("__version__=\"0.1\"", 0)
    ensures MatchesAt("__version__ = \"0.1\"", 0)
    ensures !MatchesAt("__version__  = \"0.1\"", 0)
    ensures !MatchesAt("    __version__ = \"0.1\"", 0)
    ensures !MatchesAt("__version__: str = \"0.1\"", 0)
  {
  }

  /** setup.cfg as configparser holds it: sections of options. */
  type SetupCfg = map<string, map<string, string>>

  /** `get_version()`: `config["metadata"]["version"]`. */
  function GetVersion(cfg: SetupCfg): (r: Result<string, Error>)
    ensures r.Ok? <==> "metadata" in cfg && "version" in cfg["metadata"]
    ensures r.Ok? ==> r.value == cfg["metadata"]["version"]
    ensures "metadata" !in cfg ==> r == Err(KeyError("metadata"))
    ensures "metadata" in cfg && "version" !in cfg["metadata"] ==> r == Err(KeyError("version"))
  {
    if "metadata" !in cfg then Err(KeyError("metadata"))
    else if "version" !in cfg["metadata"] then Err(KeyError("version"))
    else Ok(cfg["metadata"]["version"])
  }

  /** `main()`: the new content of `__init__.py`, or the lookup error. */
  function Run(cfg: SetupCfg, content: string): (r: Result<string, Error>)
    ensures r.Err? <==> GetVersion(cfg).Err?
    ensures r.Err? ==> r.error == GetVersion(cfg).error
    ensures r.Ok? ==> r.value == UpdateInit(content, cfg["metadata"]["version"])
  {
    var version :- GetVersion(cfg);
    Ok(UpdateInit(content, version))
  }
}
