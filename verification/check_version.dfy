/**
 * The release check (scripts/check_version.py): the section-aware reading of
 * `[project].version` from pyproject.toml, the `__version__` lookup in the
 * package's `__init__.py`, and the comparison against the release tag.
 *
 * Files are given as their contents (pyproject.toml already split into
 * lines), environment variables as strings ("" when unset), and what the
 * script prints and its exit status are returned.
 */
module VersionCheck {
  import opened Wrappers
  import opened Text

  const PyprojectMissingMessage: string := "Unable to locate [project].version in pyproject.toml"
  const InitMissingMessage: string := "__version__ not found in src/veotools/__init__.py"

  // ---------------------------------------------------------------- the pattern `name\s*="([^"]+)"`

  /** The first position at or after `i` that is not whitespace. */
  function SkipSpaces(s: string, i: nat): (j: nat)
    requires i <= |s|
    ensures i <= j <= |s| && (j == |s| || !IsSpace(s[j]))
    ensures forall k :: i <= k < j ==> IsSpace(s[k])
    decreases |s| - i
  {
    if i < |s| && IsSpace(s[i]) then SkipSpaces(s, i + 1) else i
  }

  /** The first `"` at or after `i`, or the end of `s`. */
  function QuoteAt(s: string, i: nat): (j: nat)
    requires i <= |s|
    ensures i <= j <= |s| && (j == |s| || s[j] == '"')
    ensures forall k :: i <= k < j ==> s[k] != '"'
    decreases |s| - i
  {
    if i < |s| && s[i] != '"' then QuoteAt(s, i + 1) else i
  }

  /**
   * The pattern `name\s*=\s*"([^"]+)"` anchored at position `p`: its group, if
   * it matches there. Each part of the pattern can match in one way only, so
   * no backtracking is needed.
   */
  function MatchAt(s: string, name: string, p: nat): (m: Option<string>)
    requires p <= |s|
    ensures m.Some? ==> m.value != [] && '"' !in m.value
  {
    if p + |name| <= |s| && s[p..p + |name|] == name then
      var eq := SkipSpaces(s, p + |name|);
      if eq < |s| && s[eq] == '=' then
        var open := SkipSpaces(s, eq + 1);
        if open < |s| && s[open] == '"' then
          var close := QuoteAt(s, open + 1);
          if open + 1 < close < |s| then Some(s[open + 1..close]) else None
        else None
      else None
    else None
  }

  /** `re.search`: the match at the leftmost position from `p` on where the pattern matches. */
  function Search(s: string, name: string, p: nat): (m: Option<string>)
    requires p <= |s|
    ensures m.Some? ==> m.value != [] && '"' !in m.value
    decreases |s| - p
  {
    match MatchAt(s, name, p)
    case Some(v) => Some(v)
    case None => if p < |s| then Search(s, name, p + 1) else None
  }

  predicate AllSpace(ws: string) {
    forall i :: 0 <= i < |ws| ==> IsSpace(ws[i])
  }

  lemma SkipSpacesStops(s: string, i: nat, j: nat)
    requires i <= j < |s| && !IsSpace(s[j]) && forall k :: i <= k < j ==> IsSpace(s[k])
    ensures SkipSpaces(s, i) == j
  {
  }

  lemma QuoteAtStops(s: string, i: nat, j: nat)
    requires i <= j < |s| && s[j] == '"' && forall k :: i <= k < j ==> s[k] != '"'
    ensures QuoteAt(s, i) == j
  {
  }

  /**
   * The pattern matches at the start of a line that begins with `name`, then
   * whitespace, `=`, whitespace and a non-empty quoted text without quotes,
   * and its group is that text.
   */
  lemma AssignmentMatches(s: string, name: string, eq: nat, open: nat, close: nat)
    requires |name| <= eq < open < close < |s| && s[..|name|] == name
    requires s[eq] == '=' && s[open] == '"' && s[close] == '"' && open + 1 < close
    requires forall k :: |name| <= k < eq ==> IsSpace(s[k])
    requires forall k :: eq < k < open ==> IsSpace(s[k])
    requires forall k :: open < k < close ==> s[k] != '"'
    ensures Search(s, name, 0) == Some(s[open + 1..close])
  {
    SkipSpacesStops(s, |name|, eq);
    SkipSpacesStops(s, eq + 1, open);
    QuoteAtStops(s, open + 1, close);
    assert s[0..|name|] == name;
  }

  /**
   * An assignment `name <ws>=<ws>"value"` is read back as its value, whatever
   * whitespace surrounds `=` and whatever follows the closing quote.
   */
  lemma AssignmentIsFound(name: string, ws1: string, ws2: string, value: string, rest: string)
    requires name != [] && AllSpace(ws1) && AllSpace(ws2)
    requires value != [] && '"' !in value
    ensures Search(name + ws1 + "=" + ws2 + "\"" + value + "\"" + rest, name, 0) == Some(value)
  {
    var s := name + ws1 + "=" + ws2 + "\"" + value + "\"" + rest;
    var eq := |name| + |ws1|;
    var open := eq + 1 + |ws2|;
    var close := open + 1 + |value|;
    assert s[..|name|] == name;
    assert s[eq] == '=' && s[open] == '"' && s[close] == '"';
    assert forall k :: |name| <= k < eq ==> s[k] == ws1[k - |name|];
    assert forall k :: eq < k < open ==> s[k] == ws2[k - eq - 1];
    assert forall k :: open < k < close ==> s[k] == value[k - open - 1];
    assert s[open + 1..close] == value;
    AssignmentMatches(s, name, eq, open, close);
  }

  // ---------------------------------------------------------------- read_pyproject_version

  /** A section header: a stripped line that starts with `[` and ends with `]`. */
  predicate IsHeader(line: string) {
    StartsWith(line, "[") && EndsWith(line, "]")
  }

  /** `in_project` when line `i` is reached: set by every header, to whether it is `[project]`. */
  function InProjectBefore(lines: seq<string>, i: nat): bool
    requires i <= |lines|
  {
    if i == 0 then false
    else if IsHeader(Strip(lines[i - 1])) then Strip(lines[i - 1]) == "[project]"
    else InProjectBefore(lines, i - 1)
  }

  /** The version line `i` yields: inside `[project]`, not a header, starting with `version`, and matching. */
  function Candidate(lines: seq<string>, i: nat): Option<string>
    requires i < |lines|
  {
    var line := Strip(lines[i]);
    if IsHeader(line) || !InProjectBefore(lines, i) || !StartsWith(line, "version") then None
    else Search(line, "version", 0)
  }

  function Candidates(lines: seq<string>): (cs: seq<Option<string>>)
    ensures |cs| == |lines| && forall i :: 0 <= i < |lines| ==> cs[i] == Candidate(lines, i)
  {
    seq(|lines|, i requires 0 <= i < |lines| => Candidate(lines, i))
  }

  /** The first value among `cs[i..]`. */
  function FirstSome(cs: seq<Option<string>>, i: nat): Option<string>
    requires i <= |cs|
    decreases |cs| - i
  {
    if i == |cs| then None
    else if cs[i].Some? then cs[i]
    else FirstSome(cs, i + 1)
  }

  /** The value found is at some position from `i` on with nothing before it; finding none means there is none. */
  lemma {:induction false} FirstSomeIsFirst(cs: seq<Option<string>>, i: nat)
    requires i <= |cs|
    ensures var r := FirstSome(cs, i);
      && (r.Some? ==> exists k :: i <= k < |cs| && cs[k] == r && forall j :: i <= j < k ==> cs[j].None?)
      && (r.None? ==> forall j :: i <= j < |cs| ==> cs[j].None?)
    decreases |cs| - i
  {
    if i < |cs| && cs[i].None? {
      FirstSomeIsFirst(cs, i + 1);
    }
  }

  /** `read_pyproject_version` as a value: the first candidate, or the error it raises. */
  function PyprojectVersion(lines: seq<string>): Result<string> {
    match FirstSome(Candidates(lines), 0)
    case Some(v) => Ok(v)
    case None => Err(RuntimeError(PyprojectMissingMessage))
  }

  /** The version read is the first candidate line's value; without one the reader raises. */
  lemma PyprojectVersionIsFirst(lines: seq<string>)
    ensures var r := PyprojectVersion(lines);
      && (r.Ok? ==> exists k :: 0 <= k < |lines| && Candidate(lines, k) == Some(r.value)
                      && forall j :: 0 <= j < k ==> Candidate(lines, j).None?)
      && (r.Err? ==> r.error == RuntimeError(PyprojectMissingMessage)
                      && forall j :: 0 <= j < |lines| ==> Candidate(lines, j).None?)
  {
    FirstSomeIsFirst(Candidates(lines), 0);
  }

  /** Every header decides the section up to the next header. */
  lemma {:induction false} HeaderSetsSection(lines: seq<string>, h: nat, j: nat)
    requires h < j <= |lines| && IsHeader(Strip(lines[h]))
    requires forall k :: h < k < j ==> !IsHeader(Strip(lines[k]))
    ensures InProjectBefore(lines, j) == (Strip(lines[h]) == "[project]")
    decreases j
  {
    if j - 1 > h {
      HeaderSetsSection(lines, h, j - 1);
    }
  }

  /** Lines before the first header belong to no section and are never read. */
  lemma {:induction false} NoSectionBeforeHeaders(lines: seq<string>, j: nat)
    requires j <= |lines|
    requires forall k :: 0 <= k < j ==> !IsHeader(Strip(lines[k]))
    ensures !InProjectBefore(lines, j)
    decreases j
  {
    if j > 0 {
      NoSectionBeforeHeaders(lines, j - 1);
    }
  }

  /** What line `i` contributes, given the section flag in force when it is reached. */
  lemma LineStep(lines: seq<string>, i: nat, inProject: bool)
    requires i < |lines| && inProject == InProjectBefore(lines, i)
    ensures var line := Strip(lines[i]);
      && InProjectBefore(lines, i + 1) == (if IsHeader(line) then line == "[project]" else inProject)
      && Candidate(lines, i) ==
           (if IsHeader(line) || !inProject || !StartsWith(line, "version") then None else Search(line, "version", 0))
  {
  }

  /** `read_pyproject_version`: one pass over the lines, keeping the `in_project` flag. */
  method ReadPyprojectVersion(lines: seq<string>) returns (r: Result<string>)
    ensures r == PyprojectVersion(lines)
  {
    ghost var cs := Candidates(lines);
    var inProject := false;
    var found: Option<string> := None;
    var i := 0;
    while i < |lines| && found.None?
      invariant i <= |lines|
      invariant found.None? ==> inProject == InProjectBefore(lines, i) && FirstSome(cs, i) == FirstSome(cs, 0)
      invariant found.Some? ==> found == FirstSome(cs, 0)
      decreases |lines| - i, if found.None? then 1 else 0
    {
      LineStep(lines, i, inProject);
      var stripped := Strip(lines[i]);
      if StartsWith(stripped, "[") && EndsWith(stripped, "]") {
        inProject := stripped == "[project]";
        i := i + 1;
      } else if inProject && StartsWith(stripped, "version") && Search(stripped, "version", 0).Some? {
        found := Search(stripped, "version", 0);
      } else {
        i := i + 1;
      }
    }
    if found.Some? {
      return Ok(found.value);
    }
    return Err(RuntimeError(PyprojectMissingMessage));
  }

  // ---------------------------------------------------------------- read_init_version

  /** `read_init_version`: the first `__version__ = "..."` anywhere in the file. */
  function InitVersion(text: string): (r: Result<string>)
    ensures r.Err? <==> Search(text, "__version__", 0).None?
    ensures r.Err? ==> r.error == RuntimeError(InitMissingMessage)
    ensures r.Ok? ==> r.value != [] && '"' !in r.value
  {
    match Search(text, "__version__", 0)
    case Some(v) => Ok(v)
    case None => Err(RuntimeError(InitMissingMessage))
  }

  // ---------------------------------------------------------------- main

  /** `(GITHUB_REF_NAME or GITHUB_TAG or "").lstrip("v")`. */
  function TagVersion(refName: string, tagName: string): (v: string)
    ensures var tag := if refName != [] then refName else tagName;
      |v| <= |tag| && v == tag[|tag| - |v|..] && (v == [] || v[0] != 'v')
      && forall i :: 0 <= i < |tag| - |v| ==> tag[i] == 'v'
  {
    var tag := if refName != [] then refName else tagName;
    LStripCharRemovesLeading(tag, 'v');
    LStripChar(tag, 'v')
  }

  function TagMismatch(pyVersion: string, tagVersion: string): string {
    "pyproject version " + pyVersion + " != tag " + tagVersion
  }

  function InitMismatch(initVersion: string, pyVersion: string): string {
    "__version__ " + initVersion + " != pyproject " + pyVersion
  }

  /** What the script reports once both versions are read: its error lines, its exit status and its success line. */
  datatype Report = Report(errors: seq<string>, exitCode: int, output: string)

  /** The errors `main` collects, in order. */
  function Mismatches(tagVersion: string, pyVersion: string, initVersion: string): seq<string> {
    (if tagVersion != [] && pyVersion != tagVersion then [TagMismatch(pyVersion, tagVersion)] else [])
    + (if initVersion != pyVersion then [InitMismatch(initVersion, pyVersion)] else [])
  }

  /**
   * `main`. `warned` is whether the missing-tag warning was printed, which
   * happens before either file is read, so also when reading then fails. A
   * version that cannot be read ends the script with that error; otherwise it
   * exits 1 after printing the errors, or prints the version.
   */
  method CheckRelease(refName: string, tagName: string, pyproject: seq<string>, initText: string)
    returns (warned: bool, r: Result<Report>)
    ensures warned <==> TagVersion(refName, tagName) == []
    ensures var py := PyprojectVersion(pyproject);
      var init := InitVersion(initText);
      && (py.Err? ==> r == Err(py.error))
      && (py.Ok? && init.Err? ==> r == Err(init.error))
      && (py.Ok? && init.Ok? ==>
            var tag := TagVersion(refName, tagName);
            && r.Ok?
            && r.value.errors == Mismatches(tag, py.value, init.value)
            && (r.value.exitCode == 1 <==> r.value.errors != [])
            && (r.value.exitCode == 0 <==> r.value.errors == [])
            && (r.value.errors == [] ==> r.value.output == "Version OK: " + py.value))
  {
    var tagVersion := TagVersion(refName, tagName);
    warned := tagVersion == [];
    var py := ReadPyprojectVersion(pyproject);
    if py.Err? {
      r := Err(py.error);
      return;
    }
    var init := InitVersion(initText);
    if init.Err? {
      r := Err(init.error);
      return;
    }
    var errors: seq<string> := [];
    if tagVersion != [] && py.value != tagVersion {
      errors := errors + [TagMismatch(py.value, tagVersion)];
    }
    if init.value != py.value {
      errors := errors + [InitMismatch(init.value, py.value)];
    }
    if errors != [] {
      r := Ok(Report(errors, 1, ""));
      return;
    }
    r := Ok(Report(errors, 0, "Version OK: " + py.value));
  }

  /** The check fails exactly when the tag is set and differs from pyproject, or `__version__` differs from pyproject. */
  lemma ExitIffMismatch(tagVersion: string, pyVersion: string, initVersion: string)
    ensures Mismatches(tagVersion, pyVersion, initVersion) != [] <==>
      (tagVersion != [] && pyVersion != tagVersion) || initVersion != pyVersion
    ensures |Mismatches(tagVersion, pyVersion, initVersion)| <= 2
  {
  }

  /** Without a tag only the `__version__` comparison is made. */
  lemma EmptyTagSkipsOnlyTag(pyVersion: string, initVersion: string)
    ensures Mismatches([], pyVersion, initVersion) ==
      if initVersion != pyVersion then [InitMismatch(initVersion, pyVersion)] else []
  {
  }

  /** A tag `v<version>` (any number of `v`s) agreeing with both files passes. */
  lemma MatchingTagPasses(refName: string, version: string)
    requires version != [] && version[0] != 'v'
    requires |refName| >= |version| && refName[|refName| - |version|..] == version
    requires forall i :: 0 <= i < |refName| - |version| ==> refName[i] == 'v'
    ensures TagVersion(refName, []) == version
    ensures Mismatches(TagVersion(refName, []), version, version) == []
  {
    var k := |refName| - |version|;
    assert refName == refName[..k] + version;
    LStripPrefix(refName[..k], version, 'v');
  }

  /** Stripping a run of `c`s in front of a text that does not start with `c` leaves that text. */
  lemma {:induction false} LStripPrefix(run: string, rest: string, c: char)
    requires forall i :: 0 <= i < |run| ==> run[i] == c
    requires rest == [] || rest[0] != c
    ensures LStripChar(run + rest, c) == rest
  {
    if run != [] {
      assert (run + rest)[1..] == run[1..] + rest;
      LStripPrefix(run[1..], rest, c);
    } else {
      assert run + rest == rest;
    }
  }
}
