/** The two line-oriented helpers of the packaging script: reading the
    version string out of the package's `__init__.py` and reading the
    requirement list. The files' contents are given as their lines, each
    with its line terminator, as `readlines()` returns them. */
module Setup {
  import opened Results
  import opened Strings

  datatype SetupError =
    /** `RuntimeError`: no line starts with `__version__`. */
    | VersionNotFound
    /** `IndexError`: the version line holds no quote character, so
        `split` yields a single piece and `[1]` fails. */
    | NoSecondPiece

  const VersionPrefix: string := "__version__"

  /** The quote the version line is split on: a double quote when the line
      holds one anywhere, otherwise a single quote. */
  function Delimiter(line: string): (d: char)
    ensures d == '"' <==> '"' in line
    ensures d != '"' ==> d == '\''
  {
    if '"' in line then '"' else '\''
  }

  /** `line.split(delim)[1].strip()`: the text between the first and the
      second quote (or the end of the line), without surrounding
      whitespace; fails when the line holds no quote at all. */
  function VersionFromLine(line: string): (r: Result<string, SetupError>)
    ensures r.Ok? <==> ('"' in line || '\'' in line)
    ensures r.Err? ==> r.error == NoSecondPiece
    ensures r.Ok? ==>
              Delimiter(line) in line
              && r.value == Strip(UpTo(line[FirstIndex(line, Delimiter(line)) + 1..], Delimiter(line)))
  {
    var d := Delimiter(line);
    SplitSecondPiece(line, d);
    var parts := Split(line, d);
    if |parts| < 2 then Err(NoSecondPiece) else Ok(Strip(parts[1]))
  }

  /** The result of the scan over the lines: the first line that starts with
      `__version__` decides it; no such line is a `RuntimeError`. */
  function VersionOf(lines: seq<string>): Result<string, SetupError> {
    if |lines| == 0 then Err(VersionNotFound)
    else if StartsWith(lines[0], VersionPrefix) then VersionFromLine(lines[0])
    else VersionOf(lines[1..])
  }

  /** `get_version`: the loop over the lines with its early return and the
      fall-through raise. */
  method GetVersion(lines: seq<string>) returns (r: Result<string, SetupError>)
    ensures r == VersionOf(lines)
  {
    var i := 0;
    while i < |lines|
      invariant 0 <= i <= |lines|
      invariant VersionOf(lines) == VersionOf(lines[i..])
    {
      var line := lines[i];
      if StartsWith(line, VersionPrefix) {
        var delim := if '"' in line then '"' else '\'';
        var parts := Split(line, delim);
        if |parts| < 2 {
          return Err(NoSecondPiece);
        }
        return Ok(Strip(parts[1]));
      }
      assert lines[i..][1..] == lines[i + 1..];
      i := i + 1;
    }
    return Err(VersionNotFound);
  }

  /** The first line starting with `__version__` determines the result:
      the lines before it (which may mention `__version__` anywhere but at
      their start) are skipped and the lines after it are never looked at. */
  lemma {:induction false} FirstVersionLineDecides(before: seq<string>, line: string, after: seq<string>)
    requires forall j :: 0 <= j < |before| ==> !StartsWith(before[j], VersionPrefix)
    requires StartsWith(line, VersionPrefix)
    ensures VersionOf(before + [line] + after) == VersionFromLine(line)
  {
    if |before| > 0 {
      assert (before + [line] + after)[1..] == before[1..] + [line] + after;
      FirstVersionLineDecides(before[1..], line, after);
    } else {
      assert (before + [line] + after)[0] == line;
    }
  }

  /** `RuntimeError` is raised exactly when no line starts with `__version__`. */
  lemma {:induction false} VersionNotFoundIff(lines: seq<string>)
    ensures VersionOf(lines) == Err(VersionNotFound)
            <==> forall j :: 0 <= j < |lines| ==> !StartsWith(lines[j], VersionPrefix)
  {
    if |lines| > 0 {
      VersionNotFoundIff(lines[1..]);
      assert forall j :: 1 <= j < |lines| ==> lines[j] == lines[1..][j - 1];
    }
  }

  /** `get_requirements`: every line, in file order, stripped. */
  function Requirements(lines: seq<string>): (reqs: seq<string>)
    ensures |reqs| == |lines|
  {
    seq(|lines|, i requires 0 <= i < |lines| => Strip(lines[i]))
  }

  /** One requirement per line, in order: each is its line without the
      surrounding whitespace (terminator included), a blank line gives the
      empty string, and no requirement starts or ends with whitespace. */
  lemma RequirementsAreStrippedLines(lines: seq<string>)
    ensures forall i :: 0 <= i < |lines| ==>
      Requirements(lines)[i] == Strip(lines[i])
      && (Requirements(lines)[i] == [] <==> AllSpace(lines[i]))
      && (Requirements(lines)[i] != [] ==>
            !IsSpace(Requirements(lines)[i][0])
            && !IsSpace(Requirements(lines)[i][|Requirements(lines)[i]| - 1]))
  {
    forall i | 0 <= i < |lines| ensures Requirements(lines)[i] == [] <==> AllSpace(lines[i]) {
      StripBlank(lines[i]);
    }
  }
}
