/** The caller-location field of a category log line (`getFileNameLine`
    in src/logger_base.ts): the relative path cut to its last 25
    characters and right-justified to 25, a space, and the line number
    right-justified to 5. */
module Location {
  import opened Results
  import opened Padding
  import opened Stack

  /** Width of the path column; longer paths keep only their tail. */
  const MaxRelativePathLength: nat := 25

  /** Minimum width of the line-number column. */
  const LineWidth: nat := 5

  /** The stack index `getFileNameLine` asks for: one frame below the
      facade's public logging method, i.e. its caller. */
  const CallerIndex: int := 1

  /** Number of path characters that reach the field: min(|path|, 25). */
  function ShownLength(path: string): nat
  {
    if |path| > MaxRelativePathLength then MaxRelativePathLength else |path|
  }

  /** The path as shown: its last 25 characters when it is longer than
      that, otherwise the whole path. */
  function TruncatePath(path: string): (r: string)
    ensures |r| == ShownLength(path)
    ensures r == path[|path| - |r|..]
  {
    if |path| > MaxRelativePathLength then path[|path| - MaxRelativePathLength..] else path
  }

  /** The path column: exactly 25 wide, ending with the path's last
      characters (all of them when the path is short), spaces before them. */
  function PathField(relativePath: string): (r: string)
    ensures |r| == MaxRelativePathLength
    ensures r[MaxRelativePathLength - ShownLength(relativePath)..]
            == relativePath[|relativePath| - ShownLength(relativePath)..]
    ensures AllSpaces(r[..MaxRelativePathLength - ShownLength(relativePath)])
  {
    var shown := TruncatePath(relativePath);
    assert |shown| == ShownLength(relativePath) <= MaxRelativePathLength;
    PadLeft(shown, MaxRelativePathLength)
  }

  /** The line column: at least 5 wide, ending with the whole line text
      (a longer line number is never cut), spaces before it. */
  function LineField(line: string): (r: string)
    ensures |r| == Max(|line|, LineWidth)
    ensures r[|r| - |line|..] == line
    ensures AllSpaces(r[..|r| - |line|])
  {
    PadLeft(line, LineWidth)
  }

  /** `a + " " + b` cut at its seams. */
  lemma JoinedBySpace(a: string, b: string)
    ensures var r := a + " " + b;
            && |r| == |a| + 1 + |b|
            && r[..|a|] == a
            && r[|a|] == ' '
            && r[|a| + 1..] == b
  {
    var r := a + " " + b;
    assert r[|a| + 1..] == b;
  }

  /** The location field for a relative path and a line-number text: the
      path column, one space, then the line column. */
  function LocationField(relativePath: string, line: string): (r: string)
    ensures |r| == MaxRelativePathLength + 1 + Max(|line|, LineWidth)
    ensures r[..MaxRelativePathLength] == PathField(relativePath)
    ensures r[MaxRelativePathLength] == ' '
    ensures r[MaxRelativePathLength + 1..] == LineField(line)
  {
    JoinedBySpace(PathField(relativePath), LineField(line));
    PathField(relativePath) + " " + LineField(line)
  }

  /** The field can be read back: trimming the leading spaces of the path
      column gives the shown path, and of the line column the line text,
      unless those themselves start with a space. */
  lemma LocationFieldReadBack(relativePath: string, line: string)
    requires |relativePath| == 0 || relativePath[|relativePath| - ShownLength(relativePath)] != ' '
    requires |line| == 0 || line[0] != ' '
    ensures var r := LocationField(relativePath, line);
            && TrimLeft(r[..MaxRelativePathLength]) == TruncatePath(relativePath)
            && TrimLeft(r[MaxRelativePathLength + 1..]) == line
  {
    var r := LocationField(relativePath, line);
    assert TruncatePath(relativePath) == relativePath[|relativePath| - ShownLength(relativePath)..];
    TrimLeftPadLeft(TruncatePath(relativePath), MaxRelativePathLength);
    TrimLeftPadLeft(line, LineWidth);
  }

  /** Two paths that end in the same 25 characters get the same field:
      only the tail of a long path is identifying. */
  lemma LocationFieldKeepsTail(path1: string, path2: string, line: string)
    requires |path1| >= MaxRelativePathLength && |path2| >= MaxRelativePathLength
    requires path1[|path1| - MaxRelativePathLength..] == path2[|path2| - MaxRelativePathLength..]
    ensures LocationField(path1, line) == LocationField(path2, line)
  {
    assert TruncatePath(path1) == TruncatePath(path2);
  }

  /** `getFileNameLine()`: resolve the caller's frame, then format its
      relative path and line. A failed resolution propagates. */
  function GetFileNameLine(stack: Option<string>, parse: string -> Option<Frame>,
                           relative: string -> string): (r: Result<string, LogError>)
    ensures r.Ok? <==> SelectFrame(stack, CallerIndex).Ok? && parse(SelectFrame(stack, CallerIndex).value).Some?
    ensures r.Err? ==> r.error == if SelectFrame(stack, CallerIndex).Err? then NoStackFrame else FrameNotParsed
    ensures r.Ok? ==>
              var f := parse(SelectFrame(stack, CallerIndex).value).value;
              r.value == LocationField(relative(f.file), f.line)
  {
    match GetStackInfo(stack, CallerIndex, parse, relative)
    case Err(e) => Err(e)
    case Ok(info) => Ok(LocationField(info.relativePath, info.line))
  }
}
