/** Choosing the caller's frame from the captured stack text
    (`getStackInfo` in src/logger_base.ts). The stack text itself, the
    two frame regexes and `path.relative` are inputs to the model. */
module Stack {
  import opened Results

  /** Lines dropped from the top of the stack text: the `Error` header
      line and the frames of `getStackInfo` and `getFileNameLine`. */
  const SkippedLines: nat := 3

  /** Why the caller's location could not be resolved. */
  datatype LogError =
    | NoStackFrame    // no line is left to parse: `throw new Error()`
    | FrameNotParsed  // neither regex matched: `getStackInfo` returns undefined

  /** Number of line feeds in `s`. */
  function CountNewlines(s: string): nat
  {
    if s == [] then 0 else (if s[0] == '\n' then 1 else 0) + CountNewlines(s[1..])
  }

  /** `text.split('\n')`: the pieces between line feeds, in order. There
      is one piece more than there are line feeds, and no piece holds a
      line feed. */
  function SplitLines(text: string): (r: seq<string>)
    ensures |r| == CountNewlines(text) + 1
    ensures forall k :: 0 <= k < |r| ==> '\n' !in r[k]
    decreases |text|
  {
    if text == [] then [""]
    else
      var rest := SplitLines(text[1..]);
      if text[0] == '\n' then [""] + rest
      else [[text[0]] + rest[0]] + rest[1..]
  }

  /** `lines.join('\n')`. */
  function JoinLines(lines: seq<string>): string
    requires |lines| >= 1
  {
    if |lines| == 1 then lines[0] else lines[0] + "\n" + JoinLines(lines[1..])
  }

  /** Joining the pieces of a split gives back the text. */
  lemma {:induction false} JoinSplit(text: string)
    ensures JoinLines(SplitLines(text)) == text
    decreases |text|
  {
    if text != [] {
      var rest := SplitLines(text[1..]);
      JoinSplit(text[1..]);
      if text[0] == '\n' {
        assert ([""] + rest)[1..] == rest;
      } else {
        var r := [[text[0]] + rest[0]] + rest[1..];
        if |rest| == 1 {
          assert JoinLines(r) == [text[0]] + rest[0];
        } else {
          assert r[1..] == rest[1..];
          assert JoinLines(r) == [text[0]] + (rest[0] + "\n" + JoinLines(rest[1..]));
        }
        assert text == [text[0]] + text[1..];
      }
    }
  }

  /** Splitting a text that starts with a line-feed-free word `w`. */
  lemma {:induction false} SplitLinesPrefix(w: string, t: string)
    requires '\n' !in w
    ensures SplitLines(w + t) == [w + SplitLines(t)[0]] + SplitLines(t)[1..]
    decreases |w|
  {
    if w != [] {
      var s := w + t;
      assert s[0] == w[0];
      assert s[1..] == w[1..] + t;
      SplitLinesPrefix(w[1..], t);
      assert [w[0]] + (w[1..] + SplitLines(t)[0]) == w + SplitLines(t)[0];
    } else {
      var st := SplitLines(t);
      assert w + t == t;
      assert w + st[0] == st[0];
      assert st == [st[0]] + st[1..];
    }
  }

  /** Splitting the join of line-feed-free pieces gives back the pieces. */
  lemma {:induction false} SplitJoin(lines: seq<string>)
    requires |lines| >= 1
    requires forall k :: 0 <= k < |lines| ==> '\n' !in lines[k]
    ensures SplitLines(JoinLines(lines)) == lines
    decreases |lines|
  {
    if |lines| == 1 {
      SplitLinesPrefix(lines[0], "");
      assert lines[0] + "" == lines[0];
    } else {
      var u := JoinLines(lines[1..]);
      SplitJoin(lines[1..]);
      assert SplitLines("\n" + u) == [""] + SplitLines(u);
      SplitLinesPrefix(lines[0], "\n" + u);
      assert lines[0] + "\n" + u == lines[0] + ("\n" + u);
      assert lines[0] + "" == lines[0];
      assert lines == [lines[0]] + lines[1..];
    }
  }

  /** `lines.slice(3)`: everything after the first three lines, or
      nothing when there are at most three. */
  function DropSkipped(lines: seq<string>): (r: seq<string>)
    ensures |r| == if |lines| > SkippedLines then |lines| - SkippedLines else 0
    ensures forall k :: 0 <= k < |r| ==> r[k] == lines[SkippedLines + k]
  {
    if |lines| > SkippedLines then lines[SkippedLines..] else []
  }

  /** The frame text `getStackInfo` parses:
      `stacklist?.[stackIndex] || stacklist?.[0]`. The element at
      `stackIndex` is used when it exists and is not empty (the empty
      string is falsy); otherwise the first remaining line, which may
      itself be empty. Resolution fails when the stack text is missing or
      has no line after the skipped ones. */
  function SelectFrame(stack: Option<string>, stackIndex: int): (r: Result<string, LogError>)
    ensures r.Err? ==> r.error == NoStackFrame
    ensures r.Ok? <==> stack.Some? && CountNewlines(stack.value) >= SkippedLines
    ensures r.Ok? ==> '\n' !in r.value
  {
    match stack
    case None => Err(NoStackFrame)
    case Some(text) =>
      var frames := DropSkipped(SplitLines(text));
      if 0 <= stackIndex < |frames| && frames[stackIndex] != "" then Ok(frames[stackIndex])
      else if |frames| > 0 then Ok(frames[0])
      else Err(NoStackFrame)
  }

  /** Which line of the stack text is chosen, stated on the lines of the
      text itself: line `3 + stackIndex` when it exists and is not
      empty, otherwise line 3. */
  lemma SelectFrameLine(text: string, stackIndex: int)
    requires CountNewlines(text) >= SkippedLines
    ensures var lines := SplitLines(text);
            var i := SkippedLines + stackIndex;
            SelectFrame(Some(text), stackIndex) ==
              Ok(if 0 <= stackIndex && i < |lines| && lines[i] != "" then lines[i]
                 else lines[SkippedLines])
  {
  }

  /** The four groups a frame regex captures: function name, file,
      line number and column, all as text. */
  datatype Frame = Frame(funcName: string, file: string, line: string, pos: string)

  /** The parts of `getStackInfo`'s result that the location field uses. */
  datatype StackInfo = StackInfo(funcName: string, relativePath: string, line: string, pos: string)

  /** `getStackInfo(stackIndex)`. `parse` stands for trying the named-
      function regex and then the anonymous-frame regex on the chosen
      line; `relative` stands for `path.relative` from the project root. */
  function GetStackInfo(stack: Option<string>, stackIndex: int,
                        parse: string -> Option<Frame>, relative: string -> string)
    : (r: Result<StackInfo, LogError>)
    ensures r == Err(NoStackFrame) <==> SelectFrame(stack, stackIndex).Err?
    ensures r == Err(FrameNotParsed) <==>
              SelectFrame(stack, stackIndex).Ok? && parse(SelectFrame(stack, stackIndex).value).None?
    ensures r.Ok? ==>
              var f := parse(SelectFrame(stack, stackIndex).value).value;
              r.value == StackInfo(f.funcName, relative(f.file), f.line, f.pos)
  {
    match SelectFrame(stack, stackIndex)
    case Err(e) => Err(e)
    case Ok(s) =>
      match parse(s)
      case None => Err(FrameNotParsed)
      case Some(f) => Ok(StackInfo(f.funcName, relative(f.file), f.line, f.pos))
  }
}
