/** Line composition of the logging facade (src/logger_base.ts): the
    printf format both transports share, the category message built by
    `info`/`warn`/`error`/`debug`, and the raw `defaultDebug` and
    `defaultError` lines. The timestamp is an input: it comes from the
    clock through a date library. */
module Logger {
  import opened Results
  import opened Padding
  import opened Levels
  import opened Body
  import opened Stack
  import opened Location

  /** The subsystem tags a category line can carry. */
  datatype Category = Db
  {
    function Tag(): string
    {
      match this
      case Db => "[DB]"
    }
  }

  /** The printf format of both transports: timestamp, a space, the level
      code, a space, then the message as it was written. */
  function FormatLine(timestamp: string, levelName: string, message: string): (r: string)
    ensures |r| == |timestamp| + 5 + |message|
    ensures r[..|timestamp|] == timestamp
    ensures r[|timestamp|] == ' ' && r[|timestamp| + 4] == ' '
    ensures r[|timestamp| + 1..|timestamp| + 4] in Codes
    ensures r[|timestamp| + 1..|timestamp| + 4] == LevelString(levelName)
    ensures r[|timestamp| + 5..] == message
  {
    var code := LevelString(levelName);
    var r := timestamp + " " + code + " " + message;
    assert r[..|timestamp|] == timestamp;
    assert r[|timestamp| + 1..|timestamp| + 4] == code;
    assert r[|timestamp| + 5..] == message;
    r
  }

  /** The message a category method hands to the writer: location
      field, tag and body, separated by single spaces. */
  function CategoryMessage(location: string, category: Category, body: string): (r: string)
    ensures |r| == |location| + |category.Tag()| + |body| + 2
    ensures r[..|location|] == location
    ensures r[|r| - |body|..] == body
    ensures r[|location|..|r| - |body|] == " " + category.Tag() + " "
  {
    var r := location + " " + category.Tag() + " " + body;
    assert r[..|location|] == location;
    assert r[|r| - |body|..] == body;
    assert r[|location|..|r| - |body|] == " " + category.Tag() + " ";
    r
  }

  /** A category line spelled out: formatting the category message gives
      timestamp, code, location, tag and body, separated by single spaces. */
  lemma ComposedLine(timestamp: string, level: Level, location: string, category: Category, body: string)
    ensures FormatLine(timestamp, level.Name(), CategoryMessage(location, category, body))
            == timestamp + " " + level.Code() + " " + location + " " + category.Tag() + " " + body
  {
    LevelStringOfLevel(level);
    var head := timestamp + " " + level.Code() + " ";
    var message := CategoryMessage(location, category, body);
    assert message == location + " " + category.Tag() + " " + body;
    assert FormatLine(timestamp, level.Name(), message) == head + message;
    Regroup(head, location, " " + category.Tag() + " ", body);
  }

  /** `h + (a + b + c)` regrouped to the left. */
  lemma Regroup(h: string, a: string, b: string, c: string)
    ensures h + (a + b + c) == h + a + b + c
  {
    assert a + b + c == a + (b + c);
    assert h + (a + (b + c)) == (h + a) + (b + c);
    assert (h + a) + (b + c) == h + a + b + c;
  }

  /** `info`, `warn`, `error` or `debug` with a category tag and
      arguments, as the line a transport prints. The caller's location is
      resolved first; when that fails the call throws and nothing is
      printed. */
  function Log<O>(level: Level, timestamp: string, category: Category, args: seq<Arg<O>>,
                  stack: Option<string>, parse: string -> Option<Frame>,
                  relative: string -> string, serialize: O -> string)
    : (r: Result<string, LogError>)
    ensures r.Ok? <==> GetFileNameLine(stack, parse, relative).Ok?
    ensures r.Err? ==> r.error == GetFileNameLine(stack, parse, relative).error
    ensures r.Ok? ==>
              var f := parse(SelectFrame(stack, CallerIndex).value).value;
              r.value == timestamp + " " + level.Code() + " " + LocationField(relative(f.file), f.line)
                         + " " + category.Tag() + " " + LogString(args, serialize)
  {
    match GetFileNameLine(stack, parse, relative)
    case Err(e) => Err(e)
    case Ok(location) =>
      ComposedLine(timestamp, level, location, category, LogString(args, serialize));
      Ok(FormatLine(timestamp, level.Name(), CategoryMessage(location, category, LogString(args, serialize))))
  }

  /** Where the fields of a category line sit, for the line `Log` returns
      when the caller's frame has path `relativePath` and line `lineText`:
      the level code one column after the timestamp, the 25-wide path
      column five columns after it and a space behind that, and at the end
      the tag between single spaces and then the body. */
  lemma LineLayout(timestamp: string, level: Level, relativePath: string, lineText: string,
                   category: Category, body: string)
    ensures var location := LocationField(relativePath, lineText);
            var line := timestamp + " " + level.Code() + " " + location + " " + category.Tag() + " " + body;
            var t := |timestamp|;
            && line[..t] == timestamp
            && line[t + 1..t + 4] == level.Code()
            && line[t + 5..t + 5 + MaxRelativePathLength] == PathField(relativePath)
            && line[t + 5 + MaxRelativePathLength] == ' '
            && line[|line| - |body|..] == body
            && line[|line| - |body| - |category.Tag()| - 2..|line| - |body|] == " " + category.Tag() + " "
  {
    var location := LocationField(relativePath, lineText);
    var line := timestamp + " " + level.Code() + " " + location + " " + category.Tag() + " " + body;
    ConcatLayout(line, timestamp, level.Code(), location, PathField(relativePath), category, body);
  }

  /** Positions in `timestamp + " " + code + " " + location + " " + tag +
      " " + body` when the location starts with a 25-wide column and a
      space. */
  lemma ConcatLayout(line: string, timestamp: string, code: string, location: string, column: string,
                     category: Category, body: string)
    requires line == timestamp + " " + code + " " + location + " " + category.Tag() + " " + body
    requires |code| == 3
    requires |location| > MaxRelativePathLength
    requires location[..MaxRelativePathLength] == column && location[MaxRelativePathLength] == ' '
    ensures var t := |timestamp|;
            && line[..t] == timestamp
            && line[t + 1..t + 4] == code
            && line[t + 5..t + 5 + MaxRelativePathLength] == column
            && line[t + 5 + MaxRelativePathLength] == ' '
            && line[|line| - |body|..] == body
            && line[|line| - |body| - |category.Tag()| - 2..|line| - |body|] == " " + category.Tag() + " "
  {
    var sep := " " + category.Tag() + " ";
    var head := timestamp + " " + code + " ";
    var tail := location + sep + body;
    assert line == head + tail;
    Slices(head, tail);
    Slices(location, sep + body);
    Slices(location + sep, body);
    Slices(location, sep);
    var t := |timestamp|;
    assert line[t + 5..t + 5 + MaxRelativePathLength] == line[t + 5..t + 5 + |location|][..MaxRelativePathLength];
  }

  /** Slicing a concatenation at the seam gives back its parts. */
  lemma Slices(a: string, b: string)
    ensures (a + b)[..|a|] == a && (a + b)[|a|..] == b
  {
  }

  /** `defaultDebug(str)`: the text alone at debug level, with no
      location or tag. */
  function DefaultDebug(timestamp: string, str: string): (r: string)
    ensures r == timestamp + " DBG " + str
  {
    LevelStringOfLevel(Debug);
    FormatLine(timestamp, Debug.Name(), str)
  }

  /** `defaultError(str)`: the text alone at error level. */
  function DefaultError(timestamp: string, str: string): (r: string)
    ensures r == timestamp + " ERR " + str
  {
    LevelStringOfLevel(Error);
    FormatLine(timestamp, Error.Name(), str)
  }

  /** The location field of line 42 of `src/db.ts`. */
  lemma ExampleLocation()
    ensures LocationField("src/db.ts", "42") == "                src/db.ts    42"
  {
    ExamplePathColumn();
    ExampleLineColumn();
  }

  lemma ExamplePathColumn()
    ensures PathField("src/db.ts") == "                src/db.ts"
  {
    var path := "                src/db.ts";
    assert TruncatePath("src/db.ts") == "src/db.ts";
    assert path[16..] == "src/db.ts" && AllSpaces(path[..16]);
    PadLeftCharacterization("src/db.ts", MaxRelativePathLength, path);
  }

  lemma ExampleLineColumn()
    ensures LineField("42") == "   42"
  {
    var line := "   42";
    assert line[3..] == "42" && AllSpaces(line[..3]);
    PadLeftCharacterization("42", LineWidth, line);
  }

  /** The body of the arguments `"connected"` and `{port: 5432}`. */
  lemma ExampleBody<O>(port: O, serialize: O -> string)
    requires serialize(port) == "{\"port\":5432}"
    ensures LogString([Scalar("connected"), Object(port)], serialize) == "connected\t{\"port\":5432}\t"
  {
    var args: seq<Arg<O>> := [Scalar("connected"), Object(port)];
    var first: seq<Arg<O>> := [Scalar("connected")];
    assert args[..1] == first;
    assert first[..0] == [];
    assert LogString(first, serialize) == "connected\t";
  }

  lemma ExampleJoin(timestamp: string, location: string, body: string)
    ensures timestamp + " " + Info.Code() + " " + location + " " + Db.Tag() + " " + body
            == timestamp + " INF " + location + " [DB] " + body
  {
    assert " " + Info.Code() + " " == " INF ";
    assert " " + Db.Tag() + " " == " [DB] ";
  }

  /** A worked line: `info(Db, "connected", {port: 5432})` called from
      line 42 of `src/db.ts`. The path is padded to 25 columns and the
      line number to 5; the body ends each argument with a tab. */
  lemma InfoExample<O>(timestamp: string, stack: Option<string>, parse: string -> Option<Frame>,
                       relative: string -> string, serialize: O -> string,
                       funcName: string, file: string, pos: string, port: O)
    requires SelectFrame(stack, CallerIndex).Ok?
    requires parse(SelectFrame(stack, CallerIndex).value) == Some(Frame(funcName, file, "42", pos))
    requires relative(file) == "src/db.ts"
    requires serialize(port) == "{\"port\":5432}"
    ensures Log(Info, timestamp, Db, [Scalar("connected"), Object(port)], stack, parse, relative, serialize)
            == Ok(timestamp + " INF " + "                src/db.ts    42" + " [DB] " + "connected\t{\"port\":5432}\t")
  {
    var args: seq<Arg<O>> := [Scalar("connected"), Object(port)];
    ExampleBody(port, serialize);
    ExampleLocation();
    var location := LocationField("src/db.ts", "42");
    assert GetFileNameLine(stack, parse, relative) == Ok(location);
    ExampleJoin(timestamp, location, LogString(args, serialize));
  }
}
