# Logger line formatting, in Dafny

A model of the pure string-formatting logic of the logging facade in
`src/logger_base.ts` (a TypeScript wrapper around winston). The facade
writes lines of the shape

    <timestamp> <level code> <path column> <line column> <category tag> <body>

where the level code is a three-letter code looked up from the level name,
the path column is the caller's project-relative path cut to its last 25
characters and right-justified to 25, the line column is the caller's line
number right-justified to at least 5, and the body is every logged argument
as text followed by a tab. The caller is found by splitting the captured
stack text into lines, dropping the first three, and picking a frame.

The model is functional: strings are `seq<char>`, every operation is a
function or a short method over sequences, and everything the facade gets
from its runtime is an input:

- the timestamp is a `string` parameter;
- the captured stack text is an `Option<string>` (`None` when the runtime
  gives no `stack`);
- the two frame regexes are one `parse: string -> Option<Frame>` parameter
  giving the four captured groups of the first regex that matches;
- `path.relative` from the project root is a `relative: string -> string`
  parameter;
- `JSON.stringify` is a `serialize: O -> string` parameter over the type
  `O` of object arguments; a non-object argument is `Scalar(text)` holding
  the text that `args[i] + '\t'` converts it to. Symbol arguments, for
  which that conversion throws, are not modelled.

Modules, one per file: `Results` (Option and Result), `Padding`
(`createPaddingString`), `Levels` (the level table and its lookup), `Body`
(`getLogString`), `Stack` (frame selection in `getStackInfo`), `Location`
(`getFileNameLine`) and `Logger` (the printf format and the public
logging methods).

The model follows these details of the code:

- The caller's frame is the element at index 1 of the lines left after
  dropping three (`stacklist?.[stackIndex]` with `stackIndex` 1). When that
  element is missing or empty, the element at index 0 is used.
- The line column is at least 5 wide; a longer line-number text is kept
  whole.
- The body puts a tab after every argument, the last one included.
- When no frame regex matches, `getStackInfo` returns `undefined`, and
  `getFileNameLine` then fails when it reads `relativePath` from it. The
  explicit `throw` when no line is left and this failure are both `Err`
  results (`NoStackFrame`, `FrameNotParsed`).
- The level enumeration has no `warn`, but `warn` is written at winston's
  `warn` level and the table maps `WARN` to `WRN`; the model's `Level` has
  all four.

## Model

| member | source | states |
|---|---|---|
| Padding.Spaces | src/logger_base.ts:117-121 | the padding built by the loop has exactly max(n, 0) characters, all spaces |
| Padding.PadLeft | src/logger_base.ts:116-123 | the padded string has length max(|s|, width), ends with s, has only spaces before it, and is s itself when s is already at least width long (never truncates) |
| Padding.PadLeftCharacterization | src/logger_base.ts:116-123 | a string is the padded form of s if and only if it has the padded length, ends with s and has only spaces before s |
| Padding.CreatePaddingString | src/logger_base.ts:116-123 | the loop that appends one space per step up to maxPaddingSize - |str| (zero steps when negative) yields a string of length max(|str|, width) ending in str with spaces before it, equal to PadLeft |
| Padding.TrimLeftPadLeft | src/logger_base.ts:116-123 | padding is undone by removing leading spaces when the value does not itself start with a space |
| Levels.ToUpper | src/logger_base.ts:61 | upper-casing keeps the length and upper-cases each ASCII letter in place |
| Levels.LevelString | src/logger_base.ts:60-66 | the code is always one of INF, DBG, WRN, ERR; INF/WRN/ERR exactly when the upper-cased name is INFO/WARN/ERROR, and DBG for every other name, unknown ones included |
| Levels.LevelStringOfLevel | src/logger_base.ts:30-34 | the table gives debug, info, warn and error the codes DBG, INF, WRN and ERR |
| Levels.ToUpperMatches | src/logger_base.ts:61-62 | upper-casing a name gives an upper-case word exactly when the name spells that word with letters in either case |
| Levels.LevelStringIgnoresCase | src/logger_base.ts:60-66 | the lookup is case-insensitive: any mixed-case spelling of info, warn or error gets that code, and only names that spell none of them get DBG |
| Levels.LevelStringOfUpper | src/logger_base.ts:61-65 | looking up an already upper-cased name gives the same code |
| Body.Overwrite | src/logger_base.ts:151-153 | an object argument is replaced by its serialisation, a non-object one is kept, and the printed text does not change |
| Body.Normalize | src/logger_base.ts:150-153 | the array after the loop has the same length and holds, at every index, the overwritten argument |
| Body.GetLogString | src/logger_base.ts:148-158 | the loop returns the in-order concatenation of each argument's text plus a tab, and leaves the array `Normalize` describes: every object element replaced by its serialisation and every other element unchanged |
| Body.LogStringAppend | src/logger_base.ts:150-155 | the body of a concatenated argument list is the concatenation of the two bodies |
| Body.LogStringCons | src/logger_base.ts:150-155 | read front to back, the body is the first argument's text, a tab, then the body of the rest |
| Body.LogStringLength | src/logger_base.ts:148-158 | the body is as long as the argument texts together plus one tab per argument |
| Body.NormalizeStable | src/logger_base.ts:150-154 | overwriting objects does not change the body, and a second pass over the overwritten array changes nothing |
| Stack.SplitLines | src/logger_base.ts:166 | splitting on line feeds gives one piece more than there are line feeds, none containing a line feed |
| Stack.JoinSplit | src/logger_base.ts:166 | joining the pieces of a split with line feeds gives back the stack text |
| Stack.SplitJoin | src/logger_base.ts:166 | splitting the join of line-feed-free pieces gives back the pieces |
| Stack.DropSkipped | src/logger_base.ts:166 | slice(3) keeps the lines after the first three, in order, and is empty when there are at most three |
| Stack.SelectFrame | src/logger_base.ts:166-177 | selection fails (the thrown error) exactly when there is no stack text or it has fewer than three line feeds; a chosen frame holds no line feed |
| Stack.SelectFrameLine | src/logger_base.ts:166-177 | the chosen frame is line 3 + stackIndex of the stack text when that exists and is non-empty, otherwise line 3 |
| Stack.GetStackInfo | src/logger_base.ts:163-191 | resolution fails with NoStackFrame when selection fails, with FrameNotParsed when no regex matches the frame, and otherwise gives the relativised file and the captured line and column |
| Location.TruncatePath | src/logger_base.ts:139-143 | the shown path is a suffix of the path of length min(|path|, 25): the last 25 characters of a longer path, the whole of a shorter one |
| Location.PathField | src/logger_base.ts:139-145 | the path column is exactly 25 wide, ends with the path's last min(|path|, 25) characters and has only spaces before them |
| Location.LineField | src/logger_base.ts:145 | the line column is max(|line|, 5) wide, ends with the whole line text (a line number longer than 5 is not cut) and has only spaces before it |
| Location.LocationField | src/logger_base.ts:145 | the field is exactly the 25-wide path column, one space, then the line column |
| Location.LocationFieldReadBack | src/logger_base.ts:139-145 | removing leading spaces from the path column gives the shown path and from the line column the line text |
| Location.LocationFieldKeepsTail | src/logger_base.ts:139-145 | two paths ending in the same 25 characters get the same field |
| Location.GetFileNameLine | src/logger_base.ts:136-146 | the field is produced exactly when a frame is selected at index 1 and parsed, from that frame's relative path and line; otherwise the resolution error |
| Logger.FormatLine | src/logger_base.ts:81 | the printed line is the timestamp, a space, the three-letter code of the level name, a space, then the message, at those exact positions |
| Logger.CategoryMessage | src/logger_base.ts:101 | the message starts with the location, ends with the body, and has the tag between single spaces in between |
| Logger.ComposedLine | src/logger_base.ts:81-86 | formatting a category message gives timestamp, code, location, tag and body separated by single spaces |
| Logger.Log | src/logger_base.ts:100-114 | a category call prints a line exactly when the caller's location resolves; the line is timestamp, level code, the location field of the parsed frame's relative path and line, tag and body, separated by single spaces; otherwise it fails with the resolution error |
| Logger.LineLayout | src/logger_base.ts:81 | in the line printed for a caller at path p and line l (the shape `Log` ensures), the level code sits one column after the timestamp, the 25-wide path column of p's location field five columns after it followed by a space, and the line ends with the tag between single spaces and then the body |
| Logger.DefaultDebug | src/logger_base.ts:92-94 | defaultDebug prints the timestamp, DBG and the text, with no location or tag |
| Logger.DefaultError | src/logger_base.ts:96-98 | defaultError prints the timestamp, ERR and the text, with no location or tag |
| Logger.ExamplePathColumn | src/logger_base.ts:139-145 | the path src/db.ts is shown as 16 spaces and the path |
| Logger.ExampleLineColumn | src/logger_base.ts:145 | the line number 42 is shown as "   42" |
| Logger.ExampleLocation | src/logger_base.ts:145 | line 42 of src/db.ts gives 16 spaces, the path, a space, and "   42" |
| Logger.ExampleBody | src/logger_base.ts:148-158 | the arguments "connected" and {port: 5432} give the body connected, tab, {"port":5432}, tab |
| Logger.InfoExample | src/logger_base.ts:100-102 | info on the Db category with those arguments, called from line 42 of src/db.ts, prints exactly the expected line after the timestamp |

## Left out

- Transports and output: the winston logger, the daily-rotating file sink (file size 100 MB, 100 files, the `MAM_%DATE%.log` name) and the console sink are I/O configuration of a third-party library; only the shared printf format is modelled.
- Folder creation (`makeLoggerFolder`, `mkdirp`) is filesystem I/O.
- The timestamp (`moment().format(...)`) depends on the clock and locale; it is a parameter.
- Stack capture (`new Error().stack`) depends on the runtime; the stack text is a parameter.
- The two frame regexes rely on greedy backtracking; their outcome is the `parse` parameter, so no claim is made about which texts they match.
- `path.relative`, `path.basename` and `JSON.stringify` are foreign functions and are parameters; the `file` and `stack` fields of the stack info (basename and re-join) are not used by the location field and are not modelled.
- Body.GetLogString: a Symbol argument (`typeof` is "symbol", so it is not serialised) makes `args[i] + '\t'` throw a TypeError, and with it `info`, `warn`, `error` and `debug`; the model's arguments are only objects and values that convert to text, so this error path is not modelled.
- `JSON.stringify` throwing (circular values, BigInt) or returning `undefined` is not modelled: `serialize` always returns a string.
- The overwriting of object arguments happens on the rest-parameter array the call creates, so it is invisible to callers; `GetLogString` returns the overwritten sequence instead of mutating an array.
- Evaluation order: `getFileNameLine` runs before `getLogString`, so a failed resolution never reaches the body; `Log` returns only the error in that case.
- `getFuncName` is unused and depends on stack capture; `kMaxFilenameLength` is unused.
- The process-wide singleton instance adds nothing to verify.
- Levels.ToUpper: only ASCII letters are upper-cased; JavaScript's `toUpperCase` also maps other letters (for example dotless `ı` to `I`, `ß` to `SS`), so names with such letters may be looked up differently in the source.
- Padding.PadLeft: lengths are counted in characters, while JavaScript's `length` and `substr` count UTF-16 code units, so paths with characters outside the Basic Multilingual Plane are padded and cut differently in the source.
