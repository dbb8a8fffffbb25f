# golog in Dafny

A model of `log/golog.go` from zhwei820/golog. This is the package's thin layer over the
`github.com/mkideal/log` logging engine:

- **Init** builds a logger from a `/`-separated list of provider type names such as
  `"file/console"`. Each name is trimmed of white space. Repeated names are dropped, each
  distinct name is looked up in the provider registry, and its constructor runs with one
  options string. One provider is used as it is; several are wrapped in a mix provider.
- **InitWithProvider** and **InitSyncWithProvider** set level INFO and start the logger.
  **InitWithLogger** starts the logger it is given. **Uninit** stops it.
- **The two HTTP handlers** read the logger's level, or change it from a `level` form value.
  **SetLevelFromString** sets whatever level the parser gives.
- **makeFileOpts** turns a log file path into the JSON options text of the file provider,
  `{"dir":…,"filename":…}`.

The engine is not modelled. Its logger is a class with the three fields the package touches:
the provider, the level and whether the logger runs. Its provider handles are values recording
which constructor built them from which options. The registry (`logger.Lookup`) is a map passed
to `Init`. Level parsing and printing (`ParseLevel`, `Level.String`) are a pair of functions
passed as a `LevelSyntax` value. The Go standard-library pieces the code relies on are modelled
in `GoStrings` and `Quoting`: `strings.Split`, `strings.TrimSpace`, `filepath.Split` and
`strconv.Quote`. `filepath.Split` is modelled as it behaves on Unix: '/' is the only separator
and there are no volume names.

Files and modules:

- `results.dfy` (`Results`): `Option` and `Result`.
- `levels.dfy` (`Levels`): the six levels and the abstract level syntax.
- `providers.dfy` (`Providers`): provider handles, constructors, the registry.
- `gostrings.dfy` (`GoStrings`): split, trim and path split, with their reference properties.
- `quoting.dfy` (`Quoting`): Go and JSON string literals, each with a writer and a reader. The
  reader undoes the writer, and the lemmas say where the two syntaxes part.
- `fileopts.dfy` (`FileOpts`): makeFileOpts as written, and with JSON quoting.
- `golog.dfy` (`Golog`): the logger class, the Init family, the handlers.

### Where the model follows the code rather than its description

- `Init` lists the distinct names by ranging over a Go map (log/golog.go:87). Both of these
  are therefore unspecified:
  - the order of the providers inside the mix;
  - which constructors have already run when an unregistered name is met.
- The model picks each next name with `:|`. It returns the names whose constructors ran as
  `calls`, in the order they ran.
- The contracts promise no "first encountered" order. They also do not promise that an unknown
  name is reported before any constructor runs. Neither holds for the code.
- `strings.Split` never returns an empty list, so the `len(types) == 0` test in Init is dead.
  Only the empty string reaches "empty providers".
- The doc comments call `InitWithProvider` "sync" and `InitSyncWithProvider` "async". The code
  does the opposite: `logger.New` and `logger.NewSync`. The model records which constructor
  was used in the `sync` field, as the code does.
- `makeFileOpts` quotes both values with `strconv.Quote`, which writes Go literals. Its JSON
  consumer expects JSON strings. See Findings.
- With a single name, Go returns from inside the creation loop (log/golog.go:95-97). The model
  starts the logger right after the loop instead (`StartProviders`). With one name the loop has
  then visited exactly that name, so the effect is the same.

## Model

| member | source | states |
|---|---|---|
| `Golog.Init` | log/golog.go:57-101 | "" gives Err("empty providers") and runs no constructor. Success holds exactly when every trimmed name is registered. Otherwise the error names some unregistered name. Each distinct name's constructor runs at most once, always for a listed and registered name. On success every distinct name's constructor ran, and the logger runs at level INFO. One name: its provider unwrapped. Several: a Mix of one provider per name, in the order the constructors ran, all built from the same options string |
| `Golog.CleanTypes` | log/golog.go:78-83 | the set it builds is exactly the trimmed pieces, once each |
| `Golog.CreateProviders` | log/golog.go:85-99 | visits each distinct name at most once and stops at an unregistered one, which it reports. If it reports none, all names are registered and all were visited. The providers are the listed constructors' results for the options string, in call order |
| `Golog.StartProviders` | log/golog.go:85-100 | the creation step as a whole: error exactly when some name is unregistered, one provider unwrapped, several in a Mix, logger started at INFO |
| `Golog.ProgressStep` | log/golog.go:87-98 | visiting one more registered name keeps the loop's bookkeeping: no name twice, visited plus remaining is the whole set |
| `Golog.ProgressDone` | log/golog.go:87-99 | when nothing remains, every name was visited once and all are registered |
| `Golog.TrimmedNamesHas` | log/golog.go:80-82 | every trimmed piece is among the names looked up |
| `Golog.TrimmedNamesFrom` | log/golog.go:80-82 | every name looked up is some trimmed piece |
| `Golog.TrimmedNamesConcat` | log/golog.go:80-82 | the names of two lists of pieces are the union of each list's names |
| `Golog.TypeNamesConcat` | log/golog.go:59-83 | the names of `a/b` are the names of `a` united with the names of `b` |
| `Golog.TypeNamesPiece` | log/golog.go:59-82 | a piece without '/' names exactly its trimmed self |
| `Golog.TypeNamesRepeat` | log/golog.go:78-83 | `a/a` names exactly what `a` names |
| `Golog.RepeatedName` | log/golog.go:78-83 | a list like "file/file/console" names just its two distinct names |
| `Golog.TrimmedNamesPointwise` | log/golog.go:80-82 | two lists whose pieces trim alike, place by place, give the same names |
| `Golog.TrimmedNamesPadded` | log/golog.go:80-82 | white space added before and after any one piece of a list, of any amount and independently on each side, does not change the names |
| `Golog.TypeNamesPadded` | log/golog.go:59-82 | the same for the text Init receives: adding white space before and after any piece of the list, independently on each side, does not change the names looked up |
| `Golog.TrimmedNames` | log/golog.go:78-83 | at most one name per piece, and at least one for a non-empty list |
| `Golog.TypeNames` | log/golog.go:59-83 | every list, even "", names at least one type, and never more types than it has pieces |
| `Golog.OptsString` | log/golog.go:66-76 | the options string is the value itself if it is a string, else its JSON text if it has one, else its `String()` text, else its `%v` formatting |
| `Golog.UnregisteredError` | log/golog.go:90 | the message is the prefix "unregistered provider type: " followed by exactly the name looked up |
| `Golog.Logger.New` | log/golog.go:44 | a logger over exactly the given provider, not running, not synchronous |
| `Golog.Logger.NewSync` | log/golog.go:51 | a logger over exactly the given provider, not running, synchronous |
| `Golog.Logger.GetLevel` | log/golog.go:154 | the logger's current level |
| `Golog.InitWithLogger` | log/golog.go:36-40 | hands back the same logger, now started, and never fails |
| `Golog.InitWithProvider` | log/golog.go:43-47 | a new logger over exactly the given provider, at INFO, started, built by `logger.New` |
| `Golog.InitSyncWithProvider` | log/golog.go:50-54 | the same, built by `logger.NewSync` |
| `Golog.Uninit` | log/golog.go:31-33 | the logger is stopped; nothing else changes (also `DeferLogger`, log/golog.go:253-255) |
| `Golog.Logger.SetLevel` | log/golog.go:155 | the level becomes the given one; provider and running flag stay |
| `Golog.Logger.Run` | log/golog.go:38 | the logger runs; only the running flag changes |
| `Golog.Logger.Quit` | log/golog.go:32 | the logger stops; only the running flag changes |
| `Golog.SetLevelTransition` | log/golog.go:166-188 | 400 exactly when the level does not parse, with "invalid log level: " and the value as body. 304 exactly when it parses to the current level. 200 exactly when it parses to another level. The level changes exactly on 200, to the parsed one. Apart from 400, the body the handler writes is the old level's text |
| `Golog.HandleSetLevel` | log/golog.go:166-188 | the response and the logger's new level are the transition for the old level and the requested value |
| `Golog.HandleGetLevel` | log/golog.go:158-162 | status 200 and the current level's text; nothing changes |
| `Golog.SetLevelRepeat` | log/golog.go:172-183 | sending the same request again changes nothing and writes status 304 (400 if it does not parse) |
| `Golog.SetCurrentLevel` | log/golog.go:178-182 | when the printer's text parses back, asking for the current level's own name writes status 304 and that name |
| `Golog.SetLevelUndo` | log/golog.go:185-186 | when the printer's text parses back, sending back the body of a 200 restores the old level |
| `Golog.SetLevelFromString` | log/golog.go:192-196 | sets and returns the level the parser gives, whether or not the parse succeeded |
| `Providers.Construct` | log/golog.go:94-100 | one provider per name, in order, each built by that name's constructor from the same options |
| `GoStrings.Split` | log/golog.go:59 | at least one piece, no piece holds the separator, and the pieces joined by it give the input back |
| `GoStrings.SplitJoin` | log/golog.go:59 | splitting a join of separator-free pieces gives the pieces, so Split's result is the only one |
| `GoStrings.SplitNoSeparator` | log/golog.go:59 | a string without the separator is one piece |
| `GoStrings.SplitConcat` | log/golog.go:59 | splitting `a/b` gives the pieces of `a` followed by those of `b` |
| `GoStrings.TrimLeft` | log/golog.go:81 | a suffix of the input that is empty or starts with a non-space; only white space was dropped |
| `GoStrings.TrimRight` | log/golog.go:81 | a prefix of the input that is empty or ends with a non-space; only white space was dropped |
| `GoStrings.IsSpace` | log/golog.go:81 | `unicode.IsSpace`'s set; on ASCII exactly tab, newline, vertical tab, form feed, carriage return and space |
| `GoStrings.TrimSpace` | log/golog.go:81 | never longer than its input, and empty exactly when the input is all white space |
| `GoStrings.TrimSpaceEnds` | log/golog.go:81 | a trimmed name neither starts nor ends with white space |
| `GoStrings.TrimSpacePadding` | log/golog.go:81 | white space added on both sides does not change the trimmed result |
| `GoStrings.SplitPath` | log/golog.go:118 | directory plus file name is the path; the file name has no '/'; the directory is empty or ends in '/' |
| `GoStrings.SplitPathUnique` | log/golog.go:118 | those three properties determine the split |
| `Quoting.EscapeChar` | log/golog.go:122 | a character's spelling is never empty: either the character itself, which the reader then accepts raw, or a backslash sequence of at least two characters |
| `Quoting.Escape` | log/golog.go:122 | the escaped body is never shorter than the value |
| `Quoting.Quote` | log/golog.go:122 | the literal starts and ends with a double quote |
| `Quoting.HexValue` | log/golog.go:122 | reads back every hex digit the writer emits, as its value below 16 |
| `Quoting.ReadEscapeChar` | log/golog.go:122 | reading one character's spelling gives the character back and goes on after the spelling |
| `Quoting.ReadBodyEscapeStep` | log/golog.go:122 | one more escaped character in front of a readable body is read back in front of its value |
| `Quoting.ReadBodyEscape` | log/golog.go:122 | the reader turns an escaped body followed by the closing quote back into the value and the rest |
| `Quoting.ReadQuoteRoundTrip` | log/golog.go:122 | in either syntax, reading a quoted value gives back the value and the text after it |
| `Quoting.GoEscapeIsJson` | log/golog.go:122 | without BEL, VT, other control characters or DEL, Go's spelling is JSON's |
| `Quoting.SharedEscapeRefused` | log/golog.go:122 | a character Go and JSON spell alike does not turn a refused text into an accepted one |
| `Quoting.GoQuoteNotJson` | log/golog.go:122 | a JSON reader refuses Go's spelling of any string holding one of those characters |
| `FileOpts.FileLocation` | log/golog.go:118-121 | the file name has no '/'. The directory is "." exactly when the path has no '/', and then the file name is the whole path. Otherwise directory plus file name is the path, and the directory ends in '/' |
| `FileOpts.RenderFileOpts` | log/golog.go:122 | the text is a JSON-shaped object: it starts with `{"dir":` and ends with `}` |
| `FileOpts.MakeFileOpts` | log/golog.go:117-123 | makeFileOpts as written gives a text of that shape for every path |
| `FileOpts.MakeFileOptsJson` | log/golog.go:117-123 | with JSON quoting the text has the same shape for every path |
| `FileOpts.RenderRoundTrip` | log/golog.go:122 | reading the options text back gives the directory and file name it was written from |
| `FileOpts.MakeFileOptsRoundTrip` | log/golog.go:117-123 | a Go-literal reader recovers the path's directory and file name from makeFileOpts as written |
| `FileOpts.MakeFileOptsJsonRoundTrip` | log/golog.go:117-123 | with JSON quoting, a JSON reader recovers the directory and file name for every path |
| `FileOpts.MakeFileOptsAgree` | log/golog.go:117-123 | for paths without such characters the as-written text is that JSON text |
| `FileOpts.MakeFileOptsNotJson` | log/golog.go:117-123 | for a path holding BEL, VT, another control character or DEL, a JSON reader refuses the as-written text |
| `FileOpts.BellFileNameNotJson` | log/golog.go:122 | the one-character path BEL already gives a text a JSON reader refuses |

## Left out

- The `github.com/mkideal/log` engine is foreign and not shown. Not modelled: its logger
  internals, the asynchronous queue and worker, the real providers and what `NewMixProvider`
  does with its children. Providers are opaque handles that record their constructor and
  options.
- `ParseLevel` and `Level.String` are foreign and given as parameters. Where a property needs
  their agreement (`SetCurrentLevel`, `SetLevelUndo`), it is a stated assumption (`ShowParses`).
- `Golog.SetLevelFromString`: does not promise INFO on a failed parse, which the comment at
  log/golog.go:191 claims. That depends on the foreign `ParseLevel`. The contract only says the
  parser's level is set.
- The numeric level constants (log/golog.go:15-22) and `makeConsoleOpts`, whose output is those
  numbers.
- `makeMultiFileOpts` (log/golog.go:141-143) pastes its arguments unescaped into JSON, a quoting
  hazard. Not modelled, and neither are the convenience constructors that only pass fixed names
  and options to `Init` or `InitWithProvider`. Those are `InitConsole`, `InitColoredConsole`,
  `InitFile`, `InitFileAndConsole`, `InitMultiFile` and `InitMultiFileAndConsole`.
- `GoLogger` and its forwarding methods, `NoHeader`, `MustParseLevel`: they only forward to the
  foreign engine.
- `GetLogger` (log/golog.go:243-251) is the package's own code, not a forward. It calls
  `InitFile`, which is not modelled (see above). When that fails, the logger it got is nil, and
  it calls `LError` on a `GoLogger` wrapping that nil logger. That call would reach the nil
  value and fail at run time, and run-time panics are outside this model.
- `GoStrings.SplitPath`: models `filepath.Split` on Unix only. '/' is the only separator and
  volume names do not exist. On Windows, `\` and a leading volume name such as `C:` also split.
- `Golog.HandleSetLevel`: two effects of `net/http` are not modelled.
  - 304 body. At log/golog.go:180-181 the handler sets status 304 and then writes the level's
    text. `net/http` allows no body with a 304: that write fails with `ErrBodyNotAllowed`, which
    the handler ignores. The client so gets 304 with an empty body. The model's
    `Response.body` is what the handler tries to write.
  - Concurrency. The level is read (log/golog.go:178) and set (log/golog.go:185) in separate
    calls, and `net/http` serves requests concurrently. Two simultaneous requests can both get
    200 with the same old level, and the later write wins. The model makes each request one
    atomic step.
- HTTP plumbing (`ParseForm`, `FormValue`, `ResponseWriter`). A handler is one request: the
  form value in, a status code and a body out. 200 is the status Go sends when the handler sets
  none.
- `Init`'s `opts` type switch works on Go's dynamic types. It is an `OptsValue` record listing
  the views the value offers, and the first view that applies wins, in the switch's order.
- `fmt.Sprintf("%v")` formatting is a given string in `OptsValue`.
- Strings are sequences of Unicode scalar values, not Go's byte strings. `strings.Split`,
  `TrimSpace` and `filepath.Split` act the same on both for the ASCII separators involved.
- `Quoting.Quote`: for characters outside ASCII, does not model `strconv.Quote`'s escaping of
  unprintable runes (`\u`, `\U`). They are kept verbatim. Every ASCII character is spelled as Go
  spells it.
- Concurrency: the engine's goroutines and the global logger of `main.go` are not part of this
  model.

## Findings

| source | as written | input that shows it | evidently intended | confidence | as-written member | corrected member |
|---|---|---|---|---|---|---|
| log/golog.go:122 | The directory and file name are quoted with `strconv.Quote`, which writes Go literals (`\a`, `\v`, `\xhh`), inside a JSON object | fullpath = "\x07" (a BEL as file name) gives `{"dir":".","filename":"\a"}`, which a JSON reader refuses | JSON string quoting (`\u0007`), so that the file provider's JSON reader gets the path back | not executed | `FileOpts.MakeFileOptsNotJson` | `FileOpts.MakeFileOptsJsonRoundTrip` |
