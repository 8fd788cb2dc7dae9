# indigo `log`: a verified model of the logging facade

The `log` package of indigo is a small logging facade with two parts:

- a process-wide registry that maps a provider name to a factory for it;
- `IndigoLogger`, a handle that owns one provider. It tags each message with the
  caller's `[file:line]` and forwards it to the provider's `Write`.

Providers implement the `Logger` interface (`Init`, `Write`, `Destroy`). The console
provider registers itself under the name `"console"`.

The model has four modules:

- `Wrappers` (`wrappers.dfy`): `Option`, which stands for Go's nil-able values.
- `GoStrings` (`gostrings.dfy`): the three standard-library string operations the
  logger relies on. These are `path.Split`, `strconv.FormatInt(n, 10)` and the `%q`
  verb. Each has an independent inverse or characterisation, and a lemma connects
  the two: `Split` is the only cut with its three properties, `FormatInt` reads back
  through `ParseInt`, and `Quote` reads back through `Unquote`.
- `Providers` (`providers.dfy`): the `Logger` interface as a `Provider` class. A
  provider's observable behaviour is the trace of calls it has received. A `Factory`
  is either the console provider, whose `Init` and `Write` never fail, or an
  external backend whose failures are given as data.
- `Log` (`log.dfy`): the package itself.
  - The eight RFC 5424 severities.
  - The registry, as a `Registry` class. Its map field is updated by `Register`.
    Registration at startup is modelled by `RegisterAll`.
  - Call-site enrichment (`Enriched`) and a reader for the tag (`ParseTag`).
  - The error for an unknown provider.
  - The `IndigoLogger` class with `WriteToLoggers`, `WriteMsg`, `Close` and `Error`.
  - `NewLogger`.

A logger goes through three states:

1. Not built: `NewLogger` returns `null`.
2. Live: `provider` is `Some`.
3. Closed: `provider` is `None` again.

Every method that uses the provider requires the logger to be live.

Four facts about the code are worth knowing:

- `NewLogger` sets the default level to `LevelError`.
- An `Init` error is returned unwrapped.
- The logger's level never filters a message.
- Closing twice, or logging after `Close`, is a precondition violation.

## Model

| member | source | states |
|---|---|---|
| `GoStrings.LastIndex` | log/log.go:93 | the result is -1 or a position of the character, and no later position holds it (the search `path.Split` performs) |
| `GoStrings.Base` | log/log.go:93 | the file part `path.Split` gives: it has no '/', it ends the path, and it is the whole path or follows a '/' |
| `GoStrings.Split` | log/log.go:93 | the directory and file parts concatenate to the path, the file part has no '/', and the directory part is empty or ends in '/' |
| `GoStrings.SplitUnique` | log/log.go:93 | any cut of the path with those three properties is the one `Split` returns, so the basename is exactly the text after the last '/' |
| `GoStrings.BaseOfPlainName` | log/log.go:93 | a file name without '/' is its own basename |
| `GoStrings.BaseAfterSlash` | log/log.go:93 | the basename of `dir + "/" + name` is `name` when `name` has no '/' |
| `GoStrings.NatDigits` | log/log.go:94 | the decimal digits of a natural number are non-empty, all digits, and have no leading zero except for 0 itself |
| `GoStrings.FormatInt` | log/log.go:94 | the base-10 text of a line number is non-empty, starts with '-' exactly when the number is negative, and is otherwise all digits |
| `GoStrings.NatDigitsRoundTrip` | log/log.go:94 | the digits denote the number they were written from |
| `GoStrings.FormatIntRoundTrip` | log/log.go:94 | `ParseInt(FormatInt(n)) == Some(n)` for every integer |
| `GoStrings.FormatIntInjective` | log/log.go:94 | two different line numbers never print the same |
| `GoStrings.Escape` | log/log.go:65 | `%q` writes a character unchanged exactly when it is printable ASCII other than `"` and `\`, or (in this model) non-ASCII; otherwise it writes a backslash escape of 2 to 4 characters |
| `GoStrings.QuoteBody` | log/log.go:65 | the escaped characters in order; the escaped text is never shorter than the original |
| `GoStrings.Quote` | log/log.go:65 | `%q` of a string is the escaped text between double quotes |
| `GoStrings.QuoteRoundTrip` | log/log.go:65 | `%q` quoting loses nothing: unquoting the quoted name gives the name back |
| `GoStrings.QuotePlain` | log/log.go:65 | a name of printable ASCII characters other than `"` and `\` is quoted by putting it between double quotes, unchanged |
| `Providers.ConsoleNeverFails` | log/console.go:21-29 | the console provider's `Init` accepts every configuration, and its `Write` never fails |
| `Providers.Provider.constructor` | log/console.go:12-18 | calling a factory gives a fresh provider of that kind that has received no call |
| `Providers.Provider.Init` | log/log.go:24 | `Init` is recorded once and returns the outcome its factory fixes for that configuration |
| `Providers.Provider.Write` | log/log.go:25 | `Write` is recorded once with its time, message and level, and returns the factory's write outcome |
| `Providers.Provider.Destroy` | log/log.go:26 | `Destroy` is recorded once |
| `Log.SeverityLevels` | log/log.go:11-20 | the severities are 0 (Emergency) to 7 (Debug), one apart, in the order of section 6.2.1 of RFC 5424 |
| `Log.RegisterResult` | log/log.go:33-41 | registration succeeds exactly when the factory is non-nil and the name is absent. It then adds exactly that entry. Existing entries never change. A nil factory panics with "log: Register provider is nil". A duplicate name panics with "log: Register called twice for provider " + name. After a panic the map is unchanged |
| `Log.Registry.constructor` | log/log.go:29 | the registry starts empty |
| `Log.Registry.Register` | log/log.go:33-41 | the new map and the outcome are those of `RegisterResult` on the old map |
| `Log.RegisterAll` | log/console.go:33-35 | startup registrations run in order until the first panic; they never remove a name and add only names they register |
| `Log.RegisterAllKeeps` | log/log.go:29-41 | once a name is registered, any later sequence of registrations leaves its factory unchanged, so lookups of it always return the same factory |
| `Log.RegisterAllSucceeds` | log/log.go:33-41 | startup registration ends without a panic exactly when no factory is nil, no name was already present and no name is registered twice. Every name then maps to its own factory |
| `Log.RegisterTwicePanics` | log/log.go:37-39 | registering one name twice panics, whether or not the two factories are the same |
| `Log.CallSite` | log/log.go:87-92 | a resolved caller is shown with its own file and line; an unresolved one with basename "???" and line text "0" |
| `Log.Tag` | log/log.go:93-94 | the tag is bracketed, and reads back as the call site's basename and line when the basename has no ':' |
| `Log.Enriched` | log/log.go:87-95 | with enrichment on, the forwarded text is the tag followed by the whole message; with it off, the message alone |
| `Log.TagRoundTrip` | log/log.go:94 | `"[" + file + ":" + decimal(line) + "]" + msg` reads back as file, line and msg whenever the file name has no ':' |
| `Log.EnrichedReadsBack` | log/log.go:87-94 | with enrichment on, the forwarded text is the tag of the call site followed by the unchanged message. The tag names the '/'-free basename of the caller's file and the caller's line |
| `Log.UnresolvedTag` | log/log.go:89-92 | when the caller cannot be resolved, the message is prefixed with exactly "[???:0]" |
| `Log.UnknownProvider` | log/log.go:65 | the unknown-provider error is `logs: unknown provider ` and ` (forgotten Register?)` around a quoted text that unquotes to the name |
| `Log.UnknownProviderNamesIt` | log/log.go:65 | the unknown-provider error text carries the quoted provider name, and the name can be read back from it |
| `Log.UnknownProviderVerbatim` | log/log.go:65 | for a name of printable ASCII characters other than `"` and `\` the error text is `logs: unknown provider "name" (forgotten Register?)` and holds the name verbatim |
| `Log.IndigoLogger.constructor` | log/log.go:59 | a new logger has all fields at their zero values and no provider |
| `Log.IndigoLogger.WriteToLoggers` | log/log.go:78-84 | exactly one `Write` reaches the provider, with the same time, message and level. A write error is not propagated |
| `Log.IndigoLogger.WriteMsg` | log/log.go:85-98 | exactly one `Write` reaches the provider. It carries the given level, with no filtering against the logger's level, and the enriched message. The call returns nil even when `Write` fails |
| `Log.IndigoLogger.Close` | log/log.go:100-103 | the provider receives exactly one `Destroy`, the provider slot is then empty, and the other fields are unchanged |
| `Log.IndigoLogger.Error` | log/log.go:106-109 | one `Write` at `LevelError` whose message is the enrichment of `"[E] "` followed by the formatted text |
| `Log.NewLogger` | log/log.go:58-76 | Unknown name: no logger, an error naming it, and no provider built. Otherwise the factory's provider is built and initialised once with the configuration. If `Init` fails, there is no logger and that same error is returned. If `Init` succeeds, a fresh logger has level `LevelError`, enrichment on, call depth 2, and owns the provider under the requested name |

## Left out

- The registry is an object passed to `NewLogger`, not a package variable. `init()` in log/console.go:33-35 registers the console provider at load time. This load-time wiring is not modelled; `RegisterAll` models an arbitrary sequence of startup registrations instead.
- Caller resolution is not modelled. `runtime.Caller(loggerFuncCallDepth)` is foreign runtime code, so the model takes its result `(ok, file, line)` as an input. The call depth is stored but is not interpreted.
- `time.Now()` is not modelled. The timestamp is an input and is passed through unchanged.
- `fmt.Sprintf` on a format and variadic `interface{}` arguments is not modelled. `Error` takes the formatted text as input. This is exact: the `"[E] "` prefix holds no formatting verb, so formatting it together with the format gives the same text as prefixing the formatted text.
- Writes to the standard error stream are not modelled. These are the `Init` failure notice and the `Write` failure notice. They are diagnostic output only; the model shows that neither error reaches the caller of a log method.
- Go panics with a nil dereference when a logger is used after `Close`, or closed twice. `WriteToLoggers`, `WriteMsg`, `Close` and `Error` therefore require a live logger; the crash itself is not modelled.
- The console provider's `logWriter`, which prints to stdout, is not part of this model. Its output is represented by the provider's trace of `Write` calls.
- `GoStrings.Quote`: models `strconv.Quote` for ASCII only. It escapes `"`, `\`, the C control escapes and other ASCII control characters as `\xhh`. It does not model the `\u`/`\U` escapes for non-printable non-ASCII characters or the handling of invalid UTF-8 bytes, because Go strings are bytes and the model's strings are Unicode characters.
- `GoStrings.Escape`: keeps every non-ASCII character unchanged, while Go writes the non-printable ones (for example U+00A0) as `\u` escapes; see the line on `GoStrings.Quote`.
- `int64(line)` in log/log.go:94 is not modelled as a separate conversion. The line is an unbounded integer, and the conversion never changes a line number's value.
- Concurrency: there is none in the package.
