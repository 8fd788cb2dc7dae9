/**
 * The indigo logging facade (package log): the severities, the process-wide
 * registry of provider factories, and IndigoLogger, the handle that owns one
 * provider, tags every message with its call site and forwards it.
 *
 * The Go package keeps the registry in a package variable; here it is a
 * Registry object that NewLogger is given. The caller's source position
 * (runtime.Caller), the clock (time.Now) and the text fmt.Sprintf makes of a
 * format and its arguments are inputs of the operations that use them.
 */
module Log {
  import opened Wrappers
  import opened GoStrings
  import opened Providers

  // ---------------------------------------------------------------------
  // Severities: the eight levels of section 6.2.1 of RFC 5424, most urgent first

  const LevelEmergency: int := 0
  const LevelAlert: int := 1
  const LevelCritical: int := 2
  const LevelError: int := 3
  const LevelWarning: int := 4
  const LevelNotice: int := 5
  const LevelInformational: int := 6
  const LevelDebug: int := 7

  /** The levels are 0 to 7, one apart, from Emergency to Debug. */
  lemma SeverityLevels()
    ensures LevelEmergency == 0 && LevelDebug == 7
    ensures LevelAlert == LevelEmergency + 1 && LevelCritical == LevelAlert + 1
    ensures LevelError == LevelCritical + 1 && LevelWarning == LevelError + 1
    ensures LevelNotice == LevelWarning + 1 && LevelInformational == LevelNotice + 1
    ensures LevelDebug == LevelInformational + 1
  {
  }

  // ---------------------------------------------------------------------
  // The provider registry

  /** How a call to Register ends: it returns, or it panics with a message. */
  datatype Outcome = Done | Panic(message: string)

  const NilProviderPanic: string := "log: Register provider is nil"

  function DuplicatePanic(name: string): string
  {
    "log: Register called twice for provider " + name
  }

  /**
   * The registry after Register(name, provider), and how the call ends.
   * A nil factory (None) and an already registered name both panic and
   * leave the registry as it was; otherwise exactly one entry is added.
   */
  function RegisterResult(providers: map<string, Factory>, name: string, provider: Option<Factory>)
    : (r: (map<string, Factory>, Outcome))
    ensures r.1.Done? <==> provider.Some? && name !in providers
    ensures r.1.Done? ==> r.0.Keys == providers.Keys + {name} && r.0[name] == provider.value
    ensures forall k :: k in providers ==> k in r.0 && r.0[k] == providers[k]
    ensures r.1.Panic? ==> r.0 == providers
    ensures provider.None? ==> r.1 == Panic(NilProviderPanic)
    ensures provider.Some? && name in providers ==> r.1 == Panic(DuplicatePanic(name))
  {
    if provider.None? then (providers, Panic(NilProviderPanic))
    else if name in providers then (providers, Panic(DuplicatePanic(name)))
    else (providers[name := provider.value], Done)
  }

  /** The `providers` map of the package, with Register. */
  class Registry {
    var providers: map<string, Factory>

    /** The map starts empty. */
    constructor ()
      ensures providers == map[]
    {
      providers := map[];
    }

    /** Register makes a provider factory available under a name. */
    method Register(name: string, provider: Option<Factory>) returns (out: Outcome)
      modifies this
      ensures (providers, out) == RegisterResult(old(providers), name, provider)
    {
      if provider.None? {
        return Panic(NilProviderPanic);
      }
      if name in providers {
        return Panic(DuplicatePanic(name));
      }
      providers := providers[name := provider.value];
      out := Done;
    }
  }

  /** One call to Register made while the program starts. */
  datatype Registration = Registration(name: string, provider: Option<Factory>)

  /**
   * Startup registration: the calls run in order, and the first panic ends
   * startup with the registry as it then was.
   */
  function RegisterAll(providers: map<string, Factory>, regs: seq<Registration>)
    : (r: (map<string, Factory>, Outcome))
    ensures providers.Keys <= r.0.Keys
    ensures r.0.Keys <= providers.Keys + (set i | 0 <= i < |regs| :: regs[i].name)
    decreases |regs|
  {
    if regs == [] then (providers, Done)
    else
      var r := RegisterResult(providers, regs[0].name, regs[0].provider);
      if r.1.Panic? then r
      else
        var rest := RegisterAll(r.0, regs[1..]);
        assert forall i :: 0 <= i < |regs| - 1 ==> regs[1..][i].name == regs[i + 1].name;
        rest
  }

  /**
   * Registrations that all succeed: no nil factory, no name already present,
   * no name twice.
   */
  ghost predicate Clean(providers: map<string, Factory>, regs: seq<Registration>)
  {
    (forall i :: 0 <= i < |regs| ==> regs[i].provider.Some? && regs[i].name !in providers) &&
    (forall i, j :: 0 <= i < j < |regs| ==> regs[i].name != regs[j].name)
  }

  /** Once a name is registered, later registrations never change its factory. */
  lemma {:induction false} RegisterAllKeeps(providers: map<string, Factory>, regs: seq<Registration>, name: string)
    requires name in providers
    ensures name in RegisterAll(providers, regs).0
    ensures RegisterAll(providers, regs).0[name] == providers[name]
    decreases |regs|
  {
    if regs != [] {
      var r := RegisterResult(providers, regs[0].name, regs[0].provider);
      if r.1.Done? {
        RegisterAllKeeps(r.0, regs[1..], name);
      }
    }
  }

  /**
   * Startup succeeds exactly when the registrations are clean, and then every
   * registered name maps to its own factory.
   */
  lemma {:induction false} RegisterAllSucceeds(providers: map<string, Factory>, regs: seq<Registration>)
    ensures RegisterAll(providers, regs).1.Done? <==> Clean(providers, regs)
    ensures RegisterAll(providers, regs).1.Done? ==>
              forall i :: 0 <= i < |regs| ==>
                regs[i].name in RegisterAll(providers, regs).0 &&
                RegisterAll(providers, regs).0[regs[i].name] == regs[i].provider.value
    decreases |regs|
  {
    if regs != [] {
      var first, rest := regs[0], regs[1..];
      var r := RegisterResult(providers, first.name, first.provider);
      if r.1.Done? {
        RegisterAllSucceeds(r.0, rest);
        RegisterAllKeeps(r.0, rest, first.name);
        if Clean(r.0, rest) {
          assert forall i :: 1 <= i < |regs| ==> regs[i] == rest[i - 1];
          assert Clean(providers, regs);
        }
        if Clean(providers, regs) {
          forall i | 0 <= i < |rest|
            ensures rest[i].provider.Some? && rest[i].name !in r.0
          {
            assert rest[i] == regs[i + 1];
          }
          forall i, j | 0 <= i < j < |rest|
            ensures rest[i].name != rest[j].name
          {
            assert rest[i] == regs[i + 1] && rest[j] == regs[j + 1];
          }
        }
      } else {
        assert !Clean(providers, regs) by {
          assert regs[0] == first;
        }
      }
    }
  }

  /** Registering one name twice makes startup panic, whatever the two factories are. */
  lemma RegisterTwicePanics(providers: map<string, Factory>, regs: seq<Registration>, i: nat, j: nat)
    requires i < j < |regs| && regs[i].name == regs[j].name
    ensures RegisterAll(providers, regs).1.Panic?
  {
    RegisterAllSucceeds(providers, regs);
  }

  // ---------------------------------------------------------------------
  // Call-site enrichment

  /** What runtime.Caller reports: whether the frame was found, its file and line. */
  datatype Caller = Caller(ok: bool, file: string, line: int)

  /**
   * The file and line the tag shows: those of a resolved caller, and for an
   * unknown one a file whose basename is "???" and a line that prints "0".
   */
  function CallSite(c: Caller): (r: (string, int))
    ensures c.ok ==> r == (c.file, c.line)
    ensures !c.ok ==> Base(r.0) == "???" && FormatInt(r.1) == "0"
  {
    BaseOfPlainName("???");
    if c.ok then (c.file, c.line) else ("???", 0)
  }

  /**
   * "[" + basename + ":" + decimal line + "]": a bracketed tag that reads
   * back as the call site's basename and line when the basename has no ':'.
   */
  function Tag(c: Caller): (r: string)
    ensures |r| >= 4 && r[0] == '[' && r[|r| - 1] == ']'
    ensures ':' !in Base(CallSite(c).0) ==>
              ParseTag(r) == Some(Tagged(Base(CallSite(c).0), CallSite(c).1, []))
  {
    var site := CallSite(c);
    var base := Base(site.0);
    if ':' in base then TagText(base, site.1)
    else
      BareTagReadsBack(base, site.1);
      TagText(base, site.1)
  }

  function TagText(file: string, line: int): (r: string)
    ensures |r| >= 4 && r[0] == '[' && r[|r| - 1] == ']'
  {
    "[" + file + ":" + FormatInt(line) + "]"
  }

  /** A tag with nothing after it reads back with an empty message. */
  lemma BareTagReadsBack(file: string, line: int)
    requires ':' !in file
    ensures ParseTag(TagText(file, line)) == Some(Tagged(file, line, []))
  {
    TagRoundTrip(file, line, []);
    assert TagText(file, line) + [] == TagText(file, line);
  }

  /**
   * The message writeMsg forwards: with enrichment on, the call site's tag
   * followed by the message itself; otherwise the message alone.
   */
  function Enriched(enabled: bool, c: Caller, msg: string): (r: string)
    ensures !enabled ==> r == msg
    ensures enabled ==> |r| == |Tag(c)| + |msg| && r[0] == '[' && r[|r| - |msg|..] == msg
  {
    if enabled then Tag(c) + msg else msg
  }

  /** A tagged message taken apart: file name, line, and the message after the tag. */
  datatype Tagged = Tagged(file: string, line: int, msg: string)

  /**
   * Reads a "[file:line]msg" message: the file name runs to the first ':',
   * the line to the first ']' after it.
   */
  function ParseTag(s: string): Option<Tagged>
  {
    if s == [] || s[0] != '[' then None
    else
      var rest := s[1..];
      match IndexOf(rest, ':')
      case None => None
      case Some(i) =>
        var after := rest[i + 1..];
        match IndexOf(after, ']')
        case None => None
        case Some(j) =>
          match ParseInt(after[..j])
          case None => None
          case Some(line) => Some(Tagged(rest[..i], line, after[j + 1..]))
  }

  /** A tag whose file name has no ':' reads back as the file, the line and the message. */
  lemma TagRoundTrip(file: string, line: int, msg: string)
    requires ':' !in file
    ensures ParseTag("[" + file + ":" + FormatInt(line) + "]" + msg) == Some(Tagged(file, line, msg))
  {
    var d := FormatInt(line);
    var s := "[" + file + ":" + d + "]" + msg;
    var rest := s[1..];
    assert rest == file + [':'] + (d + "]" + msg);
    IndexOfAfter(file, ':', d + "]" + msg);
    var after := rest[|file| + 1..];
    assert after == d + [']'] + msg;
    assert ']' !in d by {
      forall k | 0 <= k < |d| ensures d[k] != ']' { }
    }
    IndexOfAfter(d, ']', msg);
    assert after[..|d|] == d;
    assert after[|d| + 1..] == msg;
    assert rest[..|file|] == file;
    FormatIntRoundTrip(line);
  }

  /**
   * With enrichment on, the forwarded message is the tag of the call site
   * followed by the message itself, and the tag names the basename of the
   * file (free of '/') and the line.
   */
  lemma EnrichedReadsBack(c: Caller, msg: string)
    requires ':' !in Base(CallSite(c).0)
    ensures '/' !in Base(CallSite(c).0)
    ensures ParseTag(Enriched(true, c, msg)) == Some(Tagged(Base(CallSite(c).0), CallSite(c).1, msg))
  {
    var (file, line) := CallSite(c);
    TagRoundTrip(Base(file), line, msg);
  }

  /** An unknown caller is tagged "[???:0]". */
  lemma UnresolvedTag(c: Caller, msg: string)
    requires !c.ok
    ensures Enriched(true, c, msg) == "[???:0]" + msg
  {
    var (file, line) := CallSite(c);
    assert Base(file) == "???" && FormatInt(line) == "0";
    assert Tag(c) == "[???:0]";
  }

  // ---------------------------------------------------------------------
  // Errors of NewLogger

  const UnknownPrefix: string := "logs: unknown provider "
  const UnknownSuffix: string := " (forgotten Register?)"

  /**
   * The error NewLogger returns for a name nobody registered: fixed text
   * around the quoted name, which unquotes to the name.
   */
  function UnknownProvider(name: string): (e: GoError)
    ensures |e.text| >= |UnknownPrefix| + |UnknownSuffix| + 2
    ensures e.text[..|UnknownPrefix|] == UnknownPrefix
    ensures e.text[|e.text| - |UnknownSuffix|..] == UnknownSuffix
    ensures Unquote(e.text[|UnknownPrefix|..|e.text| - |UnknownSuffix|]) == Some(name)
  {
    var text := UnknownPrefix + Quote(name) + UnknownSuffix;
    assert text[|UnknownPrefix|..|text| - |UnknownSuffix|] == Quote(name);
    QuoteRoundTrip(name);
    GoError(text)
  }

  /** Recovers the provider name from an unknown-provider error text. */
  function UnknownProviderName(text: string): Option<string>
  {
    var p, q := |UnknownPrefix|, |UnknownSuffix|;
    if |text| >= p + q && text[..p] == UnknownPrefix && text[|text| - q..] == UnknownSuffix then
      Unquote(text[p..|text| - q])
    else None
  }

  /** The unknown-provider error names the provider, quoted so that it can be read back. */
  lemma UnknownProviderNamesIt(name: string)
    ensures UnknownProviderName(UnknownProvider(name).text) == Some(name)
  {
    var text := UnknownProvider(name).text;
    var p, q := |UnknownPrefix|, |UnknownSuffix|;
    assert text[..p] == UnknownPrefix;
    assert text[|text| - q..] == UnknownSuffix;
    assert text[p..|text| - q] == Quote(name);
    QuoteRoundTrip(name);
  }

  /** For a name of plain characters the error holds the name verbatim, in double quotes. */
  lemma UnknownProviderVerbatim(name: string)
    requires forall k :: 0 <= k < |name| ==> IsPlain(name[k])
    ensures UnknownProvider(name).text == UnknownPrefix + "\"" + name + "\"" + UnknownSuffix
    ensures UnknownProvider(name).text[|UnknownPrefix| + 1..|UnknownPrefix| + 1 + |name|] == name
  {
    QuotePlain(name);
    var text := UnknownProvider(name).text;
    assert text == (UnknownPrefix + "\"") + name + ("\"" + UnknownSuffix);
  }

  // ---------------------------------------------------------------------
  // The logger

  /** The provider an IndigoLogger owns, with the name it was registered under. */
  datatype LoggerProvider = LoggerProvider(lg: Provider, name: string)

  /** IndigoLogger: the logging handle. */
  class IndigoLogger {
    var level: int
    var enableFuncCallDepth: bool
    var loggerFuncCallDepth: int
    var provider: Option<LoggerProvider>

    /** new(IndigoLogger): every field at its zero value. */
    constructor ()
      ensures level == 0 && !enableFuncCallDepth && loggerFuncCallDepth == 0 && provider == None
    {
      level := 0;
      enableFuncCallDepth := false;
      loggerFuncCallDepth := 0;
      provider := None;
    }

    /** The logger has a provider: it was built and is not yet closed. */
    predicate Live()
      reads this
    {
      provider.Some?
    }

    /**
     * writeToLoggers: exactly one Write on the provider; an error from it
     * goes to the diagnostic stream and not to the caller.
     */
    method WriteToLoggers(when: Time, msg: string, level: int)
      requires Live()
      modifies provider.value.lg
      ensures provider.value.lg.trace == old(provider.value.lg.trace) + [WriteCall(when, msg, level)]
    {
      var err := provider.value.lg.Write(when, msg, level);
      if err.Some? {
        // reported on the process's standard error, then dropped
      }
    }

    /**
     * writeMsg: tags the message with its call site when enrichment is on and
     * forwards it, at the level given, whatever the logger's own level is.
     * It always returns nil.
     */
    method WriteMsg(logLevel: int, msg: string, when: Time, caller: Caller) returns (err: Option<GoError>)
      requires Live()
      modifies provider.value.lg
      ensures err == None
      ensures provider.value.lg.trace
           == old(provider.value.lg.trace) + [WriteCall(when, Enriched(enableFuncCallDepth, caller, msg), logLevel)]
    {
      var text := msg;
      if enableFuncCallDepth {
        var file, line := caller.file, caller.line;
        if !caller.ok {
          file := "???";
          line := 0;
        }
        var filename := Split(file).1;
        text := "[" + filename + ":" + FormatInt(line) + "]" + text;
      }
      WriteToLoggers(when, text, logLevel);
      err := None;
    }

    /** Close: Destroy the provider, then drop it. */
    method Close()
      requires Live()
      modifies this, provider.value.lg
      ensures provider == None
      ensures old(provider.value.lg).trace == old(provider.value.lg.trace) + [DestroyCall]
      ensures level == old(level) && enableFuncCallDepth == old(enableFuncCallDepth)
      ensures loggerFuncCallDepth == old(loggerFuncCallDepth)
    {
      provider.value.lg.Destroy();
      provider := None;
    }

    /**
     * Error logs at LevelError. `formatted` is what fmt.Sprintf makes of the
     * caller's format and arguments; the message starts with "[E] ".
     */
    method Error(formatted: string, when: Time, caller: Caller)
      requires Live()
      modifies provider.value.lg
      ensures provider.value.lg.trace
           == old(provider.value.lg.trace)
              + [WriteCall(when, Enriched(enableFuncCallDepth, caller, "[E] " + formatted), LevelError)]
    {
      var _ := WriteMsg(LevelError, "[E] " + formatted, when, caller);
    }
  }

  /**
   * NewLogger looks the name up, builds the provider and initialises it with
   * the configuration. `built` is the provider the factory returned, if any.
   */
  method NewLogger(registry: Registry, name: string, config: string)
    returns (logger: IndigoLogger?, err: Option<GoError>, ghost built: Provider?)
    ensures name !in registry.providers ==>
              logger == null && err == Some(UnknownProvider(name)) && built == null
    ensures name in registry.providers ==>
              built != null && fresh(built) &&
              built.impl == registry.providers[name] && built.trace == [InitCall(config)]
    ensures name in registry.providers && InitOutcome(registry.providers[name], config).Some? ==>
              logger == null && err == InitOutcome(registry.providers[name], config)
    ensures name in registry.providers && InitOutcome(registry.providers[name], config).None? ==>
              logger != null && fresh(logger) && err == None &&
              logger.level == LevelError && logger.enableFuncCallDepth &&
              logger.loggerFuncCallDepth == 2 &&
              logger.provider == Some(LoggerProvider(built, name))
  {
    var lgr := new IndigoLogger();
    lgr.level := LevelError;
    lgr.enableFuncCallDepth := true;
    lgr.loggerFuncCallDepth := 2;
    if name !in registry.providers {
      return null, Some(UnknownProvider(name)), null;
    }
    var factory := registry.providers[name];
    var lg := new Provider(factory);
    built := lg;
    var initErr := lg.Init(config);
    if initErr.Some? {
      // reported on the process's standard error as well
      return null, initErr, built;
    }
    lgr.provider := Some(LoggerProvider(lg, name));
    logger, err := lgr, None;
  }
}
